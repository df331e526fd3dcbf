/** The poll schedule as a value: which peers are polled, which polls run, and what a launch pass,
    a completion, a wake and a refresh do to it.

    A peer is its position in the order of peer names, and time is in milliseconds. */
module PollSchedule {
  import opened Durability

  type Peer = nat

  datatype Config = Config(
    maxInFlight: nat,
    activeInterval: nat,
    activeHold: nat,
    idleMaxInterval: nat,
    failureMaxInterval: nat)

  datatype PeerPoll = PeerPoll(
    due: nat,
    idleStreak: u32,
    failureStreak: u32,
    timeoutStreak: u32,
    inFlight: bool,
    woken: bool,
    lastDelivery: Option<nat>,
    hotUntil: nat)

  /** `running` is the set of polls in progress as the runtime holds it: a list that nothing but
      this schedule keeps free of repeats. */
  datatype Schedule = Schedule(peers: map<Peer, PeerPoll>, running: seq<Peer>, wokenTurn: bool)

  datatype PollOutcome = Delivered | Empty | PollFailed | PollTimedOut

  function NewPeer(now: nat, hold: nat): PeerPoll {
    PeerPoll(now, 0, 0, 0, false, false, None, now + hold)
  }

  function Slots(cfg: Config): nat {
    Max(cfg.maxInFlight, 1)
  }

  /** The share of the slots open to polls whose deadline was stretched. */
  function Quota(slots: nat): nat {
    Max(slots / 2, 1)
  }

  function StretchedRunning(peers: map<Peer, PeerPoll>): set<Peer> {
    set p | p in peers && peers[p].inFlight && peers[p].timeoutStreak > 0
  }

  function StretchedFree(s: Schedule, slots: nat): nat {
    SaturatingSub(Quota(slots), |StretchedRunning(s.peers)|)
  }

  function Backoff(base: nat, streak: u32, cap: nat): nat {
    Min(base * Pow2(Min(streak, 16)), cap)
  }

  /** Any point in the last quarter of the interval. */
  function Jitter(interval: nat, shortening: nat): nat {
    interval - Min(shortening, interval / 4)
  }

  // ----- launching -----

  predicate Candidate(s: Schedule, now: nat, stretchedFree: nat, p: Peer) {
    && p in s.peers
    && !s.peers[p].inFlight
    && !(stretchedFree == 0 && s.peers[p].timeoutStreak > 0)
    && s.peers[p].due <= now
  }

  function Candidates(s: Schedule, now: nat, stretchedFree: nat, woken: bool): set<Peer> {
    set p | p in s.peers && Candidate(s, now, stretchedFree, p) && s.peers[p].woken == woken
  }

  /** Longest overdue first, then by name. */
  predicate Before(peers: map<Peer, PeerPoll>, a: Peer, b: Peer) {
    && a in peers && b in peers
    && (peers[a].due < peers[b].due || (peers[a].due == peers[b].due && a < b))
  }

  predicate Ascending(peers: map<Peer, PeerPoll>, queue: seq<Peer>) {
    forall i, j | 0 <= i < j < |queue| :: Before(peers, queue[i], queue[j])
  }

  /** The `n` earliest of the candidates in due order. */
  ghost predicate IsQueue(peers: map<Peer, PeerPoll>, candidates: set<Peer>, n: nat, queue: seq<Peer>) {
    && |queue| <= n
    && Ascending(peers, queue)
    && (forall p | p in queue :: p in candidates)
    && (|queue| < n ==> forall p | p in candidates :: p in queue)
    && (forall p, q | p in candidates && p !in queue && q in queue :: Before(peers, q, p))
  }

  function StartPoll(s: Schedule, p: Peer, fromWoken: bool): Schedule
    requires p in s.peers
  {
    Schedule(s.peers[p := s.peers[p].(inFlight := true, woken := false)], s.running + [p], !fromWoken)
  }

  /** One launch: from which queue, and whether the other queue held a candidate too. */
  datatype Start = Start(peer: Peer, fromWoken: bool, contested: bool)

  /** The two queues of one pass. Which one is popped depends on whose turn it is. */
  datatype Queues = Queues(woken: seq<Peer>, overdue: seq<Peer>) {
    predicate IsEmpty() {
      woken == [] && overdue == []
    }
    predicate Contested() {
      woken != [] && overdue != []
    }
    predicate TakesWoken(wokenTurn: bool) {
      (wokenTurn && woken != []) || overdue == []
    }
    predicate Holds(p: Peer) {
      p in woken || p in overdue
    }
    function Head(wokenTurn: bool): (p: Peer)
      requires !IsEmpty()
      ensures Holds(p)
    {
      if TakesWoken(wokenTurn) then woken[0] else overdue[0]
    }
    function Tail(wokenTurn: bool): (rest: Queues)
      requires !IsEmpty()
      ensures |rest.woken| + |rest.overdue| == |woken| + |overdue| - 1
      ensures forall p :: Holds(p) <==> p == Head(wokenTurn) || rest.Holds(p)
    {
      if TakesWoken(wokenTurn) then
        assert woken == [woken[0]] + woken[1..];
        Queues(woken[1..], overdue)
      else
        assert overdue == [overdue[0]] + overdue[1..];
        Queues(woken, overdue[1..])
    }
  }

  predicate Known(s: Schedule, q: Queues) {
    (forall p | p in q.woken :: p in s.peers) && (forall p | p in q.overdue :: p in s.peers)
  }

  /** Fill `free` slots by alternating between the queues, passing over stretched peers once their
      quota is used up. */
  function LaunchFrom(s: Schedule, q: Queues, free: nat, stretchedFree: nat): (Schedule, seq<Start>)
    requires Known(s, q)
    decreases |q.woken| + |q.overdue|
  {
    if free == 0 || q.IsEmpty() then (s, [])
    else
      var p := q.Head(s.wokenTurn);
      var rest := q.Tail(s.wokenTurn);
      var stretched := s.peers[p].timeoutStreak > 0;
      if stretched && stretchedFree == 0 then LaunchFrom(s, rest, free, stretchedFree)
      else
        var fromWoken := q.TakesWoken(s.wokenTurn);
        var (after, starts) := LaunchFrom(StartPoll(s, p, fromWoken), rest, free - 1,
                                          if stretched then stretchedFree - 1 else stretchedFree);
        (after, [Start(p, fromWoken, q.Contested())] + starts)
  }

  /** The queues one pass works from. */
  ghost predicate PassQueues(s: Schedule, now: nat, slots: nat, q: Queues) {
    var free := SaturatingSub(slots, |s.running|);
    var stretchedFree := StretchedFree(s, slots);
    && IsQueue(s.peers, Candidates(s, now, stretchedFree, true), free, q.woken)
    && IsQueue(s.peers, Candidates(s, now, stretchedFree, false), free, q.overdue)
  }

  function Launch(s: Schedule, slots: nat, q: Queues): (Schedule, seq<Start>)
    requires Known(s, q)
  {
    LaunchFrom(s, q, SaturatingSub(slots, |s.running|), StretchedFree(s, slots))
  }

  // ----- everything else that changes the schedule -----

  /** New peers are added and delisted ones dropped, but an entry outlives its listing while its poll
      runs. */
  function Refresh(s: Schedule, listed: set<Peer>, now: nat, hold: nat): Schedule {
    s.(peers := map p | p in s.peers.Keys + listed
                        && (p in listed || s.peers[p].inFlight) ::
                  if p in s.peers then s.peers[p] else NewPeer(now, hold))
  }

  function WokenPeer(p: PeerPoll, now: nat, hold: nat): PeerPoll {
    p.(idleStreak := 0, failureStreak := 0, hotUntil := now + hold, woken := true,
       due := if p.inFlight then p.due else now)
  }

  function Wake(s: Schedule, woken: set<Peer>, now: nat, hold: nat): Schedule {
    s.(peers := map p | p in s.peers ::
                  if p in woken then WokenPeer(s.peers[p], now, hold) else s.peers[p])
  }

  /** The streaks after a poll, and the interval to the next. */
  function AfterPoll(cfg: Config, p: PeerPoll, outcome: PollOutcome, now: nat): (PeerPoll, nat) {
    match outcome
    case Delivered =>
      (p.(idleStreak := 0, failureStreak := 0, timeoutStreak := 0, lastDelivery := Some(now),
          hotUntil := now + cfg.activeHold), cfg.activeInterval)
    case Empty =>
      var quiet := p.(failureStreak := 0, timeoutStreak := 0);
      if now < p.hotUntil then (quiet, cfg.activeInterval)
      else
        var idle: u32 := SaturatingAdd32(p.idleStreak, 1);
        (quiet.(idleStreak := idle), Backoff(cfg.activeInterval, idle, cfg.idleMaxInterval))
    case PollFailed =>
      var failures: u32 := SaturatingAdd32(p.failureStreak, 1);
      (p.(failureStreak := failures), Backoff(cfg.activeInterval, failures, cfg.failureMaxInterval))
    case PollTimedOut =>
      var failures: u32 := SaturatingAdd32(p.failureStreak, 1);
      var timeouts: u32 := SaturatingAdd32(p.timeoutStreak, 1);
      (p.(timeoutStreak := timeouts, failureStreak := failures),
       Backoff(cfg.activeInterval, failures, cfg.failureMaxInterval))
  }

  function CompletedPeer(cfg: Config, p: PeerPoll, outcome: PollOutcome, now: nat, shortening: nat)
    : PeerPoll
  {
    var (polled, interval) := AfterPoll(cfg, p, outcome, now);
    polled.(inFlight := false, due := if p.woken then now else now + Jitter(interval, shortening))
  }

  function Without(running: seq<Peer>, p: Peer): seq<Peer> {
    if running == [] then []
    else if running[0] == p then running[1..]
    else [running[0]] + Without(running[1..], p)
  }

  function Complete(cfg: Config, s: Schedule, p: Peer, outcome: PollOutcome, now: nat,
                    shortening: nat): Schedule
  {
    var remaining := s.(running := Without(s.running, p));
    if p in s.peers
    then remaining.(peers := s.peers[p := CompletedPeer(cfg, s.peers[p], outcome, now, shortening)])
    else remaining
  }
}
