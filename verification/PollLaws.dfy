/** What the scheduler guarantees: exact accounting of its slots, no idle slot beside a due peer,
    strict alternation, and a bound on how long an overdue peer waits. */
module PollLaws {
  import opened Durability
  import opened PollSchedule

  // ----- accounting -----

  ghost predicate NoRepeats(running: seq<Peer>) {
    forall i, j | 0 <= i < j < |running| :: running[i] != running[j]
  }

  /** The running polls are for distinct peers and are exactly the entries flagged in flight, the
      slots are never oversubscribed, and stretched polls stay within their quota. */
  ghost predicate Accounted(s: Schedule, slots: nat) {
    && NoRepeats(s.running)
    && (forall p :: p in s.running <==> p in s.peers && s.peers[p].inFlight)
    && |s.running| <= slots
    && |StretchedRunning(s.peers)| <= Quota(slots)
  }

  ghost predicate Startable(s: Schedule, q: Queues) {
    && Ascending(s.peers, q.woken) && Ascending(s.peers, q.overdue)
    && (forall p | p in q.woken :: p in s.peers && !s.peers[p].inFlight && s.peers[p].woken)
    && (forall p | p in q.overdue :: p in s.peers && !s.peers[p].inFlight && !s.peers[p].woken)
  }

  /** The schedule after the head of the queues was started, and the stretched quota left. */
  function Started(s: Schedule, q: Queues): Schedule
    requires Known(s, q) && !q.IsEmpty()
  {
    StartPoll(s, q.Head(s.wokenTurn), q.TakesWoken(s.wokenTurn))
  }

  predicate PassesOver(s: Schedule, q: Queues, stretchedFree: nat)
    requires Known(s, q) && !q.IsEmpty()
  {
    s.peers[q.Head(s.wokenTurn)].timeoutStreak > 0 && stretchedFree == 0
  }

  function QuotaLeft(s: Schedule, q: Queues, stretchedFree: nat): nat
    requires Known(s, q) && !q.IsEmpty() && !PassesOver(s, q, stretchedFree)
  {
    if s.peers[q.Head(s.wokenTurn)].timeoutStreak > 0 then stretchedFree - 1 else stretchedFree
  }

  lemma AscendingHeadIsGone(peers: map<Peer, PeerPoll>, queue: seq<Peer>)
    requires queue != [] && Ascending(peers, queue)
    ensures queue[0] !in queue[1..] && Ascending(peers, queue[1..])
    ensures forall p | p in queue[1..] :: Before(peers, queue[0], p)
  {
    forall p | p in queue[1..]
      ensures Before(peers, queue[0], p)
    {
      var i :| 0 <= i < |queue[1..]| && queue[1..][i] == p;
      assert Before(peers, queue[0], queue[i + 1]);
    }
  }

  /** Starting or passing over the head keeps the rest of the queues startable. */
  lemma StartKeepsQueues(s: Schedule, q: Queues)
    requires Startable(s, q) && !q.IsEmpty()
    ensures Known(s, q)
    ensures var p := q.Head(s.wokenTurn);
            p in s.peers && !s.peers[p].inFlight && !q.Tail(s.wokenTurn).Holds(p)
    ensures Startable(s, q.Tail(s.wokenTurn)) && Startable(Started(s, q), q.Tail(s.wokenTurn))
  {
    if q.TakesWoken(s.wokenTurn) {
      AscendingHeadIsGone(s.peers, q.woken);
    } else {
      AscendingHeadIsGone(s.peers, q.overdue);
    }
    assert forall a, b | Before(s.peers, a, b) :: Before(Started(s, q).peers, a, b);
  }

  lemma StretchedAfterStart(s: Schedule, p: Peer, fromWoken: bool)
    requires p in s.peers && !s.peers[p].inFlight
    ensures |StretchedRunning(StartPoll(s, p, fromWoken).peers)|
         == |StretchedRunning(s.peers)| + (if s.peers[p].timeoutStreak > 0 then 1 else 0)
  {
    assert StretchedRunning(StartPoll(s, p, fromWoken).peers)
        == if s.peers[p].timeoutStreak > 0 then StretchedRunning(s.peers) + {p}
           else StretchedRunning(s.peers);
  }

  lemma StartKeepsAccounted(s: Schedule, slots: nat, p: Peer, fromWoken: bool)
    requires Accounted(s, slots) && p in s.peers && !s.peers[p].inFlight
    requires |s.running| < slots
    requires s.peers[p].timeoutStreak > 0 ==> 0 < StretchedFree(s, slots)
    ensures Accounted(StartPoll(s, p, fromWoken), slots)
    ensures StretchedFree(StartPoll(s, p, fromWoken), slots)
         == StretchedFree(s, slots) - if s.peers[p].timeoutStreak > 0 then 1 else 0
  {
    StretchedAfterStart(s, p, fromWoken);
    assert p !in s.running;
  }

  /** A pass keeps the accounts, and each of its launches takes one slot. */
  lemma {:induction false} LaunchKeepsAccounted(s: Schedule, slots: nat, q: Queues, free: nat)
    requires Accounted(s, slots) && Startable(s, q) && Known(s, q)
    requires free == slots - |s.running|
    ensures var (after, starts) := LaunchFrom(s, q, free, StretchedFree(s, slots));
            && Accounted(after, slots)
            && |starts| <= free
            && |after.running| == |s.running| + |starts|
    decreases |q.woken| + |q.overdue|
  {
    if free > 0 && !q.IsEmpty() {
      StartKeepsQueues(s, q);
      if PassesOver(s, q, StretchedFree(s, slots)) {
        LaunchKeepsAccounted(s, slots, q.Tail(s.wokenTurn), free);
      } else {
        StartKeepsAccounted(s, slots, q.Head(s.wokenTurn), q.TakesWoken(s.wokenTurn));
        LaunchKeepsAccounted(Started(s, q), slots, q.Tail(s.wokenTurn), free - 1);
      }
    }
  }

  lemma PassIsStartable(s: Schedule, now: nat, slots: nat, q: Queues)
    requires PassQueues(s, now, slots, q)
    ensures Startable(s, q) && Known(s, q)
  {
  }

  lemma PassKeepsAccounted(s: Schedule, now: nat, slots: nat, q: Queues)
    requires Accounted(s, slots) && PassQueues(s, now, slots, q)
    ensures Known(s, q)
    ensures var (after, starts) := Launch(s, slots, q);
            && Accounted(after, slots)
            && |after.running| == |s.running| + |starts| <= slots
  {
    PassIsStartable(s, now, slots, q);
    LaunchKeepsAccounted(s, slots, q, slots - |s.running|);
  }

  lemma SubsetKeepsQuota(a: set<Peer>, b: set<Peer>)
    requires a <= b
    ensures |a| <= |b|
  {
    if |a| > 0 {
      var x :| x in a;
      SubsetKeepsQuota(a - {x}, b - {x});
    }
  }

  /** Following the peer set never loses the entry of a running poll, so no slot goes uncounted. */
  lemma RefreshKeepsAccounted(s: Schedule, slots: nat, listed: set<Peer>, now: nat, hold: nat)
    requires Accounted(s, slots)
    ensures Accounted(Refresh(s, listed, now, hold), slots)
    ensures forall p | p in s.peers && s.peers[p].inFlight ::
              p in Refresh(s, listed, now, hold).peers
              && Refresh(s, listed, now, hold).peers[p] == s.peers[p]
  {
    assert StretchedRunning(Refresh(s, listed, now, hold).peers) == StretchedRunning(s.peers);
  }

  lemma WakeKeepsAccounted(s: Schedule, slots: nat, woken: set<Peer>, now: nat, hold: nat)
    requires Accounted(s, slots)
    ensures Accounted(Wake(s, woken, now, hold), slots)
  {
    assert StretchedRunning(Wake(s, woken, now, hold).peers) == StretchedRunning(s.peers);
  }

  lemma {:induction false} WithoutRemovesOne(running: seq<Peer>, p: Peer)
    requires NoRepeats(running) && p in running
    ensures NoRepeats(Without(running, p)) && |Without(running, p)| == |running| - 1
    ensures forall q :: q in Without(running, p) <==> q in running && q != p
  {
    if running[0] == p {
      assert running == [p] + running[1..];
    } else {
      assert running == [running[0]] + running[1..];
      WithoutRemovesOne(running[1..], p);
      assert running[0] !in running[1..];
    }
  }

  /** A completion frees exactly the slot of the poll that completed; its peer still has an entry,
      even when it was delisted meanwhile. */
  lemma CompletionKeepsAccounted(cfg: Config, s: Schedule, slots: nat, p: Peer,
                                 outcome: PollOutcome, now: nat, shortening: nat)
    requires Accounted(s, slots) && p in s.running
    ensures var after := Complete(cfg, s, p, outcome, now, shortening);
            && p in s.peers
            && Accounted(after, slots)
            && |after.running| == |s.running| - 1
  {
    var after := Complete(cfg, s, p, outcome, now, shortening);
    WithoutRemovesOne(s.running, p);
    assert StretchedRunning(after.peers) <= StretchedRunning(s.peers);
    SubsetKeepsQuota(StretchedRunning(after.peers), StretchedRunning(s.peers));
  }

  /** With at least two slots one is always free of stretched polls. */
  lemma OneSlotIsNeverStretched(s: Schedule, slots: nat)
    requires Accounted(s, slots) && 2 <= slots
    ensures |StretchedRunning(s.peers)| < slots
  {
  }

  // ----- work conservation -----

  predicate DueUnstretched(s: Schedule, now: nat, p: Peer) {
    p in s.peers && !s.peers[p].inFlight && s.peers[p].due <= now && s.peers[p].timeoutStreak == 0
  }

  lemma {:induction false} LaunchOnlyStarts(s: Schedule, q: Queues, free: nat, stretchedFree: nat)
    requires Known(s, q)
    ensures var after := LaunchFrom(s, q, free, stretchedFree).0;
            && after.peers.Keys == s.peers.Keys
            && forall p | p in s.peers ::
                 && after.peers[p].due == s.peers[p].due
                 && after.peers[p].timeoutStreak == s.peers[p].timeoutStreak
                 && (after.peers[p] == s.peers[p] || after.peers[p].inFlight)
    decreases |q.woken| + |q.overdue|
  {
    if free > 0 && !q.IsEmpty() {
      if PassesOver(s, q, stretchedFree) {
        LaunchOnlyStarts(s, q.Tail(s.wokenTurn), free, stretchedFree);
      } else {
        LaunchOnlyStarts(Started(s, q), q.Tail(s.wokenTurn), free - 1,
                         QuotaLeft(s, q, stretchedFree));
      }
    }
  }

  lemma {:induction false} QuotaStaysUsed(s: Schedule, slots: nat, q: Queues, free: nat)
    requires Accounted(s, slots) && Startable(s, q) && Known(s, q)
    requires free == slots - |s.running| && StretchedFree(s, slots) == 0
    ensures StretchedFree(LaunchFrom(s, q, free, 0).0, slots) == 0
    decreases |q.woken| + |q.overdue|
  {
    if free > 0 && !q.IsEmpty() {
      StartKeepsQueues(s, q);
      if PassesOver(s, q, 0) {
        QuotaStaysUsed(s, slots, q.Tail(s.wokenTurn), free);
      } else {
        StartKeepsAccounted(s, slots, q.Head(s.wokenTurn), q.TakesWoken(s.wokenTurn));
        QuotaStaysUsed(Started(s, q), slots, q.Tail(s.wokenTurn), free - 1);
      }
    }
  }

  ghost predicate HoldsStretched(s: Schedule, q: Queues)
    requires Known(s, q)
  {
    exists p :: q.Holds(p) && s.peers[p].timeoutStreak > 0
  }

  /** A pass that leaves a slot free used up both queues: every unstretched peer in them runs. */
  lemma {:induction false} UnfilledPassStartsTheUnstretched(s: Schedule, q: Queues, free: nat,
                                                            stretchedFree: nat, p: Peer)
    requires Known(s, q) && q.Holds(p) && s.peers[p].timeoutStreak == 0
    ensures var (after, starts) := LaunchFrom(s, q, free, stretchedFree);
            |starts| < free ==> p in after.peers && after.peers[p].inFlight
    decreases |q.woken| + |q.overdue|
  {
    if free > 0 {
      var rest := q.Tail(s.wokenTurn);
      if PassesOver(s, q, stretchedFree) {
        UnfilledPassStartsTheUnstretched(s, rest, free, stretchedFree, p);
      } else if p == q.Head(s.wokenTurn) {
        LaunchOnlyStarts(Started(s, q), rest, free - 1, QuotaLeft(s, q, stretchedFree));
      } else {
        UnfilledPassStartsTheUnstretched(Started(s, q), rest, free - 1,
                                         QuotaLeft(s, q, stretchedFree), p);
      }
    }
  }

  /** If it launched fewer than they held, it passed over a stretched one... */
  lemma {:induction false} ShortPassHeldStretched(s: Schedule, q: Queues, free: nat,
                                                  stretchedFree: nat)
    requires Startable(s, q) && Known(s, q)
    ensures var starts := LaunchFrom(s, q, free, stretchedFree).1;
            |starts| < free && |starts| < |q.woken| + |q.overdue| ==> HoldsStretched(s, q)
    decreases |q.woken| + |q.overdue|
  {
    if free > 0 && !q.IsEmpty() {
      var rest := q.Tail(s.wokenTurn);
      var p := q.Head(s.wokenTurn);
      StartKeepsQueues(s, q);
      if s.peers[p].timeoutStreak == 0 {
        ShortPassHeldStretched(Started(s, q), rest, free - 1, stretchedFree);
        if HoldsStretched(Started(s, q), rest) {
          p :| rest.Holds(p) && Started(s, q).peers[p].timeoutStreak > 0;
          assert q.Holds(p);
        }
      } else {
        assert q.Holds(p);
      }
    }
  }

  /** ... and did so because its quota was used up. */
  lemma {:induction false} ShortPassUsedTheQuota(s: Schedule, slots: nat, q: Queues, free: nat)
    requires Accounted(s, slots) && Startable(s, q) && Known(s, q)
    requires free == slots - |s.running|
    ensures var (after, starts) := LaunchFrom(s, q, free, StretchedFree(s, slots));
            |starts| < free && |starts| < |q.woken| + |q.overdue| ==> StretchedFree(after, slots) == 0
    decreases |q.woken| + |q.overdue|
  {
    if free > 0 && !q.IsEmpty() {
      var rest := q.Tail(s.wokenTurn);
      StartKeepsQueues(s, q);
      if PassesOver(s, q, StretchedFree(s, slots)) {
        QuotaStaysUsed(s, slots, rest, free);
      } else {
        StartKeepsAccounted(s, slots, q.Head(s.wokenTurn), q.TakesWoken(s.wokenTurn));
        ShortPassUsedTheQuota(Started(s, q), slots, rest, free - 1);
      }
    }
  }

  /** One pass may leave a free slot beside a due unstretched peer only if that very pass used up
      the stretched quota: the peer was cut from the queue for a stretched one passed over later. */
  lemma OnePassLeavesDuePeersOnlyAtQuota(s: Schedule, now: nat, slots: nat, q: Queues, p: Peer)
    requires Accounted(s, slots) && PassQueues(s, now, slots, q) && Known(s, q)
    requires var after := Launch(s, slots, q).0;
             |after.running| < slots && DueUnstretched(after, now, p)
    ensures 0 < StretchedFree(s, slots)
    ensures StretchedFree(Launch(s, slots, q).0, slots) == 0
  {
    var free := slots - |s.running|;
    PassIsStartable(s, now, slots, q);
    LaunchKeepsAccounted(s, slots, q, free);
    LaunchOnlyStarts(s, q, free, StretchedFree(s, slots));
    assert Launch(s, slots, q).0.peers[p] == s.peers[p];
    if q.Holds(p) {
      UnfilledPassStartsTheUnstretched(s, q, free, StretchedFree(s, slots), p);
    }
    ShortPassUsedTheQuota(s, slots, q, free);
    ShortPassHeldStretched(s, q, free, StretchedFree(s, slots));
    assert p in Candidates(s, now, StretchedFree(s, slots), s.peers[p].woken);
    assert |q.woken| == free || |q.overdue| == free;
  }

  /** What a pass leaves due was due before it. */
  lemma LeftDueWasDue(s: Schedule, now: nat, slots: nat, q: Queues, p: Peer)
    requires Accounted(s, slots) && PassQueues(s, now, slots, q) && Known(s, q)
    requires DueUnstretched(Launch(s, slots, q).0, now, p)
    ensures DueUnstretched(s, now, p)
    ensures Accounted(Launch(s, slots, q).0, slots)
    ensures |s.running| <= |Launch(s, slots, q).0.running|
  {
    PassKeepsAccounted(s, now, slots, q);
    LaunchOnlyStarts(s, q, slots - |s.running|, StretchedFree(s, slots));
  }

  /** A second pass at the same instant leaves no due unstretched peer beside a free slot. */
  lemma TwoPassesConserveWork(s: Schedule, now: nat, slots: nat, first: Queues, second: Queues,
                              p: Peer)
    requires Accounted(s, slots) && PassQueues(s, now, slots, first) && Known(s, first)
    requires var mid := Launch(s, slots, first).0;
             PassQueues(mid, now, slots, second) && Known(mid, second)
    ensures var mid := Launch(s, slots, first).0;
            var after := Launch(mid, slots, second).0;
            |after.running| == slots || !DueUnstretched(after, now, p)
  {
    var mid := Launch(s, slots, first).0;
    PassKeepsAccounted(s, now, slots, first);
    PassKeepsAccounted(mid, now, slots, second);
    var after := Launch(mid, slots, second).0;
    if |after.running| < slots && DueUnstretched(after, now, p) {
      LeftDueWasDue(mid, now, slots, second, p);
      OnePassLeavesDuePeersOnlyAtQuota(s, now, slots, first, p);
      OnePassLeavesDuePeersOnlyAtQuota(mid, now, slots, second, p);
    }
  }

  // ----- alternation -----

  /** Whenever both queues held a candidate, the launch came from the queue whose turn it was: the
      one the launch before it did not come from. */
  ghost predicate Alternate(starts: seq<Start>, wokenTurn: bool) {
    forall i | 0 <= i < |starts| && starts[i].contested ::
      starts[i].fromWoken == TurnOf(starts, i, wokenTurn)
  }

  ghost function TurnOf(starts: seq<Start>, i: nat, wokenTurn: bool): bool
    requires i <= |starts|
  {
    if i == 0 then wokenTurn else !starts[i - 1].fromWoken
  }

  ghost function TurnAfter(starts: seq<Start>, wokenTurn: bool): bool {
    TurnOf(starts, |starts|, wokenTurn)
  }

  /** Alternation carries across passes. */
  lemma AlternationSpansPasses(first: seq<Start>, second: seq<Start>, wokenTurn: bool)
    requires Alternate(first, wokenTurn) && Alternate(second, TurnAfter(first, wokenTurn))
    ensures Alternate(first + second, wokenTurn)
    ensures TurnAfter(first + second, wokenTurn) == TurnAfter(second, TurnAfter(first, wokenTurn))
  {
    var both := first + second;
    forall i | 0 <= i < |both| && both[i].contested
      ensures both[i].fromWoken == TurnOf(both, i, wokenTurn)
    {
      if i < |first| {
        assert both[i] == first[i];
        assert TurnOf(both, i, wokenTurn) == TurnOf(first, i, wokenTurn);
      } else {
        var k := i - |first|;
        assert both[i] == second[k];
        assert TurnOf(both, i, wokenTurn) == TurnOf(second, k, TurnAfter(first, wokenTurn));
      }
    }
  }

  /** Launches of one pass alternate, and the turn they end on is handed to the next pass. */
  lemma {:induction false} LaunchesAlternate(s: Schedule, q: Queues, free: nat, stretchedFree: nat)
    requires Known(s, q)
    ensures var (after, starts) := LaunchFrom(s, q, free, stretchedFree);
            Alternate(starts, s.wokenTurn) && after.wokenTurn == TurnAfter(starts, s.wokenTurn)
    decreases |q.woken| + |q.overdue|
  {
    if free > 0 && !q.IsEmpty() {
      if PassesOver(s, q, stretchedFree) {
        LaunchesAlternate(s, q.Tail(s.wokenTurn), free, stretchedFree);
      } else {
        var left := QuotaLeft(s, q, stretchedFree);
        LaunchesAlternate(Started(s, q), q.Tail(s.wokenTurn), free - 1, left);
        var rest := LaunchFrom(Started(s, q), q.Tail(s.wokenTurn), free - 1, left).1;
        var start := Start(q.Head(s.wokenTurn), q.TakesWoken(s.wokenTurn), q.Contested());
        assert Alternate([start], s.wokenTurn);
        AlternationSpansPasses([start], rest, s.wokenTurn);
      }
    }
  }

  // ----- no starvation -----

  /** One event of the scheduler's life. */
  datatype Event =
    | Launching(queues: Queues)
    | Completing(peer: Peer, outcome: PollOutcome, shortening: nat)
    | Waking(peers: set<Peer>)
    | Refreshing(listed: set<Peer>)

  datatype Timed = Timed(event: Event, now: nat)

  ghost predicate Possible(cfg: Config, s: Schedule, t: Timed) {
    match t.event
    case Launching(q) => PassQueues(s, t.now, Slots(cfg), q)
    case Completing(p, _, _) => p in s.running
    case Waking(_) => true
    case Refreshing(_) => true
  }

  ghost function Step(cfg: Config, s: Schedule, t: Timed): (Schedule, seq<Start>)
    requires Possible(cfg, s, t)
  {
    match t.event
    case Launching(q) =>
      PassIsStartable(s, t.now, Slots(cfg), q);
      Launch(s, Slots(cfg), q)
    case Completing(p, outcome, shortening) => (Complete(cfg, s, p, outcome, t.now, shortening), [])
    case Waking(peers) => (Wake(s, peers, t.now, cfg.activeHold), [])
    case Refreshing(listed) => (Refresh(s, listed, t.now, cfg.activeHold), [])
  }

  ghost predicate IsRun(cfg: Config, s: Schedule, events: seq<Timed>)
    decreases |events|
  {
    events != [] ==>
      Possible(cfg, s, events[0]) && IsRun(cfg, Step(cfg, s, events[0]).0, events[1..])
  }

  ghost function RunAll(cfg: Config, s: Schedule, events: seq<Timed>): (Schedule, seq<Start>)
    requires IsRun(cfg, s, events)
    decreases |events|
  {
    if events == [] then (s, [])
    else
      var (next, starts) := Step(cfg, s, events[0]);
      var (after, more) := RunAll(cfg, next, events[1..]);
      (after, starts + more)
  }

  /** Over any run the accounts stay exact and contested launches alternate, whatever completions,
      wakes and refreshes come between the passes. */
  lemma {:induction false} RunsStayAccounted(cfg: Config, s: Schedule, events: seq<Timed>)
    requires Accounted(s, Slots(cfg)) && IsRun(cfg, s, events)
    ensures Accounted(RunAll(cfg, s, events).0, Slots(cfg))
    ensures Alternate(RunAll(cfg, s, events).1, s.wokenTurn)
    decreases |events|
  {
    if events != [] {
      var t := events[0];
      var (next, starts) := Step(cfg, s, t);
      match t.event {
        case Launching(q) =>
          PassKeepsAccounted(s, t.now, Slots(cfg), q);
          LaunchesAlternate(s, q, SaturatingSub(Slots(cfg), |s.running|),
                            StretchedFree(s, Slots(cfg)));
        case Completing(p, outcome, shortening) =>
          CompletionKeepsAccounted(cfg, s, Slots(cfg), p, outcome, t.now, shortening);
        case Waking(peers) => WakeKeepsAccounted(s, Slots(cfg), peers, t.now, cfg.activeHold);
        case Refreshing(listed) =>
          RefreshKeepsAccounted(s, Slots(cfg), listed, t.now, cfg.activeHold);
      }
      RunsStayAccounted(cfg, next, events[1..]);
      AlternationSpansPasses(starts, RunAll(cfg, next, events[1..]).1, s.wokenTurn);
    }
  }

  /** An overdue peer nobody woke, whose last poll did not time out, waiting for a slot since before
      `clock`. */
  ghost predicate Waits(s: Schedule, v: Peer, clock: nat) {
    && v in s.peers && !s.peers[v].inFlight && !s.peers[v].woken
    && s.peers[v].timeoutStreak == 0 && s.peers[v].due < clock
  }

  /** The overdue peers in front of `v`. */
  ghost function Ahead(s: Schedule, v: Peer): set<Peer> {
    set p | p in s.peers && !s.peers[p].inFlight && !s.peers[p].woken && Before(s.peers, p, v)
  }

  /** How many more launches may come before `v`'s. */
  ghost function Debt(s: Schedule, v: Peer): nat {
    2 * |Ahead(s, v)| + if s.wokenTurn then 1 else 0
  }

  ghost predicate Behind(s: Schedule, q: Queues, v: Peer) {
    v in q.overdue || forall p | p in q.overdue :: Before(s.peers, p, v)
  }

  /** `v` was cut from the overdue queue by peers in front of it, one of which the pass may yet pass
      over. */
  ghost predicate Cuts(s: Schedule, q: Queues, v: Peer)
    requires Known(s, q)
  {
    v !in q.overdue && exists p :: p in q.overdue && s.peers[p].timeoutStreak > 0
  }

  /** `v` is in the overdue queue, or was cut from it by peers enough for every free slot. */
  ghost predicate InLine(s: Schedule, q: Queues, free: nat, v: Peer)
    requires Known(s, q)
  {
    Behind(s, q, v) && !Cuts(s, q, v) && (v in q.overdue || free <= |q.overdue|)
  }

  lemma StartPaysDebt(s: Schedule, q: Queues, v: Peer, clock: nat)
    requires Startable(s, q) && Known(s, q) && Waits(s, v, clock) && Behind(s, q, v)
    requires !q.IsEmpty() && q.Head(s.wokenTurn) != v
    ensures Waits(Started(s, q), v, clock) && Behind(Started(s, q), q.Tail(s.wokenTurn), v)
    ensures Debt(Started(s, q), v) <= Debt(s, v)
    ensures q.overdue != [] ==> Debt(Started(s, q), v) + 1 <= Debt(s, v)
  {
    var p := q.Head(s.wokenTurn);
    var after := Started(s, q);
    StartKeepsQueues(s, q);
    assert forall a, b :: Before(s.peers, a, b) <==> Before(after.peers, a, b);
    if q.TakesWoken(s.wokenTurn) {
      assert Ahead(after, v) == Ahead(s, v);
    } else {
      AscendingHeadIsGone(s.peers, q.overdue);
      assert q.overdue == [p] + q.overdue[1..];
      assert p in Ahead(s, v);
      assert Ahead(after, v) == Ahead(s, v) - {p};
    }
  }

  lemma HeadKeepsLine(s: Schedule, q: Queues, free: nat, stretchedFree: nat, v: Peer, clock: nat)
    requires Startable(s, q) && Known(s, q) && Waits(s, v, clock) && InLine(s, q, free, v)
    requires 0 < free && !q.IsEmpty() && q.Head(s.wokenTurn) != v
    ensures var rest := q.Tail(s.wokenTurn);
            if PassesOver(s, q, stretchedFree) then Known(s, rest) && InLine(s, rest, free, v)
            else Known(Started(s, q), rest) && InLine(Started(s, q), rest, free - 1, v)
  {
    StartKeepsQueues(s, q);
    if !PassesOver(s, q, stretchedFree) {
      StartPaysDebt(s, q, v, clock);
    }
  }

  /** In line, every launch pays; cut from the queue, none adds. */
  lemma {:induction false} LaunchesPayDebt(s: Schedule, q: Queues, free: nat, stretchedFree: nat,
                                           v: Peer, clock: nat)
    requires Startable(s, q) && Known(s, q) && Waits(s, v, clock) && Behind(s, q, v)
    ensures var (after, starts) := LaunchFrom(s, q, free, stretchedFree);
            v in after.peers && (!after.peers[v].inFlight ==>
              && Debt(after, v) <= Debt(s, v)
              && (InLine(s, q, free, v) ==> Debt(after, v) + |starts| <= Debt(s, v)))
    decreases |q.woken| + |q.overdue|
  {
    if free > 0 && !q.IsEmpty() {
      StartKeepsQueues(s, q);
      var rest := q.Tail(s.wokenTurn);
      if q.Head(s.wokenTurn) == v {
        LaunchOnlyStarts(Started(s, q), rest, free - 1, stretchedFree);
      } else {
        if InLine(s, q, free, v) {
          HeadKeepsLine(s, q, free, stretchedFree, v, clock);
        }
        if PassesOver(s, q, stretchedFree) {
          LaunchesPayDebt(s, rest, free, stretchedFree, v, clock);
        } else {
          StartPaysDebt(s, q, v, clock);
          LaunchesPayDebt(Started(s, q), rest, free - 1, QuotaLeft(s, q, stretchedFree), v, clock);
        }
      }
    }
  }

  ghost predicate CutBy(s: Schedule, t: Timed, v: Peer) {
    t.event.Launching? && Known(s, t.event.queues) && Cuts(s, t.event.queues, v)
  }

  /** What an event may launch on top of the debt it pays. */
  ghost function Extra(s: Schedule, slots: nat, t: Timed, v: Peer): nat {
    if CutBy(s, t, v) then slots else 0
  }

  lemma PassPaysDebt(cfg: Config, s: Schedule, t: Timed, v: Peer, clock: nat)
    requires t.event.Launching? && Possible(cfg, s, t) && clock <= t.now
    requires Accounted(s, Slots(cfg))
    requires Waits(s, v, clock) && Waits(Step(cfg, s, t).0, v, clock)
    ensures Debt(Step(cfg, s, t).0, v) + |Step(cfg, s, t).1|
            <= Debt(s, v) + Extra(s, Slots(cfg), t, v)
  {
    var slots := Slots(cfg);
    var free := SaturatingSub(slots, |s.running|);
    PassIsStartable(s, t.now, slots, t.event.queues);
    PassKeepsAccounted(s, t.now, slots, t.event.queues);
    assert v in Candidates(s, t.now, StretchedFree(s, slots), false);
    LaunchesPayDebt(s, t.event.queues, free, StretchedFree(s, slots), v, clock);
  }

  /** Nothing that happens after `v` fell due puts another peer in front of it. */
  lemma OtherEventsAddNobody(cfg: Config, s: Schedule, t: Timed, v: Peer, clock: nat)
    requires !t.event.Launching? && Possible(cfg, s, t) && clock <= t.now
    requires Accounted(s, Slots(cfg)) && Waits(s, v, clock) && Waits(Step(cfg, s, t).0, v, clock)
    ensures Debt(Step(cfg, s, t).0, v) <= Debt(s, v)
  {
    var next := Step(cfg, s, t).0;
    assert next.peers[v].due == s.peers[v].due;
    assert Ahead(next, v) <= Ahead(s, v);
    SubsetKeepsQuota(Ahead(next, v), Ahead(s, v));
  }

  lemma StepPaysDebt(cfg: Config, s: Schedule, t: Timed, v: Peer, clock: nat)
    requires Possible(cfg, s, t) && clock <= t.now && Accounted(s, Slots(cfg))
    requires Waits(s, v, clock) && Waits(Step(cfg, s, t).0, v, clock)
    ensures Accounted(Step(cfg, s, t).0, Slots(cfg))
    ensures Debt(Step(cfg, s, t).0, v) + |Step(cfg, s, t).1|
            <= Debt(s, v) + Extra(s, Slots(cfg), t, v)
  {
    var next := Step(cfg, s, t).0;
    RunsStayAccounted(cfg, s, [t]);
    assert RunAll(cfg, s, [t]).0 == next by {
      assert [t][1..] == [];
      assert RunAll(cfg, next, []) == (next, []);
    }
    if t.event.Launching? {
      PassPaysDebt(cfg, s, t, v, clock);
    } else {
      OtherEventsAddNobody(cfg, s, t, v, clock);
    }
  }

  /** `v` stays an overdue peer nobody wakes through the whole run. */
  ghost predicate KeepsWaiting(cfg: Config, s: Schedule, events: seq<Timed>, v: Peer, clock: nat)
    requires IsRun(cfg, s, events)
    decreases |events|
  {
    && Waits(s, v, clock)
    && (events != [] ==>
          && clock <= events[0].now
          && KeepsWaiting(cfg, Step(cfg, s, events[0]).0, events[1..], v, clock))
  }

  /** In how many passes of a run `v` was cut from a queue that holds a stretched peer. */
  ghost function CutPasses(cfg: Config, s: Schedule, events: seq<Timed>, v: Peer): nat
    requires IsRun(cfg, s, events)
    decreases |events|
  {
    if events == [] then 0
    else (if CutBy(s, events[0], v) then 1 else 0)
         + CutPasses(cfg, Step(cfg, s, events[0]).0, events[1..], v)
  }

  /** However often others are woken, an overdue peer waits for at most two launches per overdue
      peer in front of it, plus one woken launch whose turn it already was; and for at most one
      filling of the slots each time stretched peers in front of it took its place in the queue. */
  lemma {:induction false} OverduePeersAreNotStarved(cfg: Config, s: Schedule, events: seq<Timed>,
                                                     v: Peer, clock: nat)
    requires Accounted(s, Slots(cfg)) && IsRun(cfg, s, events)
    requires KeepsWaiting(cfg, s, events, v, clock)
    ensures |RunAll(cfg, s, events).1|
            <= 2 * |Ahead(s, v)| + (if s.wokenTurn then 1 else 0)
               + Slots(cfg) * CutPasses(cfg, s, events, v)
    decreases |events|
  {
    if events != [] {
      var t := events[0];
      var next := Step(cfg, s, t).0;
      StepPaysDebt(cfg, s, t, v, clock);
      OverduePeersAreNotStarved(cfg, next, events[1..], v, clock);
      Distribute(Slots(cfg), if CutBy(s, t, v) then 1 else 0, CutPasses(cfg, next, events[1..], v));
    }
  }

  lemma Distribute(a: nat, b: nat, c: nat)
    ensures a * (b + c) == a * b + a * c
  {
  }

  // ----- backoff -----

  /** A longer streak never shortens the interval, and the cap always holds. */
  lemma BackoffGrowsToItsCap(base: nat, a: u32, b: u32, cap: nat)
    requires a <= b
    ensures Backoff(base, a, cap) <= Backoff(base, b, cap) <= cap
    ensures base <= cap ==> base <= Backoff(base, a, cap)
  {
    Pow2Monotone(Min(a, 16), Min(b, 16));
    MulGrows(base, Pow2(Min(a, 16)), Pow2(Min(b, 16)));
    MulGrows(base, 1, Pow2(Min(a, 16)));
  }

  lemma MulGrows(base: nat, a: nat, b: nat)
    requires a <= b
    ensures base * a <= base * b
  {
  }
}
