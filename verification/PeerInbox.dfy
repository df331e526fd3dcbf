/** The scheduler object: the loop body of `recv`, and the completion of a poll. */
module PeerInbox {
  import opened Durability
  import opened PollSchedule
  import opened PollLaws

  const PEER_REFRESH := 1000
  const STATS_LOG_INTERVAL := 60000

  // ----- the earliest candidates -----

  lemma InsertionAscends(peers: map<Peer, PeerPoll>, queue: seq<Peer>, i: nat, p: Peer)
    requires Ascending(peers, queue) && i <= |queue| && p in peers && p !in queue
    requires forall q | q in queue :: q in peers
    requires 0 < i ==> !Before(peers, p, queue[i - 1])
    requires i < |queue| ==> Before(peers, p, queue[i])
    ensures Ascending(peers, queue[..i] + [p] + queue[i..])
  {
    forall k | 0 <= k < i
      ensures Before(peers, queue[k], p)
    {
      assert queue[k] in queue && queue[i - 1] in queue;
      assert k < i - 1 ==> Before(peers, queue[k], queue[i - 1]);
    }
    forall k | i <= k < |queue|
      ensures Before(peers, p, queue[k])
    {
      assert i < k ==> Before(peers, queue[i], queue[k]);
    }
  }

  method InsertByDue(peers: map<Peer, PeerPoll>, queue: seq<Peer>, p: Peer)
    returns (inserted: seq<Peer>)
    requires Ascending(peers, queue) && p in peers && p !in queue
    requires forall q | q in queue :: q in peers
    ensures Ascending(peers, inserted)
    ensures forall q :: q in inserted <==> q in queue || q == p
  {
    var i := |queue|;
    while 0 < i && Before(peers, p, queue[i - 1])
      invariant 0 <= i <= |queue|
      invariant i < |queue| ==> Before(peers, p, queue[i])
    {
      i := i - 1;
    }
    InsertionAscends(peers, queue, i, p);
    assert queue == queue[..i] + queue[i..];
    inserted := queue[..i] + [p] + queue[i..];
  }

  /** The `n` earliest-due candidates, earliest first. */
  method Earliest(peers: map<Peer, PeerPoll>, candidates: set<Peer>, n: nat) returns (queue: seq<Peer>)
    requires candidates <= peers.Keys
    ensures IsQueue(peers, candidates, n, queue)
  {
    var sorted: seq<Peer> := [];
    var todo := candidates;
    while todo != {}
      invariant todo <= candidates
      invariant Ascending(peers, sorted)
      invariant forall p :: p in sorted <==> p in candidates && p !in todo
      decreases todo
    {
      var p :| p in todo;
      sorted := InsertByDue(peers, sorted, p);
      todo := todo - {p};
    }
    queue := sorted[..Min(n, |sorted|)];
    assert sorted == queue + sorted[|queue|..];
    forall p, q | p in candidates && p !in queue && q in queue
      ensures Before(peers, q, p)
    {
      var x :| 0 <= x < |queue| && queue[x] == q;
      assert p in sorted[|queue|..];
      var y :| 0 <= y < |sorted[|queue|..]| && sorted[|queue|..][y] == p;
      assert sorted[x] == q && sorted[|queue| + y] == p;
    }
  }

  // ----- the object -----

  class Inbox {
    const cfg: Config
    var peers: map<Peer, PeerPoll>
    var running: seq<Peer>
    var wokenTurn: bool
    var refreshNow: bool
    var nextRefresh: nat
    var nextStatsLog: nat

    ghost function View(): Schedule
      reads this
    {
      Schedule(peers, running, wokenTurn)
    }

    ghost predicate Valid()
      reads this
    {
      Accounted(View(), Slots(cfg))
    }

    constructor (config: Config, now: nat)
      ensures Valid() && cfg == config
      ensures View() == Schedule(map[], [], true) && refreshNow
    {
      cfg := config;
      peers := map[];
      running := [];
      wokenTurn := true;
      refreshNow := true;
      nextRefresh := now;
      nextStatsLog := now + STATS_LOG_INTERVAL;
      new;
      assert StretchedRunning(peers) == {};
    }

    method StretchedSlotsFree() returns (free: nat)
      ensures free == StretchedFree(View(), Slots(cfg))
    {
      var count := 0;
      var todo := peers.Keys;
      ghost var counted: set<Peer> := {};
      while todo != {}
        invariant todo <= peers.Keys
        invariant counted == set p | p in StretchedRunning(peers) && p !in todo
        invariant count == |counted|
        decreases todo
      {
        var p :| p in todo;
        if peers[p].inFlight && peers[p].timeoutStreak > 0 {
          count := count + 1;
          counted := counted + {p};
        }
        todo := todo - {p};
      }
      assert counted == StretchedRunning(peers);
      return SaturatingSub(Quota(Slots(cfg)), count);
    }

    /** The two queues of a pass, each cut to the slots that are free. */
    method BuildQueues(now: nat, free: nat, stretchedFree: nat) returns (q: Queues)
      ensures IsQueue(peers, Candidates(View(), now, stretchedFree, true), free, q.woken)
      ensures IsQueue(peers, Candidates(View(), now, stretchedFree, false), free, q.overdue)
    {
      var candidates := set p | p in peers && !peers[p].inFlight
                                && !(stretchedFree == 0 && peers[p].timeoutStreak > 0)
                                && peers[p].due <= now;
      var wokenOnes := set p | p in candidates && peers[p].woken;
      var overdueOnes := candidates - wokenOnes;
      assert wokenOnes == Candidates(View(), now, stretchedFree, true);
      assert overdueOnes == Candidates(View(), now, stretchedFree, false);
      var woken := Earliest(peers, wokenOnes, free);
      var overdue := Earliest(peers, overdueOnes, free);
      return Queues(woken, overdue);
    }

    /** Pop the queue whose turn it is, and start that peer unless its quota is used up. */
    method StartHead(q: Queues, stretchedFree: nat) returns (left: nat, started: bool)
      requires Known(View(), q) && !q.IsEmpty()
      modifies `peers, `running, `wokenTurn
      ensures started <==> !PassesOver(old(View()), q, stretchedFree)
      ensures started ==> View() == Started(old(View()), q)
                          && left == QuotaLeft(old(View()), q, stretchedFree)
      ensures !started ==> View() == old(View()) && left == stretchedFree
    {
      left := stretchedFree;
      var p := q.Head(wokenTurn);
      if peers[p].timeoutStreak > 0 {
        if left == 0 {
          return left, false;
        }
        left := left - 1;
      }
      wokenTurn := !q.TakesWoken(wokenTurn);
      peers := peers[p := peers[p].(inFlight := true, woken := false)];
      running := running + [p];
      return left, true;
    }

    /** One turn of the launch loop. */
    method StartNext(q: Queues, free: nat, launched: nat, stretchedFree: nat)
      returns (next: Queues, count: nat, left: nat, ghost begun: seq<Start>)
      requires Known(View(), q) && !q.IsEmpty() && launched < free
      modifies `peers, `running, `wokenTurn
      ensures Known(View(), next) && next == q.Tail(old(wokenTurn)) && count <= free
      ensures LaunchFrom(old(View()), q, free - launched, stretchedFree)
              == Prepend(begun, LaunchFrom(View(), next, free - count, left))
    {
      var turn := wokenTurn;
      var started: bool;
      begun := [];
      left, started := StartHead(q, stretchedFree);
      count := launched;
      if started {
        count := launched + 1;
        begun := [Start(q.Head(turn), q.TakesWoken(turn), q.Contested())];
      }
      next := q.Tail(turn);
      PrependNone(LaunchFrom(View(), next, free - count, left));
    }

    /** Start polls until the slots or the queues run out. */
    method Fill(queues: Queues, free: nat, stretchedSlots: nat) returns (ghost starts: seq<Start>)
      requires Known(View(), queues)
      modifies `peers, `running, `wokenTurn
      ensures (View(), starts) == LaunchFrom(old(View()), queues, free, stretchedSlots)
    {
      ghost var goal := LaunchFrom(View(), queues, free, stretchedSlots);
      ghost var rest := goal;
      var q := queues;
      var stretchedFree := stretchedSlots;
      var launched := 0;
      starts := [];
      PrependNone(goal);
      while launched < free && !q.IsEmpty()
        invariant 0 <= launched <= free
        invariant Known(View(), q) && rest == LaunchFrom(View(), q, free - launched, stretchedFree)
        invariant goal == Prepend(starts, rest)
        decreases |q.woken| + |q.overdue|
      {
        ghost var begun: seq<Start>;
        q, launched, stretchedFree, begun := StartNext(q, free, launched, stretchedFree);
        rest := LaunchFrom(View(), q, free - launched, stretchedFree);
        PrependTwice(starts, begun, rest);
        starts := starts + begun;
      }
      assert starts + [] == starts;
    }

    /** One launch pass. */
    method Launch(now: nat) returns (ghost q: Queues, ghost starts: seq<Start>)
      requires Valid()
      modifies `peers, `running, `wokenTurn
      ensures PassQueues(old(View()), now, Slots(cfg), q) && Known(old(View()), q)
      ensures (View(), starts) == PollSchedule.Launch(old(View()), Slots(cfg), q)
      ensures Valid()
    {
      var free := SaturatingSub(Slots(cfg), |running|);
      var stretchedFree := StretchedSlotsFree();
      var queues := BuildQueues(now, free, stretchedFree);
      q := queues;
      PassKeepsAccounted(View(), now, Slots(cfg), q);
      starts := Fill(queues, free, stretchedFree);
    }

    /** When `recv` wakes on its own: for its timers, and for the first peer it could start. */
    method WakeTime() returns (wakeAt: nat)
      ensures wakeAt <= nextRefresh && wakeAt <= nextStatsLog
      ensures |running| < Slots(cfg) ==> forall p | CanStart(View(), Slots(cfg), p) ::
                wakeAt <= peers[p].due
      ensures wakeAt == nextRefresh || wakeAt == nextStatsLog
              || (|running| < Slots(cfg)
                  && exists p :: CanStart(View(), Slots(cfg), p) && peers[p].due == wakeAt)
    {
      wakeAt := Min(nextRefresh, nextStatsLog);
      if |running| < Slots(cfg) {
        var stretchedFree := StretchedSlotsFree();
        var todo := peers.Keys;
        while todo != {}
          invariant todo <= peers.Keys
          invariant wakeAt <= nextRefresh && wakeAt <= nextStatsLog
          invariant forall p | CanStart(View(), Slots(cfg), p) && p !in todo :: wakeAt <= peers[p].due
          invariant wakeAt == nextRefresh || wakeAt == nextStatsLog
                    || exists p :: CanStart(View(), Slots(cfg), p) && peers[p].due == wakeAt
          decreases todo
        {
          var p :| p in todo;
          if !peers[p].inFlight && (stretchedFree > 0 || peers[p].timeoutStreak == 0)
             && peers[p].due < wakeAt {
            assert CanStart(View(), Slots(cfg), p);
            wakeAt := peers[p].due;
          }
          todo := todo - {p};
        }
      }
    }

    /** Follow the peer set, and note who was woken. */
    method FollowPeers(now: nat, listed: set<Peer>, woken: set<Peer>)
      requires Valid()
      modifies `peers, `nextRefresh, `refreshNow
      ensures Valid()
      ensures var refreshes := old(refreshNow) || woken != {} || now >= old(nextRefresh);
              var followed := if refreshes then Refresh(old(View()), listed, now, cfg.activeHold)
                              else old(View());
              && View() == Wake(followed, woken, now, cfg.activeHold)
              && nextRefresh == (if refreshes then now + PEER_REFRESH else old(nextRefresh))
              && !refreshNow
    {
      if refreshNow || woken != {} || now >= nextRefresh {
        RefreshKeepsAccounted(View(), Slots(cfg), listed, now, cfg.activeHold);
        peers := Refresh(Schedule(peers, running, wokenTurn), listed, now, cfg.activeHold).peers;
        nextRefresh := now + PEER_REFRESH;
        refreshNow := false;
      }
      WakeKeepsAccounted(View(), Slots(cfg), woken, now, cfg.activeHold);
      peers := map p | p in peers ::
          if p in woken then WokenPeer(peers[p], now, cfg.activeHold) else peers[p];
    }

    /** The body of `recv`'s loop up to its wait, and the time it then waits until: with a slot free
        never past the due time of a peer it could start. */
    method Pass(now: nat, listed: set<Peer>, woken: set<Peer>)
      returns (wakeAt: nat, ghost q: Queues, ghost starts: seq<Start>)
      requires Valid()
      modifies this
      ensures Valid()
      ensures var refreshed := if old(refreshNow) || woken != {} || now >= old(nextRefresh)
                               then Refresh(old(View()), listed, now, cfg.activeHold)
                               else old(View());
              var awake := Wake(refreshed, woken, now, cfg.activeHold);
              && PassQueues(awake, now, Slots(cfg), q) && Known(awake, q)
              && (View(), starts) == PollSchedule.Launch(awake, Slots(cfg), q)
      ensures |running| < Slots(cfg) ==> forall p | CanStart(View(), Slots(cfg), p) ::
                wakeAt <= peers[p].due
      ensures wakeAt == nextRefresh || wakeAt == nextStatsLog
              || exists p :: CanStart(View(), Slots(cfg), p) && peers[p].due == wakeAt
    {
      FollowPeers(now, listed, woken);
      q, starts := Launch(now);
      if now >= nextStatsLog {
        nextStatsLog := now + STATS_LOG_INTERVAL;
      }
      wakeAt := WakeTime();
    }

    /** Record a finished poll. Its peer's entry is always still there. */
    method Complete(p: Peer, outcome: PollOutcome, now: nat, shortening: nat)
      requires Valid() && p in running
      modifies this
      ensures View() == PollSchedule.Complete(cfg, old(View()), p, outcome, now, shortening)
      ensures Valid() && |running| == |old(running)| - 1
      ensures p in peers && !peers[p].inFlight
    {
      CompletionKeepsAccounted(cfg, View(), Slots(cfg), p, outcome, now, shortening);
      var (polled, interval) := AfterPoll(cfg, peers[p], outcome, now);
      polled := polled.(inFlight := false);
      polled := polled.(due := if polled.woken then now else now + Jitter(interval, shortening));
      peers := peers[p := polled];
      running := Without(running, p);
    }
  }

  ghost function Prepend(starts: seq<Start>, result: (Schedule, seq<Start>)): (Schedule, seq<Start>) {
    (result.0, starts + result.1)
  }

  lemma PrependNone(result: (Schedule, seq<Start>))
    ensures Prepend([], result) == result
  {
    assert [] + result.1 == result.1;
  }

  lemma PrependTwice(starts: seq<Start>, more: seq<Start>, result: (Schedule, seq<Start>))
    ensures Prepend(starts, Prepend(more, result)) == Prepend(starts + more, result)
  {
    assert starts + (more + result.1) == starts + more + result.1;
  }

  /** A peer `recv` could start on a free slot once it is due. */
  ghost predicate CanStart(s: Schedule, slots: nat, p: Peer) {
    && p in s.peers && !s.peers[p].inFlight
    && (StretchedFree(s, slots) > 0 || s.peers[p].timeoutStreak == 0)
  }
}
