/** One claim or refund until it is deep enough, against fee pressure, reorganisations, a rival's
    spend, and our own earlier replacements. */
module SpendDriver {
  import opened Chain
  import opened Durability
  import opened SwapRecord
  import opened SwapRun

  const DEFAULT_MAX_ITERATIONS := 100_000
  const FINALITY_DEPTH := 2

  /** `deadline` is set for a claim and absent for a refund. */
  datatype Watch = Watch(minConfirmations: u32, deadline: Option<u32>, cpfp: bool)

  datatype Outcome =
    | Confirmed(txid: Txid)
    | ConflictingSpend(spend: Txid)
    | DeadlineExceeded(last: Txid, tip: u32)

  // ----- what a log says -----

  /** The transactions of ours: those a previous run noted, and those a broadcast accepted. */
  ghost function Ours(log: seq<Event>, known: seq<Txid>): set<Txid> {
    (set t | t in known) + (set e | e in log && e.Sent? && e.accepted :: e.txid)
  }

  /** Told that the spend is none of ours, or that ours is not mined. */
  ghost predicate Wanting(e: Event, known: seq<Txid>) {
    || (e.SpendRead? && (e.spend.None? || e.spend.value !in known))
    || (e.DepthRead? && (e.depth == None || e.depth == Some(0)))
  }

  /** Every broadcast in the log is our signed spend of this output over this value, was noted just
      before, and was put out only because none of ours was known to be mined. */
  ghost predicate SendsOk(world: World, log: seq<Event>, outpoint: OutPoint, value: u64, known: seq<Txid>) {
    && (forall i | 0 <= i < |log| && log[i].Sent? :: SendOk(world, log, i, outpoint, value, known))
    && (forall e | e in log && e.Noted? :: Built(world, outpoint, value, e.txid))
    && (forall e | e in log :: Reading(e) || e.Noted? || e.Sent?)
  }

  predicate Reading(e: Event) {
    e.TipRead? || e.SpendRead? || e.DepthRead?
  }

  ghost predicate Built(world: World, outpoint: OutPoint, value: u64, txid: Txid) {
    exists rate: u64 :: world.build(outpoint, value, rate) == Answered(txid)
  }

  ghost predicate SendOk(world: World, log: seq<Event>, i: nat, outpoint: OutPoint, value: u64,
                         known: seq<Txid>)
    requires i < |log| && log[i].Sent?
  {
    && log[i].outpoint == outpoint && log[i].value == value
    && world.build(outpoint, value, log[i].rate) == Answered(log[i].txid)
    && i > 0 && log[i - 1] == Noted(log[i].txid)
    && (if i > 1 then Wanting(log[i - 2], known) else known == [])
  }

  /** The record differs only in the spends it tracks, and those are old ones or noted in the log. */
  ghost predicate OnlySpendsNoted(before: Record, after: Record, log: seq<Event>) {
    && before.(ourSpendTxids := after.ourSpendTxids, lastSpend := after.lastSpend) == after
    && forall t | t in OurSpends(after) :: t in OurSpends(before) || Noted(t) in log
  }

  /** Before the instant `until`, the chain reported this transaction as the spend of the output. */
  ghost predicate SeenSpending(world: World, outpoint: OutPoint, spend: Txid, until: nat) {
    exists t | 0 <= t < until :: world.spend(t)(outpoint) == Answered(Some(spend))
  }

  ghost predicate SeenDeep(world: World, txid: Txid, depth: Option<u32>, until: nat) {
    exists t | 0 <= t < until :: world.depth(t)(txid) == Answered(depth)
  }

  ghost predicate SeenStalled(world: World, until: nat) {
    exists t | 0 <= t < until :: world.stalled(t)
  }

  /** Why a transaction is followed as a spend of this output: we built it as one, or the chain
      reported it as one. */
  ghost predicate Source(world: World, outpoint: OutPoint, value: u64, txid: Txid, until: nat) {
    Built(world, outpoint, value, txid) || SeenSpending(world, outpoint, txid, until)
  }

  /** Built and reported spends of an output have an input that spends it. */
  ghost predicate SpendsAreSpends(world: World) {
    && (forall op, value, rate, id | world.build(op, value, rate) == Answered(id) ::
          SpendsOutput(world.tx(id), op))
    && (forall op, id, until | SeenSpending(world, op, id, until) :: SpendsOutput(world.tx(id), op))
  }

  lemma SourceSpends(world: World, outpoint: OutPoint, value: u64, txid: Txid, until: nat)
    requires SpendsAreSpends(world) && Source(world, outpoint, value, txid, until)
    ensures SpendsOutput(world.tx(txid), outpoint)
  {
    if Built(world, outpoint, value, txid) {
      var rate: u64 :| world.build(outpoint, value, rate) == Answered(txid);
    }
  }

  /** How many checks a log holds. */
  ghost function Checks(log: seq<Event>): nat {
    if log == [] then 0 else (if log[0].TipRead? then 1 else 0) + Checks(log[1..])
  }

  lemma {:induction false} ChecksAppend(log: seq<Event>, more: seq<Event>)
    ensures Checks(log + more) == Checks(log) + Checks(more)
  {
    if log == [] {
      assert log + more == more;
    } else {
      assert (log + more)[1..] == log[1..] + more;
      ChecksAppend(log[1..], more);
    }
  }

  lemma {:induction false} NoTipNoCheck(log: seq<Event>)
    requires forall i | 0 <= i < |log| :: !log[i].TipRead?
    ensures Checks(log) == 0
  {
    if log != [] {
      NoTipNoCheck(log[1..]);
    }
  }

  /** A confirmed transaction is one of ours, really a spend of this output, and deep enough; a
      conflicting spend is none of ours; giving up is for the deadline, the clock or the number of
      checks. */
  ghost predicate OutcomeOk(world: World, log: seq<Event>, outcome: Outcome, outpoint: OutPoint,
                            value: u64, watch: Watch, known: seq<Txid>, until: nat)
  {
    && log != []
    && match outcome
       case Confirmed(txid) =>
         && txid in Ours(log, known)
         && Source(world, outpoint, value, txid, until)
         && var last := log[|log| - 1];
            last.DepthRead? && last.txid == txid && last.depth.Some?
            && last.depth.value >= watch.minConfirmations && SeenDeep(world, txid, last.depth, until)
       case ConflictingSpend(spend) =>
         && spend !in Ours(log, known)
         && log[|log| - 1] == SpendRead(outpoint, Some(spend))
         && SeenSpending(world, outpoint, spend, until)
       case DeadlineExceeded(last, tip) =>
         && last in Ours(log, known)
         && TipRead(tip) in log
         && (|| (watch.deadline.Some? && tip >= watch.deadline.value)
             || SeenStalled(world, until)
             || Checks(log) >= DEFAULT_MAX_ITERATIONS)
  }

  lemma OutcomeStands(world: World, log: seq<Event>, outcome: Outcome, outpoint: OutPoint, value: u64,
                      watch: Watch, known: seq<Txid>, until: nat, later: nat)
    requires OutcomeOk(world, log, outcome, outpoint, value, watch, known, until) && until <= later
    ensures OutcomeOk(world, log, outcome, outpoint, value, watch, known, later)
  {
  }

  lemma SendsAppend(world: World, log: seq<Event>, e: Event, outpoint: OutPoint, value: u64,
                    known: seq<Txid>)
    requires SendsOk(world, log, outpoint, value, known)
    requires e.Sent? ==> SendOk(world, log + [e], |log|, outpoint, value, known)
    requires e.Noted? ==> Built(world, outpoint, value, e.txid)
    requires Reading(e) || e.Noted? || e.Sent?
    ensures SendsOk(world, log + [e], outpoint, value, known)
  {
    forall i | 0 <= i < |log + [e]| && (log + [e])[i].Sent?
      ensures SendOk(world, log + [e], i, outpoint, value, known)
    {
      if i < |log| {
        assert SendOk(world, log, i, outpoint, value, known);
      }
    }
  }

  /** Noting and broadcasting appends exactly this. */
  ghost function Publication(txid: Txid, outpoint: OutPoint, value: u64, rate: u64, accepted: bool): seq<Event> {
    [Noted(txid), Sent(txid, outpoint, value, rate, accepted)]
  }

  lemma PublicationIsOk(world: World, log: seq<Event>, txid: Txid, outpoint: OutPoint, value: u64, rate: u64,
                        accepted: bool, known: seq<Txid>)
    requires SendsOk(world, log, outpoint, value, known)
    requires world.build(outpoint, value, rate) == Answered(txid)
    requires if log != [] then Wanting(log[|log| - 1], known) else known == []
    ensures SendsOk(world, log + Publication(txid, outpoint, value, rate, accepted), outpoint, value, known)
    ensures SendsOk(world, log + [Noted(txid)], outpoint, value, known)
  {
    SendsAppend(world, log, Noted(txid), outpoint, value, known);
    var noted := log + [Noted(txid)];
    var sent := Sent(txid, outpoint, value, rate, accepted);
    assert (noted + [sent])[|noted| - 1] == Noted(txid);
    SendsAppend(world, noted, sent, outpoint, value, known);
    assert log + Publication(txid, outpoint, value, rate, accepted) == noted + [sent];
  }

  ghost predicate AllBefore(log: seq<Event>, deadline: Option<u32>) {
    forall e | e in log && e.TipRead? && deadline.Some? :: e.tip < deadline.value
  }

  /** The check that sees the deadline reached is the last one. */
  ghost predicate StopsAtDeadline(log: seq<Event>, deadline: Option<u32>) {
    forall i, j | 0 <= i < j < |log| && log[i].TipRead? && log[j].TipRead? && deadline.Some? ::
      log[i].tip < deadline.value
  }

  lemma NotedIsKnown(r: Record, txid: Txid)
    ensures OnlySpendsNoted(r, NoteOurSpend(r, txid), [Noted(txid)])
  {
  }

  ghost predicate Published(world: World, sent: seq<Event>, outpoint: OutPoint, value: u64, rate: u64) {
    || sent == []
    || match world.build(outpoint, value, rate)
       case Unavailable => false
       case Answered(txid) =>
         || sent == [Noted(txid)]
         || sent == Publication(txid, outpoint, value, rate, true)
         || sent == Publication(txid, outpoint, value, rate, false)
  }

  // ----- the driver -----

  /** Write the transaction down, then broadcast it; nothing when it cannot be built. `sent` is what
      went on the log. */
  method Publish(run: Run, outpoint: OutPoint, value: u64, rate: u64) returns (r: Reply<Txid>, ghost sent: seq<Event>)
    modifies run, run.store
    ensures run.Settling()
    ensures run.FundCalls == old(run.FundCalls)
    ensures run.clock >= old(run.clock)
    ensures !r.Crashed? && old(run.clock) <= run.crashAt ==> run.clock <= run.crashAt
    ensures run.Log == old(run.Log) + sent
    ensures OnlySpendsNoted(old(run.store.disk), run.store.disk, sent)
    ensures Published(run.world, sent, outpoint, value, rate)
    ensures !r.Crashed? ==>
              match run.world.build(outpoint, value, rate)
              case Unavailable => r.Err? && sent == []
              case Answered(txid) =>
                sent == Publication(txid, outpoint, value, rate, r.Ok?) && (r.Ok? ==> r.value == txid)
  {
    sent := [];
    match run.world.build(outpoint, value, rate) {
      case Unavailable => return Err, [];
      case Answered(txid) =>
        var noted := run.SpendBroadcast(txid);
        if noted.Crashed? {
          return Crashed, [];
        }
        NotedIsKnown(old(run.store.disk), txid);
        r := run.Broadcast(txid, outpoint, value, rate);
        sent := Publication(txid, outpoint, value, rate, r.Ok?);
    }
  }

  lemma PublishedIsOk(world: World, log: seq<Event>, sent: seq<Event>, outpoint: OutPoint, value: u64,
                      rate: u64, known: seq<Txid>)
    requires SendsOk(world, log, outpoint, value, known)
    requires Published(world, sent, outpoint, value, rate)
    requires if log != [] then Wanting(log[|log| - 1], known) else known == []
    ensures SendsOk(world, log + sent, outpoint, value, known)
  {
    if sent == [] {
      assert log + sent == log;
    } else {
      var txid := world.build(outpoint, value, rate).value;
      PublicationIsOk(world, log, txid, outpoint, value, rate, true, known);
      PublicationIsOk(world, log, txid, outpoint, value, rate, false, known);
    }
  }

  lemma OursAppend(log: seq<Event>, more: seq<Event>, known: seq<Txid>)
    ensures Ours(log + more, known) == Ours(log, known) + Ours(more, known)
  {
  }

  lemma SpendsNotedAppend(a: Record, b: Record, c: Record, first: seq<Event>, second: seq<Event>)
    requires OnlySpendsNoted(a, b, first) && OnlySpendsNoted(b, c, second)
    ensures OnlySpendsNoted(a, c, first + second)
  {
  }

  /** The spend of an earlier run that is on the chain or in the mempool now, if there is one. */
  method FindLive(run: Run, outpoint: OutPoint, known: seq<Txid>)
    returns (r: Reply<Option<Txid>>, ghost seen: seq<Event>)
    modifies run
    ensures run.Settling() && run.FundCalls == old(run.FundCalls)
    ensures run.clock >= old(run.clock)
    ensures !r.Crashed? && old(run.clock) <= run.crashAt ==> run.clock <= run.crashAt
    ensures run.Log == old(run.Log) + seen
    ensures !r.Ok? || known == [] ==> seen == []
    ensures r.Ok? && known != [] ==>
              |seen| == 1 && seen[0].SpendRead? && seen[0].outpoint == outpoint
              && r.value == if seen[0].spend.Some? && seen[0].spend.value in known then seen[0].spend else None
    ensures r.Ok? && r.value.Some? ==>
              r.value.value in known && SeenSpending(run.world, outpoint, r.value.value, run.clock)
  {
    seen := [];
    if known == [] {
      return Ok(None), seen;
    }
    r := run.FindSpend(outpoint);
    if r.Ok? {
      seen := [SpendRead(outpoint, r.value)];
      if r.value.Some? && r.value.value !in known {
        r := Ok(None);
      }
    }
  }

  lemma FirstOurs(seen: seq<Event>, sent: seq<Event>, known: seq<Txid>, txid: Txid)
    requires forall e | e in seen :: !e.Sent?
    requires forall e | e in sent && e.Sent? :: e.txid == txid && e.accepted
    requires exists e | e in sent :: e.Sent?
    ensures Ours(seen, known) == set t | t in known
    ensures Ours(seen + sent, known) == {txid} + set t | t in known
  {
    OursAppend(seen, sent, known);
  }

  /** A first spend of our own, after an answer that none of ours is live. */
  method SendFirst(run: Run, outpoint: OutPoint, value: u64, rate: u64, known: seq<Txid>, ghost seen: seq<Event>)
    returns (r: Reply<Txid>, ghost sent: seq<Event>)
    requires SendsOk(run.world, seen, outpoint, value, known)
    requires if seen != [] then Wanting(seen[|seen| - 1], known) else known == []
    requires forall e | e in seen :: Reading(e)
    modifies run, run.store
    ensures run.Settling() && run.FundCalls == old(run.FundCalls)
    ensures run.clock >= old(run.clock)
    ensures r.Ok? && old(run.clock) <= run.crashAt ==> run.clock <= run.crashAt
    ensures run.Log == old(run.Log) + sent
    ensures OnlySpendsNoted(old(run.store.disk), run.store.disk, sent)
    ensures SendsOk(run.world, seen + sent, outpoint, value, known)
    ensures forall e | e in sent :: e.Noted? || e.Sent?
    ensures r.Ok? ==> Ours(seen + sent, known) == {r.value} + set t | t in known
    ensures r.Ok? ==> Built(run.world, outpoint, value, r.value)
  {
    r, sent := Publish(run, outpoint, value, rate);
    PublishedIsOk(run.world, seen, sent, outpoint, value, rate, known);
    if r.Ok? {
      assert sent[1].Sent?;
      FirstOurs(seen, sent, known, r.value);
    }
  }

  /** Take up the live spend of an earlier run, or make a first one. */
  method Begin(run: Run, outpoint: OutPoint, value: u64, rate: u64, known: seq<Txid>)
    returns (r: Reply<Txid>, ghost mine: seq<Event>)
    modifies run, run.store
    ensures run.Settling() && run.FundCalls == old(run.FundCalls)
    ensures run.clock >= old(run.clock)
    ensures r.Ok? && old(run.clock) <= run.crashAt ==> run.clock <= run.crashAt
    ensures run.Log == old(run.Log) + mine
    ensures OnlySpendsNoted(old(run.store.disk), run.store.disk, mine)
    ensures SendsOk(run.world, mine, outpoint, value, known)
    ensures forall e | e in mine :: !e.TipRead?
    ensures r.Ok? ==> Ours(mine, known) == {r.value} + set t | t in known
    ensures r.Ok? ==> Source(run.world, outpoint, value, r.value, run.clock)
    ensures mine != [] && mine[0].SpendRead? && mine[0].spend.Some? && mine[0].spend.value in known ==>
              r == Ok(mine[0].spend.value) && |mine| == 1
    ensures r.Ok? && known != [] ==> mine != [] && mine[0].SpendRead? && mine[0].outpoint == outpoint
  {
    var live, seen := FindLive(run, outpoint, known);
    mine := seen;
    if !live.Ok? {
      return live.PropagateFailure(), mine;
    }
    if live.value.Some? {
      return Ok(live.value.value), mine;
    }
    ghost var sent;
    r, sent := SendFirst(run, outpoint, value, rate, known, seen);
    Joined(old(run.Log), seen, sent);
    mine := seen + sent;
  }

  /** One look at the chain: the tip, who spent the output, and how deep that spend is. */
  method Look(run: Run, outpoint: OutPoint, txid: Txid, ours: set<Txid>)
    returns (r: Reply<(u32, Outcome, Option<u32>)>, ghost seen: seq<Event>)
    modifies run
    ensures run.Settling() && run.FundCalls == old(run.FundCalls)
    ensures run.clock >= old(run.clock) && (r.Ok? ==> old(run.clock) < run.clock <= run.crashAt)
    ensures run.Log == old(run.Log) + seen
    ensures forall e | e in seen :: Reading(e)
    ensures r.Ok? ==>
              var (tip, spend, depth) := r.value;
              && !spend.DeadlineExceeded?
              && match spend
                 case ConflictingSpend(id) =>
                   id !in ours && seen == [TipRead(tip), SpendRead(outpoint, Some(id))]
                   && SeenSpending(run.world, outpoint, id, run.clock)
                 case Confirmed(id) =>
                   && SeenDeep(run.world, id, depth, run.clock)
                   && |seen| == 3 && seen[0] == TipRead(tip) && seen[2] == DepthRead(id, depth)
                   && seen[1].SpendRead? && seen[1].outpoint == outpoint
                   && (if seen[1].spend.Some? then seen[1].spend == Some(id) && id in ours else id == txid)
                   && (id == txid || SeenSpending(run.world, outpoint, id, run.clock))
                 case _ => true
    ensures OneTip(seen)
    ensures r.Ok? ==> (forall e | e in seen && e.TipRead? :: e.tip == r.value.0) && TipRead(r.value.0) in seen
  {
    seen := [];
    var tip := run.TipHeight();
    if !tip.Ok? {
      return tip.PropagateFailure(), seen;
    }
    seen := [TipRead(tip.value)];
    var spend := run.FindSpend(outpoint);
    if !spend.Ok? {
      return spend.PropagateFailure(), seen;
    }
    seen := seen + [SpendRead(outpoint, spend.value)];
    var live := txid;
    if spend.value.Some? {
      if spend.value.value !in ours {
        return Ok((tip.value, ConflictingSpend(spend.value.value), None)), seen;
      }
      live := spend.value.value;
    }
    var depth := run.Confirmations(live);
    if !depth.Ok? {
      return depth.PropagateFailure(), seen;
    }
    seen := seen + [DepthRead(live, depth.value)];
    return Ok((tip.value, Confirmed(live), depth.value)), seen;
  }

  /** What a check that found our spend missing, or unconfirmed, does about it. The result is the
      transaction to follow from now on and its fee rate. */
  method Push(run: Run, outpoint: OutPoint, value: u64, rate: u64, txid: Txid, depth: Option<u32>, cpfp: bool)
    returns (r: Reply<(Txid, u64)>, ghost sent: seq<Event>, ghost with: u64)
    modifies run, run.store
    ensures run.Settling() && run.FundCalls == old(run.FundCalls)
    ensures run.clock >= old(run.clock)
    ensures r.Ok? && old(run.clock) <= run.crashAt ==> run.clock <= run.crashAt
    ensures run.Log == old(run.Log) + sent
    ensures OnlySpendsNoted(old(run.store.disk), run.store.disk, sent)
    ensures Published(run.world, sent, outpoint, value, with)
    ensures depth.Some? && depth.value > 0 ==> sent == []
    ensures r.Ok? && depth.None? && run.world.build(outpoint, value, rate).Answered? ==>
              |sent| == 2 && sent[1].Sent? && sent[1].rate == rate
    ensures !r.Err?
    ensures r.Ok? ==> Ours(sent, [txid]) == {txid, r.value.0}
    ensures r.Ok? && r.value.0 != txid ==> Built(run.world, outpoint, value, r.value.0)
  {
    sent := [];
    with := rate;
    if depth.Some? && depth.value > 0 {
      r := Ok((txid, rate));
      return;
    }
    var next := rate;
    if depth.Some? {
      var now := run.Tick();
      if !now.Ok? {
        r := Crashed;
        return;
      }
      next := run.world.rate(now.value);
      if next <= rate || run.world.build(outpoint, value, next).Unavailable? {
        r := Ok((txid, rate));
        return;
      }
    }
    with := next;
    var published;
    published, sent := Publish(run, outpoint, value, next);
    match published {
      case Crashed =>
        r := Crashed;
      case Ok(id) =>
        r := Ok((id, next));
      case Err =>
        r := Ok((txid, rate));
        if depth.Some? && cpfp {
          var helped := run.Tick();
          if !helped.Ok? {
            r := Crashed;
          } else if run.world.child(helped.value) {
            r := Ok((txid, next));
          }
        }
    }
  }

  ghost predicate OneTip(seen: seq<Event>) {
    forall j | 0 < j < |seen| :: !seen[j].TipRead?
  }

  lemma {:induction false} LookIsOk(world: World, log: seq<Event>, seen: seq<Event>, outpoint: OutPoint,
                                    value: u64, known: seq<Txid>, deadline: Option<u32>)
    requires SendsOk(world, log, outpoint, value, known) && AllBefore(log, deadline)
    requires forall e | e in seen :: Reading(e)
    requires OneTip(seen)
    ensures SendsOk(world, log + seen, outpoint, value, known)
    ensures Ours(log + seen, known) == Ours(log, known)
    ensures StopsAtDeadline(log + seen, deadline)
  {
    OursAppend(log, seen, known);
    assert forall i | 0 <= i < |log| :: log[i] in log;
    forall i | |log| <= i < |log + seen|
      ensures !(log + seen)[i].Sent?
    {
      assert seen[i - |log|] in seen;
    }
    forall i | 0 <= i < |log| && log[i].Sent?
      ensures SendOk(world, log + seen, i, outpoint, value, known)
    {
      assert SendOk(world, log, i, outpoint, value, known);
    }
  }

  lemma PushIsOk(world: World, log: seq<Event>, seen: seq<Event>, sent: seq<Event>, outpoint: OutPoint,
                 value: u64, with: u64, known: seq<Txid>, deadline: Option<u32>)
    requires SendsOk(world, log + seen, outpoint, value, known)
    requires StopsAtDeadline(log + seen, deadline)
    requires seen != [] && (sent == [] || Wanting(seen[|seen| - 1], known))
    requires Published(world, sent, outpoint, value, with)
    ensures SendsOk(world, log + (seen + sent), outpoint, value, known)
    ensures StopsAtDeadline(log + (seen + sent), deadline)
  {
    var all := log + seen;
    assert log + (seen + sent) == all + sent;
    if sent == [] {
      assert all + sent == all;
    } else {
      assert all[|all| - 1] == seen[|seen| - 1];
      PublishedIsOk(world, all, sent, outpoint, value, with, known);
    }
  }

  lemma TurnStaysBefore(log: seq<Event>, seen: seq<Event>, sent: seq<Event>, tip: u32,
                        deadline: Option<u32>)
    requires AllBefore(log, deadline)
    requires forall e | e in seen && e.TipRead? :: e.tip == tip
    requires forall e | e in sent :: !e.TipRead?
    ensures deadline.None? || tip < deadline.value ==> AllBefore(log + (seen + sent), deadline)
  {
  }

  lemma OursGrow(log: seq<Event>, seen: seq<Event>, sent: seq<Event>, known: seq<Txid>, txid: Txid, id: Txid)
    requires txid in Ours(log, known) && Ours(sent, [txid]) == {txid, id}
    requires forall e | e in seen :: !e.Sent?
    ensures Ours(log + (seen + sent), known) == Ours(log, known) + {id}
  {
    OursAppend(log, seen + sent, known);
    OursAppend(seen, sent, []);
    var accepted := set e | e in sent && e.Sent? && e.accepted :: e.txid;
    assert Ours(sent, [txid]) == {txid} + accepted;
  }

  lemma Joined(a: seq<Event>, b: seq<Event>, c: seq<Event>)
    ensures a + b + c == a + (b + c)
  {
  }

  /** What holds between two checks: the log so far, and which transactions are ours. */
  ghost predicate Driving(world: World, log: seq<Event>, outpoint: OutPoint, value: u64, known: seq<Txid>,
                          ours: set<Txid>, txid: Txid, until: nat)
  {
    && SendsOk(world, log, outpoint, value, known) && ours == Ours(log, known) && txid in ours
    && Source(world, outpoint, value, txid, until)
  }

  datatype Next = Done(outcome: Outcome) | Follow(txid: Txid, rate: u64, tip: u32)

  datatype Finding = Final(outcome: Outcome) | Open(txid: Txid, tip: u32, depth: Option<u32>)

  /** Look, and decide whether the spend is over: won by a rival, or ours and deep enough. */
  method Examine(run: Run, outpoint: OutPoint, value: u64, watch: Watch, txid: Txid, ours: set<Txid>,
                 ghost known: seq<Txid>, ghost mine: seq<Event>)
    returns (r: Reply<Finding>, ghost seen: seq<Event>)
    requires ours == Ours(mine, known) && txid in ours
    requires Source(run.world, outpoint, value, txid, run.clock)
    modifies run
    ensures run.Settling() && run.FundCalls == old(run.FundCalls)
    ensures run.clock >= old(run.clock) && (r.Ok? ==> old(run.clock) < run.clock <= run.crashAt)
    ensures run.Log == old(run.Log) + seen
    ensures (forall e | e in seen :: Reading(e)) && OneTip(seen)
    ensures r.Ok? && r.value.Final? ==>
              !r.value.outcome.DeadlineExceeded?
              && OutcomeOk(run.world, mine + seen, r.value.outcome, outpoint, value, watch, known, run.clock)
    ensures r.Ok? && r.value.Open? ==>
              && r.value.txid in ours
              && Source(run.world, outpoint, value, r.value.txid, run.clock)
              && Checks(seen) == 1
              && seen != [] && seen[|seen| - 1] == DepthRead(r.value.txid, r.value.depth)
              && (forall e | e in seen && e.TipRead? :: e.tip == r.value.tip)
              && TipRead(r.value.tip) in seen
  {
    var look;
    look, seen := Look(run, outpoint, txid, ours);
    OursAppend(mine, seen, known);
    if !look.Ok? {
      return look.PropagateFailure(), seen;
    }
    var (tip, spend, depth) := look.value;
    if spend.ConflictingSpend? {
      assert (mine + seen)[|mine + seen| - 1] == seen[1];
      return Ok(Final(spend)), seen;
    }
    assert (mine + seen)[|mine + seen| - 1] == seen[2];
    NoTipNoCheck(seen[1..]);
    if depth.Some? && depth.value >= watch.minConfirmations {
      return Ok(Final(spend)), seen;
    }
    return Ok(Open(spend.txid, tip, depth)), seen;
  }

  /** What a turn does when the spend is not over: put it back or raise its fee. `sent` follows `seen`
      on the log. */
  method Advance(run: Run, outpoint: OutPoint, value: u64, watch: Watch, rate: u64, open: Finding,
                 ours: set<Txid>, ghost known: seq<Txid>, ghost mine: seq<Event>, ghost seen: seq<Event>)
    returns (r: Reply<Next>, ghost sent: seq<Event>)
    requires open.Open? && open.txid in ours && ours == Ours(mine, known)
    requires Source(run.world, outpoint, value, open.txid, run.clock)
    requires SendsOk(run.world, mine + seen, outpoint, value, known)
    requires AllBefore(mine, watch.deadline) && StopsAtDeadline(mine + seen, watch.deadline)
    requires forall e | e in seen :: Reading(e)
    requires seen != [] && seen[|seen| - 1] == DepthRead(open.txid, open.depth)
    requires forall e | e in seen && e.TipRead? :: e.tip == open.tip
    modifies run, run.store
    ensures run.Settling() && run.FundCalls == old(run.FundCalls)
    ensures run.clock >= old(run.clock)
    ensures !r.Err? && (r.Ok? && old(run.clock) <= run.crashAt ==> run.clock <= run.crashAt)
    ensures run.Log == old(run.Log) + sent
    ensures OnlySpendsNoted(old(run.store.disk), run.store.disk, sent)
    ensures SendsOk(run.world, mine + (seen + sent), outpoint, value, known)
    ensures StopsAtDeadline(mine + (seen + sent), watch.deadline)
    ensures Checks(sent) == 0
    ensures r.Ok? ==>
              && r.value.Follow? && r.value.tip == open.tip
              && Source(run.world, outpoint, value, r.value.txid, run.clock)
              && Ours(mine + (seen + sent), known) == ours + {r.value.txid}
              && (watch.deadline.None? || open.tip < watch.deadline.value ==>
                    AllBefore(mine + (seen + sent), watch.deadline))
  {
    ghost var with;
    var pushed;
    pushed, sent, with := Push(run, outpoint, value, rate, open.txid, open.depth, watch.cpfp);
    PushIsOk(run.world, mine, seen, sent, outpoint, value, with, known, watch.deadline);
    TurnStaysBefore(mine, seen, sent, open.tip, watch.deadline);
    NoTipNoCheck(sent);
    if !pushed.Ok? {
      return Crashed, sent;
    }
    OursGrow(mine, seen, sent, known, open.txid, pushed.value.0);
    return Ok(Follow(pushed.value.0, pushed.value.1, open.tip)), sent;
  }

  /** One turn of the loop, up to its deadline check. `more` is what it adds to the log `mine`. */
  method Check(run: Run, outpoint: OutPoint, value: u64, watch: Watch, rate: u64, txid: Txid,
               ours: set<Txid>, ghost known: seq<Txid>, ghost mine: seq<Event>)
    returns (r: Reply<Next>, ghost more: seq<Event>)
    requires Driving(run.world, mine, outpoint, value, known, ours, txid, run.clock)
    requires AllBefore(mine, watch.deadline)
    modifies run, run.store
    ensures run.Settling() && run.FundCalls == old(run.FundCalls)
    ensures run.clock >= old(run.clock)
    ensures r.Ok? ==> old(run.clock) < run.clock <= run.crashAt
    ensures run.Log == old(run.Log) + more
    ensures OnlySpendsNoted(old(run.store.disk), run.store.disk, more)
    ensures SendsOk(run.world, mine + more, outpoint, value, known)
    ensures StopsAtDeadline(mine + more, watch.deadline)
    ensures r.Ok? && r.value.Done? ==>
              !r.value.outcome.DeadlineExceeded?
              && OutcomeOk(run.world, mine + more, r.value.outcome, outpoint, value, watch, known, run.clock)
    ensures r.Ok? && r.value.Follow? ==>
              && Driving(run.world, mine + more, outpoint, value, known, ours + {r.value.txid}, r.value.txid,
                         run.clock)
              && TipRead(r.value.tip) in more && Checks(more) == 1
              && (watch.deadline.None? || r.value.tip < watch.deadline.value ==>
                    AllBefore(mine + more, watch.deadline))
  {
    var found, seen := Examine(run, outpoint, value, watch, txid, ours, known, mine);
    LookIsOk(run.world, mine, seen, outpoint, value, known, watch.deadline);
    more := seen;
    if !found.Ok? {
      return found.PropagateFailure(), more;
    }
    if found.value.Final? {
      return Ok(Done(found.value.outcome)), more;
    }
    ghost var sent;
    r, sent := Advance(run, outpoint, value, watch, rate, found.value, ours, known, mine, seen);
    Joined(old(run.Log), seen, sent);
    ChecksAppend(seen, sent);
    more := seen + sent;
  }

  /** A check, and whether to stop after it: at the deadline, or when too much time or too many checks
      have passed. `iterations` counts this check. */
  method Round(run: Run, outpoint: OutPoint, value: u64, watch: Watch, rate: u64, txid: Txid,
               ours: set<Txid>, iterations: u32, ghost known: seq<Txid>, ghost mine: seq<Event>)
    returns (r: Reply<Next>, ghost more: seq<Event>)
    requires Driving(run.world, mine, outpoint, value, known, ours, txid, run.clock)
    requires AllBefore(mine, watch.deadline) && Checks(mine) + 1 == iterations
    modifies run, run.store
    ensures run.Settling() && run.FundCalls == old(run.FundCalls)
    ensures run.clock >= old(run.clock)
    ensures r.Ok? ==> old(run.clock) < run.clock <= run.crashAt
    ensures run.Log == old(run.Log) + more
    ensures OnlySpendsNoted(old(run.store.disk), run.store.disk, more)
    ensures SendsOk(run.world, mine + more, outpoint, value, known)
    ensures StopsAtDeadline(mine + more, watch.deadline)
    ensures r.Ok? && r.value.Done? ==>
              OutcomeOk(run.world, mine + more, r.value.outcome, outpoint, value, watch, known, run.clock)
    ensures r.Ok? && r.value.Follow? ==>
              && Driving(run.world, mine + more, outpoint, value, known, ours + {r.value.txid}, r.value.txid,
                         run.clock)
              && AllBefore(mine + more, watch.deadline)
              && Checks(mine + more) == iterations < DEFAULT_MAX_ITERATIONS
  {
    r, more := Check(run, outpoint, value, watch, rate, txid, ours, known, mine);
    ChecksAppend(mine, more);
    if !r.Ok? || r.value.Done? {
      return;
    }
    var tip := r.value.tip;
    if watch.deadline.Some? && tip >= watch.deadline.value {
      return Ok(Done(DeadlineExceeded(r.value.txid, tip))), more;
    }
    var now := run.Tick();
    if !now.Ok? {
      return Crashed, more;
    }
    if run.world.stalled(now.value) || iterations >= DEFAULT_MAX_ITERATIONS {
      return Ok(Done(DeadlineExceeded(r.value.txid, tip))), more;
    }
  }

  /** Watch until the spend is over. `mine` is already on the log; `more` is what watching adds. */
  method WatchSpend(run: Run, outpoint: OutPoint, value: u64, watch: Watch, first: Txid, firstRate: u64,
                known: seq<Txid>, ghost mine: seq<Event>)
    returns (r: Reply<Outcome>, ghost more: seq<Event>)
    requires Driving(run.world, mine, outpoint, value, known, {first} + (set t | t in known), first, run.clock)
    requires Checks(mine) == 0 && AllBefore(mine, watch.deadline)
    modifies run, run.store
    ensures run.Settling() && run.FundCalls == old(run.FundCalls)
    ensures run.clock >= old(run.clock) && (r.Ok? ==> old(run.clock) < run.clock <= run.crashAt)
    ensures run.Log == old(run.Log) + more
    ensures OnlySpendsNoted(old(run.store.disk), run.store.disk, more)
    ensures SendsOk(run.world, mine + more, outpoint, value, known)
    ensures StopsAtDeadline(mine + more, watch.deadline)
    ensures r.Ok? ==> OutcomeOk(run.world, mine + more, r.value, outpoint, value, watch, known, run.clock)
  {
    var txid, rate := first, firstRate;
    var ours := {first} + set t | t in known;
    var iterations: u32 := 0;
    more := [];
    assert mine + more == mine;
    while true
      invariant run.Settling() && run.FundCalls == old(run.FundCalls)
      invariant run.clock >= old(run.clock)
      invariant run.Log == old(run.Log) + more
      invariant OnlySpendsNoted(old(run.store.disk), run.store.disk, more)
      invariant Driving(run.world, mine + more, outpoint, value, known, ours, txid, run.clock)
      invariant AllBefore(mine + more, watch.deadline)
      invariant Checks(mine + more) == iterations < DEFAULT_MAX_ITERATIONS
      decreases run.crashAt - run.clock
    {
      iterations := iterations + 1;
      ghost var disk := run.store.disk;
      var next, turn := Round(run, outpoint, value, watch, rate, txid, ours, iterations, known, mine + more);
      SpendsNotedAppend(old(run.store.disk), disk, run.store.disk, more, turn);
      Joined(old(run.Log), more, turn);
      Joined(mine, more, turn);
      more := more + turn;
      if !next.Ok? {
        return next.PropagateFailure(), more;
      }
      match next.value {
        case Done(outcome) =>
          return Ok(outcome), more;
        case Follow(id, raised, _) =>
          txid, rate, ours := id, raised, ours + {id};
      }
    }
  }

  /** Broadcast, then watch: hand back a rival's spend, put ours back when it vanished, raise its fee
      while it is unconfirmed, and stop when it is deep enough or the deadline has passed. `mine` is
      what the call added to the log. */
  method ConfirmOrBump(run: Run, outpoint: OutPoint, value: u64, watch: Watch, known: seq<Txid>)
    returns (r: Reply<Outcome>, ghost mine: seq<Event>)
    modifies run, run.store
    ensures run.Settling()
    ensures run.FundCalls == old(run.FundCalls)
    ensures run.clock >= old(run.clock) && (r.Ok? ==> old(run.clock) < run.clock <= run.crashAt)
    ensures run.Log == old(run.Log) + mine
    ensures OnlySpendsNoted(old(run.store.disk), run.store.disk, mine)
    ensures SendsOk(run.world, mine, outpoint, value, known)
    ensures StopsAtDeadline(mine, watch.deadline)
    ensures r.Ok? ==> OutcomeOk(run.world, mine, r.value, outpoint, value, watch, known, run.clock)
  {
    var start := run.Tick();
    if !start.Ok? {
      return Crashed, [];
    }
    var rate := run.world.rate(start.value);
    var begun;
    begun, mine := Begin(run, outpoint, value, rate, known);
    if !begun.Ok? {
      return begun.PropagateFailure(), mine;
    }
    NoTipNoCheck(mine);
    ghost var disk := run.store.disk;
    ghost var more;
    r, more := WatchSpend(run, outpoint, value, watch, begun.value, rate, known, mine);
    SpendsNotedAppend(old(run.store.disk), disk, run.store.disk, mine, more);
    Joined(old(run.Log), mine, more);
    mine := mine + more;
  }
}
