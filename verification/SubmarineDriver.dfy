/** The client's side of a submarine swap, over any number of runs of the process: fund the HTLC at
    most once, wait for the Lightning payment, refund at the timeout. */
module SubmarineDriver {
  import opened Chain
  import opened Durability
  import opened FundingSelection
  import opened SpendDriver
  import opened SwapRecord
  import opened SwapRun

  /** No deadline: the money is ours, so there is no time at which to stop asking for it. */
  const REFUND := Watch(FINALITY_DEPTH, None, true)

  datatype Contract = Contract(amount: u64, hash: Hash, timeout: u32)

  // ----- what the chain and the log say -----

  /** The transaction shows no preimage for this hash, at any output. */
  ghost predicate Hides(tx: Tx, hash: Hash) {
    forall outpoint :: !Reveals(tx, outpoint, hash)
  }

  /** What the HTLC enforces. The refunds built here carry no preimage. A spend that shows none took
      the refund branch, whose key only this client holds, so it is one of its refunds too. */
  ghost predicate HtlcBranches(world: World, hash: Hash) {
    && SpendsAreSpends(world)
    && (forall op, value, rate, id | world.build(op, value, rate) == Answered(id) :: Hides(world.tx(id), hash))
    && (forall op, id, until | SeenSpending(world, op, id, until) && !Reveals(world.tx(id), op, hash) ::
          Hides(world.tx(id), hash))
  }

  ghost predicate PaidBefore(world: World, until: nat) {
    exists t | 0 <= t < until :: world.pays(t)
  }

  /** The provider learns the preimage only by paying the invoice, and the node reports a settled
      invoice only once it was paid. */
  ghost predicate LearnsByPaying(world: World, hash: Hash) {
    && (forall t: nat | world.settled(t) == Answered(true) :: PaidBefore(world, t + 1))
    && (forall t: nat, op, id | world.spend(t)(op) == Answered(Some(id)) && Reveals(world.tx(id), op, hash) ::
          PaidBefore(world, t + 1))
  }

  ghost predicate SpendsHide(world: World, txids: seq<Txid>, hash: Hash) {
    forall t | t in txids :: Hides(world.tx(t), hash)
  }

  /** At most one funding call, and after it the record always says that a funding may exist. */
  ghost predicate FundsOnce(run: Run)
    reads run, run.store
  {
    run.FundCalls <= 1 && (run.FundCalls == 1 ==> MayBeFunded(run.store.disk))
  }

  /** How the log shows where a pinned outpoint came from. */
  ghost predicate Pins(e: Event, contract: Contract, op: OutPoint) {
    match e
    case FundingRead(found) => found == Some(op)
    case HistoryRead(history, chosen) =>
      chosen == Some(op) && exists h | h in history :: h.outpoint == op && h.value == contract.amount
    case FundCalled(_, result) => result == Answered(op)
    case _ => false
  }

  /** A funding call is made with the intent already on disk, right after a tip that leaves the
      provider its window, and only when the chain showed no funding before. */
  ghost predicate FundingOk(log: seq<Event>, contract: Contract) {
    forall i | 0 <= i < |log| && log[i].FundCalled? ::
      && i >= 2
      && log[i].recorded.Some?
      && log[i - 1].TipRead? && ClaimStartIsSafe(log[i - 1].tip, contract.timeout)
      && log[i].recorded == Some(log[i - 1].tip)
      && log[i - 2] == FundingRead(None)
  }

  ghost predicate TimeoutSeen(log: seq<Event>, timeout: u32) {
    exists e | e in log :: e.TipRead? && e.tip >= timeout
  }

  /** No refund is broadcast before a tip at the timeout was seen. */
  ghost predicate RefundsAfterTimeout(log: seq<Event>, timeout: u32) {
    forall i | 0 <= i < |log| && log[i].Sent? :: TimeoutSeen(log[..i], timeout)
  }

  function Lookup(world: World, now: nat): Lookups {
    (i: nat, op: OutPoint) =>
      match world.scan(now)(i, op)
      case Unavailable => Unavailable
      case Answered(None) => Answered(None)
      case Answered(Some(id)) => Answered(Some(world.tx(id)))
  }

  // ----- calls of this driver -----

  method FindFunding(run: Run) returns (r: Reply<Option<OutPoint>>)
    modifies run
    ensures run.Settling() && run.FundCalls == old(run.FundCalls)
    ensures r.Crashed? ==> run.clock == old(run.clock)
    ensures !r.Crashed? ==> old(run.clock) < run.clock <= run.crashAt
    ensures run.Log == old(run.Log) + if r.Ok? then [FundingRead(r.value)] else []
  {
    r := run.Hear(run.world.exactFunding, found => FundingRead(found));
  }

  /** The script's whole history, and which output of it is ours. */
  method FindRecorded(run: Run, contract: Contract) returns (r: Reply<Option<OutPoint>>, ghost e: Event)
    modifies run
    ensures run.Settling() && run.FundCalls == old(run.FundCalls)
    ensures run.clock >= old(run.clock) && (r.Ok? ==> old(run.clock) < run.clock <= run.crashAt)
    ensures !r.Ok? ==> run.Log == old(run.Log)
    ensures r.Ok? ==> && run.Log == old(run.Log) + [e]
                      && e.HistoryRead? && e.chosen == r.value
                      && (r.value.Some? ==> Pins(e, contract, r.value.value))
                      && (r.value.None? ==> forall h | h in e.history :: h.value != contract.amount)
  {
    e := FundingRead(None);
    var listed :- run.Tick();
    var answer := run.world.history(listed);
    if answer.Unavailable? {
      return Err, e;
    }
    var now :- run.Tick();
    var chosen := SelectRecorded(contract.hash, contract.amount, answer.value, Lookup(run.world, now));
    SelectedHasTheExactValue(contract.hash, contract.amount, answer.value, Lookup(run.world, now));
    match chosen {
      case Unavailable =>
        return Err, e;
      case Answered(op) =>
        e := HistoryRead(answer.value, op);
        run.Log := run.Log + [e];
        return Ok(op), e;
    }
  }

  /** A failed write of the outpoint is only logged: the intent is still on disk then. */
  method Funded(run: Run, op: OutPoint) returns (r: Reply<()>)
    modifies run, run.store
    ensures run.Settling() && run.FundCalls == old(run.FundCalls) && run.Log == old(run.Log)
    ensures !r.Err?
    ensures run.clock >= old(run.clock) && (r.Ok? ==> run.clock <= run.crashAt)
    ensures run.store.disk == old(run.store.disk)
            || run.store.disk == SwapRecord.Funded(old(run.store.disk), op)
  {
    var now :- run.Tick();
    var _ := run.store.RecordFunded(op, run.world.io(now));
    return Ok(());
  }

  method WriteFundingIntent(run: Run, tip: u32) returns (r: Reply<()>)
    modifies run, run.store
    ensures run.Settling() && run.FundCalls == old(run.FundCalls) && run.Log == old(run.Log)
    ensures run.clock >= old(run.clock) && (r.Ok? ==> run.clock <= run.crashAt)
    ensures run.store.disk == old(run.store.disk)
            || run.store.disk == FundingIntent(old(run.store.disk), tip)
    ensures r.Ok? ==> run.store.disk == FundingIntent(old(run.store.disk), tip)
  {
    var now :- run.Tick();
    var ok := run.store.RecordFundingIntent(tip, run.world.io(now));
    return if ok then Ok(()) else Err;
  }

  /** The call counts as made even when the process stops inside it. */
  method FundHtlc(run: Run) returns (r: Reply<Answer<OutPoint>>, ghost e: Event)
    modifies run
    ensures run.Settling() && run.FundCalls == old(run.FundCalls) + 1
    ensures !r.Err?
    ensures run.clock >= old(run.clock) && (r.Ok? ==> run.clock <= run.crashAt)
    ensures run.Log == old(run.Log) + [e]
    ensures e.FundCalled? && e.recorded == old(run.store.disk.fundingIntent)
    ensures r.Ok? ==> e.result == r.value
  {
    run.FundCalls := run.FundCalls + 1;
    ghost var before := run.Log;
    e := FundCalled(run.store.disk.fundingIntent, Unavailable);
    run.Log := before + [e];
    var now :- run.Tick();
    e := FundCalled(run.store.disk.fundingIntent, run.world.fund(now));
    run.Log := before + [e];
    return Ok(run.world.fund(now)), e;
  }

  /** Wait for a funding that may already have been broadcast, without broadcasting another. */
  method AwaitRecordedFunding(run: Run, contract: Contract)
    returns (r: Reply<Option<OutPoint>>, ghost mine: seq<Event>)
    modifies run, run.store
    ensures run.Settling() && run.FundCalls == old(run.FundCalls)
    ensures run.clock >= old(run.clock) && (r.Ok? ==> run.clock <= run.crashAt)
    ensures run.Log == old(run.Log) + mine
    ensures forall e | e in mine :: !e.Sent? && !e.FundCalled?
    ensures r.Ok? && r.value.Some? ==> exists e | e in mine :: Pins(e, contract, r.value.value)
    ensures r.Ok? && r.value.None? ==> TimeoutSeen(mine, contract.timeout) && run.store.disk == old(run.store.disk)
    ensures run.store.disk == old(run.store.disk)
            || exists op :: run.store.disk == SwapRecord.Funded(old(run.store.disk), op)
    ensures PinnedFunding(old(run.store.disk), run.store.disk, mine, contract)
  {
    mine := [];
    while true
      invariant run.Settling() && run.FundCalls == old(run.FundCalls)
      invariant run.clock >= old(run.clock)
      invariant run.Log == old(run.Log) + mine
      invariant forall e | e in mine :: !e.Sent? && !e.FundCalled?
      invariant run.store.disk == old(run.store.disk)
      decreases run.crashAt - run.clock
    {
      var found := FindFunding(run);
      if !found.Ok? {
        return found.PropagateFailure(), mine;
      }
      mine := mine + [FundingRead(found.value)];
      if found.value.Some? {
        assert Pins(mine[|mine| - 1], contract, found.value.value);
        var saved := Funded(run, found.value.value);
        return if saved.Ok? then Ok(found.value) else Crashed, mine;
      }

      var recorded, e := FindRecorded(run, contract);
      if !recorded.Ok? {
        return recorded.PropagateFailure(), mine;
      }
      mine := mine + [e];
      if recorded.value.Some? {
        assert Pins(e, contract, recorded.value.value) && e in mine;
        var saved := Funded(run, recorded.value.value);
        return if saved.Ok? then Ok(recorded.value) else Crashed, mine;
      }

      var tip := run.TipHeight();
      if !tip.Ok? {
        return tip.PropagateFailure(), mine;
      }
      mine := mine + [TipRead(tip.value)];
      if tip.value >= contract.timeout {
        assert TipRead(tip.value) in mine;
        return Ok(None), mine;
      }
    }
  }

  // ----- establishing the funding -----

  /** An outpoint gets on record only after the chain or the wallet named it. */
  ghost predicate PinnedFunding(before: Record, after: Record, log: seq<Event>, contract: Contract) {
    || after.funding == before.funding
    || (after.funding.Some? && exists e | e in log :: Pins(e, contract, after.funding.value))
  }

  /** The resumed run knows that a funding may exist exactly when the record says so. */
  predicate Covers(resume: Resume, r: Record) {
    resume.funding.Some? || resume.fundingIntent.Some? <==> MayBeFunded(r)
  }

  /** The record differs only in what funding writes. */
  predicate OnlyFunding(a: Record, b: Record) {
    && b == a.(funding := b.funding, fundingIntent := b.fundingIntent, fundingAttempts := b.fundingAttempts,
               state := b.state)
    && (b.state == a.state || b.state.LockupPending? || b.state.LockupConfirmed?)
  }

  lemma OneFundCall(log: seq<Event>, more: seq<Event>, contract: Contract)
    requires FundingOk(log, contract) && forall e | e in more :: !e.FundCalled?
    ensures FundingOk(log + more, contract)
  {
  }

  /** Call the wallet. After an error nobody knows whether it paid, so the chain is watched and nothing retried. */
  method PayHtlc(run: Run, contract: Contract) returns (r: Reply<Option<OutPoint>>, ghost mine: seq<Event>)
    requires run.store.disk.fundingIntent.Some?
    modifies run, run.store
    ensures run.Settling()
    ensures run.FundCalls == old(run.FundCalls) + 1 && MayBeFunded(run.store.disk)
    ensures run.clock >= old(run.clock) && (r.Ok? ==> run.clock <= run.crashAt)
    ensures run.Log == old(run.Log) + mine
    ensures mine != [] && mine[0].FundCalled? && mine[0].recorded == old(run.store.disk).fundingIntent
    ensures forall i | 0 < i < |mine| :: !mine[i].FundCalled?
    ensures forall e | e in mine :: !e.Sent?
    ensures OnlyFunding(old(run.store.disk), run.store.disk)
    ensures PinnedFunding(old(run.store.disk), run.store.disk, mine, contract)
    ensures r.Ok? && r.value.Some? ==> exists e | e in mine :: Pins(e, contract, r.value.value)
    ensures r.Ok? && r.value.None? ==> TimeoutSeen(mine, contract.timeout)
  {
    var funded, e := FundHtlc(run);
    mine := [e];
    if !funded.Ok? {
      return Crashed, mine;
    }
    match funded.value {
      case Answered(op) =>
        assert Pins(mine[0], contract, op);
        var saved := Funded(run, op);
        r := if saved.Ok? then Ok(Some(op)) else Crashed;
      case Unavailable =>
        ghost var more;
        r, more := AwaitRecordedFunding(run, contract);
        assert forall x | x in more :: x in [e] + more;
        mine := [e] + more;
    }
  }

  lemma FundingIsOk(tip: u32, mine: seq<Event>, contract: Contract)
    requires ClaimStartIsSafe(tip, contract.timeout)
    requires mine != [] && mine[0].FundCalled? && mine[0].recorded == Some(tip)
    requires forall i | 0 < i < |mine| :: !mine[i].FundCalled?
    ensures FundingOk([FundingRead(None), TipRead(tip)] + mine, contract)
  {
    var log := [FundingRead(None), TipRead(tip)] + mine;
    forall i | 0 <= i < |log| && log[i].FundCalled?
      ensures i == 2
    {
      assert i >= 2 ==> log[i] == mine[i - 2];
    }
  }

  /** Nothing was ever committed: decide whether the swap is worth funding, write the intent, fund. */
  method FundNow(run: Run, contract: Contract) returns (r: Reply<Option<OutPoint>>, ghost mine: seq<Event>)
    requires !MayBeFunded(run.store.disk)
    modifies run, run.store
    ensures run.Settling()
    ensures old(FundsOnce(run)) ==> FundsOnce(run)
    ensures run.clock >= old(run.clock) && (r.Ok? ==> run.clock <= run.crashAt)
    ensures run.Log == old(run.Log) + mine
    ensures (forall e | e in mine :: !e.Sent?) && FundingOk([FundingRead(None)] + mine, contract)
    ensures OnlyFunding(old(run.store.disk), run.store.disk)
    ensures PinnedFunding(old(run.store.disk), run.store.disk, mine, contract)
    ensures r.Ok? && r.value.Some? ==> exists e | e in mine :: Pins(e, contract, r.value.value)
    ensures r.Ok? && r.value.None? ==>
              MayBeFunded(run.store.disk) && TimeoutSeen(mine, contract.timeout)
  {
    mine := [];
    var tip := run.TipHeight();
    if !tip.Ok? {
      return tip.PropagateFailure(), mine;
    }
    ghost var read := [TipRead(tip.value)];
    mine := read;
    if !ClaimStartIsSafe(tip.value, contract.timeout) {
      return Err, mine;
    }
    var intent := WriteFundingIntent(run, tip.value);
    if !intent.Ok? {
      return intent.PropagateFailure(), mine;
    }
    ghost var more;
    r, more := PayHtlc(run, contract);
    FundingIsOk(tip.value, more, contract);
    assert [FundingRead(None)] + (read + more) == [FundingRead(None), TipRead(tip.value)] + more;
    Joined(old(run.Log), read, more);
    assert forall e | e in more :: e in read + more;
    mine := read + more;
  }

  /** The output this swap locks: the one on record, one the chain already shows, one that a call made
      earlier may still show, and only otherwise a new one. */
  method EstablishFunding(run: Run, contract: Contract, resume: Resume)
    returns (r: Reply<Option<OutPoint>>, ghost mine: seq<Event>)
    requires Covers(resume, run.store.disk)
    modifies run, run.store
    ensures run.Settling()
    ensures old(FundsOnce(run)) ==> FundsOnce(run)
    ensures MayBeFunded(old(run.store.disk)) ==> run.FundCalls == old(run.FundCalls)
    ensures run.clock >= old(run.clock)
    ensures r.Ok? && resume.funding.None? ==> run.clock <= run.crashAt
    ensures run.Log == old(run.Log) + mine
    ensures (forall e | e in mine :: !e.Sent?) && FundingOk(mine, contract)
    ensures resume.funding.Some? ==> r == Ok(resume.funding) && mine == []
    ensures OnlyFunding(old(run.store.disk), run.store.disk)
    ensures PinnedFunding(old(run.store.disk), run.store.disk, mine, contract)
    ensures MayBeFunded(old(run.store.disk)) ==> MayBeFunded(run.store.disk)
    ensures r.Ok? && r.value.Some? ==>
              resume.funding == r.value || exists e | e in mine :: Pins(e, contract, r.value.value)
    ensures r.Ok? && r.value.None? ==>
              MayBeFunded(run.store.disk) && TimeoutSeen(mine, contract.timeout)
  {
    mine := [];
    if resume.funding.Some? {
      return Ok(resume.funding), mine;
    }
    var found := FindFunding(run);
    if !found.Ok? {
      return found.PropagateFailure(), mine;
    }
    mine := [FundingRead(found.value)];
    if found.value.Some? {
      assert Pins(mine[0], contract, found.value.value);
      var saved := Funded(run, found.value.value);
      return if saved.Ok? then Ok(found.value) else Crashed, mine;
    }
    ghost var more;
    if resume.fundingIntent.Some? {
      r, more := AwaitRecordedFunding(run, contract);
      OneFundCall(mine, more, contract);
    } else {
      r, more := FundNow(run, contract);
    }
    Joined(old(run.Log), mine, more);
    assert forall e | e in more :: e in mine + more;
    mine := mine + more;
  }

  // ----- refunding -----

  lemma NotedHide(world: World, hash: Hash, before: Record, after: Record, log: seq<Event>, op: OutPoint,
                  value: u64, known: seq<Txid>)
    requires HtlcBranches(world, hash) && SpendsHide(world, OurSpends(before), hash)
    requires OnlySpendsNoted(before, after, log) && SendsOk(world, log, op, value, known)
    ensures SpendsHide(world, OurSpends(after), hash)
  {
    forall t | t in OurSpends(after) && t !in OurSpends(before)
      ensures Hides(world.tx(t), hash)
    {
      assert Noted(t) in log;
      var rate: u64 :| world.build(op, value, rate) == Answered(t);
    }
  }

  lemma OursHide(world: World, hash: Hash, log: seq<Event>, op: OutPoint, value: u64, known: seq<Txid>,
                 txid: Txid)
    requires HtlcBranches(world, hash) && SpendsHide(world, known, hash)
    requires SendsOk(world, log, op, value, known) && txid in Ours(log, known)
    ensures Hides(world.tx(txid), hash)
  {
    if txid !in known {
      var e :| e in log && e.Sent? && e.txid == txid;
      var i :| 0 <= i < |log| && log[i] == e;
      assert SendOk(world, log, i, op, value, known);
    }
  }

  ghost predicate SeenSettled(world: World, until: nat) {
    exists t | 0 <= t < until :: world.settled(t) == Answered(true)
  }

  /** The log ends with the invoice settled, or with a spend of the pinned output that reveals the
      preimage, as the node and the chain said before `until`. */
  ghost predicate ShowsClaim(world: World, log: seq<Event>, op: OutPoint, hash: Hash, until: nat) {
    && log != []
    && var last := log[|log| - 1];
       || (last == InvoiceRead(true) && SeenSettled(world, until))
       || (last.SpendRead? && last.outpoint == op && last.spend.Some?
           && SeenSpending(world, op, last.spend.value, until)
           && Reveals(world.tx(last.spend.value), op, hash))
  }

  /** The transaction takes the output back: one of its inputs spends it, and shows no preimage. */
  ghost predicate TakesBack(tx: Tx, op: OutPoint, hash: Hash) {
    SpendsOutput(tx, op) && !Reveals(tx, op, hash)
  }

  /** The log ends with a transaction that takes the pinned output back: one of ours, final, or the
      spend the chain reports. */
  ghost predicate ShowsRefund(world: World, log: seq<Event>, op: OutPoint, hash: Hash, until: nat) {
    && log != []
    && match log[|log| - 1]
       case DepthRead(txid, depth) =>
         depth.Some? && depth.value >= FINALITY_DEPTH && SeenDeep(world, txid, depth, until)
         && TakesBack(world.tx(txid), op, hash)
       case Noted(txid) =>
         |log| > 1 && log[|log| - 2] == SpendRead(op, Some(txid)) && SeenSpending(world, op, txid, until)
         && TakesBack(world.tx(txid), op, hash)
       case _ => false
  }

  lemma LastOf(log: seq<Event>, more: seq<Event>)
    requires more != []
    ensures (log + more)[|log + more| - 1] == more[|more| - 1]
    ensures |more| > 1 ==> (log + more)[|log + more| - 2] == more[|more| - 2]
  {
  }

  /** Somebody spent the output. Only the provider's branch shows the preimage; any other spend is a
      refund of ours from an earlier run, and is taken up as such. */
  method JudgeSpend(run: Run, op: OutPoint, hash: Hash, spend: Txid) returns (r: Reply<State>, ghost more: seq<Event>)
    modifies run, run.store
    ensures run.Settling() && run.FundCalls == old(run.FundCalls)
    ensures !r.Err?
    ensures run.clock >= old(run.clock) && (r.Ok? && old(run.clock) <= run.crashAt ==> run.clock <= run.crashAt)
    ensures run.Log == old(run.Log) + more
    ensures if r == Ok(State.Claimed) then more == [] && Reveals(run.world.tx(spend), op, hash)
            else r == Ok(State.Refunded) ==> more == [Noted(spend)]
    ensures r.Ok? ==> r.value.Claimed? || r.value.Refunded?
    ensures r != Ok(State.Claimed) ==> !Reveals(run.world.tx(spend), op, hash)
    ensures r.Crashed? ==> more == []
    ensures run.store.disk == old(run.store.disk)
            || (run.store.disk == NoteOurSpend(old(run.store.disk), spend)
                && !Reveals(run.world.tx(spend), op, hash))
  {
    more := [];
    var preimage := ExtractPreimage(run.world.tx(spend), op, hash);
    if preimage.Some? {
      return Ok(State.Claimed), more;
    }
    var noted := run.SpendBroadcast(spend);
    if noted.Crashed? {
      return Crashed, more;
    }
    return Ok(State.Refunded), [Noted(spend)];
  }

  ghost predicate Knows(run: Run, known: seq<Txid>, hash: Hash)
    reads run, run.store
  {
    HtlcBranches(run.world, hash) && SpendsHide(run.world, OurSpends(run.store.disk), hash)
    && SpendsHide(run.world, known, hash)
  }

  ghost predicate VerdictOk(world: World, log: seq<Event>, verdict: State, op: OutPoint, contract: Contract,
                            until: nat)
  {
    || (verdict.Claimed? && ShowsClaim(world, log, op, contract.hash, until))
    || (verdict.Refunded? && ShowsRefund(world, log, op, contract.hash, until))
  }

  lemma NotingHides(world: World, hash: Hash, r: Record, op: OutPoint, spend: Txid, until: nat)
    requires HtlcBranches(world, hash) && SpendsHide(world, OurSpends(r), hash)
    requires SeenSpending(world, op, spend, until) && !Reveals(world.tx(spend), op, hash)
    ensures SpendsHide(world, OurSpends(NoteOurSpend(r, spend)), hash)
  {
  }

  lemma SpendShows(world: World, log: seq<Event>, op: OutPoint, hash: Hash, spend: Txid, until: nat)
    requires log != [] && log[|log| - 1] == SpendRead(op, Some(spend)) && SeenSpending(world, op, spend, until)
    ensures Reveals(world.tx(spend), op, hash) ==> ShowsClaim(world, log, op, hash, until)
    ensures !Reveals(world.tx(spend), op, hash) && SpendsAreSpends(world) ==>
              ShowsRefund(world, log + [Noted(spend)], op, hash, until)
  {
  }

  /** Our refund, driven to an outcome. */
  method DriveRefund(run: Run, contract: Contract, op: OutPoint, known: seq<Txid>)
    returns (r: Reply<Outcome>, ghost mine: seq<Event>)
    modifies run, run.store
    ensures run.Settling() && run.FundCalls == old(run.FundCalls)
    ensures run.clock >= old(run.clock) && (r.Ok? ==> old(run.clock) < run.clock <= run.crashAt)
    ensures run.Log == old(run.Log) + mine
    ensures forall e | e in mine :: !e.InvoiceRead?
    ensures SameButSpends(old(run.store.disk), run.store.disk)
    ensures old(Knows(run, known, contract.hash)) ==> Knows(run, known, contract.hash)
    ensures r.Ok? ==> OutcomeOk(run.world, mine, r.value, op, contract.amount, REFUND, known, run.clock)
    ensures r.Ok? && r.value.Confirmed? && old(Knows(run, known, contract.hash)) ==>
              ShowsRefund(run.world, mine, op, contract.hash, run.clock)
  {
    ghost var knew := Knows(run, known, contract.hash);
    r, mine := ConfirmOrBump(run, op, contract.amount, REFUND, known);
    if knew {
      NotedHide(run.world, contract.hash, old(run.store.disk), run.store.disk, mine, op, contract.amount, known);
      if r.Ok? && r.value.Confirmed? {
        OursHide(run.world, contract.hash, mine, op, contract.amount, known, r.value.txid);
        SourceSpends(run.world, op, contract.amount, r.value.txid, run.clock);
      }
    }
  }

  /** One attempt at the refund; no verdict when it was handed back unresolved. */
  method TryRefund(run: Run, contract: Contract, op: OutPoint, known: seq<Txid>)
    returns (r: Reply<Option<State>>, ghost mine: seq<Event>)
    modifies run, run.store
    ensures run.Settling() && run.FundCalls == old(run.FundCalls)
    ensures run.clock >= old(run.clock) && (r.Ok? ==> old(run.clock) < run.clock <= run.crashAt)
    ensures run.Log == old(run.Log) + mine
    ensures InvoiceRead(true) !in mine
    ensures SameButSpends(old(run.store.disk), run.store.disk)
    ensures old(Knows(run, known, contract.hash)) ==> Knows(run, known, contract.hash)
    ensures r.Ok? && r.value.Some? ==>
              && mine != []
              && (r.value.value.Claimed? || r.value.value.Refunded?)
              && (r.value.value.Claimed? || old(Knows(run, known, contract.hash)) ==>
                    VerdictOk(run.world, mine, r.value.value, op, contract, run.clock))
  {
    var outcome;
    outcome, mine := DriveRefund(run, contract, op, known);
    if !outcome.Ok? {
      return outcome.PropagateFailure(), mine;
    }
    match outcome.value {
      case Confirmed(_) =>
        return Ok(Some(State.Refunded)), mine;
      case ConflictingSpend(spend) =>
        ghost var seenAt := run.clock;
        ghost var disk := run.store.disk;
        var state, more := JudgeSpend(run, op, contract.hash, spend);
        Joined(old(run.Log), mine, more);
        SpendShows(run.world, mine, op, contract.hash, spend, run.clock);
        if HtlcBranches(run.world, contract.hash) && SpendsHide(run.world, OurSpends(disk), contract.hash)
           && !Reveals(run.world.tx(spend), op, contract.hash)
        {
          NotingHides(run.world, contract.hash, disk, op, spend, seenAt);
        }
        assert mine + [] == mine;
        mine := mine + more;
        return if state.Ok? then Ok(Some(state.value)) else Crashed, mine;
      case DeadlineExceeded(_, _) =>
        return Ok(None), mine;
    }
  }

  lemma TimeoutStaysSeen(log: seq<Event>, more: seq<Event>, timeout: u32)
    requires RefundsAfterTimeout(log, timeout)
    requires TimeoutSeen(log, timeout) || forall e | e in more :: !e.Sent?
    ensures RefundsAfterTimeout(log + more, timeout)
  {
    forall i | 0 <= i < |log + more| && (log + more)[i].Sent?
      ensures TimeoutSeen((log + more)[..i], timeout)
    {
      if i < |log| {
        assert (log + more)[..i] == log[..i];
      } else {
        assert (log + more)[i] in more;
        assert (log + more)[..i] == log + more[..i - |log|];
        var e :| e in log && e.TipRead? && e.tip >= timeout;
        assert e in (log + more)[..i];
      }
    }
  }

  // ----- a whole run -----

  lemma VerdictStands(world: World, log: seq<Event>, more: seq<Event>, verdict: State, op: OutPoint,
                      contract: Contract, until: nat)
    requires more != []
    ensures VerdictOk(world, more, verdict, op, contract, until) ==>
              VerdictOk(world, log + more, verdict, op, contract, until)
  {
    LastOf(log, more);
  }

  /** The timeout was seen: if the provider claimed, the swap succeeded; otherwise refund. */
  method AfterTimeout(run: Run, contract: Contract, op: OutPoint, known: seq<Txid>)
    returns (r: Reply<Option<State>>, ghost mine: seq<Event>)
    modifies run, run.store
    ensures run.Settling() && run.FundCalls == old(run.FundCalls)
    ensures run.clock >= old(run.clock) && (r.Ok? ==> old(run.clock) < run.clock <= run.crashAt)
    ensures run.Log == old(run.Log) + mine
    ensures InvoiceRead(true) !in mine
    ensures SameButSpends(old(run.store.disk), run.store.disk)
    ensures old(Knows(run, known, contract.hash)) ==> Knows(run, known, contract.hash)
    ensures r.Ok? && r.value.Some? ==>
              mine != []
              && (r.value.value.Claimed? || r.value.value.Refunded?)
              && (r.value.value.Claimed? || old(Knows(run, known, contract.hash)) ==>
                    VerdictOk(run.world, mine, r.value.value, op, contract, run.clock))
  {
    mine := [];
    var spend := run.FindSpend(op);
    if !spend.Ok? {
      return spend.PropagateFailure(), mine;
    }
    ghost var read := [SpendRead(op, spend.value)];
    mine := read;
    if spend.value.Some? {
      var preimage := ExtractPreimage(run.world.tx(spend.value.value), op, contract.hash);
      if preimage.Some? {
        return Ok(Some(State.Claimed)), mine;
      }
    }
    ghost var more;
    r, more := TryRefund(run, contract, op, known);
    Joined(old(run.Log), read, more);
    if r.Ok? && r.value.Some? {
      VerdictStands(run.world, read, more, r.value.value, op, contract, run.clock);
    }
    mine := read + more;
  }

  lemma PhasesJoin(funding: seq<Event>, settling: seq<Event>, timeout: u32)
    requires RefundsAfterTimeout(funding, timeout) && RefundsAfterTimeout(settling, timeout)
    ensures RefundsAfterTimeout(funding + settling, timeout)
  {
    var log := funding + settling;
    forall i | 0 <= i < |log| && log[i].Sent?
      ensures TimeoutSeen(log[..i], timeout)
    {
      if i < |funding| {
        assert log[..i] == funding[..i];
      } else {
        var j := i - |funding|;
        assert settling[j].Sent?;
        var e :| e in settling[..j] && e.TipRead? && e.tip >= timeout;
        assert log[..i] == funding + settling[..j];
        assert e in log[..i];
      }
    }
  }

  /** One turn: ask whether the invoice settled, and at the timeout turn to the refund. */
  method Turn(run: Run, contract: Contract, op: OutPoint, known: seq<Txid>)
    returns (r: Reply<Option<State>>, ghost mine: seq<Event>)
    modifies run, run.store
    ensures run.Settling() && run.FundCalls == old(run.FundCalls)
    ensures run.clock >= old(run.clock) && (r.Ok? ==> old(run.clock) < run.clock <= run.crashAt)
    ensures run.Log == old(run.Log) + mine
    ensures SameButSpends(old(run.store.disk), run.store.disk)
    ensures RefundsAfterTimeout(mine, contract.timeout)
    ensures InvoiceRead(true) in mine ==> r.Ok? && r.value == Some(State.Claimed)
    ensures old(Knows(run, known, contract.hash)) ==> Knows(run, known, contract.hash)
    ensures r.Ok? && r.value.Some? ==>
              && mine != []
              && (r.value.value.Claimed? || r.value.value.Refunded?)
              && (r.value.value.Claimed? || old(Knows(run, known, contract.hash)) ==>
                    VerdictOk(run.world, mine, r.value.value, op, contract, run.clock))
  {
    mine := [];
    var settled := run.Hear(run.world.settled, paid => InvoiceRead(paid));
    if !settled.Ok? {
      return settled.PropagateFailure(), mine;
    }
    mine := [InvoiceRead(settled.value)];
    if settled.value {
      return Ok(Some(State.Claimed)), mine;
    }
    var tip := run.TipHeight();
    if !tip.Ok? {
      return tip.PropagateFailure(), mine;
    }
    ghost var read := [InvoiceRead(settled.value), TipRead(tip.value)];
    assert run.Log == old(run.Log) + read;
    mine := read;
    if tip.value < contract.timeout {
      return Ok(None), mine;
    }
    assert read[1] in read;
    ghost var more;
    r, more := AfterTimeout(run, contract, op, known);
    TimeoutStaysSeen(read, more, contract.timeout);
    Joined(old(run.Log), read, more);
    if r.Ok? && r.value.Some? {
      VerdictStands(run.world, read, more, r.value.value, op, contract, run.clock);
    }
    mine := read + more;
  }

  /** Wait for the invoice to settle; from the timeout on, refund. */
  method AwaitSettlement(run: Run, contract: Contract, op: OutPoint, known: seq<Txid>)
    returns (r: Reply<State>, ghost mine: seq<Event>)
    modifies run, run.store
    ensures run.Settling() && run.FundCalls == old(run.FundCalls)
    ensures run.clock >= old(run.clock)
    ensures run.Log == old(run.Log) + mine
    ensures SameButSpends(old(run.store.disk), run.store.disk)
    ensures RefundsAfterTimeout(mine, contract.timeout)
    ensures InvoiceRead(true) in mine ==> r.Ok? && r.value == State.Claimed
    ensures old(Knows(run, known, contract.hash)) ==> Knows(run, known, contract.hash)
    ensures r.Ok? ==>
              && (r.value.Claimed? || r.value.Refunded?)
              && (r.value.Claimed? || old(Knows(run, known, contract.hash)) ==>
                    VerdictOk(run.world, mine, r.value, op, contract, run.clock))
  {
    mine := [];
    ghost var knew := Knows(run, known, contract.hash);
    while true
      invariant run.Settling() && run.FundCalls == old(run.FundCalls)
      invariant run.clock >= old(run.clock)
      invariant run.Log == old(run.Log) + mine
      invariant SameButSpends(old(run.store.disk), run.store.disk)
      invariant RefundsAfterTimeout(mine, contract.timeout)
      invariant InvoiceRead(true) !in mine
      invariant knew ==> Knows(run, known, contract.hash)
      decreases run.crashAt - run.clock
    {
      var verdict, more := Turn(run, contract, op, known);
      PhasesJoin(mine, more, contract.timeout);
      Joined(old(run.Log), mine, more);
      if verdict.Ok? && verdict.value.Some? {
        VerdictStands(run.world, mine, more, verdict.value.value, op, contract, run.clock);
      }
      mine := mine + more;
      if !verdict.Ok? {
        return verdict.PropagateFailure(), mine;
      }
      if verdict.value.Some? {
        return Ok(verdict.value.value), mine;
      }
    }
  }

  /** One run of the driver. `funding` and `settling` are what its two phases put on the log. */
  method Execute(run: Run, contract: Contract, resume: Resume)
    returns (r: Reply<State>, ghost pinned: Option<OutPoint>, ghost funding: seq<Event>, ghost settling: seq<Event>)
    requires Covers(resume, run.store.disk)
    modifies run, run.store
    ensures run.Settling()
    ensures old(FundsOnce(run)) ==> FundsOnce(run)
    ensures MayBeFunded(old(run.store.disk)) ==> run.FundCalls == old(run.FundCalls)
    ensures run.clock >= old(run.clock)
    ensures run.Log == old(run.Log) + (funding + settling)
    ensures PinnedFunding(old(run.store.disk), run.store.disk, funding, contract)
    ensures FundingOk(funding, contract) && RefundsAfterTimeout(funding + settling, contract.timeout)
    ensures MayBeFunded(old(run.store.disk)) ==> MayBeFunded(run.store.disk)
    ensures SameIdentity(old(run.store.disk), run.store.disk)
    ensures old(Knows(run, resume.ourSpends, contract.hash)) ==> Knows(run, resume.ourSpends, contract.hash)
    ensures InvoiceRead(true) in settling ==> r == Ok(State.Claimed)
    ensures resume.funding.Some? ==> pinned == resume.funding && funding == []
    ensures pinned.Some? ==>
              resume.funding == pinned || exists e | e in funding :: Pins(e, contract, pinned.value)
    ensures r.Ok? ==>
              match r.value
              case Claimed =>
                pinned.Some? && VerdictOk(run.world, settling, r.value, pinned.value, contract, run.clock)
              case Refunded =>
                pinned.Some?
                && (old(Knows(run, resume.ourSpends, contract.hash)) ==>
                      VerdictOk(run.world, settling, r.value, pinned.value, contract, run.clock))
              case Expired =>
                pinned.None? && settling == [] && TimeoutSeen(funding, contract.timeout)
                && MayBeFunded(run.store.disk)
              case _ => false
  {
    settling, pinned := [], None;
    ghost var knew := Knows(run, resume.ourSpends, contract.hash);
    ghost var disk := run.store.disk;
    var outpoint;
    outpoint, funding := EstablishFunding(run, contract, resume);
    assert OurSpends(run.store.disk) == OurSpends(disk);
    TimeoutStaysSeen([], funding, contract.timeout);
    assert [] + funding == funding && funding + [] == funding;
    if !outpoint.Ok? {
      return outpoint.PropagateFailure(), pinned, funding, settling;
    }
    if outpoint.value.None? {
      return Ok(State.Expired), pinned, funding, settling;
    }
    pinned := outpoint.value;
    r, settling := AwaitSettlement(run, contract, outpoint.value.value, resume.ourSpends);
    PhasesJoin(funding, settling, contract.timeout);
    Joined(old(run.Log), funding, settling);
  }

  predicate SameIdentity(a: Record, b: Record) {
    a.role == b.role && a.direction == b.direction && a.request == b.request
    && a.executionReady == b.executionReady && a.paymentStarted == b.paymentStarted
    && (b.state == a.state || b.state.LockupPending? || b.state.LockupConfirmed?)
  }

  // ----- the whole life of one swap -----

  predicate Driven(state: State) {
    state.Created? || state.LockupPending? || state.LockupConfirmed?
  }

  /** What holds between runs: the record is still driven, or it holds the last verdict. */
  ghost predicate Between(run: Run, contract: Contract, verdict: Option<State>)
    reads run, run.store
  {
    var disk := run.store.disk;
    && FundsOnce(run)
    && disk.role.Client? && disk.direction.Submarine?
    && (HtlcBranches(run.world, contract.hash) ==> SpendsHide(run.world, OurSpends(disk), contract.hash))
    && (Driven(disk.state) || (verdict == Some(disk.state) && disk.state.Terminal()))
    && (disk.state.Expired? ==> MayBeFunded(disk))
    && (disk.funding.Some? ==> WasPinned(run.Log, contract, disk.funding.value))
  }

  ghost predicate WasPinned(log: seq<Event>, contract: Contract, op: OutPoint) {
    exists e | e in log :: Pins(e, contract, op)
  }

  /** A transaction that takes the output back was final, or was the spend the chain reported. */
  ghost predicate CoinsBack(world: World, op: OutPoint, hash: Hash, until: nat) {
    exists id :: TakesBack(world.tx(id), op, hash)
                 && (SeenSpending(world, op, id, until) || SeenFinal(world, id, until))
  }

  ghost predicate SeenFinal(world: World, txid: Txid, until: nat) {
    exists depth: u32 :: depth >= FINALITY_DEPTH && SeenDeep(world, txid, Some(depth), until)
  }

  /** What a verdict is worth to the client: over Lightning it was paid, or on chain it has its coins
      back. The first needs that the preimage is learned only by paying, the second what the HTLC
      enforces. */
  ghost predicate MadeWhole(world: World, verdict: State, pinned: OutPoint, hash: Hash, until: nat) {
    && (verdict.Claimed? && LearnsByPaying(world, hash) ==> PaidBefore(world, until))
    && (verdict.Refunded? && HtlcBranches(world, hash) ==> CoinsBack(world, pinned, hash, until))
  }

  /** No verdict leaves the client without both the payment and the coins. */
  lemma NeitherVerdictLosesBoth(world: World, log: seq<Event>, verdict: State, op: OutPoint,
                                contract: Contract, until: nat)
    requires verdict.Claimed? || verdict.Refunded?
    requires verdict.Claimed? || HtlcBranches(world, contract.hash) ==>
               VerdictOk(world, log, verdict, op, contract, until)
    ensures MadeWhole(world, verdict, op, contract.hash, until)
  {
    if verdict.Claimed? && LearnsByPaying(world, contract.hash) {
      if log[|log| - 1] == InvoiceRead(true) {
        var t :| 0 <= t < until && world.settled(t) == Answered(true);
        assert PaidBefore(world, t + 1);
      } else {
        var id := log[|log| - 1].spend.value;
        var t :| 0 <= t < until && world.spend(t)(op) == Answered(Some(id));
        assert PaidBefore(world, t + 1);
      }
    }
    if verdict.Refunded? && HtlcBranches(world, contract.hash) {
      match log[|log| - 1] {
        case DepthRead(txid, depth) => assert SeenDeep(world, txid, Some(depth.value), until);
        case Noted(txid) => assert SeenSpending(world, op, txid, until);
      }
    }
  }

  /** What one verdict comes to. */
  ghost predicate Concluded(run: Run, contract: Contract, verdict: State, pinned: Option<OutPoint>)
    reads run
  {
    || verdict.Expired?
    || ((verdict.Claimed? || verdict.Refunded?)
        && pinned.Some? && WasPinned(run.Log, contract, pinned.value)
        && MadeWhole(run.world, verdict, pinned.value, contract.hash, run.clock))
  }

  lemma StillPinned(log: seq<Event>, more: seq<Event>, contract: Contract, op: OutPoint)
    requires WasPinned(log, contract, op)
    ensures WasPinned(log + more, contract, op)
  {
    var e :| e in log && Pins(e, contract, op);
    assert e in log + more;
  }

  lemma NewlyPinned(log: seq<Event>, funding: seq<Event>, settling: seq<Event>, contract: Contract, op: OutPoint)
    requires exists e | e in funding :: Pins(e, contract, op)
    ensures WasPinned(log + (funding + settling), contract, op)
  {
    var e :| e in funding && Pins(e, contract, op);
    assert e in log + (funding + settling);
  }

  /** Every outpoint on record or pinned in this run was named by the chain or the wallet. */
  lemma PinsHold(before: Record, after: Record, log: seq<Event>, funding: seq<Event>, settling: seq<Event>,
                 contract: Contract, pinned: Option<OutPoint>)
    requires before.funding.Some? ==> WasPinned(log, contract, before.funding.value)
    requires PinnedFunding(before, after, funding, contract)
    requires pinned.Some? ==>
               before.funding == pinned || exists e | e in funding :: Pins(e, contract, pinned.value)
    ensures after.funding.Some? ==> WasPinned(log + (funding + settling), contract, after.funding.value)
    ensures pinned.Some? ==> WasPinned(log + (funding + settling), contract, pinned.value)
  {
    if before.funding.Some? {
      StillPinned(log, funding + settling, contract, before.funding.value);
    }
    if after.funding.Some? && after.funding != before.funding {
      NewlyPinned(log, funding, settling, contract, after.funding.value);
    }
    if pinned.Some? && pinned != before.funding {
      NewlyPinned(log, funding, settling, contract, pinned.value);
    }
  }

  /** One run of the driver, before its outcome is written down. */
  method Attempt(run: Run, contract: Contract, resume: Resume, ghost before: Option<State>)
    returns (state: Reply<State>, ghost pinned: Option<OutPoint>)
    requires Covers(resume, run.store.disk) && resume.ourSpends == OurSpends(run.store.disk)
    requires resume.funding == run.store.disk.funding
    requires Between(run, contract, before) && Driven(run.store.disk.state)
    modifies run, run.store
    ensures Between(run, contract, before) && Driven(run.store.disk.state)
    ensures state.Ok? ==> Concluded(run, contract, state.value, pinned)
    ensures state.Ok? && state.value.Expired? ==> MayBeFunded(run.store.disk)
    ensures run.clock >= old(run.clock) && old(run.Log) <= run.Log
  {
    ghost var was := run.store.disk;
    ghost var funding, settling;
    state, pinned, funding, settling := Execute(run, contract, resume);
    PinsHold(was, run.store.disk, old(run.Log), funding, settling, contract, pinned);
    if state.Ok? && !state.value.Expired? {
      NeitherVerdictLosesBoth(run.world, settling, state.value, pinned.value, contract, run.clock);
    }
  }

  /** One process: drive the swap from what the record says, and write the outcome down. */
  method OneRun(run: Run, contract: Contract, resume: Resume, ghost before: Option<State>)
    returns (verdict: Option<State>, ghost pinned: Option<OutPoint>)
    requires Covers(resume, run.store.disk) && resume.ourSpends == OurSpends(run.store.disk)
    requires resume.funding == run.store.disk.funding
    requires Between(run, contract, before) && Driven(run.store.disk.state)
    modifies run, run.store
    ensures Between(run, contract, if verdict.Some? then verdict else before)
    ensures verdict.Some? ==> Concluded(run, contract, verdict.value, pinned)
    ensures run.clock >= old(run.clock) && old(run.Log) <= run.Log
  {
    var state;
    state, pinned := Attempt(run, contract, resume, before);
    if !state.Ok? {
      return None, pinned;
    }
    ghost var disk, ended := run.store.disk, run.clock;
    verdict := Some(state.value);
    var now := run.Tick();
    if now.Ok? {
      var _ := run.store.RecordTerminal(state.value, run.world.now(now.value), run.world.io(now.value));
    }
    assert OurSpends(run.store.disk) == OurSpends(disk);
    if !state.value.Expired? {
      StillConcluded(run.world, state.value, pinned.value, contract.hash, ended, run.clock);
    }
  }

  lemma StillConcluded(world: World, verdict: State, op: OutPoint, hash: Hash, until: nat, later: nat)
    requires MadeWhole(world, verdict, op, hash, until) && until <= later
    ensures MadeWhole(world, verdict, op, hash, later)
  {
    if verdict.Refunded? && HtlcBranches(world, hash) {
      var id :| TakesBack(world.tx(id), op, hash)
                && (SeenSpending(world, op, id, until) || SeenFinal(world, id, until));
      if SeenFinal(world, id, until) {
        var depth: u32 :| depth >= FINALITY_DEPTH && SeenDeep(world, id, Some(depth), until);
        assert SeenDeep(world, id, Some(depth), later);
      }
    }
  }

  /** Any number of runs: the first starts from nothing, each later one from the record while it is
      not terminal, and every process stops wherever it likes. `pinned` belongs to the last verdict.
      Where the preimage is learned only by paying, `Claimed` means that the invoice was paid; where
      the HTLC holds, `Refunded` means that a transaction with an input spending the pinned output and
      no preimage took the coins back. */
  method Lifetime(run: Run, contract: Contract, crashes: seq<nat>)
    returns (verdict: Option<State>, ghost pinned: Option<OutPoint>)
    requires run.FundCalls == 0
    requires !MayBeFunded(run.store.disk) && OurSpends(run.store.disk) == []
    requires run.store.disk.role.Client? && run.store.disk.direction.Submarine?
    requires run.store.disk.state.Created?
    modifies run, run.store
    ensures run.FundCalls <= 1
    ensures run.FundCalls == 1 ==> MayBeFunded(run.store.disk)
    ensures verdict.Some? ==> verdict.value.Claimed? || verdict.value.Refunded? || verdict.value.Expired?
    ensures verdict == Some(State.Claimed) && LearnsByPaying(run.world, contract.hash) ==>
              PaidBefore(run.world, run.clock)
    ensures verdict == Some(State.Refunded) && HtlcBranches(run.world, contract.hash) ==>
              pinned.Some? && WasPinned(run.Log, contract, pinned.value)
              && CoinsBack(run.world, pinned.value, contract.hash, run.clock)
    ensures CleanupDeadline(run.store.disk).Some? ==> verdict == Some(State.Claimed) || verdict == Some(State.Refunded)
  {
    verdict, pinned := None, None;
    for i := 0 to |crashes|
      invariant Between(run, contract, verdict)
      invariant i == 0 ==> !MayBeFunded(run.store.disk) && OurSpends(run.store.disk) == []
      invariant i == 0 ==> Driven(run.store.disk.state)
      invariant verdict.Some? ==>
                  (verdict.value.Claimed? || verdict.value.Refunded? || verdict.value.Expired?)
                  && Concluded(run, contract, verdict.value, pinned)
    {
      ghost var log := run.Log;
      run.Restart(crashes[i]);
      if run.store.disk.state.Terminal() {
        return;
      }
      if i > 0 && !ExecutionReady(run.store.disk) {
        continue;
      }
      var resume := if i == 0 then FRESH else ResumeOf(run.store.disk);
      ghost var started := run.clock;
      var reached, op := OneRun(run, contract, resume, verdict);
      if reached.Some? {
        verdict, pinned := reached, op;
      } else if verdict.Some? && !verdict.value.Expired? {
        StillConcluded(run.world, verdict.value, pinned.value, contract.hash, started, run.clock);
        StillPinned(log, run.Log[|log|..], contract, pinned.value);
        assert log + run.Log[|log|..] == run.Log;
      }
    }
  }
}
