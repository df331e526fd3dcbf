/** The client's side of a reverse swap, over any number of runs of the process: pay the hold invoice
    at most once, reveal the preimage only to claim an output that is really there. */
module ReverseDriver {
  import opened Chain
  import opened Durability
  import opened FundingSelection
  import opened SpendDriver
  import opened SwapRecord
  import opened SwapRun

  datatype Claim = Claim(amount: u64, timeout: u32, confirmations: u32)

  /** The claim has to be in before the provider can take its refund. */
  function ClaimWatch(claim: Claim): Watch {
    Watch(FINALITY_DEPTH, Some(SaturatingSub(claim.timeout, CLAIM_ABORT_MARGIN)), false)
  }

  // ----- paying -----

  datatype Status = AlreadyPaid | StillInFlight | NotFound | PaymentFailed | Unknown | NoAnswer

  /** What an honest node knows about the payments for this hash. */
  function TrueStatus(attempts: seq<Attempt>): Status {
    if Attempt.Succeeded in attempts then AlreadyPaid
    else if Attempt.InFlight in attempts then StillInFlight
    else if attempts == [] then NotFound
    else PaymentFailed
  }

  /** An authoritative "no payment" means exactly that none holds or took the money. */
  lemma {:induction false} NoPaymentIsLive(attempts: seq<Attempt>)
    ensures TrueStatus(attempts) == NotFound || TrueStatus(attempts) == PaymentFailed
            <==> Live(attempts) == 0
  {
    LiveFew(attempts);
    if attempts != [] && Live(attempts) != 0 {
      var a :| a in attempts && !a.Failed?;
      assert a == Attempt.Succeeded || a == Attempt.InFlight;
    }
  }

  /** At most one payment in flight or settled, and after any submission the record says so, unless
      it is of the old kind for which a missing marker proves nothing. */
  ghost predicate PaysOnce(run: Run)
    reads run, run.store
  {
    && run.Exposure() <= 1
    && (run.Submitted() ==> run.store.disk.paymentStarted.Some? || run.store.disk.request.None?)
  }

  /** What the node says when asked at this instant: the truth about the payments as they are then,
      "unknown", or nothing. */
  function StatusAt(world: World, now: nat, attempts: seq<Attempt>): Status {
    match world.payment(now)
    case Truth => TrueStatus(Evolve(attempts, world.paid(now)))
    case SaysUnknown => Unknown
    case Silent => NoAnswer
  }

  method PaymentStatus(run: Run) returns (r: Reply<Status>)
    requires !run.submitting
    modifies run
    ensures run.Settling() && run.Log == old(run.Log) && run.FundCalls == old(run.FundCalls)
    ensures !r.Err? && !run.submitting
    ensures r.Ok? ==> && run.clock <= run.crashAt
                      && r.value == StatusAt(run.world, old(run.clock), old(run.attempts))
                      && run.attempts == Evolve(old(run.attempts), run.world.paid(old(run.clock)))
  {
    var now :- run.Tick();
    match run.world.payment(now) {
      case Truth => return Ok(TrueStatus(run.attempts));
      case SaysUnknown => return Ok(Unknown);
      case Silent => return Ok(NoAnswer);
    }
  }

  /** Whether to take it that a payment may already be under way. */
  predicate MayBePaying(status: Status, firstRun: bool) {
    match status
    case AlreadyPaid => true
    case StillInFlight => true
    case NotFound => false
    case PaymentFailed => false
    case Unknown => !firstRun
    case NoAnswer => true
  }

  /** The decision is safe with whatever a truthful node said, if a first run follows no submission. */
  lemma {:induction false} NotPayingMeansNoneLive(attempts: seq<Attempt>, status: Status, firstRun: bool)
    requires status == TrueStatus(attempts) || status == Unknown || status == NoAnswer
    requires firstRun ==> attempts == []
    requires !MayBePaying(status, firstRun)
    ensures Live(attempts) == 0
  {
    NoPaymentIsLive(attempts);
  }

  /** Pay only on an authoritative "no payment", or on "unknown" in a first run; write the marker
      before the payment task starts. */
  method StartPayment(run: Run, resume: Resume) returns (r: Reply<bool>)
    requires PaysOnce(run) && !run.submitting
    requires resume.IsFresh() ==> !run.Submitted()
    modifies run, run.store
    ensures PaysOnce(run)
    ensures run.Log == old(run.Log) && run.FundCalls == old(run.FundCalls)
    ensures run.crashAt == old(run.crashAt)
    ensures r.Ok? ==> run.clock <= run.crashAt
    ensures r.Ok? ==>
              (r.value <==> !MayBePaying(StatusAt(run.world, old(run.clock), old(run.attempts)), resume.IsFresh()))
    ensures r.Ok? && r.value ==> run.store.disk.paymentStarted.Some? && run.submitting
    ensures run.submitting ==> r == Ok(true)
    ensures run.store.disk == old(run.store.disk)
            || exists now: u64 :: run.store.disk == PaymentStarted(old(run.store.disk), now)
  {
    var status :- PaymentStatus(run);
    if MayBePaying(status, resume.IsFresh()) {
      return Ok(false);
    }
    NotPayingMeansNoneLive(run.attempts, status, resume.IsFresh());
    var now :- run.Tick();
    var ok := run.store.RecordPaymentStarted(run.world.now(now), run.world.io(now));
    if !ok {
      return Err;
    }
    run.submitting := true;
    return Ok(true);
  }

  // ----- waiting for the provider's output -----

  /** The last two answers before anything is revealed: the script holds exactly one output, worth the
      agreed amount and no more than the tolerance above, deep enough; and, read after that, a tip
      that leaves the claim its margin. */
  ghost predicate Gate(log: seq<Event>, claim: Claim, found: Output) {
    && |log| >= 2
    && log[|log| - 2] == OutputsRead([found])
    && claim.amount <= found.value <= claim.amount + DEFAULT_MAX_OVERPAY_SAT
    && found.confirmations >= claim.confirmations
    && log[|log| - 1].TipRead?
    && claim.timeout > log[|log| - 1].tip + CLAIM_ABORT_MARGIN
  }

  predicate Acceptable(outputs: seq<Output>, claim: Claim) {
    && |outputs| == 1
    && claim.amount <= outputs[0].value <= claim.amount + DEFAULT_MAX_OVERPAY_SAT
    && outputs[0].confirmations >= claim.confirmations
  }

  ghost predicate KeepsSecret(log: seq<Event>) {
    forall e | e in log :: !e.Sent? && !e.Noted?
  }

  method FindOutputs(run: Run) returns (r: Reply<seq<Output>>)
    modifies run
    ensures run.Settling() && run.FundCalls == old(run.FundCalls)
    ensures r.Crashed? ==> run.clock == old(run.clock)
    ensures !r.Crashed? ==> old(run.clock) < run.clock <= run.crashAt
    ensures run.Log == old(run.Log) + if r.Ok? then [OutputsRead(r.value)] else []
  {
    r := run.Hear(run.world.outputs, outputs => OutputsRead(outputs));
  }

  /** Outputs that are taken are exactly the acceptable ones; any other than none at all, or one not
      deep enough yet, ends the wait. */
  method Weigh(outputs: seq<Output>, claim: Claim) returns (found: Option<Output>, hopeless: bool)
    ensures found.Some? <==> Acceptable(outputs, claim)
    ensures found.Some? ==> outputs == [found.value] && !hopeless
    ensures hopeless <==> |outputs| > 1
                          || (|outputs| == 1
                              && !(claim.amount <= outputs[0].value <= claim.amount + DEFAULT_MAX_OVERPAY_SAT))
  {
    AcceptedExactly(outputs, claim.amount, DEFAULT_MAX_OVERPAY_SAT);
    match SelectFunding(outputs, claim.amount, DEFAULT_MAX_OVERPAY_SAT) {
      case Exact(utxo) =>
        return if utxo.confirmations >= claim.confirmations then Some(utxo) else None, false;
      case Overpaid(utxo, _) =>
        return if utxo.confirmations >= claim.confirmations then Some(utxo) else None, false;
      case Underpaid(_) => return None, true;
      case ExcessiveOverpay(_) => return None, true;
      case Multiple(_) => return None, true;
      case Nothing => return None, false;
    }
  }

  /** One poll: the output, or nothing yet. */
  method PollHtlc(run: Run, claim: Claim, paying: bool) returns (r: Reply<Option<Output>>, ghost more: seq<Event>)
    modifies run
    ensures run.Settling() && run.FundCalls == old(run.FundCalls)
    ensures run.Log == old(run.Log) + more
    ensures KeepsSecret(more)
    ensures r.Ok? ==> old(run.clock) < run.clock <= run.crashAt
    ensures forall i | 0 <= i < |more| && more[i].OutputsRead? && Acceptable(more[i].outputs, claim) ::
              i == |more| - 1 && r == Ok(Some(more[i].outputs[0]))
    ensures r.Ok? && r.value.Some? ==>
              more == [OutputsRead([r.value.value])] && Acceptable([r.value.value], claim)
  {
    more := [];
    var outputs := FindOutputs(run);
    if !outputs.Ok? {
      return outputs.PropagateFailure(), more;
    }
    more := [OutputsRead(outputs.value)];
    var found, hopeless := Weigh(outputs.value, claim);
    if found.Some? {
      return Ok(found), more;
    }
    if hopeless {
      return Err, more;
    }
    var tip := run.TipHeight();
    if !tip.Ok? {
      return tip.PropagateFailure(), more;
    }
    more := more + [TipRead(tip.value)];
    if !ClaimStartIsSafe(tip.value, claim.timeout) {
      return Err, more;
    }
    if paying {
      var now := run.Tick();
      if !now.Ok? {
        return Crashed, more;
      }
      if !run.submitting && run.world.finished(now.value).Answered? {
        return Err, more;
      }
    }
    return Ok(None), more;
  }

  /** Poll until one acceptable output is deep enough; give up on an unacceptable one, when no safe
      time is left, or when the payment ended. */
  method AwaitHtlc(run: Run, claim: Claim, paying: bool) returns (r: Reply<Output>, ghost mine: seq<Event>)
    modifies run
    ensures run.Settling() && run.FundCalls == old(run.FundCalls)
    ensures run.Log == old(run.Log) + mine
    ensures KeepsSecret(mine)
    ensures forall i | 0 <= i < |mine| && mine[i].OutputsRead? && Acceptable(mine[i].outputs, claim) ::
              i == |mine| - 1 && r == Ok(mine[i].outputs[0])
    ensures r.Ok? ==> && run.clock <= run.crashAt
                      && mine != [] && mine[|mine| - 1] == OutputsRead([r.value])
                      && Acceptable([r.value], claim)
  {
    mine := [];
    while true
      invariant run.Settling() && run.FundCalls == old(run.FundCalls)
      invariant run.Log == old(run.Log) + mine
      invariant KeepsSecret(mine)
      invariant forall i | 0 <= i < |mine| && mine[i].OutputsRead? :: !Acceptable(mine[i].outputs, claim)
      decreases run.crashAt - run.clock
    {
      var found, more := PollHtlc(run, claim, paying);
      Joined(old(run.Log), mine, more);
      mine := mine + more;
      if !found.Ok? {
        return found.PropagateFailure(), mine;
      }
      if found.value.Some? {
        return Ok(found.value.value), mine;
      }
    }
  }

  /** The output, and the reveal gate: a tip read after it must still leave the margin. */
  method PassGate(run: Run, claim: Claim, paying: bool) returns (r: Reply<Output>, ghost mine: seq<Event>)
    modifies run
    ensures run.Settling() && run.FundCalls == old(run.FundCalls)
    ensures run.Log == old(run.Log) + mine
    ensures KeepsSecret(mine)
    ensures r.Ok? ==> run.clock <= run.crashAt && Gate(mine, claim, r.value)
  {
    r, mine := AwaitHtlc(run, claim, paying);
    if !r.Ok? {
      return;
    }
    var tip := run.TipHeight();
    if !tip.Ok? {
      return tip.PropagateFailure(), mine;
    }
    mine := mine + [TipRead(tip.value)];
    if !ClaimStartIsSafe(tip.value, claim.timeout) {
      return Err, mine;
    }
  }

  /** Every broadcast in the log came, in its own run, after the gate for the output it spends, over
      the value that output was seen to hold. */
  ghost predicate Gated(log: seq<Event>, claim: Claim) {
    forall i | 0 <= i < |log| && log[i].Sent? :: GatedAt(log, i, claim)
  }

  ghost predicate GatedAt(log: seq<Event>, i: nat, claim: Claim)
    requires i < |log| && log[i].Sent?
  {
    exists g, found |
      && 0 <= g <= i && Gate(log[..g], claim, found)
      && found.outpoint == log[i].outpoint && found.value == log[i].value ::
        forall j | g <= j < i :: !log[j].RunStarted?
  }

  lemma GatedEarlier(log: seq<Event>, more: seq<Event>, i: nat, claim: Claim)
    requires i < |log| && log[i].Sent? && GatedAt(log, i, claim)
    ensures GatedAt(log + more, i, claim)
  {
    var g, found :| 0 <= g <= i && Gate(log[..g], claim, found)
                    && found.outpoint == log[i].outpoint && found.value == log[i].value
                    && forall j | g <= j < i :: !log[j].RunStarted?;
    assert (log + more)[..g] == log[..g];
  }

  lemma StaysGated(log: seq<Event>, more: seq<Event>, claim: Claim)
    requires Gated(log, claim) && forall e | e in more :: !e.Sent?
    ensures Gated(log + more, claim)
  {
    forall i | |log| <= i < |log + more|
      ensures !(log + more)[i].Sent?
    {
      assert more[i - |log|] in more;
    }
    forall i | 0 <= i < |log| && log[i].Sent?
      ensures GatedAt(log + more, i, claim)
    {
      GatedEarlier(log, more, i, claim);
    }
  }

  /** What follows a passed gate in the same run is gated by it. */
  lemma GateOpens(world: World, log: seq<Event>, claiming: seq<Event>, claim: Claim, found: Output,
                  known: seq<Txid>)
    requires Gated(log, claim) && Gate(log, claim, found)
    requires SendsOk(world, claiming, found.outpoint, found.value, known)
    ensures Gated(log + claiming, claim)
  {
    var all := log + claiming;
    forall i | 0 <= i < |all| && all[i].Sent?
      ensures GatedAt(all, i, claim)
    {
      if i < |log| {
        GatedEarlier(log, claiming, i, claim);
      } else {
        var g := |log|;
        assert all[..g] == log;
        assert SendOk(world, claiming, i - g, found.outpoint, found.value, known);
        forall j | g <= j < i
          ensures !all[j].RunStarted?
        {
          assert all[j] == claiming[j - g] && claiming[j - g] in claiming;
        }
      }
    }
  }

  // ----- a whole run -----

  lemma GateOnTheLog(log: seq<Event>, waiting: seq<Event>, claim: Claim, found: Output)
    requires Gate(waiting, claim, found)
    ensures Gate(log + waiting, claim, found)
  {
    var all := log + waiting;
    assert all[|all| - 1] == waiting[|waiting| - 1] && all[|all| - 2] == waiting[|waiting| - 2];
  }

  /** With the gate passed, claim the output that was found, over the value it holds. */
  method ClaimOutput(run: Run, claim: Claim, found: Output, known: seq<Txid>)
    returns (r: Reply<Txid>, ghost claiming: seq<Event>)
    requires Gate(run.Log, claim, found)
    modifies run, run.store
    ensures run.Settling() && SameButSpends(old(run.store.disk), run.store.disk)
    ensures run.clock >= old(run.clock)
    ensures run.Log == old(run.Log) + claiming
    ensures SendsOk(run.world, claiming, found.outpoint, found.value, known)
    ensures StopsAtDeadline(claiming, ClaimWatch(claim).deadline)
    ensures r.Ok? ==> OutcomeOk(run.world, claiming, Confirmed(r.value), found.outpoint, found.value,
                                ClaimWatch(claim), known, run.clock)
    ensures r.Ok? && SpendsAreSpends(run.world) ==> SpendsOutput(run.world.tx(r.value), found.outpoint)
    ensures Gated(old(run.Log), claim) ==> Gated(run.Log, claim)
  {
    var outcome;
    outcome, claiming := ConfirmOrBump(run, found.outpoint, found.value, ClaimWatch(claim), known);
    if Gated(old(run.Log), claim) {
      GateOpens(run.world, old(run.Log), claiming, claim, found, known);
    }
    if !outcome.Ok? {
      return outcome.PropagateFailure(), claiming;
    }
    if !outcome.value.Confirmed? {
      return Err, claiming;
    }
    if SpendsAreSpends(run.world) {
      SourceSpends(run.world, found.outpoint, found.value, outcome.value.txid, run.clock);
    }
    return Ok(outcome.value.txid), claiming;
  }

  /** The payment this run started has to end before the run does. */
  method AwaitPayment(run: Run, started: bool) returns (r: Reply<()>)
    modifies run
    ensures run.Settling() && run.Log == old(run.Log)
    ensures run.clock >= old(run.clock)
  {
    if started {
      var now :- run.Tick();
      if run.world.finished(now) != Answered(true) {
        return Err;
      }
    }
    return Ok(());
  }

  /** Everything before the preimage can be seen: the payment, the output, the gate. */
  method Prepare(run: Run, claim: Claim, resume: Resume)
    returns (r: Reply<Output>, started: bool, ghost waiting: seq<Event>)
    requires PaysOnce(run) && !run.submitting
    requires resume.IsFresh() ==> !run.Submitted()
    modifies run, run.store
    ensures PaysOnce(run)
    ensures run.Log == old(run.Log) + waiting
    ensures KeepsSecret(waiting)
    ensures r.Ok? ==> Gate(waiting, claim, r.value)
    ensures Gated(old(run.Log), claim) ==> Gated(run.Log, claim)
    ensures run.store.disk == old(run.store.disk)
            || exists now: u64 :: run.store.disk == PaymentStarted(old(run.store.disk), now)
  {
    waiting, started := [], false;
    var paying := StartPayment(run, resume);
    if !paying.Ok? {
      return paying.PropagateFailure(), started, waiting;
    }
    started := paying.value;
    r, waiting := PassGate(run, claim, started);
    if Gated(old(run.Log), claim) {
      StaysGated(old(run.Log), waiting, claim);
    }
  }

  /** One run of the driver. `waiting` is what it put on the log before it could reveal anything, and
      `claiming` what came after the gate. */
  method Execute(run: Run, claim: Claim, resume: Resume)
    returns (r: Reply<Txid>, ghost found: Output, ghost waiting: seq<Event>, ghost claiming: seq<Event>)
    requires PaysOnce(run) && !run.submitting
    requires resume.IsFresh() ==> !run.Submitted()
    modifies run, run.store
    ensures PaysOnce(run)
    ensures run.Log == old(run.Log) + (waiting + claiming)
    ensures KeepsSecret(waiting)
    ensures claiming != [] ==> Gate(waiting, claim, found)
    ensures SendsOk(run.world, claiming, found.outpoint, found.value, resume.ourSpends)
    ensures StopsAtDeadline(claiming, ClaimWatch(claim).deadline)
    ensures r.Ok? ==> OutcomeOk(run.world, claiming, Confirmed(r.value), found.outpoint, found.value,
                                ClaimWatch(claim), resume.ourSpends, run.clock)
    ensures r.Ok? && SpendsAreSpends(run.world) ==> SpendsOutput(run.world.tx(r.value), found.outpoint)
    ensures Gated(old(run.Log), claim) ==> Gated(run.Log, claim)
    ensures old(run.store.disk).paymentStarted.Some? ==>
              run.store.disk.paymentStarted == old(run.store.disk).paymentStarted
    ensures run.store.disk.request == old(run.store.disk).request
  {
    claiming, found := [], Output(OutPoint(0, 0), 0, 0);
    var funding, started;
    funding, started, waiting := Prepare(run, claim, resume);
    assert waiting + [] == waiting;
    if !funding.Ok? {
      return funding.PropagateFailure(), found, waiting, claiming;
    }
    found := funding.value;
    GateOnTheLog(old(run.Log), waiting, claim, found);
    r, claiming := ClaimOutput(run, claim, funding.value, resume.ourSpends);
    Joined(old(run.Log), waiting, claiming);
    if !r.Ok? {
      return;
    }
    ghost var confirmed := run.clock;
    var paid := AwaitPayment(run, started);
    if !paid.Ok? {
      return paid.PropagateFailure(), found, waiting, claiming;
    }
    OutcomeStands(run.world, claiming, Confirmed(r.value), found.outpoint, found.value, ClaimWatch(claim),
                  resume.ourSpends, confirmed, run.clock);
  }

  // ----- the whole life of one swap -----

  /** Any number of runs, each process stopping wherever it likes: at every such moment at most one
      payment for the hash holds or took the money. A record of the old kind may start with one
      payment already made under it. And every transaction that shows the preimage went out, in its own
      run, only after the gate for the output it claims. */
  method Lifetime(run: Run, claim: Claim, crashes: seq<nat>) returns (claimed: Option<Txid>)
    requires !run.submitting && run.Exposure() <= 1
    requires run.store.disk.request.Some? ==> !run.Submitted()
    requires run.Log == []
    modifies run, run.store
    ensures Live(run.attempts) <= 1
    ensures Gated(run.Log, claim)
    ensures old(run.store.disk).paymentStarted.Some? ==>
              run.store.disk.paymentStarted == old(run.store.disk).paymentStarted
  {
    claimed := None;
    for i := 0 to |crashes|
      invariant PaysOnce(run)
      invariant Gated(run.Log, claim)
      invariant i == 0 ==> !run.submitting && run.store.disk == old(run.store.disk)
                           && (run.store.disk.request.Some? ==> !run.Submitted())
      invariant old(run.store.disk).paymentStarted.Some? ==>
                  run.store.disk.paymentStarted == old(run.store.disk).paymentStarted
    {
      StaysGated(run.Log, [RunStarted], claim);
      run.Restart(crashes[i]);
      if run.store.disk.state.Terminal() {
        return;
      }
      if i > 0 && !ExecutionReady(run.store.disk) {
        continue;
      }
      var resume := if i == 0 && run.store.disk.request.Some? then FRESH else ReverseResume(run.store.disk);
      var txid, found, waiting, claiming := Execute(run, claim, resume);
      if txid.Ok? {
        claimed := Some(txid.value);
        var now := run.Tick();
        if now.Ok? {
          var _ := run.store.RecordTerminal(State.Claimed, run.world.now(now.value), run.world.io(now.value));
        }
      }
    }
  }
}
