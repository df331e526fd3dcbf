/** One swap driver's surroundings: a chain, a wallet, a Lightning node and a record store that
    answer, fail or change at will, and a process that may stop between any two calls. */
module SwapRun {
  import opened Chain
  import opened Durability
  import opened SwapRecord

  /** What the outside does at each instant. `tx` gives the transaction an id names, and `build` the
      id of our signed spend of an output, for the value signed over and the fee rate. `pays` says when
      a payment of our own invoice settles, `scan` what each lookup of a scan over outputs answers. */
  datatype World = World(
    tip: nat -> Answer<u32>,
    exactFunding: nat -> Answer<Option<OutPoint>>,
    outputs: nat -> Answer<seq<Output>>,
    history: nat -> Answer<seq<Output>>,
    spend: nat -> OutPoint -> Answer<Option<Txid>>,
    scan: nat -> (nat, OutPoint) -> Answer<Option<Txid>>,
    depth: nat -> Txid -> Answer<Option<u32>>,
    accepts: nat -> Txid -> bool,
    fund: nat -> Answer<OutPoint>,
    settled: nat -> Answer<bool>,
    pays: nat -> bool,
    io: nat -> Io,
    now: nat -> u64,
    rate: nat -> u64,
    child: nat -> bool,
    stalled: nat -> bool,
    tx: Txid -> Tx,
    build: (OutPoint, u64, u64) -> Answer<Txid>,
    payment: nat -> NodeAnswer,
    submits: nat -> bool,
    paid: nat -> nat -> Attempt,
    finished: nat -> Answer<bool>)

  /** How the node answers a payment status query: with the truth, with "unknown", or not at all. */
  datatype NodeAnswer = Truth | SaysUnknown | Silent

  datatype Attempt = InFlight | Succeeded | Failed

  /** A step's result; a crash ends the run wherever an error would have been handled. */
  datatype Reply<+T> = Ok(value: T) | Err | Crashed {
    predicate IsFailure() {
      !Ok?
    }
    function PropagateFailure<U>(): Reply<U>
      requires IsFailure()
    {
      if Err? then Reply.Err else Reply.Crashed
    }
    function Extract(): T
      requires !IsFailure()
    {
      value
    }
  }

  /** What a run did and what it was told, in order. */
  datatype Event =
    | RunStarted
    | TipRead(tip: u32)
    | FundingRead(found: Option<OutPoint>)
    | OutputsRead(outputs: seq<Output>)
    | HistoryRead(history: seq<Output>, chosen: Option<OutPoint>)
    | SpendRead(outpoint: OutPoint, spend: Option<Txid>)
    | DepthRead(txid: Txid, depth: Option<u32>)
    | InvoiceRead(settled: bool)
    | FundCalled(recorded: Option<u32>, result: Answer<OutPoint>)
    | Noted(txid: Txid)
    | Sent(txid: Txid, outpoint: OutPoint, value: u64, rate: u64, accepted: bool)

  function Evolve(attempts: seq<Attempt>, outcome: nat -> Attempt): (after: seq<Attempt>)
    ensures |after| == |attempts|
  {
    seq(|attempts|, i requires 0 <= i < |attempts| =>
      if attempts[i].InFlight? then outcome(i) else attempts[i])
  }

  /** Payments that hold or took the money. */
  function Live(attempts: seq<Attempt>): nat {
    if attempts == [] then 0 else (if attempts[0].Failed? then 0 else 1) + Live(attempts[1..])
  }

  lemma {:induction false} EvolvingAddsNoPayment(attempts: seq<Attempt>, outcome: nat -> Attempt)
    ensures Live(Evolve(attempts, outcome)) <= Live(attempts)
  {
    if attempts != [] {
      var shifted := (i: nat) => outcome(i + 1);
      assert Evolve(attempts, outcome)[1..] == Evolve(attempts[1..], shifted);
      EvolvingAddsNoPayment(attempts[1..], shifted);
    }
  }

  lemma {:induction false} LiveAppend(attempts: seq<Attempt>, a: Attempt)
    ensures Live(attempts + [a]) == Live(attempts) + if a.Failed? then 0 else 1
  {
    if attempts != [] {
      assert (attempts + [a])[1..] == attempts[1..] + [a];
      LiveAppend(attempts[1..], a);
    }
  }

  lemma {:induction false} LiveFew(attempts: seq<Attempt>)
    ensures Live(attempts) == 0 <==> forall a | a in attempts :: a.Failed?
  {
    if attempts != [] {
      LiveFew(attempts[1..]);
      assert attempts == [attempts[0]] + attempts[1..];
    }
  }

  class Run {
    const world: World
    const store: Store
    var clock: nat
    /** The instant at which this process stops. */
    var crashAt: nat
    var attempts: seq<Attempt>
    /** A payment was handed to a task that has not reached the node. */
    var submitting: bool
    ghost var Log: seq<Event>
    ghost var FundCalls: nat

    constructor (world: World, store: Store)
      ensures this.world == world && this.store == store
      ensures Log == [] && FundCalls == 0 && attempts == [] && !submitting
    {
      this.world := world;
      this.store := store;
      clock := 0;
      crashAt := 0;
      attempts := [];
      submitting := false;
      Log := [];
      FundCalls := 0;
    }

    ghost function Exposure(): nat
      reads this
    {
      Live(attempts) + if submitting then 1 else 0
    }

    ghost predicate Submitted()
      reads this
    {
      attempts != [] || submitting
    }

    /** Payments only settle or fail on their own; none appears. */
    twostate predicate Settling()
      reads this
    {
      && Exposure() <= old(Exposure())
      && (Submitted() ==> old(Submitted()))
      && (submitting ==> old(submitting))
      && crashAt == old(crashAt)
    }

    /** The process goes away, and with it a payment task that had not submitted. */
    method Restart(crashAt: nat)
      modifies this`crashAt, this`submitting, this`Log
      ensures this.crashAt == crashAt && !submitting
      ensures Log == old(Log) + [RunStarted]
    {
      this.crashAt := crashAt;
      submitting := false;
      Log := Log + [RunStarted];
    }

    /** One instant passes, unless the process stops first. */
    method Tick() returns (r: Reply<nat>)
      modifies this`clock, this`attempts, this`submitting
      ensures !r.Err?
      ensures r.Ok? ==> r.value == old(clock) && clock == old(clock) + 1 <= crashAt
      ensures r.Crashed? ==> clock == old(clock)
      ensures Settling()
      ensures r.Ok? && !old(submitting) ==>
                !submitting && attempts == Evolve(old(attempts), world.paid(old(clock)))
    {
      if clock >= crashAt {
        return Crashed;
      }
      EvolvingAddsNoPayment(attempts, world.paid(clock));
      attempts := Evolve(attempts, world.paid(clock));
      if submitting && world.submits(clock) {
        LiveAppend(attempts, InFlight);
        attempts := attempts + [InFlight];
        submitting := false;
      }
      clock := clock + 1;
      return Ok(clock - 1);
    }

    /** Put one answer of the outside on the log. */
    method Hear<T>(answer: nat -> Answer<T>, event: T -> Event) returns (r: Reply<T>)
      modifies this`clock, this`attempts, this`submitting, this`Log
      ensures Settling()
      ensures r.Crashed? ==> clock == old(clock)
      ensures !r.Crashed? ==> old(clock) < clock <= crashAt
      ensures r.Ok? ==> answer(old(clock)) == Answered(r.value)
      ensures Log == old(Log) + if r.Ok? then [event(r.value)] else []
    {
      var now :- Tick();
      match answer(now) {
        case Unavailable =>
          r := Err;
        case Answered(value) =>
          Log := Log + [event(value)];
          r := Ok(value);
      }
    }

    method TipHeight() returns (r: Reply<u32>)
      modifies this`clock, this`attempts, this`submitting, this`Log
      ensures Settling()
      ensures r.Crashed? ==> clock == old(clock)
      ensures !r.Crashed? ==> old(clock) < clock <= crashAt
      ensures Log == old(Log) + if r.Ok? then [TipRead(r.value)] else []
    {
      r := Hear(world.tip, tip => TipRead(tip));
    }

    method FindSpend(outpoint: OutPoint) returns (r: Reply<Option<Txid>>)
      modifies this`clock, this`attempts, this`submitting, this`Log
      ensures Settling()
      ensures r.Crashed? ==> clock == old(clock)
      ensures !r.Crashed? ==> old(clock) < clock <= crashAt
      ensures r.Ok? ==> world.spend(old(clock))(outpoint) == Answered(r.value)
      ensures Log == old(Log) + if r.Ok? then [SpendRead(outpoint, r.value)] else []
    {
      var spend := world.spend;
      r := Hear(t => spend(t)(outpoint), found => SpendRead(outpoint, found));
    }

    method Confirmations(txid: Txid) returns (r: Reply<Option<u32>>)
      modifies this`clock, this`attempts, this`submitting, this`Log
      ensures Settling()
      ensures r.Crashed? ==> clock == old(clock)
      ensures !r.Crashed? ==> old(clock) < clock <= crashAt
      ensures r.Ok? ==> world.depth(old(clock))(txid) == Answered(r.value)
      ensures Log == old(Log) + if r.Ok? then [DepthRead(txid, r.value)] else []
    {
      var depth := world.depth;
      r := Hear(t => depth(t)(txid), found => DepthRead(txid, found));
    }

    /** Write down a spend of ours that is about to be broadcast. A failed write is only logged. */
    method SpendBroadcast(txid: Txid) returns (r: Reply<()>)
      modifies this`clock, this`attempts, this`submitting, this`Log, store
      ensures Settling()
      ensures !r.Err?
      ensures clock >= old(clock) && (r.Ok? ==> clock <= crashAt)
      ensures store.disk == old(store.disk) || store.disk == NoteOurSpend(old(store.disk), txid)
      ensures r.Ok? ==> Log == old(Log) + [Noted(txid)]
      ensures r.Crashed? ==> Log == old(Log) && store.disk == old(store.disk)
    {
      var now :- Tick();
      var _ := store.RecordOurSpend(txid, world.io(now));
      Log := Log + [Noted(txid)];
      return Ok(());
    }

    /** `rate` is the fee rate the spend was built for. */
    method Broadcast(txid: Txid, outpoint: OutPoint, value: u64, ghost rate: u64) returns (r: Reply<Txid>)
      modifies this`clock, this`attempts, this`submitting, this`Log
      ensures Settling()
      ensures clock >= old(clock) && (!r.Crashed? ==> clock <= crashAt)
      ensures r.Ok? ==> r.value == txid
      ensures !r.Crashed? ==> Log == old(Log) + [Sent(txid, outpoint, value, rate, r.Ok?)]
      ensures r.Crashed? ==> Log == old(Log) + [Sent(txid, outpoint, value, rate, false)]
    {
      Log := Log + [Sent(txid, outpoint, value, rate, false)];
      var now :- Tick();
      var accepted := world.accepts(now)(txid);
      Log := Log[..|Log| - 1] + [Sent(txid, outpoint, value, rate, accepted)];
      return if accepted then Ok(txid) else Err;
    }
  }
}
