/** The one persisted record of a client swap: how each step changes it, what a resumed run reads
    back from it, and the laws that make "write before you act" work. */
module SwapRecord {
  import opened Chain
  import opened Durability
  import opened Messages

  const MAX_TRACKED_OUR_SPENDS := 16
  const CLEANUP_DELAY := 24 * 60 * 60
  const CLAIM_ABORT_MARGIN := 6

  datatype Role = Client | Provider

  datatype State =
    | Created | LockupPending | LockupConfirmed | InvoicePending | InvoicePaid | ClaimPending
    | Claimed | Refunded | Expired | Failed
  {
    predicate Terminal() {
      Claimed? || Refunded? || Expired? || Failed?
    }
  }

  datatype Record = Record(
    role: Role,
    direction: Direction,
    state: State,
    request: Option<Request>,
    quote: Option<Quote>,
    accept: Option<Accept>,
    creationStarted: bool,
    creationTip: Option<u32>,
    executionReady: bool,
    invoice: string,
    script: string,
    destination: Option<string>,
    timeout: u32,
    onchainAmount: u64,
    fundingIntent: Option<u32>,
    fundingAttempts: u32,
    funding: Option<OutPoint>,
    paymentStarted: Option<u64>,
    ourSpendTxids: seq<Txid>,
    lastSpend: Option<Txid>,
    reorgSeen: Option<u32>,
    updatedAt: u64)

  // ----- what a resumed run reads back -----

  datatype Resume = Resume(
    paymentStarted: Option<u64>,
    funding: Option<OutPoint>,
    fundingIntent: Option<u32>,
    ourSpends: seq<Txid>,
    reorgSeen: Option<u32>)
  {
    predicate IsFresh() {
      this == FRESH
    }
  }

  const FRESH := Resume.Resume(None, None, None, [], None)

  function OurSpends(r: Record): seq<Txid> {
    r.ourSpendTxids + if r.lastSpend.Some? then [r.lastSpend.value] else []
  }

  function ResumeOf(r: Record): Resume {
    Resume.Resume(r.paymentStarted, r.funding, r.fundingIntent, OurSpends(r), r.reorgSeen)
  }

  /** Records without a saved request predate the payment marker: its absence proves nothing. */
  function ReverseResume(r: Record): Resume {
    var resume := ResumeOf(r);
    if r.request.None? && resume.paymentStarted.None? then resume.(paymentStarted := Some(0)) else resume
  }

  predicate ClaimStartIsSafe(tip: u32, timeout: u32) {
    timeout > tip && timeout - tip > CLAIM_ABORT_MARGIN
  }

  predicate ExecutionReady(r: Record) {
    r.request.None? || r.executionReady
  }

  predicate FundsAtRisk(r: Record) {
    var weFundOnchain := (r.role.Provider? && r.direction.Reverse?) || (r.role.Client? && r.direction.Submarine?);
    || (if weFundOnchain then r.fundingIntent.Some? || r.funding.Some? else r.paymentStarted.Some?)
    || r.ourSpendTxids != [] || r.lastSpend.Some?
  }

  function CleanupDeadline(r: Record): Option<u64> {
    var eligible := r.state.Claimed? || r.state.Refunded? || (r.state.Expired? && !FundsAtRisk(r));
    if r.role.Client? && eligible && r.updatedAt != 0
    then Some(SaturatingAdd64(r.updatedAt, CLEANUP_DELAY)) else None
  }

  // ----- the steps -----

  function CreationStarted(r: Record, tip: Option<u32>): Record {
    if r.creationStarted then r else r.(creationTip := tip, creationStarted := true)
  }

  datatype Recording = Recorded(record: Record) | AlreadyRecorded | Mismatch | Changed | LacksInvoice

  function CreationReply(r: Record, accept: Accept): Recording {
    if r.request.None? || r.request.value.quoteId != accept.quoteId || r.direction != accept.direction
    then Mismatch
    else if r.accept.Some? && r.accept.value != accept then Changed
    else if r.accept == Some(accept) then AlreadyRecorded
    else if r.direction.Reverse? && accept.invoice.None? then LacksInvoice
    else
      Recorded(r.(accept := Some(accept),
                  invoice := if r.direction.Reverse? then accept.invoice.value else r.invoice))
  }

  function Accepted(r: Record, accept: Accept, script: string, destination: string): Record {
    r.(script := script, timeout := accept.timeout, onchainAmount := accept.onchainAmount,
       destination := Some(destination), executionReady := true)
  }

  function PaymentStarted(r: Record, now: u64): Record {
    if r.paymentStarted.Some? then r else r.(paymentStarted := Some(now), state := InvoicePending)
  }

  function FundingIntent(r: Record, tip: u32): Record {
    r.(fundingIntent := Some(tip), fundingAttempts := SaturatingAdd32(r.fundingAttempts, 1),
       state := LockupPending)
  }

  function Funded(r: Record, outpoint: OutPoint): Record {
    r.(funding := Some(outpoint), fundingIntent := None, state := LockupConfirmed)
  }

  /** At most sixteen without repeats, the longest known giving way; the last one sent is kept apart. */
  function NoteOurSpend(r: Record, txid: Txid): Record {
    r.(ourSpendTxids := Noted(r.ourSpendTxids, txid), lastSpend := Some(txid))
  }

  function Noted(kept: seq<Txid>, txid: Txid): seq<Txid> {
    if txid in kept then kept
    else if |kept| >= MAX_TRACKED_OUR_SPENDS then kept[1..] + [txid]
    else kept + [txid]
  }

  function Terminal(r: Record, state: State, now: u64): Record {
    r.(state := state, updatedAt := now)
  }

  // ----- the file -----

  /** One load and one replacement of the record: the load can fail, and a replacement that reports
      failure leaves the old or the new record behind. */
  datatype Io = LoadFails | Writes(write: Write)

  function Stored(disk: Record, next: Record, write: Write): Record {
    if write.FailedOld? then disk else next
  }

  class Store {
    var disk: Record

    constructor (record: Record)
      ensures disk == record
    {
      disk := record;
    }

    method Put(next: Record, write: Write) returns (ok: bool)
      modifies this
      ensures disk == Stored(old(disk), next, write)
      ensures ok <==> write.Saved?
    {
      if !write.FailedOld? {
        disk := next;
      }
      ok := write.Saved?;
    }

    method RecordCreationStarted(tip: Option<u32>, io: Io) returns (ok: bool)
      modifies this
      ensures disk == if io.LoadFails? || old(disk).creationStarted then old(disk)
                      else Stored(old(disk), CreationStarted(old(disk), tip), io.write)
      ensures ok ==> disk == CreationStarted(old(disk), tip)
      ensures ok <==> io.Writes? && (old(disk).creationStarted || io.write.Saved?)
    {
      if io.LoadFails? {
        return false;
      }
      var rec := disk;
      if rec.creationStarted {
        return true;
      }
      rec := rec.(creationTip := tip, creationStarted := true);
      ok := Put(rec, io.write);
    }

    /** The stored acceptance is written once: an equal one is a no-op, another is refused. */
    method RecordCreationReply(accept: Accept, io: Io) returns (ok: bool)
      modifies this
      ensures disk == if io.Writes? && CreationReply(old(disk), accept).Recorded?
                      then Stored(old(disk), CreationReply(old(disk), accept).record, io.write)
                      else old(disk)
      ensures ok <==> io.Writes?
                      && (|| CreationReply(old(disk), accept).AlreadyRecorded?
                          || (CreationReply(old(disk), accept).Recorded? && io.write.Saved?))
      ensures ok ==> disk.accept == Some(accept)
    {
      if io.LoadFails? {
        return false;
      }
      var rec := disk;
      if rec.request.None? || rec.request.value.quoteId != accept.quoteId
         || rec.direction != accept.direction
      {
        return false;
      }
      if rec.accept.Some? && rec.accept.value != accept {
        return false;
      }
      if rec.accept == Some(accept) {
        return true;
      }
      if rec.direction == Reverse {
        if accept.invoice.None? {
          return false;
        }
        rec := rec.(invoice := accept.invoice.value);
      }
      rec := rec.(accept := Some(accept));
      ok := Put(rec, io.write);
    }

    /** The reply first, in a write of its own; then the contract to execute. */
    method RecordAccept(accept: Accept, script: string, destination: string, reply: Io, io: Io)
      returns (ok: bool)
      modifies this
      ensures ok ==> && disk.accept == Some(accept) && disk.executionReady
                     && disk.timeout == accept.timeout && disk.onchainAmount == accept.onchainAmount
                     && disk.script == script && disk.destination == Some(destination)
      ensures disk.executionReady && !old(disk).executionReady ==> disk.accept == Some(accept)
      ensures old(disk).accept.Some? ==> disk.accept == old(disk).accept
      ensures SameMarkers(old(disk), disk)
    {
      ok := RecordCreationReply(accept, reply);
      if !ok || io.LoadFails? {
        return false;
      }
      var rec := disk;
      rec := rec.(script := script, timeout := accept.timeout, onchainAmount := accept.onchainAmount,
                  destination := Some(destination), executionReady := true);
      ok := Put(rec, io.write);
    }

    method RecordPaymentStarted(now: u64, io: Io) returns (ok: bool)
      modifies this
      ensures disk == if io.LoadFails? || old(disk).paymentStarted.Some? then old(disk)
                      else Stored(old(disk), PaymentStarted(old(disk), now), io.write)
      ensures ok ==> disk.paymentStarted.Some?
      ensures ok <==> io.Writes? && (old(disk).paymentStarted.Some? || io.write.Saved?)
    {
      if io.LoadFails? {
        return false;
      }
      var rec := disk;
      if rec.paymentStarted.Some? {
        return true;
      }
      rec := rec.(paymentStarted := Some(now), state := InvoicePending);
      ok := Put(rec, io.write);
    }

    method RecordFundingIntent(tip: u32, io: Io) returns (ok: bool)
      modifies this
      ensures disk == if io.LoadFails? then old(disk)
                      else Stored(old(disk), FundingIntent(old(disk), tip), io.write)
      ensures ok <==> io.Writes? && io.write.Saved?
    {
      if io.LoadFails? {
        return false;
      }
      var rec := disk;
      rec := rec.(fundingIntent := Some(tip), state := LockupPending,
                  fundingAttempts := SaturatingAdd32(rec.fundingAttempts, 1));
      ok := Put(rec, io.write);
    }

    /** The outpoint is set and the intent cleared in the same write. */
    method RecordFunded(outpoint: OutPoint, io: Io) returns (ok: bool)
      modifies this
      ensures disk == if io.LoadFails? then old(disk)
                      else Stored(old(disk), Funded(old(disk), outpoint), io.write)
      ensures ok <==> io.Writes? && io.write.Saved?
    {
      if io.LoadFails? {
        return false;
      }
      var rec := disk;
      rec := rec.(funding := Some(outpoint), fundingIntent := None, state := LockupConfirmed);
      ok := Put(rec, io.write);
    }

    method RecordOurSpend(txid: Txid, io: Io) returns (ok: bool)
      modifies this
      ensures disk == if io.LoadFails? then old(disk)
                      else Stored(old(disk), NoteOurSpend(old(disk), txid), io.write)
      ensures ok <==> io.Writes? && io.write.Saved?
    {
      if io.LoadFails? {
        return false;
      }
      var kept := disk.ourSpendTxids;
      if txid !in kept {
        kept := kept + [txid];
        if |kept| > MAX_TRACKED_OUR_SPENDS {
          kept := kept[1..];
        }
      }
      ok := Put(disk.(ourSpendTxids := kept, lastSpend := Some(txid)), io.write);
    }

    method RecordTerminal(state: State, now: u64, io: Io) returns (ok: bool)
      modifies this
      ensures disk == if io.LoadFails? then old(disk)
                      else Stored(old(disk), Terminal(old(disk), state, now), io.write)
      ensures ok <==> io.Writes? && io.write.Saved?
    {
      if io.LoadFails? {
        return false;
      }
      ok := Put(disk.(state := state, updatedAt := now), io.write);
    }
  }

  // ----- laws of every step -----

  datatype Step =
    | Start(tip: Option<u32>)
    | Answer(accept: Accept)
    | Ready(contract: Accept, script: string, destination: string)
    | Pay(now: u64)
    | Intend(height: u32)
    | Fund(outpoint: OutPoint)
    | Note(txid: Txid)
    | Finish(state: State, at: u64)

  function Apply(r: Record, step: Step): Record {
    match step
    case Start(tip) => CreationStarted(r, tip)
    case Answer(accept) =>
      var reply := CreationReply(r, accept);
      if reply.Recorded? then reply.record else r
    case Ready(accept, script, destination) =>
      if CreationReply(r, accept).AlreadyRecorded? then Accepted(r, accept, script, destination) else r
    case Pay(now) => PaymentStarted(r, now)
    case Intend(height) => FundingIntent(r, height)
    case Fund(outpoint) => Funded(r, outpoint)
    case Note(txid) => NoteOurSpend(r, txid)
    case Finish(state, at) => Terminal(r, state, at)
  }

  /** Any run of steps, each of whose writes may have failed and left either record. */
  function Replay(r: Record, steps: seq<(Step, Write)>): Record
    decreases |steps|
  {
    if steps == [] then r
    else Replay(Stored(r, Apply(r, steps[0].0), steps[0].1), steps[1..])
  }

  predicate SameMarkers(a: Record, b: Record) {
    && a.fundingIntent == b.fundingIntent && a.funding == b.funding
    && a.paymentStarted == b.paymentStarted
    && a.ourSpendTxids == b.ourSpendTxids && a.lastSpend == b.lastSpend
    && a.request == b.request && a.role == b.role && a.direction == b.direction
    && a.reorgSeen == b.reorgSeen
  }

  predicate SameButSpends(a: Record, b: Record) {
    b == a.(ourSpendTxids := b.ourSpendTxids, lastSpend := b.lastSpend)
  }

  /** A funding transaction may exist: it was intended, or its output is known. */
  predicate MayBeFunded(r: Record) {
    r.fundingIntent.Some? || r.funding.Some?
  }

  ghost predicate TracksSpends(r: Record) {
    && |r.ourSpendTxids| <= MAX_TRACKED_OUR_SPENDS
    && (forall i, j | 0 <= i < j < |r.ourSpendTxids| :: r.ourSpendTxids[i] != r.ourSpendTxids[j])
  }

  /** What no sequence of steps and failed writes ever takes back: that a funding may exist, that a
      payment may have been submitted (with its first timestamp), the acceptance, and the request. */
  ghost predicate Remembers(before: Record, after: Record) {
    RemembersMarkers(before, after) && RemembersSpends(before, after)
  }

  predicate RemembersMarkers(before: Record, after: Record) {
    && (MayBeFunded(before) ==> MayBeFunded(after))
    && (before.paymentStarted.Some? ==> after.paymentStarted == before.paymentStarted)
    && (before.accept.Some? ==> after.accept == before.accept)
    && (before.creationStarted ==> after.creationStarted && after.creationTip == before.creationTip)
    && (before.executionReady ==> after.executionReady)
    && after.request == before.request && after.role == before.role
    && after.direction == before.direction && after.quote == before.quote
  }

  /** At most sixteen, without repeats, and never none again. */
  ghost predicate RemembersSpends(before: Record, after: Record) {
    && (TracksSpends(before) ==> TracksSpends(after))
    && (OurSpends(before) != [] ==> OurSpends(after) != [])
  }

  lemma NoteRemembersSpends(r: Record, txid: Txid)
    ensures RemembersSpends(r, NoteOurSpend(r, txid))
  {
    assert OurSpends(NoteOurSpend(r, txid))[|NoteOurSpend(r, txid).ourSpendTxids|] == txid;
  }

  lemma StepRemembersSpends(r: Record, step: Step)
    ensures RemembersSpends(r, Apply(r, step))
  {
    if step.Note? {
      NoteRemembersSpends(r, step.txid);
    } else {
      var after := Apply(r, step);
      assert after.ourSpendTxids == r.ourSpendTxids && after.lastSpend == r.lastSpend;
    }
  }

  lemma StepRemembersMarkers(r: Record, step: Step)
    ensures RemembersMarkers(r, Apply(r, step))
  {
    match step {
      case Start(tip) =>
      case Answer(accept) => AnswerRemembersMarkers(r, accept);
      case Ready(accept, script, destination) =>
      case Pay(now) =>
      case Intend(height) =>
      case Fund(outpoint) =>
      case Note(txid) =>
      case Finish(state, at) =>
    }
  }

  lemma AnswerRemembersMarkers(r: Record, accept: Accept)
    ensures RemembersMarkers(r, Apply(r, Answer(accept)))
  {
  }

  lemma StepRemembers(r: Record, step: Step, write: Write)
    ensures Remembers(r, Stored(r, Apply(r, step), write))
  {
    StepRemembersMarkers(r, step);
    StepRemembersSpends(r, step);
  }

  lemma {:induction false} NothingIsForgotten(r: Record, steps: seq<(Step, Write)>)
    ensures Remembers(r, Replay(r, steps))
    decreases |steps|
  {
    if steps != [] {
      StepRemembers(r, steps[0].0, steps[0].1);
      NothingIsForgotten(Stored(r, Apply(r, steps[0].0), steps[0].1), steps[1..]);
    }
  }

  /** A stored acceptance answers the stored request, and the terms executed are its terms. */
  ghost predicate Answered(r: Record) {
    && (r.accept.Some? ==>
          r.request.Some? && r.request.value.quoteId == r.accept.value.quoteId
          && r.direction == r.accept.value.direction)
    && (r.executionReady ==>
          r.accept.Some? && r.timeout == r.accept.value.timeout
          && r.onchainAmount == r.accept.value.onchainAmount)
  }

  /** In every run, whatever writes fail. */
  lemma {:induction false} AnsweredStaysAnswered(r: Record, steps: seq<(Step, Write)>)
    requires Answered(r)
    ensures Answered(Replay(r, steps))
    decreases |steps|
  {
    if steps != [] {
      AnsweredStaysAnswered(Stored(r, Apply(r, steps[0].0), steps[0].1), steps[1..]);
    }
  }

  /** A run is a first run only if nothing was ever funded, paid or broadcast under this record; a
      reverse run, only if moreover the record is new enough for that to be known. */
  lemma FreshMeansNothingDone(r: Record, steps: seq<(Step, Write)>)
    requires ResumeOf(Replay(r, steps)).IsFresh()
    ensures !MayBeFunded(r) && r.paymentStarted.None? && OurSpends(r) == []
    ensures ReverseResume(Replay(r, steps)).IsFresh() <==> r.request.Some?
  {
    NothingIsForgotten(r, steps);
  }

  // ----- the sixteen remembered spends -----

  function NoteAll(r: Record, txids: seq<Txid>): Record
    decreases |txids|
  {
    if txids == [] then r else NoteAll(NoteOurSpend(r, txids[0]), txids[1..])
  }

  /** Of these notes, those that were not on the list when they were made. */
  function NewlyNoted(kept: seq<Txid>, later: seq<Txid>): seq<Txid>
    decreases |later|
  {
    if later == [] then []
    else Unlisted(kept, later[0]) + NewlyNoted(Noted(kept, later[0]), later[1..])
  }

  function Unlisted(kept: seq<Txid>, txid: Txid): seq<Txid> {
    if txid in kept then [] else [txid]
  }

  function Latest(txids: seq<Txid>): seq<Txid> {
    if |txids| <= MAX_TRACKED_OUR_SPENDS then txids else txids[|txids| - MAX_TRACKED_OUR_SPENDS..]
  }

  lemma LatestOfLatest(a: seq<Txid>, b: seq<Txid>, c: seq<Txid>)
    ensures Latest(Latest(a + b) + c) == Latest(a + (b + c))
  {
    var ab := a + b;
    assert ab + c == a + (b + c);
    assert Latest(ab) + c == (ab + c)[|ab| - |Latest(ab)|..];
  }

  lemma LatestHolds(txids: seq<Txid>, p: nat)
    requires p < |txids| <= MAX_TRACKED_OUR_SPENDS + p
    ensures txids[p] in Latest(txids)
  {
    var dropped := |txids| - |Latest(txids)|;
    assert Latest(txids)[p - dropped] == txids[p];
  }

  lemma NotingKeepsTheLatest(kept: seq<Txid>, txid: Txid)
    requires |kept| <= MAX_TRACKED_OUR_SPENDS
    ensures Noted(kept, txid) == Latest(kept + Unlisted(kept, txid))
  {
    if txid in kept {
      assert kept + [] == kept;
    }
  }

  /** The list is the last sixteen of everything that was new when it was noted. */
  lemma {:induction false} TheLatestAreKept(r: Record, later: seq<Txid>)
    requires |r.ourSpendTxids| <= MAX_TRACKED_OUR_SPENDS
    ensures NoteAll(r, later).ourSpendTxids == Latest(r.ourSpendTxids + NewlyNoted(r.ourSpendTxids, later))
    decreases |later|
  {
    var kept := r.ourSpendTxids;
    if later == [] {
      assert kept + [] == kept;
    } else {
      var next := Noted(kept, later[0]);
      var first := Unlisted(kept, later[0]);
      var more := NewlyNoted(next, later[1..]);
      calc {
        NoteAll(r, later).ourSpendTxids;
        NoteAll(NoteOurSpend(r, later[0]), later[1..]).ourSpendTxids;
        { TheLatestAreKept(NoteOurSpend(r, later[0]), later[1..]); }
        Latest(next + more);
        { NotingKeepsTheLatest(kept, later[0]); }
        Latest(Latest(kept + first) + more);
        { LatestOfLatest(kept, first, more); }
        Latest(kept + NewlyNoted(kept, later));
      }
    }
  }

  lemma {:induction false} TheLastNoteIsListed(r: Record, later: seq<Txid>)
    ensures var after := NoteAll(r, later);
            if later == [] then after == r
            else after.lastSpend.Some? && after.lastSpend.value in after.ourSpendTxids
    decreases |later|
  {
    if later != [] {
      var next := NoteOurSpend(r, later[0]);
      var kept := r.ourSpendTxids;
      assert later[0] !in kept ==> next.ourSpendTxids[|next.ourSpendTxids| - 1] == later[0];
      TheLastNoteIsListed(next, later[1..]);
    }
  }

  /** Which spends the next run still recognises as ours, after any further notes. */
  lemma SpendsAreKnownExactly(r: Record, later: seq<Txid>, txid: Txid)
    requires |r.ourSpendTxids| <= MAX_TRACKED_OUR_SPENDS
    ensures txid in OurSpends(NoteAll(r, later))
            <==> || txid in Latest(r.ourSpendTxids + NewlyNoted(r.ourSpendTxids, later))
                 || (later == [] && r.lastSpend == Some(txid))
  {
    TheLatestAreKept(r, later);
    TheLastNoteIsListed(r, later);
  }

  lemma {:induction false} FewAreNew(kept: seq<Txid>, later: seq<Txid>)
    ensures |NewlyNoted(kept, later)| <= |later|
    decreases |later|
  {
    if later != [] {
      FewAreNew(Noted(kept, later[0]), later[1..]);
    }
  }

  /** The spend at place p is still known after any further notes that the room above it allows: up
      to fifteen for one just added. */
  lemma RecentSpendsAreKnown(r: Record, p: nat, later: seq<Txid>)
    requires p < |r.ourSpendTxids| <= MAX_TRACKED_OUR_SPENDS
    requires |later| + |r.ourSpendTxids| <= MAX_TRACKED_OUR_SPENDS + p
    ensures r.ourSpendTxids[p] in OurSpends(NoteAll(r, later))
  {
    var kept := r.ourSpendTxids;
    var all := kept + NewlyNoted(kept, later);
    FewAreNew(kept, later);
    assert all[p] == kept[p];
    LatestHolds(all, p);
    SpendsAreKnownExactly(r, later, kept[p]);
  }

  lemma NotingAddsOnly(kept: seq<Txid>, txid: Txid, x: Txid)
    requires x in Noted(kept, txid)
    ensures x in kept || x == txid
  {
  }

  lemma {:induction false} UnlistedAreNew(kept: seq<Txid>, later: seq<Txid>)
    requires forall i | 0 <= i < |later| :: later[i] !in kept
    requires forall i, j | 0 <= i < j < |later| :: later[i] != later[j]
    ensures NewlyNoted(kept, later) == later
    decreases |later|
  {
    if later != [] {
      var next := Noted(kept, later[0]);
      forall i | 0 <= i < |later[1..]|
        ensures later[1..][i] !in next
      {
        assert later[1..][i] == later[i + 1];
        if later[i + 1] in next {
          NotingAddsOnly(kept, later[0], later[i + 1]);
        }
      }
      UnlistedAreNew(next, later[1..]);
      assert [later[0]] + later[1..] == later;
    }
  }

  /** For further transactions that are all new, that room is exact: one more and the spend is no
      longer recognised. */
  lemma OnlyNewSpendsTakeRoom(r: Record, p: nat, later: seq<Txid>)
    requires TracksSpends(r) && p < |r.ourSpendTxids| && later != []
    requires forall i | 0 <= i < |later| :: later[i] !in r.ourSpendTxids
    requires forall i, j | 0 <= i < j < |later| :: later[i] != later[j]
    ensures r.ourSpendTxids[p] in OurSpends(NoteAll(r, later))
            <==> |later| + |r.ourSpendTxids| <= MAX_TRACKED_OUR_SPENDS + p
  {
    var kept := r.ourSpendTxids;
    var all := kept + later;
    UnlistedAreNew(kept, later);
    SpendsAreKnownExactly(r, later, kept[p]);
    if |later| + |kept| <= MAX_TRACKED_OUR_SPENDS + p {
      RecentSpendsAreKnown(r, p, later);
    } else {
      var dropped := |all| - MAX_TRACKED_OUR_SPENDS;
      forall i | 0 <= i < MAX_TRACKED_OUR_SPENDS
        ensures Latest(all)[i] != kept[p]
      {
        assert Latest(all)[i] == all[dropped + i];
      }
    }
  }

  /** Broadcasting the oldest of sixteen again does not refresh it: the next new transaction makes
      the record forget it, one note after it was last put on the wire. */
  lemma ResendingTheOldestDoesNotKeepIt(r: Record, newer: Txid)
    requires TracksSpends(r) && |r.ourSpendTxids| == MAX_TRACKED_OUR_SPENDS
    requires newer !in r.ourSpendTxids
    ensures r.ourSpendTxids[0] !in OurSpends(NoteAll(r, [r.ourSpendTxids[0], newer]))
  {
    var resent := NoteOurSpend(r, r.ourSpendTxids[0]);
    assert [r.ourSpendTxids[0], newer][1..] == [newer];
    OnlyNewSpendsTakeRoom(resent, 0, [newer]);
  }
}
