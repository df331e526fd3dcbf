/** Replies arriving over encrypted messages: which are taken as the answer, which are finished with,
    and how an acceptance survives crashes on its way from the inbox journal to the swap record. */
module DmChannel {
  import opened Durability
  import opened Messages
  import opened SwapRecord

  // ----- correlating replies -----

  /** Identity as well as kind: a reply answers the request that asked for it, and no other. */
  predicate ReplyMatches(request: Message, reply: Message) {
    match (request, reply)
    case (OfferRequest(r), Offer(v)) => r.Some? && v == r
    case (QuoteRequest(r), QuoteReply(v)) => r.Some? && v == r
    case (SwapRequest(r), SwapAccept(v)) => v.quoteId == r.quoteId
    case (StatusRequest(r, s, q), StatusSnapshot(v, accept)) =>
      && r.Some? && v == r
      && (q.Some? ==> accept.quoteId == q.value) && (s.Some? ==> accept.swapId == s.value)
    case (OfferRequest(r), Reject(v, _, _)) => r.Some? && v == r
    case (QuoteRequest(r), Reject(v, _, _)) => r.Some? && v == r
    case (SwapRequest(r), Reject(_, q, _)) => q == Some(r.quoteId)
    case (StatusRequest(r, _, _), Reject(v, _, _)) => r.Some? && v == r
    case (SwapListRequest(r), SwapList(v)) => r.Some? && v == r
    case (SwapListRequest(r), Reject(v, _, _)) => r.Some? && v == r
    case _ => false
  }

  predicate ReadOnlyReply(reply: Message) {
    reply.Offer? || reply.QuoteReply? || reply.Reject? || reply.StatusUpdate? || reply.SwapList?
  }

  function Acceptance(m: Message): Option<Accept> {
    if m.SwapAccept? || m.StatusSnapshot? then Some(m.accept) else None
  }

  predicate AcceptanceConflicts(first: Message, second: Message) {
    Acceptance(first).Some? && Acceptance(second).Some? && Acceptance(first) != Acceptance(second)
  }

  /** A status reply for the quote answers a creation just as well. */
  function AsReply(request: Message, m: Message): Message {
    if request.SwapRequest? && m.StatusSnapshot? && m.accept.quoteId == request.request.quoteId
    then SwapAccept(m.accept) else m
  }

  datatype Key = OfferKey(id: Option<Id>) | QuoteKey(id: Option<Id>) | Creation(quoteId: Id)
               | Status(swapId: Option<Id>) | ListKey(id: Option<Id>) | Unsupported

  function RequestKey(request: Message): Key {
    match request
    case OfferRequest(r) => OfferKey(r)
    case QuoteRequest(r) => QuoteKey(r)
    case SwapRequest(r) => Creation(r.quoteId)
    case StatusRequest(_, s, q) => if q.Some? then Creation(q.value) else Status(s)
    case SwapListRequest(r) => ListKey(r)
    case _ => Unsupported
  }

  /** Some client record already holds this acceptance, or knows the swap the update is about. */
  predicate RecordedAcceptance(records: map<Id, Record>, reply: Message) {
    match reply
    case SwapAccept(accept) => exists s | s in records :: records[s].role.Client? && records[s].accept == Some(accept)
    case StatusSnapshot(_, accept) =>
      exists s | s in records :: records[s].role.Client? && records[s].accept == Some(accept)
    case StatusUpdate(swapId) =>
      exists s | s in records :: records[s].role.Client? && records[s].accept.Some?
                                 && records[s].accept.value.swapId == swapId
    case _ => false
  }

  /** What is held for a creation carries an acceptance for exactly that quote. */
  lemma HeldRepliesAreForTheQuote(request: Message, m: Message, quoteId: Id)
    requires RequestKey(request) == Creation(quoteId)
    requires ReplyMatches(request, AsReply(request, m)) && !ReadOnlyReply(AsReply(request, m))
    ensures Acceptance(m).Some? && Acceptance(m).value.quoteId == quoteId
  {
  }

  // ----- one poll -----

  datatype Inbound = Inbound(id: Id, message: Message)

  /** `acked` are the identities the inbox journal holds as finished. */
  datatype Sorting = Sorting(
    matched: Option<Message>,
    held: seq<Id>,
    unresolved: bool,
    acked: Durable<set<Id>>)

  /** A poll that stops on a conflict, an unreadable store or a failed acknowledgment hands nothing
      over: its receipts go back. */
  datatype Sorted = Going(s: Sorting) | Stopped(acked: Durable<set<Id>>)

  function Ack(acked: Durable<set<Id>>, id: Id, write: Write): (Durable<set<Id>>, bool) {
    if acked.failed then (acked, false)
    else (acked.Commit(acked.memory + {id}, write), write.Saved?)
  }

  predicate Answers(request: Message, expected: Message -> bool, reply: Message) {
    ReplyMatches(request, reply) && (reply.Reject? || expected(reply))
  }

  /** Which inbound messages get acknowledged on sight. */
  predicate Finished(request: Message, expected: Message -> bool, records: Option<map<Id, Record>>, m: Message) {
    var reply := AsReply(request, m);
    || ReadOnlyReply(reply)
    || (!Answers(request, expected, reply) && records.Some? && RecordedAcceptance(records.value, reply))
  }

  function SortOne(request: Message, expected: Message -> bool, records: Option<map<Id, Record>>,
                   m: Inbound, s: Sorting, write: Write): Sorted
  {
    var reply := AsReply(request, m.message);
    var (acked, ok) := Ack(s.acked, m.id, write);
    if Answers(request, expected, reply) then
      if s.matched.Some? && AcceptanceConflicts(s.matched.value, reply) then Stopped(s.acked)
      else if ReadOnlyReply(reply) && !ok then Stopped(acked)
      else
        Going(s.(matched := if s.matched.None? || !reply.Reject? then Some(reply) else s.matched,
                 held := if ReadOnlyReply(reply) then s.held else s.held + [m.id],
                 acked := if ReadOnlyReply(reply) then acked else s.acked))
    else if !ReadOnlyReply(reply) && records.None? then Stopped(s.acked)
    else if Finished(request, expected, records, m.message) then
      if ok then Going(s.(acked := acked)) else Stopped(acked)
    else Going(s.(unresolved := true))
  }

  function SortAll(request: Message, expected: Message -> bool, records: Option<map<Id, Record>>,
                   messages: seq<Inbound>, s: Sorting, writes: seq<Write>): Sorted
    decreases |messages|
  {
    if messages == [] then Going(s)
    else
      match SortOne(request, expected, records, messages[0], s, NextWrite(writes))
      case Stopped(acked) => Stopped(acked)
      case Going(next) =>
        SortAll(request, expected, records, messages[1..], next,
                if Finished(request, expected, records, messages[0].message) then LaterWrites(writes) else writes)
  }

  datatype Polled = Taken(reply: Message, held: seq<Id>) | UnrecordedReplyPending | NothingYet | Broken

  function Poll(request: Message, expected: Message -> bool, records: Option<map<Id, Record>>,
                messages: seq<Inbound>, acked: Durable<set<Id>>, writes: seq<Write>): (Polled, Durable<set<Id>>)
  {
    match SortAll(request, expected, records, messages, Sorting(None, [], false, acked), writes)
    case Stopped(after) => (Broken, after)
    case Going(s) =>
      (if s.matched.Some? then Taken(s.matched.value, s.held)
       else if s.unresolved then UnrecordedReplyPending
       else NothingYet, s.acked)
  }

  /** The classification as it runs. */
  method PollOnce(request: Message, expected: Message -> bool, records: Option<map<Id, Record>>,
                  messages: seq<Inbound>, acked: Durable<set<Id>>, writes: seq<Write>)
    returns (r: Polled, after: Durable<set<Id>>)
    ensures (r, after) == Poll(request, expected, records, messages, acked, writes)
  {
    var matched: Option<Message> := None;
    var matchedReceipts: seq<Id>, unresolved := [], false;
    after := acked;
    var ws := writes;
    for i := 0 to |messages|
      invariant SortAll(request, expected, records, messages[i..],
                        Sorting(matched, matchedReceipts, unresolved, after), ws)
                == SortAll(request, expected, records, messages, Sorting(None, [], false, acked), writes)
    {
      var m := messages[i];
      assert messages[i..][1..] == messages[i + 1..];
      var reply := AsReply(request, m.message);
      if ReplyMatches(request, reply) && (reply.Reject? || expected(reply)) {
        if matched.Some? && AcceptanceConflicts(matched.value, reply) {
          return Broken, after;
        }
        if ReadOnlyReply(reply) {
          var (saved, ok) := Ack(after, m.id, NextWrite(ws));
          after := saved;
          if !ok {
            return Broken, after;
          }
          ws := LaterWrites(ws);
        } else {
          matchedReceipts := matchedReceipts + [m.id];
        }
        if matched.None? || !reply.Reject? {
          matched := Some(reply);
        }
      } else {
        if !ReadOnlyReply(reply) && records.None? {
          return Broken, after;
        }
        if ReadOnlyReply(reply) || RecordedAcceptance(records.value, reply) {
          var (saved, ok) := Ack(after, m.id, NextWrite(ws));
          after := saved;
          if !ok {
            return Broken, after;
          }
          ws := LaterWrites(ws);
        } else {
          unresolved := true;
        }
      }
    }
    if matched.Some? {
      return Taken(matched.value, matchedReceipts), after;
    }
    return if unresolved then UnrecordedReplyPending else NothingYet, after;
  }

  // ----- what one poll does -----

  /** How sorting may have changed things: only messages that are finished with were acknowledged, and
      for a creation the messages held all carry the acceptance that is taken. */
  ghost predicate SortedOk(request: Message, expected: Message -> bool, records: Option<map<Id, Record>>,
                           messages: seq<Inbound>, before: Durable<set<Id>>, after: Durable<set<Id>>)
  {
    forall id | (id in after.memory && id !in before.memory) || (id in after.disk && id !in before.disk) ::
      exists m | m in messages :: m.id == id && Finished(request, expected, records, m.message)
  }

  /** One message acknowledges itself at most, and only when it is finished with. */
  lemma OneIsAcknowledgedIfFinished(request: Message, expected: Message -> bool,
                                    records: Option<map<Id, Record>>, m: Inbound, s: Sorting, write: Write)
    requires s.acked.Synced()
    ensures var after := AckedBy(SortOne(request, expected, records, m, s, write));
            && after.Synced()
            && (after != s.acked ==> Finished(request, expected, records, m.message))
            && after.memory <= s.acked.memory + {m.id} && after.disk <= s.acked.disk + {m.id}
  {
  }

  function AckedBy(sorted: Sorted): Durable<set<Id>> {
    if sorted.Going? then sorted.s.acked else sorted.acked
  }

  lemma {:induction false} OnlyFinishedAreAcknowledged(request: Message, expected: Message -> bool,
                                                       records: Option<map<Id, Record>>, messages: seq<Inbound>,
                                                       s: Sorting, writes: seq<Write>)
    requires s.acked.Synced()
    ensures var after := AckedBy(SortAll(request, expected, records, messages, s, writes));
            SortedOk(request, expected, records, messages, s.acked, after) && after.Synced()
    decreases |messages|
  {
    if messages != [] {
      var m := messages[0];
      var one := SortOne(request, expected, records, m, s, NextWrite(writes));
      OneIsAcknowledgedIfFinished(request, expected, records, m, s, NextWrite(writes));
      assert m in messages && forall other | other in messages[1..] :: other in messages;
      if one.Going? {
        OnlyFinishedAreAcknowledged(request, expected, records, messages[1..], one.s,
                                    if Finished(request, expected, records, m.message)
                                    then LaterWrites(writes) else writes);
      }
    }
  }

  ghost predicate Agree(matched: Option<Message>, held: seq<Id>, messages: seq<Inbound>) {
    forall id | id in held ::
      && matched.Some? && Acceptance(matched.value).Some?
      && exists m | m in messages :: m.id == id && Acceptance(m.message) == Acceptance(matched.value)
  }

  lemma {:induction false} HeldAgree(request: Message, expected: Message -> bool,
                                     records: Option<map<Id, Record>>, all: seq<Inbound>, rest: seq<Inbound>,
                                     s: Sorting, writes: seq<Write>)
    requires RequestKey(request).Creation?
    requires forall m | m in rest :: m in all
    requires Agree(s.matched, s.held, all)
    requires s.matched.Some? ==> Answers(request, expected, s.matched.value)
    ensures var sorted := SortAll(request, expected, records, rest, s, writes);
            sorted.Going? ==>
              && Agree(sorted.s.matched, sorted.s.held, all)
              && (sorted.s.matched.Some? ==> Answers(request, expected, sorted.s.matched.value))
    decreases |rest|
  {
    if rest != [] {
      var m := rest[0];
      assert m in all;
      var one := SortOne(request, expected, records, m, s, NextWrite(writes));
      if one.Going? {
        HeldAgree(request, expected, records, all, rest[1..], one.s,
                  if Finished(request, expected, records, m.message) then LaterWrites(writes) else writes);
      }
    }
  }

  /** What a poll for a creation takes is an answer to that very request, and everything it holds back
      for later acknowledgment carries the same acceptance. */
  lemma TakenIsTheAnswer(request: Message, expected: Message -> bool, records: Option<map<Id, Record>>,
                         messages: seq<Inbound>, acked: Durable<set<Id>>, writes: seq<Write>)
    requires RequestKey(request).Creation?
    ensures var r := Poll(request, expected, records, messages, acked, writes).0;
            r.Taken? ==> Answers(request, expected, r.reply) && Agree(Some(r.reply), r.held, messages)
  {
    HeldAgree(request, expected, records, messages, messages, Sorting(None, [], false, acked), writes);
  }

  // ----- an acceptance on its way from the inbox to the record -----

  /** `history` is every message the inbox journal admitted; `held` the receipts this process keeps
      for a later acknowledgment; `saved` the quotes whose reply it has recorded. */
  datatype System = System(
    history: map<Id, Message>,
    acked: Durable<set<Id>>,
    records: map<Id, Record>,
    held: set<(Id, Id)>,
    saved: set<Id>)

  const INITIAL := System(map[], Durable({}, {}, false), map[], {}, {})

  predicate Expected(request: Message, reply: Message) {
    match request
    case OfferRequest(_) => reply.Offer?
    case QuoteRequest(_) => reply.QuoteReply?
    case SwapRequest(_) => reply.SwapAccept?
    case StatusRequest(_, _, _) => reply.StatusSnapshot?
    case _ => reply.SwapList?
  }

  datatype Move =
    | Arrive(id: Id, message: Message)
    | Receive(request: Message, ids: seq<Id>, readable: bool, writes: seq<Write>)
    | NewSwap(swap: Id, record: Record)
    | SaveReply(of: Id, accept: Accept, io: Io)
    | ChangeRecord(changed: Id, step: Step, write: Write)
    | AckHeld(quoteId: Id, receipt: Id, ack: Write)
    | Crash

  function Inbox(s: System, ids: seq<Id>): (messages: seq<Inbound>)
    ensures forall m | m in messages ::
              m.id in ids && m.id in s.history && m.message == s.history[m.id] && m.id !in s.acked.memory
  {
    if ids == [] then []
    else if ids[0] in s.history && ids[0] !in s.acked.memory
    then [Inbound(ids[0], s.history[ids[0]])] + Inbox(s, ids[1..])
    else Inbox(s, ids[1..])
  }

  function DoReceive(s: System, request: Message, ids: seq<Id>, readable: bool, writes: seq<Write>): System {
    var (r, acked) := Poll(request, m => Expected(request, m), if readable then Some(s.records) else None,
                           Inbox(s, ids), s.acked, writes);
    var key := RequestKey(request);
    s.(acked := acked,
       held := s.held + if r.Taken? && key.Creation? then set id | id in r.held :: (key.quoteId, id) else {})
  }

  function DoSaveReply(s: System, swap: Id, accept: Accept, io: Io): System {
    if swap !in s.records || io.LoadFails? then s
    else
      var reply := CreationReply(s.records[swap], accept);
      if reply.AlreadyRecorded? then s.(saved := s.saved + {accept.quoteId})
      else if reply.Recorded? then
        s.(records := s.records[swap := Stored(s.records[swap], reply.record, io.write)],
           saved := if io.write.Saved? then s.saved + {accept.quoteId} else s.saved)
      else s
  }

  function Next(s: System, move: Move): System {
    match move
    case Arrive(id, message) => if id in s.history then s else s.(history := s.history[id := message])
    case Receive(request, ids, readable, writes) => DoReceive(s, request, ids, readable, writes)
    case NewSwap(swap, record) =>
      if swap in s.records || !record.role.Client? || record.accept.Some? then s
      else s.(records := s.records[swap := record])
    case SaveReply(swap, accept, io) => DoSaveReply(s, swap, accept, io)
    case ChangeRecord(swap, step, write) =>
      if swap !in s.records || step.Answer? then s
      else s.(records := s.records[swap := Stored(s.records[swap], Apply(s.records[swap], step), write)])
    case AckHeld(quoteId, receipt, write) =>
      if quoteId in s.saved && (quoteId, receipt) in s.held
      then s.(acked := Ack(s.acked, receipt, write).0) else s
    case Crash => s.(acked := s.acked.Restart(), held := {}, saved := {})
  }

  function Run(s: System, moves: seq<Move>): System
    decreases |moves|
  {
    if moves == [] then s else Run(Next(s, moves[0]), moves[1..])
  }

  /** A provider that gives one acceptance for a quote: in every reply, over whichever channel. */
  predicate OneAcceptance(given: Id -> Accept, move: Move) {
    match move
    case Arrive(_, m) => Acceptance(m).Some? ==> Acceptance(m).value == given(Acceptance(m).value.quoteId)
    case SaveReply(_, accept, _) => accept == given(accept.quoteId)
    case _ => true
  }

  ghost predicate Kept(records: map<Id, Record>, accept: Accept) {
    exists swap | swap in records :: records[swap].role.Client? && records[swap].accept == Some(accept)
  }

  ghost predicate KeptAll(s: System, acked: set<Id>) {
    forall id | id in acked && id in s.history && Acceptance(s.history[id]).Some? ::
      Kept(s.records, Acceptance(s.history[id]).value)
  }

  ghost predicate Inv(s: System, given: Id -> Accept) {
    && (forall id | id in s.history && Acceptance(s.history[id]).Some? ::
          Acceptance(s.history[id]).value == given(Acceptance(s.history[id]).value.quoteId))
    && (forall swap | swap in s.records :: s.records[swap].role.Client?)
    && s.acked.Synced()
    && s.acked.memory <= s.history.Keys && s.acked.disk <= s.history.Keys
    && KeptAll(s, s.acked.memory) && KeptAll(s, s.acked.disk)
    && (forall h | h in s.held ::
          h.1 in s.history && Acceptance(s.history[h.1]).Some?
          && Acceptance(s.history[h.1]).value.quoteId == h.0)
    && (forall quoteId | quoteId in s.saved :: Kept(s.records, given(quoteId)))
  }

  /** A record keeps its acceptance and stays the client's whatever else is written. */
  lemma RecordsKeep(records: map<Id, Record>, swap: Id, next: Record, accept: Accept)
    requires swap in records && Kept(records, accept)
    requires next.role == records[swap].role
    requires records[swap].accept.Some? ==> next.accept == records[swap].accept
    ensures Kept(records[swap := next], accept)
  {
    var kept :| kept in records && records[kept].role.Client? && records[kept].accept == Some(accept);
    assert records[swap := next][kept].accept == Some(accept);
  }

  lemma AddingKeeps(records: map<Id, Record>, swap: Id, record: Record, accept: Accept)
    requires swap !in records && Kept(records, accept)
    ensures Kept(records[swap := record], accept)
  {
    var kept :| kept in records && records[kept].role.Client? && records[kept].accept == Some(accept);
    assert records[swap := record][kept] == records[kept];
  }

  lemma ReplacingKeepsInv(s: System, given: Id -> Accept, swap: Id, next: Record)
    requires Inv(s, given) && swap in s.records
    requires next.role == s.records[swap].role
    requires s.records[swap].accept.Some? ==> next.accept == s.records[swap].accept
    ensures Inv(s.(records := s.records[swap := next]), given)
  {
    forall accept | Kept(s.records, accept)
      ensures Kept(s.records[swap := next], accept)
    {
      RecordsKeep(s.records, swap, next, accept);
    }
  }

  lemma SaveReplyKeepsInv(s: System, given: Id -> Accept, swap: Id, accept: Accept, io: Io)
    requires Inv(s, given) && accept == given(accept.quoteId)
    ensures Inv(DoSaveReply(s, swap, accept, io), given)
  {
    if swap in s.records && io.Writes? {
      var reply := CreationReply(s.records[swap], accept);
      if reply.AlreadyRecorded? {
        assert Kept(s.records, accept);
      } else if reply.Recorded? {
        var next := Stored(s.records[swap], reply.record, io.write);
        ReplacingKeepsInv(s, given, swap, next);
        if io.write.Saved? {
          assert s.records[swap := next][swap].accept == Some(accept);
        }
      }
    }
  }

  /** What a poll acknowledges is in the journal, and an acceptance among it is on record. */
  lemma AcknowledgedOnSight(s: System, request: Message, readable: bool, messages: seq<Inbound>,
                            writes: seq<Write>, id: Id)
    requires s.acked.Synced()
    requires forall m | m in messages :: m.id in s.history && m.message == s.history[m.id]
    requires forall swap | swap in s.records :: s.records[swap].role.Client?
    ensures var after := Poll(request, m => Expected(request, m), if readable then Some(s.records) else None,
                              messages, s.acked, writes).1;
            && after.Synced()
            && ((id in after.memory && id !in s.acked.memory) || (id in after.disk && id !in s.acked.disk) ==>
                  id in s.history
                  && (Acceptance(s.history[id]).Some? ==> Kept(s.records, Acceptance(s.history[id]).value)))
  {
    var expected := m => Expected(request, m);
    var records := if readable then Some(s.records) else None;
    OnlyFinishedAreAcknowledged(request, expected, records, messages, Sorting(None, [], false, s.acked), writes);
    var after := Poll(request, expected, records, messages, s.acked, writes).1;
    if (id in after.memory && id !in s.acked.memory) || (id in after.disk && id !in s.acked.disk) {
      var m :| m in messages && m.id == id && Finished(request, expected, records, m.message);
    }
  }

  lemma HeldForTheQuote(s: System, request: Message, readable: bool, messages: seq<Inbound>,
                        writes: seq<Write>, id: Id)
    requires forall m | m in messages :: m.id in s.history && m.message == s.history[m.id]
    requires RequestKey(request).Creation?
    ensures var r := Poll(request, m => Expected(request, m), if readable then Some(s.records) else None,
                          messages, s.acked, writes).0;
            r.Taken? && id in r.held ==>
              && id in s.history && Acceptance(s.history[id]).Some?
              && Acceptance(s.history[id]).value.quoteId == RequestKey(request).quoteId
  {
    var expected := m => Expected(request, m);
    var records := if readable then Some(s.records) else None;
    TakenIsTheAnswer(request, expected, records, messages, s.acked, writes);
    var r := Poll(request, expected, records, messages, s.acked, writes).0;
    if r.Taken? && id in r.held {
      var m :| m in messages && m.id == id && Acceptance(m.message) == Acceptance(r.reply);
    }
  }

  lemma ReceiveKeepsInv(s: System, given: Id -> Accept, request: Message, ids: seq<Id>, readable: bool,
                        writes: seq<Write>)
    requires Inv(s, given)
    ensures Inv(DoReceive(s, request, ids, readable, writes), given)
  {
    var messages := Inbox(s, ids);
    forall id: Id {
      AcknowledgedOnSight(s, request, readable, messages, writes, id);
    }
    if RequestKey(request).Creation? {
      forall id: Id {
        HeldForTheQuote(s, request, readable, messages, writes, id);
      }
    }
  }

  lemma MoveKeepsInv(s: System, given: Id -> Accept, move: Move)
    requires Inv(s, given) && OneAcceptance(given, move)
    ensures Inv(Next(s, move), given)
  {
    match move {
      case Receive(request, ids, readable, writes) => ReceiveKeepsInv(s, given, request, ids, readable, writes);
      case SaveReply(swap, accept, io) => SaveReplyKeepsInv(s, given, swap, accept, io);
      case ChangeRecord(swap, step, write) =>
        if swap in s.records && !step.Answer? {
          StepRemembersMarkers(s.records[swap], step);
          ReplacingKeepsInv(s, given, swap, Stored(s.records[swap], Apply(s.records[swap], step), write));
        }
      case NewSwap(swap, record) =>
        if swap !in s.records {
          forall accept | Kept(s.records, accept)
            ensures Kept(s.records[swap := record], accept)
          {
            AddingKeeps(s.records, swap, record, accept);
          }
        }
      case _ =>
    }
  }

  lemma {:induction false} MovesKeepInv(s: System, given: Id -> Accept, moves: seq<Move>)
    requires Inv(s, given) && forall move | move in moves :: OneAcceptance(given, move)
    ensures Inv(Run(s, moves), given)
    decreases |moves|
  {
    if moves != [] {
      assert moves[0] in moves;
      MoveKeepsInv(s, given, moves[0]);
      MovesKeepInv(Next(s, moves[0]), given, moves[1..]);
    }
  }

  /** A received acceptance survives every crash and failed write: each creation reply the inbox ever
      admitted is still pending there on disk, or an equal acceptance is on disk in a swap record. */
  lemma AcceptanceSurvives(given: Id -> Accept, moves: seq<Move>, id: Id)
    requires forall move | move in moves :: OneAcceptance(given, move)
    requires id in Run(INITIAL, moves).history && Acceptance(Run(INITIAL, moves).history[id]).Some?
    ensures var s := Run(INITIAL, moves);
            id !in s.acked.disk || Kept(s.records, Acceptance(s.history[id]).value)
  {
    MovesKeepInv(INITIAL, given, moves);
  }
}
