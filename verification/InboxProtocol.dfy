/** Leased delivery over the receive journal: reads of different peers, handlers that acknowledge,
    release or drop their receipts, failed writes and restarts, in any interleaving.

    The mailbox is not trusted: a retrieval may return anything at all. */
module InboxProtocol {
  import opened Durability
  import opened ReceiveJournal

  datatype Receipt = Receipt(peer: string, id: MessageId, lease: nat)

  /** `receipts` are the ones still held by some handler. `handled` and `history` only record what
      happened: acknowledgments by a handler, and everything any retrieval returned. */
  datatype Inbox = Inbox(
    journal: Durable<Records>,
    leases: map<MessageId, nat>,
    nextLease: nat,
    receipts: set<Receipt>,
    handled: set<(string, MessageId)>,
    history: set<(string, Message)>)

  const INITIAL := Inbox(Durable(map[], map[], false), map[], 0, {}, {}, {})

  /** What may be decoded: a verified body that the peer both sent and published itself. */
  predicate Authentic(peer: string, m: Message) {
    m.body.Some? && m.body.value.verified && m.body.value.sender == peer && m.id.publisher == peer
  }

  predicate Deliverable(peer: string, m: Message) {
    Authentic(peer, m) && m.body.value.decodes
  }

  /** A receipt gives back its lease, if the lease is still its own. */
  function Unlease(leases: map<MessageId, nat>, r: Receipt): map<MessageId, nat> {
    if r.id in leases && leases[r.id] == r.lease then leases - {r.id} else leases
  }

  function Forget(s: Inbox, r: Receipt): Inbox {
    s.(leases := Unlease(s.leases, r), receipts := s.receipts - {r})
  }

  function ForgetAll(s: Inbox, given: seq<Receipt>): Inbox
    decreases |given|
  {
    if given == [] then s else ForgetAll(Forget(s, given[0]), given[1..])
  }

  function Lease(s: Inbox, peer: string, id: MessageId): Inbox {
    s.(leases := s.leases[id := s.nextLease],
       nextLease := s.nextLease + 1,
       receipts := s.receipts + {Receipt(peer, id, s.nextLease)})
  }

  datatype Delivery = Given(receipts: seq<Receipt>) | DeliveryFailed

  /** Lease what can be delivered; acknowledge what never can be, one write each; on a failed write
      the receipts made so far are dropped. */
  function DeliverFrom(s: Inbox, peer: string, pending: seq<Message>, writes: seq<Write>,
                       given: seq<Receipt>): (Inbox, Delivery)
    decreases |pending|
  {
    if pending == [] then (s, Given(given))
    else
      var m := pending[0];
      if m.id in s.leases || m.body.None? then DeliverFrom(s, peer, pending[1..], writes, given)
      else if !Deliverable(peer, m) then
        var write := NextWrite(writes);
        var saved := s.(journal := s.journal.Commit(Acknowledge(s.journal.memory, peer, {m.id}), write));
        if write.Saved? then DeliverFrom(saved, peer, pending[1..], LaterWrites(writes), given)
        else (ForgetAll(saved, given), DeliveryFailed)
      else
        DeliverFrom(Lease(s, peer, m.id), peer, pending[1..], writes,
                    given + [Receipt(peer, m.id, s.nextLease)])
  }

  function Deliver(s: Inbox, peer: string, writes: seq<Write>): (Inbox, Delivery) {
    if s.journal.failed then (s, DeliveryFailed)
    else DeliverFrom(s, peer, RecordOf(s.journal.memory, peer).pending, writes, [])
  }

  function Commit(s: Inbox, next: Records, write: Write): Inbox {
    if s.journal.failed then s
    else s.(journal := s.journal.Commit(next, write))
  }

  function Seen(s: Inbox, peer: string, received: seq<Message>): Inbox {
    s.(history := s.history + set m | m in received :: (peer, m))
  }

  /** Nothing is written when nothing received is new. */
  ghost function Take(s: Inbox, peer: string, received: seq<Message>, save: Write): Inbox {
    if Fresh(s.journal.memory, peer, received).Nothing() then s
    else Commit(s, Remember(s.journal.memory, peer, received), save)
  }

  datatype Step =
    | Read(peer: string, writes: seq<Write>)
    | Receive(peer: string, received: seq<Message>, save: Write, writes: seq<Write>)
    | Handle(receipt: Receipt, write: Write)
    | Release(receipt: Receipt)
    | DropReceipt(receipt: Receipt)
    | Join(peer: string, pinned: bool, write: Write)
    | Leave(peer: string, write: Write)
    | Restart

  /** A retrieval came back: remember it, then deliver whatever is pending. */
  ghost function DoReceive(s: Inbox, peer: string, received: seq<Message>, save: Write,
                           writes: seq<Write>): Inbox
  {
    var seen := Seen(s, peer, received);
    Deliver(Take(seen, peer, received, save), peer, writes).0
  }

  /** A handler's acknowledgment: journal first, and the lease only when that was saved. */
  function DoHandle(s: Inbox, r: Receipt, write: Write): Inbox {
    if r !in s.receipts || s.journal.failed then s
    else
      var saved := s.(journal := s.journal.Commit(Acknowledge(s.journal.memory, r.peer, {r.id}), write),
                      handled := s.handled + {(r.peer, r.id)});
      if write.Saved? then saved.(leases := Unlease(s.leases, r)) else saved
  }

  ghost function Next(s: Inbox, step: Step): Inbox {
    match step
    case Read(peer, writes) => Deliver(s, peer, writes).0
    case Receive(peer, received, save, writes) => DoReceive(s, peer, received, save, writes)
    case Handle(r, write) => DoHandle(s, r, write)
    case Release(r) => if r in s.receipts then s.(leases := Unlease(s.leases, r)) else s
    case DropReceipt(r) => if r in s.receipts then Forget(s, r) else s
    case Join(peer, pinned, write) =>
      if Registration(s.journal.memory, peer, pinned).Writes?
      then Commit(s, Register(s.journal.memory, peer, pinned), write) else s
    case Leave(peer, write) =>
      if CanUnregister(s.journal.memory, peer)
      then Commit(s, Unregister(s.journal.memory, peer), write) else s
    case Restart =>
      s.(journal := s.journal.Restart(), leases := map[], nextLease := 0, receipts := {})
  }

  ghost function Run(s: Inbox, steps: seq<Step>): Inbox
    decreases |steps|
  {
    if steps == [] then s else Run(Next(s, steps[0]), steps[1..])
  }

  // ----- the invariant -----

  ghost predicate Rejected(s: Inbox, peer: string, id: MessageId) {
    exists m :: (peer, m) in s.history && m.id == id && !Deliverable(peer, m)
  }

  /** What the journal in memory and the one on disk satisfy at all times. */
  ghost predicate JournalOk(s: Inbox, r: Records) {
    && RecordsOk(r)
    && (forall peer, m | m in RecordOf(r, peer).pending :: (peer, m) in s.history)
    && (forall peer, id | Acknowledged(r, peer, id) ::
          (peer, id) in s.handled || Rejected(s, peer, id))
  }

  ghost predicate LeasesOk(s: Inbox) {
    && (forall id | id in s.leases ::
          exists r :: r in s.receipts && r.id == id && r.lease == s.leases[id])
    && (forall r | r in s.receipts :: r.lease < s.nextLease)
    && (forall a, b | a in s.receipts && b in s.receipts && a.lease == b.lease :: a == b)
  }

  ghost predicate ReceiptsOk(s: Inbox) {
    forall r | r in s.receipts ::
      exists m :: (r.peer, m) in s.history && m.id == r.id && Deliverable(r.peer, m)
  }

  ghost predicate Inv(s: Inbox) {
    && s.journal.Synced()
    && JournalOk(s, s.journal.memory)
    && JournalOk(s, s.journal.disk)
    && LeasesOk(s)
    && ReceiptsOk(s)
  }

  lemma InitiallyInv()
    ensures Inv(INITIAL)
  {
  }

  lemma CommitKeepsInv(s: Inbox, next: Records, write: Write)
    requires Inv(s) && !s.journal.failed && JournalOk(s, next)
    ensures Inv(s.(journal := s.journal.Commit(next, write)))
  {
    var after := s.(journal := s.journal.Commit(next, write));
    assert forall r | JournalOk(s, r) :: JournalOk(after, r);
  }

  lemma AcknowledgingIsOk(s: Inbox, peer: string, id: MessageId)
    requires JournalOk(s, s.journal.memory)
    requires (peer, id) in s.handled || Rejected(s, peer, id)
    ensures JournalOk(s, Acknowledge(s.journal.memory, peer, {id}))
  {
    AcknowledgeKeepsOk(s.journal.memory, peer, {id});
  }

  lemma LeaseKeepsInv(s: Inbox, peer: string, m: Message)
    requires Inv(s) && (peer, m) in s.history && Deliverable(peer, m) && m.id !in s.leases
    ensures Inv(Lease(s, peer, m.id))
  {
    var after := Lease(s, peer, m.id);
    assert JournalOk(after, s.journal.memory) && JournalOk(after, s.journal.disk);
    LeaseKeepsLeases(s, peer, m.id);
    assert ReceiptsOk(after);
  }

  lemma LeaseKeepsLeases(s: Inbox, peer: string, leased: MessageId)
    requires LeasesOk(s)
    ensures LeasesOk(Lease(s, peer, leased))
  {
    var after := Lease(s, peer, leased);
    forall id | id in after.leases
      ensures exists r :: r in after.receipts && r.id == id && r.lease == after.leases[id]
    {
      if id == leased {
        assert Receipt(peer, leased, s.nextLease) in after.receipts;
      } else {
        var r :| r in s.receipts && r.id == id && r.lease == s.leases[id];
        assert r in after.receipts;
      }
    }
  }

  lemma ForgetKeepsInv(s: Inbox, r: Receipt)
    requires Inv(s) && r in s.receipts
    ensures Inv(Forget(s, r))
    ensures Inv(s.(leases := Unlease(s.leases, r)))
  {
    forall id | id in Unlease(s.leases, r)
      ensures exists o :: o in Forget(s, r).receipts && o.id == id && o.lease == s.leases[id]
    {
      var o :| o in s.receipts && o.id == id && o.lease == s.leases[id];
      assert o != r;
    }
    assert forall j | JournalOk(s, j) :: JournalOk(Forget(s, r), j);
    assert forall j | JournalOk(s, j) :: JournalOk(s.(leases := Unlease(s.leases, r)), j);
  }

  lemma {:induction false} ForgetAllKeepsInv(s: Inbox, given: seq<Receipt>)
    requires Inv(s) && (forall r | r in given :: r in s.receipts)
    requires forall i, j | 0 <= i < j < |given| :: given[i] != given[j]
    ensures Inv(ForgetAll(s, given))
    ensures ForgetAll(s, given).journal == s.journal
    decreases |given|
  {
    if given != [] {
      ForgetKeepsInv(s, given[0]);
      forall r | r in given[1..]
        ensures r in Forget(s, given[0]).receipts
      {
        var i :| 0 <= i < |given[1..]| && given[1..][i] == r;
        assert given[i + 1] != given[0];
      }
      ForgetAllKeepsInv(Forget(s, given[0]), given[1..]);
    }
  }

  /** The receipts one delivery has made so far: live, and all different. */
  ghost predicate Making(s: Inbox, given: seq<Receipt>) {
    && (forall r | r in given :: r in s.receipts)
    && (forall i, j | 0 <= i < j < |given| :: given[i] != given[j])
  }

  lemma {:induction false} DeliverFromKeepsInv(s: Inbox, peer: string, pending: seq<Message>,
                                               writes: seq<Write>, given: seq<Receipt>)
    requires Inv(s) && !s.journal.failed && Making(s, given)
    requires forall m | m in pending :: (peer, m) in s.history
    ensures Inv(DeliverFrom(s, peer, pending, writes, given).0)
    decreases |pending|
  {
    if pending != [] {
      var m := pending[0];
      assert m in pending;
      if m.id in s.leases || m.body.None? {
        DeliverFromKeepsInv(s, peer, pending[1..], writes, given);
      } else if !Deliverable(peer, m) {
        var write := NextWrite(writes);
        AcknowledgingIsOk(s, peer, m.id);
        CommitKeepsInv(s, Acknowledge(s.journal.memory, peer, {m.id}), write);
        var saved := s.(journal := s.journal.Commit(Acknowledge(s.journal.memory, peer, {m.id}), write));
        if write.Saved? {
          DeliverFromKeepsInv(saved, peer, pending[1..], LaterWrites(writes), given);
        } else {
          ForgetAllKeepsInv(saved, given);
        }
      } else {
        LeaseKeepsInv(s, peer, m);
        DeliverFromKeepsInv(Lease(s, peer, m.id), peer, pending[1..], writes,
                            given + [Receipt(peer, m.id, s.nextLease)]);
      }
    }
  }

  lemma DeliverKeepsInv(s: Inbox, peer: string, writes: seq<Write>)
    requires Inv(s)
    ensures Inv(Deliver(s, peer, writes).0)
  {
    if !s.journal.failed {
      DeliverFromKeepsInv(s, peer, RecordOf(s.journal.memory, peer).pending, writes, []);
    }
  }

  lemma RememberingIsOk(s: Inbox, peer: string, received: seq<Message>)
    requires JournalOk(s, s.journal.memory)
    requires forall m | m in received :: (peer, m) in s.history
    ensures JournalOk(s, Remember(s.journal.memory, peer, received))
  {
    var r := s.journal.memory;
    RememberKeepsOk(r, peer, received);
    SiftOrigin(RecordOf(r, peer), Available(r, peer), received, Sifted([], []));
    var after := Remember(r, peer, received);
    forall other, id | Acknowledged(after, other, id) && !Acknowledged(r, other, id)
      ensures Rejected(s, other, id)
    {
      var sifted := Sift(RecordOf(r, peer), Available(r, peer), received, Sifted([], []));
      var m :| m in sifted.discarded && m.id == id;
    }
  }

  lemma ReceiveKeepsInv(s: Inbox, peer: string, received: seq<Message>, save: Write, writes: seq<Write>)
    requires Inv(s)
    ensures Inv(DoReceive(s, peer, received, save, writes))
  {
    var seen := Seen(s, peer, received);
    assert forall r, p, id | r == s && Rejected(r, p, id) :: Rejected(seen, p, id);
    assert forall j | JournalOk(s, j) :: JournalOk(seen, j);
    assert Inv(seen);
    var next := Remember(s.journal.memory, peer, received);
    RememberingIsOk(seen, peer, received);
    if !s.journal.failed {
      CommitKeepsInv(seen, next, save);
    }
    DeliverKeepsInv(Take(seen, peer, received, save), peer, writes);
  }

  lemma HandleKeepsInv(s: Inbox, r: Receipt, write: Write)
    requires Inv(s)
    ensures Inv(DoHandle(s, r, write))
  {
    if r in s.receipts && !s.journal.failed {
      var handling := s.(handled := s.handled + {(r.peer, r.id)});
      assert forall j | JournalOk(s, j) :: JournalOk(handling, j);
      assert Inv(handling);
      AcknowledgingIsOk(handling, r.peer, r.id);
      CommitKeepsInv(handling, Acknowledge(s.journal.memory, r.peer, {r.id}), write);
      var saved := handling.(journal := s.journal.Commit(Acknowledge(s.journal.memory, r.peer, {r.id}), write));
      ForgetKeepsInv(saved, r);
    }
  }

  lemma RegistrationIsOk(s: Inbox, peer: string, pinned: bool)
    requires JournalOk(s, s.journal.memory)
    ensures JournalOk(s, Register(s.journal.memory, peer, pinned))
    ensures JournalOk(s, Unregister(s.journal.memory, peer))
  {
    RegistrationKeepsOk(s.journal.memory, peer, pinned);
  }

  lemma StepKeepsInv(s: Inbox, step: Step)
    requires Inv(s)
    ensures Inv(Next(s, step))
  {
    match step {
      case Read(peer, writes) => DeliverKeepsInv(s, peer, writes);
      case Receive(peer, received, save, writes) => ReceiveKeepsInv(s, peer, received, save, writes);
      case Handle(r, write) => HandleKeepsInv(s, r, write);
      case Release(r) => if r in s.receipts { ForgetKeepsInv(s, r); }
      case DropReceipt(r) => if r in s.receipts { ForgetKeepsInv(s, r); }
      case Join(peer, pinned, write) =>
        RegistrationIsOk(s, peer, pinned);
        if !s.journal.failed {
          CommitKeepsInv(s, Register(s.journal.memory, peer, pinned), write);
        }
      case Leave(peer, write) =>
        RegistrationIsOk(s, peer, false);
        if !s.journal.failed {
          CommitKeepsInv(s, Unregister(s.journal.memory, peer), write);
        }
      case Restart =>
        assert forall j | JournalOk(s, j) :: JournalOk(Next(s, Restart), j);
    }
  }

  lemma {:induction false} RunKeepsInv(s: Inbox, steps: seq<Step>)
    requires Inv(s)
    ensures Inv(Run(s, steps))
    decreases |steps|
  {
    if steps != [] {
      StepKeepsInv(s, steps[0]);
      RunKeepsInv(Next(s, steps[0]), steps[1..]);
    }
  }

  // ----- nothing is lost -----

  lemma {:induction false} DeliverFromGrows(s: Inbox, peer: string, pending: seq<Message>,
                                            writes: seq<Write>, given: seq<Receipt>)
    requires s.journal.Synced() && !s.journal.failed
    ensures Grows(s.journal.disk, DeliverFrom(s, peer, pending, writes, given).0.journal.disk)
    decreases |pending|
  {
    if pending != [] {
      var m := pending[0];
      if m.id in s.leases || m.body.None? {
        DeliverFromGrows(s, peer, pending[1..], writes, given);
      } else if !Deliverable(peer, m) {
        var write := NextWrite(writes);
        ChangesGrow(s.journal.memory, peer, [], {m.id}, false);
        var saved := s.(journal := s.journal.Commit(Acknowledge(s.journal.memory, peer, {m.id}), write));
        if write.Saved? {
          DeliverFromGrows(saved, peer, pending[1..], LaterWrites(writes), given);
        } else {
          ForgetAllKeepsJournal(saved, given);
        }
      } else {
        DeliverFromGrows(Lease(s, peer, m.id), peer, pending[1..], writes,
                         given + [Receipt(peer, m.id, s.nextLease)]);
      }
    }
  }

  lemma {:induction false} ForgetAllKeepsJournal(s: Inbox, given: seq<Receipt>)
    ensures ForgetAll(s, given).journal == s.journal
    decreases |given|
  {
    if given != [] {
      ForgetAllKeepsJournal(Forget(s, given[0]), given[1..]);
    }
  }

  lemma DeliverGrows(s: Inbox, peer: string, writes: seq<Write>)
    requires s.journal.Synced()
    ensures Grows(s.journal.disk, Deliver(s, peer, writes).0.journal.disk)
  {
    if !s.journal.failed {
      DeliverFromGrows(s, peer, RecordOf(s.journal.memory, peer).pending, writes, []);
    }
  }

  lemma ReceiveGrows(s: Inbox, peer: string, received: seq<Message>, save: Write, writes: seq<Write>)
    requires s.journal.Synced()
    ensures Grows(s.journal.disk, DoReceive(s, peer, received, save, writes).journal.disk)
  {
    var seen := Seen(s, peer, received);
    ChangesGrow(s.journal.memory, peer, received, {}, false);
    DeliverGrows(Take(seen, peer, received, save), peer, writes);
  }

  lemma HandleGrows(s: Inbox, r: Receipt, write: Write)
    requires s.journal.Synced()
    ensures Grows(s.journal.disk, DoHandle(s, r, write).journal.disk)
  {
    ChangesGrow(s.journal.memory, r.peer, [], {r.id}, false);
  }

  lemma RegistrationGrows(s: Inbox, peer: string, pinned: bool, write: Write)
    requires s.journal.Synced()
    ensures Grows(s.journal.disk, Next(s, Join(peer, pinned, write)).journal.disk)
    ensures Grows(s.journal.disk, Next(s, Leave(peer, write)).journal.disk)
  {
    ChangesGrow(s.journal.memory, peer, [], {}, pinned);
  }

  lemma StepGrows(s: Inbox, step: Step)
    requires Inv(s)
    ensures Grows(s.journal.disk, Next(s, step).journal.disk)
  {
    match step {
      case Read(peer, writes) => DeliverGrows(s, peer, writes);
      case Receive(peer, received, save, writes) =>
        ReceiveGrows(s, peer, received, save, writes);
      case Handle(r, write) => HandleGrows(s, r, write);
      case Join(peer, pinned, write) => RegistrationGrows(s, peer, pinned, write);
      case Leave(peer, write) => RegistrationGrows(s, peer, false, write);
      case _ =>
    }
  }

  /** Delivery is lossless: once the file holds an identity, no crash, failed write or handler makes
      it forget it, and none un-acknowledges it. */
  lemma {:induction false} NothingIsLost(s: Inbox, steps: seq<Step>)
    requires Inv(s)
    ensures Grows(s.journal.disk, Run(s, steps).journal.disk)
    decreases |steps|
  {
    if steps != [] {
      StepGrows(s, steps[0]);
      StepKeepsInv(s, steps[0]);
      NothingIsLost(Next(s, steps[0]), steps[1..]);
    }
  }

  /** Every identity is exactly one of acknowledged, durably pending and still discoverable; pending
      identities do not repeat and stay within 32 a peer and 1024 in all. */
  lemma EveryIdentityIsInOnePlace(steps: seq<Step>, peer: string, id: MessageId)
    ensures var r := Run(INITIAL, steps).journal.disk;
            && RecordsOk(r)
            && (if Acknowledged(r, peer, id) then !Pending(r, peer, id) && !Discoverable(r, peer, id)
                else Pending(r, peer, id) <==> !Discoverable(r, peer, id))
    ensures var r := Run(INITIAL, steps).journal.disk;
            && |RecordOf(r, peer).pending| <= MAX_PENDING_PER_PEER
            && DistinctIds(RecordOf(r, peer).pending)
            && Total(r) <= MAX_PENDING
  {
    InitiallyInv();
    RunKeepsInv(INITIAL, steps);
    var r := Run(INITIAL, steps).journal.disk;
    if peer in r {
      assert RecordOk(r[peer]);
    }
  }

  /** An identity all of whose received bodies were authentic and decodable is acknowledged only by
      a handler that held its receipt. */
  lemma AcknowledgedOnlyThroughAReceipt(steps: seq<Step>, peer: string, id: MessageId)
    requires Acknowledged(Run(INITIAL, steps).journal.disk, peer, id)
    requires forall m | (peer, m) in Run(INITIAL, steps).history && m.id == id :: Deliverable(peer, m)
    ensures (peer, id) in Run(INITIAL, steps).handled
  {
    InitiallyInv();
    RunKeepsInv(INITIAL, steps);
  }

  // ----- acknowledged means never delivered again -----

  lemma {:induction false} DeliverFromGivesPending(s: Inbox, peer: string, pending: seq<Message>,
                                                   writes: seq<Write>, given: seq<Receipt>, r: Receipt)
    requires r in DeliverFrom(s, peer, pending, writes, given).0.receipts && r !in s.receipts
    ensures r.peer == peer && exists m :: m in pending && m.id == r.id
    decreases |pending|
  {
    if pending != [] {
      var m := pending[0];
      assert m in pending;
      if m.id in s.leases || m.body.None? {
        DeliverFromGivesPending(s, peer, pending[1..], writes, given, r);
      } else if !Deliverable(peer, m) {
        var write := NextWrite(writes);
        var saved := s.(journal := s.journal.Commit(Acknowledge(s.journal.memory, peer, {m.id}), write));
        if write.Saved? {
          DeliverFromGivesPending(saved, peer, pending[1..], LaterWrites(writes), given, r);
        } else {
          ForgetAllOnlyRemoves(saved, given);
        }
      } else if r != Receipt(peer, m.id, s.nextLease) {
        DeliverFromGivesPending(Lease(s, peer, m.id), peer, pending[1..], writes,
                                given + [Receipt(peer, m.id, s.nextLease)], r);
      }
    }
  }

  lemma {:induction false} ForgetAllOnlyRemoves(s: Inbox, given: seq<Receipt>)
    ensures ForgetAll(s, given).receipts <= s.receipts
    decreases |given|
  {
    if given != [] {
      ForgetAllOnlyRemoves(Forget(s, given[0]), given[1..]);
    }
  }

  /** No step hands out a receipt for an identity the file already holds as acknowledged. */
  lemma StepNeverRedelivers(s: Inbox, step: Step, r: Receipt)
    requires Inv(s) && r in Next(s, step).receipts && r !in s.receipts
    ensures !Acknowledged(s.journal.disk, r.peer, r.id)
  {
    var reading := if step.Read? then s
                   else
                     Take(Seen(s, step.peer, step.received),
                          step.peer, step.received, step.save);
    var memory := reading.journal.memory;
    assert !reading.journal.failed;
    DeliverFromGivesPending(reading, step.peer, RecordOf(memory, step.peer).pending, step.writes, [], r);
    if step.Receive? {
      RememberKeepsOk(s.journal.memory, step.peer, step.received);
      ChangesGrow(s.journal.memory, step.peer, step.received, {}, false);
    }
    assert RecordsOk(memory) && Pending(memory, r.peer, r.id);
  }

  /** Once acknowledged on disk, never delivered again: not by any later step of any run. */
  lemma AcknowledgedIsNeverRedelivered(before: seq<Step>, after: seq<Step>, step: Step, r: Receipt)
    requires Acknowledged(Run(INITIAL, before).journal.disk, r.peer, r.id)
    requires var s := Run(Run(INITIAL, before), after); r !in s.receipts
    ensures var s := Run(Run(INITIAL, before), after); r !in Next(s, step).receipts
  {
    InitiallyInv();
    RunKeepsInv(INITIAL, before);
    NothingIsLost(Run(INITIAL, before), after);
    RunKeepsInv(Run(INITIAL, before), after);
    var s := Run(Run(INITIAL, before), after);
    if r in Next(s, step).receipts {
      StepNeverRedelivers(s, step, r);
    }
  }

  // ----- leases -----

  /** An identity has at most one receipt holding its current lease. */
  lemma LeasesAreExclusive(steps: seq<Step>, a: Receipt, b: Receipt)
    requires var s := Run(INITIAL, steps);
             && a in s.receipts && b in s.receipts && a.id == b.id && a.id in s.leases
             && s.leases[a.id] == a.lease && s.leases[b.id] == b.lease
    ensures a == b
  {
    InitiallyInv();
    RunKeepsInv(INITIAL, steps);
  }

  /** Dropping, releasing or acknowledging a receipt whose lease is no longer current leaves every
      lease as it was. */
  lemma StaleReceiptsFreeNothing(s: Inbox, r: Receipt, write: Write)
    requires !(r.id in s.leases && s.leases[r.id] == r.lease)
    ensures Next(s, DropReceipt(r)).leases == s.leases
    ensures Next(s, Release(r)).leases == s.leases
    ensures Next(s, Handle(r, write)).leases == s.leases
  {
  }

  /** Once every receipt is gone no lease is left. */
  lemma NoReceiptsNoLeases(steps: seq<Step>)
    requires Run(INITIAL, steps).receipts == {}
    ensures Run(INITIAL, steps).leases == map[]
  {
    InitiallyInv();
    RunKeepsInv(INITIAL, steps);
    var s := Run(INITIAL, steps);
    assert forall id :: id !in s.leases;
    assert s.leases.Keys == {};
  }

  /** Given a message that could be delivered, it is, unless the delivery fails. */
  lemma {:induction false} DeliverFromGivesEach(s: Inbox, peer: string, pending: seq<Message>,
                                                writes: seq<Write>, given: seq<Receipt>, m: Message)
    requires DistinctIds(pending) && m in pending && Deliverable(peer, m) && m.id !in s.leases
    ensures var d := DeliverFrom(s, peer, pending, writes, given).1;
            d.Given? ==> exists r :: r in d.receipts && r.peer == peer && r.id == m.id
    decreases |pending|
  {
    var first := pending[0];
    if first == m {
      var r := Receipt(peer, m.id, s.nextLease);
      DeliverFromKeepsGiven(Lease(s, peer, m.id), peer, pending[1..], writes, given + [r], r);
    } else {
      assert m in pending[1..];
      var i :| 0 <= i < |pending[1..]| && pending[1..][i] == m;
      assert pending[0].id != pending[i + 1].id;
      if first.id in s.leases || first.body.None? {
        DeliverFromGivesEach(s, peer, pending[1..], writes, given, m);
      } else if !Deliverable(peer, first) {
        var write := NextWrite(writes);
        if write.Saved? {
          DeliverFromGivesEach(
            s.(journal := s.journal.Commit(Acknowledge(s.journal.memory, peer, {first.id}), write)),
            peer, pending[1..], LaterWrites(writes), given, m);
        }
      } else {
        DeliverFromGivesEach(Lease(s, peer, first.id), peer, pending[1..], writes,
                             given + [Receipt(peer, first.id, s.nextLease)], m);
      }
    }
  }

  lemma {:induction false} DeliverFromKeepsGiven(s: Inbox, peer: string, pending: seq<Message>,
                                                 writes: seq<Write>, given: seq<Receipt>, r: Receipt)
    requires r in given
    ensures var d := DeliverFrom(s, peer, pending, writes, given).1; d.Given? ==> r in d.receipts
    decreases |pending|
  {
    if pending != [] {
      var m := pending[0];
      if m.id in s.leases || m.body.None? {
        DeliverFromKeepsGiven(s, peer, pending[1..], writes, given, r);
      } else if !Deliverable(peer, m) {
        var write := NextWrite(writes);
        if write.Saved? {
          DeliverFromKeepsGiven(
            s.(journal := s.journal.Commit(Acknowledge(s.journal.memory, peer, {m.id}), write)),
            peer, pending[1..], LaterWrites(writes), given, r);
        }
      } else {
        DeliverFromKeepsGiven(Lease(s, peer, m.id), peer, pending[1..], writes,
                              given + [Receipt(peer, m.id, s.nextLease)], r);
      }
    }
  }

  /** Leases do not leak: once all receipts are gone, the next read of a healthy journal delivers
      every pending message that can be delivered. */
  lemma EverythingPendingIsDeliverableAgain(steps: seq<Step>, peer: string, writes: seq<Write>,
                                            m: Message)
    requires var s := Run(INITIAL, steps);
             && s.receipts == {} && !s.journal.failed
             && m in RecordOf(s.journal.memory, peer).pending && Deliverable(peer, m)
    ensures var d := Deliver(Run(INITIAL, steps), peer, writes).1;
            d.Given? ==> exists r :: r in d.receipts && r.peer == peer && r.id == m.id
  {
    InitiallyInv();
    RunKeepsInv(INITIAL, steps);
    NoReceiptsNoLeases(steps);
    var s := Run(INITIAL, steps);
    assert RecordOk(s.journal.memory[peer]);
    DeliverFromGivesEach(s, peer, RecordOf(s.journal.memory, peer).pending, writes, [], m);
  }

  // ----- a delivery that fails halfway -----

  function LeasedIds(given: seq<Receipt>): set<MessageId> {
    set r | r in given :: r.id
  }

  ghost predicate Current(s: Inbox, given: seq<Receipt>) {
    && (forall r | r in given :: r in s.receipts && r.id in s.leases && s.leases[r.id] == r.lease)
    && (forall i, j | 0 <= i < j < |given| :: given[i].id != given[j].id)
  }

  lemma ForgetKeepsOthersCurrent(s: Inbox, given: seq<Receipt>)
    requires given != [] && Current(s, given)
    ensures Current(Forget(s, given[0]), given[1..])
  {
    var rest := given[1..];
    forall r | r in rest
      ensures r in s.receipts && r.id in s.leases && s.leases[r.id] == r.lease && r.id != given[0].id
    {
      var i :| 0 <= i < |rest| && rest[i] == r;
      assert r == given[i + 1];
    }
  }

  lemma {:induction false} ForgetAllRemoves(s: Inbox, given: seq<Receipt>)
    requires Current(s, given)
    ensures ForgetAll(s, given).leases == s.leases - LeasedIds(given)
    ensures ForgetAll(s, given).receipts == s.receipts - set r | r in given
    decreases |given|
  {
    if given == [] {
      assert s.leases - LeasedIds(given) == s.leases;
    } else {
      var rest := given[1..];
      ForgetKeepsOthersCurrent(s, given);
      ForgetAllRemoves(Forget(s, given[0]), rest);
      assert forall r :: r in given <==> r == given[0] || r in rest;
      assert s.leases - {given[0].id} - LeasedIds(rest) == s.leases - LeasedIds(given);
    }
  }

  lemma {:induction false} DeliverFromUndoes(s: Inbox, peer: string, pending: seq<Message>,
                                             writes: seq<Write>, given: seq<Receipt>)
    requires Current(s, given) && forall r | r in s.receipts :: r.lease < s.nextLease
    requires DeliverFrom(s, peer, pending, writes, given).1.DeliveryFailed?
    ensures var after := DeliverFrom(s, peer, pending, writes, given).0;
            && after.leases == s.leases - LeasedIds(given)
            && after.receipts == s.receipts - set r | r in given
    decreases |pending|
  {
    if pending != [] {
      var m := pending[0];
      if m.id in s.leases || m.body.None? {
        DeliverFromUndoes(s, peer, pending[1..], writes, given);
      } else if !Deliverable(peer, m) {
        var write := NextWrite(writes);
        var saved := s.(journal := s.journal.Commit(Acknowledge(s.journal.memory, peer, {m.id}), write));
        if write.Saved? {
          DeliverFromUndoes(saved, peer, pending[1..], LaterWrites(writes), given);
        } else {
          ForgetAllRemoves(saved, given);
        }
      } else {
        var r := Receipt(peer, m.id, s.nextLease);
        DeliverFromUndoes(Lease(s, peer, m.id), peer, pending[1..], writes, given + [r]);
        assert LeasedIds(given + [r]) == LeasedIds(given) + {m.id};
        assert s.leases[m.id := s.nextLease] - LeasedIds(given + [r]) == s.leases - LeasedIds(given);
      }
    }
  }

  /** A delivery whose write fails halfway takes back every lease and receipt it had made, and no
      other. */
  lemma FailedDeliveryLeavesNoLease(s: Inbox, peer: string, writes: seq<Write>)
    requires Inv(s) && Deliver(s, peer, writes).1.DeliveryFailed?
    ensures var after := Deliver(s, peer, writes).0;
            after.leases == s.leases && after.receipts == s.receipts
  {
    if !s.journal.failed {
      DeliverFromUndoes(s, peer, RecordOf(s.journal.memory, peer).pending, writes, []);
      assert s.leases - LeasedIds([]) == s.leases;
    }
  }
}
