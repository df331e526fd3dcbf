/** The receive journal as a value: pending bodies and acknowledged identities, peer by peer. */
module ReceiveJournal {
  import opened Durability

  const MAX_PENDING := 1024
  const MAX_PENDING_PER_PEER := 32
  const MAX_REGISTERED_PEERS := 1024

  datatype MessageId = MessageId(publisher: string, url: string)

  /** A decrypted body. `decodes` says whether the content parses as the message type polled for. */
  datatype Body = Body(verified: bool, sender: string, content: string, decodes: bool)

  datatype Message = Message(id: MessageId, body: Option<Body>)

  datatype PeerRecord = PeerRecord(
    registered: bool,
    pinned: bool,
    acknowledged: set<MessageId>,
    pending: seq<Message>)

  type Records = map<string, PeerRecord>

  const BLANK := PeerRecord(false, false, {}, [])

  function RecordOf(r: Records, peer: string): PeerRecord {
    if peer in r then r[peer] else BLANK
  }

  function Ids(messages: seq<Message>): set<MessageId> {
    set m | m in messages :: m.id
  }

  // ----- capacity -----

  ghost function Total(r: Records): nat
    decreases |r|
  {
    if r == map[] then 0
    else
      var p :| p in r;
      |r[p].pending| + Total(r - {p})
  }

  ghost function Available(r: Records, peer: string): nat {
    Min(SaturatingSub(MAX_PENDING, Total(r)),
        SaturatingSub(MAX_PENDING_PER_PEER, |RecordOf(r, peer).pending|))
  }

  // ----- remembering what was received -----

  datatype Sifted = Sifted(pending: seq<Message>, discarded: seq<Message>) {
    predicate Nothing() {
      pending == [] && discarded == []
    }
  }

  predicate Known(existing: PeerRecord, sifted: Sifted, id: MessageId) {
    || id in existing.acknowledged
    || (exists m | m in existing.pending :: m.id == id)
    || (exists m | m in sifted.pending :: m.id == id)
    || (exists m | m in sifted.discarded :: m.id == id)
  }

  /** What one received message adds: nothing if it is known, else a discarded identity if it has no
      body, else a pending body while there is room. */
  function SiftOne(existing: PeerRecord, available: nat, m: Message, sifted: Sifted): Sifted {
    if Known(existing, sifted, m.id) then sifted
    else if m.body.None? then sifted.(discarded := sifted.discarded + [m])
    else if |sifted.pending| < available then sifted.(pending := sifted.pending + [m])
    else sifted
  }

  function Sift(existing: PeerRecord, available: nat, received: seq<Message>, sifted: Sifted): Sifted {
    if received == [] then sifted
    else Sift(existing, available, received[1..], SiftOne(existing, available, received[0], sifted))
  }

  function Admit(r: Records, peer: string, sifted: Sifted): Records {
    var record := RecordOf(r, peer);
    r[peer := record.(pending := record.pending + sifted.pending,
                      acknowledged := record.acknowledged + Ids(sifted.discarded))]
  }

  ghost function Fresh(r: Records, peer: string, received: seq<Message>): Sifted {
    Sift(RecordOf(r, peer), Available(r, peer), received, Sifted([], []))
  }

  ghost function Remember(r: Records, peer: string, received: seq<Message>): Records {
    var sifted := Fresh(r, peer, received);
    if sifted.Nothing() then r else Admit(r, peer, sifted)
  }

  // ----- acknowledging and registering -----

  function Unacknowledged(pending: seq<Message>, ids: set<MessageId>): (kept: seq<Message>)
    ensures |kept| <= |pending|
    ensures forall m :: m in kept <==> m in pending && m.id !in ids
  {
    if pending == [] then []
    else if pending[0].id in ids then Unacknowledged(pending[1..], ids)
    else [pending[0]] + Unacknowledged(pending[1..], ids)
  }

  function Acknowledge(r: Records, peer: string, ids: set<MessageId>): Records {
    var record := RecordOf(r, peer);
    r[peer := record.(acknowledged := record.acknowledged + ids,
                      pending := Unacknowledged(record.pending, ids))]
  }

  function Listed(r: Records): set<string> {
    set p | p in r && (r[p].registered || r[p].pending != [])
  }

  datatype Registered = AlreadyRegistered | Full | Writes

  /** Whether registering a peer writes: not when nothing would change, and not beyond 1024 peers. */
  function Registration(r: Records, peer: string, pinned: bool): Registered {
    var record := RecordOf(r, peer);
    if record.registered && (!pinned || record.pinned) then AlreadyRegistered
    else if !record.registered && |Listed(r)| >= MAX_REGISTERED_PEERS then Full
    else Writes
  }

  /** A peer with undelivered work is not unregistered. */
  predicate CanUnregister(r: Records, peer: string) {
    RecordOf(r, peer).pending == []
  }

  function Register(r: Records, peer: string, pinned: bool): Records {
    var record := RecordOf(r, peer);
    r[peer := record.(registered := true, pinned := record.pinned || pinned)]
  }

  function Unregister(r: Records, peer: string): Records {
    if peer in r then r[peer := r[peer].(registered := false)] else r
  }

  // ----- laws -----

  ghost predicate DistinctIds(messages: seq<Message>) {
    forall i, j | 0 <= i < j < |messages| :: messages[i].id != messages[j].id
  }

  ghost predicate RecordOk(record: PeerRecord) {
    && |record.pending| <= MAX_PENDING_PER_PEER
    && DistinctIds(record.pending)
    && Ids(record.pending) !! record.acknowledged
  }

  /** Bounded, without repeats, and never both pending and acknowledged. */
  ghost predicate RecordsOk(r: Records) {
    && (forall p | p in r :: RecordOk(r[p]))
    && Total(r) <= MAX_PENDING
  }

  lemma {:induction false} TotalRemove(r: Records, p: string)
    requires p in r
    ensures Total(r) == |r[p].pending| + Total(r - {p})
    decreases |r|
  {
    var q :| q in r && Total(r) == |r[q].pending| + Total(r - {q});
    if q != p {
      TotalRemove(r - {q}, p);
      TotalRemove(r - {p}, q);
      assert r - {q} - {p} == r - {p} - {q};
    }
  }

  lemma TotalUpdate(r: Records, p: string, record: PeerRecord)
    ensures Total(r[p := record]) == Total(r) - |RecordOf(r, p).pending| + |record.pending|
  {
    var after := r[p := record];
    TotalRemove(after, p);
    assert after - {p} == r - {p};
    if p in r {
      TotalRemove(r, p);
    } else {
      assert r - {p} == r;
    }
  }

  ghost predicate SiftedOk(existing: PeerRecord, available: nat, sifted: Sifted) {
    && |sifted.pending| <= available
    && DistinctIds(existing.pending + sifted.pending)
    && Ids(sifted.pending) !! existing.acknowledged
    && Ids(sifted.discarded) !! (Ids(existing.pending) + Ids(sifted.pending))
  }

  lemma SiftOneOk(existing: PeerRecord, available: nat, m: Message, sifted: Sifted)
    requires SiftedOk(existing, available, sifted)
    ensures SiftedOk(existing, available, SiftOne(existing, available, m, sifted))
  {
    var after := SiftOne(existing, available, m, sifted);
    if !Known(existing, sifted, m.id) {
      if after.pending != sifted.pending {
        var all := existing.pending + sifted.pending;
        assert existing.pending + after.pending == all + [m];
        forall i | 0 <= i < |all|
          ensures all[i].id != m.id
        {
          assert all[i] in existing.pending || all[i] in sifted.pending;
        }
      }
    }
  }

  lemma {:induction false} SiftOk(existing: PeerRecord, available: nat, received: seq<Message>,
                                  sifted: Sifted)
    requires SiftedOk(existing, available, sifted)
    ensures SiftedOk(existing, available, Sift(existing, available, received, sifted))
    decreases |received|
  {
    if received != [] {
      SiftOneOk(existing, available, received[0], sifted);
      SiftOk(existing, available, received[1..], SiftOne(existing, available, received[0], sifted));
    }
  }

  /** Where sifted messages come from: only what was received, and discarded only without a body. */
  lemma {:induction false} SiftOrigin(existing: PeerRecord, available: nat, received: seq<Message>,
                                      sifted: Sifted)
    ensures var after := Sift(existing, available, received, sifted);
            && (forall m | m in after.pending :: m in sifted.pending || m in received)
            && (forall m | m in after.discarded ::
                  m in sifted.discarded || (m in received && m.body.None?))
    decreases |received|
  {
    if received != [] {
      SiftOrigin(existing, available, received[1..],
                 SiftOne(existing, available, received[0], sifted));
    }
  }

  lemma RecordKeepsOk(r: Records, peer: string, record: PeerRecord)
    requires RecordsOk(r) && RecordOk(record)
    requires |record.pending| <= |RecordOf(r, peer).pending|
             || Total(r) - |RecordOf(r, peer).pending| + |record.pending| <= MAX_PENDING
    ensures RecordsOk(r[peer := record])
  {
    TotalUpdate(r, peer, record);
  }

  /** Admission stays within 32 pending bodies a peer and 1024 in all, whatever else was admitted
      since this read measured its room. */
  lemma RememberKeepsOk(r: Records, peer: string, received: seq<Message>)
    requires RecordsOk(r)
    ensures RecordsOk(Remember(r, peer, received))
  {
    var existing := RecordOf(r, peer);
    var available := Available(r, peer);
    assert existing.pending + [] == existing.pending;
    SiftOk(existing, available, received, Sifted([], []));
    var sifted := Sift(existing, available, received, Sifted([], []));
    if sifted.pending != [] || sifted.discarded != [] {
      var record := existing.(pending := existing.pending + sifted.pending,
                              acknowledged := existing.acknowledged + Ids(sifted.discarded));
      assert Ids(record.pending) == Ids(existing.pending) + Ids(sifted.pending);
      TotalAtLeast(r, peer);
      RecordKeepsOk(r, peer, record);
    }
  }

  lemma TotalAtLeast(r: Records, peer: string)
    ensures |RecordOf(r, peer).pending| <= Total(r)
  {
    if peer in r {
      TotalRemove(r, peer);
    }
  }

  lemma {:induction false} UnacknowledgedDistinct(pending: seq<Message>, ids: set<MessageId>)
    requires DistinctIds(pending)
    ensures DistinctIds(Unacknowledged(pending, ids))
  {
    if pending != [] {
      var rest := pending[1..];
      UnacknowledgedDistinct(rest, ids);
      forall m | m in Unacknowledged(rest, ids)
        ensures m.id != pending[0].id
      {
        assert m in rest;
        var i :| 0 <= i < |rest| && rest[i] == m;
        assert pending[i + 1] == m;
      }
    }
  }

  lemma AcknowledgeKeepsOk(r: Records, peer: string, ids: set<MessageId>)
    requires RecordsOk(r)
    ensures RecordsOk(Acknowledge(r, peer, ids))
  {
    var record := RecordOf(r, peer);
    UnacknowledgedDistinct(record.pending, ids);
    RecordKeepsOk(r, peer, record.(acknowledged := record.acknowledged + ids,
                                   pending := Unacknowledged(record.pending, ids)));
  }

  lemma RegistrationKeepsOk(r: Records, peer: string, pinned: bool)
    requires RecordsOk(r)
    ensures RecordsOk(Register(r, peer, pinned)) && RecordsOk(Unregister(r, peer))
  {
    var record := RecordOf(r, peer);
    RecordKeepsOk(r, peer, record.(registered := true, pinned := record.pinned || pinned));
    RecordKeepsOk(r, peer, record.(registered := false));
  }

  // ----- every identity is in one place -----

  ghost predicate Acknowledged(r: Records, peer: string, id: MessageId) {
    id in RecordOf(r, peer).acknowledged
  }

  ghost predicate Pending(r: Records, peer: string, id: MessageId) {
    id in Ids(RecordOf(r, peer).pending)
  }

  /** What a discovery may still return for this peer: it is handed the acknowledged identities
      together with the pending ones. */
  ghost predicate Discoverable(r: Records, peer: string, id: MessageId) {
    !(id in RecordOf(r, peer).acknowledged + Ids(RecordOf(r, peer).pending))
  }

  ghost predicate Admitted(r: Records, peer: string, id: MessageId) {
    Acknowledged(r, peer, id) || Pending(r, peer, id)
  }

  /** No journal change takes an identity back: what was admitted stays pending or acknowledged, and
      what was acknowledged stays acknowledged. */
  ghost predicate Grows(r: Records, after: Records) {
    forall peer, id ::
      && (Admitted(r, peer, id) ==> Admitted(after, peer, id))
      && (Acknowledged(r, peer, id) ==> Acknowledged(after, peer, id))
  }

  lemma ChangesGrow(r: Records, peer: string, received: seq<Message>, ids: set<MessageId>, pinned: bool)
    ensures Grows(r, Remember(r, peer, received))
    ensures Grows(r, Acknowledge(r, peer, ids))
    ensures Grows(r, Register(r, peer, pinned))
    ensures Grows(r, Unregister(r, peer))
  {
    forall other, id | Pending(r, other, id)
      ensures Admitted(Acknowledge(r, peer, ids), other, id)
    {
      var m :| m in RecordOf(r, other).pending && m.id == id;
      if id !in ids {
        assert other == peer ==> m in Unacknowledged(RecordOf(r, peer).pending, ids);
      }
    }
  }
}
