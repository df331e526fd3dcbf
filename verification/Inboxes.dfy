/** The receive journal and the leased inbox as the objects that the polling tasks and message
    handlers share. */
module Inboxes {
  import opened Durability
  import opened ReceiveJournal
  import opened InboxProtocol

  datatype Saving = Done | Unhealthy | CapacityReached | SaveFailed

  /** The discovered identities that the peer published itself, in order. */
  function Own(peer: string, found: seq<MessageId>): (own: seq<MessageId>)
    ensures forall id :: id in own <==> id in found && id.publisher == peer
  {
    if found == [] then []
    else
      var last := found[|found| - 1];
      assert found == found[..|found| - 1] + [last];
      Own(peer, found[..|found| - 1]) + if last.publisher == peer then [last] else []
  }

  /** As many of them, from the first, as there is room for. */
  function Selected(peer: string, found: seq<MessageId>, room: nat): seq<MessageId> {
    Own(peer, found)[..Min(room, |Own(peer, found)|)]
  }

  /** Nothing is passed over: an own identity is left out only when the room is used up. */
  lemma SelectedMissesNothing(peer: string, found: seq<MessageId>, room: nat, id: MessageId)
    requires id in found && id.publisher == peer && |Selected(peer, found, room)| < room
    ensures id in Selected(peer, found, room)
  {
    assert Selected(peer, found, room) == Own(peer, found);
  }

  lemma {:induction false} OwnGrows(peer: string, found: seq<MessageId>, i: nat)
    requires i <= |found|
    ensures Own(peer, found[..i]) <= Own(peer, found)
  {
    if i == |found| {
      assert found[..i] == found;
    } else {
      var shorter := found[..|found| - 1];
      OwnGrows(peer, shorter, i);
      assert shorter[..i] == found[..i];
    }
  }

  lemma OwnNext(peer: string, found: seq<MessageId>, i: nat)
    requires i < |found|
    ensures Own(peer, found[..i + 1])
            == Own(peer, found[..i]) + if found[i].publisher == peer then [found[i]] else []
  {
    assert found[..i + 1][..i] == found[..i];
  }

  lemma EnoughIsSelected(peer: string, found: seq<MessageId>, i: nat)
    requires i <= |found|
    ensures Own(peer, found[..i]) == Selected(peer, found, |Own(peer, found[..i])|)
  {
    OwnGrows(peer, found, i);
  }

  lemma {:induction false} UnacknowledgedNext(head: seq<Message>, m: Message, ids: set<MessageId>)
    ensures Unacknowledged(head + [m], ids)
            == Unacknowledged(head, ids) + if m.id in ids then [] else [m]
  {
    if head == [] {
      assert head + [m] == [m];
      assert Unacknowledged([m][1..], ids) == [];
    } else {
      var rest := Unacknowledged(head[1..], ids);
      var next := if m.id in ids then [] else [m];
      assert (head + [m])[1..] == head[1..] + [m];
      UnacknowledgedNext(head[1..], m, ids);
      assert [head[0]] + (rest + next) == [head[0]] + rest + next;
    }
  }

  lemma {:induction false} SiftSplit(existing: PeerRecord, available: nat, head: seq<Message>,
                                     m: Message, sifted: Sifted)
    ensures Sift(existing, available, head + [m], sifted)
            == SiftOne(existing, available, m, Sift(existing, available, head, sifted))
    decreases |head|
  {
    if head == [] {
      assert head + [m] == [m];
      assert [m][1..] == [];
    } else {
      assert (head + [m])[1..] == head[1..] + [m];
      SiftSplit(existing, available, head[1..], m, SiftOne(existing, available, head[0], sifted));
    }
  }

  class Journal {
    /** Whose mailbox this journal was opened for, once it has been saved. */
    const owner: Option<string>
    var records: Records
    /** What the journal file holds. */
    var file: Records
    var writeFailed: bool

    ghost function View(): Durable<Records>
      reads this
    {
      Durable(records, file, writeFailed)
    }

    constructor (saved: Records, owner: Option<string>)
      ensures View() == Durable(saved, saved, false) && this.owner == owner
    {
      this.owner := owner;
      records := saved;
      file := saved;
      writeFailed := false;
    }

    /** Replace the file, then memory. A failed write is remembered and stops everything after. */
    method Update(next: Records, write: Write) returns (r: Saving)
      requires !writeFailed
      modifies this
      ensures View() == old(View()).Commit(next, write)
      ensures r == if write.Saved? then Done else SaveFailed
    {
      match write {
        case Saved =>
          file := next;
          records := next;
          return Done;
        case FailedOld =>
          writeFailed := true;
          return SaveFailed;
        case FailedNew =>
          file := next;
          writeFailed := true;
          return SaveFailed;
      }
    }

    predicate Serves(own: string)
      reads this
    {
      !writeFailed && (owner.None? || owner.value == own)
    }

    method Register(peer: string, pinned: bool, write: Write) returns (r: Saving)
      modifies this
      ensures r.Unhealthy? <==> old(writeFailed)
      ensures !old(writeFailed) && Registration(old(records), peer, pinned).Writes? ==>
                View() == old(View()).Commit(ReceiveJournal.Register(old(records), peer, pinned), write)
                && r == if write.Saved? then Done else SaveFailed
      ensures old(writeFailed) || !Registration(old(records), peer, pinned).Writes? ==>
                View() == old(View())
      ensures r.CapacityReached? <==>
                !old(writeFailed) && Registration(old(records), peer, pinned).Full?
    {
      if writeFailed {
        return Unhealthy;
      }
      var record := RecordOf(records, peer);
      if record.registered && (!pinned || record.pinned) {
        return Done;
      }
      if !record.registered && |Listed(records)| >= MAX_REGISTERED_PEERS {
        return CapacityReached;
      }
      r := Update(records[peer := record.(registered := true, pinned := record.pinned || pinned)], write);
    }

    method Unregister(peer: string, write: Write) returns (r: Saving, removed: bool)
      modifies this
      ensures r.Unhealthy? <==> old(writeFailed)
      ensures removed <==> !old(writeFailed) && CanUnregister(old(records), peer) && write.Saved?
      ensures View() == if old(writeFailed) || !CanUnregister(old(records), peer) then old(View())
                        else old(View()).Commit(ReceiveJournal.Unregister(old(records), peer), write)
    {
      if writeFailed {
        return Unhealthy, false;
      }
      if RecordOf(records, peer).pending != [] {
        return Done, false;
      }
      var next := records;
      if peer in next {
        next := next[peer := next[peer].(registered := false)];
      }
      r := Update(next, write);
      removed := r.Done?;
    }

    /** Pending bodies are counted over every peer, in whatever order the map gives them. */
    method Room(peer: string) returns (n: nat)
      ensures n == Available(records, peer)
    {
      var total := 0;
      var rest := records;
      while rest.Keys != {}
        invariant total + Total(rest) == Total(records)
        decreases |rest|
      {
        var p :| p in rest.Keys;
        TotalRemove(rest, p);
        total := total + |rest[p].pending|;
        rest := rest - {p};
      }
      n := Min(SaturatingSub(MAX_PENDING, total),
               SaturatingSub(MAX_PENDING_PER_PEER, |RecordOf(records, peer).pending|));
    }

    method Remember(peer: string, received: seq<Message>, write: Write) returns (r: Saving)
      modifies this
      ensures r.Unhealthy? <==> old(writeFailed)
      ensures old(writeFailed) || Fresh(old(records), peer, received).Nothing() ==>
                View() == old(View()) && (r.Done? || old(writeFailed))
      ensures !old(writeFailed) && !Fresh(old(records), peer, received).Nothing() ==>
                View() == old(View()).Commit(ReceiveJournal.Remember(old(records), peer, received), write)
                && r == if write.Saved? then Done else SaveFailed
    {
      if writeFailed {
        return Unhealthy;
      }
      var existing := RecordOf(records, peer);
      var available := Room(peer);
      var sifted := Sifted([], []);
      for i := 0 to |received|
        invariant View() == old(View())
        invariant sifted == Sift(existing, available, received[..i], Sifted([], []))
      {
        var m := received[i];
        SiftSplit(existing, available, received[..i], m, Sifted([], []));
        assert received[..i + 1] == received[..i] + [m];
        if Known(existing, sifted, m.id) {
          continue;
        }
        if m.body.None? {
          sifted := sifted.(discarded := sifted.discarded + [m]);
        } else if |sifted.pending| < available {
          sifted := sifted.(pending := sifted.pending + [m]);
        }
      }
      assert received[..|received|] == received;
      if sifted.pending == [] && sifted.discarded == [] {
        return Done;
      }
      r := Update(Admit(records, peer, sifted), write);
    }

    static method Kept(pending: seq<Message>, ids: seq<MessageId>) returns (kept: seq<Message>)
      ensures kept == Unacknowledged(pending, set id | id in ids)
    {
      kept := [];
      for i := 0 to |pending|
        invariant kept == Unacknowledged(pending[..i], set id | id in ids)
      {
        var m := pending[i];
        UnacknowledgedNext(pending[..i], m, set id | id in ids);
        assert pending[..i + 1] == pending[..i] + [m];
        if m.id !in ids {
          kept := kept + [m];
        }
      }
      assert pending[..|pending|] == pending;
    }

    method Acknowledge(peer: string, ids: seq<MessageId>, write: Write) returns (r: Saving)
      modifies this
      ensures r.Unhealthy? <==> old(writeFailed)
      ensures old(writeFailed) || ids == [] ==> View() == old(View()) && (r.Done? || old(writeFailed))
      ensures !old(writeFailed) && ids != [] ==>
                View() == old(View()).Commit(
                            ReceiveJournal.Acknowledge(old(records), peer, set id | id in ids), write)
                && r == if write.Saved? then Done else SaveFailed
    {
      if writeFailed {
        return Unhealthy;
      }
      if ids == [] {
        return Done;
      }
      var record := RecordOf(records, peer);
      var acknowledged := record.acknowledged;
      for i := 0 to |ids|
        invariant acknowledged == record.acknowledged + set id | id in ids[..i]
      {
        acknowledged := acknowledged + {ids[i]};
      }
      assert ids[..|ids|] == ids;
      var kept := Kept(record.pending, ids);
      r := Update(records[peer := record.(acknowledged := acknowledged, pending := kept)], write);
    }
  }

  datatype Entry = WrongOwner | Unregistered | Entered

  /** How far a read got before its first network call. */
  datatype Start =
    | Ready(held: Delivery)
    | NoRoom
    | Discover(known: set<MessageId>, room: nat)

  /** `Receipts` are those still held by some handler; `Handled` and `History` record the handlers'
      acknowledgments and everything retrieved. */
  class Inboxes {
    const journal: Journal
    var leases: map<MessageId, nat>
    var nextLease: nat
    /** The slots on which the reads of one peer queue, and how many reads hold each. */
    var polls: map<string, nat>
    ghost var Receipts: set<Receipt>
    ghost var Handled: set<(string, MessageId)>
    ghost var History: set<(string, Message)>

    ghost function View(): Inbox
      reads this, journal
    {
      Inbox(journal.View(), leases, nextLease, Receipts, Handled, History)
    }

    function Readers(peer: string): nat
      reads this
    {
      if peer in polls then polls[peer] else 0
    }

    constructor (saved: Records, owner: Option<string>)
      ensures fresh(journal) && journal.owner == owner
      ensures View() == Inbox(Durable(saved, saved, false), map[], 0, {}, {}, {}) && polls == map[]
    {
      journal := new Journal(saved, owner);
      leases := map[];
      nextLease := 0;
      polls := map[];
      Receipts := {};
      Handled := {};
      History := {};
    }

    method Unlease(r: Receipt)
      modifies this`leases
      ensures leases == InboxProtocol.Unlease(old(leases), r)
    {
      if r.id in leases && leases[r.id] == r.lease {
        leases := leases - {r.id};
      }
    }

    /** The receipt went out of scope. */
    method Drop(r: Receipt)
      modifies this`leases, this`Receipts
      ensures View() == Forget(old(View()), r)
    {
      Unlease(r);
      Receipts := Receipts - {r};
    }

    method Release(r: Receipt)
      modifies this`leases
      ensures View() == old(View()).(leases := InboxProtocol.Unlease(old(leases), r))
    {
      Unlease(r);
    }

    method Acknowledge(r: Receipt, write: Write) returns (saved: Saving)
      requires r in Receipts
      modifies this`leases, this`Handled, journal
      ensures View() == DoHandle(old(View()), r, write)
      ensures saved.Done? <==> !old(journal.writeFailed) && write.Saved?
    {
      if !journal.writeFailed {
        Handled := Handled + {(r.peer, r.id)};
      }
      saved := journal.Acknowledge(r.peer, [r.id], write);
      assert (set id | id in [r.id]) == {r.id};
      if saved.Done? {
        Unlease(r);
      }
    }

    method DropAll(given: seq<Receipt>)
      modifies this`leases, this`Receipts
      ensures View() == ForgetAll(old(View()), given)
    {
      for i := 0 to |given|
        invariant ForgetAll(View(), given[i..]) == ForgetAll(old(View()), given)
      {
        assert given[i..][1..] == given[i + 1..];
        Drop(given[i]);
      }
    }

    /** Lease everything deliverable that nobody holds; acknowledge what never can be delivered. */
    method Deliver(peer: string, writes: seq<Write>) returns (d: Delivery)
      modifies this`leases, this`nextLease, this`Receipts, journal
      ensures (View(), d) == InboxProtocol.Deliver(old(View()), peer, writes)
    {
      if journal.writeFailed {
        return DeliveryFailed;
      }
      var pending := RecordOf(journal.records, peer).pending;
      var delivered: seq<Receipt>, ws := [], writes;
      for i := 0 to |pending|
        invariant !journal.writeFailed
        invariant DeliverFrom(View(), peer, pending[i..], ws, delivered)
                  == DeliverFrom(old(View()), peer, pending, writes, [])
      {
        var m := pending[i];
        assert pending[i..][1..] == pending[i + 1..];
        if m.id in leases || m.body.None? {
          continue;
        }
        if !Authentic(peer, m) || !m.body.value.decodes {
          var saved := journal.Acknowledge(peer, [m.id], NextWrite(ws));
          assert (set id | id in [m.id]) == {m.id};
          if !saved.Done? {
            DropAll(delivered);
            return DeliveryFailed;
          }
          ws := LaterWrites(ws);
          continue;
        }
        var r := Receipt(peer, m.id, nextLease);
        nextLease := nextLease + 1;
        leases := leases[m.id := r.lease];
        Receipts := Receipts + {r};
        delivered := delivered + [r];
      }
      assert pending[|pending|..] == [];
      return Given(delivered);
    }

    /** The beginning of a read, before it waits for the reads of the same peer ahead of it. One
        started by the scheduler does not bring back a peer that was evicted since. */
    method Enter(own: string, peer: string, requireRegistered: bool) returns (e: Entry)
      modifies this`polls
      ensures e.WrongOwner? <==> !journal.Serves(own)
      ensures e.Unregistered? <==> journal.Serves(own)
                                   && requireRegistered && !RecordOf(journal.records, peer).registered
      ensures polls == if e.Entered? then old(polls)[peer := old(Readers(peer)) + 1] else old(polls)
    {
      if !journal.Serves(own) {
        return WrongOwner;
      }
      if requireRegistered && !RecordOf(journal.records, peer).registered {
        return Unregistered;
      }
      polls := polls[peer := Readers(peer) + 1];
      return Entered;
    }

    /** The read is over, or was abandoned. */
    method Leave(peer: string)
      requires Readers(peer) > 0
      modifies this`polls
      ensures polls == old(polls)[peer := old(Readers(peer)) - 1]
    {
      polls := polls[peer := polls[peer] - 1];
    }

    /** A peer goes only when no read of it is under way and none of its work is pending. */
    method Evict(peer: string, write: Write) returns (saved: Saving, removed: bool)
      modifies this`polls, journal
      ensures removed <==> && old(Readers(peer)) == 0 && !old(journal.writeFailed)
                           && CanUnregister(old(journal.records), peer) && write.Saved?
      ensures journal.View()
              == if old(Readers(peer)) > 0 || old(journal.writeFailed)
                    || !CanUnregister(old(journal.records), peer)
                 then old(journal.View())
                 else old(journal.View()).Commit(ReceiveJournal.Unregister(old(journal.records), peer), write)
      ensures polls == if removed then old(polls) - {peer} else old(polls)
      ensures removed ==> !RecordOf(journal.records, peer).registered
      ensures saved.Unhealthy? ==> old(journal.writeFailed)
    {
      if Readers(peer) > 0 {
        return Done, false;
      }
      saved, removed := journal.Unregister(peer, write);
      if removed {
        polls := polls - {peer};
      }
    }

    /** The turn of a read, up to the network: durable work first, then what to ask for. */
    method StartRead(peer: string, writes: seq<Write>) returns (start: Start)
      requires Readers(peer) > 0
      modifies this`leases, this`nextLease, this`Receipts, journal
      ensures View() == InboxProtocol.Deliver(old(View()), peer, writes).0
      ensures var held := InboxProtocol.Deliver(old(View()), peer, writes).1;
              start == Ready(held) <==> held != Given([])
      ensures start.NoRoom? ==> Available(journal.records, peer) == 0
      ensures start.Discover? ==>
                && start.room == Available(journal.records, peer) > 0
                && forall id :: id !in start.known <==> Discoverable(journal.records, peer, id)
    {
      var held := Deliver(peer, writes);
      if held != Given([]) {
        return Ready(held);
      }
      var record := RecordOf(journal.records, peer);
      var known := record.acknowledged;
      for i := 0 to |record.pending|
        invariant known == record.acknowledged + Ids(record.pending[..i])
      {
        known := known + {record.pending[i].id};
        assert record.pending[..i + 1] == record.pending[..i] + [record.pending[i]];
      }
      assert record.pending[..|record.pending|] == record.pending;
      var available := journal.Room(peer);
      if available == 0 {
        return NoRoom;
      }
      return Discover(known, available);
    }

    /** Which of the discovered identities to retrieve. */
    static method Select(peer: string, found: seq<MessageId>, room: nat) returns (selected: seq<MessageId>)
      requires room > 0
      ensures selected == Selected(peer, found, room)
    {
      selected := [];
      for i := 0 to |found|
        invariant selected == Own(peer, found[..i]) && |selected| < room
      {
        OwnNext(peer, found, i);
        if found[i].publisher == peer {
          selected := selected + [found[i]];
        }
        if |selected| >= room {
          EnoughIsSelected(peer, found, i + 1);
          return;
        }
      }
      assert found[..|found|] == found;
    }

    /** The part of a read after retrieval: save first, deliver second. */
    method FinishRead(peer: string, received: seq<Message>, incomplete: bool, save: Write,
                      writes: seq<Write>)
      returns (d: Delivery)
      requires Readers(peer) > 0
      modifies this`leases, this`nextLease, this`Receipts, this`History, journal
      ensures View() == DoReceive(old(View()), peer, received, save, writes)
      ensures var given := InboxProtocol.Deliver(
                             Take(Seen(old(View()), peer, received), peer, received, save), peer, writes).1;
              d == if given == Given([]) && incomplete then DeliveryFailed else given
    {
      History := History + set m | m in received :: (peer, m);
      ghost var seen := View();
      var saved := journal.Remember(peer, received, save);
      assert View() == Take(seen, peer, received, save);
      if !saved.Done? {
        return DeliveryFailed;
      }
      d := Deliver(peer, writes);
      if d == Given([]) && incomplete {
        return DeliveryFailed;
      }
    }
  }
}
