/** The outbox object: one journal in memory, its file, and the methods that change both. */
module DurableOutbox {
  import opened Durability
  import opened OutboxJournal
  import opened OutboxLaws

  // ----- searching and selecting -----

  lemma {:induction false} FindIsFirst(entries: seq<Entry>, i: nat, id: string)
    requires i < |entries| && entries[i].prepared.id == id
    requires forall k | 0 <= k < i :: entries[k].prepared.id != id
    ensures Find(entries, id) == Some(i)
  {
    if i > 0 {
      FindIsFirst(entries[1..], i - 1, id);
    }
  }

  method FindEntry(entries: seq<Entry>, id: string) returns (found: Option<nat>)
    ensures found == Find(entries, id)
  {
    for i := 0 to |entries|
      invariant forall k | 0 <= k < i :: entries[k].prepared.id != id
    {
      if entries[i].prepared.id == id {
        FindIsFirst(entries, i, id);
        return Some(i);
      }
    }
    return None;
  }

  lemma FindReservationFrom(entries: seq<Entry>, i: nat, peer: Key, scope: string, content: string)
    requires i < |entries|
    ensures FindReservation(entries[i..], peer, scope, content)
            == if InScope(entries[i], peer, scope) && entries[i].content == content then Some(0)
               else match FindReservation(entries[i + 1..], peer, scope, content)
                    case None => None
                    case Some(k) => Some(k + 1)
  {
    assert entries[i..][1..] == entries[i + 1..];
  }

  method FindReserved(entries: seq<Entry>, peer: Key, scope: string, content: string)
    returns (found: Option<nat>)
    ensures found == FindReservation(entries, peer, scope, content)
  {
    var i := 0;
    while i < |entries|
      invariant 0 <= i <= |entries|
      invariant FindReservation(entries, peer, scope, content)
                == match FindReservation(entries[i..], peer, scope, content)
                   case None => None
                   case Some(k) => Some(k + i)
    {
      FindReservationFrom(entries, i, peer, scope, content);
      if InScope(entries[i], peer, scope) && entries[i].content == content {
        return Some(i);
      }
      i := i + 1;
    }
    return None;
  }

  method CountEphemeralEntries(entries: seq<Entry>) returns (count: nat)
    ensures count == CountEphemeral(entries)
  {
    count := 0;
    var i := 0;
    while i < |entries|
      invariant 0 <= i <= |entries|
      invariant count + CountEphemeral(entries[i..]) == CountEphemeral(entries)
    {
      assert entries[i..][1..] == entries[i + 1..];
      if Ephemeral(entries[i].scope) {
        count := count + 1;
      }
      i := i + 1;
    }
  }

  /** Which due times order a selection. */
  datatype Selection = DuePending | EligibleCleanup

  predicate Selects(selection: Selection, e: Entry, now: u64) {
    match selection
    case DuePending => PublicationDue(e, now)
    case EligibleCleanup => CleanupReady(e, now)
  }

  function DueTime(selection: Selection, e: Entry): u64 {
    match selection
    case DuePending => e.nextRetryAt
    case EligibleCleanup =>
      Max(e.nextCleanupAt, if e.cleanupAfter.Some? then e.cleanupAfter.value else MAX_U64)
  }

  predicate Ordered(selection: Selection, entries: seq<Entry>) {
    forall i, j | 0 <= i < j < |entries| ::
      DueTime(selection, entries[i]) <= DueTime(selection, entries[j])
  }

  /** Those of a list that are selected and due at one time, in the list's order. */
  ghost function DueAt(selection: Selection, entries: seq<Entry>, now: u64, at: u64): seq<Entry> {
    if entries == [] then []
    else
      var last := entries[|entries| - 1];
      DueAt(selection, entries[..|entries| - 1], now, at) + OneIf(IsDueAt(selection, last, now, at), last)
  }

  predicate IsDueAt(selection: Selection, e: Entry, now: u64, at: u64) {
    Selects(selection, e, now) && DueTime(selection, e) == at
  }

  ghost function OneIf(kept: bool, e: Entry): seq<Entry> {
    if kept then [e] else []
  }

  lemma DueAtNext(selection: Selection, head: seq<Entry>, e: Entry, now: u64, at: u64)
    ensures DueAt(selection, head + [e], now, at)
            == DueAt(selection, head, now, at) + OneIf(IsDueAt(selection, e, now, at), e)
  {
    assert (head + [e])[..|head|] == head;
  }

  lemma {:induction false} DueAtSplit(selection: Selection, a: seq<Entry>, b: seq<Entry>, now: u64, at: u64)
    ensures DueAt(selection, a + b, now, at)
            == DueAt(selection, a, now, at) + DueAt(selection, b, now, at)
  {
    if b == [] {
      assert a + b == a;
    } else {
      var rest, last := b[..|b| - 1], b[|b| - 1];
      assert a + b == (a + rest) + [last];
      DueAtSplit(selection, a, rest, now, at);
      DueAtNext(selection, a + rest, last, now, at);
    }
  }

  lemma {:induction false} NoneDueAt(selection: Selection, entries: seq<Entry>, now: u64, at: u64)
    requires forall e | e in entries :: !IsDueAt(selection, e, now, at)
    ensures DueAt(selection, entries, now, at) == []
  {
    if entries != [] {
      NoneDueAt(selection, entries[..|entries| - 1], now, at);
    }
  }

  lemma InsertionOrdered(selection: Selection, sorted: seq<Entry>, i: nat, e: Entry)
    requires Ordered(selection, sorted) && i <= |sorted|
    requires 0 < i ==> DueTime(selection, sorted[i - 1]) <= DueTime(selection, e)
    requires i < |sorted| ==> DueTime(selection, e) < DueTime(selection, sorted[i])
    ensures Ordered(selection, sorted[..i] + [e] + sorted[i..])
  {
  }

  lemma InsertionKeepsElements(sorted: seq<Entry>, i: nat, e: Entry)
    requires i <= |sorted|
    ensures multiset(sorted[..i] + [e] + sorted[i..]) == multiset(sorted) + multiset{e}
  {
    assert sorted[..i] + sorted[i..] == sorted;
  }

  lemma InsertionIsStable(selection: Selection, head: seq<Entry>, tail: seq<Entry>, e: Entry, now: u64,
                          at: u64)
    requires forall x | x in tail :: DueTime(selection, e) < DueTime(selection, x)
    ensures DueAt(selection, head + [e] + tail, now, at) == DueAt(selection, head + tail + [e], now, at)
  {
    var mark := OneIf(IsDueAt(selection, e, now, at), e);
    var first, last := DueAt(selection, head, now, at), DueAt(selection, tail, now, at);
    if mark != [] {
      NoneDueAt(selection, tail, now, at);
    }
    calc {
      DueAt(selection, head + [e] + tail, now, at);
      { DueAtSplit(selection, head + [e], tail, now, at); DueAtNext(selection, head, e, now, at); }
      first + mark + last;
      first + last + mark;
      { DueAtSplit(selection, head, tail, now, at); DueAtNext(selection, head + tail, e, now, at); }
      DueAt(selection, head + tail + [e], now, at);
    }
  }

  /** Entries due at the same time stay in journal order. */
  ghost predicate SameOrder(selection: Selection, a: seq<Entry>, b: seq<Entry>, now: u64) {
    forall at :: DueAt(selection, a, now, at) == DueAt(selection, b, now, at)
  }

  lemma InsertionKeepsOrder(selection: Selection, sorted: seq<Entry>, i: nat, e: Entry, now: u64)
    requires Ordered(selection, sorted) && i <= |sorted|
    requires i < |sorted| ==> DueTime(selection, e) < DueTime(selection, sorted[i])
    ensures SameOrder(selection, sorted[..i] + [e] + sorted[i..], sorted + [e], now)
  {
    var head, tail := sorted[..i], sorted[i..];
    assert head + tail == sorted;
    assert forall x | x in tail :: DueTime(selection, e) < DueTime(selection, x);
    forall at
      ensures DueAt(selection, head + [e] + tail, now, at) == DueAt(selection, sorted + [e], now, at)
    {
      InsertionIsStable(selection, head, tail, e, now, at);
    }
  }

  /** The stable sort's step: after everything due no later. */
  method InsertByDueTime(selection: Selection, sorted: seq<Entry>, e: Entry, ghost now: u64)
    returns (inserted: seq<Entry>)
    requires Ordered(selection, sorted)
    ensures Ordered(selection, inserted)
    ensures multiset(inserted) == multiset(sorted) + multiset{e}
    ensures SameOrder(selection, inserted, sorted + [e], now)
  {
    var i := |sorted|;
    while 0 < i && DueTime(selection, e) < DueTime(selection, sorted[i - 1])
      invariant 0 <= i <= |sorted|
      invariant i < |sorted| ==> DueTime(selection, e) < DueTime(selection, sorted[i])
    {
      i := i - 1;
    }
    inserted := sorted[..i] + [e] + sorted[i..];
    InsertionOrdered(selection, sorted, i, e);
    InsertionKeepsElements(sorted, i, e);
    InsertionKeepsOrder(selection, sorted, i, e, now);
  }

  lemma SameOrderNext(selection: Selection, a: seq<Entry>, b: seq<Entry>, e: Entry, now: u64)
    requires SameOrder(selection, a, b, now)
    ensures SameOrder(selection, a + OneIf(Selects(selection, e, now), e), b + [e], now)
  {
    assert a + [] == a;
    forall at
      ensures DueAt(selection, a + OneIf(Selects(selection, e, now), e), now, at)
              == DueAt(selection, b + [e], now, at)
    {
      DueAtNext(selection, a, e, now, at);
      DueAtNext(selection, b, e, now, at);
    }
  }

  /** Of these entries, the selected ones sorted and the others set aside. */
  ghost predicate SortedDue(selection: Selection, entries: seq<Entry>, now: u64, sorted: seq<Entry>,
                            skipped: multiset<Entry>)
  {
    && Ordered(selection, sorted)
    && SameOrder(selection, sorted, entries, now)
    && multiset(entries) == multiset(sorted) + skipped
    && (forall e | e in skipped :: !Selects(selection, e, now))
    && (forall e | e in multiset(sorted) :: Selects(selection, e, now))
  }

  lemma SkippingSorts(selection: Selection, entries: seq<Entry>, now: u64, sorted: seq<Entry>,
                      skipped: multiset<Entry>, e: Entry)
    requires SortedDue(selection, entries, now, sorted, skipped) && !Selects(selection, e, now)
    ensures SortedDue(selection, entries + [e], now, sorted, skipped + multiset{e})
  {
    SameOrderNext(selection, sorted, entries, e, now);
    assert sorted + [] == sorted;
  }

  lemma InsertionSorts(selection: Selection, entries: seq<Entry>, now: u64, sorted: seq<Entry>,
                       skipped: multiset<Entry>, e: Entry, inserted: seq<Entry>)
    requires SortedDue(selection, entries, now, sorted, skipped) && Selects(selection, e, now)
    requires Ordered(selection, inserted) && multiset(inserted) == multiset(sorted) + multiset{e}
    requires SameOrder(selection, inserted, sorted + [e], now)
    ensures SortedDue(selection, entries + [e], now, inserted, skipped)
  {
    SameOrderNext(selection, sorted, entries, e, now);
    assert forall at :: DueAt(selection, inserted, now, at) == DueAt(selection, sorted + [e], now, at);
  }

  method SortDue(selection: Selection, entries: seq<Entry>, now: u64)
    returns (sorted: seq<Entry>, ghost skipped: multiset<Entry>)
    ensures SortedDue(selection, entries, now, sorted, skipped)
  {
    sorted := [];
    skipped := multiset{};
    var i := 0;
    while i < |entries|
      invariant 0 <= i <= |entries|
      invariant SortedDue(selection, entries[..i], now, sorted, skipped)
    {
      var e := entries[i];
      assert entries[..i + 1] == entries[..i] + [e];
      if Selects(selection, e, now) {
        var inserted := InsertByDueTime(selection, sorted, e, now);
        InsertionSorts(selection, entries[..i], now, sorted, skipped, e, inserted);
        sorted := inserted;
      } else {
        SkippingSorts(selection, entries[..i], now, sorted, skipped, e);
        skipped := skipped + multiset{e};
      }
      i := i + 1;
    }
    assert entries[..i] == entries;
  }

  /** The due entries a batch leaves out are due no earlier than any it takes, and it leaves some
      out only when it is full. Of those due at one time it takes the first in the journal's order. */
  ghost predicate IsBatch(selection: Selection, entries: seq<Entry>, now: u64, limit: nat,
                          batch: seq<Entry>)
  {
    && |batch| <= Min(limit, MAX_BATCH)
    && Ordered(selection, batch)
    && multiset(batch) <= multiset(entries)
    && (forall e | e in multiset(batch) :: Selects(selection, e, now))
    && (forall e | e in multiset(entries) - multiset(batch) && Selects(selection, e, now) ::
          && |batch| == Min(limit, MAX_BATCH)
          && forall b | b in multiset(batch) :: DueTime(selection, b) <= DueTime(selection, e))
    && forall at :: DueAt(selection, batch, now, at) <= DueAt(selection, entries, now, at)
  }

  lemma PrefixComesFirst(selection: Selection, sorted: seq<Entry>, taken: nat, b: Entry, e: Entry)
    requires Ordered(selection, sorted) && taken <= |sorted|
    requires b in sorted[..taken] && e in sorted[taken..]
    ensures DueTime(selection, b) <= DueTime(selection, e)
  {
    var y :| 0 <= y < taken && sorted[y] == b;
    var x :| 0 <= x < |sorted[taken..]| && sorted[taken..][x] == e;
    assert sorted[taken + x] == e;
  }

  lemma PrefixKeepsOrder(selection: Selection, entries: seq<Entry>, now: u64, sorted: seq<Entry>,
                         taken: nat)
    requires SameOrder(selection, sorted, entries, now) && taken <= |sorted|
    ensures forall at :: DueAt(selection, sorted[..taken], now, at) <= DueAt(selection, entries, now, at)
  {
    assert sorted == sorted[..taken] + sorted[taken..];
    forall at
      ensures DueAt(selection, sorted[..taken], now, at) <= DueAt(selection, entries, now, at)
    {
      DueAtSplit(selection, sorted[..taken], sorted[taken..], now, at);
      assert DueAt(selection, sorted, now, at) == DueAt(selection, entries, now, at);
    }
  }

  lemma PrefixIsBatch(selection: Selection, entries: seq<Entry>, now: u64, limit: nat,
                      sorted: seq<Entry>, skipped: multiset<Entry>)
    requires SortedDue(selection, entries, now, sorted, skipped)
    ensures IsBatch(selection, entries, now, limit,
                    sorted[..Min(|sorted|, Min(limit, MAX_BATCH))])
  {
    var taken := Min(|sorted|, Min(limit, MAX_BATCH));
    var batch := sorted[..taken];
    var rest := sorted[taken..];
    assert sorted == batch + rest;
    assert multiset(sorted) == multiset(batch) + multiset(rest);
    assert multiset(entries) - multiset(batch) == multiset(rest) + skipped;
    forall e | e in multiset(entries) - multiset(batch) && Selects(selection, e, now)
      ensures e in rest
    {
      assert e !in skipped && e in multiset(rest);
    }
    forall e, b | e in rest && b in batch
      ensures DueTime(selection, b) <= DueTime(selection, e)
    {
      PrefixComesFirst(selection, sorted, taken, b, e);
    }
    PrefixKeepsOrder(selection, entries, now, sorted, taken);
  }

  method SelectBatch(selection: Selection, entries: seq<Entry>, now: u64, limit: nat)
    returns (batch: seq<Entry>)
    ensures IsBatch(selection, entries, now, limit, batch)
  {
    var sorted, skipped := SortDue(selection, entries, now);
    PrefixIsBatch(selection, entries, now, limit, sorted, skipped);
    return sorted[..Min(|sorted|, Min(limit, MAX_BATCH))];
  }

  lemma RetainFrom(entries: seq<Entry>, i: nat, ids: set<string>, kept: seq<Entry>)
    requires i < |entries|
    ensures kept + Retain(entries[i..], ids)
            == (if entries[i].prepared.id in ids then kept else kept + [entries[i]])
               + Retain(entries[i + 1..], ids)
  {
    assert entries[i..][1..] == entries[i + 1..];
  }

  method RetainOthers(entries: seq<Entry>, ids: set<string>) returns (kept: seq<Entry>)
    ensures kept == Retain(entries, ids)
  {
    kept := [];
    var i := 0;
    while i < |entries|
      invariant 0 <= i <= |entries|
      invariant kept + Retain(entries[i..], ids) == Retain(entries, ids)
    {
      RetainFrom(entries, i, ids, kept);
      if entries[i].prepared.id !in ids {
        kept := kept + [entries[i]];
      }
      i := i + 1;
    }
  }

  // ----- the object -----

  class Outbox {
    var journal: Journal
    /** What the journal file holds. */
    var file: Journal
    var writeFailed: bool

    ghost function View(): Durable<Journal>
      reads this
    {
      Durable(journal, file, writeFailed)
    }

    constructor (saved: Journal)
      ensures View() == Durable(saved, saved, false)
    {
      journal := saved;
      file := saved;
      writeFailed := false;
    }

    /** A missing file is created before the journal is used. */
    static method Open(saved: Option<Journal>, write: Write) returns (outbox: Outcome<Outbox>)
      ensures outbox.Done? ==> fresh(outbox.value) && OpenFile(saved).Done?
                               && outbox.value.View()
                                  == Durable(OpenFile(saved).value, OpenFile(saved).value, false)
      ensures outbox.Failed? <==> OpenFile(saved).Failed? || (saved.None? && write != Saved)
    {
      match OpenFile(saved) {
        case Failed(error) => return Failed(error);
        case Done(j) =>
          if saved.None? && write != Saved {
            return Failed(SaveFailed);
          }
          var created := new Outbox(j);
          return Done(created);
      }
    }

    /** Replace the file, then memory. A failed write is remembered and stops everything after. */
    method Persist(candidate: Journal, write: Write) returns (ok: bool)
      requires !writeFailed
      modifies this
      ensures View() == old(View()).Commit(candidate, Saving(candidate, write))
      ensures ok <==> Saving(candidate, write) == Saved
    {
      match Saving(candidate, write) {
        case Saved =>
          file := candidate;
          journal := candidate;
          return true;
        case FailedOld =>
          writeFailed := true;
          return false;
        case FailedNew =>
          file := candidate;
          writeFailed := true;
          return false;
      }
    }

    /** Why a new reservation cannot be made, before its bytes are looked at. */
    method Refusal(peer: Key, scope: string, content: string, expiry: Option<u64>, made: Option<Prepared>,
                   identityBytes: nat)
      returns (refusal: Option<Error>)
      requires FindReservation(journal.entries, peer, scope, content).None?
      ensures refusal.Some? ==>
                Prepare(journal, peer, scope, content, expiry, made, identityBytes) == Refused(refusal.value)
      ensures refusal.None? ==>
                made.Some? && Prepare(journal, peer, scope, content, expiry, made, identityBytes)
                              == Admission(journal, NewEntry(peer, scope, content, made.value, identityBytes, expiry))
    {
      if Ephemeral(scope) {
        var count := CountEphemeralEntries(journal.entries);
        if count >= MAX_EPHEMERAL_ENTRIES {
          return Some(EphemeralCapacity);
        }
      }
      if |journal.entries| >= MAX_ENTRIES {
        return Some(OutboxFull);
      }
      if exists e | e in journal.entries :: InScope(e, peer, scope) && e.cleanupAfter.Some? {
        return Some(ScopeCompleted);
      }
      if made.None? {
        return Some(PreparationFailed);
      }
      if made.value.recipient != peer {
        return Some(RecipientMismatch);
      }
      if journal.owner.Some? && journal.owner.value != made.value.owner {
        return Some(OwnerMismatch);
      }
      return None;
    }

    /** A new reservation: capacity, identity and byte checks, then one write. */
    method Reserve(peer: Key, scope: string, content: string, expiry: Option<u64>,
                   made: Option<Prepared>, identityBytes: nat, write: Write)
      returns (r: Outcome<Prepared>)
      requires !writeFailed && FindReservation(journal.entries, peer, scope, content).None?
      modifies this
      ensures (View(), r) == Update(old(View()),
                                    Prepare(old(journal), peer, scope, content, expiry, made,
                                            identityBytes), write)
    {
      var refusal := Refusal(peer, scope, content, expiry, made, identityBytes);
      if refusal.Some? {
        return Failed(refusal.value);
      }
      var candidate := Journal(journal.version, Some(made.value.owner),
                               journal.entries
                               + [NewEntry(peer, scope, content, made.value, identityBytes, expiry)]);
      if !Validate(candidate) {
        return Failed(InvalidJournal);
      }
      if JournalBytes(candidate) + |candidate.entries| * ENTRY_HEADROOM > MAX_BYTES {
        return Failed(ByteCapacity);
      }
      var ok := Persist(candidate, write);
      return if ok then Done(made.value) else Failed(SaveFailed);
    }

    method PrepareWithExpiry(peer: Key, scope: string, content: string, expiry: Option<u64>,
                             made: Option<Prepared>, identityBytes: nat, write: Write)
      returns (r: Outcome<Prepared>)
      modifies this
      ensures !ScopeOk(peer, scope) ==> r == Failed(InvalidScope) && View() == old(View())
      ensures ScopeOk(peer, scope) ==>
                (View(), r) == Update(old(View()),
                                      Prepare(old(journal), peer, scope, content, expiry, made,
                                              identityBytes), write)
    {
      if !ScopeOk(peer, scope) {
        return Failed(InvalidScope);
      }
      if writeFailed {
        return Failed(WriteFailed);
      }
      var found := FindReserved(journal.entries, peer, scope, content);
      if found.Some? {
        var e := journal.entries[found.value];
        if e.cleanupAfter.None? && expiry.Some? {
          var candidate := WithEntry(journal, found.value, e.(cleanupAfter := expiry));
          var ok := Persist(candidate, write);
          return if ok then Done(e.prepared) else Failed(SaveFailed);
        }
        return Done(e.prepared);
      }
      r := Reserve(peer, scope, content, expiry, made, identityBytes, write);
    }

    method MarkPublished(id: string, write: Write) returns (r: Outcome<()>)
      modifies this
      ensures (View(), r) == Update(old(View()), OutboxJournal.MarkPublished(old(journal), id), write)
    {
      if writeFailed {
        return Failed(WriteFailed);
      }
      var found := FindEntry(journal.entries, id);
      if found.None? {
        return Failed(UnknownResource);
      }
      var e := journal.entries[found.value];
      if e.published && !e.publicationPaused {
        return Done(());
      }
      var candidate := WithEntry(journal, found.value,
                                 e.(published := true, publicationPaused := false));
      var ok := Persist(candidate, write);
      return if ok then Done(()) else Failed(SaveFailed);
    }

    /** Recheck under the resource's network lock before publishing. */
    method CanPublish(id: string, now: u64) returns (r: Outcome<bool>)
      ensures r == if writeFailed then Failed(WriteFailed)
                   else OutboxJournal.CanPublish(journal, id, now)
    {
      if writeFailed {
        return Failed(WriteFailed);
      }
      var found := FindEntry(journal.entries, id);
      if found.None? {
        return Done(false);
      }
      var e := journal.entries[found.value];
      if e.publicationPaused {
        return Failed(Paused(Publication, if e.publicationFailure.Some?
                                          then e.publicationFailure.value else InvalidRequest));
      }
      return Done(!CleanupDue(e, now));
    }

    /** Remember the failure, pause unless it is temporary, and back off if an attempt was due. */
    static method Fail(e: Entry, now: u64, failure: DeliveryFailure) returns (marked: Entry, changed: bool)
      ensures marked == FailedEntry(e, now, failure)
      ensures changed <==> e.publicationFailure != Some(failure)
                           || e.publicationPaused == failure.IsRetryable()
                           || (!e.published && e.nextRetryAt <= now)
    {
      changed := e.publicationFailure != Some(failure) || e.publicationPaused == failure.IsRetryable();
      marked := e.(publicationFailure := Some(failure), publicationPaused := !failure.IsRetryable());
      if !e.published && e.nextRetryAt <= now {
        var attempts: u32 := SaturatingAdd32(e.attempts, 1);
        marked := marked.(attempts := attempts, nextRetryAt := SaturatingAdd64(now, Delay(attempts)));
        changed := true;
      }
    }

    method MarkFailed(id: string, now: u64, failure: DeliveryFailure, write: Write)
      returns (r: Outcome<()>)
      modifies this
      ensures (View(), r)
           == Update(old(View()), OutboxJournal.MarkFailed(old(journal), id, now, failure), write)
    {
      if writeFailed {
        return Failed(WriteFailed);
      }
      var found := FindEntry(journal.entries, id);
      if found.None? {
        return Failed(UnknownResource);
      }
      var e := journal.entries[found.value];
      if CleanupDue(e, now) {
        return Done(());
      }
      var marked, changed := Fail(e, now, failure);
      if !changed {
        return Done(());
      }
      var ok := Persist(WithEntry(journal, found.value, marked), write);
      return if ok then Done(()) else Failed(SaveFailed);
    }

    method CompleteScope(peer: Key, scope: string, eligibleAfter: u64, write: Write)
      returns (r: Outcome<()>)
      modifies this
      ensures !ScopeOk(peer, scope) ==> r == Failed(InvalidScope) && View() == old(View())
      ensures ScopeOk(peer, scope) ==>
                (View(), r)
                == Update(old(View()),
                          OutboxJournal.CompleteScope(old(journal), peer, scope, eligibleAfter), write)
    {
      if !ScopeOk(peer, scope) {
        return Failed(InvalidScope);
      }
      if writeFailed {
        return Failed(WriteFailed);
      }
      var entries := journal.entries;
      var changed := false;
      var i := 0;
      while i < |entries|
        invariant 0 <= i <= |entries| == |journal.entries|
        invariant forall k | 0 <= k < i ::
            entries[k] == CompletedEntry(journal.entries[k], peer, scope, eligibleAfter)
        invariant forall k | i <= k < |entries| :: entries[k] == journal.entries[k]
        invariant changed <==> exists k | 0 <= k < i :: CompletesEntry(journal.entries[k], peer, scope)
      {
        if CompletesEntry(entries[i], peer, scope) {
          entries := entries[i := entries[i].(cleanupAfter := Some(eligibleAfter))];
          changed := true;
        }
        i := i + 1;
      }
      assert entries == OutboxJournal.CompleteScope(journal, peer, scope, eligibleAfter).journal.entries;
      if !changed {
        return Done(());
      }
      var ok := Persist(journal.(entries := entries), write);
      return if ok then Done(()) else Failed(SaveFailed);
    }

    method ReopenScope(peer: Key, scope: string, write: Write) returns (r: Outcome<()>)
      modifies this
      ensures !ScopeOk(peer, scope) ==> r == Failed(InvalidScope) && View() == old(View())
      ensures ScopeOk(peer, scope) ==>
                (View(), r)
                == Update(old(View()), OutboxJournal.ReopenScope(old(journal), peer, scope), write)
    {
      if !ScopeOk(peer, scope) {
        return Failed(InvalidScope);
      }
      if writeFailed {
        return Failed(WriteFailed);
      }
      var entries := journal.entries;
      var changed := false;
      var i := 0;
      while i < |entries|
        invariant 0 <= i <= |entries| == |journal.entries|
        invariant forall k | 0 <= k < i ::
            entries[k] == ReopenedEntry(journal.entries[k], peer, scope)
        invariant forall k | i <= k < |entries| :: entries[k] == journal.entries[k]
        invariant changed <==> exists k | 0 <= k < i :: ReopensEntry(journal.entries[k], peer, scope)
      {
        if ReopensEntry(entries[i], peer, scope) {
          entries := entries[i := entries[i].(cleanupAfter := None, cleanupAttempts := 0,
                                              nextCleanupAt := 0, published := false,
                                              attempts := 0, nextRetryAt := 0)];
          changed := true;
        }
        i := i + 1;
      }
      assert entries == OutboxJournal.ReopenScope(journal, peer, scope).journal.entries;
      if !changed {
        return Done(());
      }
      var ok := Persist(journal.(entries := entries), write);
      return if ok then Done(()) else Failed(SaveFailed);
    }

    /** Recheck under the resource's network lock before deleting. */
    method CanCleanup(id: string, now: u64) returns (r: Outcome<bool>)
      ensures r == if writeFailed then Failed(WriteFailed)
                   else Done(OutboxJournal.CanCleanup(journal, id, now))
    {
      if writeFailed {
        return Failed(WriteFailed);
      }
      var i := 0;
      while i < |journal.entries|
        invariant 0 <= i <= |journal.entries|
        invariant forall k | 0 <= k < i ::
            !(journal.entries[k].prepared.id == id && CleanupReady(journal.entries[k], now))
      {
        if journal.entries[i].prepared.id == id && CleanupReady(journal.entries[i], now) {
          return Done(true);
        }
        i := i + 1;
      }
      return Done(false);
    }

    static method FailCleanup(e: Entry, now: u64, failure: DeliveryFailure)
      returns (marked: Entry, changed: bool)
      ensures marked == CleanupFailedEntry(e, now, failure)
      ensures changed <==> e.cleanupFailure != Some(failure)
                           || e.cleanupPaused == failure.IsRetryable()
                           || e.nextCleanupAt <= now
    {
      changed := e.cleanupFailure != Some(failure) || e.cleanupPaused == failure.IsRetryable();
      marked := e.(cleanupFailure := Some(failure), cleanupPaused := !failure.IsRetryable());
      if e.nextCleanupAt <= now {
        var attempts: u32 := SaturatingAdd32(e.cleanupAttempts, 1);
        marked := marked.(cleanupAttempts := attempts,
                          nextCleanupAt := SaturatingAdd64(now, Delay(attempts)));
        changed := true;
      }
    }

    method MarkCleanupFailed(id: string, now: u64, failure: DeliveryFailure, write: Write)
      returns (r: Outcome<()>)
      modifies this
      ensures (View(), r)
           == Update(old(View()),
                     OutboxJournal.MarkCleanupFailed(old(journal), id, now, failure), write)
    {
      if writeFailed {
        return Failed(WriteFailed);
      }
      var found := FindEntry(journal.entries, id);
      if found.None? {
        return Failed(UnknownResource);
      }
      var e := journal.entries[found.value];
      if !CleanupDue(e, now) {
        return Done(());
      }
      var marked, changed := FailCleanup(e, now, failure);
      if !changed {
        return Done(());
      }
      var ok := Persist(WithEntry(journal, found.value, marked), write);
      return if ok then Done(()) else Failed(SaveFailed);
    }

    method Retry(id: string, operation: DeliveryOperation, now: u64, write: Write)
      returns (r: Outcome<()>)
      modifies this
      ensures (View(), r)
           == Update(old(View()), OutboxJournal.Retry(old(journal), id, operation, now), write)
    {
      if writeFailed {
        return Failed(WriteFailed);
      }
      var found := FindEntry(journal.entries, id);
      if found.None? {
        return Failed(UnknownResource);
      }
      var e := journal.entries[found.value];
      match operation {
        case Publication =>
          if CleanupDue(e, now) {
            return Failed(PublicationAfterCleanup);
          }
          e := e.(publicationPaused := false, published := false, nextRetryAt := now);
        case Cleanup =>
          if e.cleanupAfter.None? {
            return Failed(CleanupBeforeCompletion);
          }
          e := e.(cleanupPaused := false, nextCleanupAt := now);
      }
      var ok := Persist(WithEntry(journal, found.value, e), write);
      return if ok then Done(()) else Failed(SaveFailed);
    }

    method RemoveDeleted(ids: set<string>, now: u64, write: Write) returns (r: Outcome<()>)
      modifies this
      ensures (View(), r)
           == Update(old(View()), OutboxJournal.RemoveDeleted(old(journal), ids, now), write)
    {
      if writeFailed {
        return Failed(WriteFailed);
      }
      var i := 0;
      while i < |journal.entries|
        invariant 0 <= i <= |journal.entries|
        invariant forall k | 0 <= k < i ::
            journal.entries[k].prepared.id in ids ==> CleanupDue(journal.entries[k], now)
      {
        if journal.entries[i].prepared.id in ids && !CleanupDue(journal.entries[i], now) {
          return Failed(RemovalBeforeCleanup);
        }
        i := i + 1;
      }
      var kept := RetainOthers(journal.entries, ids);
      if |kept| == |journal.entries| {
        return Done(());
      }
      var ok := Persist(journal.(entries := kept), write);
      return if ok then Done(()) else Failed(SaveFailed);
    }

    /** At most 64 resources whose time has come, earliest first. */
    method Select(selection: Selection, now: u64, limit: nat) returns (r: Outcome<seq<Entry>>)
      ensures writeFailed ==> r == Failed(WriteFailed)
      ensures !writeFailed ==>
                r.Done? && IsBatch(selection, journal.entries, now, limit, r.value)
    {
      if writeFailed {
        return Failed(WriteFailed);
      }
      var batch := SelectBatch(selection, journal.entries, now, limit);
      return Done(batch);
    }
  }

  /** When fewer resources are due than the batch holds, the batch is all of them: nothing that is
      due waits behind anything that is not. */
  lemma EverythingDueFits(selection: Selection, entries: seq<Entry>, now: u64, limit: nat,
                          batch: seq<Entry>, e: Entry)
    requires IsBatch(selection, entries, now, limit, batch)
    requires |batch| < Min(limit, MAX_BATCH)
    ensures multiset(batch)[e] == if Selects(selection, e, now) then multiset(entries)[e] else 0
  {
    if multiset(batch)[e] < multiset(entries)[e] {
      assert e in multiset(entries) - multiset(batch);
    }
  }
}
