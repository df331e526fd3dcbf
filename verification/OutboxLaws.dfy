/** Laws of the outbox operations on the journal value: what every operation keeps, what undoes
    what, and why a saved journal can never outgrow its file. */
module OutboxLaws {
  import opened Durability
  import opened OutboxJournal

  // ----- one shape for every operation that neither adds nor removes an entry -----

  ghost predicate SameResource(a: Entry, b: Entry) {
    && SameReservation(a, b)
    && a.prepared == b.prepared
    && a.identityBytes == b.identityBytes
  }

  /** The journal asserts this resource is on the homeserver and is meant to stay there. */
  ghost predicate Claims(e: Entry) {
    e.published && e.cleanupAfter.None?
  }

  ghost predicate EntryStep(a: Entry, b: Entry) {
    && SameResource(a, b)
    && (PauseOk(a.publicationPaused, a.publicationFailure) ==>
          PauseOk(b.publicationPaused, b.publicationFailure))
    && (PauseOk(a.cleanupPaused, a.cleanupFailure) ==> PauseOk(b.cleanupPaused, b.cleanupFailure))
  }

  /** Entry for entry the same resources, and no new claim except possibly for `confirmed`. */
  ghost predicate Pointwise(j: Journal, k: Journal, confirmed: Option<string>) {
    && k.version == j.version
    && k.owner == j.owner
    && |k.entries| == |j.entries|
    && forall i | 0 <= i < |j.entries| ::
         && EntryStep(j.entries[i], k.entries[i])
         && (Claims(k.entries[i]) ==>
               Claims(j.entries[i]) || confirmed == Some(j.entries[i].prepared.id))
  }

  /** The operations that leave the list of resources alone. */
  ghost predicate KeepsResources(j: Journal, op: Operation) {
    && !op.RemoveOp?
    && (op.PrepareOp? ==> FindReservation(j.entries, op.peer, op.scope, op.content).Some?)
  }

  ghost function Confirms(op: Operation): Option<string> {
    if op.PublishedOp? then Some(op.id) else None
  }

  lemma EntryUpdatePointwise(j: Journal, i: nat, e: Entry, confirmed: Option<string>)
    requires i < |j.entries| && EntryStep(j.entries[i], e)
    requires Claims(e) ==> Claims(j.entries[i]) || confirmed == Some(e.prepared.id)
    ensures Pointwise(j, WithEntry(j, i, e), confirmed)
  {
  }

  lemma ScopesPointwise(j: Journal, peer: Key, scope: string, at: u64)
    ensures Pointwise(j, CompleteScope(j, peer, scope, at).journal, None)
    ensures Pointwise(j, ReopenScope(j, peer, scope).journal, None)
  {
  }

  lemma FailedStep(e: Entry, now: u64, failure: DeliveryFailure)
    ensures var f := FailedEntry(e, now, failure);
            EntryStep(e, f) && f.published == e.published && f.cleanupAfter == e.cleanupAfter
  {
  }

  lemma CleanupFailedStep(e: Entry, now: u64, failure: DeliveryFailure)
    ensures var f := CleanupFailedEntry(e, now, failure);
            EntryStep(e, f) && f.published == e.published && f.cleanupAfter == e.cleanupAfter
  {
  }

  lemma PublishedPointwise(j: Journal, id: string)
    requires Find(j.entries, id).Some?
    ensures Pointwise(j, MarkPublished(j, id).journal, Some(id))
  {
    var i := Find(j.entries, id).value;
    EntryUpdatePointwise(j, i, j.entries[i].(published := true, publicationPaused := false), Some(id));
  }

  lemma FailedPointwise(j: Journal, id: string, now: u64, failure: DeliveryFailure)
    requires Find(j.entries, id).Some?
    ensures Pointwise(j, MarkFailed(j, id, now, failure).journal, None)
  {
    var i := Find(j.entries, id).value;
    FailedStep(j.entries[i], now, failure);
    EntryUpdatePointwise(j, i, FailedEntry(j.entries[i], now, failure), None);
  }

  lemma CleanupFailedPointwise(j: Journal, id: string, now: u64, failure: DeliveryFailure)
    requires Find(j.entries, id).Some?
    ensures Pointwise(j, MarkCleanupFailed(j, id, now, failure).journal, None)
  {
    var i := Find(j.entries, id).value;
    CleanupFailedStep(j.entries[i], now, failure);
    EntryUpdatePointwise(j, i, CleanupFailedEntry(j.entries[i], now, failure), None);
  }

  lemma RetryPointwise(j: Journal, id: string, operation: DeliveryOperation, now: u64)
    ensures var c := Retry(j, id, operation, now); c.Applied? ==> Pointwise(j, c.journal, None)
  {
  }

  lemma RepeatPointwise(j: Journal, i: nat, expiry: Option<u64>)
    requires i < |j.entries|
    ensures Pointwise(j, j, None)
    ensures expiry.Some? ==>
              Pointwise(j, WithEntry(j, i, j.entries[i].(cleanupAfter := expiry)), None)
  {
  }

  /** Every operation but a new reservation and a removal changes entries in place, and only a
      confirmed publication adds a claim. */
  lemma OperationPointwise(j: Journal, op: Operation)
    requires KeepsResources(j, op) && Apply(j, op).Applied?
    ensures Pointwise(j, Apply(j, op).journal, Confirms(op))
  {
    match op {
      case PrepareOp(peer, scope, content, expiry, _, _) =>
        RepeatPointwise(j, FindReservation(j.entries, peer, scope, content).value, expiry);
      case PublishedOp(id) => PublishedPointwise(j, id);
      case FailedOp(id, now, failure) => FailedPointwise(j, id, now, failure);
      case CleanupFailedOp(id, now, failure) => CleanupFailedPointwise(j, id, now, failure);
      case CompleteOp(peer, scope, at) => ScopesPointwise(j, peer, scope, at);
      case ReopenOp(peer, scope) => ScopesPointwise(j, peer, scope, 0);
      case RetryOp(id, operation, now) => RetryPointwise(j, id, operation, now);
    }
  }

  // ----- validity -----

  lemma PointwiseKeepsValid(j: Journal, k: Journal, confirmed: Option<string>)
    requires Validate(j) && Pointwise(j, k, confirmed)
    ensures Validate(k)
  {
    forall e | e in k.entries
      ensures EntryOk(e, k.owner)
    {
      var i :| 0 <= i < |k.entries| && k.entries[i] == e;
      assert EntryStep(j.entries[i], e) && j.entries[i] in j.entries;
    }
  }

  lemma {:induction false} RetainDistinct(entries: seq<Entry>, ids: set<string>)
    requires Distinct(entries)
    ensures Distinct(Retain(entries, ids))
  {
    if entries != [] {
      var rest := entries[1..];
      RetainDistinct(rest, ids);
      forall e | e in Retain(rest, ids)
        ensures e.prepared.id != entries[0].prepared.id && !SameReservation(entries[0], e)
      {
        assert e in rest;
        var i :| 0 <= i < |rest| && rest[i] == e;
        assert entries[i + 1] == e;
      }
    }
  }

  /** A journal `Validate` accepts stays acceptable after any operation, so a restart never refuses
      a file this process wrote. */
  lemma OperationKeepsValid(j: Journal, op: Operation)
    requires Validate(j) && Apply(j, op).Applied?
    ensures Validate(Apply(j, op).journal)
  {
    if KeepsResources(j, op) {
      OperationPointwise(j, op);
      PointwiseKeepsValid(j, Apply(j, op).journal, Confirms(op));
    } else if op.RemoveOp? {
      RetainDistinct(j.entries, op.ids);
    }
  }

  // ----- `changed` tells the truth -----

  lemma UnchangedMarks(j: Journal, id: string, now: u64, failure: DeliveryFailure)
    ensures var c := MarkPublished(j, id); c.Applied? && !c.changed ==> c.journal == j
    ensures var c := MarkFailed(j, id, now, failure); c.Applied? && !c.changed ==> c.journal == j
    ensures var c := MarkCleanupFailed(j, id, now, failure);
            c.Applied? && !c.changed ==> c.journal == j
  {
    match Find(j.entries, id) {
      case None =>
      case Some(i) =>
        var e := j.entries[i];
        assert WithEntry(j, i, e) == j by { assert j.entries[i := e] == j.entries; }
        if e.publicationFailure == Some(failure) && e.publicationPaused != failure.IsRetryable()
           && !(!e.published && e.nextRetryAt <= now) {
          assert FailedEntry(e, now, failure) == e;
        }
        if e.cleanupFailure == Some(failure) && e.cleanupPaused != failure.IsRetryable()
           && e.nextCleanupAt > now {
          assert CleanupFailedEntry(e, now, failure) == e;
        }
    }
  }

  lemma UnchangedScopes(j: Journal, peer: Key, scope: string, at: u64)
    ensures var c := CompleteScope(j, peer, scope, at); !c.changed ==> c.journal == j
    ensures var c := ReopenScope(j, peer, scope); !c.changed ==> c.journal == j
  {
    assert forall i | 0 <= i < |j.entries| :: j.entries[i] in j.entries;
    var c := CompleteScope(j, peer, scope, at);
    if !c.changed {
      assert c.journal.entries == j.entries;
    }
    var r := ReopenScope(j, peer, scope);
    if !r.changed {
      assert r.journal.entries == j.entries;
    }
  }

  /** A candidate reported unchanged is the journal itself, so skipping the save loses nothing. */
  lemma UnchangedMeansEqual(j: Journal, op: Operation)
    requires Apply(j, op).Applied? && !Apply(j, op).changed
    ensures Apply(j, op).journal == j
  {
    match op {
      case PublishedOp(id) => UnchangedMarks(j, id, 0, TimedOut);
      case FailedOp(id, now, failure) => UnchangedMarks(j, id, now, failure);
      case CleanupFailedOp(id, now, failure) => UnchangedMarks(j, id, now, failure);
      case CompleteOp(peer, scope, at) => UnchangedScopes(j, peer, scope, at);
      case ReopenOp(peer, scope) => UnchangedScopes(j, peer, scope, 0);
      case _ =>
    }
  }

  // ----- repeating a reservation -----

  /** Preparing a reservation that has an entry returns that entry's bytes. */
  lemma ReservedBytesAreReturned(j: Journal, e: Entry, expiry: Option<u64>, made: Option<Prepared>, bytes: nat)
    requires Validate(j) && e in j.entries
    ensures var c := Prepare(j, e.peer, e.scope, e.content, expiry, made, bytes);
            c.Applied? && c.value == e.prepared
  {
    var i :| 0 <= i < |j.entries| && j.entries[i] == e;
    var found := FindReservation(j.entries, e.peer, e.scope, e.content);
    assert found.Some?;
    if found.value != i {
      assert SameReservation(j.entries[i], j.entries[found.value]);
    }
  }

  // ----- reopening beats a deletion in flight -----

  /** After `ReopenScope` a deletion already in flight can neither remove the entry nor record a
      failure on it, and the entry is due for republication of its exact bytes unless paused. */
  lemma ReopenedEntrySurvivesLateDeletion(j: Journal, peer: Key, scope: string, i: nat, now: u64,
                                          later: u64, failure: DeliveryFailure)
    requires Validate(j) && i < |j.entries| && ReopensEntry(j.entries[i], peer, scope)
    ensures var k := ReopenScope(j, peer, scope).journal;
            var id := j.entries[i].prepared.id;
            && RemoveDeleted(k, {id}, now) == Refused(RemovalBeforeCleanup)
            && MarkCleanupFailed(k, id, now, failure) == Applied(k, false, ())
            && SameResource(j.entries[i], k.entries[i])
            && (PublicationDue(k.entries[i], later) <==> !j.entries[i].publicationPaused)
  {
    var k := ReopenScope(j, peer, scope).journal;
    var e := k.entries[i];
    assert e in k.entries && !CleanupDue(e, now);
    var found := Find(k.entries, e.prepared.id);
    assert found.Some?;
    OperationPointwise(j, ReopenOp(peer, scope));
    PointwiseKeepsValid(j, k, None);
    assert found.value == i;
  }

  /** Completing again keeps the first deadline. */
  lemma FirstDeadlineStands(j: Journal, peer: Key, scope: string, first: u64, second: u64)
    ensures var once := CompleteScope(j, peer, scope, first).journal;
            CompleteScope(once, peer, scope, second) == Applied(once, false, ())
  {
    var once := CompleteScope(j, peer, scope, first).journal;
    var twice := CompleteScope(once, peer, scope, second);
    forall e | e in once.entries
      ensures !CompletesEntry(e, peer, scope)
    {
      var i :| 0 <= i < |once.entries| && once.entries[i] == e;
      assert e == CompletedEntry(j.entries[i], peer, scope, first);
    }
    assert forall i | 0 <= i < |once.entries| :: once.entries[i] in once.entries;
    assert twice.journal.entries == once.entries;
  }

  // ----- backoff -----

  /** The delay doubles from one second, never shrinks as attempts grow, and reaches its five
      minute ceiling at exactly the tenth attempt. */
  lemma DelayDoublesToItsCeiling(a: u32, b: u32)
    requires 0 < a <= b
    ensures 1 <= Delay(a) <= Delay(b) <= MAX_RETRY_DELAY
    ensures Delay(a) == MAX_RETRY_DELAY <==> 10 <= a
    ensures a < 10 ==> Delay(a) == Pow2(a - 1)
  {
    assert Pow2(8) == 256 && Pow2(9) == 512;
    Pow2Monotone(a - 1, b - 1);
    if a < 10 {
      Pow2Monotone(a - 1, 8);
    } else {
      Pow2Monotone(9, a - 1);
    }
    Pow2Monotone(9, Max(9, b - 1));
  }

  /** Only a timeout, an unreachable store and the temporary statuses are retried on their own. */
  lemma RetryableReasons(reason: FailureReason)
    ensures FromReason(reason).IsRetryable() <==>
              || reason.RequestTimedOut?
              || reason.TransportError?
              || (reason.HttpStatus? && TemporaryStatus(reason.status))
              || (reason.HttpAuthentication? && TemporaryStatus(reason.status))
  {
  }

  // ----- byte headroom -----

  const MIN_VARIABLE := 9

  lemma {:induction false} DigitsAtMost(n: nat, width: nat, bound: nat)
    requires 0 < width && n < bound && bound <= PowerOfTen(width)
    ensures Digits(n) <= width
    decreases width
  {
    if width > 1 && n >= 10 {
      DigitsAtMost(n / 10, width - 1, n / 10 + 1);
    }
  }

  function PowerOfTen(n: nat): nat {
    if n == 0 then 1 else 10 * PowerOfTen(n - 1)
  }

  lemma WidthsOfTheWordSizes(small: u16, medium: u32, large: u64)
    ensures Digits(small) <= 5 && Digits(medium) <= 10 && Digits(large) <= 20
  {
    assert PowerOfTen(5) == 100_000;
    assert PowerOfTen(10) == 10_000_000_000;
    assert PowerOfTen(20) == 100_000_000_000_000_000_000;
    DigitsAtMost(small, 5, MAX_U16 + 1);
    DigitsAtMost(medium, 10, MAX_U32 + 1);
    DigitsAtMost(large, 20, MAX_U64 + 1);
  }

  lemma FailureFits(f: DeliveryFailure)
    ensures FailureBytes(f) <= 24
  {
    match f {
      case TemporaryHttp(s) => WidthsOfTheWordSizes(s, 0, 0);
      case Authentication(s) => WidthsOfTheWordSizes(s, 0, 0);
      case PermanentHttp(s) => WidthsOfTheWordSizes(s, 0, 0);
      case _ =>
    }
  }

  lemma OptionalFailureFits(name: string, f: Option<DeliveryFailure>)
    ensures OptionalFailureBytes(name, f) <= |name| + 28
  {
    if f.Some? {
      FailureFits(f.value);
    }
  }

  /** Everything updates can change about one entry takes between 9 and 223 bytes. */
  lemma VariablePartIsSmall(e: Entry)
    ensures MIN_VARIABLE <= VariableBytes(e) <= 223
  {
    WidthsOfTheWordSizes(0, e.attempts, e.nextRetryAt);
    WidthsOfTheWordSizes(0, e.cleanupAttempts, e.nextCleanupAt);
    if e.cleanupAfter.Some? {
      WidthsOfTheWordSizes(0, 0, e.cleanupAfter.value);
    }
    OptionalFailureFits("publication_failure", e.publicationFailure);
    OptionalFailureFits("cleanup_failure", e.cleanupFailure);
  }

  /** What the entries would take with every variable field at its shortest plus the headroom
      `Prepare` reserves. No update changes it. */
  function ReservedBytes(entries: seq<Entry>): nat {
    if entries == [] then 0
    else
      entries[0].identityBytes + MIN_VARIABLE + ENTRY_HEADROOM
      + (if |entries| == 1 then 0 else 1) + ReservedBytes(entries[1..])
  }

  ghost predicate WithinReservation(j: Journal) {
    HeaderBytes(j) + ReservedBytes(j.entries) <= MAX_BYTES
  }

  lemma {:induction false} ReservationCoversEntries(entries: seq<Entry>)
    ensures EntriesBytes(entries) <= ReservedBytes(entries)
    ensures ReservedBytes(entries) <= EntriesBytes(entries) + |entries| * ENTRY_HEADROOM
  {
    if entries != [] {
      VariablePartIsSmall(entries[0]);
      ReservationCoversEntries(entries[1..]);
    }
  }

  /** A journal within its reservation always fits the file. */
  lemma ReservationFits(j: Journal)
    requires WithinReservation(j)
    ensures JournalBytes(j) <= MAX_BYTES
  {
    ReservationCoversEntries(j.entries);
  }

  lemma {:induction false} ReservationIgnoresUpdates(a: seq<Entry>, b: seq<Entry>)
    requires |a| == |b| && forall i | 0 <= i < |a| :: SameResource(a[i], b[i])
    ensures ReservedBytes(a) == ReservedBytes(b)
  {
    if a != [] {
      assert SameResource(a[0], b[0]);
      assert forall i | 0 <= i < |a[1..]| :: a[1..][i] == a[i + 1] && b[1..][i] == b[i + 1];
      ReservationIgnoresUpdates(a[1..], b[1..]);
    }
  }

  lemma {:induction false} RemovalOnlyFreesBytes(entries: seq<Entry>, ids: set<string>)
    ensures ReservedBytes(Retain(entries, ids)) <= ReservedBytes(entries)
    ensures entries != [] && Retain(entries, ids) == [] ==>
              ReservedBytes(Retain(entries, ids)) + 1 <= ReservedBytes(entries)
  {
    if entries != [] {
      RemovalOnlyFreesBytes(entries[1..], ids);
    }
  }

  lemma PointwiseKeepsReservation(j: Journal, k: Journal, confirmed: Option<string>)
    requires WithinReservation(j) && Pointwise(j, k, confirmed)
    ensures WithinReservation(k)
  {
    assert forall i | 0 <= i < |j.entries| ::
      EntryStep(j.entries[i], k.entries[i]) ==> SameResource(j.entries[i], k.entries[i]);
    ReservationIgnoresUpdates(j.entries, k.entries);
  }

  /** What `Prepare` admits is within its reservation. */
  lemma AdmissionReserves(j: Journal, op: Operation)
    requires op.PrepareOp? && !KeepsResources(j, op) && Apply(j, op).Applied?
    ensures WithinReservation(Apply(j, op).journal)
  {
    ReservationCoversEntries(Apply(j, op).journal.entries);
  }

  /** Admission is the only operation that needs the byte check: no operation leaves the
      reservation the journal was admitted within. */
  lemma OperationKeepsReservation(j: Journal, op: Operation)
    requires WithinReservation(j) && Apply(j, op).Applied?
    ensures WithinReservation(Apply(j, op).journal)
  {
    if KeepsResources(j, op) {
      OperationPointwise(j, op);
      PointwiseKeepsReservation(j, Apply(j, op).journal, Confirms(op));
    } else if op.RemoveOp? {
      RemovalOnlyFreesBytes(j.entries, op.ids);
    } else {
      AdmissionReserves(j, op);
    }
  }
}
