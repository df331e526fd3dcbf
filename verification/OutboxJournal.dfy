/** The outbox journal as a value: its entries, what each operation does to a candidate copy, and
    how many bytes the saved file takes. */
module OutboxJournal {
  import opened Durability

  const VERSION := 1
  const MAX_ENTRIES := 1024
  const MAX_EPHEMERAL_ENTRIES := 768
  const MAX_BATCH := 64
  const MAX_BYTES := 16 * 1024 * 1024
  const MAX_PAYLOAD := 128 * 1024
  const ENTRY_HEADROOM := 512
  const MAX_RETRY_DELAY := 300
  const EPHEMERAL := "ephemeral:"

  // ----- failures -----

  datatype DeliveryFailure =
    | TemporaryHttp(status: u16)
    | TransportUnavailable
    | TimedOut
    | Authentication(status: u16)
    | PermanentHttp(status: u16)
    | InvalidRequest
  {
    predicate IsRetryable() {
      TemporaryHttp? || TransportUnavailable? || TimedOut?
    }
  }

  /** What the messenger says went wrong with one request. */
  datatype FailureReason =
    | HttpStatus(status: u16)
    | HttpAuthentication(status: u16)
    | RequestTimedOut
    | TransportError
    | ListingStalled
    | ListingTooLong
    | OutsideConversation

  predicate TemporaryStatus(status: u16) {
    status == 408 || status == 429 || 500 <= status <= 599
  }

  function FromReason(reason: FailureReason): DeliveryFailure {
    match reason
    case HttpStatus(status) =>
      if TemporaryStatus(status) then TemporaryHttp(status)
      else if status == 401 || status == 403 then Authentication(status)
      else PermanentHttp(status)
    case HttpAuthentication(status) =>
      if TemporaryStatus(status) then TemporaryHttp(status) else Authentication(status)
    case RequestTimedOut => TimedOut
    case TransportError => TransportUnavailable
    case ListingStalled => InvalidRequest
    case ListingTooLong => InvalidRequest
    case OutsideConversation => InvalidRequest
  }

  datatype DeliveryOperation = Publication | Cleanup

  datatype Error =
    | WriteFailed
    | SaveFailed
    | InvalidScope
    | EphemeralCapacity
    | OutboxFull
    | ScopeCompleted
    | PreparationFailed
    | RecipientMismatch
    | OwnerMismatch
    | InvalidJournal
    | ByteCapacity
    | UnknownResource
    | PublicationAfterCleanup
    | CleanupBeforeCompletion
    | RemovalBeforeCleanup
    | Paused(operation: DeliveryOperation, failure: DeliveryFailure)

  // ----- entries -----

  /** A pkarr key as text, and whether parsing it and printing it back gives the same text. */
  datatype Key = Key(text: string, canonical: bool)

  /** An encrypted, signed message. `authentic` is the messenger's own check of the signature. */
  datatype Prepared = Prepared(
    version: nat, id: string, owner: Key, recipient: Key, payload: string, authentic: bool)

  /** `content` stands for its digest, `identityBytes` for the serialized length of everything in
      the entry that no update changes. */
  datatype Entry = Entry(
    peer: Key,
    scope: string,
    content: string,
    prepared: Prepared,
    identityBytes: nat,
    published: bool,
    attempts: u32,
    nextRetryAt: u64,
    cleanupAfter: Option<u64>,
    cleanupAttempts: u32,
    nextCleanupAt: u64,
    publicationFailure: Option<DeliveryFailure>,
    publicationPaused: bool,
    cleanupFailure: Option<DeliveryFailure>,
    cleanupPaused: bool)

  datatype Journal = Journal(version: nat, owner: Option<Key>, entries: seq<Entry>)

  const EMPTY := Journal(VERSION, None, [])

  function NewEntry(peer: Key, scope: string, content: string, prepared: Prepared,
                    identityBytes: nat, expiry: Option<u64>): Entry {
    Entry(peer, scope, content, prepared, identityBytes, false, 0, 0, expiry, 0, 0,
          None, false, None, false)
  }

  predicate CleanupDue(e: Entry, now: u64) {
    e.cleanupAfter.Some? && e.cleanupAfter.value <= now
  }

  /** The bytes a character takes in UTF-8. */
  function CharBytes(c: char): nat {
    if c < '\U{80}' then 1 else if c < '\U{800}' then 2 else if c < '\U{10000}' then 3 else 4
  }

  function StringBytes(s: string): nat {
    if s == [] then 0 else CharBytes(s[0]) + StringBytes(s[1..])
  }

  /** The two blocks of control characters. */
  predicate Control(c: char) {
    c < ' ' || '\U{7F}' <= c <= '\U{9F}'
  }

  predicate ScopeOk(peer: Key, scope: string) {
    && scope != [] && StringBytes(scope) <= 512
    && (forall c | c in scope :: !Control(c))
    && peer.canonical
  }

  predicate InScope(e: Entry, peer: Key, scope: string) {
    e.peer == peer && e.scope == scope
  }

  predicate Ephemeral(scope: string) {
    EPHEMERAL <= scope
  }

  // ----- validation -----

  predicate IdCharacter(c: char) {
    '0' <= c <= '9' || 'a' <= c <= 'z' || 'A' <= c <= 'Z' || c == '-'
  }

  predicate PauseOk(paused: bool, failure: Option<DeliveryFailure>) {
    paused ==> failure.Some? && !failure.value.IsRetryable()
  }

  predicate EntryOk(e: Entry, owner: Option<Key>) {
    && ScopeOk(e.peer, e.scope)
    && PauseOk(e.publicationPaused, e.publicationFailure)
    && PauseOk(e.cleanupPaused, e.cleanupFailure)
    && e.prepared.authentic
    && e.prepared.version == 1
    && e.prepared.recipient == e.peer
    && owner == Some(e.prepared.owner)
    && 0 < |e.prepared.payload| <= MAX_PAYLOAD
    && 0 < |e.prepared.id| <= 128
    && (forall c | c in e.prepared.id :: IdCharacter(c))
  }

  predicate SameReservation(a: Entry, b: Entry) {
    a.peer == b.peer && a.scope == b.scope && a.content == b.content
  }

  predicate Distinct(entries: seq<Entry>) {
    forall i, j | 0 <= i < j < |entries| ::
      entries[i].prepared.id != entries[j].prepared.id && !SameReservation(entries[i], entries[j])
  }

  predicate Validate(j: Journal) {
    && j.version == VERSION
    && |j.entries| <= MAX_ENTRIES
    && (j.owner.Some? ==> j.owner.value.canonical)
    && (forall e | e in j.entries :: EntryOk(e, j.owner))
    && Distinct(j.entries)
  }

  // ----- serialized size -----

  function Digits(n: nat): (d: nat)
    ensures 1 <= d
  {
    if n < 10 then 1 else 1 + Digits(n / 10)
  }

  function TextBytes(length: nat): nat {
    length + 2
  }

  /** `"temporary_http"` and its siblings: unit variants are strings, the others one-field objects. */
  function FailureBytes(f: DeliveryFailure): nat {
    match f
    case TemporaryHttp(status) => TextBytes(|"temporary_http"|) + 3 + Digits(status)
    case Authentication(status) => TextBytes(|"authentication"|) + 3 + Digits(status)
    case PermanentHttp(status) => TextBytes(|"permanent_http"|) + 3 + Digits(status)
    case TransportUnavailable => TextBytes(|"transport_unavailable"|)
    case TimedOut => TextBytes(|"timed_out"|)
    case InvalidRequest => TextBytes(|"invalid_request"|)
  }

  function FieldBytes(name: string): nat {
    1 + TextBytes(|name|) + 1
  }

  function OptionalFailureBytes(name: string, f: Option<DeliveryFailure>): nat {
    if f.None? then 0 else FieldBytes(name) + FailureBytes(f.value)
  }

  function OptionalFlagBytes(name: string, flag: bool): nat {
    if flag then FieldBytes(name) + 4 else 0
  }

  /** The part of one entry's serialization that updates can lengthen. */
  function VariableBytes(e: Entry): nat {
    (if e.published then 4 else 5)
    + Digits(e.attempts)
    + Digits(e.nextRetryAt)
    + (if e.cleanupAfter.None? then 4 else Digits(e.cleanupAfter.value))
    + Digits(e.cleanupAttempts)
    + Digits(e.nextCleanupAt)
    + OptionalFailureBytes("publication_failure", e.publicationFailure)
    + OptionalFlagBytes("publication_paused", e.publicationPaused)
    + OptionalFailureBytes("cleanup_failure", e.cleanupFailure)
    + OptionalFlagBytes("cleanup_paused", e.cleanupPaused)
  }

  function EntryBytes(e: Entry): nat {
    e.identityBytes + VariableBytes(e)
  }

  /** Entries, with one comma between neighbours. */
  function EntriesBytes(entries: seq<Entry>): nat {
    if entries == [] then 0
    else EntryBytes(entries[0]) + (if |entries| == 1 then 0 else 1) + EntriesBytes(entries[1..])
  }

  function HeaderBytes(j: Journal): nat {
    |"{\"version\":,\"owner\":,\"entries\":[]}"| + Digits(j.version)
    + if j.owner.None? then 4 else TextBytes(|j.owner.value.text|)
  }

  function JournalBytes(j: Journal): nat {
    HeaderBytes(j) + EntriesBytes(j.entries)
  }

  // ----- one operation on a candidate copy -----

  /** What a change closure returns: a candidate and whether it differs, or a refusal. */
  datatype Change<+T> =
    | Applied(journal: Journal, changed: bool, value: T)
    | Refused(error: Error)

  datatype Outcome<+T> = Done(value: T) | Failed(error: Error)

  /** Replacing the file is refused before it is opened when the journal is over the byte limit. */
  function Saving(next: Journal, write: Write): Write {
    if JournalBytes(next) > MAX_BYTES then FailedOld else write
  }

  function Update<T>(d: Durable<Journal>, change: Change<T>, write: Write)
    : (Durable<Journal>, Outcome<T>)
  {
    if d.failed then (d, Failed(WriteFailed))
    else
      match change
      case Refused(error) => (d, Failed(error))
      case Applied(next, changed, value) =>
        if !changed then (d, Done(value))
        else
          var saving := Saving(next, write);
          (d.Commit(next, saving), if saving.Saved? then Done(value) else Failed(SaveFailed))
  }

  function Find(entries: seq<Entry>, id: string): (r: Option<nat>)
    ensures r.Some? ==> r.value < |entries| && entries[r.value].prepared.id == id
    ensures r.None? <==> forall e | e in entries :: e.prepared.id != id
  {
    if entries == [] then None
    else if entries[0].prepared.id == id then Some(0)
    else
      match Find(entries[1..], id)
      case None =>
        assert forall e | e in entries :: e == entries[0] || e in entries[1..];
        None
      case Some(i) => Some(i + 1)
  }

  function FindReservation(entries: seq<Entry>, peer: Key, scope: string, content: string)
    : (r: Option<nat>)
    ensures r.Some? ==> r.value < |entries|
                        && InScope(entries[r.value], peer, scope) && entries[r.value].content == content
    ensures r.None? <==> forall e | e in entries :: !(InScope(e, peer, scope) && e.content == content)
  {
    if entries == [] then None
    else if InScope(entries[0], peer, scope) && entries[0].content == content then Some(0)
    else
      match FindReservation(entries[1..], peer, scope, content)
      case None =>
        assert forall e | e in entries :: e == entries[0] || e in entries[1..];
        None
      case Some(i) => Some(i + 1)
  }

  function CountEphemeral(entries: seq<Entry>): nat {
    if entries == [] then 0
    else (if Ephemeral(entries[0].scope) then 1 else 0) + CountEphemeral(entries[1..])
  }

  function WithEntry(j: Journal, i: nat, e: Entry): Journal
    requires i < |j.entries|
  {
    j.(entries := j.entries[i := e])
  }

  /** Reserve encrypted bytes, or return the ones already reserved. `made` is what the preparation
      closure returns if it is run. */
  function Prepare(j: Journal, peer: Key, scope: string, content: string, expiry: Option<u64>,
                   made: Option<Prepared>, identityBytes: nat): Change<Prepared>
  {
    match FindReservation(j.entries, peer, scope, content)
    case Some(i) =>
      var e := j.entries[i];
      if e.cleanupAfter.None? && expiry.Some?
      then Applied(WithEntry(j, i, e.(cleanupAfter := expiry)), true, e.prepared)
      else Applied(j, false, e.prepared)
    case None =>
      if Ephemeral(scope) && CountEphemeral(j.entries) >= MAX_EPHEMERAL_ENTRIES then
        Refused(EphemeralCapacity)
      else if |j.entries| >= MAX_ENTRIES then Refused(OutboxFull)
      else if exists e | e in j.entries :: InScope(e, peer, scope) && e.cleanupAfter.Some? then
        Refused(ScopeCompleted)
      else if made.None? then Refused(PreparationFailed)
      else if made.value.recipient != peer then Refused(RecipientMismatch)
      else if j.owner.Some? && j.owner.value != made.value.owner then Refused(OwnerMismatch)
      else Admission(j, NewEntry(peer, scope, content, made.value, identityBytes, expiry))
  }

  /** The journal with one more entry, if it is valid and leaves every entry its headroom. */
  function Admission(j: Journal, added: Entry): Change<Prepared> {
    var next := Journal(j.version, Some(added.prepared.owner), j.entries + [added]);
    if !Validate(next) then Refused(InvalidJournal)
    else if JournalBytes(next) + |next.entries| * ENTRY_HEADROOM > MAX_BYTES then Refused(ByteCapacity)
    else Applied(next, true, added.prepared)
  }

  /** Whether `Prepare` gets as far as running the preparation closure. */
  predicate RunsPreparation(j: Journal, peer: Key, scope: string, content: string) {
    && FindReservation(j.entries, peer, scope, content).None?
    && !(Ephemeral(scope) && CountEphemeral(j.entries) >= MAX_EPHEMERAL_ENTRIES)
    && |j.entries| < MAX_ENTRIES
    && !(exists e | e in j.entries :: InScope(e, peer, scope) && e.cleanupAfter.Some?)
  }

  function MarkPublished(j: Journal, id: string): Change<()> {
    match Find(j.entries, id)
    case None => Refused(UnknownResource)
    case Some(i) =>
      var e := j.entries[i];
      Applied(WithEntry(j, i, e.(published := true, publicationPaused := false)),
              !e.published || e.publicationPaused, ())
  }

  function CanPublish(j: Journal, id: string, now: u64): Outcome<bool> {
    match Find(j.entries, id)
    case None => Done(false)
    case Some(i) =>
      var e := j.entries[i];
      if e.publicationPaused then
        Failed(Paused(Publication, if e.publicationFailure.Some? then e.publicationFailure.value
                                   else InvalidRequest))
      else Done(!CleanupDue(e, now))
  }

  /** Seconds before retry number `attempts`: doubling from one, at most five minutes. */
  function Delay(attempts: u32): nat
    requires 0 < attempts
  {
    Min(if attempts - 1 < 64 then Pow2(attempts - 1) else MAX_U64, MAX_RETRY_DELAY)
  }

  function FailedEntry(e: Entry, now: u64, failure: DeliveryFailure): Entry {
    var paused := e.(publicationFailure := Some(failure), publicationPaused := !failure.IsRetryable());
    if !e.published && e.nextRetryAt <= now then
      var attempts: u32 := SaturatingAdd32(e.attempts, 1);
      paused.(attempts := attempts, nextRetryAt := SaturatingAdd64(now, Delay(attempts)))
    else paused
  }

  function MarkFailed(j: Journal, id: string, now: u64, failure: DeliveryFailure): Change<()> {
    match Find(j.entries, id)
    case None => Refused(UnknownResource)
    case Some(i) =>
      var e := j.entries[i];
      if CleanupDue(e, now) then Applied(j, false, ())
      else
        Applied(WithEntry(j, i, FailedEntry(e, now, failure)),
                || e.publicationFailure != Some(failure)
                || e.publicationPaused == failure.IsRetryable()
                || (!e.published && e.nextRetryAt <= now),
                ())
  }

  predicate PublicationDue(e: Entry, now: u64) {
    !e.published && !e.publicationPaused && e.nextRetryAt <= now && !CleanupDue(e, now)
  }

  predicate CompletesEntry(e: Entry, peer: Key, scope: string) {
    InScope(e, peer, scope) && e.cleanupAfter.None?
  }

  function CompletedEntry(e: Entry, peer: Key, scope: string, eligibleAfter: u64): Entry {
    if CompletesEntry(e, peer, scope) then e.(cleanupAfter := Some(eligibleAfter)) else e
  }

  function CompleteScope(j: Journal, peer: Key, scope: string, eligibleAfter: u64): Change<()> {
    Applied(j.(entries := seq(|j.entries|, i requires 0 <= i < |j.entries| =>
                                CompletedEntry(j.entries[i], peer, scope, eligibleAfter))),
            exists e | e in j.entries :: CompletesEntry(e, peer, scope),
            ())
  }

  predicate ReopensEntry(e: Entry, peer: Key, scope: string) {
    InScope(e, peer, scope) && e.cleanupAfter.Some?
  }

  function ReopenedEntry(e: Entry, peer: Key, scope: string): Entry {
    if ReopensEntry(e, peer, scope) then
      e.(cleanupAfter := None, cleanupAttempts := 0, nextCleanupAt := 0,
         published := false, attempts := 0, nextRetryAt := 0)
    else e
  }

  function ReopenScope(j: Journal, peer: Key, scope: string): Change<()> {
    Applied(j.(entries := seq(|j.entries|, i requires 0 <= i < |j.entries| =>
                                ReopenedEntry(j.entries[i], peer, scope))),
            exists e | e in j.entries :: ReopensEntry(e, peer, scope),
            ())
  }

  predicate CleanupReady(e: Entry, now: u64) {
    CleanupDue(e, now) && !e.cleanupPaused && e.nextCleanupAt <= now
  }

  predicate CanCleanup(j: Journal, id: string, now: u64) {
    exists e | e in j.entries :: e.prepared.id == id && CleanupReady(e, now)
  }

  function CleanupFailedEntry(e: Entry, now: u64, failure: DeliveryFailure): Entry {
    var paused := e.(cleanupFailure := Some(failure), cleanupPaused := !failure.IsRetryable());
    if e.nextCleanupAt <= now then
      var attempts: u32 := SaturatingAdd32(e.cleanupAttempts, 1);
      paused.(cleanupAttempts := attempts, nextCleanupAt := SaturatingAdd64(now, Delay(attempts)))
    else paused
  }

  function MarkCleanupFailed(j: Journal, id: string, now: u64, failure: DeliveryFailure): Change<()> {
    match Find(j.entries, id)
    case None => Refused(UnknownResource)
    case Some(i) =>
      var e := j.entries[i];
      if !CleanupDue(e, now) then Applied(j, false, ())
      else
        Applied(WithEntry(j, i, CleanupFailedEntry(e, now, failure)),
                || e.cleanupFailure != Some(failure)
                || e.cleanupPaused == failure.IsRetryable()
                || e.nextCleanupAt <= now,
                ())
  }

  function Retry(j: Journal, id: string, operation: DeliveryOperation, now: u64): Change<()> {
    match Find(j.entries, id)
    case None => Refused(UnknownResource)
    case Some(i) =>
      var e := j.entries[i];
      match operation
      case Publication =>
        if CleanupDue(e, now) then Refused(PublicationAfterCleanup)
        else
          Applied(WithEntry(j, i, e.(publicationPaused := false, published := false,
                                     nextRetryAt := now)), true, ())
      case Cleanup =>
        if e.cleanupAfter.None? then Refused(CleanupBeforeCompletion)
        else Applied(WithEntry(j, i, e.(cleanupPaused := false, nextCleanupAt := now)), true, ())
  }

  function Retain(entries: seq<Entry>, ids: set<string>): (kept: seq<Entry>)
    ensures |kept| <= |entries|
    ensures forall e :: e in kept <==> e in entries && e.prepared.id !in ids
    ensures |kept| == |entries| ==> kept == entries
  {
    if entries == [] then []
    else if entries[0].prepared.id in ids then Retain(entries[1..], ids)
    else [entries[0]] + Retain(entries[1..], ids)
  }

  function RemoveDeleted(j: Journal, ids: set<string>, now: u64): Change<()> {
    if exists e | e in j.entries :: e.prepared.id in ids && !CleanupDue(e, now) then
      Refused(RemovalBeforeCleanup)
    else
      var kept := Retain(j.entries, ids);
      Applied(j.(entries := kept), |kept| != |j.entries|, ())
  }

  /** One call on the journal, as data. */
  datatype Operation =
    | PrepareOp(peer: Key, scope: string, content: string, expiry: Option<u64>,
                made: Option<Prepared>, identityBytes: nat)
    | PublishedOp(id: string)
    | FailedOp(id: string, now: u64, failure: DeliveryFailure)
    | CompleteOp(peer: Key, scope: string, eligibleAfter: u64)
    | ReopenOp(peer: Key, scope: string)
    | CleanupFailedOp(id: string, now: u64, failure: DeliveryFailure)
    | RetryOp(id: string, operation: DeliveryOperation, now: u64)
    | RemoveOp(ids: set<string>, now: u64)

  function Forget<T>(c: Change<T>): Change<()> {
    match c
    case Applied(journal, changed, _) => Applied(journal, changed, ())
    case Refused(error) => Refused(error)
  }

  function Apply(j: Journal, op: Operation): Change<()> {
    match op
    case PrepareOp(peer, scope, content, expiry, made, bytes) =>
      Forget(Prepare(j, peer, scope, content, expiry, made, bytes))
    case PublishedOp(id) => MarkPublished(j, id)
    case FailedOp(id, now, failure) => MarkFailed(j, id, now, failure)
    case CompleteOp(peer, scope, eligibleAfter) => CompleteScope(j, peer, scope, eligibleAfter)
    case ReopenOp(peer, scope) => ReopenScope(j, peer, scope)
    case CleanupFailedOp(id, now, failure) => MarkCleanupFailed(j, id, now, failure)
    case RetryOp(id, operation, now) => Retry(j, id, operation, now)
    case RemoveOp(ids, now) => RemoveDeleted(j, ids, now)
  }

  /** Opening validates whatever the file holds; a missing file becomes the empty journal. */
  function OpenFile(saved: Option<Journal>): Outcome<Journal> {
    match saved
    case None => Done(EMPTY)
    case Some(j) =>
      if JournalBytes(j) > MAX_BYTES then Failed(ByteCapacity)
      else if !Validate(j) then Failed(InvalidJournal)
      else Done(j)
  }
}
