/** Publication and deletion racing over one homeserver.

    `Transport` runs both as tasks that share one mutex per resource, while completion, reopening
    and retries take no such lock. This module is that concurrency: every interleaving of the
    tasks, of lost or failed writes, of abandoned tasks and of restarts is a sequence of steps.
    A remote call may take effect any time until it returns or is abandoned, and never after. */
module OutboxProtocol {
  import opened Durability
  import opened OutboxJournal
  import opened OutboxLaws

  datatype Work = Publish | Delete

  /** `Waiting` holds the resource's lock object but not the lock. The other phases hold both. */
  datatype Phase = Waiting | Calling(landed: bool) | Returned(ok: bool)

  datatype Task = Task(work: Work, prepared: Prepared, lock: nat, phase: Phase) {
    predicate Critical() {
      !phase.Waiting?
    }
    predicate TookEffect() {
      (phase.Calling? && phase.landed) || (phase.Returned? && phase.ok)
    }
  }

  /** `locks` is the registry of weak references; a lock object is alive while a task holds it.
      `issued` remembers every resource ever prepared, and for which reservation. */
  datatype System = System(
    outbox: Durable<Journal>,
    remote: map<string, string>,
    tasks: map<nat, Task>,
    locks: map<string, nat>,
    nextLock: nat,
    issued: map<string, Issue>)

  datatype Issue = Issue(prepared: Prepared, peer: Key, scope: string, content: string)

  function IssueOf(e: Entry): Issue {
    Issue(e.prepared, e.peer, e.scope, e.content)
  }

  datatype Step =
    | Call(op: Operation, write: Write)
    | Queue(task: nat, work: Work, prepared: Prepared)
    | Begin(task: nat, now: u64)
    | Land(task: nat)
    | Return(task: nat, ok: bool)
    | Finish(task: nat, now: u64, failure: DeliveryFailure, write: Write)
    | Abandon(task: nat)
    | Restart

  const INITIAL := System(Durable(EMPTY, EMPTY, false), map[], map[], map[], 0, map[])

  predicate Live(s: System, lock: nat) {
    exists k | k in s.tasks :: s.tasks[k].lock == lock
  }

  /** `resource_lock`: upgrade the registered lock if a task still holds it, else register a new one. */
  function LockFor(s: System, id: string): nat {
    if id in s.locks && Live(s, s.locks[id]) then s.locks[id] else s.nextLock
  }

  predicate LockFree(s: System, lock: nat) {
    forall k | k in s.tasks :: s.tasks[k].lock == lock ==> !s.tasks[k].Critical()
  }

  function Drop(s: System, k: nat): System {
    s.(tasks := s.tasks - {k})
  }

  function Save(s: System, op: Operation, write: Write): System {
    s.(outbox := Update(s.outbox, Apply(s.outbox.memory, op), write).0)
  }

  predicate Fresh(s: System, op: Operation) {
    op.PrepareOp? && op.made.Some? && !s.outbox.failed
    && RunsPreparation(s.outbox.memory, op.peer, op.scope, op.content)
  }

  function NewIssue(op: Operation): Issue
    requires op.PrepareOp? && op.made.Some?
  {
    Issue(op.made.value, op.peer, op.scope, op.content)
  }

  function DoCall(s: System, op: Operation, write: Write): System {
    if op.PublishedOp? || op.FailedOp? || op.CleanupFailedOp? || op.RemoveOp? then s
    else if !op.RetryOp? && !ScopeOk(op.peer, op.scope) then s
    else if Fresh(s, op) then
      // Message ids are never reused, so a preparation that repeats one is not a run.
      if op.made.value.id in s.issued then s
      else Save(s, op, write).(issued := s.issued[op.made.value.id := NewIssue(op)])
    else Save(s, op, write)
  }

  function DoQueue(s: System, k: nat, work: Work, prepared: Prepared): System {
    if k in s.tasks || prepared.id !in s.issued || s.issued[prepared.id].prepared != prepared then s
    else
      var lock := LockFor(s, prepared.id);
      s.(tasks := s.tasks[k := Task(work, prepared, lock, Waiting)],
         locks := s.locks[prepared.id := lock],
         nextLock := Max(s.nextLock, lock + 1))
  }

  predicate Allowed(s: System, t: Task, now: u64) {
    && !s.outbox.failed
    && match t.work
       case Publish => CanPublish(s.outbox.memory, t.prepared.id, now) == Done(true)
       case Delete => CanCleanup(s.outbox.memory, t.prepared.id, now)
  }

  /** Take the lock, then recheck: whatever queued this task may no longer hold. */
  function DoBegin(s: System, k: nat, now: u64): System {
    if k !in s.tasks then s
    else
      var t := s.tasks[k];
      if t.Critical() || !LockFree(s, t.lock) then s
      else if Allowed(s, t, now) then s.(tasks := s.tasks[k := t.(phase := Calling(false))])
      else Drop(s, k)
  }

  function DoLand(s: System, k: nat): System {
    if k !in s.tasks || !s.tasks[k].phase.Calling? then s
    else
      var t := s.tasks[k];
      s.(tasks := s.tasks[k := t.(phase := Calling(true))],
         remote := match t.work
                   case Publish => s.remote[t.prepared.id := t.prepared.payload]
                   case Delete => s.remote - {t.prepared.id})
  }

  function DoReturn(s: System, k: nat, ok: bool): System {
    if k !in s.tasks || !s.tasks[k].phase.Calling? || (ok && !s.tasks[k].phase.landed) then s
    else s.(tasks := s.tasks[k := s.tasks[k].(phase := Returned(ok))])
  }

  function Report(t: Task, now: u64, failure: DeliveryFailure): Operation
    requires t.phase.Returned?
  {
    match t.work
    case Publish =>
      if t.phase.ok then PublishedOp(t.prepared.id) else FailedOp(t.prepared.id, now, failure)
    case Delete =>
      if t.phase.ok then RemoveOp({t.prepared.id}, now)
      else CleanupFailedOp(t.prepared.id, now, failure)
  }

  function DoFinish(s: System, k: nat, now: u64, failure: DeliveryFailure, write: Write): System {
    if k !in s.tasks || !s.tasks[k].phase.Returned? then s
    else Drop(Save(s, Report(s.tasks[k], now, failure), write), k)
  }

  function DoRestart(s: System): System {
    s.(outbox := s.outbox.Restart(), tasks := map[], locks := map[])
  }

  function Next(s: System, step: Step): System {
    match step
    case Call(op, write) => DoCall(s, op, write)
    case Queue(k, work, prepared) => DoQueue(s, k, work, prepared)
    case Begin(k, now) => DoBegin(s, k, now)
    case Land(k) => DoLand(s, k)
    case Return(k, ok) => DoReturn(s, k, ok)
    case Finish(k, now, failure, write) => DoFinish(s, k, now, failure, write)
    case Abandon(k) => Drop(s, k)
    case Restart => DoRestart(s)
  }

  function Run(s: System, steps: seq<Step>): System
    decreases |steps|
  {
    if steps == [] then s else Run(Next(s, steps[0]), steps[1..])
  }

  // ----- the invariant -----

  ghost predicate Has(j: Journal, id: string) {
    exists e :: e in j.entries && e.prepared.id == id
  }

  ghost predicate NoClaim(j: Journal, id: string) {
    forall e | e in j.entries && e.prepared.id == id :: !Claims(e)
  }

  ghost predicate TaskAgrees(j: Journal, t: Task) {
    t.Critical() ==>
      match t.work
      case Publish => Has(j, t.prepared.id)
      case Delete => NoClaim(j, t.prepared.id)
  }

  /** What both the journal in memory and the one on disk satisfy at all times. */
  ghost predicate JournalOk(s: System, j: Journal) {
    && Validate(j)
    && WithinReservation(j)
    && (forall e | e in j.entries ::
          e.prepared.id in s.issued && s.issued[e.prepared.id] == IssueOf(e))
    && (forall id | id in s.remote :: Has(j, id))
    && (forall e | e in j.entries && Claims(e) :: e.prepared.id in s.remote)
    && (forall k | k in s.tasks :: TaskAgrees(j, s.tasks[k]))
  }

  ghost predicate TaskOk(s: System, t: Task) {
    && t.prepared.id in s.issued && s.issued[t.prepared.id].prepared == t.prepared
    && t.prepared.id in s.locks && s.locks[t.prepared.id] == t.lock
    && (t.TookEffect() ==> (t.work.Publish? <==> t.prepared.id in s.remote))
  }

  ghost predicate LocksOk(s: System) {
    && (forall id | id in s.locks :: s.locks[id] < s.nextLock)
    && (forall a, b | a in s.locks && b in s.locks && a != b :: s.locks[a] != s.locks[b])
  }

  /** At most one task is inside the critical section of a resource. */
  ghost predicate Exclusive(s: System) {
    forall a, b | a in s.tasks && b in s.tasks && a != b
                  && s.tasks[a].Critical() && s.tasks[b].Critical() ::
      s.tasks[a].prepared.id != s.tasks[b].prepared.id
  }

  ghost predicate RemoteOk(s: System) {
    forall id | id in s.remote :: id in s.issued && s.remote[id] == s.issued[id].prepared.payload
  }

  ghost predicate Inv(s: System) {
    && s.outbox.Synced()
    && JournalOk(s, s.outbox.memory)
    && JournalOk(s, s.outbox.disk)
    && (forall k | k in s.tasks :: TaskOk(s, s.tasks[k]))
    && LocksOk(s)
    && Exclusive(s)
    && RemoteOk(s)
  }

  lemma InitiallyInv()
    ensures Inv(INITIAL)
  {
  }

  // ----- journal writes -----

  lemma PointwisePredecessor(j: Journal, k: Journal, confirmed: Option<string>, e: Entry)
    returns (was: Entry)
    requires Pointwise(j, k, confirmed) && e in k.entries
    ensures was in j.entries && was.prepared == e.prepared && SameReservation(was, e)
    ensures Claims(e) ==> Claims(was) || confirmed == Some(e.prepared.id)
  {
    var i :| 0 <= i < |k.entries| && k.entries[i] == e;
    was := j.entries[i];
    assert EntryStep(was, e);
  }

  lemma PointwiseHas(j: Journal, k: Journal, confirmed: Option<string>, id: string)
    requires Pointwise(j, k, confirmed) && Has(j, id)
    ensures Has(k, id)
  {
    var i :| 0 <= i < |j.entries| && j.entries[i].prepared.id == id;
    assert k.entries[i] in k.entries && EntryStep(j.entries[i], k.entries[i]);
  }

  lemma PointwiseKeepsNoClaim(j: Journal, k: Journal, confirmed: Option<string>, id: string)
    requires Pointwise(j, k, confirmed) && NoClaim(j, id) && confirmed != Some(id)
    ensures NoClaim(k, id)
  {
    forall e | e in k.entries && e.prepared.id == id
      ensures !Claims(e)
    {
      var was := PointwisePredecessor(j, k, confirmed, e);
    }
  }

  lemma PointwiseKeepsEntries(s: System, j: Journal, k: Journal, confirmed: Option<string>)
    requires JournalOk(s, j) && Pointwise(j, k, confirmed)
    requires confirmed.Some? ==> confirmed.value in s.remote
    ensures forall e | e in k.entries ::
              e.prepared.id in s.issued && s.issued[e.prepared.id] == IssueOf(e)
    ensures forall e | e in k.entries && Claims(e) :: e.prepared.id in s.remote
  {
    forall e | e in k.entries
      ensures e.prepared.id in s.issued && s.issued[e.prepared.id] == IssueOf(e)
      ensures Claims(e) ==> e.prepared.id in s.remote
    {
      var was := PointwisePredecessor(j, k, confirmed, e);
    }
  }

  lemma PointwiseKeepsTask(j: Journal, k: Journal, confirmed: Option<string>, t: Task)
    requires Pointwise(j, k, confirmed) && TaskAgrees(j, t)
    requires t.Critical() && t.work.Delete? ==> confirmed != Some(t.prepared.id)
    ensures TaskAgrees(k, t)
  {
    forall id | Has(j, id)
      ensures Has(k, id)
    {
      PointwiseHas(j, k, confirmed, id);
    }
    if t.Critical() && t.work.Delete? {
      PointwiseKeepsNoClaim(j, k, confirmed, t.prepared.id);
    }
  }

  /** An update in place keeps the journal right as long as what it confirms really is on the
      homeserver and nobody is deleting it. */
  lemma PointwiseKeepsOk(s: System, j: Journal, k: Journal, confirmed: Option<string>)
    requires JournalOk(s, j) && Pointwise(j, k, confirmed)
    requires confirmed.Some? ==> confirmed.value in s.remote
    requires confirmed.Some? ==> forall t | t in s.tasks && s.tasks[t].Critical()
                                            && s.tasks[t].work.Delete? ::
                                   s.tasks[t].prepared.id != confirmed.value
    ensures JournalOk(s, k)
  {
    PointwiseKeepsValid(j, k, confirmed);
    PointwiseKeepsReservation(j, k, confirmed);
    PointwiseKeepsEntries(s, j, k, confirmed);
    forall id | Has(j, id)
      ensures Has(k, id)
    {
      PointwiseHas(j, k, confirmed, id);
    }
    forall t | t in s.tasks
      ensures TaskAgrees(k, s.tasks[t])
    {
      PointwiseKeepsTask(j, k, confirmed, s.tasks[t]);
    }
  }

  lemma AdmissionKeepsOk(s: System, op: Operation)
    requires JournalOk(s, s.outbox.memory) && Fresh(s, op) && op.made.value.id !in s.issued
    requires forall t | t in s.tasks :: s.tasks[t].prepared.id in s.issued
    requires Apply(s.outbox.memory, op).Applied?
    ensures var after := s.(issued := s.issued[op.made.value.id := NewIssue(op)]);
            JournalOk(after, Apply(s.outbox.memory, op).journal)
  {
    var j := s.outbox.memory;
    var k := Apply(j, op).journal;
    OperationKeepsValid(j, op);
    OperationKeepsReservation(j, op);
    var added := k.entries[|j.entries|];
    assert forall e | e in k.entries :: e in j.entries || e == added;
    assert forall e | e in j.entries :: e in k.entries;
    forall t | t in s.tasks
      ensures TaskAgrees(k, s.tasks[t])
    {
      assert TaskAgrees(j, s.tasks[t]);
    }
  }

  lemma RemovalKeepsOk(s: System, id: string, now: u64)
    requires JournalOk(s, s.outbox.memory) && id !in s.remote
    requires forall t | t in s.tasks && s.tasks[t].Critical() && s.tasks[t].work.Publish? ::
               s.tasks[t].prepared.id != id
    requires RemoveDeleted(s.outbox.memory, {id}, now).Applied?
    ensures JournalOk(s, RemoveDeleted(s.outbox.memory, {id}, now).journal)
  {
    var j := s.outbox.memory;
    var k := RemoveDeleted(j, {id}, now).journal;
    OperationKeepsValid(j, RemoveOp({id}, now));
    OperationKeepsReservation(j, RemoveOp({id}, now));
    forall other | Has(j, other) && other != id
      ensures Has(k, other)
    {
      var e :| e in j.entries && e.prepared.id == other;
      assert e in k.entries;
    }
  }

  lemma SaveKeepsOk(s: System, op: Operation, write: Write, j: Journal)
    requires JournalOk(s, j)
    ensures JournalOk(Save(s, op, write), j)
  {
  }

  lemma SaveKeepsTasks(s: System, op: Operation, write: Write)
    requires forall k | k in s.tasks :: TaskOk(s, s.tasks[k])
    ensures var after := Save(s, op, write);
            forall k | k in after.tasks :: TaskOk(after, after.tasks[k])
  {
    var after := Save(s, op, write);
    forall k | k in after.tasks
      ensures TaskOk(after, after.tasks[k])
    {
      assert TaskOk(s, s.tasks[k]);
    }
  }

  /** Whatever a write leaves in memory and on disk was there before or is the new candidate. */
  lemma SaveKeepsInv(s: System, op: Operation, write: Write)
    requires Inv(s)
    requires !s.outbox.failed && Apply(s.outbox.memory, op).Applied? ==>
               JournalOk(s, Apply(s.outbox.memory, op).journal)
    ensures Inv(Save(s, op, write))
  {
    var c := Apply(s.outbox.memory, op);
    if !s.outbox.failed && c.Applied? {
      SaveKeepsOk(s, op, write, c.journal);
    }
    SaveKeepsOk(s, op, write, s.outbox.memory);
    SaveKeepsOk(s, op, write, s.outbox.disk);
    SaveKeepsTasks(s, op, write);
  }

  lemma DropKeepsInv(s: System, k: nat)
    requires Inv(s)
    ensures Inv(Drop(s, k))
  {
    var after := Drop(s, k);
    assert forall t | t in after.tasks :: t in s.tasks && after.tasks[t] == s.tasks[t];
    assert forall t | t in after.tasks :: TaskOk(s, s.tasks[t]) ==> TaskOk(after, after.tasks[t]);
  }

  // ----- steps -----

  lemma IssuingKeepsOk(s: System, j: Journal, made: Issue)
    requires JournalOk(s, j) && made.prepared.id !in s.issued
    ensures JournalOk(s.(issued := s.issued[made.prepared.id := made]), j)
  {
  }

  lemma IssuingKeepsInv(s: System, made: Issue)
    requires Inv(s) && made.prepared.id !in s.issued
    ensures Inv(s.(issued := s.issued[made.prepared.id := made]))
  {
    var issuing := s.(issued := s.issued[made.prepared.id := made]);
    IssuingKeepsOk(s, s.outbox.memory, made);
    IssuingKeepsOk(s, s.outbox.disk, made);
    assert forall k | k in s.tasks :: TaskOk(s, s.tasks[k]) ==> TaskOk(issuing, s.tasks[k]);
  }

  lemma NewResourceKeepsInv(s: System, op: Operation, write: Write)
    requires Inv(s) && Fresh(s, op) && op.made.value.id !in s.issued
    ensures Inv(Save(s, op, write).(issued := s.issued[op.made.value.id := NewIssue(op)]))
  {
    var made := NewIssue(op);
    var issuing := s.(issued := s.issued[made.prepared.id := made]);
    IssuingKeepsInv(s, made);
    if Apply(s.outbox.memory, op).Applied? {
      assert forall t | t in s.tasks :: TaskOk(s, s.tasks[t]);
      AdmissionKeepsOk(s, op);
    }
    SaveKeepsInv(issuing, op, write);
    assert Save(issuing, op, write) == Save(s, op, write).(issued := s.issued[made.prepared.id := made]);
  }

  lemma CallKeepsInv(s: System, op: Operation, write: Write)
    requires Inv(s)
    ensures Inv(DoCall(s, op, write))
  {
    if DoCall(s, op, write) != s {
      if Fresh(s, op) {
        NewResourceKeepsInv(s, op, write);
      } else {
        if !s.outbox.failed && Apply(s.outbox.memory, op).Applied? {
          assert KeepsResources(s.outbox.memory, op);
          OperationPointwise(s.outbox.memory, op);
          PointwiseKeepsOk(s, s.outbox.memory, Apply(s.outbox.memory, op).journal, Confirms(op));
        }
        SaveKeepsInv(s, op, write);
      }
    }
  }

  lemma QueueKeepsOk(s: System, k: nat, work: Work, prepared: Prepared, j: Journal)
    requires JournalOk(s, j)
    ensures JournalOk(DoQueue(s, k, work, prepared), j)
  {
  }

  lemma QueueKeepsTasks(s: System, k: nat, work: Work, prepared: Prepared)
    requires forall t | t in s.tasks :: TaskOk(s, s.tasks[t])
    ensures var after := DoQueue(s, k, work, prepared);
            forall t | t in after.tasks :: TaskOk(after, after.tasks[t])
  {
    var after := DoQueue(s, k, work, prepared);
    if after != s {
      forall t | t in after.tasks
        ensures TaskOk(after, after.tasks[t])
      {
        if t != k {
          assert TaskOk(s, s.tasks[t]);
          assert Live(s, s.tasks[t].lock);
        }
      }
    }
  }

  lemma QueueKeepsLocks(s: System, k: nat, work: Work, prepared: Prepared)
    requires LocksOk(s) && Exclusive(s) && RemoteOk(s)
    ensures var after := DoQueue(s, k, work, prepared);
            LocksOk(after) && Exclusive(after) && RemoteOk(after)
  {
  }

  lemma QueueKeepsInv(s: System, k: nat, work: Work, prepared: Prepared)
    requires Inv(s)
    ensures Inv(DoQueue(s, k, work, prepared))
  {
    QueueKeepsOk(s, k, work, prepared, s.outbox.memory);
    QueueKeepsOk(s, k, work, prepared, s.outbox.disk);
    QueueKeepsTasks(s, k, work, prepared);
    QueueKeepsLocks(s, k, work, prepared);
  }

  /** Replacing one task and the remote store under it keeps a journal right. */
  lemma TaskChangeKeepsOk(s: System, k: nat, t: Task, remote: map<string, string>, j: Journal)
    requires JournalOk(s, j) && k in s.tasks && TaskAgrees(j, t)
    requires forall id | id in remote :: id in s.remote || Has(j, id)
    requires forall id | id in s.remote && id !in remote :: NoClaim(j, id)
    ensures JournalOk(s.(tasks := s.tasks[k := t], remote := remote), j)
  {
    var after := s.(tasks := s.tasks[k := t], remote := remote);
    forall o | o in after.tasks
      ensures TaskAgrees(j, after.tasks[o])
    {
      assert o != k ==> TaskAgrees(j, s.tasks[o]);
    }
  }

  /** Another task in the critical section works on another resource, so it is unaffected. */
  lemma TaskChangeKeepsTasks(s: System, k: nat, t: Task, remote: map<string, string>)
    requires Inv(s) && k in s.tasks && t.Critical()
    requires t.prepared == s.tasks[k].prepared && t.lock == s.tasks[k].lock
    requires t.work == s.tasks[k].work
    requires s.tasks[k].Critical() || LockFree(s, t.lock)
    requires forall id | id != t.prepared.id :: id in remote <==> id in s.remote
    requires t.TookEffect() ==> (t.work.Publish? <==> t.prepared.id in remote)
    ensures var after := s.(tasks := s.tasks[k := t], remote := remote);
            Exclusive(after) && LocksOk(after)
            && forall o | o in after.tasks :: TaskOk(after, after.tasks[o])
  {
    var after := s.(tasks := s.tasks[k := t], remote := remote);
    assert TaskOk(s, s.tasks[k]);
    forall o | o in s.tasks && o != k
      ensures TaskOk(after, s.tasks[o])
      ensures s.tasks[o].Critical() ==> s.tasks[o].prepared.id != t.prepared.id
    {
      assert TaskOk(s, s.tasks[o]);
    }
  }

  lemma AllowedAgrees(s: System, t: Task, now: u64, phase: Phase)
    requires Validate(s.outbox.memory) && Allowed(s, t, now)
    ensures TaskAgrees(s.outbox.memory, t.(phase := phase))
  {
    var j := s.outbox.memory;
    if t.work.Delete? {
      var e :| e in j.entries && e.prepared.id == t.prepared.id && CleanupReady(e, now);
      forall f | f in j.entries && f.prepared.id == t.prepared.id
        ensures f == e
      {
      }
    } else {
      assert Find(j.entries, t.prepared.id).Some?;
    }
  }

  lemma BeginKeepsInv(s: System, k: nat, now: u64)
    requires Inv(s)
    ensures Inv(DoBegin(s, k, now))
  {
    var after := DoBegin(s, k, now);
    if after != s && k in after.tasks {
      var t := s.tasks[k].(phase := Calling(false));
      AllowedAgrees(s, s.tasks[k], now, Calling(false));
      TaskChangeKeepsOk(s, k, t, s.remote, s.outbox.memory);
      TaskChangeKeepsTasks(s, k, t, s.remote);
    } else if after != s {
      DropKeepsInv(s, k);
    }
  }

  lemma LandKeepsOk(s: System, k: nat, j: Journal)
    requires JournalOk(s, j) && k in s.tasks && s.tasks[k].phase.Calling?
    ensures JournalOk(DoLand(s, k), j)
  {
    var t := s.tasks[k];
    assert TaskAgrees(j, t);
    assert TaskAgrees(j, t.(phase := Calling(true)));
    TaskChangeKeepsOk(s, k, t.(phase := Calling(true)), DoLand(s, k).remote, j);
  }

  lemma LandKeepsRemote(s: System, k: nat)
    requires RemoteOk(s) && k in s.tasks && TaskOk(s, s.tasks[k])
    ensures RemoteOk(DoLand(s, k))
  {
  }

  lemma LandKeepsInv(s: System, k: nat)
    requires Inv(s)
    ensures Inv(DoLand(s, k))
  {
    if k in s.tasks && s.tasks[k].phase.Calling? {
      LandKeepsOk(s, k, s.outbox.memory);
      LandKeepsOk(s, k, s.outbox.disk);
      TaskChangeKeepsTasks(s, k, s.tasks[k].(phase := Calling(true)), DoLand(s, k).remote);
      LandKeepsRemote(s, k);
    }
  }

  lemma ReturnKeepsInv(s: System, k: nat, ok: bool)
    requires Inv(s)
    ensures Inv(DoReturn(s, k, ok))
  {
    if DoReturn(s, k, ok) != s {
      var t := s.tasks[k].(phase := Returned(ok));
      assert TaskOk(s, s.tasks[k]);
      assert TaskAgrees(s.outbox.memory, s.tasks[k]) && TaskAgrees(s.outbox.disk, s.tasks[k]);
      TaskChangeKeepsOk(s, k, t, s.remote, s.outbox.memory);
      TaskChangeKeepsOk(s, k, t, s.remote, s.outbox.disk);
      TaskChangeKeepsTasks(s, k, t, s.remote);
    }
  }

  /** The report of a finished task only says what its remote call established. */
  lemma ReportKeepsOk(s: System, k: nat, now: u64, failure: DeliveryFailure)
    requires Inv(s) && k in s.tasks && s.tasks[k].phase.Returned?
    requires Apply(s.outbox.memory, Report(s.tasks[k], now, failure)).Applied?
    ensures JournalOk(s, Apply(s.outbox.memory, Report(s.tasks[k], now, failure)).journal)
  {
    var t := s.tasks[k];
    var op := Report(t, now, failure);
    var j := s.outbox.memory;
    assert TaskOk(s, t);
    if op.RemoveOp? {
      RemovalKeepsOk(s, t.prepared.id, now);
    } else {
      OperationPointwise(j, op);
      PointwiseKeepsOk(s, j, Apply(j, op).journal, Confirms(op));
    }
  }

  lemma FinishKeepsInv(s: System, k: nat, now: u64, failure: DeliveryFailure, write: Write)
    requires Inv(s)
    ensures Inv(DoFinish(s, k, now, failure, write))
  {
    if k in s.tasks && s.tasks[k].phase.Returned? {
      var op := Report(s.tasks[k], now, failure);
      if Apply(s.outbox.memory, op).Applied? {
        ReportKeepsOk(s, k, now, failure);
      }
      SaveKeepsInv(s, op, write);
      DropKeepsInv(Save(s, op, write), k);
    }
  }

  lemma RestartKeepsInv(s: System)
    requires Inv(s)
    ensures Inv(DoRestart(s))
  {
    assert forall j | JournalOk(s, j) :: JournalOk(DoRestart(s), j);
  }

  /** Every step keeps the invariant. */
  lemma StepKeepsInv(s: System, step: Step)
    requires Inv(s)
    ensures Inv(Next(s, step))
  {
    match step {
      case Call(op, write) => CallKeepsInv(s, op, write);
      case Queue(k, work, prepared) => QueueKeepsInv(s, k, work, prepared);
      case Begin(k, now) => BeginKeepsInv(s, k, now);
      case Land(k) => LandKeepsInv(s, k);
      case Return(k, ok) => ReturnKeepsInv(s, k, ok);
      case Finish(k, now, failure, write) => FinishKeepsInv(s, k, now, failure, write);
      case Abandon(k) => DropKeepsInv(s, k);
      case Restart => RestartKeepsInv(s);
    }
  }

  lemma {:induction false} RunKeepsInv(s: System, steps: seq<Step>)
    requires Inv(s)
    ensures Inv(Run(s, steps))
    decreases |steps|
  {
    if steps != [] {
      StepKeepsInv(s, steps[0]);
      RunKeepsInv(Next(s, steps[0]), steps[1..]);
    }
  }

  // ----- what the protocol guarantees, over every run -----

  /** No forgotten copy: whatever is on the homeserver has an entry on disk, holding exactly the
      bytes that are there. */
  lemma NothingIsForgotten(steps: seq<Step>, id: string)
    requires id in Run(INITIAL, steps).remote
    ensures var s := Run(INITIAL, steps);
            exists e :: e in s.outbox.disk.entries && e.prepared.id == id
                        && s.remote[id] == e.prepared.payload
  {
    InitiallyInv();
    RunKeepsInv(INITIAL, steps);
    var s := Run(INITIAL, steps);
    assert Has(s.outbox.disk, id);
  }

  /** An entry marked published with no cleanup deadline really is on the homeserver, in memory and
      in whatever file a crash would leave. */
  lemma PublishedMeansPresent(steps: seq<Step>, e: Entry)
    requires var s := Run(INITIAL, steps);
             e in s.outbox.memory.entries || e in s.outbox.disk.entries
    requires e.published && e.cleanupAfter.None?
    ensures var s := Run(INITIAL, steps);
            e.prepared.id in s.remote && s.remote[e.prepared.id] == e.prepared.payload
  {
    InitiallyInv();
    RunKeepsInv(INITIAL, steps);
    assert Claims(e);
  }

  /** So an entry that is missing from the homeserver and not awaiting cleanup, for example after a
      deletion that a reopening overtook, is due for republication from its retry time on, unless
      it is paused. */
  lemma MissingMeansScheduled(steps: seq<Step>, e: Entry, now: u64)
    requires var s := Run(INITIAL, steps);
             e in s.outbox.memory.entries && e.prepared.id !in s.remote
    requires e.cleanupAfter.None? && e.nextRetryAt <= now
    ensures PublicationDue(e, now) <==> !e.publicationPaused
  {
    if e.published {
      PublishedMeansPresent(steps, e);
    }
  }

  /** What a deletion may report about an entry whose cleanup was revoked. */
  lemma RevokedCleanupReports(j: Journal, e: Entry, now: u64, failure: DeliveryFailure)
    requires Validate(j) && e in j.entries && e.cleanupAfter.None?
    ensures RemoveDeleted(j, {e.prepared.id}, now).Refused?
    ensures MarkCleanupFailed(j, e.prepared.id, now, failure) == Applied(j, false, ())
  {
    var found := Find(j.entries, e.prepared.id);
    assert j.entries[found.value] == e;
  }

  lemma RevokedCleanupSaves(s: System, e: Entry, t: Task, now: u64, failure: DeliveryFailure, write: Write)
    requires Validate(s.outbox.memory) && e in s.outbox.memory.entries && e.cleanupAfter.None?
    requires t.work.Delete? && t.phase.Returned? && t.prepared.id == e.prepared.id
    ensures Save(s, Report(t, now, failure), write) == s
  {
    RevokedCleanupReports(s.outbox.memory, e, now, failure);
  }

  /** A deletion that returns after its scope was reopened changes nothing, whether it succeeded or
      failed: the entry and its schedule stay as reopening left them. */
  lemma LateDeletionChangesNothing(steps: seq<Step>, k: nat, e: Entry, now: u64,
                                   failure: DeliveryFailure, write: Write)
    requires var s := Run(INITIAL, steps);
             && k in s.tasks && s.tasks[k].work.Delete? && s.tasks[k].phase.Returned?
             && e in s.outbox.memory.entries && e.prepared.id == s.tasks[k].prepared.id
    requires e.cleanupAfter.None?
    ensures var s := Run(INITIAL, steps);
            && Next(s, Finish(k, now, failure, write)) == Drop(s, k)
            && !e.published
            && (s.tasks[k].phase.ok ==> e.prepared.id !in s.remote)
  {
    InitiallyInv();
    RunKeepsInv(INITIAL, steps);
    var s := Run(INITIAL, steps);
    var t := s.tasks[k];
    assert TaskOk(s, t) && TaskAgrees(s.outbox.memory, t);
    assert !Claims(e);
    RevokedCleanupSaves(s, e, t, now, failure, write);
  }

  /** The critical sections of one resource never overlap, however locks come and go. */
  lemma CriticalSectionsExclude(steps: seq<Step>, a: nat, b: nat)
    requires var s := Run(INITIAL, steps);
             && a in s.tasks && b in s.tasks && a != b
             && s.tasks[a].Critical() && s.tasks[b].Critical()
    ensures var s := Run(INITIAL, steps); s.tasks[a].prepared.id != s.tasks[b].prepared.id
  {
    InitiallyInv();
    RunKeepsInv(INITIAL, steps);
  }

  /** While no write has failed memory is the saved journal; the saved journal always opens again;
      and a save is never refused for its size. */
  lemma HealthyAndReopenable(steps: seq<Step>)
    ensures var o := Run(INITIAL, steps).outbox;
            && (!o.failed ==> o.memory == o.disk)
            && OpenFile(Some(o.disk)) == Done(o.disk)
            && JournalBytes(o.memory) <= MAX_BYTES
  {
    InitiallyInv();
    RunKeepsInv(INITIAL, steps);
    var o := Run(INITIAL, steps).outbox;
    ReservationFits(o.disk);
    ReservationFits(o.memory);
  }

  /** In a run from an empty journal no call, in any state, produces a file over the limit. */
  lemma SavesAlwaysFit(steps: seq<Step>, op: Operation, write: Write)
    requires Apply(Run(INITIAL, steps).outbox.memory, op).Applied?
    ensures Saving(Apply(Run(INITIAL, steps).outbox.memory, op).journal, write) == write
  {
    InitiallyInv();
    RunKeepsInv(INITIAL, steps);
    var j := Run(INITIAL, steps).outbox.memory;
    OperationKeepsReservation(j, op);
    ReservationFits(Apply(j, op).journal);
  }

  // ----- removal is final -----

  /** Issued, but gone from every journal a process could still act on. */
  ghost predicate Retired(s: System, id: string) {
    id in s.issued && !Has(s.outbox.disk, id)
  }

  lemma OperationsAddOnlyWhatTheyPrepare(j: Journal, op: Operation, id: string)
    requires Apply(j, op).Applied? && Has(Apply(j, op).journal, id)
    ensures Has(j, id) || (op.PrepareOp? && !KeepsResources(j, op) && op.made.Some?
                           && op.made.value.id == id)
  {
    var k := Apply(j, op).journal;
    var e :| e in k.entries && e.prepared.id == id;
    if KeepsResources(j, op) {
      OperationPointwise(j, op);
      var was := PointwisePredecessor(j, k, Confirms(op), e);
    }
  }

  lemma SaveKeepsRetired(s: System, op: Operation, write: Write, id: string)
    requires s.outbox.Synced() && !Has(s.outbox.disk, id)
    requires Fresh(s, op) ==> op.made.value.id != id
    ensures !Has(Save(s, op, write).outbox.disk, id)
  {
    var after := Save(s, op, write).outbox.disk;
    if Has(after, id) {
      assert after == Apply(s.outbox.memory, op).journal;
      OperationsAddOnlyWhatTheyPrepare(s.outbox.memory, op, id);
    }
  }

  lemma CallKeepsRetired(s: System, op: Operation, write: Write, id: string)
    requires Inv(s) && Retired(s, id)
    ensures Retired(DoCall(s, op, write), id)
  {
    if Fresh(s, op) ==> op.made.value.id !in s.issued {
      SaveKeepsRetired(s, op, write, id);
    }
  }

  lemma StepKeepsRetired(s: System, step: Step, id: string)
    requires Inv(s) && Retired(s, id)
    ensures Retired(Next(s, step), id)
  {
    match step {
      case Call(op, write) =>
        CallKeepsRetired(s, op, write, id);
      case Finish(k, now, failure, write) =>
        if k in s.tasks && s.tasks[k].phase.Returned? {
          SaveKeepsRetired(s, Report(s.tasks[k], now, failure), write, id);
        }
      case _ =>
    }
  }

  /** Once an issued resource has no entry on disk, it is off the homeserver and stays off, and no
      later step brings its entry back. */
  lemma {:induction false} RemovedStaysRemoved(s: System, steps: seq<Step>, id: string)
    requires Inv(s) && Retired(s, id)
    ensures Retired(Run(s, steps), id) && id !in Run(s, steps).remote
    decreases |steps|
  {
    if steps == [] {
      assert id in s.remote ==> Has(s.outbox.disk, id);
    } else {
      StepKeepsRetired(s, steps[0], id);
      StepKeepsInv(s, steps[0]);
      RemovedStaysRemoved(Next(s, steps[0]), steps[1..], id);
    }
  }

  lemma {:induction false} RunConcat(s: System, before: seq<Step>, after: seq<Step>)
    ensures Run(s, before + after) == Run(Run(s, before), after)
    decreases |before|
  {
    if before == [] {
      assert before + after == after;
    } else {
      assert (before + after)[1..] == before[1..] + after;
      RunConcat(Next(s, before[0]), before[1..], after);
    }
  }

  /** A removed resource is never republished, in any run from an empty outbox. */
  lemma RemovedIsNeverRepublished(before: seq<Step>, after: seq<Step>, id: string)
    requires var s := Run(INITIAL, before); id in s.issued && !Has(s.outbox.disk, id)
    ensures id !in Run(INITIAL, before + after).remote
    ensures !Has(Run(INITIAL, before + after).outbox.disk, id)
  {
    InitiallyInv();
    RunKeepsInv(INITIAL, before);
    RunConcat(INITIAL, before, after);
    RemovedStaysRemoved(Run(INITIAL, before), after, id);
  }

  /** What was issued under an id never changes, so an entry's bytes are fixed until its removal. */
  lemma {:induction false} IssuedBytesNeverChange(s: System, steps: seq<Step>, id: string)
    requires id in s.issued
    ensures id in Run(s, steps).issued && Run(s, steps).issued[id] == s.issued[id]
    decreases |steps|
  {
    if steps != [] {
      IssuedBytesNeverChange(Next(s, steps[0]), steps[1..], id);
    }
  }

  /** Two looks at one resource, however far apart in a run, see the same bytes for the same
      reservation. */
  lemma BytesAreFixed(before: seq<Step>, after: seq<Step>, first: Entry, later: Entry)
    requires first in Run(INITIAL, before).outbox.memory.entries
    requires later in Run(INITIAL, before + after).outbox.memory.entries
    requires first.prepared.id == later.prepared.id
    ensures first.prepared == later.prepared && SameReservation(first, later)
  {
    InitiallyInv();
    RunKeepsInv(INITIAL, before);
    RunKeepsInv(INITIAL, before + after);
    RunConcat(INITIAL, before, after);
    IssuedBytesNeverChange(Run(INITIAL, before), after, first.prepared.id);
  }

  /** As long as a resource is in the journal, preparing its reservation again returns the bytes that
      were first saved for it, whatever else was reserved, published, failed, completed, reopened or
      removed in between, and whatever a new preparation would have made. */
  lemma RepeatedPrepareReturnsTheFirstBytes(before: seq<Step>, after: seq<Step>, first: Entry,
                                            expiry: Option<u64>, made: Option<Prepared>, bytes: nat)
    requires first in Run(INITIAL, before).outbox.memory.entries
    requires Has(Run(INITIAL, before + after).outbox.memory, first.prepared.id)
    ensures var c := Prepare(Run(INITIAL, before + after).outbox.memory, first.peer, first.scope,
                             first.content, expiry, made, bytes);
            c.Applied? && c.value == first.prepared
  {
    var j := Run(INITIAL, before + after).outbox.memory;
    var later :| later in j.entries && later.prepared.id == first.prepared.id;
    BytesAreFixed(before, after, first, later);
    InitiallyInv();
    RunKeepsInv(INITIAL, before + after);
    ReservedBytesAreReturned(j, later, expiry, made, bytes);
  }
}
