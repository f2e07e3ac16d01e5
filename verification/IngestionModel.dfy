/** The ingestion queue: one job row per document, a receipt for every time it was enqueued, and a
    parent receipt that adds up the retirement of a whole series.
    app/service/ingestion_jobs.py, app/service/document_tasks.py, app/worker.py. */
module IngestionModel {
  import opened Outcomes

  type Time = real
  datatype Doc = Doc(id: int)
  type TaskId = int
  type Token = int

  datatype Kind = Ingest | Hierarchy | Delete | Series

  datatype State = Queued | Running | Succeeded | Failed | Cancelled

  datatype Phase = Waiting | Working | WaitingRuns | RetryWait | Done | Broken | Dropped | Cleaning | Named(name: string)

  /** The status of a document. */
  datatype Status = Processing | Ready | Rejected | Deleting | Retired

  datatype Code = SupersededByRetirement | SupersededByRetry | CleanupIncomplete | AttemptsExhausted | Reported(code: string)

  datatype Job = Job(task: TaskId, kind: Kind, state: State, attempts: int, limit: int,
                     availableAt: Time, lease: Option<Time>, token: Option<Token>, error: Option<Code>)

  /** A receipt.  `versions` and `already` are the details of a series retirement: the documents it
      set out to retire, and how many were retired before. */
  datatype Task = Task(document: Doc, kind: Kind, state: State, phase: Phase, attempts: int, limit: int,
                       error: Option<Code>, parent: Option<TaskId>, versions: set<Doc>, already: nat,
                       processed: int, total: int)

  datatype Table = Table(docs: map<Doc, Status>, jobs: map<Doc, Job>, tasks: map<TaskId, Task>)

  const LEASE: Time := 60.0

  // ---------------------------------------------------------------- the parent receipt

  /** `child_tasks`: the documents whose current receipt belongs to the parent. */
  function Children(t: Table, p: TaskId): set<Doc>
  {
    set d | d in t.jobs && t.jobs[d].task in t.tasks && t.tasks[t.jobs[d].task].parent == Some(p)
  }

  function Receipt(t: Table, d: Doc): Option<Task>
  {
    if d in t.jobs && t.jobs[d].task in t.tasks then Some(t.tasks[t.jobs[d].task]) else None
  }

  predicate IsDone(t: Table, d: Doc) { Receipt(t, d).Some? && Receipt(t, d).value.state.Succeeded? }

  predicate IsLost(t: Table, d: Doc)
  {
    Receipt(t, d).Some? && (Receipt(t, d).value.state.Failed? || Receipt(t, d).value.state.Cancelled?)
  }

  predicate IsWaiting(t: Table, d: Doc) { Receipt(t, d).Some? && Receipt(t, d).value.phase.WaitingRuns? }

  function Finished(t: Table, p: TaskId): set<Doc> { set d | d in Children(t, p) && IsDone(t, d) }

  predicate SomeLost(t: Table, p: TaskId) { exists d | d in Children(t, p) :: IsLost(t, d) }

  predicate SomeWaiting(t: Table, p: TaskId) { exists d | d in Children(t, p) :: IsWaiting(t, d) }

  function Tallied(t: Table, p: TaskId): Task
    requires p in t.tasks
  {
    var parent := t.tasks[p].(processed := t.tasks[p].already + |Finished(t, p)|);
    if parent.processed == parent.total then parent.(state := Succeeded, phase := Done, error := None)
    else if SomeLost(t, p) then parent.(state := Failed, phase := Broken, error := Some(CleanupIncomplete))
    else if SomeWaiting(t, p) then parent.(state := Queued, phase := WaitingRuns, error := None)
    else parent.(state := Running, phase := Cleaning, error := None)
  }

  /** `sync_parent`; None when the history does not agree with itself. */
  function SyncParent(t: Table, p: Option<TaskId>): Option<Table>
  {
    if p.None? then Some(t)
    else if p.value !in t.tasks || !t.tasks[p.value].kind.Series? then None
    else Some(t.(tasks := t.tasks[p.value := Tallied(t, p.value)]))
  }

  // ---------------------------------------------------------------- one job and its receipt

  function Mirrored(task: Task, j: Job, phase: Option<Phase>): Task
  {
    var m := task.(state := j.state, attempts := j.attempts, limit := j.limit, error := j.error);
    if phase.Some? then m.(phase := phase.value) else m
  }

  /** A job rewritten, then `sync_task`. */
  function Put(t: Table, d: Doc, j: Job, phase: Option<Phase>): Option<Table>
  {
    if j.task !in t.tasks || t.tasks[j.task].document != d || t.tasks[j.task].kind != j.kind then None
    else
      var task := Mirrored(t.tasks[j.task], j, phase);
      SyncParent(t.(jobs := t.jobs[d := j], tasks := t.tasks[j.task := task]), task.parent)
  }

  /** The receipt a job leaves behind, cancelled when it was not over. */
  function Closed(task: Task, kind: Kind): Task
  {
    if task.state.Queued? || task.state.Running?
    then task.(state := Cancelled, phase := Dropped, error := Some(if kind.Delete? then SupersededByRetirement else SupersededByRetry))
    else task
  }

  function Opened(d: Doc, kind: Kind, parent: Option<TaskId>, limit: nat): Task
  {
    Task(d, kind, Queued, Waiting, 0, limit, None, parent, {}, 0, 0, 0)
  }

  function Start(id: TaskId, kind: Kind, limit: nat, now: Time): Job
  {
    Job(id, kind, Queued, 0, limit, now, None, None, None)
  }

  /** The rows of `enqueue`, before the parent is brought up to date. */
  function Enqueued(t: Table, d: Doc, kind: Kind, parent: Option<TaskId>, id: TaskId, limit: nat, now: Time): Table
  {
    var closed := if d in t.jobs && t.jobs[d].task in t.tasks
                  then t.tasks[t.jobs[d].task := Closed(t.tasks[t.jobs[d].task], kind)] else t.tasks;
    t.(jobs := t.jobs[d := Start(id, kind, limit, now)], tasks := closed[id := Opened(d, kind, parent, limit)])
  }

  /** `enqueue` with the new receipt's identity. */
  function Enqueue(t: Table, d: Doc, kind: Kind, reset: bool, parent: Option<TaskId>, id: TaskId, limit: nat, now: Time): Option<Table>
  {
    if d in t.jobs && !reset then Some(t) else SyncParent(Enqueued(t, d, kind, parent, id, limit, now), parent)
  }

  // ---------------------------------------------------------------- the worker's transactions

  /** `lock_next_job`. */
  predicate Available(j: Job, now: Time)
  {
    (j.state.Queued? && j.availableAt <= now) || (j.state.Running? && j.lease.Some? && j.lease.value <= now)
  }

  predicate Exhausted(j: Job) { j.attempts >= j.limit }

  function Claim(t: Table, d: Doc, token: Token, now: Time): Option<Table>
    requires d in t.jobs
  {
    var j := t.jobs[d];
    var attempts := if Exhausted(j) then j.attempts else j.attempts + 1;
    var waits := j.kind.Delete? && Receipt(t, d).Some? && Receipt(t, d).value.phase.WaitingRuns?;
    Put(t, d, j.(attempts := attempts, state := Running, token := Some(token), lease := Some(now + LEASE)),
        Some(if waits then WaitingRuns else Working))
  }

  /** `owned`. */
  predicate Owned(t: Table, d: Doc, token: Token, at: Time)
  {
    && d in t.jobs && t.jobs[d].state.Running? && t.jobs[d].token == Some(token)
    && t.jobs[d].lease.Some? && at < t.jobs[d].lease.value
  }

  function Heartbeat(t: Table, d: Doc, now: Time): Table
    requires d in t.jobs
  {
    t.(jobs := t.jobs[d := t.jobs[d].(lease := Some(now + LEASE))])
  }

  function ReleaseBusy(t: Table, d: Doc, exhausted: bool, now: Time, poll: Time): Option<Table>
    requires d in t.jobs
  {
    var j := t.jobs[d];
    var attempts := if exhausted then j.attempts else j.attempts - 1;
    Put(t, d, j.(attempts := attempts, state := Queued, availableAt := now + poll, token := None, lease := None), Some(Waiting))
  }

  /** How the body of a claim ended. */
  datatype Failure = Failure(code: string, retryable: bool, pinned: bool)

  datatype Verdict = Verdict(job: Job, phase: Phase, status: Status)

  /** `finish`: what becomes of the job and the document.  `valid` is the check of the hierarchy. */
  function Verdicts(j: Job, status: Status, failure: Option<Failure>, exhausted: bool, valid: bool, again: Time): Verdict
  {
    var code := Reported(if failure.Some? then failure.value.code else "INGESTION_FAILED");
    var last := Some(if exhausted then AttemptsExhausted else code);
    var retry := failure.Some? && failure.value.retryable && j.attempts < j.limit;
    var done := Verdict(j.(state := Succeeded, error := None), Done, status);
    var waiting := j.(state := Queued, error := Some(code), availableAt := again);
    match j.kind
    case Delete =>
      if status.Retired? then done
      else if failure.Some? && failure.value.pinned then
        Verdict(j.(state := Queued, error := None, attempts := if j.attempts > 0 then j.attempts - 1 else 0, availableAt := again),
                WaitingRuns, status)
      else if retry then Verdict(waiting, RetryWait, status)
      else Verdict(j.(state := Failed, error := last), Broken, status)
    case Hierarchy =>
      if status.Deleting? then Verdict(j.(state := Cancelled), Dropped, status)
      else if status.Ready? && valid then done
      else if retry then Verdict(waiting, RetryWait, status)
      else Verdict(j.(state := Failed, error := last), Broken, status)
    case _ =>
      if status.Ready? then done
      else if status.Deleting? then Verdict(j.(state := Cancelled), Dropped, status)
      else if retry then Verdict(waiting, RetryWait, Processing)
      else Verdict(j.(state := Failed, error := last), Broken, Rejected)
  }

  function Finish(t: Table, d: Doc, failure: Option<Failure>, exhausted: bool, valid: bool, again: Time): Option<Table>
    requires d in t.jobs && d in t.docs
  {
    var v := Verdicts(t.jobs[d], t.docs[d], failure, exhausted, valid, again);
    Put(t.(docs := t.docs[d := v.status]), d, v.job.(token := None, lease := None), Some(v.phase))
  }

  // ---------------------------------------------------------------- retirement

  /** `retire` of one document: the receipt in force, or a new one under the same parent. */
  function Retire(t: Table, d: Doc, retryFailed: bool, id: TaskId, limit: nat, now: Time): Option<Table>
    requires d in t.docs
  {
    var previous := if d in t.jobs && t.jobs[d].kind.Delete? then Receipt(t, d) else None;
    if previous.Some? && (t.docs[d].Retired? || previous.value.state.Queued? || previous.value.state.Running?
                          || previous.value.state.Succeeded? || !retryFailed)
    then Some(t)
    else
      Enqueue(t.(docs := t.docs[d := Deleting]), d, Delete, true,
              if previous.Some? then previous.value.parent else None, id, limit, now)
  }

  function SeriesTask(first: Doc, versions: set<Doc>, already: nat): Task
  {
    Task(first, Series, Queued, Waiting, 0, 1, None, None, versions, already, 0, already + |versions|)
  }

  /** The loop of `retire_series` over the versions still to retire, each with a new receipt. */
  function RetireEach(t: Table, p: TaskId, versions: seq<Doc>, ids: seq<TaskId>, limit: nat, now: Time): Option<Table>
    requires |ids| == |versions|
    decreases |versions|
  {
    if versions == [] then Some(t)
    else
      var next := Enqueue(t.(docs := t.docs[versions[0] := Deleting]), versions[0], Delete, true, Some(p), ids[0], limit, now);
      if next.None? then None else RetireEach(next.value, p, versions[1..], ids[1..], limit, now)
  }

  /** `retire_series` for a series not yet being retired: its pending versions, and how many were
      retired already. */
  function RetireSeries(t: Table, p: TaskId, first: Doc, versions: seq<Doc>, already: nat, ids: seq<TaskId>, limit: nat, now: Time): Option<Table>
    requires |ids| == |versions|
  {
    var parent := SeriesTask(first, (set d | d in versions), already);
    var next := RetireEach(t.(tasks := t.tasks[p := parent]), p, versions, ids, limit, now);
    if next.None? then None else SyncParent(next.value, Some(p))
  }
}
