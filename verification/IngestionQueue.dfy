/** The ingestion queue as its transactions: each loads the rows it needs, changes them and commits,
    or raises and leaves everything as it was.  app/service/ingestion_jobs.py:37-236. */
module IngestionQueue {
  import opened Outcomes
  import opened IngestionModel

  /** How many of the children have succeeded. */
  method CountDone(t: Table, children: set<Doc>) returns (done: nat)
    ensures done == |set d | d in children && IsDone(t, d)|
  {
    var left := children;
    done := 0;
    while left != {}
      invariant left <= children
      invariant done == |set d | d in children - left && IsDone(t, d)|
      decreases left
    {
      var d: Doc :| d in left;
      ghost var before := set e | e in children - left && IsDone(t, e);
      ghost var after := set e | e in children - (left - {d}) && IsDone(t, e);
      if IsDone(t, d) {
        assert after == before + {d};
        done := done + 1;
      } else {
        assert after == before;
      }
      left := left - {d};
    }
    assert (set d | d in children - left && IsDone(t, d)) == (set d | d in children && IsDone(t, d));
  }

  class IngestionQueue {
    const limit: nat
    var docs: map<Doc, Status>
    var jobs: map<Doc, Job>
    var tasks: map<TaskId, Task>

    ghost function View(): Table
      reads this
    {
      Table(docs, jobs, tasks)
    }

    constructor (limit: nat)
      ensures this.limit == limit && View() == Table(map[], map[], map[])
    {
      this.limit := limit;
      docs, jobs, tasks := map[], map[], map[];
    }

    /** The rows written are kept, or all of them are rolled back. */
    method Settle(ok: bool, before: Table)
      modifies this
      ensures View() == if ok then old(View()) else before
    {
      if !ok { docs, jobs, tasks := before.docs, before.jobs, before.tasks; }
    }

    /** `sync_parent`. */
    method SyncParent(parentId: Option<TaskId>) returns (ok: bool)
      modifies this`tasks
      ensures ok <==> IngestionModel.SyncParent(old(View()), parentId).Some?
      ensures View() == if ok then IngestionModel.SyncParent(old(View()), parentId).value else old(View())
    {
      if parentId.None? { return true; }
      var p := parentId.value;
      if p !in tasks || !tasks[p].kind.Series? { return false; }
      var t := Table(docs, jobs, tasks);
      var children := Children(t, p);
      var done := CountDone(t, children);
      assert Finished(t, p) == set d | d in children && IsDone(t, d);
      var parent := tasks[p].(processed := tasks[p].already + done);
      if parent.processed == parent.total {
        parent := parent.(state := Succeeded, phase := Done, error := None);
      } else if exists d | d in children :: IsLost(t, d) {
        parent := parent.(state := Failed, phase := Broken, error := Some(CleanupIncomplete));
      } else if exists d | d in children :: IsWaiting(t, d) {
        parent := parent.(state := Queued, phase := WaitingRuns, error := None);
      } else {
        parent := parent.(state := Running, phase := Cleaning, error := None);
      }
      tasks := tasks[p := parent];
      return true;
    }

    /** Stores a job and runs `sync_task`. */
    method Store(d: Doc, j: Job, phase: Option<Phase>) returns (ok: bool)
      modifies this
      ensures ok <==> Put(old(View()), d, j, phase).Some?
      ensures ok ==> View() == Put(old(View()), d, j, phase).value
      ensures !ok ==> docs == old(docs)
    {
      jobs := jobs[d := j];
      if j.task !in tasks || tasks[j.task].document != d || tasks[j.task].kind != j.kind { return false; }
      var task := tasks[j.task].(state := j.state, attempts := j.attempts, limit := j.limit, error := j.error);
      if phase.Some? { task := task.(phase := phase.value); }
      tasks := tasks[j.task := task];
      ok := SyncParent(task.parent);
    }

    method Enqueue(d: Doc, kind: Kind, reset: bool, parent: Option<TaskId>, id: TaskId, now: Time) returns (ok: bool)
      modifies this
      ensures ok <==> IngestionModel.Enqueue(old(View()), d, kind, reset, parent, id, limit, now).Some?
      ensures View() == if ok then IngestionModel.Enqueue(old(View()), d, kind, reset, parent, id, limit, now).value else old(View())
    {
      if d in jobs && !reset { return true; }
      var before := Table(docs, jobs, tasks);
      if d in jobs && jobs[d].task in tasks {
        var previous := tasks[jobs[d].task];
        if previous.state.Queued? || previous.state.Running? {
          previous := previous.(state := Cancelled, phase := Dropped);
          previous := previous.(error := Some(if kind.Delete? then SupersededByRetirement else SupersededByRetry));
          tasks := tasks[jobs[d].task := previous];
        }
        assert tasks == before.tasks[before.jobs[d].task := Closed(before.tasks[before.jobs[d].task], kind)];
      }
      tasks := tasks[id := Task(d, kind, Queued, Waiting, 0, limit, None, parent, {}, 0, 0, 0)];
      jobs := jobs[d := Job(id, kind, Queued, 0, limit, now, None, None, None)];
      assert View() == Enqueued(before, d, kind, parent, id, limit, now);
      ok := SyncParent(parent);
      Settle(ok, before);
    }

    /** `claim`, of the row the query chose: whether it was claimed, and whether its attempts were used up. */
    method ClaimNext(d: Doc, token: Token, now: Time) returns (ok: bool, exhausted: bool)
      requires d in jobs
      modifies this
      ensures exhausted == Exhausted(old(jobs)[d])
      ensures ok <==> Claim(old(View()), d, token, now).Some?
      ensures View() == if ok then Claim(old(View()), d, token, now).value else old(View())
    {
      var before := Table(docs, jobs, tasks);
      var job := jobs[d];
      exhausted := job.attempts >= job.limit;
      if !exhausted { job := job.(attempts := job.attempts + 1); }
      job := job.(state := Running, token := Some(token), lease := Some(now + LEASE));
      var phase := if job.task in tasks && job.kind.Delete? && tasks[job.task].phase.WaitingRuns? then WaitingRuns else Working;
      ok := Store(d, job, Some(phase));
      Settle(ok, before);
    }

    method Beat(d: Doc, token: Token, at: Time, now: Time) returns (kept: bool)
      modifies this`jobs
      ensures kept <==> Owned(old(View()), d, token, at)
      ensures View() == if kept then Heartbeat(old(View()), d, now) else old(View())
    {
      kept := Fence(d, token, at);
      if kept { jobs := jobs[d := jobs[d].(lease := Some(now + LEASE))]; }
    }

    predicate Fence(d: Doc, token: Token, at: Time)
      reads this`jobs
    {
      d in jobs && jobs[d].state.Running? && jobs[d].token == Some(token) && jobs[d].lease.Some? && at < jobs[d].lease.value
    }

    /** `release_busy`; the lease is looked at once more before the commit. */
    method Release(d: Doc, token: Token, exhausted: bool, at: Time, now: Time, poll: Time) returns (ok: bool)
      modifies this
      ensures ok <==> Owned(old(View()), d, token, at) && Owned(old(View()), d, token, now)
                      && ReleaseBusy(old(View()), d, exhausted, now, poll).Some?
      ensures View() == if ok then ReleaseBusy(old(View()), d, exhausted, now, poll).value else old(View())
    {
      if !Fence(d, token, at) { return false; }
      var before := Table(docs, jobs, tasks);
      var job := jobs[d];
      if !exhausted { job := job.(attempts := job.attempts - 1); }
      job := job.(state := Queued, availableAt := now + poll);
      if job.lease.value <= now { return false; }
      job := job.(token := None, lease := None);
      ok := Store(d, job, Some(Waiting));
      Settle(ok, before);
    }

    /** The branches of `finish`, for all three kinds of job. */
    static method Judge(before: Job, current: Status, failure: Option<Failure>, exhausted: bool, valid: bool, again: Time) returns (v: Verdict)
      ensures v == Verdicts(before, current, failure, exhausted, valid, again)
    {
      var job, status, phase := before, current, Broken;
      var code := Reported(if failure.Some? then failure.value.code else "INGESTION_FAILED");
      var last := if exhausted then AttemptsExhausted else code;
      var retry := failure.Some? && failure.value.retryable && job.attempts < job.limit;
      if job.kind.Delete? && status.Retired? {
        job, phase := job.(state := Succeeded, error := None), Done;
      } else if job.kind.Delete? && failure.Some? && failure.value.pinned {
        job, phase := job.(state := Queued, error := None), WaitingRuns;
        job := job.(attempts := if job.attempts > 0 then job.attempts - 1 else 0, availableAt := again);
      } else if job.kind.Hierarchy? && status.Ready? && valid {
        job, phase := job.(state := Succeeded, error := None), Done;
      } else if !job.kind.Delete? && !job.kind.Hierarchy? && status.Ready? {
        job, phase := job.(state := Succeeded, error := None), Done;
      } else if !job.kind.Delete? && status.Deleting? {
        job, phase := job.(state := Cancelled), Dropped;
      } else if retry {
        job, phase := job.(state := Queued, error := Some(code), availableAt := again), RetryWait;
        if !job.kind.Delete? && !job.kind.Hierarchy? { status := Processing; }
      } else {
        job := job.(state := Failed, error := Some(last));
        if !job.kind.Delete? && !job.kind.Hierarchy? { status := Rejected; }
      }
      return Verdict(job, phase, status);
    }

    /** `finish`; the lease is looked at once more before the commit. */
    method End(d: Doc, token: Token, exhausted: bool, failure: Option<Failure>, valid: bool, at: Time, now: Time, again: Time) returns (ok: bool)
      requires d in docs
      modifies this
      ensures ok <==> Owned(old(View()), d, token, at) && Owned(old(View()), d, token, now)
                      && Finish(old(View()), d, failure, exhausted, valid, again).Some?
      ensures View() == if ok then Finish(old(View()), d, failure, exhausted, valid, again).value else old(View())
    {
      if !Fence(d, token, at) { return false; }
      var before := Table(docs, jobs, tasks);
      var v := Judge(jobs[d], docs[d], failure, exhausted, valid, again);
      if jobs[d].lease.value <= now { return false; }
      docs := docs[d := v.status];
      ok := Store(d, v.job.(token := None, lease := None), Some(v.phase));
      Settle(ok, before);
    }
  }
}
