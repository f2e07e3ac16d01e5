/** What the queue, its receipts and the parents of series keep between them.
    app/service/ingestion_jobs.py:37-103,118-236, app/service/document_tasks.py:82-157. */
module IngestionReceipts {
  import opened Outcomes
  import opened IngestionModel

  // ---------------------------------------------------------------- the invariant

  predicate Mirrors(task: Task, j: Job)
  {
    task.state == j.state && task.attempts == j.attempts && task.limit == j.limit && task.error == j.error
  }

  /** A job agrees with its receipt, its attempts are within its limit, and it is held exactly
      while it runs. */
  predicate JobFits(t: Table, d: Doc)
    requires d in t.jobs
  {
    var j := t.jobs[d];
    && d in t.docs && j.task in t.tasks && t.tasks[j.task].document == d && t.tasks[j.task].kind == j.kind && !j.kind.Series?
    && Mirrors(t.tasks[j.task], j) && 0 <= j.attempts <= j.limit && 1 <= j.limit
    && (j.state.Running? <==> j.token.Some?) && (j.state.Running? <==> j.lease.Some?)
    && (j.kind.Delete? ==> t.docs[d].Deleting? || t.docs[d].Retired?)
    && (j.kind.Delete? && j.state.Succeeded? ==> t.docs[d].Retired?)
  }

  ghost predicate JobsFit(t: Table) { forall d :: d in t.jobs ==> JobFits(t, d) }

  /** Only retirements have a parent, and it is the receipt of a series, which has none. */
  predicate TaskFits(t: Table, id: TaskId)
    requires id in t.tasks
  {
    var task := t.tasks[id];
    && (task.kind.Series? ==> task.parent.None?)
    && (task.parent.Some? ==> task.kind.Delete? && task.parent.value in t.tasks && t.tasks[task.parent.value].kind.Series?)
  }

  ghost predicate TasksFit(t: Table) { forall id :: id in t.tasks ==> TaskFits(t, id) }

  /** A series counts each of its versions once, by its current receipt. */
  ghost predicate SeriesFits(t: Table, p: TaskId)
    requires p in t.tasks
  {
    Children(t, p) == t.tasks[p].versions && t.tasks[p] == Tallied(t, p) && t.tasks[p].total == t.tasks[p].already + |t.tasks[p].versions|
  }

  /** Every series but the one being worked on. */
  ghost predicate SeriesFitExcept(t: Table, p: Option<TaskId>)
  {
    forall q :: q in t.tasks && t.tasks[q].kind.Series? && Some(q) != p ==> SeriesFits(t, q)
  }

  ghost predicate Sound(t: Table) { JobsFit(t) && TasksFit(t) && SeriesFitExcept(t, None) }

  // ---------------------------------------------------------------- tallies

  /** A tally depends on the children and their receipts only. */
  lemma TallyDepends(t: Table, v: Table, p: TaskId)
    requires p in t.tasks && p in v.tasks && v.tasks[p] == t.tasks[p]
    requires Children(v, p) == Children(t, p)
    requires forall d :: d in Children(t, p) ==> Receipt(v, d) == Receipt(t, d)
    ensures Tallied(v, p) == Tallied(t, p)
  {
    assert Finished(v, p) == Finished(t, p);
    assert SomeLost(v, p) == SomeLost(t, p);
    assert SomeWaiting(v, p) == SomeWaiting(t, p);
  }

  /** Bringing a parent up to date changes its row and nothing that is counted. */
  lemma SyncKeeps(t: Table, p: TaskId)
    requires JobsFit(t) && TasksFit(t) && SeriesFitExcept(t, Some(p))
    requires p in t.tasks && t.tasks[p].kind.Series?
    ensures SyncParent(t, Some(p)).Some?
    ensures var v := SyncParent(t, Some(p)).value;
            && v == t.(tasks := v.tasks) && v.tasks == t.tasks[p := Tallied(t, p)]
            && JobsFit(v) && TasksFit(v) && SeriesFitExcept(v, Some(p))
            && Children(v, p) == Children(t, p) && v.tasks[p] == Tallied(v, p)
  {
    var v := SyncParent(t, Some(p)).value;
    assert forall d :: d in t.jobs ==> JobFits(t, d) && t.jobs[d].task != p;
    forall d | d in v.jobs ensures JobFits(v, d) && Receipt(v, d) == Receipt(t, d) { assert JobFits(t, d); }
    forall id | id in v.tasks ensures TaskFits(v, id) { assert TaskFits(t, id); }
    forall q | q in t.tasks ensures Children(v, q) == Children(t, q) {}
    forall q | q in v.tasks && v.tasks[q].kind.Series? && q != p ensures SeriesFits(v, q) {
      assert SeriesFits(t, q);
      TallyDepends(t, v, q);
    }
    assert Finished(v, p) == Finished(t, p);
    assert SomeLost(v, p) == SomeLost(t, p) && SomeWaiting(v, p) == SomeWaiting(t, p);
  }

  /** After which the parent fits again, when its children are its versions. */
  lemma SyncRestores(t: Table, p: TaskId)
    requires JobsFit(t) && TasksFit(t) && SeriesFitExcept(t, Some(p))
    requires p in t.tasks && t.tasks[p].kind.Series? && Children(t, p) == t.tasks[p].versions
    requires t.tasks[p].total == t.tasks[p].already + |t.tasks[p].versions|
    ensures SyncParent(t, Some(p)).Some? && Sound(SyncParent(t, Some(p)).value)
  {
    SyncKeeps(t, p);
  }

  // ---------------------------------------------------------------- one job rewritten

  /** The rows after a job and its receipt were rewritten, before the parent. */
  function Rewritten(t: Table, d: Doc, j: Job, phase: Option<Phase>): Table
    requires j.task in t.tasks
  {
    t.(jobs := t.jobs[d := j], tasks := t.tasks[j.task := Mirrored(t.tasks[j.task], j, phase)])
  }

  /** What a transaction may put in place of a job. */
  predicate Replaces(t: Table, d: Doc, j: Job)
    requires d in t.jobs && d in t.docs
  {
    && j.task == t.jobs[d].task && j.kind == t.jobs[d].kind && 0 <= j.attempts <= j.limit && 1 <= j.limit
    && (j.state.Running? <==> j.token.Some?) && (j.state.Running? <==> j.lease.Some?)
    && (j.kind.Delete? && j.state.Succeeded? ==> t.docs[d].Retired?)
  }

  lemma RewriteKeeps(t: Table, d: Doc, j: Job, phase: Option<Phase>)
    requires Sound(t) && d in t.jobs && d in t.docs && Replaces(t, d, j)
    ensures j.task in t.tasks
    ensures var v := Rewritten(t, d, j, phase); var parent := t.tasks[j.task].parent;
            JobsFit(v) && TasksFit(v) && SeriesFitExcept(v, parent) && forall q :: q in t.tasks ==> Children(v, q) == Children(t, q)
  {
    assert JobFits(t, d);
    var v := Rewritten(t, d, j, phase);
    forall e | e in v.jobs ensures JobFits(v, e) { assert JobFits(t, e); }
    forall id | id in v.tasks ensures TaskFits(v, id) { assert TaskFits(t, id); }
    forall q | q in t.tasks ensures Children(v, q) == Children(t, q) {}
    forall q | q in v.tasks && v.tasks[q].kind.Series? && Some(q) != t.tasks[j.task].parent ensures SeriesFits(v, q) {
      assert SeriesFits(t, q);
      forall e | e in Children(t, q) ensures Receipt(v, e) == Receipt(t, e) { assert JobFits(t, e); }
      TallyDepends(t, v, q);
    }
  }

  /** Every transaction on a job keeps it, its receipt and its parent in step, and never finds the
      history divided. */
  lemma PutKeepsSound(t: Table, d: Doc, j: Job, phase: Option<Phase>)
    requires Sound(t) && d in t.jobs && d in t.docs && Replaces(t, d, j)
    ensures Put(t, d, j, phase).Some? && Sound(Put(t, d, j, phase).value)
  {
    RewriteKeeps(t, d, j, phase);
    assert JobFits(t, d);
    var v := Rewritten(t, d, j, phase);
    var parent := t.tasks[j.task].parent;
    if parent.Some? {
      assert TaskFits(t, j.task);
      assert SeriesFits(t, parent.value);
      SyncRestores(v, parent.value);
    }
  }

  // ---------------------------------------------------------------- a new receipt

  /** What every caller of `enqueue` makes sure of. */
  ghost predicate MayEnqueue(t: Table, d: Doc, kind: Kind, parent: Option<TaskId>, id: TaskId, limit: nat)
  {
    && d in t.docs && id !in t.tasks && limit >= 1 && !kind.Series? && (kind.Delete? ==> t.docs[d].Deleting?)
    && (parent.Some? ==> kind.Delete? && parent.value in t.tasks && t.tasks[parent.value].kind.Series?)
    && (Receipt(t, d).Some? ==> Receipt(t, d).value.parent.None? || Receipt(t, d).value.parent == parent)
  }

  lemma EnqueueKeeps(t: Table, d: Doc, kind: Kind, parent: Option<TaskId>, id: TaskId, limit: nat, now: Time)
    requires JobsFit(t) && TasksFit(t) && SeriesFitExcept(t, parent) && MayEnqueue(t, d, kind, parent, id, limit)
    ensures var v := Enqueued(t, d, kind, parent, id, limit, now);
            && JobsFit(v) && TasksFit(v) && SeriesFitExcept(v, parent)
            && (parent.Some? ==> Children(v, parent.value) == Children(t, parent.value) + {d} && v.tasks[parent.value] == t.tasks[parent.value])
  {
    var v := Enqueued(t, d, kind, parent, id, limit, now);
    assert d in t.jobs ==> JobFits(t, d);
    forall e | e in v.jobs ensures JobFits(v, e) { if e != d { assert JobFits(t, e); } }
    forall i | i in v.tasks ensures TaskFits(v, i) { if i != id { assert TaskFits(t, i); } }
    forall q | q in v.tasks && v.tasks[q].kind.Series? && Some(q) != parent ensures SeriesFits(v, q) {
      assert q in t.tasks && SeriesFits(t, q) && TaskFits(t, q);
      OtherChildrenStay(t, d, kind, parent, id, limit, now, q);
      TallyDepends(t, v, q);
    }
    if parent.Some? {
      assert TaskFits(t, parent.value);
      forall e | e in v.jobs && e != d ensures Receipt(v, e) == Receipt(t, e) { assert JobFits(t, e); }
      assert forall e :: e in Children(v, parent.value) <==> e in Children(t, parent.value) + {d};
    }
  }

  lemma OtherChildrenStay(t: Table, d: Doc, kind: Kind, parent: Option<TaskId>, id: TaskId, limit: nat, now: Time, q: TaskId)
    requires JobsFit(t) && MayEnqueue(t, d, kind, parent, id, limit) && q in t.tasks && Some(q) != parent
    ensures var v := Enqueued(t, d, kind, parent, id, limit, now);
            Children(v, q) == Children(t, q) && forall e :: e in Children(t, q) ==> Receipt(v, e) == Receipt(t, e)
  {
    var v := Enqueued(t, d, kind, parent, id, limit, now);
    assert d in t.jobs ==> JobFits(t, d);
    forall e | e in v.jobs && e != d ensures Receipt(v, e) == Receipt(t, e) { assert JobFits(t, e); }
    assert forall e :: e in Children(v, q) <==> e in Children(t, q);
  }

  /** Enqueuing keeps everything in step, when a document that has a parent keeps it. */
  lemma EnqueueKeepsSound(t: Table, d: Doc, kind: Kind, parent: Option<TaskId>, id: TaskId, limit: nat, now: Time)
    requires Sound(t) && MayEnqueue(t, d, kind, parent, id, limit)
    requires parent.Some? ==> d in Children(t, parent.value)
    ensures Enqueue(t, d, kind, true, parent, id, limit, now).Some?
    ensures Sound(Enqueue(t, d, kind, true, parent, id, limit, now).value)
  {
    EnqueueKeeps(t, d, kind, parent, id, limit, now);
    if parent.Some? {
      assert SeriesFits(t, parent.value);
      assert Children(t, parent.value) + {d} == Children(t, parent.value);
      SyncRestores(Enqueued(t, d, kind, parent, id, limit, now), parent.value);
    }
  }

  // ---------------------------------------------------------------- retirement

  /** The status of one document rewritten. */
  lemma StatusKeeps(t: Table, d: Doc, s: Status, p: Option<TaskId>)
    requires JobsFit(t) && TasksFit(t) && SeriesFitExcept(t, p) && d in t.docs
    requires d in t.jobs && t.jobs[d].kind.Delete? ==> s.Retired? || (s.Deleting? && !t.jobs[d].state.Succeeded?)
    ensures var v := t.(docs := t.docs[d := s]); JobsFit(v) && TasksFit(v) && SeriesFitExcept(v, p)
  {
    var v := t.(docs := t.docs[d := s]);
    forall e | e in v.jobs ensures JobFits(v, e) { assert JobFits(t, e); }
    forall id | id in v.tasks ensures TaskFits(v, id) { assert TaskFits(t, id); }
    forall q | q in v.tasks && v.tasks[q].kind.Series? && Some(q) != p ensures SeriesFits(v, q) {
      assert SeriesFits(t, q);
      assert Children(v, q) == Children(t, q);
      TallyDepends(t, v, q);
    }
  }

  lemma RetireKeepsSound(t: Table, d: Doc, retryFailed: bool, id: TaskId, limit: nat, now: Time)
    requires Sound(t) && d in t.docs && id !in t.tasks && limit >= 1
    requires t.docs[d].Retired? ==> d in t.jobs && t.jobs[d].kind.Delete?
    ensures Retire(t, d, retryFailed, id, limit, now).Some? && Sound(Retire(t, d, retryFailed, id, limit, now).value)
  {
    assert d in t.jobs ==> JobFits(t, d);
    var previous := if d in t.jobs && t.jobs[d].kind.Delete? then Receipt(t, d) else None;
    if previous.Some? && (t.docs[d].Retired? || previous.value.state.Queued? || previous.value.state.Running?
                          || previous.value.state.Succeeded? || !retryFailed) {
    } else {
      var v := t.(docs := t.docs[d := Deleting]);
      StatusKeeps(t, d, Deleting, None);
      if previous.Some? { assert TaskFits(t, t.jobs[d].task); }
      else if d in t.jobs { assert TaskFits(t, t.jobs[d].task); }
      assert Receipt(v, d) == Receipt(t, d);
      EnqueueKeepsSound(v, d, Delete, if previous.Some? then previous.value.parent else None, id, limit, now);
    }
  }

  // ---------------------------------------------------------------- a whole series

  ghost predicate Distinct<T>(s: seq<T>) { forall i, k :: 0 <= i < k < |s| ==> s[i] != s[k] }

  /** A version that may be taken into a retirement: not retired, and in no other series. */
  predicate Retirable(t: Table, d: Doc)
  {
    d in t.docs && !t.docs[d].Retired? && (Receipt(t, d).Some? ==> Receipt(t, d).value.parent.None?)
  }

  ghost predicate SeriesReady(t: Table, p: TaskId, versions: seq<Doc>, ids: seq<TaskId>)
  {
    && |ids| == |versions| && Distinct(versions) && Distinct(ids)
    && p in t.tasks && t.tasks[p].kind.Series?
    && (forall k :: 0 <= k < |versions| ==> Retirable(t, versions[k]))
    && (forall k :: 0 <= k < |ids| ==> ids[k] !in t.tasks)
  }

  /** Everything fits but the series `p`, which is still being put together. */
  ghost predicate NearlySound(t: Table, p: TaskId)
  {
    JobsFit(t) && TasksFit(t) && SeriesFitExcept(t, Some(p)) && p in t.tasks && t.tasks[p].kind.Series?
  }

  /** The parent's plan is untouched. */
  predicate SamePlan(a: Task, b: Task) { a.kind == b.kind && a.versions == b.versions && a.total == b.total && a.already == b.already }

  /** Document `d` got a new receipt; the other documents kept their jobs, and their receipts. */
  ghost predicate Reissued(t: Table, v: Table, p: TaskId, d: Doc, id: TaskId)
  {
    && v.docs == t.docs[d := Deleting] && v.tasks.Keys == t.tasks.Keys + {id}
    && p in t.tasks && SamePlan(v.tasks[p], t.tasks[p])
    && (forall e :: e != d ==> (e in t.jobs <==> e in v.jobs) && (e in t.jobs ==> v.jobs[e] == t.jobs[e]))
    && (forall i :: i in t.tasks && i != p && (d in t.jobs ==> i != t.jobs[d].task) ==> v.tasks[i] == t.tasks[i])
  }

  lemma EnqueueReissues(t: Table, p: TaskId, d: Doc, id: TaskId, limit: nat, now: Time)
    requires NearlySound(t, p) && id !in t.tasks && (d in t.jobs ==> t.jobs[d].task != p && t.jobs[d].task in t.tasks)
    ensures var next := Enqueue(t.(docs := t.docs[d := Deleting]), d, Delete, true, Some(p), id, limit, now);
            next.Some? && Reissued(t, next.value, p, d, id)
  {
  }

  lemma RetireOneKeeps(t: Table, p: TaskId, d: Doc, id: TaskId, limit: nat, now: Time)
    requires NearlySound(t, p) && limit >= 1 && Retirable(t, d) && id !in t.tasks
    ensures var next := Enqueue(t.(docs := t.docs[d := Deleting]), d, Delete, true, Some(p), id, limit, now);
            next.Some? && NearlySound(next.value, p) && Children(next.value, p) == Children(t, p) + {d}
            && Reissued(t, next.value, p, d, id)
  {
    assert d in t.jobs ==> JobFits(t, d);
    var v := t.(docs := t.docs[d := Deleting]);
    StatusKeeps(t, d, Deleting, Some(p));
    assert Receipt(v, d) == Receipt(t, d);
    EnqueueKeeps(v, d, Delete, Some(p), id, limit, now);
    assert Children(v, p) == Children(t, p);
    EnqueueReissues(t, p, d, id, limit, now);
    SyncKeeps(Enqueued(v, d, Delete, Some(p), id, limit, now), p);
  }

  lemma OthersStayRetirable(t: Table, v: Table, p: TaskId, d: Doc, id: TaskId, e: Doc)
    requires NearlySound(t, p) && e != d && Retirable(t, e) && Reissued(t, v, p, d, id)
    ensures Retirable(v, e)
  {
    if e in t.jobs {
      assert JobFits(t, e);
      assert d in t.jobs ==> JobFits(t, d);
    }
  }

  lemma {:induction false} RetireEachKeeps(t: Table, p: TaskId, versions: seq<Doc>, ids: seq<TaskId>, limit: nat, now: Time)
    requires NearlySound(t, p) && limit >= 1 && SeriesReady(t, p, versions, ids)
    ensures var next := RetireEach(t, p, versions, ids, limit, now);
            next.Some? && NearlySound(next.value, p) && SamePlan(next.value.tasks[p], t.tasks[p])
            && Children(next.value, p) == Children(t, p) + (set d | d in versions)
    decreases |versions|
  {
    if versions != [] {
      var d := versions[0];
      RetireOneKeeps(t, p, d, ids[0], limit, now);
      var v := Enqueue(t.(docs := t.docs[d := Deleting]), d, Delete, true, Some(p), ids[0], limit, now).value;
      StillReady(t, v, p, versions, ids);
      RetireEachKeeps(v, p, versions[1..], ids[1..], limit, now);
      assert (set e | e in versions) == {d} + (set e | e in versions[1..]);
    }
  }

  lemma StillReady(t: Table, v: Table, p: TaskId, versions: seq<Doc>, ids: seq<TaskId>)
    requires NearlySound(t, p) && versions != [] && SeriesReady(t, p, versions, ids)
    requires Reissued(t, v, p, versions[0], ids[0])
    ensures SeriesReady(v, p, versions[1..], ids[1..])
  {
    forall k | 0 <= k < |versions[1..]| ensures Retirable(v, versions[1..][k]) {
      OthersStayRetirable(t, v, p, versions[0], ids[0], versions[k + 1]);
    }
  }

  /** A parent receipt with no children yet. */
  lemma OpeningKeeps(t: Table, p: TaskId, task: Task)
    requires Sound(t) && p !in t.tasks && task.kind.Series? && task.parent.None?
    ensures var v := t.(tasks := t.tasks[p := task]);
            NearlySound(v, p) && Children(v, p) == {} && forall d :: d in t.jobs ==> Receipt(v, d) == Receipt(t, d)
  {
    var v := t.(tasks := t.tasks[p := task]);
    forall d | d in t.jobs ensures JobFits(v, d) && Receipt(v, d) == Receipt(t, d) { assert JobFits(t, d); }
    forall id | id in v.tasks ensures TaskFits(v, id) { if id != p { assert TaskFits(t, id); } }
    forall q | q in v.tasks && v.tasks[q].kind.Series? && q != p ensures SeriesFits(v, q) {
      assert SeriesFits(t, q);
      assert Children(v, q) == Children(t, q);
      TallyDepends(t, v, q);
    }
    forall d | d in t.jobs ensures Receipt(t, d).Some? && Receipt(t, d).value.parent != Some(p) {
      assert JobFits(t, d) && TaskFits(t, t.jobs[d].task);
    }
  }

  /** Retiring a series gives every pending version one new receipt and a parent that counts them. */
  lemma RetireSeriesKeepsSound(t: Table, p: TaskId, first: Doc, versions: seq<Doc>, already: nat, ids: seq<TaskId>, limit: nat, now: Time)
    requires Sound(t) && p !in t.tasks && limit >= 1 && |ids| == |versions| && Distinct(versions) && Distinct(ids)
    requires forall k :: 0 <= k < |versions| ==> Retirable(t, versions[k]) && ids[k] !in t.tasks && ids[k] != p
    ensures RetireSeries(t, p, first, versions, already, ids, limit, now).Some?
    ensures var v := RetireSeries(t, p, first, versions, already, ids, limit, now).value;
            Sound(v) && p in v.tasks && v.tasks[p].versions == (set d | d in versions)
  {
    var task := SeriesTask(first, (set d | d in versions), already);
    var v := t.(tasks := t.tasks[p := task]);
    OpeningKeeps(t, p, task);
    forall k | 0 <= k < |versions| ensures Retirable(v, versions[k]) { assert Retirable(t, versions[k]); }
    RetireEachKeeps(v, p, versions, ids, limit, now);
    SyncRestores(RetireEach(v, p, versions, ids, limit, now).value, p);
  }
}
