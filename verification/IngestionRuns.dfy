/** Whole histories of the queue: uploads, retries, retirements, and workers that may crash, stall
    and come back late.  app/service/ingestion_jobs.py, app/worker.py:32-89. */
module IngestionRuns {
  import opened Outcomes
  import opened IngestionModel
  import opened IngestionReceipts

  /** A worker after its claim; `task` is the receipt in force then. */
  datatype Worker = Worker(doc: Doc, task: TaskId, kind: Kind, exhausted: bool, started: bool, released: bool)

  datatype World = World(table: Table, workers: map<Token, Worker>)

  const NOTHING := World(Table(map[], map[], map[]), map[])

  datatype Act =
    | Upload(doc: Doc, id: TaskId)
    | Retry(doc: Doc, id: TaskId)
    | Backfill(doc: Doc, id: TaskId)
    | RetireOne(doc: Doc, retryFailed: bool, id: TaskId)
    | RetireAll(parent: TaskId, first: Doc, versions: seq<Doc>, already: nat, ids: seq<TaskId>)
    | Take(doc: Doc, token: Token)
    | Beat(token: Token)
    | GiveBack(token: Token)
    | Begin(token: Token)
    | Report(token: Token, phase: Phase)
    | Published(token: Token)
    | CleanedUp(token: Token)
    | End(token: Token, failure: Option<Failure>, valid: bool)

  /** The limit of attempts, and the readings of one transaction. */
  datatype Clock = Clock(limit: nat, at: Time, now: Time, again: Time)

  function Keep(w: World, t: Option<Table>): World { if t.None? then w else w.(table := t.value) }

  function Gone(w: World, token: Token): World
    requires token in w.workers
  {
    w.(workers := w.workers[token := w.workers[token].(released := true)])
  }

  predicate Holds(w: World, token: Token, at: Time)
  {
    token in w.workers && Owned(w.table, w.workers[token].doc, token, at)
  }

  /** Steps of users: new receipts. */
  function Request(w: World, act: Act, c: Clock): World
  {
    var t := w.table;
    match act
    case Upload(d, id) =>
      if d in t.docs || id in t.tasks || d in t.jobs then w
      else Keep(w, Enqueue(t.(docs := t.docs[d := Processing]), d, Ingest, false, None, id, c.limit, c.now))
    case Retry(d, id) =>
      if d !in t.docs || id in t.tasks || !(t.docs[d].Rejected? || t.docs[d].Processing?) then w
      else Keep(w, Enqueue(t.(docs := t.docs[d := Processing]), d, Ingest, true, None, id, c.limit, c.now))
    case Backfill(d, id) =>
      if d !in t.docs || id in t.tasks || !t.docs[d].Ready? || (d in t.jobs && (t.jobs[d].state.Queued? || t.jobs[d].state.Running?)) then w
      else Keep(w, Enqueue(t, d, Hierarchy, true, None, id, c.limit, c.now))
    case RetireOne(d, retryFailed, id) =>
      if d !in t.docs || id in t.tasks || (t.docs[d].Retired? && d !in t.jobs) then w
      else Keep(w, Retire(t, d, retryFailed, id, c.limit, c.now))
    case RetireAll(p, first, versions, already, ids) =>
      if p !in t.tasks && |ids| == |versions| && MayRetireAll(t, p, versions, ids)
      then Keep(w, RetireSeries(t, p, first, versions, already, ids, c.limit, c.now)) else w
    case _ => w
  }

  /** The rows `retire_series` selects, and new identities for their receipts. */
  predicate MayRetireAll(t: Table, p: TaskId, versions: seq<Doc>, ids: seq<TaskId>)
    requires |ids| == |versions|
  {
    && (forall i, k | 0 <= i < k < |versions| :: versions[i] != versions[k] && ids[i] != ids[k])
    && (forall k | 0 <= k < |versions| :: Retirable(t, versions[k]) && ids[k] !in t.tasks && ids[k] != p)
  }

  function Step(w: World, act: Act, c: Clock): World
  {
    var t := w.table;
    match act
    case Take(d, token) =>
      if d !in t.jobs || token in w.workers || !Available(t.jobs[d], c.now) then w
      else
        var next := Claim(t, d, token, c.now);
        if next.None? then w
        else World(next.value, w.workers[token := Worker(d, t.jobs[d].task, t.jobs[d].kind, Exhausted(t.jobs[d]), false, false)])
    case Beat(token) => if Holds(w, token, c.at) then w.(table := Heartbeat(t, w.workers[token].doc, c.now)) else w
    case GiveBack(token) =>
      if !Holds(w, token, c.at) || w.workers[token].started then w
      else
        var next := ReleaseBusy(t, w.workers[token].doc, w.workers[token].exhausted, c.now, c.again);
        if next.None? then w else Gone(w.(table := next.value), token)
    case Begin(token) =>
      if token in w.workers && !w.workers[token].exhausted && !w.workers[token].released
      then w.(workers := w.workers[token := w.workers[token].(started := true)]) else w
    case Report(token, phase) =>
      if Holds(w, token, c.at) && !phase.WaitingRuns?
      then Keep(w, Put(t, w.workers[token].doc, t.jobs[w.workers[token].doc], Some(phase))) else w
    case Published(token) =>
      if token in w.workers && w.workers[token].doc in t.docs && t.docs[w.workers[token].doc].Processing?
      then w.(table := t.(docs := t.docs[w.workers[token].doc := Ready])) else w
    case CleanedUp(token) =>
      if Holds(w, token, c.at) && w.workers[token].doc in t.docs && t.docs[w.workers[token].doc].Deleting?
         && t.jobs[w.workers[token].doc].kind.Delete?
      then w.(table := t.(docs := t.docs[w.workers[token].doc := Retired])) else w
    case End(token, failure, valid) =>
      if !Holds(w, token, c.at) || w.workers[token].doc !in t.docs then w
      else Keep(w, Finish(t, w.workers[token].doc, failure, w.workers[token].exhausted, valid, c.again))
    case _ => Request(w, act, c)
  }

  type History = seq<(Act, Clock)>

  function After(w: World, h: History): World
    decreases |h|
  {
    if h == [] then w else After(Step(w, h[0].0, h[0].1), h[1..])
  }

  ghost predicate Limited(h: History) { forall k :: 0 <= k < |h| ==> h[k].1.limit >= 1 }

  // ---------------------------------------------------------------- what workers keep

  /** The claims that used up an attempt of a receipt. */
  function Charged(w: World, id: TaskId): set<Token>
  {
    set t | t in w.workers && w.workers[t].task == id && !w.workers[t].exhausted && !w.workers[t].released
  }

  /** The bodies that were started for it. */
  function Begun(w: World, id: TaskId): set<Token>
  {
    set t | t in w.workers && w.workers[t].task == id && w.workers[t].started
  }

  /** Whoever holds a job claimed it under its current receipt. */
  predicate HolderFits(w: World, d: Doc)
    requires d in w.table.jobs
  {
    var j := w.table.jobs[d];
    j.token.Some? ==>
      && j.token.value in w.workers
      && var k := w.workers[j.token.value];
         k.doc == d && k.task == j.task && k.kind == j.kind && !k.released && (!k.exhausted ==> j.attempts >= 1)
  }

  predicate WorkerFits(w: World, t: Token)
    requires t in w.workers
  {
    var k := w.workers[t];
    k.task in w.table.tasks && w.table.tasks[k.task].kind == k.kind && w.table.tasks[k.task].document == k.doc
    && (k.started ==> !k.exhausted && !k.released)
  }

  predicate Bounded(w: World, id: TaskId)
    requires id in w.table.tasks
  {
    w.table.tasks[id].kind.Ingest? || w.table.tasks[id].kind.Hierarchy? ==>
      |Charged(w, id)| <= w.table.tasks[id].attempts <= w.table.tasks[id].limit
  }

  /** A retired document has a retirement for a job. */
  predicate RetiredFits(t: Table, d: Doc)
    requires d in t.docs
  {
    t.docs[d].Retired? ==> d in t.jobs && t.jobs[d].kind.Delete?
  }

  ghost predicate WorkersFit(w: World)
  {
    && (forall d :: d in w.table.jobs ==> HolderFits(w, d))
    && (forall t :: t in w.workers ==> WorkerFits(w, t))
    && (forall id :: id in w.table.tasks ==> Bounded(w, id))
    && (forall d :: d in w.table.docs ==> RetiredFits(w.table, d))
  }

  ghost predicate Orderly(w: World) { Sound(w.table) && WorkersFit(w) }

  // ---------------------------------------------------------------- what steps leave alone

  /** A receipt that a newer one has replaced. */
  predicate Superseded(t: Table, id: TaskId)
  {
    && id in t.tasks && !t.tasks[id].kind.Series?
    && (t.tasks[id].document in t.jobs ==> t.jobs[t.tasks[id].document].task != id)
  }

  /** Replaced receipts stay as they are, and stay replaced. */
  ghost predicate Freezes(t: Table, v: Table)
  {
    forall id :: Superseded(t, id) ==> Superseded(v, id) && v.tasks[id] == t.tasks[id]
  }

  /** What a request may change: it adds receipts and frees jobs, and counts nothing. */
  ghost predicate Requested(t: Table, v: Table)
  {
    && (forall id :: id in t.tasks ==> id in v.tasks && SameCount(t.tasks[id], v.tasks[id]))
    && (forall id :: id in v.tasks && id !in t.tasks ==> v.tasks[id].attempts == 0 <= v.tasks[id].limit)
    && (forall d :: d in t.jobs ==> d in v.jobs)
    && (forall d :: d in v.jobs ==> (d in t.jobs && v.jobs[d] == t.jobs[d]) || v.jobs[d].token.None?)
    && (forall d :: d in t.docs ==> d in v.docs)
    && (forall d :: d in v.docs && v.docs[d].Retired? ==> d in t.docs && t.docs[d].Retired?)
    && (forall d :: d in v.docs && v.docs[d].Retired? && d in t.jobs && t.jobs[d].kind.Delete? ==> v.jobs[d].kind.Delete?)
  }

  predicate SameCount(a: Task, b: Task)
  {
    a.kind == b.kind && a.document == b.document && a.attempts == b.attempts && a.limit == b.limit
  }

  lemma RequestedKeepsWorkers(w: World, v: World)
    requires Orderly(w) && v.workers == w.workers && Requested(w.table, v.table)
    ensures WorkersFit(v)
  {
    forall d | d in v.table.jobs ensures HolderFits(v, d) { if d in w.table.jobs { assert HolderFits(w, d); } }
    forall t | t in v.workers ensures WorkerFits(v, t) { assert WorkerFits(w, t); }
    forall id | id in v.table.tasks ensures Bounded(v, id) {
      assert Charged(v, id) == Charged(w, id);
      if id in w.table.tasks {
        assert Bounded(w, id);
      } else {
        forall t | t in w.workers ensures w.workers[t].task != id { assert WorkerFits(w, t); }
        assert Charged(v, id) == {};
      }
    }
    forall d | d in v.table.docs ensures RetiredFits(v.table, d) {
      if v.table.docs[d].Retired? { assert RetiredFits(w.table, d); }
    }
  }

  lemma EnqueuedRequests(t: Table, u: Table, d: Doc, kind: Kind, parent: Option<TaskId>, id: TaskId, limit: nat, now: Time)
    requires JobsFit(u) && id !in u.tasks && (d in u.docs ==> !u.docs[d].Retired?)
    requires u == t.(docs := u.docs) && forall e :: e in t.docs ==> e in u.docs
    requires forall e :: e in u.docs && u.docs[e].Retired? ==> e in t.docs && t.docs[e].Retired?
    ensures Requested(t, Enqueued(u, d, kind, parent, id, limit, now))
  {
    assert d in u.jobs ==> JobFits(u, d);
  }

  lemma EnqueuedFreezes(t: Table, u: Table, d: Doc, kind: Kind, parent: Option<TaskId>, id: TaskId, limit: nat, now: Time)
    requires JobsFit(u) && id !in u.tasks && u == t.(docs := u.docs)
    ensures Freezes(t, Enqueued(u, d, kind, parent, id, limit, now))
  {
    assert d in u.jobs ==> JobFits(u, d);
  }

  lemma SyncRequests(t: Table, p: Option<TaskId>)
    requires SyncParent(t, p).Some?
    ensures Requested(t, SyncParent(t, p).value) && Freezes(t, SyncParent(t, p).value)
  {
  }

  lemma EnqueueRequests(t: Table, u: Table, d: Doc, kind: Kind, parent: Option<TaskId>, id: TaskId, limit: nat, now: Time)
    requires JobsFit(u) && id !in u.tasks && (d in u.docs ==> !u.docs[d].Retired?)
    requires u == t.(docs := u.docs) && forall e :: e in t.docs ==> e in u.docs
    requires forall e :: e in u.docs && u.docs[e].Retired? ==> e in t.docs && t.docs[e].Retired?
    requires Enqueue(u, d, kind, true, parent, id, limit, now).Some?
    ensures Requested(t, Enqueue(u, d, kind, true, parent, id, limit, now).value)
    ensures Freezes(t, Enqueue(u, d, kind, true, parent, id, limit, now).value)
  {
    var v := Enqueued(u, d, kind, parent, id, limit, now);
    EnqueuedRequests(t, u, d, kind, parent, id, limit, now);
    EnqueuedFreezes(t, u, d, kind, parent, id, limit, now);
    SyncRequests(v, parent);
    RequestedJoins(t, v, SyncParent(v, parent).value);
  }

  lemma RequestedJoins(a: Table, b: Table, c: Table)
    requires Requested(a, b) && Requested(b, c) && Freezes(a, b) && Freezes(b, c)
    ensures Requested(a, c) && Freezes(a, c)
  {
    forall id | id in c.tasks && id !in a.tasks ensures c.tasks[id].attempts == 0 <= c.tasks[id].limit {
      if id in b.tasks { assert SameCount(b.tasks[id], c.tasks[id]); }
    }
  }

  lemma {:induction false} RetireEachRequests(t: Table, p: TaskId, versions: seq<Doc>, ids: seq<TaskId>, limit: nat, now: Time)
    requires NearlySound(t, p) && limit >= 1 && SeriesReady(t, p, versions, ids)
    ensures var next := RetireEach(t, p, versions, ids, limit, now);
            next.Some? && Requested(t, next.value) && Freezes(t, next.value)
    decreases |versions|
  {
    if versions != [] {
      var d := versions[0];
      var u := t.(docs := t.docs[d := Deleting]);
      RetireOneKeeps(t, p, d, ids[0], limit, now);
      assert d in t.jobs ==> JobFits(t, d);
      StatusKeeps(t, d, Deleting, Some(p));
      var v := Enqueue(u, d, Delete, true, Some(p), ids[0], limit, now).value;
      EnqueueRequests(t, u, d, Delete, Some(p), ids[0], limit, now);
      StillReady(t, v, p, versions, ids);
      RetireEachRequests(v, p, versions[1..], ids[1..], limit, now);
      RequestedJoins(t, v, RetireEach(v, p, versions[1..], ids[1..], limit, now).value);
    }
  }

  lemma RetireSeriesRequests(t: Table, p: TaskId, first: Doc, versions: seq<Doc>, already: nat, ids: seq<TaskId>, limit: nat, now: Time)
    requires Sound(t) && p !in t.tasks && limit >= 1 && |ids| == |versions| && MayRetireAll(t, p, versions, ids)
    requires RetireSeries(t, p, first, versions, already, ids, limit, now).Some?
    ensures var v := RetireSeries(t, p, first, versions, already, ids, limit, now).value;
            Requested(t, v) && Freezes(t, v)
  {
    var task := SeriesTask(first, (set d | d in versions), already);
    var u := t.(tasks := t.tasks[p := task]);
    OpeningKeeps(t, p, task);
    forall k | 0 <= k < |versions| ensures Retirable(u, versions[k]) { assert Retirable(t, versions[k]); }
    RetireEachRequests(u, p, versions, ids, limit, now);
    OpeningRequests(t, p, task);
    var v := RetireEach(u, p, versions, ids, limit, now).value;
    RequestedJoins(t, u, v);
    SyncRequests(v, Some(p));
    RequestedJoins(t, v, SyncParent(v, Some(p)).value);
  }

  lemma OpeningRequests(t: Table, p: TaskId, task: Task)
    requires p !in t.tasks && task.attempts == 0 <= task.limit
    ensures Requested(t, t.(tasks := t.tasks[p := task])) && Freezes(t, t.(tasks := t.tasks[p := task]))
  {
  }

  predicate ByUser(act: Act) { act.Upload? || act.Retry? || act.Backfill? || act.RetireOne? || act.RetireAll? }

  lemma EnqueueActKeeps(w: World, d: Doc, s: Status, kind: Kind, id: TaskId, c: Clock)
    requires Orderly(w) && c.limit >= 1 && id !in w.table.tasks && !kind.Delete? && !kind.Series? && !s.Retired?
    requires d in w.table.docs ==> !w.table.docs[d].Retired? && !w.table.docs[d].Deleting?
    requires d in w.table.jobs ==> d in w.table.docs
    ensures var next := Enqueue(w.table.(docs := w.table.docs[d := s]), d, kind, true, None, id, c.limit, c.now);
            next.Some? && Sound(next.value) && Requested(w.table, next.value) && Freezes(w.table, next.value)
  {
    var t := w.table;
    var u := t.(docs := t.docs[d := s]);
    assert d in t.jobs ==> JobFits(t, d) && TaskFits(t, t.jobs[d].task);
    NewStatusKeeps(t, d, s);
    assert Receipt(u, d) == Receipt(t, d);
    EnqueueKeepsSound(u, d, kind, None, id, c.limit, c.now);
    EnqueueRequests(t, u, d, kind, None, id, c.limit, c.now);
  }

  /** A document added, or its status rewritten while it is not being deleted. */
  lemma NewStatusKeeps(t: Table, d: Doc, s: Status)
    requires Sound(t) && (d in t.jobs ==> !t.jobs[d].kind.Delete?)
    ensures Sound(t.(docs := t.docs[d := s]))
  {
    var v := t.(docs := t.docs[d := s]);
    forall e | e in v.jobs ensures JobFits(v, e) { assert JobFits(t, e); }
    forall id | id in v.tasks ensures TaskFits(v, id) { assert TaskFits(t, id); }
    forall q | q in v.tasks && v.tasks[q].kind.Series? ensures SeriesFits(v, q) {
      assert SeriesFits(t, q);
      assert Children(v, q) == Children(t, q);
      TallyDepends(t, v, q);
    }
  }

  lemma RetireActKeeps(w: World, d: Doc, retryFailed: bool, id: TaskId, c: Clock)
    requires Orderly(w) && c.limit >= 1 && d in w.table.docs && id !in w.table.tasks
    requires w.table.docs[d].Retired? ==> d in w.table.jobs
    ensures var next := Retire(w.table, d, retryFailed, id, c.limit, c.now);
            next.Some? && Sound(next.value) && Requested(w.table, next.value) && Freezes(w.table, next.value)
  {
    var t := w.table;
    assert RetiredFits(t, d);
    RetireKeepsSound(t, d, retryFailed, id, c.limit, c.now);
    assert d in t.jobs ==> JobFits(t, d);
    if Retire(t, d, retryFailed, id, c.limit, c.now).value != t {
      var u := t.(docs := t.docs[d := Deleting]);
      StatusKeeps(t, d, Deleting, None);
      var previous := if d in t.jobs && t.jobs[d].kind.Delete? then Receipt(t, d) else None;
      var parent := if previous.Some? then previous.value.parent else None;
      EnqueueRequests(t, u, d, Delete, parent, id, c.limit, c.now);
    }
  }

  /** Every request keeps the queue orderly and the replaced receipts as they are. */
  lemma RequestKeeps(w: World, act: Act, c: Clock)
    requires Orderly(w) && ByUser(act) && c.limit >= 1
    ensures var v := Step(w, act, c); Orderly(v) && Requested(w.table, v.table) && Freezes(w.table, v.table)
  {
    var v := Step(w, act, c);
    var t := w.table;
    match act {
      case Upload(d, id) =>
        if v != w { EnqueueActKeeps(w, d, Processing, Ingest, id, c); }
      case Retry(d, id) =>
        if v != w { DocKnown(w, d); EnqueueActKeeps(w, d, Processing, Ingest, id, c); }
      case Backfill(d, id) =>
        if v != w { assert t.(docs := t.docs[d := Ready]) == t; EnqueueActKeeps(w, d, Ready, Hierarchy, id, c); }
      case RetireOne(d, retryFailed, id) =>
        if v != w { RetireActKeeps(w, d, retryFailed, id, c); }
      case RetireAll(p, first, versions, already, ids) =>
        if v != w {
          RetireSeriesKeepsSound(t, p, first, versions, already, ids, c.limit, c.now);
          RetireSeriesRequests(t, p, first, versions, already, ids, c.limit, c.now);
        }
    }
    RequestedKeepsWorkers(w, v);
  }

  lemma DocKnown(w: World, d: Doc)
    requires Orderly(w)
    ensures d in w.table.jobs ==> d in w.table.docs
  {
    assert d in w.table.jobs ==> JobFits(w.table, d);
  }

  // ---------------------------------------------------------------- the workers' transactions

  /** A transaction on one job touches its receipt, the parent's tally, and no other receipt. */
  ghost predicate Touches(t: Table, v: Table, d: Doc, j: Job)
  {
    && v.docs == t.docs && v.jobs == t.jobs[d := j] && v.tasks.Keys == t.tasks.Keys && j.task in t.tasks
    && (forall id :: id in t.tasks ==> v.tasks[id].kind == t.tasks[id].kind && v.tasks[id].document == t.tasks[id].document)
    && (forall id :: id in t.tasks && id != j.task ==> SameCount(t.tasks[id], v.tasks[id]))
    && v.tasks[j.task].attempts == j.attempts && v.tasks[j.task].limit == j.limit
  }

  lemma PutTouches(t: Table, d: Doc, j: Job, phase: Option<Phase>)
    requires Sound(t) && d in t.jobs && d in t.docs && Replaces(t, d, j) && Put(t, d, j, phase).Some?
    ensures Touches(t, Put(t, d, j, phase).value, d, j)
  {
    assert JobFits(t, d);
    SyncTouches(t, Rewritten(t, d, j, phase), t.tasks[j.task].parent, d, j);
  }

  lemma SyncTouches(t: Table, u: Table, p: Option<TaskId>, d: Doc, j: Job)
    requires Touches(t, u, d, j) && SyncParent(u, p).Some? && !t.tasks[j.task].kind.Series?
    ensures Touches(t, SyncParent(u, p).value, d, j)
  {
  }

  lemma PutFreezes(t: Table, d: Doc, j: Job, phase: Option<Phase>)
    requires Sound(t) && d in t.jobs && d in t.docs && Replaces(t, d, j) && Put(t, d, j, phase).Some?
    ensures Freezes(t, Put(t, d, j, phase).value)
  {
    assert JobFits(t, d) && TaskFits(t, j.task);
  }

  predicate HolderSame(w: World, v: World, e: Doc)
    requires e in w.table.jobs
  {
    var token := w.table.jobs[e].token;
    token.Some? && token.value in w.workers ==> token.value in v.workers && v.workers[token.value] == w.workers[token.value]
  }

  /** The workers after a transaction: those of other jobs as before, and the charges of the job's
      receipt within its attempts. */
  ghost predicate Staffed(w: World, v: World, d: Doc, j: Job)
    requires d in v.table.jobs
  {
    && (forall t :: t in v.workers ==> WorkerFits(v, t))
    && (forall e :: e in w.table.jobs && e != d ==> HolderSame(w, v, e))
    && HolderFits(v, d)
    && (forall id :: id in w.table.tasks && id != j.task ==> Charged(v, id) == Charged(w, id))
    && (j.kind.Ingest? || j.kind.Hierarchy? ==> |Charged(v, j.task)| <= j.attempts)
  }

  lemma TransactionKeeps(w: World, v: World, d: Doc, j: Job, phase: Option<Phase>)
    requires Orderly(w) && d in w.table.jobs && d in w.table.docs && Replaces(w.table, d, j)
    requires Put(w.table, d, j, phase) == Some(v.table) && d in v.table.jobs && Staffed(w, v, d, j)
    ensures Orderly(v)
  {
    PutKeepsSound(w.table, d, j, phase);
    PutTouches(w.table, d, j, phase);
    assert JobFits(w.table, d);
    forall e | e in v.table.jobs ensures HolderFits(v, e) { if e != d { assert HolderFits(w, e); } }
    forall id | id in v.table.tasks ensures Bounded(v, id) { if id != j.task { assert Bounded(w, id); } }
    forall e | e in v.table.docs ensures RetiredFits(v.table, e) { assert RetiredFits(w.table, e); }
  }

  /** What holding a job tells. */
  lemma HolderKnown(w: World, token: Token, at: Time)
    requires Orderly(w) && Holds(w, token, at)
    ensures var d := w.workers[token].doc; var j := w.table.jobs[d]; var k := w.workers[token];
            && d in w.table.docs && j.task in w.table.tasks && k.task == j.task && k.kind == j.kind && !k.released
            && (!k.exhausted ==> j.attempts >= 1) && JobFits(w.table, d)
            && (!k.exhausted ==> token in Charged(w, j.task))
  {
    assert JobFits(w.table, w.workers[token].doc) && HolderFits(w, w.workers[token].doc);
  }

  /** No one else's job is held by this token. */
  lemma OneJobEach(w: World, e: Doc, token: Token)
    requires Orderly(w) && e in w.table.jobs && w.table.jobs[e].token == Some(token)
    ensures token in w.workers && w.workers[token].doc == e
  {
    assert HolderFits(w, e);
  }

  lemma TakeKeeps(w: World, d: Doc, token: Token, c: Clock)
    requires Orderly(w)
    ensures Orderly(Step(w, Take(d, token), c)) && Freezes(w.table, Step(w, Take(d, token), c).table)
  {
    var v := Step(w, Take(d, token), c);
    if v != w {
      var was := w.table.jobs[d];
      assert JobFits(w.table, d);
      var waits := was.kind.Delete? && Receipt(w.table, d).Some? && Receipt(w.table, d).value.phase.WaitingRuns?;
      TakingKeeps(w, v, d, token, v.table.jobs[d], Some(if waits then WaitingRuns else Working));
    }
  }

  lemma TakingKeeps(w: World, v: World, d: Doc, token: Token, j: Job, phase: Option<Phase>)
    requires Orderly(w) && d in w.table.jobs && d in w.table.docs && token !in w.workers
    requires Replaces(w.table, d, j) && j.token == Some(token) && Put(w.table, d, j, phase) == Some(v.table)
    requires j.limit == w.table.jobs[d].limit
    requires v.workers == w.workers[token := Worker(d, j.task, j.kind, Exhausted(w.table.jobs[d]), false, false)]
    requires j.attempts == w.table.jobs[d].attempts + (if Exhausted(w.table.jobs[d]) then 0 else 1)
    ensures Orderly(v) && Freezes(w.table, v.table)
  {
    assert JobFits(w.table, d) && Bounded(w, j.task);
    PutTouches(w.table, d, j, phase);
    PutFreezes(w.table, d, j, phase);
    forall t | t in v.workers ensures WorkerFits(v, t) { if t != token { assert WorkerFits(w, t); } }
    ChargeNew(w, v, token, j.task);
    TransactionKeeps(w, v, d, j, phase);
  }

  /** A new worker charges its own receipt once, unless the attempts were used up. */
  lemma ChargeNew(w: World, v: World, token: Token, id: TaskId)
    requires token !in w.workers && token in v.workers && v.workers == w.workers[token := v.workers[token]]
    requires v.workers[token].task == id && !v.workers[token].released
    ensures forall o :: o != id ==> Charged(v, o) == Charged(w, o)
    ensures |Charged(v, id)| == |Charged(w, id)| + (if v.workers[token].exhausted then 0 else 1)
  {
    forall o | o != id ensures Charged(v, o) == Charged(w, o) {}
    if v.workers[token].exhausted {
      assert Charged(v, id) == Charged(w, id);
    } else {
      assert Charged(v, id) == Charged(w, id) + {token};
    }
  }

  lemma GiveBackKeeps(w: World, token: Token, c: Clock)
    requires Orderly(w)
    ensures Orderly(Step(w, GiveBack(token), c)) && Freezes(w.table, Step(w, GiveBack(token), c).table)
  {
    var v := Step(w, GiveBack(token), c);
    if v != w {
      HolderKnown(w, token, c.at);
      var d := w.workers[token].doc;
      var j := v.table.jobs[d];
      assert Bounded(w, j.task);
      assert Replaces(w.table, d, j);
      PutTouches(w.table, d, j, Some(Waiting));
      PutFreezes(w.table, d, j, Some(Waiting));
      forall t | t in v.workers ensures WorkerFits(v, t) { assert WorkerFits(w, t); }
      forall e | e in w.table.jobs && e != d ensures HolderSame(w, v, e) {
        if w.table.jobs[e].token == Some(token) { OneJobEach(w, e, token); }
      }
      ChargeReturned(w, v, token);
      TransactionKeeps(w, v, d, j, Some(Waiting));
    }
  }

  lemma ChargeReturned(w: World, v: World, token: Token)
    requires token in w.workers && v.workers == w.workers[token := w.workers[token].(released := true)] && !w.workers[token].released
    ensures forall o :: o != w.workers[token].task ==> Charged(v, o) == Charged(w, o)
    ensures |Charged(v, w.workers[token].task)| ==
            |Charged(w, w.workers[token].task)| - (if w.workers[token].exhausted then 0 else 1)
  {
    var id := w.workers[token].task;
    forall o | o != id ensures Charged(v, o) == Charged(w, o) {}
    if w.workers[token].exhausted {
      assert Charged(v, id) == Charged(w, id);
    } else {
      assert Charged(w, id) == Charged(v, id) + {token};
    }
  }

  /** Transactions that change no worker: the charges stay as they are. */
  lemma PlainKeeps(w: World, v: World, token: Token, at: Time, j: Job, phase: Option<Phase>)
    requires Orderly(w) && Holds(w, token, at) && v.workers == w.workers
    requires w.workers[token].doc in w.table.docs && Replaces(w.table, w.workers[token].doc, j)
    requires Put(w.table, w.workers[token].doc, j, phase) == Some(v.table)
    requires j.kind.Delete? || j.attempts == w.table.jobs[w.workers[token].doc].attempts
    requires j.limit == w.table.jobs[w.workers[token].doc].limit
    requires j.token.None? || (j.token == Some(token) && j.attempts == w.table.jobs[w.workers[token].doc].attempts)
    ensures Orderly(v) && Freezes(w.table, v.table)
  {
    var d := w.workers[token].doc;
    HolderKnown(w, token, at);
    assert Bounded(w, j.task);
    PutTouches(w.table, d, j, phase);
    PutFreezes(w.table, d, j, phase);
    forall t | t in v.workers ensures WorkerFits(v, t) { assert WorkerFits(w, t); }
    forall id ensures Charged(v, id) == Charged(w, id) {}
    TransactionKeeps(w, v, d, j, phase);
  }

  lemma EndKeeps(w: World, token: Token, failure: Option<Failure>, valid: bool, c: Clock)
    requires Orderly(w)
    ensures Orderly(Step(w, End(token, failure, valid), c)) && Freezes(w.table, Step(w, End(token, failure, valid), c).table)
  {
    if Holds(w, token, c.at) {
      HolderKnown(w, token, c.at);
      var d := w.workers[token].doc;
      var t := w.table;
      var verdict := Verdicts(t.jobs[d], t.docs[d], failure, w.workers[token].exhausted, valid, c.again);
      var u := w.(table := t.(docs := t.docs[d := verdict.status]));
      DocStatusKeeps(w, d, verdict.status);
      var j := verdict.job.(token := None, lease := None);
      assert Holds(u, token, c.at) && Replaces(u.table, d, j);
      PutKeepsSound(u.table, d, j, Some(verdict.phase));
      PlainKeeps(u, Step(w, End(token, failure, valid), c), token, c.at, j, Some(verdict.phase));
    }
  }

  /** A document's status rewritten: a retirement may only complete it. */
  lemma DocStatusKeeps(w: World, d: Doc, s: Status)
    requires Orderly(w) && d in w.table.docs
    requires s != w.table.docs[d] ==> !s.Deleting? && !w.table.docs[d].Retired?
    requires s != w.table.docs[d] ==> (s.Retired? <==> d in w.table.jobs && w.table.jobs[d].kind.Delete?)
    ensures var v := w.(table := w.table.(docs := w.table.docs[d := s])); Orderly(v) && Freezes(w.table, v.table)
  {
    var v := w.(table := w.table.(docs := w.table.docs[d := s]));
    assert d in w.table.jobs ==> JobFits(w.table, d);
    if s == w.table.docs[d] {
      assert v.table.docs == w.table.docs;
      assert v == w;
    } else {
      if d in w.table.jobs && w.table.jobs[d].kind.Delete? { StatusKeeps(w.table, d, s, None); } else { NewStatusKeeps(w.table, d, s); }
      forall e | e in v.table.jobs ensures HolderFits(v, e) { assert HolderFits(w, e); }
      forall t | t in v.workers ensures WorkerFits(v, t) { assert WorkerFits(w, t); }
      forall id | id in v.table.tasks ensures Bounded(v, id) { assert Bounded(w, id) && Charged(v, id) == Charged(w, id); }
      forall e | e in v.table.docs ensures RetiredFits(v.table, e) { assert RetiredFits(w.table, e); }
    }
  }

  lemma BeatKeeps(w: World, token: Token, c: Clock)
    requires Orderly(w)
    ensures Orderly(Step(w, Beat(token), c)) && Freezes(w.table, Step(w, Beat(token), c).table)
  {
    var v := Step(w, Beat(token), c);
    if Holds(w, token, c.at) {
      var d := w.workers[token].doc;
      HolderKnown(w, token, c.at);
      forall e | e in v.table.jobs ensures JobFits(v.table, e) && HolderFits(v, e) && Receipt(v.table, e) == Receipt(w.table, e) {
        assert JobFits(w.table, e) && HolderFits(w, e);
      }
      forall id | id in v.table.tasks ensures TaskFits(v.table, id) && Bounded(v, id) {
        assert TaskFits(w.table, id) && Bounded(w, id) && Charged(v, id) == Charged(w, id);
      }
      forall q | q in v.table.tasks && v.table.tasks[q].kind.Series? ensures SeriesFits(v.table, q) {
        assert SeriesFits(w.table, q) && Children(v.table, q) == Children(w.table, q);
        TallyDepends(w.table, v.table, q);
      }
      forall t | t in v.workers ensures WorkerFits(v, t) { assert WorkerFits(w, t); }
      forall e | e in v.table.docs ensures RetiredFits(v.table, e) { assert RetiredFits(w.table, e); }
    }
  }

  lemma BeginKeeps(w: World, token: Token, c: Clock)
    requires Orderly(w)
    ensures Orderly(Step(w, Begin(token), c))
  {
    var v := Step(w, Begin(token), c);
    if v != w {
      forall e | e in v.table.jobs ensures HolderFits(v, e) { assert HolderFits(w, e); }
      forall t | t in v.workers ensures WorkerFits(v, t) { assert WorkerFits(w, t); }
      forall id | id in v.table.tasks ensures Bounded(v, id) { assert Bounded(w, id) && Charged(v, id) == Charged(w, id); }
    }
  }

  lemma ReportKeeps(w: World, token: Token, phase: Phase, c: Clock)
    requires Orderly(w)
    ensures Orderly(Step(w, Report(token, phase), c)) && Freezes(w.table, Step(w, Report(token, phase), c).table)
  {
    if Holds(w, token, c.at) && !phase.WaitingRuns? {
      var d := w.workers[token].doc;
      HolderKnown(w, token, c.at);
      var j := w.table.jobs[d];
      assert Replaces(w.table, d, j);
      PutKeepsSound(w.table, d, j, Some(phase));
      PlainKeeps(w, Step(w, Report(token, phase), c), token, c.at, j, Some(phase));
    }
  }

  lemma DocumentStepKeeps(w: World, act: Act, c: Clock)
    requires Orderly(w) && (act.Published? || act.CleanedUp?)
    ensures Orderly(Step(w, act, c)) && Freezes(w.table, Step(w, act, c).table)
  {
    var token := act.token;
    if token in w.workers && w.workers[token].doc in w.table.docs {
      var d := w.workers[token].doc;
      if act.Published? && w.table.docs[d].Processing? {
        assert d in w.table.jobs ==> JobFits(w.table, d);
        DocStatusKeeps(w, d, Ready);
      } else if act.CleanedUp? && Holds(w, token, c.at) && w.table.docs[d].Deleting? && w.table.jobs[d].kind.Delete? {
        DocStatusKeeps(w, d, Retired);
      }
    }
  }

  /** Every step keeps the queue orderly, and every replaced receipt as it is. */
  lemma StepKeeps(w: World, act: Act, c: Clock)
    requires Orderly(w) && c.limit >= 1
    ensures Orderly(Step(w, act, c)) && Freezes(w.table, Step(w, act, c).table)
  {
    match act
    case Take(d, token) => TakeKeeps(w, d, token, c);
    case Beat(token) => BeatKeeps(w, token, c);
    case GiveBack(token) => GiveBackKeeps(w, token, c);
    case Begin(token) => BeginKeeps(w, token, c);
    case Report(token, phase) => ReportKeeps(w, token, phase, c);
    case Published(token) => DocumentStepKeeps(w, act, c);
    case CleanedUp(token) => DocumentStepKeeps(w, act, c);
    case End(token, failure, valid) => EndKeeps(w, token, failure, valid, c);
    case _ => RequestKeeps(w, act, c);
  }

  lemma {:induction false} HistoryKeeps(w: World, h: History)
    requires Orderly(w) && Limited(h)
    ensures Orderly(After(w, h)) && Freezes(w.table, After(w, h).table)
    decreases |h|
  {
    if h != [] {
      assert h[0].1.limit >= 1;
      StepKeeps(w, h[0].0, h[0].1);
      HistoryKeeps(Step(w, h[0].0, h[0].1), h[1..]);
    }
  }

  // ---------------------------------------------------------------- what it means

  /** In every reachable state a document's receipt shows its job's state, attempts and error, and
      the attempts are between zero and the limit. */
  lemma ReceiptsMirrorJobs(h: History, d: Doc)
    requires Limited(h) && d in After(NOTHING, h).table.jobs
    ensures var t := After(NOTHING, h).table;
            && t.jobs[d].task in t.tasks && t.tasks[t.jobs[d].task].document == d && Mirrors(t.tasks[t.jobs[d].task], t.jobs[d])
            && 0 <= t.jobs[d].attempts <= t.jobs[d].limit
  {
    HistoryKeeps(NOTHING, h);
    assert JobFits(After(NOTHING, h).table, d);
  }

  /** Once replaced, a receipt never changes again. */
  lemma ReplacedReceiptsAreFinal(h: History, more: History, id: TaskId)
    requires Limited(h) && Limited(more) && Superseded(After(NOTHING, h).table, id)
    ensures Superseded(After(After(NOTHING, h), more).table, id)
    ensures After(After(NOTHING, h), more).table.tasks[id] == After(NOTHING, h).table.tasks[id]
  {
    HistoryKeeps(NOTHING, h);
    HistoryKeeps(After(NOTHING, h), more);
  }

  /** However often its workers crash, stall or give a busy document back, the body of an ingestion
      or a backfill is started at most as often as its receipt allows attempts. */
  lemma BodiesAreBounded(h: History, id: TaskId)
    requires Limited(h) && id in After(NOTHING, h).table.tasks
    requires After(NOTHING, h).table.tasks[id].kind.Ingest? || After(NOTHING, h).table.tasks[id].kind.Hierarchy?
    ensures |Begun(After(NOTHING, h), id)| <= After(NOTHING, h).table.tasks[id].limit
  {
    HistoryKeeps(NOTHING, h);
    var w := After(NOTHING, h);
    assert Bounded(w, id);
    forall t | t in Begun(w, id) ensures t in Charged(w, id) { assert WorkerFits(w, t); }
    SubsetIsSmaller(Begun(w, id), Charged(w, id));
  }

  lemma {:induction false} SubsetIsSmaller<T>(a: set<T>, b: set<T>)
    requires a <= b
    ensures |a| <= |b| && (|a| == |b| ==> a == b)
    decreases |a|
  {
    if a != {} {
      var x :| x in a;
      SubsetIsSmaller(a - {x}, b - {x});
      if |a| == |b| { assert a == (a - {x}) + {x} && b == (b - {x}) + {x}; }
    } else if b != {} {
      var x :| x in b;
      assert |b| == |b - {x}| + 1;
    }
  }

  /** The retirement of a series has succeeded exactly when the current receipt of every version it
      set out to retire has, and then every one of those documents is retired. */
  lemma SeriesSucceedsExactly(h: History, p: TaskId)
    requires Limited(h) && p in After(NOTHING, h).table.tasks && After(NOTHING, h).table.tasks[p].kind.Series?
    ensures var t := After(NOTHING, h).table; var versions := t.tasks[p].versions;
            && (t.tasks[p].state.Succeeded? <==> forall d :: d in versions ==> Receipt(t, d).Some? && Receipt(t, d).value.state.Succeeded?)
            && t.tasks[p].processed == t.tasks[p].already + |Finished(t, p)| <= t.tasks[p].total
            && (t.tasks[p].state.Succeeded? ==> forall d :: d in versions ==> d in t.docs && t.docs[d].Retired?)
  {
    HistoryKeeps(NOTHING, h);
    var t := After(NOTHING, h).table;
    assert SeriesFits(t, p);
    SubsetIsSmaller(Finished(t, p), t.tasks[p].versions);
    forall d | d in Finished(t, p) ensures d in t.docs && t.docs[d].Retired? {
      assert JobFits(t, d) && TaskFits(t, t.jobs[d].task);
    }
    if forall d :: d in t.tasks[p].versions ==> Receipt(t, d).Some? && Receipt(t, d).value.state.Succeeded? {
      assert Finished(t, p) == t.tasks[p].versions;
    }
  }
}
