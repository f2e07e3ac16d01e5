/** What every reachable state of the memory queue satisfies: first in first out per generation,
    workers that agree with the rows they hold, and at most one remote write of each kind.
    app/dao/postgres/automatic_memory.py:51-61,78-86,120-143, app/service/automatic_memory.py:123-305. */
module MemoryQueue {
  import opened Outcomes
  import opened MemoryModel
  import opened MemorySync

  // ---------------------------------------------------------------- the invariant

  /** As enqueued: never claimed. */
  predicate Untouched(j: Job) { j.state.Pending? && j.receipt == UNSTARTED && j.owner.None? }

  /** Behind an unfinished job, every job of its generation is as it was enqueued. */
  ghost predicate Fifo(jobs: seq<Job>)
  {
    forall i, k :: 0 <= i < k < |jobs| && jobs[i].generation == jobs[k].generation && Active(jobs[i]) ==> Untouched(jobs[k])
  }

  predicate ReceiptFits(r: Receipt) { r.task.Some? ==> r.phase.Awaiting? }

  predicate JobFits(j: Job)
  {
    && ReceiptFits(j.receipt)
    && (j.receipt.removed ==> !Active(j) && !Unclear(j.receipt))
    && (j.state.Running? ==> j.owner.Some?)
  }

  ghost predicate JobsFit(jobs: seq<Job>) { forall i :: 0 <= i < |jobs| ==> JobFits(jobs[i]) }

  predicate Holding(w: World, t: Token)
  {
    && t in w.sessions && w.sessions[t].job < |w.store.jobs|
    && w.store.jobs[w.sessions[t].job].owner == Some(t) && w.store.jobs[w.sessions[t].job].state.Running?
  }

  /** The worker's receipt carries the phase its stage implies. */
  predicate StageFits(s: Session)
  {
    match s.stage
    case AppendNow => s.receipt.phase.Appending?
    case AppendSent => s.receipt.phase.Appending?
    case AppendSaved => s.receipt.phase.Appended?
    case CommitNow => s.receipt.phase.Committing?
    case CommitSent => s.receipt.phase.Committing?
    case CommitSaved => s.receipt.phase.Awaiting?
    case _ => true
  }

  /** A worker about to send has the only permission to send, and the row still says so. */
  predicate PermitFits(w: World, s: Session)
    requires s.job < |w.store.jobs|
  {
    var r := w.store.jobs[s.job].receipt;
    match s.stage
    case AppendNow => r.phase.Appending? && s.job !in w.appends
    case AppendSent => s.job in w.appends
    case CommitNow => Unclear(r) && s.job !in w.commits
    case CommitSent => s.job in w.commits
    case _ => true
  }

  predicate Swept(r: Receipt) { (r.phase.New? || r.removed) && !Unclear(r) }

  /** While the sweep's worker holds its job, its snapshot of the captures stays current. */
  ghost predicate SweepFits(w: World, t: Token)
    requires t in w.sessions && w.sessions[t].job < |w.store.jobs| && w.sessions[t].stage.Sweeping?
  {
    var s := w.sessions[t];
    var jobs := w.store.jobs;
    && s.stage.at <= |s.stage.seen| <= |jobs| && s.job < |s.stage.seen|
    && (forall k :: 0 <= k < |s.stage.seen| ==> SameIdentity(s.stage.seen[k], jobs[k]))
    && (Holding(w, t) ==>
         forall k :: 0 <= k < |s.stage.seen| ==> SweptFits(s.stage.seen[k], jobs[k], jobs[s.job].generation, k < s.stage.at))
  }

  predicate SameIdentity(a: Job, b: Job) { a.generation == b.generation && a.key == b.key }

  predicate SweptFits(seen: Job, job: Job, generation: nat, done: bool)
  {
    job.key.Capture? && job.generation == generation ==>
      && seen.receipt.phase == job.receipt.phase && seen.receipt.task == job.receipt.task
      && (seen.receipt.removed ==> job.receipt.removed)
      && (done ==> Swept(job.receipt))
  }

  ghost predicate SessionFits(w: World, t: Token)
    requires t in w.sessions
  {
    var s := w.sessions[t];
    && s.job < |w.store.jobs| && w.store.jobs[s.job].owner.Some?
    && (s.stage.Started? || (s.stage.Sweeping? <==> !w.store.jobs[s.job].key.Capture?))
    && ReceiptFits(s.receipt) && StageFits(s) && PermitFits(w, s)
    && (Holding(w, t) ==> s.receipt == w.store.jobs[s.job].receipt)
    && (s.stage.Sweeping? ==> SweepFits(w, t))
  }

  ghost predicate SessionsFit(w: World) { forall t :: t in w.sessions ==> SessionFits(w, t) }

  predicate Rivals(a: Session, b: Session)
  {
    a.job == b.job && ((a.stage.AppendNow? && b.stage.AppendNow?) || (a.stage.CommitNow? && b.stage.CommitNow?))
  }

  ghost predicate NoRivals(w: World)
  {
    forall t, u :: t in w.sessions && u in w.sessions && t != u ==> !Rivals(w.sessions[t], w.sessions[u])
  }

  ghost predicate Distinct(s: seq<nat>) { forall i, j :: 0 <= i < j < |s| ==> s[i] != s[j] }

  predicate Committed(r: Receipt) { r.phase.Committing? || r.phase.Awaiting? }

  predicate AppendedTo(r: Receipt) { r.phase.Appended? || Committed(r) }

  ghost predicate SentFit(w: World)
  {
    && (forall i :: 0 <= i < |w.store.jobs| && AppendedTo(w.store.jobs[i].receipt) ==> i in w.appends)
    && (forall i :: 0 <= i < |w.store.jobs| && w.store.jobs[i].receipt.phase.Awaiting? ==> i in w.commits)
    && Distinct(w.appends) && Distinct(w.commits)
    && (forall i :: i in w.appends ==> i < |w.store.jobs| && !w.store.jobs[i].receipt.phase.New?)
    && (forall i :: i in w.commits ==> i < |w.store.jobs| && Committed(w.store.jobs[i].receipt))
  }

  ghost predicate Sound(w: World)
  {
    Fifo(w.store.jobs) && JobsFit(w.store.jobs) && SessionsFit(w) && NoRivals(w) && SentFit(w)
  }

  // ---------------------------------------------------------------- the queue alone

  /** Unfinished, with nothing unfinished before it in its generation. */
  ghost predicate Head(jobs: seq<Job>, i: nat)
  {
    && i < |jobs| && Active(jobs[i])
    && forall k :: 0 <= k < i && jobs[k].generation == jobs[i].generation ==> !Active(jobs[k])
  }

  /** The running job is the head, and everything behind it is untouched. */
  lemma RunningIsHead(jobs: seq<Job>, i: nat)
    requires Fifo(jobs) && JobsFit(jobs) && i < |jobs| && jobs[i].state.Running?
    ensures Head(jobs, i)
    ensures forall k :: i < k < |jobs| && jobs[k].generation == jobs[i].generation ==> Untouched(jobs[k])
  {
    assert JobFits(jobs[i]);
  }

  lemma HeadUpdateKeepsFifo(jobs: seq<Job>, i: nat, j: Job)
    requires Fifo(jobs) && Head(jobs, i) && SameIdentity(j, jobs[i])
    ensures Fifo(jobs[i := j])
  {
    var next := jobs[i := j];
    forall a, b | 0 <= a < b < |next| && next[a].generation == next[b].generation && Active(next[a])
      ensures Untouched(next[b])
    {
      if a == i { assert Active(jobs[i]); }
    }
  }

  lemma MarkKeepsFifo(jobs: seq<Job>, i: nat, j: Job)
    requires Fifo(jobs) && i < |jobs| && !Active(jobs[i]) && j.state == jobs[i].state && SameIdentity(j, jobs[i])
    ensures Fifo(jobs[i := j])
  {
  }

  lemma AppendKeepsFifo(jobs: seq<Job>, j: Job)
    requires Fifo(jobs) && Untouched(j)
    ensures Fifo(jobs + [j])
  {
  }

  // ---------------------------------------------------------------- how a step touches the rows

  /** The rows after a step: as before, one more, or one rewritten. */
  datatype Effect = Still | Grown(added: Job) | Rewritten(index: nat, row: Job)

  predicate Effected(jobs: seq<Job>, next: seq<Job>, e: Effect)
  {
    match e
    case Still => next == jobs
    case Grown(j) => next == jobs + [j] && Untouched(j) && ReceiptFits(j.receipt) && !j.receipt.removed
    case Rewritten(i, j) => i < |jobs| && next == jobs[i := j] && SameIdentity(j, jobs[i])
  }

  lemma EnqueueEffect(jobs: seq<Job>, generation: nat, key: Key, now: Time) returns (e: Effect)
    ensures Effected(jobs, Enqueue(jobs, generation, key, now), e) && !e.Rewritten?
  {
    if exists i :: 0 <= i < |jobs| && jobs[i].generation == generation && jobs[i].key == key {
      e := Still;
    } else {
      e := Grown(Job(generation, key, Pending, UNSTARTED, None, None, now, 0));
    }
  }

  predicate Requesting(act: Act) { act.Toggle? || act.ClearAll? || act.Forget? || act.Note? }

  lemma RequestEffect(w: World, act: Act, c: Clock) returns (e: Effect)
    requires Requesting(act)
    ensures Effected(w.store.jobs, Step(w, act, c).store.jobs, e) && !e.Rewritten?
    ensures Step(w, act, c) == w.(store := Step(w, act, c).store)
  {
    var s := w.store;
    var g := Settled(s.consent).generation;
    match act
    case Toggle(enabled) =>
      e := Still;
      if Settled(s.consent).enabled != enabled && !enabled { e := EnqueueEffect(s.jobs, g, Purge, c.now); }
    case ClearAll => e := EnqueueEffect(s.jobs, g, Purge, c.now);
    case Forget(p) =>
      e := Still;
      if p in s.memories && s.consent.Some? && p.generation == s.consent.value.generation {
        e := EnqueueEffect(s.jobs, p.generation, Delete(p), c.now);
      }
    case Note(source, eligible) =>
      e := Still;
      if s.consent.Some? && s.consent.value.enabled && eligible {
        e := EnqueueEffect(s.jobs, s.consent.value.generation, Capture(source), c.now);
      }
  }

  // ---------------------------------------------------------------- sessions a step leaves alone

  /** A row added at the end disturbs no worker. */
  lemma GrowthKeepsSession(w: World, v: World, t: Token, j: Job)
    requires Sound(w) && t in w.sessions && v.sessions == w.sessions && v.appends == w.appends && v.commits == w.commits
    requires v.store.jobs == w.store.jobs + [j]
    ensures SessionFits(v, t)
  {
    assert SessionFits(w, t);
    var s := w.sessions[t];
    assert v.store.jobs[s.job] == w.store.jobs[s.job];
    if s.stage.Sweeping? {
      assert SweepFits(w, t);
      forall k | 0 <= k < |s.stage.seen| ensures v.store.jobs[k] == w.store.jobs[k] {}
    }
  }

  /** A rewritten row disturbs no other worker, when the row is the head of its generation and its
      phase is kept or no other worker was about to send for it. */
  lemma RewriteKeepsSession(w: World, v: World, t: Token, i: nat, j: Job)
    requires Sound(w) && t in w.sessions && t in v.sessions && v.sessions[t] == w.sessions[t]
    requires Head(w.store.jobs, i) && v.store.jobs == w.store.jobs[i := j] && SameIdentity(j, w.store.jobs[i])
    requires j.owner.Some? && j.owner != Some(t)
    requires v.appends == w.appends && v.commits == w.commits
    requires w.sessions[t].job == i ==>
      (j.receipt == w.store.jobs[i].receipt || (!w.sessions[t].stage.AppendNow? && !w.sessions[t].stage.CommitNow?))
    ensures SessionFits(v, t)
  {
    assert SessionFits(w, t);
    var s := w.sessions[t];
    if s.stage.Sweeping? {
      assert SweepFits(w, t);
      if Holding(v, t) {
        HeldElsewhere(w, t, i);
        forall k | 0 <= k < |s.stage.seen|
          ensures SweptFits(s.stage.seen[k], v.store.jobs[k], v.store.jobs[s.job].generation, k < s.stage.at)
        {
          assert SweptFits(s.stage.seen[k], w.store.jobs[k], w.store.jobs[s.job].generation, k < s.stage.at);
        }
      }
    }
  }

  /** Two heads of one generation are one row. */
  lemma HeldElsewhere(w: World, t: Token, i: nat)
    requires Sound(w) && Holding(w, t) && Head(w.store.jobs, i) && i != w.sessions[t].job
    ensures w.store.jobs[i].generation != w.store.jobs[w.sessions[t].job].generation
  {
    RunningIsHead(w.store.jobs, w.sessions[t].job);
  }

  // ---------------------------------------------------------------- every kind of step keeps the invariant

  lemma RequestKeepsSound(w: World, act: Act, c: Clock)
    requires Sound(w) && Requesting(act)
    ensures Sound(Step(w, act, c))
  {
    var e := RequestEffect(w, act, c);
    var v := Step(w, act, c);
    if e.Still? {
      forall t | t in v.sessions ensures SessionFits(v, t) {
        assert SessionFits(w, t);
        if w.sessions[t].stage.Sweeping? { assert SweepFits(w, t); }
      }
    } else {
      AppendKeepsFifo(w.store.jobs, e.added);
      forall t | t in v.sessions ensures SessionFits(v, t) { GrowthKeepsSession(w, v, t, e.added); }
      assert JobFits(e.added);
    }
  }

  /** The head of a generation rewritten by the worker `t`. */
  ghost predicate Replaces(w: World, v: World, t: Token, j: Job)
  {
    && t in v.sessions && v.sessions.Keys == w.sessions.Keys + {t}
    && (forall u :: u in w.sessions && u != t ==> v.sessions[u] == w.sessions[u])
    && v.appends == w.appends && v.commits == w.commits
    && var i := v.sessions[t].job;
       Head(w.store.jobs, i) && v.store.jobs == w.store.jobs[i := j]
       && SameIdentity(j, w.store.jobs[i]) && j.owner == Some(t) && JobFits(j)
  }

  /** Its receipt as before, or moved on while no other worker was about to send. */
  ghost predicate Harmless(w: World, v: World, t: Token, j: Job)
    requires Replaces(w, v, t, j)
  {
    var i := v.sessions[t].job;
    && (i in w.appends ==> !j.receipt.phase.New?) && (i in w.commits ==> Committed(j.receipt))
    && (AppendedTo(j.receipt) ==> i in w.appends) && (j.receipt.phase.Awaiting? ==> i in w.commits)
    && (j.receipt == w.store.jobs[i].receipt ||
        forall u :: u in w.sessions && u != t && w.sessions[u].job == i
          ==> !w.sessions[u].stage.AppendNow? && !w.sessions[u].stage.CommitNow?)
  }

  lemma ReplaceKeepsSound(w: World, v: World, t: Token, j: Job)
    requires Sound(w) && Replaces(w, v, t, j) && Harmless(w, v, t, j) && SessionFits(v, t)
    requires forall u :: u in w.sessions && u != t ==> !Rivals(v.sessions[t], w.sessions[u])
    ensures Sound(v)
  {
    var i := v.sessions[t].job;
    HeadUpdateKeepsFifo(w.store.jobs, i, j);
    forall u | u in v.sessions ensures SessionFits(v, u) {
      if u != t { RewriteKeepsSession(w, v, u, i, j); }
    }
  }

  lemma ClaimKeepsSound(w: World, i: nat, t: Token, c: Clock)
    requires Sound(w)
    ensures Sound(Step(w, Act.Claim(i, t), c))
  {
    var v := Step(w, Act.Claim(i, t), c);
    if i < |w.store.jobs| && t !in w.sessions && Claimable(w.store.jobs, i, c.now) {
      var j := v.store.jobs[i];
      assert JobFits(w.store.jobs[i]);
      assert Replaces(w, v, t, j);
      ReplaceKeepsSound(w, v, t, j);
    }
  }

  // ---------------------------------------------------------------- fenced steps

  lemma FencedIsHead(w: World, t: Token, at: Time)
    requires Sound(w) && Fenced(w, t, at)
    ensures Holding(w, t) && SessionFits(w, t) && Head(w.store.jobs, w.sessions[t].job)
    ensures JobFits(w.store.jobs[w.sessions[t].job]) && !w.store.jobs[w.sessions[t].job].receipt.removed
  {
    RunningIsHead(w.store.jobs, w.sessions[t].job);
    assert JobFits(w.store.jobs[w.sessions[t].job]);
  }

  /** A fenced step that keeps the receipt and every worker's place. */
  lemma StateChangeKeepsSound(w: World, v: World, t: Token, at: Time, j: Job)
    requires Sound(w) && Fenced(w, t, at)
    requires v.sessions == w.sessions && v.appends == w.appends && v.commits == w.commits
    requires v.store.jobs == w.store.jobs[w.sessions[t].job := j]
    requires SameIdentity(j, w.store.jobs[w.sessions[t].job]) && j.owner == Some(t)
    requires j.receipt == w.store.jobs[w.sessions[t].job].receipt
    ensures Sound(v)
  {
    FencedIsHead(w, t, at);
    var s := w.sessions[t];
    assert Replaces(w, v, t, j);
    if s.stage.Sweeping? {
      assert SweepFits(w, t);
      forall k | 0 <= k < |s.stage.seen|
        ensures SweptFits(s.stage.seen[k], v.store.jobs[k], v.store.jobs[s.job].generation, k < s.stage.at)
      {
        assert SweptFits(s.stage.seen[k], w.store.jobs[k], w.store.jobs[s.job].generation, k < s.stage.at);
      }
      assert SweepFits(v, t);
    }
    assert NoRivals(w);
    ReplaceKeepsSound(w, v, t, j);
  }

  lemma AdvanceKeepsSound(w: World, t: Token, receipt: Receipt, stage: Stage, c: Clock)
    requires Sound(w) && Fenced(w, t, c.at) && MayAdvance(w.sessions[t], receipt, stage)
    ensures Sound(Advanced(w, t, receipt, stage, c))
  {
    var v := Advanced(w, t, receipt, stage, c);
    FencedIsHead(w, t, c.at);
    var i := w.sessions[t].job;
    var j := v.store.jobs[i];
    assert Replaces(w, v, t, j);
    forall u | u in w.sessions && u != t && w.sessions[u].job == i
      ensures !w.sessions[u].stage.AppendNow? && !w.sessions[u].stage.CommitNow?
    {
      assert SessionFits(w, u) && PermitFits(w, w.sessions[u]);
    }
    assert forall k :: k in w.commits ==> Committed(w.store.jobs[k].receipt);
    assert forall k :: k in w.appends ==> !w.store.jobs[k].receipt.phase.New?;
    ReplaceKeepsSound(w, v, t, j);
  }

  /** A capture that was started and is not the job held is finished. */
  lemma SweptIsFinished(w: World, t: Token, k: nat)
    requires Sound(w) && Holding(w, t) && k < |w.store.jobs| && !w.store.jobs[k].receipt.phase.New?
    requires w.store.jobs[k].generation == w.store.jobs[w.sessions[t].job].generation && k != w.sessions[t].job
    ensures !Active(w.store.jobs[k])
  {
    RunningIsHead(w.store.jobs, w.sessions[t].job);
  }

  /** The world after the sweep of `t` marked the capture at its position `k`. */
  ghost predicate Marks(w: World, v: World, t: Token, k: nat)
  {
    && Holding(w, t) && w.sessions[t].stage.Sweeping?
    && k == w.sessions[t].stage.at < |w.sessions[t].stage.seen| && k < |w.store.jobs|
    && !Active(w.store.jobs[k]) && !Unclear(w.store.jobs[k].receipt)
    && v == Staged(w.(store := MarkedRemoved(w.store, k)), t, w.sessions[t].stage.(at := k + 1))
  }

  lemma MarkKeepsSession(w: World, v: World, t: Token, u: Token, k: nat)
    requires Sound(w) && Marks(w, v, t, k) && u in w.sessions
    ensures SessionFits(v, u)
  {
    assert SessionFits(w, u) && SessionFits(w, t);
    var s := w.sessions[u];
    if s.stage.Sweeping? {
      assert SweepFits(w, u);
      if Holding(v, u) {
        forall n | 0 <= n < |s.stage.seen|
          ensures SweptFits(s.stage.seen[n], v.store.jobs[n], v.store.jobs[s.job].generation, n < v.sessions[u].stage.at)
        {
          assert SweptFits(s.stage.seen[n], w.store.jobs[n], w.store.jobs[s.job].generation, n < s.stage.at);
        }
      }
      assert SweepFits(v, u);
    }
  }

  lemma MarkKeepsJobs(w: World, v: World, t: Token, k: nat)
    requires Sound(w) && Marks(w, v, t, k)
    ensures Fifo(v.store.jobs) && JobsFit(v.store.jobs) && SentFit(v)
  {
    MarkKeepsFifo(w.store.jobs, k, v.store.jobs[k]);
    assert JobFits(w.store.jobs[k]);
  }

  lemma MarkKeepsSound(w: World, v: World, t: Token, k: nat)
    requires Sound(w) && Marks(w, v, t, k)
    ensures Sound(v)
  {
    MarkKeepsJobs(w, v, t, k);
    forall u | u in v.sessions ensures SessionFits(v, u) { MarkKeepsSession(w, v, t, u, k); }
    forall a, b | a in v.sessions && b in v.sessions && a != b ensures !Rivals(v.sessions[a], v.sessions[b]) {
      if a != t && b != t { assert !Rivals(w.sessions[a], w.sessions[b]); }
    }
  }

  /** The sweep marks a capture that was started, has ended, and whose outcome is known. */
  lemma RemoveMarks(w: World, t: Token, c: Clock)
    requires Sound(w) && Fenced(w, t, c.at) && FencedWork(w, t, Work.Remove, c) != w
    ensures w.sessions[t].stage.Sweeping?
    ensures Marks(w, FencedWork(w, t, Work.Remove, c), t, w.sessions[t].stage.at)
  {
    FencedIsHead(w, t, c.at);
    var s := w.sessions[t];
    var k := s.stage.at;
    assert SweepFits(w, t);
    assert SweptFits(s.stage.seen[k], w.store.jobs[k], w.store.jobs[s.job].generation, false);
    SweptIsFinished(w, t, k);
  }

  lemma FencedKeepsSound(w: World, t: Token, work: Work, c: Clock)
    requires Sound(w) && Fenced(w, t, c.at)
    ensures Sound(FencedWork(w, t, work, c))
  {
    var v := FencedWork(w, t, work, c);
    if work.Remove? {
      if v != w {
        RemoveMarks(w, t, c);
        MarkKeepsSound(w, v, t, w.sessions[t].stage.at);
      }
    } else if v != w {
      FencedIsHead(w, t, c.at);
      StateChangeKeepsSound(w, v, t, c.at, v.store.jobs[w.sessions[t].job]);
    }
  }

  // ---------------------------------------------------------------- steps outside the fence

  /** A worker moved on, and perhaps one more message or commit was sent for its job. */
  ghost predicate Moves(w: World, v: World, t: Token)
  {
    && t in w.sessions && t in v.sessions && v.store == w.store
    && v.sessions == w.sessions[t := w.sessions[t].(stage := v.sessions[t].stage)]
  }

  lemma FreeKeepsSession(w: World, v: World, t: Token, u: Token)
    requires Sound(w) && Moves(w, v, t) && u in w.sessions && u != t
    requires forall i :: i in v.appends <==> i in w.appends || (w.sessions[t].stage.AppendNow? && i == w.sessions[t].job)
    requires forall i :: i in v.commits <==> i in w.commits || (w.sessions[t].stage.CommitNow? && i == w.sessions[t].job)
    ensures SessionFits(v, u)
  {
    assert SessionFits(w, u);
    assert !Rivals(w.sessions[t], w.sessions[u]);
    if w.sessions[u].stage.Sweeping? { assert SweepFits(w, u); assert SweepFits(v, u); }
  }

  lemma SendKeepsSound(w: World, t: Token, work: Work)
    requires Sound(w) && t in w.sessions && w.sessions[t].job < |w.store.jobs| && (work.SendAppend? || work.SendCommit?)
    ensures Sound(FreeWork(w, t, work))
  {
    var v := FreeWork(w, t, work);
    var s := w.sessions[t];
    assert SessionFits(w, t);
    if work.SendAppend? && s.stage.AppendNow? {
      assert Moves(w, v, t);
      assert forall i :: i in v.appends <==> i in w.appends || i == s.job;
      forall u | u in w.sessions && u != t ensures SessionFits(v, u) { FreeKeepsSession(w, v, t, u); }
      assert SessionFits(v, t);
    } else if work.SendCommit? && s.stage.CommitNow? {
      assert Moves(w, v, t);
      assert forall i :: i in v.commits <==> i in w.commits || i == s.job;
      forall u | u in w.sessions && u != t ensures SessionFits(v, u) { FreeKeepsSession(w, v, t, u); }
      assert SessionFits(v, t);
    }
  }

  /** A move within one transaction's gap that sends nothing. */
  lemma MoveKeepsSound(w: World, v: World, t: Token)
    requires Sound(w) && Moves(w, v, t) && v.appends == w.appends && v.commits == w.commits
    requires SessionFits(v, t) && w.sessions[t].stage != AppendNow && w.sessions[t].stage != CommitNow
    requires v.sessions[t].stage != AppendNow && v.sessions[t].stage != CommitNow
    ensures Sound(v)
  {
    forall u | u in w.sessions && u != t ensures SessionFits(v, u) { FreeKeepsSession(w, v, t, u); }
    forall a, b | a in v.sessions && b in v.sessions && a != b ensures !Rivals(v.sessions[a], v.sessions[b]) {
      if a != t && b != t { assert !Rivals(w.sessions[a], w.sessions[b]); }
    }
  }

  lemma SweepMoveKeepsSound(w: World, t: Token, work: Work)
    requires Sound(w) && t in w.sessions && w.sessions[t].job < |w.store.jobs| && (work.BeginSweep? || work.Skip?)
    ensures Sound(FreeWork(w, t, work))
  {
    var v := FreeWork(w, t, work);
    var s := w.sessions[t];
    assert SessionFits(w, t);
    if v != w {
      if work.Skip? {
        assert SweepFits(w, t);
        SkipKeepsSweep(w, v, t);
      } else if Holding(v, t) {
        assert SweepFits(v, t);
      }
      MoveKeepsSound(w, v, t);
    }
  }

  lemma SkipKeepsSweep(w: World, v: World, t: Token)
    requires Sound(w) && t in w.sessions && w.sessions[t].job < |w.store.jobs| && w.sessions[t].stage.Sweeping?
    requires w.sessions[t].stage.at < |w.sessions[t].stage.seen|
    requires Skippable(w.sessions[t].stage.seen, w.sessions[t].stage.at, w.store.jobs[w.sessions[t].job].generation)
    requires v == Staged(w, t, w.sessions[t].stage.(at := w.sessions[t].stage.at + 1))
    ensures SweepFits(v, t)
  {
    var s := w.sessions[t];
    assert SessionFits(w, t) && SweepFits(w, t);
    if Holding(w, t) {
      forall k | 0 <= k < |s.stage.seen|
        ensures SweptFits(s.stage.seen[k], w.store.jobs[k], w.store.jobs[s.job].generation, k < s.stage.at + 1)
      {
        assert SweptFits(s.stage.seen[k], w.store.jobs[k], w.store.jobs[s.job].generation, k < s.stage.at);
        assert JobFits(w.store.jobs[k]);
      }
    }
  }

  lemma CheckKeepsSound(w: World, t: Token, present: bool, c: Clock)
    requires Sound(w) && t in w.sessions && w.sessions[t].job < |w.store.jobs|
    ensures Sound(Checking(w, t, present, c))
  {
    var v := Checking(w, t, present, c);
    var i := w.sessions[t].job;
    assert SessionFits(w, t);
    if !w.sessions[t].stage.Started? || !w.store.jobs[i].key.Capture? {
    } else if Consenting(w.store, w.store.jobs[i].generation) && present {
      MoveKeepsSound(w, v, t);
    } else if Fenced(w, t, c.at) {
      StateChangeKeepsSound(w, v, t, c.at, v.store.jobs[i]);
    }
  }

  lemma WorkKeepsSound(w: World, t: Token, work: Work, c: Clock)
    requires Sound(w)
    ensures Sound(WorkStep(w, t, work, c))
  {
    if t !in w.sessions || w.sessions[t].job >= |w.store.jobs| {
    } else if work.Check? {
      CheckKeepsSound(w, t, work.sourcePresent, c);
    } else if work.SendAppend? || work.SendCommit? {
      SendKeepsSound(w, t, work);
    } else if Outside(work) {
      SweepMoveKeepsSound(w, t, work);
    } else if Fenced(w, t, c.at) {
      var target := Target(w.sessions[t], work);
      if target.None? {
        FencedKeepsSound(w, t, work, c);
      } else if MayAdvance(w.sessions[t], target.value.0, target.value.1) {
        AdvanceKeepsSound(w, t, target.value.0, target.value.1, c);
      }
    }
  }

  lemma StepKeepsSound(w: World, act: Act, c: Clock)
    requires Sound(w)
    ensures Sound(Step(w, act, c))
  {
    match act
    case Claim(i, t) => ClaimKeepsSound(w, i, t, c);
    case By(t, work) => WorkKeepsSound(w, t, work, c);
    case _ => RequestKeepsSound(w, act, c);
  }

  lemma {:induction false} HistoryKeepsSound(w: World, h: History)
    requires Sound(w)
    ensures Sound(After(w, h))
    decreases |h|
  {
    if h != [] {
      StepKeepsSound(w, h[0].0, h[0].1);
      HistoryKeepsSound(Step(w, h[0].0, h[0].1), h[1..]);
    }
  }

  // ---------------------------------------------------------------- what it means

  /** In every reachable state a running job is the oldest unfinished one of its generation, and
      every job behind it has never been claimed. */
  lemma RunningIsOldest(h: History, i: nat)
    requires i < |After(EMPTY, h).store.jobs| && After(EMPTY, h).store.jobs[i].state.Running?
    ensures forall k :: 0 <= k < i && After(EMPTY, h).store.jobs[k].generation == After(EMPTY, h).store.jobs[i].generation
              ==> !Active(After(EMPTY, h).store.jobs[k])
    ensures forall k :: i < k < |After(EMPTY, h).store.jobs|
              && After(EMPTY, h).store.jobs[k].generation == After(EMPTY, h).store.jobs[i].generation
              ==> Untouched(After(EMPTY, h).store.jobs[k])
  {
    HistoryKeepsSound(EMPTY, h);
    RunningIsHead(After(EMPTY, h).store.jobs, i);
  }

  /** While a deletion or a purge runs, every capture of its generation has ended or never began. */
  lemma CleanupSeesNoLiveCapture(h: History, d: nat, c: nat)
    requires d < |After(EMPTY, h).store.jobs| && c < |After(EMPTY, h).store.jobs|
    requires After(EMPTY, h).store.jobs[d].state.Running? && !After(EMPTY, h).store.jobs[d].key.Capture?
    requires After(EMPTY, h).store.jobs[c].key.Capture?
    requires After(EMPTY, h).store.jobs[c].generation == After(EMPTY, h).store.jobs[d].generation
    ensures !Active(After(EMPTY, h).store.jobs[c]) || After(EMPTY, h).store.jobs[c].receipt.phase.New?
  {
    RunningIsOldest(h, d);
  }

  /** Whatever crashes, expiries and late workers there are, the message of a capture is appended
      at most once, its commit is sent at most once and only after the message, and no two workers
      are ever both about to send. */
  lemma RemoteWritesHappenOnce(h: History)
    ensures Distinct(After(EMPTY, h).appends) && Distinct(After(EMPTY, h).commits)
    ensures forall i :: i in After(EMPTY, h).commits ==> i in After(EMPTY, h).appends
    ensures forall t, u :: t in After(EMPTY, h).sessions && u in After(EMPTY, h).sessions && t != u
              ==> !Rivals(After(EMPTY, h).sessions[t], After(EMPTY, h).sessions[u])
  {
    HistoryKeepsSound(EMPTY, h);
  }
}
