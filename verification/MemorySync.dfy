/** Workers around the queue of synchronization jobs, including workers that crashed or lost
    their lease and go on later, and the remote writes they send.
    app/service/automatic_memory.py:123-305. */
module MemorySync {
  import opened Outcomes
  import opened MemoryModel

  /** Where a worker stands between two transactions. */
  datatype Stage =
    | Started | Checked
    | AppendNow | AppendSent | AppendSaved
    | CommitNow | CommitSent | CommitSaved
    | Sweeping(seen: seq<Job>, at: nat)

  /** A worker: the job it claimed and its own copy of the receipt. */
  datatype Session = Session(job: nat, receipt: Receipt, stage: Stage)

  /** `appends` and `commits` list the jobs whose remote message and commit were sent. */
  datatype World = World(store: Store, sessions: map<Token, Session>, appends: seq<nat>, commits: seq<nat>)

  /** The readings of one transaction: the fence compares with `at`, leases are set from `now`. */
  datatype Clock = Clock(at: Time, now: Time, delay: Time)

  datatype Work =
    | Check(sourcePresent: bool) | GiveUp
    | SaveAppending | SendAppend | SaveAppended
    | SaveCommitting | SendCommit | SaveAwaiting(task: Option<int>)
    | Park | Publish(operations: Operations) | Fail(unclear: bool)
    | BeginSweep | Skip | Renew | Remove | FinishSweep

  datatype Act =
    | Toggle(enabled: bool) | ClearAll | Forget(place: Place) | Note(source: int, eligible: bool)
    | Claim(job: nat, token: Token)
    | By(token: Token, work: Work)

  const EMPTY := World(Store(None, map[], []), map[], [], [])

  // ---------------------------------------------------------------- steps of a worker

  predicate Fenced(w: World, t: Token, at: Time)
  {
    t in w.sessions && Owned(w.store, w.sessions[t].job, t, at)
  }

  function Staged(w: World, t: Token, stage: Stage): World
    requires t in w.sessions
  {
    w.(sessions := w.sessions[t := w.sessions[t].(stage := stage)])
  }

  /** `_save_progress` with the worker's receipt and the state given. */
  function Saved(w: World, t: Token, state: JobState, c: Clock): World
    requires Fenced(w, t, c.at)
  {
    w.(store := Progressed(w.store, w.sessions[t].job, w.sessions[t].receipt, state, c.now, c.delay))
  }

  /** `_save_progress` with the receipt moved on. */
  function Advanced(w: World, t: Token, receipt: Receipt, stage: Stage, c: Clock): World
    requires Fenced(w, t, c.at)
  {
    var i := w.sessions[t].job;
    w.(store := Progressed(w.store, i, receipt, Running, c.now, c.delay),
       sessions := w.sessions[t := Session(i, receipt, stage)])
  }

  /** The capture at the sweep's position needs nothing done. */
  predicate Skippable(seen: seq<Job>, at: nat, generation: nat)
    requires at < |seen|
  {
    || !seen[at].key.Capture? || seen[at].generation != generation
    || seen[at].receipt.phase.New? || seen[at].receipt.removed
  }

  /** A commit without a task: its outcome is unknown, so nothing can be certified. */
  predicate Unclear(r: Receipt) { r.phase.Committing? && r.task.None? }

  /** The receipt-moving saves of `_capture`, each allowed from one place only. */
  predicate MayAdvance(s: Session, receipt: Receipt, stage: Stage)
  {
    match stage
    case AppendNow => s.stage.Checked? && s.receipt.phase.New? && receipt == s.receipt.(phase := Appending)
    case AppendSaved => s.stage.AppendSent? && receipt == s.receipt.(phase := Appended)
    case CommitNow => (s.stage.AppendSaved? || (s.stage.Checked? && s.receipt.phase.Appended?))
                      && receipt == s.receipt.(phase := Committing)
    case CommitSaved => s.stage.CommitSent? && receipt == s.receipt.(phase := Awaiting, task := receipt.task)
    case _ => false
  }

  /** The receipt and stage a saving step moves to. */
  function Target(s: Session, work: Work): Option<(Receipt, Stage)>
  {
    match work
    case SaveAppending => Some((s.receipt.(phase := Appending), AppendNow))
    case SaveAppended => Some((s.receipt.(phase := Appended), AppendSaved))
    case SaveCommitting => Some((s.receipt.(phase := Committing), CommitNow))
    case SaveAwaiting(task) => Some((s.receipt.(phase := Awaiting, task := task), CommitSaved))
    case _ => None
  }

  predicate Extracting(s: Session)
  {
    s.stage.CommitSaved? || (s.stage.Checked? && s.receipt.phase.Awaiting?)
  }

  /** The remaining steps that only a live lease allows. */
  function FencedWork(w: World, t: Token, work: Work, c: Clock): World
    requires Fenced(w, t, c.at)
  {
    var s := w.sessions[t];
    var i := s.job;
    match work
    case Park => if Extracting(s) || s.stage.Sweeping? then Saved(w, t, Parked, c) else w
    case Renew => if s.stage.Sweeping? then Saved(w, t, Running, c) else w
    case GiveUp =>
      if s.stage.Checked? && (s.receipt.phase.Appending? || s.receipt.phase.Committing?)
      then Saved(w, t, Uncertain, c) else w
    case Publish(operations) =>
      if !Extracting(s) then w
      else
        var next := Published(w.store, i, operations);
        if next.None? then w else w.(store := next.value)
    case Fail(unclear) => w.(store := Faulted(w.store, i, unclear, c.now, c.delay))
    case Remove =>
      if s.stage.Sweeping? && s.stage.at < |s.stage.seen| && s.stage.at < |w.store.jobs|
         && !Skippable(s.stage.seen, s.stage.at, w.store.jobs[i].generation) && !Unclear(s.stage.seen[s.stage.at].receipt)
      then Staged(w.(store := MarkedRemoved(w.store, s.stage.at)), t, s.stage.(at := s.stage.at + 1))
      else w
    case FinishSweep =>
      if s.stage.Sweeping? && s.stage.at == |s.stage.seen| && !w.store.jobs[i].key.Capture?
      then w.(store := CleanedUp(w.store, i)) else w
    case _ => w
  }

  /** Steps outside the fence, taken by live and stale workers alike. */
  function FreeWork(w: World, t: Token, work: Work): World
    requires t in w.sessions && w.sessions[t].job < |w.store.jobs|
  {
    var s := w.sessions[t];
    var job := w.store.jobs[s.job];
    match work
    case SendAppend =>
      if s.stage.AppendNow? then Staged(w, t, AppendSent).(appends := w.appends + [s.job]) else w
    case SendCommit =>
      if s.stage.CommitNow? then Staged(w, t, CommitSent).(commits := w.commits + [s.job]) else w
    case BeginSweep =>
      if s.stage.Started? && !job.key.Capture? then Staged(w, t, Sweeping(w.store.jobs, 0)) else w
    case Skip =>
      if s.stage.Sweeping? && s.stage.at < |s.stage.seen| && Skippable(s.stage.seen, s.stage.at, job.generation)
      then Staged(w, t, s.stage.(at := s.stage.at + 1)) else w
    case _ => w
  }

  /** The opening test of `_capture`: consent and the message are still there, or the job is cancelled. */
  function Checking(w: World, t: Token, present: bool, c: Clock): World
    requires t in w.sessions && w.sessions[t].job < |w.store.jobs|
  {
    var job := w.store.jobs[w.sessions[t].job];
    if !w.sessions[t].stage.Started? || !job.key.Capture? then w
    else if Consenting(w.store, job.generation) && present then Staged(w, t, Checked)
    else if Fenced(w, t, c.at) then Saved(w, t, Cancelled, c) else w
  }

  predicate Outside(work: Work) { work.SendAppend? || work.SendCommit? || work.BeginSweep? || work.Skip? }

  function WorkStep(w: World, t: Token, work: Work, c: Clock): World
  {
    if t !in w.sessions || w.sessions[t].job >= |w.store.jobs| then w
    else if work.Check? then Checking(w, t, work.sourcePresent, c)
    else if Outside(work) then FreeWork(w, t, work)
    else if !Fenced(w, t, c.at) then w
    else
      var target := Target(w.sessions[t], work);
      if target.None? then FencedWork(w, t, work, c)
      else if MayAdvance(w.sessions[t], target.value.0, target.value.1)
      then Advanced(w, t, target.value.0, target.value.1, c) else w
  }

  function Step(w: World, act: Act, c: Clock): World
  {
    match act
    case Toggle(enabled) => w.(store := SetEnabled(w.store, enabled, c.now))
    case ClearAll => w.(store := Clear(w.store, c.now))
    case Forget(p) => w.(store := DeleteMemory(w.store, p, c.now))
    case Note(source, eligible) => w.(store := EnqueueCapture(w.store, source, eligible, c.now))
    case Claim(i, t) =>
      if i < |w.store.jobs| && t !in w.sessions && Claimable(w.store.jobs, i, c.now)
      then w.(store := Claimed(w.store, i, t, c.now),
              sessions := w.sessions[t := Session(i, w.store.jobs[i].receipt, Started)])
      else w
    case By(t, work) => WorkStep(w, t, work, c)
  }

  type History = seq<(Act, Clock)>

  function After(w: World, h: History): World
    decreases |h|
  {
    if h == [] then w else After(Step(w, h[0].0, h[0].1), h[1..])
  }
}
