/** What each transaction of `RunStore` does to one Run: app/service/runs.py.
    A raised error rolls the transaction back, so it leaves the Run as it was (except
    where the code commits before raising: an expired `resume`, an uncertain tool). */
module RunSteps {
  import opened Outcomes
  import opened CanonicalJson
  import opened RunModel

  datatype Reply =
    | Quiet                      // committed, nothing to report
    | Skipped                    // the row was not selected, nothing written
    | Claimed(claim: Claim)
    | TimedOut                   // claim_next settled an exhausted Run instead of claiming it
    | Fresh                      // begin_operation: run the body
    | Cached(result: Value)      // begin_operation: the recorded outcome
    | Refused(code: ErrorCode)

  datatype Step = Step(run: Run, reply: Reply)

  const PAYLOAD_LIMIT: nat := 4_000_000
  const OPERATION_LIMIT: nat := 128
  const RECOVERY_LIMIT: nat := 3

  // ---------------------------------------------------------------- sweeps

  predicate WaitExpired(run: Run, now: Time) { run.state.Waiting? && run.expiresAt <= now }

  function Expire(run: Run, now: Time, bytes: nat): Step
  {
    if !WaitExpired(run, now) then Step(run, Skipped)
    else match Record(run, Error, bytes, true)
      case None => Step(run, Refused(RunEventLimit))
      case Some(r) => Step(r.(state := Interrupted, resumeKey := None), Quiet)
  }

  predicate Abandoned(run: Run, now: Time)
  {
    run.state.Cancelling? && ((run.lease.Some? && run.lease.value <= now) || run.owner.None?)
  }

  function Settle(run: Run, now: Time, bytes: nat): Step
  {
    if !Abandoned(run, now) then Step(run, Skipped)
    else match Record(run, RunCancelled, bytes, true)
      case None => Step(run, Refused(RunEventLimit))
      case Some(r) => Step(Disowned(r).(state := Cancelled), Quiet)
  }

  // ---------------------------------------------------------------- claiming

  /** `lock_next_run`: queued and not held back, or running with an expired lease. */
  predicate Claimable(run: Run, now: Time)
  {
    || (run.state.Queued? && (run.lease.None? || run.lease.value <= now))
    || (run.state.Running? && run.generation > 0 && run.lease.Some? && run.lease.value <= now)
  }

  /** The budget left after charging an abandoned segment up to its lease end. */
  function Budget(run: Run, now: Time): real
  {
    if run.activeSince.Some? && run.lease.Some?
    then run.remaining - Used(run, Min(now, run.lease.value)) else run.remaining
  }

  function ClaimNext(cfg: Settings, run: Run, token: Token, now: Time, bytes: nat): Step
  {
    if !Claimable(run, now) then Step(run, Skipped)
    else if Budget(run, now) <= 0.0 then
      match Record(run, Error, bytes, true)
      case None => Step(run, Refused(RunEventLimit))
      case Some(r) => Step(r.(state := Failed), TimedOut)
    else
      match Record(run, RunClaimed, bytes, false)
      case None => Step(run, Refused(RunEventLimit))
      case Some(r) =>
        Step(r.(state := Running, owner := Some(token), generation := run.generation + 1,
                remaining := Budget(run, now), activeSince := Some(now),
                expiresAt := now + Budget(run, now), lease := Some(now + cfg.lease)),
             Claimed(Claim(token, run.generation + 1)))
  }

  function Release(run: Run, claim: Claim, t: Tick): Step
  {
    match Refusal(run, claim, t.checked, false, true)
    case Some(code) => Step(run, Refused(code))
    case None =>
      Step(run.(state := Queued, owner := None, activeSince := None,
                remaining := run.remaining - Used(run, t.now), lease := Some(t.now + 1.0)), Quiet)
  }

  function Heartbeat(cfg: Settings, run: Run, claim: Claim, t: Tick): Step
  {
    match Refusal(run, claim, t.checked, false, true)
    case Some(code) => Step(run, Refused(code))
    case None => Step(run.(lease := Some(t.now + cfg.lease)), Quiet)
  }

  // ---------------------------------------------------------------- progress

  predicate Streamed(k: EventKind)
  {
    k.AnswerStart? || k.AnswerDelta? || k.AgentStarted? || k.AgentFinished? || k.AgentFailed?
  }

  function Append(run: Run, claim: Claim, t: Tick, kind: EventKind, bytes: nat): Step
  {
    if !Streamed(kind) then Step(run, Refused(RunEventInvalid))
    else match Refusal(run, claim, t.checked, false, true)
      case Some(code) => Step(run, Refused(code))
      case None =>
        match Record(run, kind, bytes, false)
        case None => Step(run, Refused(RunEventLimit))
        case Some(r) => Step(r, Quiet)
  }

  function Revision(run: Run): nat { if run.checkpoint.None? then 0 else run.checkpoint.value.revision }

  /** `save_checkpoint`: the row as written, at the next revision. */
  function Saved(run: Run, payload: Payload): Run
  {
    run.(checkpoint := Some(Checkpoint(Revision(run) + 1, payload)))
  }

  function SaveCheckpoint(run: Run, claim: Claim, t: Tick, payload: Payload, size: nat): Step
  {
    match Refusal(run, claim, t.checked, false, true)
    case Some(code) => Step(run, Refused(code))
    case None =>
      if size > PAYLOAD_LIMIT then Step(run, Refused(RunCheckpointLimit))
      else Step(Saved(run, payload), Quiet)
  }

  /** The sizes of the events `complete` writes; context usage is optional. */
  datatype Closing = Closing(context: Option<nat>, usage: nat, done: nat)

  function RecordClosing(run: Run, sizes: Closing): Option<Run>
  {
    var first := if sizes.context.None? then Some(run) else Record(run, ContextUsage, sizes.context.value, true);
    if first.None? then None else
    var second := Record(first.value, Usage, sizes.usage, true);
    if second.None? then None else Record(second.value, Done, sizes.done, true)
  }

  function Complete(run: Run, claim: Claim, t: Tick, matches: bool, sizes: Closing): Step
  {
    match Refusal(run, claim, t.checked, false, true)
    case Some(code) => Step(run, Refused(code))
    case None =>
      if !matches then Step(run, Refused(RunCheckpointDiverged))
      else match RecordClosing(run, sizes)
        case None => Step(run, Refused(RunEventLimit))
        case Some(r) => Step(Disowned(r).(state := Succeeded), Quiet)
  }

  // ---------------------------------------------------------------- cancellation and failure

  predicate CancelsAtOnce(run: Run, now: Time)
  {
    || run.state.Queued? || run.state.Waiting? || run.owner.None?
    || (run.lease.Some? && run.lease.value <= now)
  }

  function RequestCancel(run: Run, now: Time, bytes: nat): Step
  {
    if Terminal(run.state) || run.state.Cancelling? then Step(run, Quiet)
    else if CancelsAtOnce(run, now) then
      match Record(run, RunCancelled, bytes, true)
      case None => Step(run, Refused(RunEventLimit))
      case Some(r) => Step(r.(state := Cancelled, resumeKey := None), Quiet)
    else
      match Record(run, CancelRequested, bytes, false)
      case None => Step(run, Refused(RunEventLimit))
      case Some(r) => Step(r.(state := Cancelling, resumeKey := None), Quiet)
  }

  /** `cleanupFailed`: the error is SANDBOX_CLEANUP_FAILED. */
  function FinishFailure(run: Run, claim: Claim, t: Tick, cleanupFailed: bool, bytes: nat): Step
  {
    match Refusal(run, claim, t.checked, true, false)
    case Some(code) => Step(run, Refused(code))
    case None =>
      var cancelled := run.state.Cancelling? && !cleanupFailed;
      match Record(run, if cancelled then RunCancelled else Error, bytes, true)
      case None => Step(run, Refused(RunEventLimit))
      case Some(r) => Step(Disowned(r).(state := if cancelled then Cancelled else Failed), Quiet)
  }

  // ---------------------------------------------------------------- pause and resume

  predicate TextLength(s: string, most: nat) { 1 <= |s| <= most }

  /** `key` is the fresh resume key; `question` is already stripped. */
  function Pause(cfg: Settings, run: Run, claim: Claim, t: Tick, payload: Payload, size: nat,
                 question: string, key: Token, bytes: nat): Step
  {
    if !TextLength(question, 4000) then Step(run, Refused(InvalidClarification))
    else match Refusal(run, claim, t.checked, false, true)
      case Some(code) => Step(run, Refused(code))
      case None =>
        var left := run.remaining - Used(run, t.now);
        if size > PAYLOAD_LIMIT then Step(run, Refused(RunCheckpointLimit))
        else if left <= 0.0 then Step(run, Refused(AgentTimeout))
        else match Record(Saved(run, payload), RunPaused, bytes, false)
          case None => Step(run, Refused(RunEventLimit))
          case Some(r) =>
            Step(Disowned(r).(state := Waiting, remaining := left, resumeKey := Some(key),
                              expiresAt := t.now + cfg.wait), Quiet)
  }

  /** A resume request; texts are already stripped. `authorized` and `publicAllowed` are the
      capability checks made in the same transaction. */
  datatype Resumption = Resumption(
    revision: nat, key: Token, supplement: string, publicQuery: Option<string>,
    authorized: bool, publicAllowed: bool)

  function NoInputs(n: nat): (r: seq<Option<string>>)
    ensures |r| == n
  {
    seq(n, i => None)
  }

  /** The payload `resume` writes, or None when the public inputs do not match the rounds. */
  function Resumed(p: Payload, r: Resumption): Option<Payload>
  {
    var inputs := p.humanInputs + [r.supplement];
    var receipt := Some(Receipt(r.key, r.supplement, r.publicQuery, r.revision));
    if r.publicQuery.None? && p.publicInputs.None? then
      Some(p.(humanInputs := inputs, receipt := receipt))
    else
      var previous := if p.publicInputs.None? then NoInputs(|p.humanInputs|) else p.publicInputs.value;
      if |previous| != |p.humanInputs| then None
      else Some(p.(humanInputs := inputs, publicInputs := Some(previous + [r.publicQuery]), receipt := receipt))
  }

  function Resume(run: Run, now: Time, r: Resumption, size: nat, bytes: nat): Step
  {
    if !TextLength(r.supplement, 4000) then Step(run, Refused(InvalidResumeInput))
    else if r.publicQuery.Some? && !TextLength(r.publicQuery.value, 400) then Step(run, Refused(InvalidPublicInput))
    else
      var receipt := if run.checkpoint.None? then None else run.checkpoint.value.payload.receipt;
      if receipt.Some? && receipt.value.key == r.key then
        Step(run, if receipt.value == Receipt(r.key, r.supplement, r.publicQuery, r.revision)
                  then Quiet else Refused(ResumeConflict))
      else if !run.state.Waiting? || run.checkpoint.None? || Revision(run) != r.revision || run.resumeKey != Some(r.key)
      then Step(run, Refused(ResumeConflict))
      else if !r.authorized then Step(run, Refused(CapabilityScopeChanged))
      else if r.publicQuery.Some? && !r.publicAllowed then Step(run, Refused(PublicInputNotAllowed))
      else if run.expiresAt <= now then
        match Record(run, Error, bytes, true)
        case None => Step(run, Refused(RunEventLimit))
        case Some(e) => Step(e.(state := Interrupted, resumeKey := None), Refused(HitlExpired))
      else match Resumed(run.checkpoint.value.payload, r)
        case None => Step(run, Refused(RunCheckpointDiverged))
        case Some(payload) =>
          if size > PAYLOAD_LIMIT then Step(run, Refused(RunCheckpointLimit))
          else match Record(Saved(run, payload), RunResumed, bytes, false)
            case None => Step(run, Refused(RunEventLimit))
            case Some(e) => Step(e.(state := Queued, resumeKey := None), Quiet)
  }

  // ---------------------------------------------------------------- operation receipts

  predicate KeyChar(c: char)
  {
    'A' <= c <= 'Z' || 'a' <= c <= 'z' || '0' <= c <= '9' || c in "_.:/-"
  }

  predicate ValidKey(key: string) { 1 <= |key| <= 128 && forall c | c in key :: KeyChar(c) }

  predicate IsTool(key: string) { "tool/" <= key }

  /** Tool calls are also announced in the journal. */
  function Announce(run: Run, key: string, kind: EventKind, bytes: nat): Option<Run>
  {
    if IsTool(key) then Record(run, kind, bytes, false) else Some(run)
  }

  /** The transaction of `begin_operation`; `digest` stands for the hash of the canonical
      inputs, which are prepared before it. */
  function Begin(run: Run, claim: Claim, t: Tick, key: string, digest: Value, readonly: bool, bytes: nat): Step
  {
    match Refusal(run, claim, t.checked, false, true)
    case Some(code) => Step(run, Refused(code))
    case None =>
      if key in run.operations then BeginKnown(run, claim, key, digest, readonly, bytes)
      else if |run.operations| >= OPERATION_LIMIT then Step(run, Refused(RunCheckpointLimit))
      else Launch(run, key, Operation(digest, readonly, Started, claim.generation, 1, Null), bytes)
  }

  function BeginKnown(run: Run, claim: Claim, key: string, digest: Value, readonly: bool, bytes: nat): Step
    requires key in run.operations
  {
    var row := run.operations[key];
    if row.inputs != digest || row.readonly != readonly then Step(run, Refused(RunCheckpointDiverged))
    else if row.state.Recorded? then Step(run, Cached(row.result))
    else if row.generation == claim.generation && row.state.Started? then Step(run, Refused(OperationAlreadyRunning))
    else if !readonly then
      match Announce(run.(operations := run.operations[key := row.(state := Uncertain)]), key, ToolFailed, bytes)
      case None => Step(run, Refused(RunEventLimit))
      case Some(r) => Step(r, Refused(ToolOutcomeUncertain))
    else if row.attempts >= RECOVERY_LIMIT then Step(run, Refused(RunRecoveryLimit))
    else Launch(run, key, row.(state := Started, generation := claim.generation, attempts := row.attempts + 1), bytes)
  }

  function Launch(run: Run, key: string, row: Operation, bytes: nat): Step
  {
    match Announce(run.(operations := run.operations[key := row]), key, ToolStarted, bytes)
    case None => Step(run, Refused(RunEventLimit))
    case Some(r) => Step(r, Fresh)
  }

  /** What `complete_operation` writes besides the receipt. */
  datatype Closure = Closure(failed: bool, toolBytes: nat, artifactBytes: Option<nat>,
                             payload: Option<Payload>, payloadSize: nat)

  /** The transaction of `complete_operation`; `stored` is the canonical result. */
  function Finish(run: Run, claim: Claim, t: Tick, key: string, stored: Value, c: Closure): Step
  {
    match Refusal(run, claim, t.checked, false, true)
    case Some(code) => Step(run, Refused(code))
    case None =>
      if key !in run.operations || !run.operations[key].state.Started?
         || run.operations[key].generation != claim.generation
      then Step(run, Refused(RunCheckpointDiverged))
      else
        var row := run.operations[key];
        var written := run.(operations := run.operations[key := row.(state := Recorded, result := stored)]);
        var told := Announce(written, key, if c.failed then ToolFailed else ToolFinished, c.toolBytes);
        if told.None? then Step(run, Refused(RunEventLimit)) else
        var listed := if row.readonly || c.artifactBytes.None? then told
                      else Record(told.value, ArtifactsReady, c.artifactBytes.value, false);
        if listed.None? then Step(run, Refused(RunEventLimit))
        else if c.payload.None? then Step(listed.value, Quiet)
        else if c.payloadSize > PAYLOAD_LIMIT then Step(run, Refused(RunCheckpointLimit))
        else Step(Saved(listed.value, c.payload.value), Quiet)
  }

  // ---------------------------------------------------------------- one transaction

  datatype Action =
    | DoExpire(bytes: nat)
    | DoSettle(bytes: nat)
    | DoClaim(token: Token, bytes: nat)
    | DoRelease(claim: Claim)
    | DoHeartbeat(claim: Claim)
    | DoAppend(claim: Claim, kind: EventKind, bytes: nat)
    | DoCheckpoint(claim: Claim, payload: Payload, size: nat)
    | DoComplete(claim: Claim, matches: bool, sizes: Closing)
    | DoCancel(bytes: nat)
    | DoFail(claim: Claim, cleanupFailed: bool, bytes: nat)
    | DoPause(claim: Claim, payload: Payload, size: nat, question: string, resumeKey: Token, bytes: nat)
    | DoResume(request: Resumption, size: nat, bytes: nat)
    | DoBegin(claim: Claim, key: string, digest: Value, readonly: bool, bytes: nat)
    | DoFinish(claim: Claim, key: string, stored: Value, closure: Closure)

  function Apply(cfg: Settings, run: Run, a: Action, t: Tick): Step
  {
    match a
    case DoExpire(bytes) => Expire(run, t.now, bytes)
    case DoSettle(bytes) => Settle(run, t.now, bytes)
    case DoClaim(token, bytes) => ClaimNext(cfg, run, token, t.now, bytes)
    case DoRelease(claim) => Release(run, claim, t)
    case DoHeartbeat(claim) => Heartbeat(cfg, run, claim, t)
    case DoAppend(claim, kind, bytes) => Append(run, claim, t, kind, bytes)
    case DoCheckpoint(claim, payload, size) => SaveCheckpoint(run, claim, t, payload, size)
    case DoComplete(claim, matches, sizes) => Complete(run, claim, t, matches, sizes)
    case DoCancel(bytes) => RequestCancel(run, t.now, bytes)
    case DoFail(claim, cleanupFailed, bytes) => FinishFailure(run, claim, t, cleanupFailed, bytes)
    case DoPause(claim, payload, size, question, resumeKey, bytes) =>
      Pause(cfg, run, claim, t, payload, size, question, resumeKey, bytes)
    case DoResume(request, size, bytes) => Resume(run, t.now, request, size, bytes)
    case DoBegin(claim, key, digest, readonly, bytes) => Begin(run, claim, t, key, digest, readonly, bytes)
    case DoFinish(claim, key, stored, closure) => Finish(run, claim, t, key, stored, closure)
  }

  /** The receipt transactions change nothing but receipts, journal and checkpoint. */
  lemma ReceiptsTouchOnlyReceipts(cfg: Settings, run: Run, a: Action, t: Tick)
    ensures a.DoBegin? || a.DoFinish? ==>
      var b := Apply(cfg, run, a, t).run;
      b == run.(journal := b.journal, operations := b.operations, checkpoint := b.checkpoint)
  {
  }

  // ---------------------------------------------------------------- creation

  /** What `create` inserts and announces: the row, its start event and, when tools were
      approved for this Run, the approval event. */
  function Created(cfg: Settings, now: Time, started: nat, approval: Option<nat>): Option<Run>
  {
    var row := Run(Queued, Journal(0, 0, [], []), 0, None, None,
                   cfg.budget, None, now + cfg.budget + 30.0, None, None, map[]);
    var first := Record(row, RunStarted, started, false);
    if first.None? || approval.None? then first
    else Record(first.value, ToolApprovalGranted, approval.value, false)
  }
}
