/** One durable Run: its row, its journal of public events, its checkpoint and its
    operation receipts, together with the two guards every transaction goes through:
    `_event` (here `Record`) and `owned` (here `Owned`).  app/service/runs.py. */
module RunModel {
  import opened Outcomes
  import opened CanonicalJson

  /** Database time and durations, in seconds. */
  type Time = real

  /** The two readings a transaction takes of the database clock: the one its guard
      compares with, and the later one it writes. */
  datatype Tick = Tick(checked: Time, now: Time)

  predicate Forward(t: Tick) { t.checked <= t.now }

  type Token = int

  /** Queue settings; the configuration schema keeps all three positive. */
  datatype Durations = Durations(budget: real, lease: real, wait: real)
  type Settings = d: Durations | d.budget > 0.0 && d.lease > 0.0 && d.wait > 0.0
    witness Durations(1.0, 1.0, 1.0)

  datatype State = Queued | Running | Waiting | Cancelling | Cancelled | Succeeded | Failed | Interrupted

  predicate Terminal(s: State) { s.Cancelled? || s.Succeeded? || s.Failed? || s.Interrupted? }

  predicate Active(s: State) { !Terminal(s) }

  datatype EventKind =
    | RunStarted | ToolApprovalGranted | RunClaimed | RunResumed | RunPaused | CancelRequested
    | AnswerStart | AnswerDelta | AgentStarted | AgentFinished | AgentFailed
    | ToolStarted | ToolFinished | ToolFailed | ArtifactsReady | ContextUsage | Usage
    | Done | Error | RunCancelled

  /** The three events that end a journal. */
  predicate Final(k: EventKind) { k.Done? || k.Error? || k.RunCancelled? }

  datatype Event = Event(sequence: nat, kind: EventKind, bytes: nat)

  /** The public events of a Run, their count and encoded size, and the outbox rows that
      announce them. */
  datatype Journal = Journal(sequence: nat, bytes: nat, events: seq<Event>, outbox: seq<nat>)

  /** A worker's claim on a Run (`RunClaim`). */
  datatype Claim = Claim(token: Token, generation: nat)

  datatype Receipt = Receipt(key: Token, supplement: string, publicQuery: Option<string>, revision: nat)

  /** A checkpoint payload: the fields `resume` reads and writes, and the rest. */
  datatype Payload = Payload(
    humanInputs: seq<string>, publicInputs: Option<seq<Option<string>>>, receipt: Option<Receipt>, body: Value)

  datatype Checkpoint = Checkpoint(revision: nat, payload: Payload)

  datatype OperationState = Started | Recorded | Uncertain

  datatype Operation = Operation(
    inputs: Value, readonly: bool, state: OperationState, generation: nat, attempts: nat, result: Value)

  datatype Run = Run(
    state: State, journal: Journal, generation: nat, owner: Option<Token>, lease: Option<Time>,
    remaining: real, activeSince: Option<Time>, expiresAt: Time,
    resumeKey: Option<Token>, checkpoint: Option<Checkpoint>, operations: map<string, Operation>)

  // ---------------------------------------------------------------- the journal

  const EVENT_LIMIT: nat := 8192
  const FINAL_EVENT_LIMIT: nat := 8200
  const BYTE_LIMIT: nat := 6_000_000
  const FINAL_BYTE_LIMIT: nat := 8_000_000
  const ONE_EVENT_LIMIT: nat := 2_000_000

  predicate Fits(j: Journal, bytes: nat, terminal: bool)
  {
    && bytes <= ONE_EVENT_LIMIT
    && j.sequence < (if terminal then FINAL_EVENT_LIMIT else EVENT_LIMIT)
    && j.bytes + bytes <= (if terminal then FINAL_BYTE_LIMIT else BYTE_LIMIT)
  }

  function Extended(j: Journal, kind: EventKind, bytes: nat): Journal
  {
    Journal(j.sequence + 1, j.bytes + bytes,
            j.events + [Event(j.sequence + 1, kind, bytes)], j.outbox + [j.sequence + 1])
  }

  /** `_event`: number the event, charge its encoded size, write its journal and outbox
      rows; None when the event limit is exceeded. */
  function Record(run: Run, kind: EventKind, bytes: nat, terminal: bool): Option<Run>
  {
    if Fits(run.journal, bytes, terminal) then Some(run.(journal := Extended(run.journal, kind, bytes))) else None
  }

  // ---------------------------------------------------------------- the fence

  /** The row test of `owned`, before cancellation and the deadline are looked at. */
  predicate Holds(run: Run, claim: Claim, at: Time)
  {
    && run.owner == Some(claim.token)
    && run.generation == claim.generation
    && run.lease.Some? && at < run.lease.value
    && (run.state.Running? || run.state.Cancelling?)
  }

  /** `owned`: the error it raises, or None when the claim passes. */
  function Refusal(run: Run, claim: Claim, at: Time, allowCancelling: bool, checkDeadline: bool): Option<ErrorCode>
  {
    if !Holds(run, claim, at) then Some(RunLeaseLost)
    else if run.state.Cancelling? && !allowCancelling then Some(RunCancelRequested)
    else if checkDeadline && run.expiresAt <= at then Some(AgentTimeout)
    else None
  }

  /** The guard of every ordinary fenced write. */
  predicate Owned(run: Run, claim: Claim, at: Time)
  {
    Refusal(run, claim, at, false, true) == None
  }

  /** Time the open active segment has used by `until`. */
  function Used(run: Run, until: Time): real
  {
    if run.activeSince.None? then 0.0 else Max(0.0, until - run.activeSince.value)
  }

  function Disowned(run: Run): Run
  {
    run.(owner := None, lease := None, activeSince := None)
  }
}
