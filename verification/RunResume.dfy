/** Human input: every resume key is consumed at most once, and the checkpoint holds
    exactly the inputs that were accepted.  app/service/runs.py `pause` / `resume`. */
module RunResume {
  import opened Outcomes
  import opened RunModel
  import opened RunSteps
  import opened RunJournal

  /** An accepted input: the key it consumed and its text. */
  datatype Accepted = Accepted(key: Token, text: string)

  /** The Run, the resume keys ever handed out, and the inputs accepted so far. */
  datatype Dialogue = Dialogue(run: Run, keys: set<Token>, accepted: seq<Accepted>)

  function Inputs(run: Run): seq<string>
  {
    if run.checkpoint.None? then [] else run.checkpoint.value.payload.humanInputs
  }

  function PublicInputs(run: Run): Option<seq<Option<string>>>
  {
    if run.checkpoint.None? then None else run.checkpoint.value.payload.publicInputs
  }

  function Texts(accepted: seq<Accepted>): (r: seq<string>)
    ensures |r| == |accepted| && forall i | 0 <= i < |r| :: r[i] == accepted[i].text
  {
    seq(|accepted|, i requires 0 <= i < |accepted| => accepted[i].text)
  }

  function Writes(a: Action): Option<Payload>
  {
    match a
    case DoPause(_, payload, _, _, _, _) => Some(payload)
    case DoCheckpoint(_, payload, _) => Some(payload)
    case DoFinish(_, _, _, closure) => closure.payload
    case _ => None
  }

  /** Workers save the human and public inputs they loaded, and each pause draws a new
      random resume key. */
  predicate Honest(d: Dialogue, a: Action)
  {
    && (Writes(a).Some? ==> Writes(a).value.humanInputs == Inputs(d.run)
                            && Writes(a).value.publicInputs == PublicInputs(d.run))
    && (a.DoPause? ==> a.resumeKey !in d.keys)
  }

  function Advance(cfg: Settings, d: Dialogue, m: Moment): Dialogue
  {
    var step := Apply(cfg, d.run, m.action, m.at);
    Dialogue(step.run,
      if m.action.DoPause? && step.reply.Quiet? then d.keys + {m.action.resumeKey} else d.keys,
      if m.action.DoResume? && step.run.state.Queued? && d.run.state.Waiting?
      then d.accepted + [Accepted(m.action.request.key, m.action.request.supplement)] else d.accepted)
  }

  function Converse(cfg: Settings, d: Dialogue, history: seq<Moment>): Dialogue
    decreases |history|
  {
    if history == [] then d else Converse(cfg, Advance(cfg, d, history[0]), history[1..])
  }

  predicate HonestThroughout(cfg: Settings, d: Dialogue, history: seq<Moment>)
    decreases |history|
  {
    history == [] || (Honest(d, history[0].action) && HonestThroughout(cfg, Advance(cfg, d, history[0]), history[1..]))
  }

  predicate Consumed(accepted: seq<Accepted>, key: Token) { exists i | 0 <= i < |accepted| :: accepted[i].key == key }

  predicate Consistent(d: Dialogue)
  {
    && (d.run.resumeKey.Some? ==> d.run.resumeKey.value in d.keys && !Consumed(d.accepted, d.run.resumeKey.value))
    && (forall i | 0 <= i < |d.accepted| :: d.accepted[i].key in d.keys)
    && (forall i, j | 0 <= i < j < |d.accepted| :: d.accepted[i].key != d.accepted[j].key)
    && Inputs(d.run) == Texts(d.accepted)
    && (PublicInputs(d.run).Some? ==> |PublicInputs(d.run).value| == |Inputs(d.run)|)
    && (!d.run.state.Waiting? ==> d.run.resumeKey.None?)
  }

  /** Which columns matter here, and how one transaction moves them. */
  lemma StepMovesInputs(cfg: Settings, d: Dialogue, m: Moment)
    requires Consistent(d) && Honest(d, m.action)
    ensures var step := Apply(cfg, d.run, m.action, m.at);
      if m.action.DoResume? && step.run.state.Queued? && d.run.state.Waiting? then
        && d.run.resumeKey == Some(m.action.request.key) && step.run.resumeKey.None?
        && Inputs(step.run) == Inputs(d.run) + [m.action.request.supplement]
        && (PublicInputs(step.run).Some? ==> |PublicInputs(step.run).value| == |Inputs(step.run)|)
      else
        && Inputs(step.run) == Inputs(d.run) && PublicInputs(step.run) == PublicInputs(d.run)
        && (step.run.resumeKey.None? || step.run.resumeKey == d.run.resumeKey
            || (m.action.DoPause? && step.reply.Quiet? && step.run.resumeKey == Some(m.action.resumeKey)))
        && (!step.run.state.Waiting? ==> step.run.resumeKey.None?)
  {
    ReceiptsTouchOnlyReceipts(cfg, d.run, m.action, m.at);
  }

  lemma StepKeepsConsistent(cfg: Settings, d: Dialogue, m: Moment)
    requires Consistent(d) && Honest(d, m.action)
    ensures Consistent(Advance(cfg, d, m))
  {
    StepMovesInputs(cfg, d, m);
    var after := Advance(cfg, d, m);
    if after.accepted != d.accepted {
      assert Texts(after.accepted) == Texts(d.accepted) + [m.action.request.supplement];
    }
  }

  /** Over every history the checkpoint holds exactly the accepted inputs, in order and
      each key once, and the public inputs, once present, one entry per input. */
  lemma {:induction false} InputsAreExactlyTheAccepted(cfg: Settings, d: Dialogue, history: seq<Moment>)
    decreases |history|
    requires Consistent(d) && HonestThroughout(cfg, d, history)
    ensures Consistent(Converse(cfg, d, history))
  {
    if history != [] {
      StepKeepsConsistent(cfg, d, history[0]);
      InputsAreExactlyTheAccepted(cfg, Advance(cfg, d, history[0]), history[1..]);
    }
  }

  lemma NewRunIsConsistent(cfg: Settings, now: Time, started: nat, approval: Option<nat>)
    requires Created(cfg, now, started, approval).Some?
    ensures Consistent(Dialogue(Created(cfg, now, started, approval).value, {}, []))
  {
  }

  /** A consumed key is dead: resending it, with any text and at any later time, writes
      nothing. */
  lemma ConsumedKeyWritesNothing(d: Dialogue, now: Time, r: Resumption, size: nat, bytes: nat)
    requires Consistent(d) && Consumed(d.accepted, r.key)
    ensures Resume(d.run, now, r, size, bytes).run == d.run
  {
  }

  /** An exact retry of the accepted request is answered like the original. */
  lemma ExactRetrySucceeds(run: Run, now: Time, r: Resumption, size: nat, bytes: nat, later: Time)
    requires Resume(run, now, r, size, bytes).reply.Quiet? && Resume(run, now, r, size, bytes).run != run
    ensures var after := Resume(run, now, r, size, bytes).run;
      Resume(after, later, r, size, bytes) == Step(after, Quiet)
  {
  }

  /** The checkpoint revision counts its writes: it never falls, and rises by one whenever
      the checkpoint changes. */
  lemma RevisionRises(cfg: Settings, run: Run, a: Action, t: Tick)
    ensures var after := Apply(cfg, run, a, t).run;
      if after.checkpoint == run.checkpoint then true else Revision(after) == Revision(run) + 1
  {
  }
}
