/** Fencing: which worker may write to a Run, over whole histories.  Histories are
    arbitrary: any worker, crashed or stalled, may resume at any time with an old claim. */
module RunFencing {
  import opened Outcomes
  import opened RunModel
  import opened RunSteps
  import opened RunJournal

  /** The database clock never runs backwards from one transaction to the next. */
  predicate Chronological(from: Time, history: seq<Moment>)
    decreases |history|
  {
    history == [] ||
    (from <= history[0].at.checked && Forward(history[0].at) && Chronological(history[0].at.now, history[1..]))
  }

  function Finishes(from: Time, history: seq<Moment>): Time
  {
    if history == [] then from else history[|history| - 1].at.now
  }

  /** The claim an action presents, if it is a fenced one. */
  function Presented(a: Action): Option<Claim>
  {
    match a
    case DoRelease(claim) => Some(claim)
    case DoHeartbeat(claim) => Some(claim)
    case DoAppend(claim, _, _) => Some(claim)
    case DoCheckpoint(claim, _, _) => Some(claim)
    case DoComplete(claim, _, _) => Some(claim)
    case DoFail(claim, _, _) => Some(claim)
    case DoPause(claim, _, _, _, _, _) => Some(claim)
    case DoBegin(claim, _, _, _, _) => Some(claim)
    case DoFinish(claim, _, _, _) => Some(claim)
    case _ => None
  }

  /** A fenced transaction whose claim does not hold changes nothing and reports an error. */
  lemma StaleWriteIsRefused(cfg: Settings, run: Run, a: Action, t: Tick, claim: Claim)
    requires Presented(a) == Some(claim) && !Holds(run, claim, t.checked)
    ensures Apply(cfg, run, a, t).run == run && Apply(cfg, run, a, t).reply.Refused?
  {
  }

  lemma GenerationStep(cfg: Settings, run: Run, a: Action, t: Tick)
    ensures var step := Apply(cfg, run, a, t);
      step.run.generation == if step.reply.Claimed? then run.generation + 1 else run.generation
  {
    ReceiptsTouchOnlyReceipts(cfg, run, a, t);
  }

  /** A claim that does not hold is not revived by any one transaction; nor is one that is
      refused for cancellation or for the deadline. */
  lemma StepRevivesNothing(cfg: Settings, run: Run, a: Action, t: Tick, claim: Claim, at: Time)
    requires claim.generation <= run.generation && at <= t.checked && Forward(t)
    ensures !Holds(run, claim, at) ==> !Holds(Apply(cfg, run, a, t).run, claim, t.now)
    ensures !Owned(run, claim, at) ==> !Owned(Apply(cfg, run, a, t).run, claim, t.now)
  {
    ReceiptsTouchOnlyReceipts(cfg, run, a, t);
  }

  /** Releasing, pausing, completing, failing or settling ends every claim on the Run, and
      a new claim ends all earlier ones. */
  lemma HandoverEndsClaims(cfg: Settings, run: Run, a: Action, t: Tick, claim: Claim)
    requires Forward(t) && claim.generation <= run.generation
    requires var r := Apply(cfg, run, a, t).reply;
      r.Claimed? || (r.Quiet? && (a.DoRelease? || a.DoPause? || a.DoComplete? || a.DoFail? || a.DoSettle?))
    ensures !Holds(Apply(cfg, run, a, t).run, claim, t.now)
  {
  }

  /** Once a claim has stopped holding it never holds again, whatever happens later; the
      same for a claim that has become refused for any reason. */
  lemma {:induction false} RevokedForever(cfg: Settings, run: Run, claim: Claim, at: Time, history: seq<Moment>)
    decreases |history|
    requires claim.generation <= run.generation && Chronological(at, history)
    ensures var last := Replay(cfg, run, history);
      && claim.generation <= last.generation
      && (!Holds(run, claim, at) ==> !Holds(last, claim, Finishes(at, history)))
      && (!Owned(run, claim, at) ==> !Owned(last, claim, Finishes(at, history)))
  {
    if history != [] {
      var m := history[0];
      var next := Apply(cfg, run, m.action, m.at).run;
      GenerationStep(cfg, run, m.action, m.at);
      StepRevivesNothing(cfg, run, m.action, m.at, claim, at);
      RevokedForever(cfg, next, claim, m.at.now, history[1..]);
      assert Finishes(at, history) == Finishes(m.at.now, history[1..]);
    }
  }

  /** So a stale worker can write nothing: after a claim stops holding, every transaction
      it still issues, at any point of any later history, leaves the Run unchanged. */
  lemma {:induction false} StaleWorkerWritesNothing(
      cfg: Settings, run: Run, claim: Claim, at: Time, history: seq<Moment>, i: nat)
    requires claim.generation <= run.generation && !Holds(run, claim, at) && Chronological(at, history)
    requires i < |history| && Presented(history[i].action) == Some(claim)
    ensures var before := Replay(cfg, run, history[..i]);
      && Apply(cfg, before, history[i].action, history[i].at).run == before
      && Apply(cfg, before, history[i].action, history[i].at).reply.Refused?
  {
    PrefixIsChronological(at, history, i);
    RevokedForever(cfg, run, claim, at, history[..i]);
    var before := Replay(cfg, run, history[..i]);
    StaleWriteIsRefused(cfg, before, history[i].action, history[i].at, claim);
  }

  lemma {:induction false} PrefixIsChronological(at: Time, history: seq<Moment>, i: nat)
    decreases |history|
    requires Chronological(at, history) && i < |history|
    ensures Chronological(at, history[..i]) && Finishes(at, history[..i]) <= history[i].at.checked
  {
    if i > 0 {
      PrefixIsChronological(history[0].at.now, history[1..], i - 1);
      assert history[1..][..i - 1] == history[..i][1..];
    }
  }

  /** At most one claim holds at a time, and generations never decrease: two claims issued
      at different points of a history never hold together. */
  lemma {:induction false} OneWriter(cfg: Settings, run: Run, history: seq<Moment>, a: Claim, b: Claim, at: Time)
    decreases |history|
    ensures var last := Replay(cfg, run, history);
      && run.generation <= last.generation
      && (Holds(last, a, at) && Holds(last, b, at) ==> a == b)
  {
    if history != [] {
      GenerationStep(cfg, run, history[0].action, history[0].at);
      OneWriter(cfg, Apply(cfg, run, history[0].action, history[0].at).run, history[1..], a, b, at);
    }
  }

  /** A claim gets a generation no earlier claim of the Run has. */
  lemma ClaimIsNew(cfg: Settings, run: Run, a: Action, t: Tick)
    requires Apply(cfg, run, a, t).reply.Claimed? && Forward(t)
    ensures var step := Apply(cfg, run, a, t);
      && step.reply.claim.generation == run.generation + 1
      && Owned(step.run, step.reply.claim, t.now)
  {
  }
}
