/** Operation receipts: how often the body of a checkpointed call starts, and what its
    callers see.  app/service/runs.py `begin_operation` / `complete_operation`,
    app/manager/run_checkpoint.py `invoke`. */
module RunOperations {
  import opened Outcomes
  import opened CanonicalJson
  import opened RunModel
  import opened RunSteps
  import opened RunJournal
  import opened RunFencing

  /** One start of a call body. */
  datatype Launch = Launch(key: string, generation: nat)

  /** One outcome handed to a caller of `invoke`: by its own body, or replayed. */
  datatype Delivery = Delivery(key: string, outcome: Value, replayed: bool)

  /** A transaction, with the outcome its caller holds when it completes an operation. */
  datatype Deed = Deed(at: Tick, action: Action, outcome: Value)

  predicate Completes(d: Deed, key: string) { d.action.DoFinish? && d.action.key == key }

  /** `invoke` returns the canonical outcome and `complete_operation` stores it in
      canonical form once more. */
  predicate Honest(d: Deed)
  {
    Encodable(d.outcome) && d.action.DoFinish? && d.action.stored == Canonical(Canonical(d.outcome))
  }

  /** How closely what callers are told agrees: replays always do; with honest workers all
      are told equal values; with stable outcomes, identical ones. */
  datatype Bond = OfReplays | Equal | Identical

  predicate Keeps(d: Deed, bond: Bond)
  {
    match bond
    case OfReplays => true
    case Equal => Honest(d)
    case Identical => Honest(d) && OrderStable(d.outcome)
  }

  /** The premise for one key: only the transactions that complete it matter. */
  predicate Completed(deeds: seq<Deed>, key: string, bond: Bond)
  {
    forall i | 0 <= i < |deeds| && Completes(deeds[i], key) :: Keeps(deeds[i], bond)
  }

  datatype Trail = Trail(run: Run, launches: seq<Launch>, delivered: seq<Delivery>)

  function Advance(cfg: Settings, w: Trail, d: Deed): Trail
  {
    var step := Apply(cfg, w.run, d.action, d.at);
    Trail(step.run,
      if step.reply.Fresh? && d.action.DoBegin?
      then w.launches + [Launch(d.action.key, d.action.claim.generation)] else w.launches,
      if step.reply.Cached? && d.action.DoBegin? then w.delivered + [Delivery(d.action.key, step.reply.result, true)]
      else if step.reply.Quiet? && d.action.DoFinish? then w.delivered + [Delivery(d.action.key, Canonical(d.outcome), false)]
      else w.delivered)
  }

  function Follow(cfg: Settings, w: Trail, deeds: seq<Deed>): Trail
    decreases |deeds|
  {
    if deeds == [] then w else Follow(cfg, Advance(cfg, w, deeds[0]), deeds[1..])
  }

  /** The generations in which the body of a key was started, in order. */
  function Starts(launches: seq<Launch>, key: string): seq<nat>
  {
    if launches == [] then []
    else
      var last := launches[|launches| - 1];
      Starts(launches[..|launches| - 1], key) + (if last.key == key then [last.generation] else [])
  }

  predicate Rising(s: seq<nat>) { forall i, j | 0 <= i < j < |s| :: s[i] < s[j] }

  /** The receipt of a key agrees with the starts of its body. */
  predicate Accounted(run: Run, key: string, starts: seq<nat>)
  {
    if key !in run.operations then starts == []
    else
      var row := run.operations[key];
      && 1 <= row.attempts == |starts| <= RECOVERY_LIMIT
      && (!row.readonly ==> row.attempts == 1)
      && (row.state.Uncertain? ==> !row.readonly)
      && Rising(starts) && starts[|starts| - 1] == row.generation <= run.generation
  }

  /** What was delivered agrees with the receipt, which is recorded. */
  ghost predicate Told(run: Run, y: Delivery, bond: Bond)
  {
    && y.key in run.operations && run.operations[y.key].state.Recorded?
    && var result := run.operations[y.key].result;
      if y.replayed || bond.Identical? then y.outcome == result
      else bond.Equal? ==> SameValue(y.outcome, result)
  }

  /** A caller of `key` whose body just ended is the first to be told anything. */
  ghost predicate Agrees(w: Trail, key: string, bond: Bond)
  {
    && (forall i | 0 <= i < |w.delivered| && w.delivered[i].key == key :: Told(w.run, w.delivered[i], bond))
    && (forall i, j | 0 <= i < j < |w.delivered| && w.delivered[i].key == w.delivered[j].key == key ::
          w.delivered[j].replayed)
  }

  lemma StartsAfter(launches: seq<Launch>, l: Launch, key: string)
    ensures Starts(launches + [l], key) == Starts(launches, key) + (if l.key == key then [l.generation] else [])
  {
    assert (launches + [l])[..|launches|] == launches;
  }

  /** A recorded outcome is never overwritten. */
  lemma RecordedIsAbsorbing(cfg: Settings, run: Run, a: Action, t: Tick, key: string)
    requires key in run.operations && run.operations[key].state.Recorded?
    ensures var after := Apply(cfg, run, a, t).run;
      key in after.operations && after.operations[key] == run.operations[key]
  {
  }

  /** Only the receipt transactions touch receipts, and only the one they name. */
  lemma OtherReceiptsStay(cfg: Settings, run: Run, a: Action, t: Tick, key: string)
    requires (a.DoBegin? || a.DoFinish?) ==> a.key != key
    ensures var after := Apply(cfg, run, a, t).run;
      (key in after.operations <==> key in run.operations)
      && (key in run.operations ==> after.operations[key] == run.operations[key])
      && run.generation <= after.generation
  {
    GenerationStep(cfg, run, a, t);
  }

  lemma LaunchIsAccounted(run: Run, claim: Claim, t: Tick, key: string, digest: Value, readonly: bool,
                          bytes: nat, starts: seq<nat>)
    requires Accounted(run, key, starts)
    ensures var step := Begin(run, claim, t, key, digest, readonly, bytes);
      Accounted(step.run, key, if step.reply.Fresh? then starts + [claim.generation] else starts)
  {
    var step := Begin(run, claim, t, key, digest, readonly, bytes);
    if step.reply.Fresh? && key in run.operations {
      assert starts[|starts| - 1] < claim.generation;
    }
  }

  lemma FinishIsAccounted(run: Run, claim: Claim, t: Tick, key: string, stored: Value, c: Closure, starts: seq<nat>)
    requires Accounted(run, key, starts)
    ensures Accounted(Finish(run, claim, t, key, stored, c).run, key, starts)
  {
  }

  /** The start of the body of `key` that this transaction permits, if any. */
  function Started(cfg: Settings, run: Run, a: Action, t: Tick, key: string): seq<nat>
  {
    if a.DoBegin? && a.key == key && Apply(cfg, run, a, t).reply.Fresh? then [a.claim.generation] else []
  }

  lemma ActionIsAccounted(cfg: Settings, run: Run, a: Action, t: Tick, key: string, starts: seq<nat>)
    requires Accounted(run, key, starts)
    ensures Accounted(Apply(cfg, run, a, t).run, key, starts + Started(cfg, run, a, t, key))
  {
    assert starts + [] == starts;
    if a.DoBegin? && a.key == key {
      LaunchIsAccounted(run, a.claim, t, key, a.digest, a.readonly, a.bytes, starts);
    } else if a.DoFinish? && a.key == key {
      FinishIsAccounted(run, a.claim, t, key, a.stored, a.closure, starts);
    } else {
      OtherReceiptsStay(cfg, run, a, t, key);
    }
  }

  lemma StartsGrow(cfg: Settings, w: Trail, d: Deed, key: string)
    ensures Starts(Advance(cfg, w, d).launches, key)
      == Starts(w.launches, key) + Started(cfg, w.run, d.action, d.at, key)
  {
    assert Starts(w.launches, key) + [] == Starts(w.launches, key);
    if Apply(cfg, w.run, d.action, d.at).reply.Fresh? && d.action.DoBegin? {
      StartsAfter(w.launches, Launch(d.action.key, d.action.claim.generation), key);
    }
  }

  lemma StepKeepsAccounts(cfg: Settings, w: Trail, d: Deed, key: string)
    requires Accounted(w.run, key, Starts(w.launches, key))
    ensures Accounted(Advance(cfg, w, d).run, key, Starts(Advance(cfg, w, d).launches, key))
  {
    ActionIsAccounted(cfg, w.run, d.action, d.at, key, Starts(w.launches, key));
    StartsGrow(cfg, w, d, key);
  }

  /** The receipts agree with the starts of every body, over every history. */
  lemma {:induction false} ReceiptsAlwaysAgree(cfg: Settings, w: Trail, deeds: seq<Deed>, key: string)
    decreases |deeds|
    requires Accounted(w.run, key, Starts(w.launches, key))
    ensures var last := Follow(cfg, w, deeds); Accounted(last.run, key, Starts(last.launches, key))
  {
    if deeds != [] {
      StepKeepsAccounts(cfg, w, deeds[0], key);
      ReceiptsAlwaysAgree(cfg, Advance(cfg, w, deeds[0]), deeds[1..], key);
    }
  }

  /** Whatever crashes, takeovers and duplicate invocations occur, and whatever the bodies
      return, the body of a non-readonly key starts at most once, and that of a readonly key
      at most three times, each time in a later generation. */
  lemma BodiesStartAtMostOnce(cfg: Settings, w: Trail, deeds: seq<Deed>, key: string)
    requires Accounted(w.run, key, Starts(w.launches, key))
    ensures var last := Follow(cfg, w, deeds);
      var starts := Starts(last.launches, key);
      && Rising(starts) && |starts| <= 3
      && (key in last.run.operations && !last.run.operations[key].readonly ==> |starts| <= 1)
      && (key !in last.run.operations ==> starts == [])
  {
    ReceiptsAlwaysAgree(cfg, w, deeds, key);
  }

  // ---------------------------------------------------------------- what callers are told

  /** Only the key a transaction names is told about, and only once. */
  lemma AtMostOneDelivery(cfg: Settings, w: Trail, d: Deed)
    ensures var after := Advance(cfg, w, d);
      && w.delivered <= after.delivered && |after.delivered| <= |w.delivered| + 1
      && (|after.delivered| > |w.delivered| ==>
            (d.action.DoBegin? || d.action.DoFinish?)
            && after.delivered[|w.delivered|].key == d.action.key
            && after.delivered[|w.delivered|].replayed == d.action.DoBegin?)
  {
  }

  lemma FreshIsTold(cfg: Settings, w: Trail, d: Deed, bond: Bond)
    requires d.action.DoFinish? && Keeps(d, bond)
    requires |Advance(cfg, w, d).delivered| > |w.delivered|
    ensures var after := Advance(cfg, w, d); Told(after.run, after.delivered[|w.delivered|], bond)
    ensures d.action.key in w.run.operations ==> !w.run.operations[d.action.key].state.Recorded?
  {
    if bond.Identical? {
      CanonicalIsIdempotent(d.outcome);
    } else if bond.Equal? {
      StoredAgainIsSame(d.outcome);
    }
  }

  lemma CachedIsTold(cfg: Settings, w: Trail, d: Deed, bond: Bond)
    requires d.action.DoBegin?
    requires |Advance(cfg, w, d).delivered| > |w.delivered|
    ensures var after := Advance(cfg, w, d); Told(after.run, after.delivered[|w.delivered|], bond)
  {
  }

  lemma StepKeepsAgreement(cfg: Settings, w: Trail, d: Deed, key: string, bond: Bond)
    requires Agrees(w, key, bond) && (Completes(d, key) ==> Keeps(d, bond))
    ensures Agrees(Advance(cfg, w, d), key, bond)
  {
    var after := Advance(cfg, w, d);
    AtMostOneDelivery(cfg, w, d);
    forall i | 0 <= i < |after.delivered| && after.delivered[i].key == key
      ensures Told(after.run, after.delivered[i], bond)
    {
      if i < |w.delivered| {
        assert after.delivered[i] == w.delivered[i];
        RecordedIsAbsorbing(cfg, w.run, d.action, d.at, key);
      } else if d.action.DoFinish? {
        FreshIsTold(cfg, w, d, bond);
      } else {
        CachedIsTold(cfg, w, d, bond);
      }
    }
    forall i, j | 0 <= i < j < |after.delivered| && after.delivered[i].key == after.delivered[j].key == key
      ensures after.delivered[j].replayed
    {
      assert after.delivered[i] == w.delivered[i] && Told(w.run, w.delivered[i], bond);
      if j == |w.delivered| && d.action.DoFinish? { FreshIsTold(cfg, w, d, bond); }
    }
  }

  lemma {:induction false} CallersAlwaysAgree(cfg: Settings, w: Trail, deeds: seq<Deed>, key: string, bond: Bond)
    decreases |deeds|
    requires Agrees(w, key, bond) && Completed(deeds, key, bond)
    ensures Agrees(Follow(cfg, w, deeds), key, bond)
  {
    if deeds != [] {
      StepKeepsAgreement(cfg, w, deeds[0], key, bond);
      CallersAlwaysAgree(cfg, Advance(cfg, w, deeds[0]), deeds[1..], key, bond);
    }
  }

  lemma NewRunIsReceipted(cfg: Settings, now: Time, started: nat, approval: Option<nat>, key: string, bond: Bond)
    requires Created(cfg, now, started, approval).Some?
    ensures var w := Trail(Created(cfg, now, started, approval).value, [], []);
      Accounted(w.run, key, Starts(w.launches, key)) && Agrees(w, key, bond)
  {
  }

  /** Any two callers told an outcome for the same key, however many takeovers apart. The
      later one always gets a replay. Two replays are the same, whatever the workers did;
      a fresh outcome and its replays are equal when the worker stored what it returned;
      and they are identical, key order included, when the outcome is order stable. Only the
      outcomes of this key matter. */
  lemma ReplaysAgree(cfg: Settings, w: Trail, deeds: seq<Deed>, key: string, bond: Bond, i: nat, j: nat)
    requires Agrees(w, key, bond) && Completed(deeds, key, bond)
    requires i < j < |Follow(cfg, w, deeds).delivered|
    requires Follow(cfg, w, deeds).delivered[i].key == Follow(cfg, w, deeds).delivered[j].key == key
    ensures var a, b := Follow(cfg, w, deeds).delivered[i], Follow(cfg, w, deeds).delivered[j];
      && b.replayed
      && (a.replayed || bond.Identical? ==> a.outcome == b.outcome)
      && (bond.Equal? ==> SameValue(a.outcome, b.outcome))
  {
    var last := Follow(cfg, w, deeds);
    CallersAlwaysAgree(cfg, w, deeds, key, bond);
    assert Told(last.run, last.delivered[i], bond) && Told(last.run, last.delivered[j], bond);
    SameAsItself(last.delivered[j].outcome);
  }

  /** The premise about key order is exact: the fresh and the replayed outcome of a call
      are the same value, key order included, exactly when no dictionary in it has integer
      keys whose decimal texts sort differently. */
  lemma FreshEqualsReplayedExactly(outcome: Value)
    requires Encodable(outcome)
    ensures Canonical(outcome) == Canonical(Canonical(outcome)) <==> OrderStable(outcome)
  {
    CanonicalIsIdempotent(outcome);
  }
}
