/** When a purge reports success: nothing of its generation is left, and no commit for it can be
    sent any more.  app/service/automatic_memory.py:49-55,241-279. */
module MemoryPurge {
  import opened Outcomes
  import opened MemoryModel
  import opened MemorySync
  import opened MemoryQueue

  /** No job or row is ahead of the current generation. */
  ghost predicate Reached(s: Store)
  {
    && (forall i :: 0 <= i < |s.jobs| ==> s.consent.Some? && s.jobs[i].generation <= s.consent.value.generation)
    && (forall p :: p in s.memories ==> s.consent.Some? && p.generation <= s.consent.value.generation)
  }

  /** A purge is of a generation left behind, and is its last job. */
  ghost predicate PurgeIsLast(s: Store)
  {
    && (forall i :: 0 <= i < |s.jobs| && s.jobs[i].key.Purge? ==> s.consent.Some? && s.jobs[i].generation < s.consent.value.generation)
    && (forall i, k :: 0 <= i < k < |s.jobs| && s.jobs[i].key.Purge? ==> s.jobs[k].generation != s.jobs[i].generation)
  }

  predicate Blank(m: Memory) { m.state.Deleted? && m.content == "" }

  /** Every capture of the generation was cleaned up or never began; every row is deleted and blank. */
  ghost predicate Emptied(s: Store, generation: nat)
  {
    && (forall c :: 0 <= c < |s.jobs| && s.jobs[c].key.Capture? && s.jobs[c].generation == generation ==>
          Swept(s.jobs[c].receipt) && !Active(s.jobs[c]))
    && (forall p :: p in s.memories && p.generation == generation ==> Blank(s.memories[p]))
  }

  ghost predicate PurgesDone(s: Store)
  {
    forall i :: 0 <= i < |s.jobs| && s.jobs[i].key.Purge? && s.jobs[i].state.Succeeded? ==> Emptied(s, s.jobs[i].generation)
  }

  ghost predicate Tidy(s: Store) { Reached(s) && PurgeIsLast(s) && PurgesDone(s) }

  // ---------------------------------------------------------------- requests

  /** Nothing done for the generation in use touches an older one. */
  ghost predicate LeavesOlder(s: Store, next: Store)
  {
    && s.consent.Some? ==>
      && (forall p :: p in next.memories && p.generation < s.consent.value.generation ==> p in s.memories && next.memories[p] == s.memories[p])
      && (forall k :: |s.jobs| <= k < |next.jobs| ==> next.jobs[k].generation == s.consent.value.generation)
  }

  lemma EnqueueKeepsReached(s: Store, key: Key, now: Time)
    requires Reached(s) && PurgeIsLast(s) && s.consent.Some? && !key.Purge?
    ensures var next := s.(jobs := Enqueue(s.jobs, s.consent.value.generation, key, now));
            Reached(next) && PurgeIsLast(next) && LeavesOlder(s, next)
  {
    var e := EnqueueEffect(s.jobs, s.consent.value.generation, key, now);
  }

  lemma ClearKeepsReached(s: Store, now: Time)
    requires Reached(s) && PurgeIsLast(s)
    ensures Reached(Clear(s, now)) && PurgeIsLast(Clear(s, now)) && LeavesOlder(s, Clear(s, now))
  {
    var e := EnqueueEffect(s.jobs, Settled(s.consent).generation, Purge, now);
  }

  lemma RequestKeepsReached(w: World, act: Act, c: Clock)
    requires Requesting(act) && Reached(w.store) && PurgeIsLast(w.store)
    ensures Reached(Step(w, act, c).store) && PurgeIsLast(Step(w, act, c).store)
    ensures LeavesOlder(w.store, Step(w, act, c).store)
  {
    match act
    case Toggle(enabled) =>
      if Settled(w.store.consent).enabled && !enabled { ClearKeepsReached(w.store, c.now); }
    case ClearAll => ClearKeepsReached(w.store, c.now);
    case Forget(p) => if w.store.consent.Some? { EnqueueKeepsReached(w.store, Delete(p), c.now); }
    case Note(source, _) => if w.store.consent.Some? { EnqueueKeepsReached(w.store, Capture(source), c.now); }
  }

  lemma RequestKeepsTidy(w: World, act: Act, c: Clock)
    requires Requesting(act) && Tidy(w.store)
    ensures Tidy(Step(w, act, c).store)
  {
    var e := RequestEffect(w, act, c);
    var next := Step(w, act, c).store;
    RequestKeepsReached(w, act, c);
    forall i | 0 <= i < |next.jobs| && next.jobs[i].key.Purge? && next.jobs[i].state.Succeeded?
      ensures Emptied(next, next.jobs[i].generation)
    {
      assert next.jobs[i] == w.store.jobs[i];
      assert Emptied(w.store, next.jobs[i].generation);
    }
  }

  // ---------------------------------------------------------------- workers

  /** One row of the queue rewritten, memories of finished generations left alone. */
  lemma RewriteKeepsTidy(s: Store, next: Store, i: nat, j: Job)
    requires Tidy(s) && i < |s.jobs| && next.jobs == s.jobs[i := j] && SameIdentity(j, s.jobs[i]) && next.consent == s.consent
    requires forall p :: p in next.memories ==> s.consent.Some? && p.generation <= s.consent.value.generation
    requires forall p :: p in next.memories && !Consenting(s, p.generation) 
               ==> p in s.memories && (next.memories[p] == s.memories[p] || Blank(next.memories[p]))
    requires Active(s.jobs[i]) || (j.state == s.jobs[i].state && Swept(j.receipt))
    requires j.key.Purge? && j.state.Succeeded? ==> Emptied(next, j.generation)
    ensures Tidy(next)
  {
    forall k | 0 <= k < |next.jobs| && next.jobs[k].key.Purge? && next.jobs[k].state.Succeeded?
      ensures Emptied(next, next.jobs[k].generation)
    {
      if k != i { assert Emptied(s, s.jobs[k].generation); }
    }
  }

  /** The sweep of a purge that reached its end has seen every capture of its generation. */
  lemma SweptPurgeIsEmpty(w: World, t: Token, c: nat)
    requires Sound(w) && PurgeIsLast(w.store) && Holding(w, t)
    requires w.sessions[t].stage.Sweeping? && w.sessions[t].stage.at == |w.sessions[t].stage.seen|
    requires w.store.jobs[w.sessions[t].job].key.Purge?
    requires c < |w.store.jobs| && w.store.jobs[c].key.Capture?
    requires w.store.jobs[c].generation == w.store.jobs[w.sessions[t].job].generation
    ensures Swept(w.store.jobs[c].receipt) && !Active(w.store.jobs[c])
  {
    var s := w.sessions[t];
    assert SessionFits(w, t) && SweepFits(w, t);
    assert c < s.job;
    assert SweptFits(s.stage.seen[c], w.store.jobs[c], w.store.jobs[s.job].generation, c < s.stage.at);
    RunningIsHead(w.store.jobs, s.job);
  }

  lemma FinishKeepsTidy(w: World, t: Token, c: Clock)
    requires Sound(w) && Tidy(w.store) && Fenced(w, t, c.at)
    ensures Tidy(FencedWork(w, t, FinishSweep, c).store)
  {
    var v := FencedWork(w, t, FinishSweep, c);
    var s := w.sessions[t];
    if v != w {
      FencedIsHead(w, t, c.at);
      var j := v.store.jobs[s.job];
      if j.key.Purge? {
        forall k | 0 <= k < |v.store.jobs| && v.store.jobs[k].key.Capture? && v.store.jobs[k].generation == j.generation
          ensures Swept(v.store.jobs[k].receipt) && !Active(v.store.jobs[k])
        {
          SweptPurgeIsEmpty(w, t, k);
        }
        assert Emptied(v.store, j.generation);
      }
      RewriteKeepsTidy(w.store, v.store, s.job, j);
    }
  }

  lemma {:induction false} ChangesStayInside(m: map<Place, Memory>, generation: nat, changes: seq<Change>, p: Place)
    requires AllChanged(m, generation, changes).Some? && p in AllChanged(m, generation, changes).value && p.generation != generation
    ensures p in m && AllChanged(m, generation, changes).value[p] == m[p]
    decreases |changes|
  {
    if changes != [] { ChangesStayInside(Changed(m, generation, changes[0]).value, generation, changes[1..], p); }
  }

  lemma PublishKeepsTidy(w: World, t: Token, o: Operations, c: Clock)
    requires Sound(w) && Tidy(w.store) && Fenced(w, t, c.at)
    ensures Tidy(FencedWork(w, t, Publish(o), c).store)
  {
    var v := FencedWork(w, t, Publish(o), c);
    var i := w.sessions[t].job;
    if v != w {
      FencedIsHead(w, t, c.at);
      assert SessionFits(w, t);
      forall p | p in v.store.memories && p.generation != w.store.jobs[i].generation
        ensures p in w.store.memories && v.store.memories[p] == w.store.memories[p]
      {
        if Consenting(w.store, w.store.jobs[i].generation) {
          ChangesStayInside(w.store.memories, w.store.jobs[i].generation, o.adds + o.updates + o.deletes, p);
        }
      }
      RewriteKeepsTidy(w.store, v.store, i, v.store.jobs[i]);
    }
  }

  lemma FencedKeepsTidy(w: World, t: Token, work: Work, c: Clock)
    requires Sound(w) && Tidy(w.store) && Fenced(w, t, c.at)
    ensures Tidy(FencedWork(w, t, work, c).store)
  {
    var v := FencedWork(w, t, work, c);
    FencedIsHead(w, t, c.at);
    if work.FinishSweep? {
      FinishKeepsTidy(w, t, c);
    } else if work.Publish? {
      PublishKeepsTidy(w, t, work.operations, c);
    } else if work.Remove? {
      if v != w {
        RemoveMarks(w, t, c);
        var k := w.sessions[t].stage.at;
        RewriteKeepsTidy(w.store, v.store, k, v.store.jobs[k]);
      }
    } else if v != w {
      RewriteKeepsTidy(w.store, v.store, w.sessions[t].job, v.store.jobs[w.sessions[t].job]);
    }
  }

  lemma WorkKeepsTidy(w: World, t: Token, work: Work, c: Clock)
    requires Sound(w) && Tidy(w.store)
    ensures Tidy(WorkStep(w, t, work, c).store)
  {
    if t in w.sessions && w.sessions[t].job < |w.store.jobs| {
      var v := WorkStep(w, t, work, c);
      if Outside(work) || v.store == w.store {
      } else if work.Check? || Target(w.sessions[t], work).Some? {
        FencedIsHead(w, t, c.at);
        RewriteKeepsTidy(w.store, v.store, w.sessions[t].job, v.store.jobs[w.sessions[t].job]);
      } else {
        FencedKeepsTidy(w, t, work, c);
      }
    }
  }

  lemma StepKeepsTidy(w: World, act: Act, c: Clock)
    requires Sound(w) && Tidy(w.store)
    ensures Tidy(Step(w, act, c).store)
  {
    match act
    case Claim(i, t) =>
      var v := Step(w, act, c);
      if v != w { RewriteKeepsTidy(w.store, v.store, i, v.store.jobs[i]); }
    case By(t, work) => WorkKeepsTidy(w, t, work, c);
    case _ => RequestKeepsTidy(w, act, c);
  }

  lemma {:induction false} HistoryKeepsTidy(w: World, h: History)
    requires Sound(w) && Tidy(w.store)
    ensures Sound(After(w, h)) && Tidy(After(w, h).store)
    decreases |h|
  {
    if h != [] {
      StepKeepsSound(w, h[0].0, h[0].1);
      StepKeepsTidy(w, h[0].0, h[0].1);
      HistoryKeepsTidy(Step(w, h[0].0, h[0].1), h[1..]);
    }
  }

  /** A purge that reports success, in any reachable state: every capture of its generation that
      was ever started has had its remote session removed, and every row is deleted and blank. */
  lemma PurgeIsComplete(h: History, i: nat)
    requires i < |After(EMPTY, h).store.jobs|
    requires After(EMPTY, h).store.jobs[i].key.Purge? && After(EMPTY, h).store.jobs[i].state.Succeeded?
    ensures Emptied(After(EMPTY, h).store, After(EMPTY, h).store.jobs[i].generation)
  {
    HistoryKeepsTidy(EMPTY, h);
  }

  // ---------------------------------------------------------------- what can still be sent

  lemma FencedRowStays(w: World, t: Token, work: Work, c: Clock, i: nat)
    requires Sound(w) && Fenced(w, t, c.at) && i < |w.store.jobs|
    ensures var next := FencedWork(w, t, work, c).store.jobs;
            |next| == |w.store.jobs| && SameIdentity(next[i], w.store.jobs[i])
            && (!Active(w.store.jobs[i]) ==> next[i].state == w.store.jobs[i].state)
  {
  }

  lemma WorkRowStays(w: World, t: Token, work: Work, c: Clock, i: nat)
    requires Sound(w) && i < |w.store.jobs|
    ensures var next := WorkStep(w, t, work, c).store.jobs;
            |next| == |w.store.jobs| && SameIdentity(next[i], w.store.jobs[i])
            && (!Active(w.store.jobs[i]) ==> next[i].state == w.store.jobs[i].state)
  {
    if Fenced(w, t, c.at) && !work.Check? && !Outside(work) { FencedRowStays(w, t, work, c, i); }
  }

  /** A row keeps its identity, and its state once it is finished. */
  lemma RowStays(w: World, act: Act, c: Clock, i: nat)
    requires Sound(w) && i < |w.store.jobs|
    ensures i < |Step(w, act, c).store.jobs| && SameIdentity(Step(w, act, c).store.jobs[i], w.store.jobs[i])
    ensures !Active(w.store.jobs[i]) ==> Step(w, act, c).store.jobs[i].state == w.store.jobs[i].state
  {
    if act.By? { WorkRowStays(w, act.token, act.work, c, i); }
    else if Requesting(act) { var e := RequestEffect(w, act, c); }
  }

  /** No worker can send a commit for a generation that was purged, in this step. */
  lemma PurgeStopsCommits(w: World, act: Act, c: Clock, i: nat, k: nat)
    requires Sound(w) && Tidy(w.store)
    requires i < |w.store.jobs| && w.store.jobs[i].key.Purge? && w.store.jobs[i].state.Succeeded?
    requires k in Step(w, act, c).commits
    requires k < |w.store.jobs| ==> w.store.jobs[k].generation == w.store.jobs[i].generation
    ensures k in w.commits
  {
    assert Emptied(w.store, w.store.jobs[i].generation);
    if act.By? && act.token in w.sessions { assert SessionFits(w, act.token); }
  }

  /** Once a purge has succeeded, no commit for its generation is ever sent, by any late worker. */
  lemma {:induction false} NoCommitAfterPurge(w: World, more: History, i: nat, k: nat)
    requires Sound(w) && Tidy(w.store)
    requires i < |w.store.jobs| && w.store.jobs[i].key.Purge? && w.store.jobs[i].state.Succeeded?
    requires k < |w.store.jobs| && w.store.jobs[k].generation == w.store.jobs[i].generation
    requires k in After(w, more).commits
    ensures k in w.commits
    decreases |more|
  {
    if more != [] {
      var v := Step(w, more[0].0, more[0].1);
      RowStays(w, more[0].0, more[0].1, i);
      StepKeepsSound(w, more[0].0, more[0].1);
      StepKeepsTidy(w, more[0].0, more[0].1);
      RowStays(w, more[0].0, more[0].1, k);
      NoCommitAfterPurge(v, more[1..], i, k);
      PurgeStopsCommits(w, more[0].0, more[0].1, i, k);
    }
  }

  /** The message is less well guarded: a late worker can still append one after the purge has
      succeeded, exactly when it had saved its permission and not yet used it. */
  lemma LateAppendExactly(w: World, t: Token, c: Clock, i: nat)
    requires Sound(w) && Tidy(w.store) && t in w.sessions
    requires i < |w.store.jobs| && w.store.jobs[i].key.Purge? && w.store.jobs[i].state.Succeeded?
    requires w.sessions[t].job < |w.store.jobs| && w.store.jobs[w.sessions[t].job].generation == w.store.jobs[i].generation
    ensures Step(w, By(t, SendAppend), c).appends != w.appends <==> w.sessions[t].stage.AppendNow?
    ensures w.sessions[t].stage.AppendNow? ==>
              w.store.jobs[w.sessions[t].job].receipt.phase.Appending? && !Active(w.store.jobs[w.sessions[t].job])
  {
    assert SessionFits(w, t);
    var k := w.sessions[t].job;
    if w.sessions[t].stage.AppendNow? { assert Emptied(w.store, w.store.jobs[i].generation); }
  }

  lemma Unfold(w: World, x: (Act, Clock), rest: History)
    ensures After(w, [x] + rest) == After(Step(w, x.0, x.1), rest)
  {
    assert ([x] + rest)[1..] == rest;
  }

  const EARLY := Clock(0.0, 0.0, 0.0)
  const LATE := Clock(500.0, 500.0, 0.0)

  const CONSENTING := Store(Some(Consent(true, 1)), map[], [])
  const APPENDING := Receipt(Appending, None, false)

  /** Worker 1 holds the permission to append for the one capture there is. */
  const STALLED := World(
    CONSENTING.(jobs := [Job(1, Capture(7), Running, APPENDING, Some(1), Some(180.0), 0.0, 0)]),
    map[1 := Session(0, APPENDING, AppendNow)], [], [])

  /** Worker 2 took the job over and gave it up. */
  const ABANDONED := World(
    CONSENTING.(jobs := [Job(1, Capture(7), Uncertain, APPENDING, Some(2), None, 500.0, 0)]),
    map[1 := Session(0, APPENDING, AppendNow), 2 := Session(0, APPENDING, Checked)], [], [])

  lemma CaptureStalls(rest: History) returns (h: History)
    ensures After(EMPTY, h) == After(STALLED, rest)
  {
    var w1 := EMPTY.(store := CONSENTING);
    assert Step(EMPTY, Toggle(true), EARLY) == w1;
    var queued := Job(1, Capture(7), Pending, UNSTARTED, None, None, 0.0, 0);
    var w2 := w1.(store := CONSENTING.(jobs := [queued]));
    assert Step(w1, Note(7, true), EARLY) == w2;
    var held := queued.(state := Running, owner := Some(1), lease := Some(180.0));
    var w3 := w1.(store := CONSENTING.(jobs := [held]), sessions := map[1 := Session(0, UNSTARTED, Started)]);
    assert Step(w2, Act.Claim(0, 1), EARLY) == w3;
    var w4 := w3.(sessions := map[1 := Session(0, UNSTARTED, Checked)]);
    assert Step(w3, By(1, Check(true)), EARLY) == w4;
    assert Step(w4, By(1, SaveAppending), EARLY) == STALLED;
    var h5: History := [(By(1, SaveAppending), EARLY)] + rest;
    Unfold(w4, (By(1, SaveAppending), EARLY), rest);
    var h4: History := [(By(1, Check(true)), EARLY)] + h5;
    Unfold(w3, (By(1, Check(true)), EARLY), h5);
    var h3: History := [(Act.Claim(0, 1), EARLY)] + h4;
    Unfold(w2, (Act.Claim(0, 1), EARLY), h4);
    var h2: History := [(Note(7, true), EARLY)] + h3;
    Unfold(w1, (Note(7, true), EARLY), h3);
    h := [(Toggle(true), EARLY)] + h2;
    Unfold(EMPTY, (Toggle(true), EARLY), h2);
  }

  lemma CaptureIsAbandoned(rest: History) returns (h: History)
    ensures After(STALLED, h) == After(ABANDONED, rest)
  {
    var job := Job(1, Capture(7), Running, APPENDING, Some(2), Some(680.0), 0.0, 0);
    var w1 := World(CONSENTING.(jobs := [job]), STALLED.sessions[2 := Session(0, APPENDING, Started)], [], []);
    assert Step(STALLED, Act.Claim(0, 2), LATE) == w1;
    var w2 := w1.(sessions := STALLED.sessions[2 := Session(0, APPENDING, Checked)]);
    assert Step(w1, By(2, Check(true)), LATE) == w2;
    assert Step(w2, By(2, GiveUp), LATE) == ABANDONED;
    var h3: History := [(By(2, GiveUp), LATE)] + rest;
    Unfold(w2, (By(2, GiveUp), LATE), rest);
    var h2: History := [(By(2, Check(true)), LATE)] + h3;
    Unfold(w1, (By(2, Check(true)), LATE), h3);
    h := [(Act.Claim(0, 2), LATE)] + h2;
    Unfold(STALLED, (Act.Claim(0, 2), LATE), h2);
  }

  const LOST := ABANDONED.store.jobs[0]
  const PURGING := Job(1, Purge, Running, UNSTARTED, Some(3), Some(680.0), 500.0, 0)

  /** Worker 3 cleans up after the user cleared the memory; its sweep is at `at`. */
  function Cleaning(jobs: seq<Job>, at: nat): World
  {
    World(Store(Some(Consent(true, 2)), map[], jobs),
          ABANDONED.sessions[3 := Session(1, UNSTARTED, Sweeping([LOST, PURGING], at))], [], [])
  }

  lemma PurgeBegins(rest: History) returns (h: History)
    ensures After(ABANDONED, h) == After(Cleaning([LOST, PURGING], 0), rest)
  {
    var purge := PURGING.(state := Pending, owner := None, lease := None);
    var w1 := ABANDONED.(store := Store(Some(Consent(true, 2)), map[], [LOST, purge]));
    assert Step(ABANDONED, ClearAll, LATE) == w1;
    var w2 := w1.(store := w1.store.(jobs := [LOST, PURGING]), sessions := w1.sessions[3 := Session(1, UNSTARTED, Started)]);
    assert Step(w1, Act.Claim(1, 3), LATE) == w2;
    assert Step(w2, By(3, BeginSweep), LATE) == Cleaning([LOST, PURGING], 0);
    var h3: History := [(By(3, BeginSweep), LATE)] + rest;
    Unfold(w2, (By(3, BeginSweep), LATE), rest);
    var h2: History := [(Act.Claim(1, 3), LATE)] + h3;
    Unfold(w1, (Act.Claim(1, 3), LATE), h3);
    h := [(ClearAll, LATE)] + h2;
    Unfold(ABANDONED, (ClearAll, LATE), h2);
  }

  /** The sweep finds the capture started and not committing, so it marks it. */
  lemma SweepMarks(rest: History) returns (h: History)
    ensures After(Cleaning([LOST, PURGING], 0), h) == After(Cleaning([LOST.(receipt := APPENDING.(removed := true)), PURGING], 1), rest)
  {
    var w := Cleaning([LOST, PURGING], 0);
    assert Fenced(w, 3, 500.0);
    assert FencedWork(w, 3, Work.Remove, LATE) == Cleaning([LOST.(receipt := APPENDING.(removed := true)), PURGING], 1);
    h := [(By(3, Work.Remove), LATE)] + rest;
    Unfold(w, (By(3, Work.Remove), LATE), rest);
  }

  lemma PurgeEnds() returns (h: History)
    ensures var jobs := [LOST.(receipt := APPENDING.(removed := true)), PURGING];
            After(Cleaning(jobs, 1), h) == Cleaning([jobs[0], PURGING.(state := Succeeded, lease := None)], 2)
  {
    var jobs := [LOST.(receipt := APPENDING.(removed := true)), PURGING];
    assert Step(Cleaning(jobs, 1), By(3, Skip), LATE) == Cleaning(jobs, 2);
    var done := Cleaning([jobs[0], PURGING.(state := Succeeded, lease := None)], 2);
    assert Step(Cleaning(jobs, 2), By(3, FinishSweep), LATE) == done;
    var h2: History := [(By(3, FinishSweep), LATE)] + [];
    Unfold(Cleaning(jobs, 2), (By(3, FinishSweep), LATE), []);
    h := [(By(3, Skip), LATE)] + h2;
    Unfold(Cleaning(jobs, 1), (By(3, Skip), LATE), h2);
  }

  /** Such a worker exists: it saved its permission and stalled, its job was given up as uncertain,
      and memory was cleared and purged in the meantime. */
  lemma LateAppendHappens() returns (h: History)
    ensures var w := After(EMPTY, h);
            && |w.store.jobs| == 2 && w.store.jobs[1].key.Purge? && w.store.jobs[1].state.Succeeded?
            && w.store.jobs[0].generation == w.store.jobs[1].generation
            && w.appends == [] && Step(w, By(1, SendAppend), LATE).appends == [0]
  {
    var end := PurgeEnds();
    var sweep := SweepMarks(end);
    var purge := PurgeBegins(sweep);
    var abandon := CaptureIsAbandoned(purge);
    h := CaptureStalls(abandon);
  }
}
