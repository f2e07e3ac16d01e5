/** Tool calls that run in the order the model asked for them, on whatever threads they arrive.
    app/manager/run_checkpoint.py:33-52. */
module OrderedSections {
  import opened Outcomes

  type Thread = int
  type Group = string

  datatype Stage = Waiting | Inside | Left | Abandoned

  /** A thread that called `ordered`. */
  datatype Section = Section(group: Group, index: nat, stage: Stage)

  /** `finished` is the checkpoint's; `entered` lists the threads in the order they went inside. */
  datatype World = World(sections: map<Thread, Section>, finished: map<Group, set<nat>>, entered: seq<Thread>)

  const IDLE := World(map[], map[], [])

  /** Arriving, going inside, leaving (by any way out of the body), and failing the check of the
      run while waiting. */
  datatype Act = Arrive(thread: Thread, group: Group, index: nat) | Enter(thread: Thread) | Leave(thread: Thread) | GiveUp(thread: Thread)

  function Done(finished: map<Group, set<nat>>, g: Group): set<nat> { if g in finished then finished[g] else {} }

  predicate Open(finished: map<Group, set<nat>>, g: Group, index: nat)
  {
    forall previous | 0 <= previous < index :: previous in Done(finished, g)
  }

  function At(w: World, t: Thread, stage: Stage): World
    requires t in w.sections
  {
    w.(sections := w.sections[t := w.sections[t].(stage := stage)])
  }

  function Step(w: World, a: Act): World
  {
    var t := a.thread;
    if a.Arrive? then (if t in w.sections then w else w.(sections := w.sections[t := Section(a.group, a.index, Waiting)]))
    else if t !in w.sections then w
    else
      var s := w.sections[t];
      match a
      case Enter(_) =>
        if s.stage.Waiting? && Open(w.finished, s.group, s.index) then At(w, t, Inside).(entered := w.entered + [t]) else w
      case Leave(_) =>
        if s.stage.Inside?
        then At(w, t, Left).(finished := w.finished[s.group := Done(w.finished, s.group) + {s.index}]) else w
      case GiveUp(_) => if s.stage.Waiting? then At(w, t, Abandoned) else w
  }

  function After(w: World, acts: seq<Act>): World
    decreases |acts|
  {
    if acts == [] then w else After(Step(w, acts[0]), acts[1..])
  }

  // ---------------------------------------------------------------- what every state satisfies

  /** Whoever went inside found every lower index finished. */
  predicate SectionFits(w: World, t: Thread)
    requires t in w.sections
  {
    var s := w.sections[t];
    && (s.stage.Inside? || s.stage.Left? ==> Open(w.finished, s.group, s.index) && t in w.entered)
    && (s.stage.Left? ==> s.index in Done(w.finished, s.group))
  }

  /** What is finished was finished by a thread that has left. */
  ghost predicate Witnessed(w: World, g: Group, index: nat)
  {
    exists t :: t in w.sections && w.sections[t] == Section(g, index, Left)
  }

  ghost predicate Fits(w: World)
  {
    && (forall t :: t in w.sections ==> SectionFits(w, t))
    && (forall g, i :: i in Done(w.finished, g) ==> Witnessed(w, g, i))
    && (forall k :: 0 <= k < |w.entered| ==> w.entered[k] in w.sections && WasInside(w.sections[w.entered[k]]))
  }

  predicate WasInside(s: Section) { s.stage.Inside? || s.stage.Left? }

  lemma OpenStays(w: World, a: Act, g: Group, index: nat)
    requires Open(w.finished, g, index)
    ensures Open(Step(w, a).finished, g, index)
  {
    assert Done(w.finished, g) <= Done(Step(w, a).finished, g);
  }

  lemma StepKeepsFits(w: World, a: Act)
    requires Fits(w)
    ensures Fits(Step(w, a))
  {
    var v := Step(w, a);
    if v != w {
      var t := a.thread;
      forall u | u in v.sections ensures SectionFits(v, u) {
        if u in w.sections {
          assert SectionFits(w, u);
          var s := w.sections[u];
          if Open(w.finished, s.group, s.index) { OpenStays(w, a, s.group, s.index); }
        }
      }
      forall g, i | i in Done(v.finished, g) ensures Witnessed(v, g, i) {
        if i in Done(w.finished, g) {
          var u :| u in w.sections && w.sections[u] == Section(g, i, Left);
          assert v.sections[u] == Section(g, i, Left);
        } else {
          assert v.sections[t] == Section(g, i, Left);
        }
      }
    }
  }

  /** One call for every index of a group, as the model's list of calls gives it. */
  ghost predicate OneEach(w: World)
  {
    forall t, u :: t in w.sections && u in w.sections && t != u && w.sections[t].group == w.sections[u].group
      ==> w.sections[t].index != w.sections[u].index
  }

  predicate InOrder(w: World, a: nat, b: nat)
    requires a < |w.entered| && b < |w.entered| && w.entered[a] in w.sections && w.entered[b] in w.sections
  {
    var s, t := w.sections[w.entered[a]], w.sections[w.entered[b]];
    s.group == t.group ==> s.index < t.index
  }

  ghost predicate EntriesOrdered(w: World)
  {
    && (forall k :: 0 <= k < |w.entered| ==> w.entered[k] in w.sections)
    && (forall a, b :: 0 <= a < b < |w.entered| ==> InOrder(w, a, b))
  }

  /** No two calls of a group are inside together. */
  ghost predicate Exclusive(w: World)
  {
    forall t, u :: t in w.sections && u in w.sections && t != u && w.sections[t].group == w.sections[u].group
      ==> !(w.sections[t].stage.Inside? && w.sections[u].stage.Inside?)
  }

  lemma LowerHasLeft(w: World, t: Thread, u: Thread)
    requires Fits(w) && OneEach(w) && t in w.sections && u in w.sections && w.sections[t].group == w.sections[u].group
    requires WasInside(w.sections[u]) && w.sections[t].index < w.sections[u].index
    ensures w.sections[t].stage.Left?
  {
    assert SectionFits(w, u);
    var i := w.sections[t].index;
    assert i in Done(w.finished, w.sections[u].group);
    assert Witnessed(w, w.sections[u].group, i);
  }

  lemma FitsAreExclusive(w: World)
    requires Fits(w) && OneEach(w)
    ensures Exclusive(w)
  {
    forall t, u | t in w.sections && u in w.sections && t != u && w.sections[t].group == w.sections[u].group
      ensures !(w.sections[t].stage.Inside? && w.sections[u].stage.Inside?)
    {
      if w.sections[t].stage.Inside? && w.sections[u].stage.Inside? {
        if w.sections[t].index < w.sections[u].index { LowerHasLeft(w, t, u); } else { LowerHasLeft(w, u, t); }
      }
    }
  }

  lemma StepKeepsOrder(w: World, a: Act)
    requires Fits(w) && OneEach(w) && EntriesOrdered(w)
    ensures EntriesOrdered(Step(w, a))
  {
    var v := Step(w, a);
    if v != w {
      forall i, k | 0 <= i < k < |v.entered| ensures InOrder(v, i, k) {
        if k < |w.entered| {
          assert InOrder(w, i, k);
        } else if w.sections[w.entered[i]].group == w.sections[a.thread].group {
          LateIsHigher(w, a.thread, i);
        }
      }
    }
  }

  /** A thread still waiting has a higher index than everyone of its group who went in before. */
  lemma LateIsHigher(w: World, t: Thread, i: nat)
    requires Fits(w) && OneEach(w) && t in w.sections && w.sections[t].stage.Waiting? && i < |w.entered|
    requires w.sections[w.entered[i]].group == w.sections[t].group
    ensures w.sections[w.entered[i]].index < w.sections[t].index
  {
    var u := w.entered[i];
    if w.sections[t].index < w.sections[u].index { LowerHasLeft(w, t, u); }
  }

  lemma {:induction false} AfterKeeps(w: World, acts: seq<Act>)
    requires Fits(w) && EntriesOrdered(w) && OneEach(After(w, acts))
    ensures Fits(After(w, acts)) && EntriesOrdered(After(w, acts)) && OneEach(w)
    decreases |acts|
  {
    if acts != [] {
      StepKeepsFits(w, acts[0]);
      OneEachBefore(Step(w, acts[0]), acts[1..]);
      OneEachBefore(w, acts);
      StepKeepsOrder(w, acts[0]);
      AfterKeeps(Step(w, acts[0]), acts[1..]);
    }
  }

  /** Threads and their indexes are never forgotten. */
  lemma {:induction false} OneEachBefore(w: World, acts: seq<Act>)
    requires OneEach(After(w, acts))
    ensures OneEach(w)
    ensures forall t :: t in w.sections ==> t in After(w, acts).sections && SameCall(w.sections[t], After(w, acts).sections[t])
    decreases |acts|
  {
    if acts != [] {
      OneEachBefore(Step(w, acts[0]), acts[1..]);
      forall t | t in w.sections
        ensures t in Step(w, acts[0]).sections && SameCall(w.sections[t], Step(w, acts[0]).sections[t]) {}
    }
  }

  predicate SameCall(a: Section, b: Section) { a.group == b.group && a.index == b.index }

  /** However the threads are scheduled and whichever give up, the calls of a group never run
      together and always in the order of their indexes, as long as no index is used twice. */
  lemma CallsRunInOrder(acts: seq<Act>)
    requires OneEach(After(IDLE, acts))
    ensures Exclusive(After(IDLE, acts)) && EntriesOrdered(After(IDLE, acts))
  {
    AfterKeeps(IDLE, acts);
    FitsAreExclusive(After(IDLE, acts));
  }

  /** An index used twice is enough to let two calls of a group inside together. */
  lemma SharedIndexOverlaps()
    ensures !Exclusive(After(IDLE, [Arrive(1, "g", 0), Arrive(2, "g", 0), Enter(1), Enter(2)]))
  {
    var a, b := Section("g", 0, Waiting), Section("g", 0, Inside);
    var w1 := Step(IDLE, Arrive(1, "g", 0));
    assert w1.sections == map[1 := a];
    var w2 := Step(w1, Arrive(2, "g", 0));
    assert w2.sections == map[1 := a, 2 := a];
    var w3 := Step(w2, Enter(1));
    assert w3.sections == map[1 := b, 2 := a];
    var w4 := Step(w3, Enter(2));
    assert w4.sections == map[1 := b, 2 := b];
    var acts := [Arrive(1, "g", 0), Arrive(2, "g", 0), Enter(1), Enter(2)];
    assert acts[1..] == [Arrive(2, "g", 0), Enter(1), Enter(2)] && acts[1..][1..] == [Enter(1), Enter(2)];
    assert acts[1..][1..][1..] == [Enter(2)] && acts[1..][1..][1..][1..] == [];
    assert After(IDLE, acts) == After(w1, acts[1..]) == After(w2, acts[1..][1..]);
    assert After(w2, acts[1..][1..]) == After(w3, acts[1..][1..][1..]) == After(w4, []);
    assert 1 in w4.sections && 2 in w4.sections;
  }

  /** A call that gives up is never finished, so no later call of its group ever goes inside. */
  lemma {:induction false} GivingUpStopsTheRest(w: World, acts: seq<Act>, t: Thread, u: Thread)
    requires Fits(w) && OneEach(After(w, acts)) && t in w.sections && w.sections[t].stage.Abandoned?
    requires u in After(w, acts).sections && SameGroupAfter(w.sections[t], After(w, acts).sections[u])
    ensures !WasInside(After(w, acts).sections[u])
    decreases |acts|
  {
    if acts == [] {
      if WasInside(w.sections[u]) { LowerHasLeft(w, t, u); }
    } else {
      StepKeepsFits(w, acts[0]);
      GivingUpStopsTheRest(Step(w, acts[0]), acts[1..], t, u);
    }
  }

  predicate SameGroupAfter(a: Section, b: Section) { a.group == b.group && a.index < b.index }

  // ---------------------------------------------------------------- the checkpoint's part

  class Ordering {
    var finished: map<Group, set<nat>>

    constructor ()
      ensures finished == map[]
    {
      finished := map[];
    }

    /** One turn of the waiting loop: whether the caller may go on. */
    method MayEnter(group: Group, index: nat) returns (yes: bool)
      ensures yes <==> Open(finished, group, index)
    {
      var done := if group in finished then finished[group] else {};
      assert done == Done(finished, group);
      for previous := 0 to index
        invariant forall k :: 0 <= k < previous ==> k in done
      {
        if previous !in done { return false; }
      }
      return true;
    }

    /** The way out, taken whether the body returned or raised. */
    method Finish(group: Group, index: nat)
      modifies this
      ensures finished == old(finished)[group := Done(old(finished), group) + {index}]
    {
      var done := if group in finished then finished[group] else {};
      finished := finished[group := done + {index}];
    }
  }
}
