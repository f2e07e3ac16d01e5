/** Consent and tombstones: what is recalled is what the user still agrees to, and nothing that
    was deleted comes back.  app/service/automatic_memory.py:38-110,135-174,271-279. */
module MemoryConsent {
  import opened Outcomes
  import opened MemoryModel
  import opened MemorySync

  /** Every ready row belongs to the current generation of a consenting user; other rows are blank. */
  ghost predicate Agreed(s: Store)
  {
    forall p :: p in s.memories ==>
      if s.memories[p].state.Ready? then Consenting(s, p.generation) else s.memories[p].content == ""
  }

  predicate Forgotten(s: Store, p: Place) { p in s.memories && !s.memories[p].state.Ready? }

  // ---------------------------------------------------------------- extraction

  /** Published changes touch one generation, keep its tombstones and blank what they drop. */
  ghost predicate Extends(before: map<Place, Memory>, after: map<Place, Memory>, generation: nat)
  {
    && before.Keys <= after.Keys
    && (forall p :: p in after && p.generation != generation ==> p in before && after[p] == before[p])
    && (forall p :: p in after && !after[p].state.Ready? ==> after[p].content == "" || (p in before && after[p] == before[p]))
    && (forall p :: p in before && !before[p].state.Ready? ==> !after[p].state.Ready?)
    && (forall p :: p in before && after[p].state.Ready? ==> before[p].version <= after[p].version)
  }

  lemma ChangeExtends(m: map<Place, Memory>, generation: nat, c: Change)
    requires Changed(m, generation, c).Some?
    ensures Extends(m, Changed(m, generation, c).value, generation)
  {
  }

  lemma {:induction false} ChangesExtend(m: map<Place, Memory>, generation: nat, changes: seq<Change>)
    requires AllChanged(m, generation, changes).Some?
    ensures Extends(m, AllChanged(m, generation, changes).value, generation)
    decreases |changes|
  {
    if changes != [] {
      var next := Changed(m, generation, changes[0]).value;
      ChangeExtends(m, generation, changes[0]);
      ChangesExtend(next, generation, changes[1..]);
      ExtendsJoins(m, next, AllChanged(m, generation, changes).value, generation);
    }
  }

  lemma ExtendsJoins(a: map<Place, Memory>, b: map<Place, Memory>, c: map<Place, Memory>, generation: nat)
    requires Extends(a, b, generation) && Extends(b, c, generation)
    ensures Extends(a, c, generation)
  {
    forall p | p in c && p.generation != generation ensures p in a && c[p] == a[p] { assert p in b; }
    forall p | p in c && !c[p].state.Ready? ensures c[p].content == "" || (p in a && c[p] == a[p])
    {
      if c[p].content != "" { assert p in b && c[p] == b[p]; }
    }
    forall p | p in a && c[p].state.Ready? ensures a[p].version <= c[p].version { assert p in b; }
  }

  // ---------------------------------------------------------------- one step

  /** What a step may do to the rows and to consent. */
  ghost predicate Keeps(s: Store, next: Store)
  {
    && s.memories.Keys <= next.memories.Keys
    && (forall p :: Forgotten(s, p) ==> Forgotten(next, p))
    && (s.consent.Some? ==> next.consent.Some? && s.consent.value.generation <= next.consent.value.generation)
  }

  lemma RequestKeepsAgreed(w: World, act: Act, c: Clock)
    requires Agreed(w.store) && !act.By? && !act.Claim?
    ensures Agreed(Step(w, act, c).store) && Keeps(w.store, Step(w, act, c).store)
  {
  }

  lemma PublishKeepsAgreed(s: Store, i: nat, o: Operations)
    requires Agreed(s) && i < |s.jobs| && Published(s, i, o).Some?
    ensures Agreed(Published(s, i, o).value) && Keeps(s, Published(s, i, o).value)
  {
    var g := s.jobs[i].generation;
    if Consenting(s, g) { ChangesExtend(s.memories, g, o.adds + o.updates + o.deletes); }
  }

  lemma FencedKeepsAgreed(w: World, t: Token, work: Work, c: Clock)
    requires Agreed(w.store) && Fenced(w, t, c.at)
    ensures Agreed(FencedWork(w, t, work, c).store) && Keeps(w.store, FencedWork(w, t, work, c).store)
  {
    var i := w.sessions[t].job;
    if work.Publish? && Published(w.store, i, work.operations).Some? {
      PublishKeepsAgreed(w.store, i, work.operations);
    }
  }

  /** Steps that leave consent and rows alone. */
  lemma SameRowsKeep(s: Store, next: Store)
    requires Agreed(s) && next.memories == s.memories && next.consent == s.consent
    ensures Agreed(next) && Keeps(s, next)
  {
  }

  lemma WorkKeepsAgreed(w: World, t: Token, work: Work, c: Clock)
    requires Agreed(w.store)
    ensures Agreed(WorkStep(w, t, work, c).store) && Keeps(w.store, WorkStep(w, t, work, c).store)
  {
    var v := WorkStep(w, t, work, c);
    if v.store.memories == w.store.memories && v.store.consent == w.store.consent {
      SameRowsKeep(w.store, v.store);
    } else {
      FencedKeepsAgreed(w, t, work, c);
    }
  }

  lemma StepKeepsAgreed(w: World, act: Act, c: Clock)
    requires Agreed(w.store)
    ensures Agreed(Step(w, act, c).store) && Keeps(w.store, Step(w, act, c).store)
  {
    if act.By? {
      WorkKeepsAgreed(w, act.token, act.work, c);
    } else if !act.Claim? {
      RequestKeepsAgreed(w, act, c);
    }
  }

  // ---------------------------------------------------------------- whole histories

  lemma {:induction false} HistoryKeepsAgreed(w: World, h: History)
    requires Agreed(w.store)
    ensures Agreed(After(w, h).store) && Keeps(w.store, After(w, h).store)
    decreases |h|
  {
    if h != [] {
      StepKeepsAgreed(w, h[0].0, h[0].1);
      HistoryKeepsAgreed(Step(w, h[0].0, h[0].1), h[1..]);
    }
  }

  /** In every reachable state a ready row is one the user currently agrees to, and every other
      row is blank; in particular a user with consent off has no ready row. */
  lemma ReadyMeansConsent(h: History, p: Place)
    requires p in After(EMPTY, h).store.memories
    ensures After(EMPTY, h).store.memories[p].state.Ready? ==> Consenting(After(EMPTY, h).store, p.generation)
    ensures !After(EMPTY, h).store.memories[p].state.Ready? ==> After(EMPTY, h).store.memories[p].content == ""
  {
    HistoryKeepsAgreed(EMPTY, h);
  }

  lemma {:induction false} AfterJoins(w: World, a: History, b: History)
    ensures After(w, a + b) == After(After(w, a), b)
    decreases |a|
  {
    if a == [] {
      assert a + b == b;
    } else {
      assert (a + b)[1..] == a[1..] + b;
      AfterJoins(Step(w, a[0].0, a[0].1), a[1..], b);
    }
  }

  /** Under any order of publishing, deleting, clearing, disabling, enabling and late workers, a
      row that once left the ready state never returns to it. */
  lemma NeverResurrected(h: History, more: History, p: Place)
    requires Forgotten(After(EMPTY, h).store, p)
    ensures Forgotten(After(EMPTY, h + more).store, p) && After(EMPTY, h + more).store.memories[p].content == ""
  {
    HistoryKeepsAgreed(EMPTY, h);
    HistoryKeepsAgreed(After(EMPTY, h), more);
    AfterJoins(EMPTY, h, more);
  }

  /** Every row of a cleared generation is forgotten from then on, whatever follows. */
  lemma ClearForgetsAll(h: History, more: History, c: Clock, p: Place)
    requires p in After(EMPTY, h).store.memories
    ensures Forgotten(After(EMPTY, h + [(ClearAll, c)] + more).store, p)
  {
    var w := After(EMPTY, h);
    HistoryKeepsAgreed(EMPTY, h);
    AfterJoins(EMPTY, h, [(ClearAll, c)]);
    var v := After(EMPTY, h + [(ClearAll, c)]);
    assert v == Step(w, ClearAll, c) by { assert After(w, [(ClearAll, c)]) == After(Step(w, ClearAll, c), []); }
    ClearForgets(w, c, p);
    NeverResurrected(h + [(ClearAll, c)], more, p);
  }

  lemma ClearForgets(w: World, c: Clock, p: Place)
    requires Agreed(w.store) && p in w.store.memories
    ensures Forgotten(Step(w, ClearAll, c).store, p)
  {
  }

  // ---------------------------------------------------------------- recall

  const RECALL_LIMIT := 12000

  datatype Hit = Hit(place: Place, content: string, score: real)

  predicate Enabled(s: Store) { s.consent.Some? && s.consent.value.enabled }

  ghost predicate Known(s: Store, generation: nat)
  {
    exists p :: p in s.memories && p.generation == generation && s.memories[p].state.Ready?
  }

  /** The remote hits that still have a ready row, in the order they came. */
  function Rows(s: Store, generation: nat, hits: seq<(string, real)>): seq<Hit>
  {
    if hits == [] then []
    else
      var p := Place(generation, hits[0].0);
      var rest := Rows(s, generation, hits[1..]);
      if p in s.memories && s.memories[p].state.Ready?
      then [Hit(p, if |s.memories[p].content| > RECALL_LIMIT then s.memories[p].content[..RECALL_LIMIT] else s.memories[p].content, hits[0].1)] + rest
      else rest
  }

  /** `search`: one reading before the remote query and one after it. */
  ghost function Recalled(before: Store, after: Store, hits: seq<(string, real)>): seq<Hit>
  {
    if !Enabled(before) || !Known(before, before.consent.value.generation) then []
    else if !Consenting(after, before.consent.value.generation) then []
    else Rows(after, before.consent.value.generation, hits)
  }

  lemma {:induction false} RowsAreReady(s: Store, generation: nat, hits: seq<(string, real)>, k: nat)
    requires k < |Rows(s, generation, hits)|
    ensures var r := Rows(s, generation, hits)[k];
            r.place in s.memories && s.memories[r.place].state.Ready? && r.place.generation == generation
            && r.content <= s.memories[r.place].content && |r.content| <= RECALL_LIMIT && (r.place.uri, r.score) in hits
  {
    var rest := Rows(s, generation, hits[1..]);
    if k < |rest| { RowsAreReady(s, generation, hits[1..], k); }
    var p := Place(generation, hits[0].0);
    if p in s.memories && s.memories[p].state.Ready? && k > 0 { RowsAreReady(s, generation, hits[1..], k - 1); }
  }

  /** What was forgotten before or during a recall is never in its answer, and an answer holds
      only rows the user agrees to when it is given. */
  lemma ForgottenIsNeverRecalled(h: History, meanwhile: History, hits: seq<(string, real)>, k: nat)
    requires k < |Recalled(After(EMPTY, h).store, After(EMPTY, h + meanwhile).store, hits)|
    ensures var r := Recalled(After(EMPTY, h).store, After(EMPTY, h + meanwhile).store, hits)[k];
            && Consenting(After(EMPTY, h + meanwhile).store, r.place.generation)
            && !Forgotten(After(EMPTY, h).store, r.place) && !Forgotten(After(EMPTY, h + meanwhile).store, r.place)
            && r.place in After(EMPTY, h + meanwhile).store.memories
            && r.content <= After(EMPTY, h + meanwhile).store.memories[r.place].content
  {
    var r := Recalled(After(EMPTY, h).store, After(EMPTY, h + meanwhile).store, hits)[k];
    RowsAreReady(After(EMPTY, h + meanwhile).store, After(EMPTY, h).store.consent.value.generation, hits, k);
    if Forgotten(After(EMPTY, h).store, r.place) { NeverResurrected(h, meanwhile, r.place); }
  }
}
