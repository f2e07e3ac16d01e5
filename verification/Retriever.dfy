/** From raw hits to the evidence of an answer: duplicates dropped, the best kept, and each owner's
    hits expanded with what the owners before left of the budget.  app/manager/retriever.py:89-132. */
module Retriever {
  import opened Outcomes
  import opened PythonText
  import opened HierarchyTree
  import opened HierarchyMerge

  /** How an owner's hits are expanded; both calls may fail. */
  datatype Expander =
    | Plain
    | Flat(expand: seq<Hit> -> Outcome<seq<Hit>>)
    | Hierarchical(merge: (seq<Hit>, Option<int>) -> Outcome<seq<Hit>>)

  /** An owner's documents; `late` says whether the deadline has passed when its turn comes. */
  datatype Group = Group(owners: set<int>, expander: Expander, late: bool)

  /** The row anchor of a spreadsheet chunk. */
  type Anchor = Details -> Option<int>

  datatype Key = Row(owner: int, anchor: int, text: string) | Text(text: string)

  function Squeezed(s: string): string
  {
    if s == "" then "" else (if IsSpace(s[0]) then "" else [s[0]]) + Squeezed(s[1..])
  }

  function KeyOf(anchor: Anchor, c: Chunk): Key
  {
    var a := anchor(c.details);
    if a.Some? then Row(c.owner, a.value, Squeezed(c.content)) else Text(Squeezed(c.content))
  }

  // ---------------------------------------------------------------- duplicates

  /** The first hit of every key that is not blank, in order. */
  function Unique(anchor: Anchor, hits: seq<Hit>): seq<Hit>
  {
    if hits == [] then []
    else
      var front := Unique(anchor, hits[..|hits| - 1]);
      var last := hits[|hits| - 1];
      if Squeezed(last.chunk.content) == "" || Keyed(anchor, front, KeyOf(anchor, last.chunk)) then front else front + [last]
  }

  predicate Keyed(anchor: Anchor, hits: seq<Hit>, k: Key) { exists h | h in hits :: KeyOf(anchor, h.chunk) == k }

  /** Nothing is said twice, nothing that was said is lost, and nothing is made up. */
  lemma {:induction false} UniqueKeepsEveryKey(anchor: Anchor, hits: seq<Hit>)
    ensures var u := Unique(anchor, hits);
            && (forall i, k :: 0 <= i < k < |u| ==> KeyOf(anchor, u[i].chunk) != KeyOf(anchor, u[k].chunk))
            && (forall h :: h in u ==> h in hits && Squeezed(h.chunk.content) != "")
            && (forall h :: h in hits && Squeezed(h.chunk.content) != "" ==> Keyed(anchor, u, KeyOf(anchor, h.chunk)))
  {
    if hits != [] {
      var front := hits[..|hits| - 1];
      var last := hits[|hits| - 1];
      UniqueKeepsEveryKey(anchor, front);
      var u := Unique(anchor, front);
      var v := Unique(anchor, hits);
      forall h | h in hits && Squeezed(h.chunk.content) != "" ensures Keyed(anchor, v, KeyOf(anchor, h.chunk)) {
        if h in front {
          var g :| g in u && KeyOf(anchor, g.chunk) == KeyOf(anchor, h.chunk);
          assert g in v;
        } else {
          assert h == last;
          if Keyed(anchor, u, KeyOf(anchor, last.chunk)) {
            var g :| g in u && KeyOf(anchor, g.chunk) == KeyOf(anchor, last.chunk);
            assert g in v;
          } else {
            assert v == u + [last] && v[|u|] == last;
          }
        }
      }
      if v != u {
        forall i | 0 <= i < |u| ensures KeyOf(anchor, u[i].chunk) != KeyOf(anchor, last.chunk) { assert u[i] in u; }
      }
    }
  }

  // ---------------------------------------------------------------- expanding by owner

  function Selected(g: Group, hits: seq<Hit>): seq<Hit>
  {
    if hits == [] then []
    else
      var front := Selected(g, hits[..|hits| - 1]);
      if hits[|hits| - 1].chunk.owner in g.owners then front + [hits[|hits| - 1]] else front
  }

  function Expanded(g: Group, selected: seq<Hit>, budget: Option<int>): Outcome<seq<Hit>>
  {
    match g.expander
    case Plain => Ok(selected)
    case Flat(expand) => expand(selected)
    case Hierarchical(merge) => merge(selected, budget)
  }

  function Left(count: Counter, budget: Option<int>, batch: seq<Hit>): Option<int>
  {
    if budget.None? then None
    else
      var left := budget.value - ContextTokens(count, Contexts(batch), {});
      Some(if left < 0 then 0 else left)
  }

  predicate SameChunks(before: seq<Hit>, after: seq<Hit>)
  {
    |after| == |before| && forall k | 0 <= k < |before| :: before[k].chunk == after[k].chunk
  }

  function Noted(byId: map<int, Hit>, batch: seq<Hit>): map<int, Hit>
  {
    if batch == [] then byId else Noted(byId, batch[..|batch| - 1])[batch[|batch| - 1].chunk.id := batch[|batch| - 1]]
  }

  /** The loop over owners: the expanded hits by identity. */
  function Gathered(count: Counter, groups: seq<Group>, hits: seq<Hit>, budget: Option<int>, byId: map<int, Hit>): Outcome<map<int, Hit>>
    decreases |groups|
  {
    if groups == [] then Ok(byId)
    else
      var selected := Selected(groups[0], hits);
      if selected == [] then Gathered(count, groups[1..], hits, budget, byId)
      else if groups[0].late then Raised(AgentTimeout)
      else
        var batch := Expanded(groups[0], selected, budget);
        if batch.Raised? then Raised(batch.code)
        else if !SameChunks(selected, batch.value) then Raised(VectorScopeMismatch)
        else Gathered(count, groups[1..], hits, Left(count, budget, batch.value), Noted(byId, batch.value))
  }

  // ---------------------------------------------------------------- the whole

  predicate Tolerated(e: ErrorCode)
  {
    e == MilvusUnavailable || e == ParentContextTimeout || e == HierarchyUnavailable || e == HierarchyTimeout
  }

  /** The hits with their expansions, when every one has one. */
  function Assembled(hits: seq<Hit>, byId: map<int, Hit>): Outcome<seq<Hit>>
  {
    if exists h | h in hits :: h.chunk.id !in byId then Raised(KeyError)
    else Ok(seq(|hits|, k requires 0 <= k < |hits| => if hits[k].chunk.id in byId then byId[hits[k].chunk.id] else hits[k]))
  }

  /** Expansion may enrich, but not reorder, replace or add evidence. */
  predicate Preserved(before: seq<Hit>, after: seq<Hit>)
  {
    && |after| == |before|
    && forall k | 0 <= k < |before| ::
         SameEvidence(before[k], after[k]) && (after[k].context.Some? ==> before[k].chunk in after[k].context.value.children)
  }

  function Warned(hits: seq<Hit>, e: ErrorCode): seq<Hit>
  {
    seq(|hits|, k requires 0 <= k < |hits| => hits[k].(warning := Some(e)))
  }

  function Checked(hits: seq<Hit>, expanded: Outcome<seq<Hit>>): Outcome<seq<Hit>>
  {
    if expanded.Ok? && !Preserved(hits, expanded.value) then Raised(VectorScopeMismatch) else expanded
  }

  predicate AllPlain(groups: seq<Group>) { forall k | 0 <= k < |groups| :: groups[k].expander.Plain? }

  /** `_finish` from the ranked hits on. */
  function Finished(count: Counter, groups: seq<Group>, hits: seq<Hit>, budget: Option<int>): Outcome<seq<Hit>>
  {
    if AllPlain(groups) || hits == [] then Ok(hits)
    else
      var gathered := Gathered(count, groups, hits, budget, map[]);
      if gathered.Raised? then
        if Tolerated(gathered.code) then Ok(Warned(hits, gathered.code)) else Raised(gathered.code)
      else Checked(hits, Assembled(hits, gathered.value))
  }

  /** Whatever the expanders return, an answer's evidence is the ranked hits in order with their
      chunks and scores, and a context never comes without the chunk it was given for. */
  lemma EvidenceIsPreserved(count: Counter, groups: seq<Group>, hits: seq<Hit>, budget: Option<int>)
    requires Finished(count, groups, hits, budget).Ok?
    requires forall h :: h in hits ==> h.context.None?
    ensures Preserved(hits, Finished(count, groups, hits, budget).value)
  {
    if AllPlain(groups) {
      forall k | 0 <= k < |hits| ensures hits[k].context.None? { assert hits[k] in hits; }
    } else if hits != [] && Gathered(count, groups, hits, budget, map[]).Raised? {
      forall k | 0 <= k < |hits| ensures hits[k].context.None? { assert hits[k] in hits; }
    }
  }

  // ---------------------------------------------------------------- one budget for all owners

  /** An expander that stays within the budget it is given. */
  ghost predicate Thrifty(count: Counter, g: Group, hits: seq<Hit>)
  {
    forall b: Option<int> :: Expanded(g, Selected(g, hits), b).Ok? ==>
      ContextTokens(count, Contexts(Expanded(g, Selected(g, hits), b).value), {}) <= StartingBudget(b)
  }

  /** The tokens of all owners' contexts, each owner's counted as it is charged. */
  function Spent(count: Counter, groups: seq<Group>, hits: seq<Hit>, budget: Option<int>): nat
    decreases |groups|
  {
    if groups == [] then 0
    else
      var selected := Selected(groups[0], hits);
      if selected == [] then Spent(count, groups[1..], hits, budget)
      else
        var batch := Expanded(groups[0], selected, budget);
        if batch.Raised? then 0
        else ContextTokens(count, Contexts(batch.value), {}) + Spent(count, groups[1..], hits, Left(count, budget, batch.value))
  }

  /** With one budget for the question, all owners together stay within it. */
  lemma {:induction false} OwnersShareTheBudget(count: Counter, groups: seq<Group>, hits: seq<Hit>, budget: Option<int>)
    requires forall k :: 0 <= k < |groups| ==> Thrifty(count, groups[k], hits)
    requires budget.Some?
    ensures Spent(count, groups, hits, budget) <= StartingBudget(budget)
    decreases |groups|
  {
    if groups != [] {
      var selected := Selected(groups[0], hits);
      if selected == [] {
        OwnersShareTheBudget(count, groups[1..], hits, budget);
      } else {
        var batch := Expanded(groups[0], selected, budget);
        if batch.Ok? {
          assert Thrifty(count, groups[0], hits);
          OwnersShareTheBudget(count, groups[1..], hits, Left(count, budget, batch.value));
        }
      }
    }
  }

  /** Without one, every owner starts over from the default. */
  lemma {:induction false} OwnersWithoutABudget(count: Counter, groups: seq<Group>, hits: seq<Hit>)
    requires forall k :: 0 <= k < |groups| ==> Thrifty(count, groups[k], hits)
    ensures Spent(count, groups, hits, None) <= DEFAULT_BUDGET * |groups|
    decreases |groups|
  {
    if groups != [] {
      assert Thrifty(count, groups[0], hits);
      OwnersWithoutABudget(count, groups[1..], hits);
    }
  }

  /** An owner whose hits stay as they are, or whose documents are indexed: then `tree` holds
      the rows fetched for its hits and `rows` those selected by identity. */
  datatype Source = Bare(owners: set<int>, late: bool)
                  | Indexed(owners: set<int>, late: bool, tree: Tree, rows: seq<Node>)

  function GroupOf(count: Counter, threshold: real, s: Source): Group
  {
    match s
    case Bare(owners, late) => Group(owners, Plain, late)
    case Indexed(owners, late, tree, rows) =>
      Group(owners, Hierarchical((h: seq<Hit>, b: Option<int>) => Merge(tree, rows, h, count, threshold, b)), late)
  }

  function Groups(count: Counter, threshold: real, sources: seq<Source>): (r: seq<Group>)
    ensures |r| == |sources|
    ensures forall k | 0 <= k < |r| :: r[k] == GroupOf(count, threshold, sources[k])
  {
    if sources == [] then [] else [GroupOf(count, threshold, sources[0])] + Groups(count, threshold, sources[1..])
  }

  lemma {:induction false} SelectedAreOwned(g: Group, hits: seq<Hit>)
    ensures forall h :: h in Selected(g, hits) <==> h in hits && h.chunk.owner in g.owners
  {
    if hits != [] {
      SelectedAreOwned(g, hits[..|hits| - 1]);
      assert hits == hits[..|hits| - 1] + [hits[|hits| - 1]];
    }
  }

  lemma {:induction false} NoContextsCostNothing(count: Counter, contexts: seq<Option<Context>>, known: set<int>)
    requires forall c | c in contexts :: c.None?
    ensures ContextTokens(count, contexts, known) == 0
  {
    if contexts != [] {
      assert contexts[|contexts| - 1] in contexts;
      NoContextsCostNothing(count, contexts[..|contexts| - 1], known);
    }
  }

  /** An owner whose hits stay as they are costs nothing, and the merge of indexed hits stays
      within the budget it is given. */
  lemma MergingIsThrifty(count: Counter, threshold: real, s: Source, hits: seq<Hit>)
    requires s.Indexed? ==> Fetched(s.tree)
    requires forall h | h in hits :: h.context.None?
    ensures Thrifty(count, GroupOf(count, threshold, s), hits)
  {
    var g := GroupOf(count, threshold, s);
    SelectedAreOwned(g, hits);
    forall b: Option<int> | Expanded(g, Selected(g, hits), b).Ok?
      ensures ContextTokens(count, Contexts(Expanded(g, Selected(g, hits), b).value), {}) <= StartingBudget(b)
    {
      if s.Indexed? {
        MergeStaysWithinBudget(s.tree, s.rows, Selected(g, hits), count, threshold, b);
      } else {
        NoContextsCostNothing(count, Contexts(Selected(g, hits)), {});
      }
    }
  }

  /** Hits on leaves merged this way always pass the retriever's checks. */
  lemma MergedLeavesPass(count: Counter, t: Tree, selected: seq<Node>, hits: seq<Hit>, threshold: real, budget: Option<int>)
    requires Fetched(t) && Merge(t, selected, hits, count, threshold, budget).Ok?
    requires forall h :: h in hits ==> exists n :: n in t.leaves && n.id == h.chunk.id
    ensures SameChunks(hits, Merge(t, selected, hits, count, threshold, budget).value)
    ensures Preserved(hits, Merge(t, selected, hits, count, threshold, budget).value)
  {
    MergeIsFaithful(t, selected, count, threshold, hits, hits, Purse(StartingBudget(budget), []));
    var out := Merge(t, selected, hits, count, threshold, budget).value;
    assert AllFaithful(t, hits, out);
    forall k | 0 <= k < |hits| ensures Faithful(t, hits[k], out[k]) && hits[k] in hits {}
  }

  // ---------------------------------------------------------------- the answer's contexts

  /** One identity, one text: contexts are rows of the hierarchy. */
  ghost predicate Coherent(contexts: seq<Option<Context>>)
  {
    forall i, k :: 0 <= i < |contexts| && 0 <= k < |contexts| ==> Agree(contexts[i], contexts[k])
  }

  predicate Agree(a: Option<Context>, b: Option<Context>)
  {
    a.Some? && b.Some? && a.value.node == b.value.node ==> a.value.text == b.value.text
  }

  lemma {:induction false} KnownLowers(count: Counter, contexts: seq<Option<Context>>, known: set<int>, more: set<int>)
    requires known <= more
    ensures ContextTokens(count, contexts, more) <= ContextTokens(count, contexts, known)
  {
    if contexts != [] {
      var last := contexts[|contexts| - 1];
      var front := contexts[..|contexts| - 1];
      KnownLowers(count, front, known, more);
      if last.Some? {
        KnownLowers(count, front, known + {last.value.node}, more + {last.value.node});
        if last.value.node in more && last.value.node !in known {
          KnownLowers(count, front, known + {last.value.node}, more);
        }
      }
    }
  }

  lemma {:induction false} TokensSplit(count: Counter, a: seq<Option<Context>>, b: seq<Option<Context>>, known: set<int>)
    ensures ContextTokens(count, a + b, known) <= ContextTokens(count, a, known) + ContextTokens(count, b, known)
  {
    if b == [] {
      assert a + b == a;
    } else {
      var last := b[|b| - 1];
      var front := b[..|b| - 1];
      assert (a + b)[..|a + b| - 1] == a + front && (a + b)[|a + b| - 1] == last;
      if last.None? || last.value.node in known {
        TokensSplit(count, a, front, known);
      } else {
        TokensSplit(count, a, front, known + {last.value.node});
        KnownLowers(count, a, known, known + {last.value.node});
      }
    }
  }

  lemma {:induction false} TokensDrop(count: Counter, contexts: seq<Option<Context>>, known: set<int>, c: Context)
    requires Coherent(contexts) && Some(c) in contexts && c.node !in known
    ensures ContextTokens(count, contexts, known + {c.node}) + count(c.text) <= ContextTokens(count, contexts, known)
  {
    var last := contexts[|contexts| - 1];
    var front := contexts[..|contexts| - 1];
    assert contexts == front + [last];
    var i :| 0 <= i < |contexts| && contexts[i] == Some(c);
    assert Coherent(front);
    if last.None? || last.value.node in known {
      TokensDrop(count, front, known, c);
    } else if last.value.node != c.node {
      TokensDrop(count, front, known + {last.value.node}, c);
      assert known + {last.value.node} + {c.node} == known + {c.node} + {last.value.node};
    } else {
      assert Agree(contexts[|contexts| - 1], contexts[i]);
    }
  }

  /** Giving out some of the contexts costs no more than giving out all. */
  lemma {:induction false} SomeCostLess(count: Counter, some: seq<Option<Context>>, all: seq<Option<Context>>, known: set<int>)
    requires Coherent(all) && forall c :: c in some && c.Some? ==> c in all
    ensures ContextTokens(count, some, known) <= ContextTokens(count, all, known)
  {
    if some != [] {
      var last := some[|some| - 1];
      var front := some[..|some| - 1];
      assert last in some && forall c :: c in front ==> c in some;
      if last.None? || last.value.node in known {
        SomeCostLess(count, front, all, known);
      } else {
        SomeCostLess(count, front, all, known + {last.value.node});
        TokensDrop(count, all, known, last.value);
      }
    }
  }

  /** The contexts of every owner's batch, in turn. */
  function Offered(count: Counter, groups: seq<Group>, hits: seq<Hit>, budget: Option<int>): seq<Option<Context>>
    decreases |groups|
  {
    if groups == [] then []
    else
      var selected := Selected(groups[0], hits);
      if selected == [] then Offered(count, groups[1..], hits, budget)
      else
        var batch := Expanded(groups[0], selected, budget);
        if batch.Raised? then []
        else Contexts(batch.value) + Offered(count, groups[1..], hits, Left(count, budget, batch.value))
  }

  lemma {:induction false} OfferedIsSpent(count: Counter, groups: seq<Group>, hits: seq<Hit>, budget: Option<int>)
    ensures ContextTokens(count, Offered(count, groups, hits, budget), {}) <= Spent(count, groups, hits, budget)
    decreases |groups|
  {
    if groups != [] {
      var selected := Selected(groups[0], hits);
      if selected == [] {
        OfferedIsSpent(count, groups[1..], hits, budget);
      } else {
        var batch := Expanded(groups[0], selected, budget);
        if batch.Ok? {
          OfferedIsSpent(count, groups[1..], hits, Left(count, budget, batch.value));
          TokensSplit(count, Contexts(batch.value), Offered(count, groups[1..], hits, Left(count, budget, batch.value)), {});
        }
      }
    }
  }

  lemma {:induction false} NotedComesFrom(byId: map<int, Hit>, batch: seq<Hit>, id: int)
    requires id in Noted(byId, batch)
    ensures Noted(byId, batch)[id] in batch || (id in byId && Noted(byId, batch)[id] == byId[id])
  {
    if batch != [] {
      var last := batch[|batch| - 1];
      if last.chunk.id != id { NotedComesFrom(byId, batch[..|batch| - 1], id); }
      assert batch == batch[..|batch| - 1] + [last];
    }
  }

  /** A hit gathered comes from some owner's batch. */
  lemma {:induction false} GatheredWasOffered(count: Counter, groups: seq<Group>, hits: seq<Hit>, budget: Option<int>, byId: map<int, Hit>, id: int)
    requires Gathered(count, groups, hits, budget, byId).Ok? && id in Gathered(count, groups, hits, budget, byId).value
    ensures var h := Gathered(count, groups, hits, budget, byId).value[id];
            (id in byId && h == byId[id]) || h.context in Offered(count, groups, hits, budget)
    decreases |groups|
  {
    if groups != [] {
      var selected := Selected(groups[0], hits);
      if selected == [] {
        GatheredWasOffered(count, groups[1..], hits, budget, byId, id);
      } else {
        var batch := Expanded(groups[0], selected, budget).value;
        var left := Left(count, budget, batch);
        GatheredWasOffered(count, groups[1..], hits, left, Noted(byId, batch), id);
        if id in Noted(byId, batch) {
          NotedComesFrom(byId, batch, id);
          var h := Noted(byId, batch)[id];
          if h in batch {
            var k :| 0 <= k < |batch| && batch[k] == h;
            assert Contexts(batch)[k] == h.context;
          }
        }
      }
    }
  }

  /** The distinct contexts of an answer cost no more than the owners were charged. */
  lemma AnswerCostsWhatIsSpent(count: Counter, groups: seq<Group>, hits: seq<Hit>, budget: Option<int>)
    requires Finished(count, groups, hits, budget).Ok?
    requires Coherent(Offered(count, groups, hits, budget)) && forall h :: h in hits ==> h.context.None?
    ensures ContextTokens(count, Contexts(Finished(count, groups, hits, budget).value), {}) <= Spent(count, groups, hits, budget)
  {
    var out := Finished(count, groups, hits, budget).value;
    var all := Offered(count, groups, hits, budget);
    forall c | c in Contexts(out) && c.Some? ensures c in all {
      var k :| 0 <= k < |out| && out[k].context == c;
      assert hits[k] in hits;
      GatheredWasOffered(count, groups, hits, budget, map[], hits[k].chunk.id);
    }
    SomeCostLess(count, Contexts(out), all, {});
    OfferedIsSpent(count, groups, hits, budget);
  }

  /** The distinct contexts of an answer, over all owners, cost no more than its one budget. */
  lemma AnswerStaysWithinBudget(count: Counter, groups: seq<Group>, hits: seq<Hit>, budget: Option<int>)
    requires budget.Some? && Finished(count, groups, hits, budget).Ok?
    requires forall k :: 0 <= k < |groups| ==> Thrifty(count, groups[k], hits)
    requires Coherent(Offered(count, groups, hits, budget)) && forall h :: h in hits ==> h.context.None?
    ensures ContextTokens(count, Contexts(Finished(count, groups, hits, budget).value), {}) <= StartingBudget(budget)
  {
    AnswerCostsWhatIsSpent(count, groups, hits, budget);
    OwnersShareTheBudget(count, groups, hits, budget);
  }

  // ---------------------------------------------------------------- the answer's contexts, from the database

  /** Rows are told apart by their primary keys, whichever owner's query fetched them. */
  ghost predicate OneStore(sources: seq<Source>)
  {
    && (forall s | s in sources && s.Indexed? :: Fetched(s.tree))
    && (forall s, u | s in sources && u in sources && s.Indexed? && u.Indexed? :: SameRows(s.tree, u.tree))
  }

  ghost predicate SameRows(t: Tree, u: Tree)
  {
    forall a, b | a in Rows(t) && b in Rows(u) && a.id == b.id :: a.text == b.text
  }

  /** Where an offered context comes from. */
  ghost predicate FromRows(c: Context, sources: seq<Source>)
  {
    exists s | s in sources :: s.Indexed? && IsPaid(c, Rows(s.tree))
  }

  lemma BatchIsFromRows(count: Counter, threshold: real, s: Source, hits: seq<Hit>, budget: Option<int>, c: Context)
    requires s.Indexed? ==> Fetched(s.tree)
    requires forall h | h in hits :: h.context.None?
    requires var g := GroupOf(count, threshold, s);
      Expanded(g, Selected(g, hits), budget).Ok? && Some(c) in Contexts(Expanded(g, Selected(g, hits), budget).value)
    ensures s.Indexed? && IsPaid(c, Rows(s.tree))
  {
    var g := GroupOf(count, threshold, s);
    var selected := Selected(g, hits);
    SelectedAreOwned(g, hits);
    if s.Indexed? {
      MergedContextsAreRows(s.tree, s.rows, count, threshold, selected, selected, Purse(StartingBudget(budget), []));
    }
  }

  lemma {:induction false} OfferedAreFromRows(count: Counter, threshold: real, sources: seq<Source>, hits: seq<Hit>,
                                              budget: Option<int>, c: Context)
    requires forall s | s in sources && s.Indexed? :: Fetched(s.tree)
    requires forall h | h in hits :: h.context.None?
    requires Some(c) in Offered(count, Groups(count, threshold, sources), hits, budget)
    ensures FromRows(c, sources)
    decreases |sources|
  {
    var groups := Groups(count, threshold, sources);
    var selected := Selected(groups[0], hits);
    assert groups[1..] == Groups(count, threshold, sources[1..]);
    assert sources[0] in sources && forall s | s in sources[1..] :: s in sources;
    if selected == [] {
      OfferedAreFromRows(count, threshold, sources[1..], hits, budget, c);
    } else {
      var batch := Expanded(groups[0], selected, budget).value;
      if Some(c) in Contexts(batch) {
        BatchIsFromRows(count, threshold, sources[0], hits, budget, c);
      } else {
        OfferedAreFromRows(count, threshold, sources[1..], hits, Left(count, budget, batch), c);
      }
    }
  }

  lemma OfferedAreCoherent(count: Counter, threshold: real, sources: seq<Source>, hits: seq<Hit>, budget: Option<int>)
    requires OneStore(sources) && forall h | h in hits :: h.context.None?
    ensures Coherent(Offered(count, Groups(count, threshold, sources), hits, budget))
  {
    var all := Offered(count, Groups(count, threshold, sources), hits, budget);
    forall i, k | 0 <= i < |all| && 0 <= k < |all| ensures Agree(all[i], all[k]) {
      if all[i].Some? && all[k].Some? && all[i].value.node == all[k].value.node {
        OfferedAreFromRows(count, threshold, sources, hits, budget, all[i].value);
        OfferedAreFromRows(count, threshold, sources, hits, budget, all[k].value);
        var s :| s in sources && s.Indexed? && IsPaid(all[i].value, Rows(s.tree));
        var u :| u in sources && u.Indexed? && IsPaid(all[k].value, Rows(u.tree));
        assert SameRows(s.tree, u.tree);
      }
    }
  }

  /** The answer of owners whose documents are indexed, or whose hits stay as they are: its
      distinct contexts, over all owners, never cost more than the one budget of the question;
      without one, never more than the default for each owner. */
  lemma IndexedAnswerStaysWithinBudget(count: Counter, threshold: real, sources: seq<Source>, hits: seq<Hit>, budget: Option<int>)
    requires Finished(count, Groups(count, threshold, sources), hits, budget).Ok?
    requires OneStore(sources) && forall h | h in hits :: h.context.None?
    ensures var out := Finished(count, Groups(count, threshold, sources), hits, budget).value;
      ContextTokens(count, Contexts(out), {})
        <= if budget.Some? then StartingBudget(budget) else DEFAULT_BUDGET * |sources|
  {
    var groups := Groups(count, threshold, sources);
    forall k | 0 <= k < |groups| ensures Thrifty(count, groups[k], hits) {
      assert sources[k] in sources;
      MergingIsThrifty(count, threshold, sources[k], hits);
    }
    OfferedAreCoherent(count, threshold, sources, hits, budget);
    AnswerCostsWhatIsSpent(count, groups, hits, budget);
    if budget.Some? { OwnersShareTheBudget(count, groups, hits, budget); }
    else { OwnersWithoutABudget(count, groups, hits); }
  }

  // ---------------------------------------------------------------- the checks never reject a merge

  /** A hit before and after: the same evidence, and no context without the chunk. */
  predicate Kept(before: Hit, after: Hit)
  {
    SameEvidence(before, after) && (after.context.Some? ==> before.chunk in after.context.value.children)
  }

  ghost predicate AllKept(hits: seq<Hit>, byId: map<int, Hit>)
  {
    forall id | id in byId :: exists h | h in hits :: h.chunk.id == id && Kept(h, byId[id])
  }

  /** The hits of an indexed owner are leaves of the tree fetched for it. */
  ghost predicate OnLeaves(s: Source, hits: seq<Hit>)
  {
    s.Indexed? ==>
      Fetched(s.tree) && forall h | h in hits && h.chunk.owner in s.owners :: exists n :: n in s.tree.leaves && n.id == h.chunk.id
  }

  lemma BatchIsKept(count: Counter, threshold: real, s: Source, hits: seq<Hit>, budget: Option<int>)
    requires OnLeaves(s, hits) && forall h | h in hits :: h.context.None?
    requires Expanded(GroupOf(count, threshold, s), Selected(GroupOf(count, threshold, s), hits), budget).Ok?
    ensures var g := GroupOf(count, threshold, s);
      var batch := Expanded(g, Selected(g, hits), budget).value;
      SameChunks(Selected(g, hits), batch) && Preserved(Selected(g, hits), batch)
  {
    var g := GroupOf(count, threshold, s);
    var selected := Selected(g, hits);
    SelectedAreOwned(g, hits);
    if s.Indexed? {
      MergedLeavesPass(count, s.tree, s.rows, selected, threshold, budget);
    } else {
      forall k | 0 <= k < |selected| ensures selected[k].context.None? { assert selected[k] in selected; }
    }
  }

  lemma {:induction false} NotedKeeps(hits: seq<Hit>, byId: map<int, Hit>, selected: seq<Hit>, batch: seq<Hit>)
    requires AllKept(hits, byId) && Preserved(selected, batch) && forall h | h in selected :: h in hits
    ensures AllKept(hits, Noted(byId, batch))
    ensures byId.Keys <= Noted(byId, batch).Keys && forall h | h in selected :: h.chunk.id in Noted(byId, batch)
  {
    if batch != [] {
      var last := |batch| - 1;
      assert Preserved(selected[..last], batch[..last]);
      NotedKeeps(hits, byId, selected[..last], batch[..last]);
      assert selected == selected[..last] + [selected[last]];
      assert selected[last] in selected && Kept(selected[last], batch[last]);
    }
  }

  /** What the loop over owners gathers is kept evidence, and covers every owned hit; it ends
      otherwise only at the deadline or at an inconsistent hierarchy. */
  lemma {:induction false} GatheredIsKept(count: Counter, threshold: real, sources: seq<Source>, hits: seq<Hit>,
                                          budget: Option<int>, byId: map<int, Hit>)
    requires (forall s | s in sources :: OnLeaves(s, hits)) && (forall h | h in hits :: h.context.None?)
    requires AllKept(hits, byId)
    ensures var r := Gathered(count, Groups(count, threshold, sources), hits, budget, byId);
      if r.Raised? then r.code == AgentTimeout || r.code == HierarchyScopeMismatch
      else AllKept(hits, r.value) && byId.Keys <= r.value.Keys
           && forall s, h | s in sources && h in hits && h.chunk.owner in s.owners :: h.chunk.id in r.value
    decreases |sources|
  {
    if sources != [] {
      var groups := Groups(count, threshold, sources);
      var g := groups[0];
      var selected := Selected(g, hits);
      SelectedAreOwned(g, hits);
      assert groups[1..] == Groups(count, threshold, sources[1..]);
      assert sources == [sources[0]] + sources[1..];
      if selected == [] {
        GatheredIsKept(count, threshold, sources[1..], hits, budget, byId);
      } else {
        var batch := Expanded(g, selected, budget);
        if !g.late && batch.Ok? {
          BatchIsKept(count, threshold, sources[0], hits, budget);
          NotedKeeps(hits, byId, selected, batch.value);
          GatheredIsKept(count, threshold, sources[1..], hits, Left(count, budget, batch.value), Noted(byId, batch.value));
        }
      }
    }
  }

  /** Hits on indexed leaves, one a chunk, are never rejected by the final checks and never
      missed: the answer is produced, unless the deadline passes or the hierarchy is found
      inconsistent. */
  lemma IndexedAnswerIsAccepted(count: Counter, threshold: real, sources: seq<Source>, hits: seq<Hit>, budget: Option<int>)
    requires (forall s | s in sources :: OnLeaves(s, hits)) && (forall h | h in hits :: h.context.None?)
    requires forall i, k | 0 <= i < k < |hits| :: hits[i].chunk.id != hits[k].chunk.id
    requires forall h | h in hits :: exists s | s in sources :: h.chunk.owner in s.owners
    ensures var r := Finished(count, Groups(count, threshold, sources), hits, budget);
      if r.Ok? then Preserved(hits, r.value) else r.code == AgentTimeout || r.code == HierarchyScopeMismatch
  {
    var groups := Groups(count, threshold, sources);
    GatheredIsKept(count, threshold, sources, hits, budget, map[]);
    var gathered := Gathered(count, groups, hits, budget, map[]);
    if gathered.Ok? {
      AssembledIsKept(hits, gathered.value);
    }
    if Finished(count, groups, hits, budget).Ok? { EvidenceIsPreserved(count, groups, hits, budget); }
  }

  lemma AssembledIsKept(hits: seq<Hit>, byId: map<int, Hit>)
    requires AllKept(hits, byId) && forall h | h in hits :: h.chunk.id in byId
    requires forall i, k | 0 <= i < k < |hits| :: hits[i].chunk.id != hits[k].chunk.id
    ensures Assembled(hits, byId).Ok? && Preserved(hits, Assembled(hits, byId).value)
  {
    forall k | 0 <= k < |hits| ensures Kept(hits[k], byId[hits[k].chunk.id]) {
      assert hits[k] in hits;
      var h :| h in hits && h.chunk.id == hits[k].chunk.id && Kept(h, byId[hits[k].chunk.id]);
      var i :| 0 <= i < |hits| && hits[i] == h;
      assert i == k;
    }
  }

  // ---------------------------------------------------------------- as loops

  /** What the reranker makes of the best candidates, or the best themselves. */
  type Reranker = Option<seq<Hit> -> seq<Hit>>

  function Best(hits: seq<Hit>, n: nat): seq<Hit> { if |hits| <= n then hits else hits[..n] }

  function Ranked(rerank: Reranker, unique: seq<Hit>, topK: nat): seq<Hit>
  {
    if rerank.Some? && unique != [] then rerank.value(Best(unique, 2 * topK)) else Best(unique, topK)
  }

  method Deduplicate(anchor: Anchor, hits: seq<Hit>) returns (unique: seq<Hit>)
    ensures unique == Unique(anchor, hits)
  {
    unique := [];
    var seen: set<Key> := {};
    for i := 0 to |hits|
      invariant unique == Unique(anchor, hits[..i])
      invariant forall k :: k in seen <==> Keyed(anchor, unique, k)
    {
      assert hits[..i + 1][..i] == hits[..i];
      var text := Squeezed(hits[i].chunk.content);
      var key := KeyOf(anchor, hits[i].chunk);
      if text != "" && key !in seen {
        KeyedGrows(anchor, unique, hits[i]);
        seen := seen + {key};
        unique := unique + [hits[i]];
      }
    }
    assert hits[..|hits|] == hits;
  }

  lemma KeyedGrows(anchor: Anchor, hits: seq<Hit>, h: Hit)
    ensures forall k :: Keyed(anchor, hits + [h], k) <==> Keyed(anchor, hits, k) || k == KeyOf(anchor, h.chunk)
  {
    forall k ensures Keyed(anchor, hits + [h], k) <==> Keyed(anchor, hits, k) || k == KeyOf(anchor, h.chunk) {
      if Keyed(anchor, hits, k) {
        var g :| g in hits && KeyOf(anchor, g.chunk) == k;
        assert g in hits + [h];
      }
      if k == KeyOf(anchor, h.chunk) { assert h in hits + [h]; }
    }
  }

  method Select(g: Group, hits: seq<Hit>) returns (selected: seq<Hit>)
    ensures selected == Selected(g, hits)
  {
    selected := [];
    for i := 0 to |hits|
      invariant selected == Selected(g, hits[..i])
    {
      assert hits[..i + 1][..i] == hits[..i];
      if hits[i].chunk.owner in g.owners { selected := selected + [hits[i]]; }
    }
    assert hits[..|hits|] == hits;
  }

  /** The loop over owners; the budget left over passes from one to the next. */
  method ExpandOwners(count: Counter, groups: seq<Group>, hits: seq<Hit>, tokens: Option<int>) returns (r: Outcome<map<int, Hit>>)
    ensures r == Gathered(count, groups, hits, tokens, map[])
  {
    var byId: map<int, Hit> := map[];
    var budget := tokens;
    for i := 0 to |groups|
      invariant Gathered(count, groups, hits, tokens, map[]) == Gathered(count, groups[i..], hits, budget, byId)
    {
      assert groups[i..][1..] == groups[i + 1..];
      var selected := Select(groups[i], hits);
      if selected != [] {
        if groups[i].late { return Raised(AgentTimeout); }
        var batch := Expanded(groups[i], selected, budget);
        if batch.Raised? { return Raised(batch.code); }
        if budget.Some? {
          var left := budget.value - ContextTokens(count, Contexts(batch.value), {});
          budget := Some(if left < 0 then 0 else left);
        }
        if !SameChunks(selected, batch.value) { return Raised(VectorScopeMismatch); }
        byId := Noted(byId, batch.value);
      }
    }
    return Ok(byId);
  }

  /** `_finish`. */
  method Finish(anchor: Anchor, count: Counter, rerank: Reranker, hits: seq<Hit>, topK: nat, groups: seq<Group>, tokens: Option<int>)
    returns (r: Outcome<seq<Hit>>)
    ensures r == Finished(count, groups, Ranked(rerank, Unique(anchor, hits), topK), tokens)
  {
    var unique := Deduplicate(anchor, hits);
    if rerank.Some? && unique != [] {
      unique := rerank.value(Best(unique, 2 * topK));
    } else {
      unique := Best(unique, topK);
    }
    if AllPlain(groups) || unique == [] { return Ok(unique); }
    var expanded := ExpandOwners(count, groups, unique, tokens);
    if expanded.Raised? {
      if Tolerated(expanded.code) { return Ok(Warned(unique, expanded.code)); }
      return Raised(expanded.code);
    }
    var assembled := Assembled(unique, expanded.value);
    if assembled.Ok? && !Preserved(unique, assembled.value) { return Raised(VectorScopeMismatch); }
    return assembled;
  }
}
