/** Which ancestor each hit is merged into, and what that guarantees.
    app/manager/hierarchy.py:143-213. */
module HierarchyMerge {
  import opened Outcomes
  import opened HierarchyTree

  // ---------------------------------------------------------------- coverage

  /** The leaves that were hit. */
  function Matched(t: Tree, hits: seq<Hit>): set<int>
  {
    set n, h | n in t.leaves && h in hits && h.chunk.id == n.id :: n.id
  }

  function Share(rows: seq<Node>, among: set<int>): nat
  {
    if rows == [] then 0
    else Share(rows[..|rows| - 1], among) + (if rows[|rows| - 1].id in among then 1 else 0)
  }

  /** `count / len(rows) >= threshold`, for rows that are not empty. */
  predicate Covered(rows: seq<Node>, among: set<int>, threshold: real)
  {
    rows != [] && Share(rows, among) as real >= threshold * |rows| as real
  }

  /** The rows whose children are covered. */
  function CoveredIds(t: Tree, rows: seq<Node>, among: set<int>, threshold: real): set<int>
  {
    if rows == [] then {}
    else
      var last := rows[|rows| - 1];
      CoveredIds(t, rows[..|rows| - 1], among, threshold) +
        (if Covered(Children(t, last.id), among, threshold) then {last.id} else {})
  }

  function EligibleParents(t: Tree, matched: set<int>, threshold: real): set<int>
  {
    CoveredIds(t, t.siblings, matched, threshold)
  }

  function EligibleRoots(t: Tree, parents: set<int>, threshold: real): set<int>
  {
    CoveredIds(t, t.roots, parents, threshold)
  }

  lemma {:induction false} CoveredIdsAre(t: Tree, rows: seq<Node>, among: set<int>, threshold: real, id: int)
    ensures id in CoveredIds(t, rows, among, threshold) <==>
              exists n :: n in rows && n.id == id && Covered(Children(t, n.id), among, threshold)
  {
    if rows != [] {
      var front := rows[..|rows| - 1];
      CoveredIdsAre(t, front, among, threshold, id);
      assert rows == front + [rows[|rows| - 1]];
    }
  }

  /** The set as the loops leave it: roots are counted against the parents, never against roots. */
  function Eligible(t: Tree, hits: seq<Hit>, threshold: real): set<int>
  {
    var parents := EligibleParents(t, Matched(t, hits), threshold);
    parents + EligibleRoots(t, parents, threshold)
  }

  // ---------------------------------------------------------------- choosing

  /** What is left of the budget, and the ancestors paid for in the order they were. */
  datatype Purse = Purse(left: int, paid: seq<Node>)

  datatype Choice = Choice(node: Option<Node>, status: Status, purse: Purse)

  predicate Charged(p: Purse, id: int) { exists n | n in p.paid :: n.id == id }

  /** An ancestor that may be chosen with what is in the purse. */
  predicate Takable(t: Tree, count: Counter, eligible: set<int>, a: Node, p: Purse)
  {
    a.id in eligible && Mergeable(t, a) && (Charged(p, a.id) || count(a.text) <= p.left)
  }

  function Paying(count: Counter, a: Node, p: Purse): Purse
  {
    if Charged(p, a.id) then p else Purse(p.left - count(a.text), p.paid + [a])
  }

  /** One candidate: taken when it was paid for already or still fits. */
  function Try(t: Tree, count: Counter, eligible: set<int>, candidate: Option<Node>, c: Choice): Choice
  {
    if c.node.Some? || candidate.None? || candidate.value.id !in eligible || !Mergeable(t, candidate.value) then c
    else if Takable(t, count, eligible, candidate.value, c.purse)
    then Choice(candidate, Merged, Paying(count, candidate.value, c.purse))
    else c.(status := OverBudget)
  }

  function Lookup(t: Tree, id: Option<int>): Option<Node>
  {
    if id.Some? && id.value in ById(Rows(t)) then Some(ById(Rows(t))[id.value]) else None
  }

  function ParentOf(t: Tree, n: Option<Node>): Option<Node>
  {
    if n.Some? then Lookup(t, n.value.parent) else None
  }

  /** The root is tried first, then the parent. */
  function Choose(t: Tree, count: Counter, eligible: set<int>, h: Hit, purse: Purse): Choice
  {
    var leaf := Lookup(t, Some(h.chunk.id));
    if leaf.None? then Choice(None, Stale, purse)
    else
      var parent := ParentOf(t, leaf);
      Try(t, count, eligible, parent, Try(t, count, eligible, ParentOf(t, parent), Choice(None, Coverage, purse)))
  }

  function Warning(s: Status): Option<ErrorCode>
  {
    match s
    case Stale => Some(HierarchyStale)
    case OverBudget => Some(ParentContextBudgetExceeded)
    case _ => None
  }

  /** The hit with the ancestor chosen, its warning and its trace. */
  function Enriched(t: Tree, hits: seq<Hit>, threshold: real, h: Hit, c: Choice): Hit
  {
    var selected := if c.node.Some? then c.node else ParentOf(t, Lookup(t, Some(h.chunk.id)));
    var children := if selected.Some? then Children(t, selected.value.id) else [];
    var among := if selected.Some? && selected.value.level == 2 then Matched(t, hits) else Eligible(t, hits, threshold);
    h.(context := if c.node.Some? then Some(ContextOf(t, c.node.value)) else None,
       warning := Warning(c.status),
       trace := Some(Trace(h.chunk.id, c.status, if c.node.Some? then c.node.value.level else 3,
                           if c.node.Some? then c.node.value.id else h.chunk.id, Share(children, among), |children|)))
  }

  /** The hits from `k` on, merged in turn. */
  function Choices(t: Tree, count: Counter, eligible: set<int>, hits: seq<Hit>, purse: Purse): seq<Choice>
    decreases |hits|
  {
    if hits == [] then []
    else
      var c := Choose(t, count, eligible, hits[0], purse);
      [c] + Choices(t, count, eligible, hits[1..], c.purse)
  }

  // ---------------------------------------------------------------- eligibility

  lemma {:induction false} ShareGrows(rows: seq<Node>, some: set<int>, more: set<int>)
    requires some <= more
    ensures Share(rows, some) <= Share(rows, more) <= |rows|
  {
    if rows != [] { ShareGrows(rows[..|rows| - 1], some, more); }
  }

  lemma CoverageGrows(rows: seq<Node>, some: set<int>, more: set<int>, threshold: real)
    requires some <= more && Covered(rows, some, threshold)
    ensures Covered(rows, more, threshold)
  {
    ShareGrows(rows, some, more);
  }

  lemma {:induction false} CoveredIdsGrow(t: Tree, rows: seq<Node>, some: set<int>, more: set<int>, threshold: real)
    requires some <= more
    ensures CoveredIds(t, rows, some, threshold) <= CoveredIds(t, rows, more, threshold)
  {
    if rows != [] {
      CoveredIdsGrow(t, rows[..|rows| - 1], some, more, threshold);
      var id := rows[|rows| - 1].id;
      if Covered(Children(t, id), some, threshold) { CoverageGrows(Children(t, id), some, more, threshold); }
    }
  }

  /** More hits never make an ancestor ineligible. */
  lemma EligibilityIsMonotone(t: Tree, some: seq<Hit>, more: seq<Hit>, threshold: real)
    requires forall h :: h in some ==> h in more
    ensures Eligible(t, some, threshold) <= Eligible(t, more, threshold)
  {
    var a := Matched(t, some);
    var b := Matched(t, more);
    assert a <= b;
    CoveredIdsGrow(t, t.siblings, a, b, threshold);
    CoveredIdsGrow(t, t.roots, EligibleParents(t, a, threshold), EligibleParents(t, b, threshold), threshold);
  }

  /** Eligibility, said without the loops: enough of the children were hit, or are eligible. */
  lemma EligibleExactly(t: Tree, hits: seq<Hit>, threshold: real, id: int)
    ensures var parents := EligibleParents(t, Matched(t, hits), threshold);
            id in Eligible(t, hits, threshold) <==>
              (exists p :: p in t.siblings && p.id == id && Covered(Children(t, p.id), Matched(t, hits), threshold)) ||
              (exists r :: r in t.roots && r.id == id && Covered(Children(t, r.id), parents, threshold))
  {
    CoveredIdsAre(t, t.siblings, Matched(t, hits), threshold, id);
    CoveredIdsAre(t, t.roots, EligibleParents(t, Matched(t, hits), threshold), threshold, id);
  }

  // ---------------------------------------------------------------- the shape of a valid tree

  lemma RowIsItself(t: Tree, n: Node)
    requires Fetched(t) && n in Rows(t)
    ensures n.id in ById(Rows(t)) && ById(Rows(t))[n.id] == n
  {
    ByIdKnows(Rows(t), n.id);
  }

  lemma SiblingsAreParents(t: Tree, selected: seq<Node>, p: Node)
    requires Fetched(t) && Shaped(t, selected) && p in t.siblings
    ensures p.level == 2 && ParentOf(t, Some(p)).Some? && ParentOf(t, Some(p)).value.level == 1
    ensures p in Children(t, ParentOf(t, Some(p)).value.id) && Within(p.text, ParentOf(t, Some(p)).value.text)
  {
    var byId := ById(Rows(t));
    assert p in Linked(t) && Hangs(byId, p);
    assert Placed(Children(t, p.id));
    var c := Children(t, p.id)[0];
    ChildrenAre(Linked(t), p.id, c);
    assert Hangs(byId, c);
    assert p in Rows(t);
    RowIsItself(t, p);
    ByIdKnows(Rows(t), p.parent.value);
    ChildrenAre(Linked(t), p.parent.value, p);
  }

  /** The ancestor exists, the leaf is among its leaves and its text within the ancestor's. */
  predicate Holds(t: Tree, a: Option<Node>, leaf: Node)
  {
    a.Some? && a.value in Rows(t) && a.value.level in {1, 2} && leaf in LeavesOf(t, a.value) && Within(leaf.text, a.value.text)
  }

  /** A leaf hangs below a parent, and that below a root, and their texts hold its text. */
  lemma LeavesHaveAncestors(t: Tree, selected: seq<Node>, leaf: Node)
    requires Fetched(t) && Shaped(t, selected) && leaf in t.leaves
    ensures Lookup(t, Some(leaf.id)) == Some(leaf)
    ensures Holds(t, ParentOf(t, Some(leaf)), leaf) && ParentOf(t, Some(leaf)).value in t.siblings
    ensures Holds(t, ParentOf(t, ParentOf(t, Some(leaf))), leaf)
  {
    assert leaf in Rows(t) && leaf in Linked(t);
    RowIsItself(t, leaf);
    var p :| p in t.siblings && leaf.parent == Some(p.id);
    assert p in Rows(t);
    RowIsItself(t, p);
    SiblingsAreParents(t, selected, p);
    assert Hangs(ById(Rows(t)), leaf);
    ChildrenAre(Linked(t), p.id, leaf);
    var r := ParentOf(t, Some(p)).value;
    ByIdKnows(Rows(t), p.parent.value);
    BelowAre(t, Children(t, r.id), p, leaf);
    WithinJoins(leaf.text, p.text, r.text);
  }

  lemma {:induction false} ShareDepends(rows: seq<Node>, some: set<int>, more: set<int>)
    requires forall n :: n in rows ==> (n.id in some <==> n.id in more)
    ensures Share(rows, some) == Share(rows, more)
  {
    if rows != [] { ShareDepends(rows[..|rows| - 1], some, more); }
  }

  /** Counting a root's children against a set that also holds roots changes nothing. */
  lemma RootsDoNotCount(t: Tree, selected: seq<Node>, r: Node, parents: set<int>, roots: set<int>, threshold: real)
    requires Fetched(t) && Shaped(t, selected) && r in t.roots
    requires forall id :: id in roots ==> exists n :: n in t.roots && n.id == id
    ensures Covered(Children(t, r.id), parents + roots, threshold) <==> Covered(Children(t, r.id), parents, threshold)
  {
    forall n | n in Children(t, r.id) ensures n.id !in roots {
      ChildrenAre(Linked(t), r.id, n);
      assert Hangs(ById(Rows(t)), n);
    }
    ShareDepends(Children(t, r.id), parents + roots, parents);
  }

  // ---------------------------------------------------------------- one choice

  /** The better of the two candidates. */
  function Highest(t: Tree, count: Counter, eligible: set<int>, root: Node, parent: Node, purse: Purse): Option<Node>
  {
    if Takable(t, count, eligible, root, purse) then Some(root)
    else if Takable(t, count, eligible, parent, purse) then Some(parent) else None
  }

  lemma TryingIsHighest(t: Tree, count: Counter, eligible: set<int>, root: Node, parent: Node, purse: Purse)
    ensures var c := Try(t, count, eligible, Some(parent), Try(t, count, eligible, Some(root), Choice(None, Coverage, purse)));
            && c.node == Highest(t, count, eligible, root, parent, purse)
            && c.purse == (if c.node.Some? then Paying(count, c.node.value, purse) else purse)
            && (c.status == Merged <==> c.node.Some?)
  {
  }

  /** The ancestor chosen for a leaf is the root when the root can be taken, the parent when only
      the parent can, and none when neither can; only a new choice is paid for. */
  lemma ChoiceIsHighest(t: Tree, selected: seq<Node>, count: Counter, eligible: set<int>, h: Hit, leaf: Node, purse: Purse)
    requires Fetched(t) && Shaped(t, selected) && leaf in t.leaves && leaf.id == h.chunk.id
    ensures var parent := ParentOf(t, Some(leaf)); var root := ParentOf(t, parent);
            var c := Choose(t, count, eligible, h, purse);
            && parent.Some? && root.Some?
            && c.node == Highest(t, count, eligible, root.value, parent.value, purse)
            && c.purse == (if c.node.Some? then Paying(count, c.node.value, purse) else purse)
            && (c.status == Merged <==> c.node.Some?)
  {
    LeavesHaveAncestors(t, selected, leaf);
    var parent := ParentOf(t, Some(leaf));
    TryingIsHighest(t, count, eligible, ParentOf(t, parent).value, parent.value, purse);
  }

  /** The context chosen for a hit on a leaf contains the very chunk that was hit, and its text
      contains the chunk's. */
  lemma ChosenCovers(t: Tree, selected: seq<Node>, hits: seq<Hit>, count: Counter, eligible: set<int>, h: Hit, leaf: Node, purse: Purse)
    requires Fetched(t) && Valid(t, selected, hits) && h in hits && leaf in t.leaves && leaf.id == h.chunk.id
    requires Choose(t, count, eligible, h, purse).node.Some?
    ensures var a := Choose(t, count, eligible, h, purse).node.value;
            h.chunk in ContextOf(t, a).children && Within(h.chunk.content, a.text)
  {
    ChoiceIsHighest(t, selected, count, eligible, h, leaf, purse);
    LeavesHaveAncestors(t, selected, leaf);
    var a := Choose(t, count, eligible, h, purse).node.value;
    assert Holds(t, Some(a), leaf);
    SortedHolds(LeavesOf(t, a), h.chunk);
  }

  /** Every row below an ancestor is a leaf of the fetch. */
  lemma BelowAreLeaves(t: Tree, selected: seq<Node>, a: Node)
    requires Fetched(t) && Shaped(t, selected) && a in Rows(t) && a.level in {1, 2}
    ensures forall l :: l in LeavesOf(t, a) ==> l in t.leaves
  {
    forall l | l in LeavesOf(t, a) ensures l in t.leaves {
      if a.level == 2 {
        ChildOfParentIsLeaf(t, selected, a, l);
      } else {
        var p := BelowComesFrom(t, Children(t, a.id), l);
        ChildrenAre(Linked(t), a.id, p);
        assert Hangs(ById(Rows(t)), p);
        RowIsItself(t, a);
        ChildOfParentIsLeaf(t, selected, p, l);
      }
    }
  }

  lemma ChildOfParentIsLeaf(t: Tree, selected: seq<Node>, p: Node, l: Node)
    requires Fetched(t) && Shaped(t, selected) && p in Rows(t) && p.level == 2 && l in Children(t, p.id)
    ensures l in t.leaves
  {
    ChildrenAre(Linked(t), p.id, l);
    RowIsItself(t, p);
    assert Hangs(ById(Rows(t)), l);
    if l in t.siblings { SiblingsAreParents(t, selected, l); }
  }

  lemma {:induction false} BelowComesFrom(t: Tree, rows: seq<Node>, l: Node) returns (p: Node)
    requires l in Below(t, rows)
    ensures p in rows && l in Children(t, p.id)
  {
    p := rows[|rows| - 1];
    if l !in Children(t, p.id) { p := BelowComesFrom(t, rows[..|rows| - 1], l); }
  }

  lemma ParentIsAncestor(t: Tree, selected: seq<Node>, n: Node)
    requires Fetched(t) && Shaped(t, selected) && n in Rows(t) && ParentOf(t, Some(n)).Some?
    ensures ParentOf(t, Some(n)).value in Rows(t) && ParentOf(t, Some(n)).value.level in {1, 2}
  {
    ByIdKnows(Rows(t), n.parent.value);
    if n in t.leaves { LeavesHaveAncestors(t, selected, n); }
    else if n in t.siblings { SiblingsAreParents(t, selected, n); }
  }

  /** The two candidates of a choice. */
  predicate Candidate(t: Tree, h: Hit, a: Node)
  {
    var parent := ParentOf(t, Lookup(t, Some(h.chunk.id)));
    parent == Some(a) || ParentOf(t, parent) == Some(a)
  }

  lemma ChosenIsTakable(t: Tree, count: Counter, eligible: set<int>, h: Hit, purse: Purse)
    ensures var c := Choose(t, count, eligible, h, purse);
            if c.node.Some?
            then Candidate(t, h, c.node.value) && Takable(t, count, eligible, c.node.value, purse)
                 && c.purse == Paying(count, c.node.value, purse)
            else c.purse == purse
  {
  }

  lemma CandidateIsAncestor(t: Tree, selected: seq<Node>, h: Hit, a: Node)
    requires Fetched(t) && Shaped(t, selected) && Candidate(t, h, a)
    ensures a in Rows(t) && a.level in {1, 2}
  {
    var n := Lookup(t, Some(h.chunk.id)).value;
    ByIdKnows(Rows(t), h.chunk.id);
    ParentIsAncestor(t, selected, n);
    var p := ParentOf(t, Some(n)).value;
    if ParentOf(t, Some(p)).Some? { ParentIsAncestor(t, selected, p); }
  }

  /** A chosen context contains the chunk that was hit exactly when that chunk is one of the leaves
      fetched; a hit that names an inner row of the tree is merged without being contained. */
  lemma CoversExactlyLeaves(t: Tree, selected: seq<Node>, hits: seq<Hit>, count: Counter, eligible: set<int>, h: Hit, purse: Purse)
    requires Fetched(t) && Valid(t, selected, hits) && h in hits
    requires Choose(t, count, eligible, h, purse).node.Some?
    ensures var a := Choose(t, count, eligible, h, purse).node.value;
            h.chunk in ContextOf(t, a).children <==> exists leaf :: leaf in t.leaves && leaf.id == h.chunk.id
  {
    var a := Choose(t, count, eligible, h, purse).node.value;
    ChosenIsTakable(t, count, eligible, h, purse);
    CandidateIsAncestor(t, selected, h, a);
    BelowAreLeaves(t, selected, a);
    SortedHolds(LeavesOf(t, a), h.chunk);
    forall leaf | leaf in t.leaves && leaf.id == h.chunk.id ensures h.chunk in ContextOf(t, a).children {
      ChosenCovers(t, selected, hits, count, eligible, h, leaf, purse);
    }
  }

  // ---------------------------------------------------------------- the budget

  /** What the paid ancestors outside `known` cost. */
  function Cost(count: Counter, paid: seq<Node>, known: set<int>): nat
  {
    if paid == [] then 0
    else Cost(count, paid[..|paid| - 1], known) +
         (if paid[|paid| - 1].id in known then 0 else count(paid[|paid| - 1].text))
  }

  /** The purse still balances, and has never been overdrawn. */
  ghost predicate Balanced(count: Counter, budget: int, p: Purse)
  {
    p.left >= 0 && Cost(count, p.paid, {}) + p.left == budget
  }

  lemma PayingBalances(count: Counter, budget: int, a: Node, p: Purse)
    requires Balanced(count, budget, p) && (Charged(p, a.id) || count(a.text) <= p.left)
    ensures Balanced(count, budget, Paying(count, a, p))
  {
    assert (p.paid + [a])[..|p.paid|] == p.paid;
  }

  /** The tokens of the distinct contexts of the hits, as the retriever counts them afterwards: the
      last context of each identity, once. */
  function ContextTokens(count: Counter, contexts: seq<Option<Context>>, known: set<int>): nat
  {
    if contexts == [] then 0
    else
      var last := contexts[|contexts| - 1];
      var front := contexts[..|contexts| - 1];
      if last.None? || last.value.node in known then ContextTokens(count, front, known)
      else count(last.value.text) + ContextTokens(count, front, known + {last.value.node})
  }

  /** Every context given out is of an ancestor that was paid for. */
  ghost predicate AllPaid(contexts: seq<Option<Context>>, paid: seq<Node>)
  {
    forall k :: 0 <= k < |contexts| && contexts[k].Some? ==> IsPaid(contexts[k].value, paid)
  }

  predicate IsPaid(c: Context, paid: seq<Node>) { exists n | n in paid :: n.id == c.node && n.text == c.text }

  lemma {:induction false} CostDrops(count: Counter, paid: seq<Node>, known: set<int>, n: Node)
    ensures Cost(count, paid, known + {n.id}) <= Cost(count, paid, known)
    ensures n in paid && n.id !in known ==> Cost(count, paid, known + {n.id}) + count(n.text) <= Cost(count, paid, known)
  {
    if paid != [] {
      CostDrops(count, paid[..|paid| - 1], known, n);
      assert paid == paid[..|paid| - 1] + [paid[|paid| - 1]];
    }
  }

  lemma {:induction false} TokensWithinCost(count: Counter, contexts: seq<Option<Context>>, paid: seq<Node>, known: set<int>)
    requires AllPaid(contexts, paid)
    ensures ContextTokens(count, contexts, known) <= Cost(count, paid, known)
  {
    if contexts != [] {
      var last := contexts[|contexts| - 1];
      var front := contexts[..|contexts| - 1];
      assert forall k :: 0 <= k < |front| ==> front[k] == contexts[k];
      if last.None? || last.value.node in known {
        TokensWithinCost(count, front, paid, known);
      } else {
        var n :| n in paid && n.id == last.value.node && n.text == last.value.text;
        TokensWithinCost(count, front, paid, known + {n.id});
        CostDrops(count, paid, known, n);
      }
    }
  }

  // ---------------------------------------------------------------- the whole merge

  function StartingBudget(tokens: Option<int>): nat
  {
    if tokens.None? then DEFAULT_BUDGET else if tokens.value < 0 then 0 else tokens.value
  }

  /** The hits merged in turn: the enriched hits, and the purse at the end. */
  function MergeFrom(t: Tree, count: Counter, threshold: real, all: seq<Hit>, hits: seq<Hit>, purse: Purse): (seq<Hit>, Purse)
    decreases |hits|
  {
    if hits == [] then ([], purse)
    else
      var c := Choose(t, count, Eligible(t, all, threshold), hits[0], purse);
      var rest := MergeFrom(t, count, threshold, all, hits[1..], c.purse);
      ([Enriched(t, all, threshold, hits[0], c)] + rest.0, rest.1)
  }

  function Merge(t: Tree, selected: seq<Node>, hits: seq<Hit>, count: Counter, threshold: real, tokens: Option<int>): Outcome<seq<Hit>>
  {
    if !Valid(t, selected, hits) then Raised(HierarchyScopeMismatch)
    else Ok(MergeFrom(t, count, threshold, hits, hits, Purse(StartingBudget(tokens), [])).0)
  }

  /** The evidence of a hit: everything expansion must leave alone. */
  predicate SameEvidence(a: Hit, b: Hit) { a.chunk == b.chunk && a.score == b.score && a.rerank == b.rerank }

  function Contexts(hits: seq<Hit>): seq<Option<Context>> { seq(|hits|, k requires 0 <= k < |hits| => hits[k].context) }

  /** A hit before and after: the same evidence, in a context that holds it. */
  ghost predicate Faithful(t: Tree, before: Hit, after: Hit)
  {
    && SameEvidence(before, after)
    && (after.context.Some? && (exists leaf :: leaf in t.leaves && leaf.id == before.chunk.id) ==>
          before.chunk in after.context.value.children && Within(before.chunk.content, after.context.value.text))
  }

  lemma EnrichedIsFaithful(t: Tree, selected: seq<Node>, count: Counter, threshold: real, all: seq<Hit>, h: Hit, purse: Purse)
    requires Fetched(t) && Valid(t, selected, all) && h in all
    ensures Faithful(t, h, Enriched(t, all, threshold, h, Choose(t, count, Eligible(t, all, threshold), h, purse)))
  {
    var eligible := Eligible(t, all, threshold);
    if Choose(t, count, eligible, h, purse).node.Some? && exists leaf :: leaf in t.leaves && leaf.id == h.chunk.id {
      var leaf :| leaf in t.leaves && leaf.id == h.chunk.id;
      ChosenCovers(t, selected, all, count, eligible, h, leaf, purse);
    }
  }

  ghost predicate AllFaithful(t: Tree, before: seq<Hit>, after: seq<Hit>)
  {
    |after| == |before| && forall k :: 0 <= k < |before| ==> Faithful(t, before[k], after[k])
  }

  lemma FaithfulJoins(t: Tree, hits: seq<Hit>, first: Hit, rest: seq<Hit>)
    requires hits != [] && Faithful(t, hits[0], first) && AllFaithful(t, hits[1..], rest)
    ensures AllFaithful(t, hits, [first] + rest)
  {
    var out := [first] + rest;
    forall k | 0 <= k < |hits| ensures Faithful(t, hits[k], out[k]) {
      if k > 0 { assert hits[k] == hits[1..][k - 1] && out[k] == rest[k - 1]; }
    }
  }

  /** A merge keeps the hits in order with their evidence, each in a context that holds it. */
  lemma {:induction false} MergeIsFaithful(t: Tree, selected: seq<Node>, count: Counter, threshold: real, all: seq<Hit>, hits: seq<Hit>, purse: Purse)
    requires Fetched(t) && Valid(t, selected, all) && forall h :: h in hits ==> h in all
    ensures AllFaithful(t, hits, MergeFrom(t, count, threshold, all, hits, purse).0)
    decreases |hits|
  {
    if hits != [] {
      EnrichedIsFaithful(t, selected, count, threshold, all, hits[0], purse);
      var c := Choose(t, count, Eligible(t, all, threshold), hits[0], purse);
      MergeIsFaithful(t, selected, count, threshold, all, hits[1..], c.purse);
      FaithfulJoins(t, hits, Enriched(t, all, threshold, hits[0], c), MergeFrom(t, count, threshold, all, hits[1..], c.purse).0);
    }
  }

  ghost predicate PaidRows(t: Tree, p: Purse) { forall n :: n in p.paid ==> n in Rows(t) }

  /** The ancestor chosen is one that was paid for, now or earlier. */
  lemma ChosenIsPaid(t: Tree, selected: seq<Node>, count: Counter, eligible: set<int>, h: Hit, purse: Purse, budget: int)
    requires Fetched(t) && Shaped(t, selected) && PaidRows(t, purse) && Balanced(count, budget, purse)
    ensures var c := Choose(t, count, eligible, h, purse);
            && PaidRows(t, c.purse) && Balanced(count, budget, c.purse) && purse.paid <= c.purse.paid
            && (c.node.Some? ==> IsPaid(ContextOf(t, c.node.value), c.purse.paid))
  {
    var c := Choose(t, count, eligible, h, purse);
    ChosenIsTakable(t, count, eligible, h, purse);
    if c.node.Some? {
      var a := c.node.value;
      CandidateIsAncestor(t, selected, h, a);
      PayingBalances(count, budget, a, purse);
      if Charged(purse, a.id) {
        var n :| n in purse.paid && n.id == a.id;
        assert n == a;
      } else {
        assert a in c.purse.paid;
      }
    }
  }

  /** From the purse `before`, hits came out with every context paid for and the books balanced. */
  ghost predicate Squared(count: Counter, budget: int, before: Purse, out: seq<Hit>, after: Purse)
  {
    Balanced(count, budget, after) && before.paid <= after.paid && AllPaid(Contexts(out), after.paid)
  }

  lemma SquaredJoins(count: Counter, budget: int, p: Purse, first: Hit, q: Purse, rest: seq<Hit>, r: Purse)
    requires p.paid <= q.paid && (first.context.Some? ==> IsPaid(first.context.value, q.paid))
    requires Squared(count, budget, q, rest, r)
    ensures Squared(count, budget, p, [first] + rest, r)
  {
    var contexts := Contexts([first] + rest);
    forall k | 0 <= k < |contexts| && contexts[k].Some? ensures IsPaid(contexts[k].value, r.paid) {
      if k == 0 {
        var n :| n in q.paid && n.id == first.context.value.node && n.text == first.context.value.text;
        assert n in r.paid;
      } else {
        assert contexts[k] == Contexts(rest)[k - 1];
      }
    }
  }

  /** However the hits are merged, what the contexts given out cost is taken from the budget once
      each, and the budget is never overdrawn. */
  lemma {:induction false} MergeBalances(t: Tree, selected: seq<Node>, count: Counter, threshold: real, all: seq<Hit>, hits: seq<Hit>, purse: Purse, budget: int)
    requires Fetched(t) && Shaped(t, selected) && PaidRows(t, purse) && Balanced(count, budget, purse)
    ensures Squared(count, budget, purse, MergeFrom(t, count, threshold, all, hits, purse).0,
                    MergeFrom(t, count, threshold, all, hits, purse).1)
    decreases |hits|
  {
    if hits != [] {
      var eligible := Eligible(t, all, threshold);
      var c := Choose(t, count, eligible, hits[0], purse);
      ChosenIsPaid(t, selected, count, eligible, hits[0], purse, budget);
      MergeBalances(t, selected, count, threshold, all, hits[1..], c.purse, budget);
      var rest := MergeFrom(t, count, threshold, all, hits[1..], c.purse);
      SquaredJoins(count, budget, purse, Enriched(t, all, threshold, hits[0], c), c.purse, rest.0, rest.1);
    }
  }

  /** The distinct contexts a merge gives out never cost more than its budget. */
  lemma MergeStaysWithinBudget(t: Tree, selected: seq<Node>, hits: seq<Hit>, count: Counter, threshold: real, tokens: Option<int>)
    requires Fetched(t) && Merge(t, selected, hits, count, threshold, tokens).Ok?
    ensures var out := Merge(t, selected, hits, count, threshold, tokens).value;
            ContextTokens(count, Contexts(out), {}) <= StartingBudget(tokens)
  {
    var purse := Purse(StartingBudget(tokens), []);
    MergeBalances(t, selected, count, threshold, hits, hits, purse, StartingBudget(tokens));
    var m := MergeFrom(t, count, threshold, hits, hits, purse);
    TokensWithinCost(count, Contexts(m.0), m.1.paid, {});
  }

  lemma ContextsJoin(t: Tree, first: Hit, rest: seq<Hit>)
    requires first.context.Some? ==> IsPaid(first.context.value, Rows(t))
    requires AllPaid(Contexts(rest), Rows(t))
    ensures AllPaid(Contexts([first] + rest), Rows(t))
  {
    var contexts := Contexts([first] + rest);
    forall k | 0 <= k < |contexts| && contexts[k].Some? ensures IsPaid(contexts[k].value, Rows(t)) {
      if k > 0 { assert contexts[k] == Contexts(rest)[k - 1]; }
    }
  }

  /** Every context a merge gives out is a row of its tree, with that row's text. */
  lemma {:induction false} MergedContextsAreRows(t: Tree, selected: seq<Node>, count: Counter, threshold: real, all: seq<Hit>,
                                                 hits: seq<Hit>, purse: Purse)
    requires Fetched(t) && Shaped(t, selected)
    ensures AllPaid(Contexts(MergeFrom(t, count, threshold, all, hits, purse).0), Rows(t))
    decreases |hits|
  {
    if hits != [] {
      var eligible := Eligible(t, all, threshold);
      var c := Choose(t, count, eligible, hits[0], purse);
      ChosenIsTakable(t, count, eligible, hits[0], purse);
      if c.node.Some? { CandidateIsAncestor(t, selected, hits[0], c.node.value); }
      MergedContextsAreRows(t, selected, count, threshold, all, hits[1..], c.purse);
      ContextsJoin(t, Enriched(t, all, threshold, hits[0], c), MergeFrom(t, count, threshold, all, hits[1..], c.purse).0);
    }
  }
}
