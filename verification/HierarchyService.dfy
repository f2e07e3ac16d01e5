/** The merge as the loops that perform it.  app/manager/hierarchy.py:104-213. */
module HierarchyService {
  import opened Outcomes
  import opened HierarchyTree
  import opened HierarchyMerge

  type ChildMap = map<int, seq<Node>>

  function Get(m: ChildMap, id: int): seq<Node> { if id in m then m[id] else [] }

  ghost predicate Maps(m: ChildMap, rows: seq<Node>) { forall id :: Get(m, id) == ChildrenOf(rows, id) }

  method Index(rows: seq<Node>) returns (byId: map<int, Node>)
    ensures byId == ById(rows)
  {
    byId := map[];
    for i := 0 to |rows|
      invariant byId == ById(rows[..i])
    {
      assert rows[..i + 1][..i] == rows[..i];
      byId := byId[rows[i].id := rows[i]];
    }
    assert rows[..|rows|] == rows;
  }

  /** Fills `child_map`, checking each row as it goes. */
  method Link(byId: map<int, Node>, rows: seq<Node>) returns (m: Option<ChildMap>)
    ensures m.Some? <==> forall n :: n in rows ==> Hangs(byId, n)
    ensures m.Some? ==> Maps(m.value, rows) && forall id :: id in m.value ==> exists n :: n in rows && n.parent == Some(id)
  {
    var children: ChildMap := map[];
    for i := 0 to |rows|
      invariant forall k :: 0 <= k < i ==> Hangs(byId, rows[k])
      invariant Maps(children, rows[..i])
      invariant forall id :: id in children ==> exists n :: n in rows && n.parent == Some(id)
    {
      var n := rows[i];
      if !Hangs(byId, n) { return None; }
      assert rows[..i + 1][..i] == rows[..i];
      children := children[n.parent.value := Get(children, n.parent.value) + [n]];
    }
    assert rows[..|rows|] == rows;
    return Some(children);
  }

  /** Whether every row's children number what the row says, as do its leaves. */
  method CountsAgree(t: Tree, children: ChildMap) returns (ok: bool)
    requires Maps(children, Linked(t))
    ensures ok <==> AllCounted(t)
  {
    var rows := t.roots + t.siblings;
    for i := 0 to |rows|
      invariant forall k :: 0 <= k < i ==> Counted(t, rows[k])
    {
      var below := Gather(t, children, rows[i]);
      if |Get(children, rows[i].id)| != rows[i].childCount || |below| != rows[i].leafCount {
        assert !Counted(t, rows[i]);
        return false;
      }
    }
    return true;
  }

  method Gather(t: Tree, children: ChildMap, n: Node) returns (leaves: seq<Node>)
    requires Maps(children, Linked(t))
    ensures leaves == LeavesOf(t, n)
  {
    var rows := Get(children, n.id);
    if n.level == 2 { return rows; }
    leaves := [];
    for i := 0 to |rows|
      invariant leaves == Below(t, rows[..i])
    {
      assert rows[..i + 1][..i] == rows[..i];
      leaves := leaves + Get(children, rows[i].id);
    }
    assert rows[..|rows|] == rows;
  }

  method FewChildren(children: ChildMap, rows: seq<Node>) returns (ok: bool)
    requires Maps(children, rows) && forall id :: id in children ==> exists n :: n in rows && n.parent == Some(id)
    ensures ok <==> Narrow(rows)
  {
    ok := forall id | id in children :: |children[id]| <= FANOUT;
    if !ok {
      ghost var id :| id in children && |children[id]| > FANOUT;
      assert Get(children, id) == ChildrenOf(rows, id);
    } else {
      forall n | n in rows && n.parent.Some? ensures |ChildrenOf(rows, n.parent.value)| <= FANOUT {
        assert Get(children, n.parent.value) == ChildrenOf(rows, n.parent.value);
      }
    }
  }

  method ChildrenPlaced(t: Tree, children: ChildMap) returns (ok: bool)
    requires Maps(children, Linked(t))
    ensures ok <==> AllPlaced(t)
  {
    for i := 0 to |t.siblings|
      invariant forall k :: 0 <= k < i ==> Placed(Children(t, t.siblings[k].id))
    {
      if !Placed(Get(children, t.siblings[i].id)) { return false; }
    }
    return true;
  }

  /** The checks on the shape of the tree, in the order they are made. */
  method Validate(t: Tree, selected: seq<Node>) returns (m: Option<ChildMap>)
    ensures m.Some? <==> Shaped(t, selected)
    ensures m.Some? ==> Maps(m.value, Linked(t))
  {
    var byId := Index(t.roots + t.siblings + t.leaves);
    var linked := Link(byId, t.siblings + t.leaves);
    if linked.None? { return None; }
    if !Rooted(t) { return None; }
    var narrow := FewChildren(linked.value, t.siblings + t.leaves);
    if !narrow || !AllConfirmed(byId, selected) || !AllDecode(t) { return None; }
    var placed := ChildrenPlaced(t, linked.value);
    var agree := CountsAgree(t, linked.value);
    if !placed || !agree { return None; }
    return linked;
  }

  // ---------------------------------------------------------------- eligibility

  /** Fills `matched`; a hit that differs from its leaf's chunk is refused. */
  method FindMatched(t: Tree, hits: seq<Hit>) returns (matched: Option<set<int>>)
    ensures matched.Some? <==> Genuine(t, hits)
    ensures matched.Some? ==> matched.value == Matched(t, hits)
  {
    var chunks := Index(t.leaves);
    var found: set<int> := {};
    for i := 0 to |hits|
      invariant Genuine(t, hits[..i])
      invariant found == Matched(t, hits[..i])
    {
      var id := hits[i].chunk.id;
      ByIdKnows(t.leaves, id);
      assert hits[..i + 1] == hits[..i] + [hits[i]];
      if id in chunks {
        var same := AllGenuine(t, hits[i]);
        if !same { return None; }
        found := found + {id};
      }
    }
    assert hits[..|hits|] == hits;
    return Some(found);
  }

  method AllGenuine(t: Tree, h: Hit) returns (same: bool)
    ensures same <==> forall n :: n in t.leaves && n.id == h.chunk.id ==> Decoded(n) == h.chunk
  {
    same := forall n | n in t.leaves :: n.id == h.chunk.id ==> Decoded(n) == h.chunk;
  }

  /** The loop over `siblings`. */
  method FindParents(t: Tree, children: ChildMap, matched: set<int>, threshold: real) returns (eligible: set<int>)
    requires Maps(children, Linked(t))
    ensures eligible == EligibleParents(t, matched, threshold)
  {
    eligible := {};
    for i := 0 to |t.siblings|
      invariant eligible == CoveredIds(t, t.siblings[..i], matched, threshold)
    {
      assert t.siblings[..i + 1][..i] == t.siblings[..i];
      if Covered(Get(children, t.siblings[i].id), matched, threshold) {
        eligible := eligible + {t.siblings[i].id};
      }
    }
    assert t.siblings[..|t.siblings|] == t.siblings;
  }

  /** Counting root `i` against the set under construction is counting it against the parents. */
  predicate Indifferent(t: Tree, i: nat, parents: set<int>, threshold: real)
    requires i < |t.roots|
  {
    var rows := Children(t, t.roots[i].id);
    Covered(rows, parents + CoveredIds(t, t.roots[..i], parents, threshold), threshold) <==> Covered(rows, parents, threshold)
  }

  lemma RootsAreIndifferent(t: Tree, selected: seq<Node>, i: nat, parents: set<int>, threshold: real)
    requires Fetched(t) && Shaped(t, selected) && i < |t.roots|
    ensures Indifferent(t, i, parents, threshold)
  {
    var roots := CoveredIds(t, t.roots[..i], parents, threshold);
    forall id | id in roots ensures exists n :: n in t.roots && n.id == id {
      CoveredIdsAre(t, t.roots[..i], parents, threshold, id);
    }
    RootsDoNotCount(t, selected, t.roots[i], parents, roots, threshold);
  }

  /** The loop over `roots`, which adds to the same set it counts against. */
  method AddRoots(t: Tree, children: ChildMap, parents: set<int>, threshold: real) returns (eligible: set<int>)
    requires Maps(children, Linked(t))
    requires forall i | 0 <= i < |t.roots| :: Indifferent(t, i, parents, threshold)
    ensures eligible == parents + EligibleRoots(t, parents, threshold)
  {
    eligible := parents;
    for i := 0 to |t.roots|
      invariant eligible == parents + CoveredIds(t, t.roots[..i], parents, threshold)
    {
      assert t.roots[..i + 1][..i] == t.roots[..i];
      assert Indifferent(t, i, parents, threshold);
      if Covered(Get(children, t.roots[i].id), eligible, threshold) {
        eligible := eligible + {t.roots[i].id};
      }
    }
    assert t.roots[..|t.roots|] == t.roots;
  }

  // ---------------------------------------------------------------- merging

  /** The inner loop: root first, then parent, until one can be taken. */
  method Pick(t: Tree, count: Counter, byId: map<int, Node>, eligible: set<int>, h: Hit, purse: Purse) returns (c: Choice)
    requires byId == ById(Rows(t))
    ensures c == Choose(t, count, eligible, h, purse)
  {
    if h.chunk.id !in byId { return Choice(None, Stale, purse); }
    var leaf := byId[h.chunk.id];
    var parent := if leaf.parent.Some? && leaf.parent.value in byId then Some(byId[leaf.parent.value]) else None;
    var root := if parent.Some? && parent.value.parent.Some? && parent.value.parent.value in byId
                then Some(byId[parent.value.parent.value]) else None;
    var left, paid, status, node := purse.left, purse.paid, Coverage, None;
    var candidates := [root, parent];
    var i := 0;
    while i < 2 && node.None?
      invariant 0 <= i <= 2
      invariant Choice(node, status, Purse(left, paid)) ==
                (if i == 0 then Choice(None, Coverage, purse)
                 else if i == 1 then Try(t, count, eligible, root, Choice(None, Coverage, purse))
                 else Try(t, count, eligible, parent, Try(t, count, eligible, root, Choice(None, Coverage, purse))))
      invariant i == 0 ==> node.None?
    {
      var a := candidates[i];
      if a.Some? && a.value.id in eligible && |LeavesOf(t, a.value)| >= 2 {
        var charged := exists n | n in paid :: n.id == a.value.id;
        if !charged && count(a.value.text) > left {
          status := OverBudget;
        } else {
          node, status := a, Merged;
          if !charged { left, paid := left - count(a.value.text), paid + [a.value]; }
        }
      }
      i := i + 1;
    }
    return Choice(node, status, Purse(left, paid));
  }

  /** The last loop: every hit in turn. */
  method MergeEach(t: Tree, hits: seq<Hit>, count: Counter, threshold: real, eligible: set<int>, budget: nat) returns (result: seq<Hit>)
    requires eligible == Eligible(t, hits, threshold)
    ensures result == MergeFrom(t, count, threshold, hits, hits, Purse(budget, [])).0
  {
    var byId := Index(Rows(t));
    var purse := Purse(budget, []);
    result := [];
    for i := 0 to |hits|
      invariant MergeFrom(t, count, threshold, hits, hits, Purse(budget, [])).0 ==
                result + MergeFrom(t, count, threshold, hits, hits[i..], purse).0
    {
      assert hits[i..][1..] == hits[i + 1..];
      var c := Pick(t, count, byId, eligible, hits[i], purse);
      result := result + [Enriched(t, hits, threshold, hits[i], c)];
      purse := c.purse;
    }
  }

  /** `_merge`. */
  method MergeHits(t: Tree, selected: seq<Node>, hits: seq<Hit>, count: Counter, threshold: real, tokens: Option<int>)
    returns (r: Outcome<seq<Hit>>)
    requires Fetched(t)
    ensures r == Merge(t, selected, hits, count, threshold, tokens)
  {
    var children := Validate(t, selected);
    if children.None? { return Raised(HierarchyScopeMismatch); }
    var matched := FindMatched(t, hits);
    if matched.None? { return Raised(HierarchyScopeMismatch); }
    var parents := FindParents(t, children.value, matched.value, threshold);
    forall i | 0 <= i < |t.roots| ensures Indifferent(t, i, parents, threshold) {
      RootsAreIndifferent(t, selected, i, parents, threshold);
    }
    var eligible := AddRoots(t, children.value, parents, threshold);
    if !AllSound(t) { return Raised(HierarchyScopeMismatch); }
    var budget := if tokens.None? then DEFAULT_BUDGET else if tokens.value < 0 then 0 else tokens.value;
    var result := MergeEach(t, hits, count, threshold, eligible, budget);
    return Ok(result);
  }
}
