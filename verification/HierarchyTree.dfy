/** Auto merging of retrieved leaves into their ancestors, under a coverage threshold and a token
    budget.  app/manager/hierarchy.py:104-213, app/entity/bo/contracts.py:62-108. */
module HierarchyTree {
  import opened Outcomes

  /** What a leaf's metadata says: its source boundary, and the rest. */
  datatype Details = Details(boundary: int, rest: int)

  /** A row of the hierarchy; `owner` is its user and document, `decodes` says whether its
      metadata makes a chunk. */
  datatype Node = Node(id: int, level: int, parent: Option<int>, owner: int, text: string, index: int,
                       childCount: int, leafCount: int, details: Details, decodes: bool)

  datatype Chunk = Chunk(id: int, owner: int, index: int, content: string, details: Details)

  datatype Context = Context(node: int, level: int, text: string, children: seq<Chunk>)

  datatype Status = Merged | Coverage | OverBudget | Stale

  datatype Trace = Trace(chunk: int, status: Status, level: int, node: int, matched: nat, total: nat)

  datatype Hit = Hit(chunk: Chunk, score: real, rerank: Option<real>, context: Option<Context>,
                     warning: Option<ErrorCode>, trace: Option<Trace>)

  /** The rows fetched: the roots, their children, and the children of those. */
  datatype Tree = Tree(roots: seq<Node>, siblings: seq<Node>, leaves: seq<Node>)

  type Counter = string -> nat

  const TEXT_LIMIT := 48000
  const FANOUT := 8
  const DEFAULT_BUDGET := 4000

  function Rows(t: Tree): seq<Node> { t.roots + t.siblings + t.leaves }

  function Linked(t: Tree): seq<Node> { t.siblings + t.leaves }

  ghost predicate DistinctIds(rows: seq<Node>) { forall i, j :: 0 <= i < j < |rows| ==> rows[i].id != rows[j].id }

  /** What the queries guarantee: identities are primary keys read in one snapshot, and the last
      query returned children of the rows before. */
  ghost predicate Fetched(t: Tree)
  {
    && DistinctIds(t.roots) && DistinctIds(t.siblings) && DistinctIds(t.leaves)
    && (forall a, b :: a in Rows(t) && b in Rows(t) && a.id == b.id ==> a == b)
    && (forall n :: n in t.leaves ==> exists p :: p in t.siblings && n.parent == Some(p.id))
  }

  // ---------------------------------------------------------------- looking rows up

  /** `by_id`: later rows override. */
  function ById(rows: seq<Node>): map<int, Node>
  {
    if rows == [] then map[] else ById(rows[..|rows| - 1])[rows[|rows| - 1].id := rows[|rows| - 1]]
  }

  lemma {:induction false} ByIdKnows(rows: seq<Node>, id: int)
    ensures id in ById(rows) ==> ById(rows)[id] in rows && ById(rows)[id].id == id
    ensures id !in ById(rows) ==> forall n :: n in rows ==> n.id != id
  {
    if rows != [] {
      var front := rows[..|rows| - 1];
      ByIdKnows(front, id);
      assert rows == front + [rows[|rows| - 1]];
    }
  }

  /** `child_map[id]`, in the order fetched. */
  function ChildrenOf(rows: seq<Node>, id: int): seq<Node>
  {
    if rows == [] then []
    else
      var front := ChildrenOf(rows[..|rows| - 1], id);
      var last := rows[|rows| - 1];
      if last.parent == Some(id) then front + [last] else front
  }

  lemma {:induction false} ChildrenAre(rows: seq<Node>, id: int, n: Node)
    ensures n in ChildrenOf(rows, id) <==> n in rows && n.parent == Some(id)
  {
    if rows != [] {
      ChildrenAre(rows[..|rows| - 1], id, n);
      assert rows == rows[..|rows| - 1] + [rows[|rows| - 1]];
    }
  }

  function Children(t: Tree, id: int): seq<Node> { ChildrenOf(Linked(t), id) }

  /** The leaves below each of the rows, in order. */
  function Below(t: Tree, rows: seq<Node>): seq<Node>
  {
    if rows == [] then [] else Below(t, rows[..|rows| - 1]) + Children(t, rows[|rows| - 1].id)
  }

  lemma {:induction false} BelowAre(t: Tree, rows: seq<Node>, p: Node, n: Node)
    requires p in rows && n in Children(t, p.id)
    ensures n in Below(t, rows)
  {
    if p != rows[|rows| - 1] {
      assert p in rows[..|rows| - 1];
      BelowAre(t, rows[..|rows| - 1], p, n);
    }
  }

  function LeavesOf(t: Tree, n: Node): seq<Node>
  {
    if n.level == 2 then Children(t, n.id) else Below(t, Children(t, n.id))
  }

  // ---------------------------------------------------------------- chunks and contexts

  function Decoded(n: Node): Chunk { Chunk(n.id, n.owner, n.index, n.text, n.details) }

  /** `sorted(chunks, key=chunk_index)`, stable. */
  function Inserted(c: Chunk, sorted: seq<Chunk>): seq<Chunk>
  {
    if sorted == [] || sorted[|sorted| - 1].index <= c.index then sorted + [c]
    else Inserted(c, sorted[..|sorted| - 1]) + [sorted[|sorted| - 1]]
  }

  function Sorted(rows: seq<Node>): seq<Chunk>
  {
    if rows == [] then []
    else Inserted(Decoded(rows[|rows| - 1]), Sorted(rows[..|rows| - 1]))
  }

  lemma {:induction false} InsertedHolds(c: Chunk, sorted: seq<Chunk>, d: Chunk)
    ensures d in Inserted(c, sorted) <==> d == c || d in sorted
  {
    if sorted != [] && sorted[|sorted| - 1].index > c.index {
      InsertedHolds(c, sorted[..|sorted| - 1], d);
      assert sorted == sorted[..|sorted| - 1] + [sorted[|sorted| - 1]];
    }
  }

  lemma {:induction false} SortedHolds(rows: seq<Node>, c: Chunk)
    ensures c in Sorted(rows) <==> exists n :: n in rows && Decoded(n) == c
  {
    if rows != [] {
      var front := rows[..|rows| - 1];
      var last := rows[|rows| - 1];
      SortedHolds(front, c);
      InsertedHolds(Decoded(last), Sorted(front), c);
      assert rows == front + [last];
    }
  }

  predicate At(part: string, whole: string, i: int)
  {
    0 <= i <= |whole| - |part| && whole[i..i + |part|] == part
  }

  /** `part in whole`. */
  predicate Within(part: string, whole: string) { exists i | 0 <= i <= |whole| :: At(part, whole, i) }

  lemma WithinJoins(a: string, b: string, c: string)
    requires Within(a, b) && Within(b, c)
    ensures Within(a, c)
  {
    var i :| 0 <= i <= |b| && At(a, b, i);
    var j :| 0 <= j <= |c| && At(b, c, j);
    forall k | 0 <= k < |a| ensures c[i + j..i + j + |a|][k] == a[k] {
      assert a[k] == b[i..i + |a|][k] == b[i + k];
      assert b[i + k] == c[j..j + |b|][i + k] == c[j + i + k];
    }
    assert At(a, c, i + j);
  }

  /** The constructor's checks. */
  predicate Sound(c: Context)
  {
    && c.level in {1, 2} && 2 <= |c.children| <= 64 && 1 <= |c.text| <= TEXT_LIMIT
    && (forall k | 0 <= k < |c.children| :: c.children[k].index >= 0)
    && (forall i, k | 0 <= i < k < |c.children| :: c.children[i].index < c.children[k].index && c.children[i].id != c.children[k].id)
    && (forall k | 0 <= k < |c.children| ::
          Boundary(c.children[k]) == Boundary(c.children[0]) && Within(c.children[k].content, c.text))
  }

  function Boundary(c: Chunk): (int, int) { (c.owner, c.details.boundary) }

  function ContextOf(t: Tree, n: Node): Context
  {
    Context(n.id, n.level, n.text, Sorted(LeavesOf(t, n)))
  }

  // ---------------------------------------------------------------- validation

  /** The test of each child row when `child_map` is filled. */
  predicate Hangs(byId: map<int, Node>, n: Node)
  {
    && n.parent.Some? && n.parent.value in byId
    && var p := byId[n.parent.value];
       p.level == n.level - 1 && n.level in {2, 3} && p.owner == n.owner
       && n.text != "" && |n.text| <= TEXT_LIMIT && Within(n.text, p.text)
  }

  /** A row selected by identity is the row the child queries returned. */
  predicate Confirmed(byId: map<int, Node>, n: Node)
  {
    n.id in byId && byId[n.id].text == n.text && byId[n.id].parent == n.parent
  }

  predicate Placed(children: seq<Node>)
  {
    && children != [] && (forall k | 0 <= k < |children| :: children[k].index >= 0)
    && forall i, k | 0 <= i < k < |children| :: children[i].index != children[k].index
  }

  predicate Counted(t: Tree, n: Node)
  {
    |Children(t, n.id)| == n.childCount && |LeavesOf(t, n)| == n.leafCount
  }

  predicate Hung(t: Tree) { forall n | n in Linked(t) :: Hangs(ById(Rows(t)), n) }

  predicate Rooted(t: Tree) { forall r | r in t.roots :: r.level == 1 && r.parent.None? }

  predicate Narrow(rows: seq<Node>)
  {
    forall n | n in rows :: n.parent.Some? ==> |ChildrenOf(rows, n.parent.value)| <= FANOUT
  }

  predicate AllConfirmed(byId: map<int, Node>, selected: seq<Node>) { forall n | n in selected :: Confirmed(byId, n) }

  predicate AllDecode(t: Tree) { forall n | n in t.leaves :: n.decodes }

  predicate AllPlaced(t: Tree) { forall p | p in t.siblings :: Placed(Children(t, p.id)) }

  predicate AllCounted(t: Tree) { forall a | a in t.roots + t.siblings :: Counted(t, a) }

  predicate Shaped(t: Tree, selected: seq<Node>)
  {
    && Hung(t) && Rooted(t) && Narrow(Linked(t)) && AllConfirmed(ById(Rows(t)), selected)
    && AllDecode(t) && AllPlaced(t) && AllCounted(t)
  }

  /** A hit with a leaf row carries exactly that row's chunk. */
  predicate Genuine(t: Tree, hits: seq<Hit>)
  {
    forall n | n in t.leaves :: forall h | h in hits && h.chunk.id == n.id :: Decoded(n) == h.chunk
  }

  predicate Mergeable(t: Tree, a: Node) { |LeavesOf(t, a)| >= 2 }

  /** Every context that could be built is built once, to be sure of it. */
  predicate AllSound(t: Tree)
  {
    forall a | a in t.roots + t.siblings :: Mergeable(t, a) ==> Sound(ContextOf(t, a))
  }

  predicate Valid(t: Tree, selected: seq<Node>, hits: seq<Hit>)
  {
    Shaped(t, selected) && Genuine(t, hits) && AllSound(t)
  }
}
