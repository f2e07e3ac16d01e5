/** Cycle detection over the import graph: the nested `walk` of
    scripts/check_architecture.py and the loop that drives it. */
module ImportCycles {
  type Node = string

  /** Each canonical module with its imports in the order they are walked. Imports of
      modules outside the map lead nowhere. */
  type Graph = map<Node, seq<Node>>

  function Imports(g: Graph, n: Node): seq<Node> { if n in g then g[n] else [] }

  predicate Edge(g: Graph, a: Node, b: Node) { b in Imports(g, a) }

  predicate Path(g: Graph, p: seq<Node>) { forall i | 0 <= i < |p| - 1 :: Edge(g, p[i], p[i + 1]) }

  /** A directed cycle, written with its first module repeated at the end. */
  predicate ClosedWalk(g: Graph, w: seq<Node>) { |w| >= 2 && w[0] == w[|w| - 1] && Path(g, w) }

  predicate Distinct(s: seq<Node>) { forall i, j | 0 <= i < j < |s| :: s[i] != s[j] }

  /** A cycle that visits no module twice. */
  predicate SimpleCycle(g: Graph, w: seq<Node>) { ClosedWalk(g, w) && Distinct(w[..|w| - 1]) }

  ghost predicate HasCycle(g: Graph) { exists w :: ClosedWalk(g, w) }

  function Targets(g: Graph): set<Node> { set a, b | a in g && b in g[a] :: b }

  function Nodes(g: Graph): set<Node> { g.Keys + Targets(g) }

  // ---------------------------------------------------------------- finishing order

  /** Every import of a finished module was finished before it. */
  predicate Ordered(g: Graph, done: seq<Node>)
  {
    forall i | 0 <= i < |done| :: forall t | t in Imports(g, done[i]) :: t in done[..i]
  }

  lemma OrderedAfter(g: Graph, done: seq<Node>, n: Node)
    requires Ordered(g, done) && forall t | t in Imports(g, n) :: t in done
    ensures Ordered(g, done + [n])
  {
    var all := done + [n];
    forall i | 0 <= i < |all| ensures forall t | t in Imports(g, all[i]) :: t in all[..i] {
      if i < |done| { assert all[..i] == done[..i]; } else { assert all[..i] == done; }
    }
  }

  lemma TailIsPath(g: Graph, p: seq<Node>)
    requires Path(g, p) && p != []
    ensures Path(g, p[1..])
  {
    forall k | 0 <= k < |p[1..]| - 1 ensures Edge(g, p[1..][k], p[1..][k + 1]) {
      assert Edge(g, p[k + 1], p[k + 1 + 1]);
    }
  }

  /** Along a path of finished modules the finishing position falls. */
  lemma {:induction false} PathDescends(g: Graph, done: seq<Node>, p: seq<Node>, i: nat)
    requires Ordered(g, done) && Path(g, p) && |p| >= 2 && i < |done| && done[i] == p[0]
    ensures p[|p| - 1] in done[..i]
    decreases |p|
  {
    assert Edge(g, p[0], p[1]);
    var j :| 0 <= j < i && done[j] == p[1];
    if |p| > 2 {
      TailIsPath(g, p);
      PathDescends(g, done, p[1..], j);
      assert p[|p| - 1] in done[..j];
      assert done[..j] == done[..i][..j];
    }
  }

  lemma NotTwice(s: seq<Node>, i: nat)
    requires Distinct(s) && i < |s|
    ensures s[i] !in s[..i]
  {
  }

  /** A finishing order of all modules rules every cycle out. */
  lemma OrderedIsAcyclic(g: Graph, done: seq<Node>)
    requires Ordered(g, done) && Distinct(done) && forall n | n in g :: n in done
    ensures !HasCycle(g)
  {
    forall w ensures !ClosedWalk(g, w) {
      if ClosedWalk(g, w) {
        assert Edge(g, w[0], w[1]) && w[0] in done;
        var i :| 0 <= i < |done| && done[i] == w[0];
        PathDescends(g, done, w, i);
        NotTwice(done, i);
      }
    }
  }

  // ---------------------------------------------------------------- the search

  class CycleSearch {
    const graph: Graph
    var seen: set<Node>
    var active: set<Node>
    var stack: seq<Node>
    var cycles: seq<seq<Node>>
    ghost var done: seq<Node>

    constructor (graph: Graph)
      ensures this.graph == graph && Valid() && stack == [] && cycles == [] && seen == {}
    {
      this.graph := graph;
      seen, active, stack, cycles, done := {}, {}, [], [], [];
    }

    /** The stack is a path of the active modules; what is seen is active or finished;
        what is reported is a cycle; and until something is reported, the finished
        modules are in dependency order. */
    ghost predicate Valid()
      reads this
    {
      && Path(graph, stack) && Distinct(stack) && Distinct(done)
      && (forall n :: n in active <==> n in stack)
      && (forall n :: n in seen <==> n in stack || n in done)
      && (forall n :: !(n in stack && n in done))
      && seen <= Nodes(graph)
      && (forall c | c in cycles :: SimpleCycle(graph, c))
      && (cycles == [] ==> Ordered(graph, done))
    }

    method Walk(name: Node)
      requires Valid() && name in Nodes(graph)
      requires stack == [] || Edge(graph, stack[|stack| - 1], name)
      modifies this
      ensures Valid() && stack == old(stack) && active == old(active)
      ensures old(seen) <= seen && name in seen && (cycles == [] ==> name in done)
      ensures old(cycles) <= cycles && old(done) <= done
      decreases Nodes(graph) - seen, 0
    {
      if name in active {
        Report(name);
        return;
      }
      if name in seen { return; }
      Enter(name);
      WalkImports(name);
      Leave(name);
    }

    /** The inner loop, with `name` on top of the stack. */
    method WalkImports(name: Node)
      requires Valid() && stack != [] && stack[|stack| - 1] == name
      modifies this
      ensures Valid() && stack == old(stack) && active == old(active)
      ensures old(seen) <= seen && old(cycles) <= cycles && old(done) <= done
      ensures cycles == [] ==> forall t | t in Imports(graph, name) :: t in done
      decreases Nodes(graph) - seen, 1
    {
      var targets := Imports(graph, name);
      for i := 0 to |targets|
        invariant Valid() && stack == old(stack) && active == old(active)
        invariant old(seen) <= seen && old(cycles) <= cycles && old(done) <= done
        invariant cycles == [] ==> forall k | 0 <= k < i :: targets[k] in done
      {
        ImportsAreNodes(name, targets[i]);
        ghost var before := done;
        Walk(targets[i]);
        assert forall t | t in before :: t in done;
      }
    }

    lemma ImportsAreNodes(a: Node, b: Node)
      requires b in Imports(graph, a)
      ensures b in Nodes(graph) && Edge(graph, a, b)
    {
    }

    /** `name` is already on the stack: the part of the stack from there is a cycle. */
    method Report(name: Node)
      requires Valid() && name in active && stack != [] && Edge(graph, stack[|stack| - 1], name)
      modifies this`cycles
      ensures Valid() && cycles != [] && old(cycles) <= cycles
    {
      var found := FirstIndex(name);
      CycleCloses(found, name);
      cycles := cycles + [stack[found..] + [name]];
    }

    /** `seen.add; active.add; stack.append`. */
    method Enter(n: Node)
      requires Valid() && n in Nodes(graph) && n !in seen
      requires stack == [] || Edge(graph, stack[|stack| - 1], n)
      modifies this`seen, this`active, this`stack
      ensures Valid() && seen == old(seen) + {n} && active == old(active) + {n} && stack == old(stack) + [n]
    {
      seen := seen + {n};
      active := active + {n};
      stack := stack + [n];
    }

    /** `stack.pop(); active.remove`: the module is finished. */
    method Leave(n: Node)
      requires Valid() && stack != [] && stack[|stack| - 1] == n
      requires cycles == [] ==> forall t | t in Imports(graph, n) :: t in done
      modifies this`active, this`stack, this`done
      ensures Valid() && stack == old(stack)[..|old(stack)| - 1] && active == old(active) - {n}
      ensures done == old(done) + [n]
    {
      if cycles == [] { OrderedAfter(graph, done, n); }
      assert stack == stack[..|stack| - 1] + [n];
      assert n in stack;
      stack := stack[..|stack| - 1];
      active := active - {n};
      done := done + [n];
    }

    /** `stack.index`. */
    method FirstIndex(n: Node) returns (i: nat)
      requires n in stack
      ensures i < |stack| && stack[i] == n
    {
      i := 0;
      while stack[i] != n
        invariant i < |stack| && n !in stack[..i]
        decreases |stack| - i
      {
        assert stack[..i + 1] == stack[..i] + [stack[i]];
        assert stack == stack[..i + 1] + stack[i + 1..];
        i := i + 1;
      }
    }

    lemma CycleCloses(i: nat, n: Node)
      requires Valid() && i < |stack| && stack[i] == n && Edge(graph, stack[|stack| - 1], n)
      ensures SimpleCycle(graph, stack[i..] + [n])
    {
      var w := stack[i..] + [n];
      forall k | 0 <= k < |w| - 1 ensures Edge(graph, w[k], w[k + 1]) {
        assert w[k] == stack[i + k];
        if k < |w| - 2 { assert w[k + 1] == stack[i + k + 1]; }
      }
      assert w[..|w| - 1] == stack[i..];
    }

    /** The loop over all modules: every reported list is a cycle of the graph, and
        something is reported exactly when the graph has one. */
    method Run(modules: seq<Node>)
      requires Valid() && stack == [] && seen == {} && cycles == [] && forall n :: n in modules <==> n in graph
      modifies this
      ensures forall c | c in cycles :: SimpleCycle(graph, c)
      ensures cycles != [] <==> HasCycle(graph)
    {
      for i := 0 to |modules|
        invariant Valid() && stack == []
        invariant forall n | n in modules[..i] :: n in seen
      {
        assert modules[i] in modules;
        Walk(modules[i]);
        assert modules[..i + 1] == modules[..i] + [modules[i]];
      }
      assert modules[..|modules|] == modules;
      if cycles == [] {
        OrderedIsAcyclic(graph, done);
      } else {
        assert cycles[0] in cycles;
        assert ClosedWalk(graph, cycles[0]);
      }
    }
  }
}
