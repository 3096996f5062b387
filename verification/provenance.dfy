/**
 packages/provenance: the derivation graph. `Build` is Kahn's algorithm over a ready list
 kept in id order; traces are a depth-first search upwards and a worklist downwards;
 invalidation marks a source and everything derived from it.

 Ids are integers: only their order (Array.prototype.sort on ids) matters.
 */
module Provenance {
  import opened Wrappers
  import opened Collections
  import opened Sorting

  datatype Node = Node(id: int, kind: int, derivedFrom: seq<int>)

  datatype BuildError =
    | DuplicateNode(id: int)
    | MissingReference(parent: int, child: int)
    | CycleDetected(ids: seq<int>)

  datatype TraceError = NoSuchNode(id: int) | MalformedInvalidation

  type Graph = map<int, Node>

  predicate AtMost(x: int, y: int) { x <= y }

  // ----- the graph as a mathematical object -----

  ghost function Parents(g: Graph, n: int): set<int>
    requires n in g
  {
    ToSet(g[n].derivedFrom)
  }

  /** Normalised nodes stored under their own id, with no dangling reference. */
  ghost predicate Closed(g: Graph) {
    forall n :: n in g ==> g[n].id == n && Distinct(g[n].derivedFrom) && Parents(g, n) <= g.Keys
  }

  /** Consecutive nodes are parent and child. */
  ghost predicate Chain(g: Graph, p: seq<int>) {
    && (forall i :: 0 <= i < |p| ==> p[i] in g)
    && (forall i :: 0 <= i < |p| - 1 ==> p[i] in Parents(g, p[i + 1]))
  }

  ghost predicate ChainBetween(g: Graph, p: seq<int>, a: int, b: int) {
    |p| >= 2 && Chain(g, p) && p[0] == a && p[|p| - 1] == b
  }

  /** `b` is derived, in one or more steps, from `a`. */
  ghost predicate Reach(g: Graph, a: int, b: int) {
    exists p :: ChainBetween(g, p, a, b)
  }

  ghost predicate Acyclic(g: Graph) {
    forall n :: n in g ==> !Reach(g, n, n)
  }

  ghost function Ancestors(g: Graph, id: int): set<int> {
    set n | n in g.Keys && Reach(g, n, id)
  }

  ghost function Descendants(g: Graph, id: int): set<int> {
    set n | n in g.Keys && Reach(g, id, n)
  }

  lemma ReachStep(g: Graph, a: int, b: int)
    requires a in g && b in g && a in Parents(g, b)
    ensures Reach(g, a, b)
  {
    assert ChainBetween(g, [a, b], a, b);
  }

  lemma ReachTransitive(g: Graph, a: int, b: int, c: int)
    requires Reach(g, a, b) && Reach(g, b, c)
    ensures Reach(g, a, c)
  {
    var p :| ChainBetween(g, p, a, b);
    var q :| ChainBetween(g, q, b, c);
    var r := p + q[1..];
    assert Chain(g, r) by {
      forall i | 0 <= i < |r| ensures r[i] in g {
        if i >= |p| { assert r[i] == q[i + 1 - |p|]; }
      }
      forall i | 0 <= i < |r| - 1 ensures r[i] in Parents(g, r[i + 1]) {
        if i >= |p| - 1 { assert r[i] == q[i + 1 - |p|] && r[i + 1] == q[i + 2 - |p|]; }
      }
    }
    assert ChainBetween(g, r, a, c);
  }

  // ----- topological orders -----

  ghost predicate ParentsFirst(g: Graph, o: seq<int>) {
    && Distinct(o)
    && forall k :: 0 <= k < |o| ==> o[k] in g && Parents(g, o[k]) <= ToSet(o[..k])
  }

  ghost predicate TopologicalOrder(g: Graph, o: seq<int>) {
    ParentsFirst(g, o) && ToSet(o) == g.Keys
  }

  /** `o` comes before `q`, or equals it, comparing ids position by position. */
  ghost predicate LexAtMost(o: seq<int>, q: seq<int>) {
    o == q || exists k :: 0 <= k < |o| && k < |q| && o[..k] == q[..k] && o[k] < q[k]
  }

  /** Parents first, and before every other parents-first arrangement. */
  ghost predicate LeastOrder(g: Graph, o: seq<int>) {
    TopologicalOrder(g, o) && forall q :: TopologicalOrder(g, q) ==> LexAtMost(o, q)
  }

  ghost function Available(g: Graph, done: set<int>): set<int> {
    set n | n in g.Keys && n !in done && Parents(g, n) <= done
  }

  /** Every position holds the least node whose parents have all been listed before it. */
  ghost predicate Greedy(g: Graph, o: seq<int>) {
    forall k :: 0 <= k < |o| ==>
      && o[k] in Available(g, ToSet(o[..k]))
      && forall m :: m in Available(g, ToSet(o[..k])) ==> o[k] <= m
  }

  lemma GreedyDistinct(g: Graph, o: seq<int>)
    requires Greedy(g, o)
    ensures ParentsFirst(g, o)
    ensures ToSet(o) <= g.Keys
  {
    forall i, j | 0 <= i < j < |o| ensures o[i] != o[j] {
      assert o[j] !in ToSet(o[..j]);
      assert o[..j][i] == o[i];
    }
    forall k | 0 <= k < |o| ensures o[k] in g && Parents(g, o[k]) <= ToSet(o[..k]) {
      assert o[k] in Available(g, ToSet(o[..k]));
    }
  }

  lemma GreedyIsLeastOrder(g: Graph, o: seq<int>)
    requires Greedy(g, o) && ToSet(o) == g.Keys
    ensures LeastOrder(g, o)
  {
    GreedyDistinct(g, o);
    forall q | TopologicalOrder(g, q) ensures LexAtMost(o, q) {
      assert forall x :: x in o <==> x in ToSet(o);
      assert forall x :: x in q <==> x in ToSet(q);
      DistinctIsMultiset(o, q);
      SameElements(o, q);
      LeastAgainst(g, o, q, 0);
    }
  }

  lemma LeastIsUnique(g: Graph, o: seq<int>, q: seq<int>)
    requires LeastOrder(g, o) && LeastOrder(g, q)
    ensures o == q
  {
    assert LexAtMost(o, q) && LexAtMost(q, o);
  }

  lemma {:induction false} LeastAgainst(g: Graph, o: seq<int>, q: seq<int>, k: nat)
    requires Greedy(g, o) && TopologicalOrder(g, q) && |o| == |q|
    requires k <= |o| && o[..k] == q[..k]
    ensures LexAtMost(o, q)
    decreases |o| - k
  {
    if k == |o| {
      assert o == o[..k] && q == q[..k];
    } else if o[k] == q[k] {
      assert o[..k + 1] == o[..k] + [o[k]] && q[..k + 1] == q[..k] + [q[k]];
      LeastAgainst(g, o, q, k + 1);
    } else {
      assert q[k] in ToSet(q);
      assert q[k] !in ToSet(q[..k]);
      assert q[k] in Available(g, ToSet(o[..k]));
    }
  }

  // ----- cycles -----

  lemma {:induction false} ChainAdvances(g: Graph, o: seq<int>, p: seq<int>, m: nat, i: nat) returns (j: nat)
    requires ParentsFirst(g, o) && Chain(g, p) && 0 < m < |p|
    requires i < |o| && o[i] == p[m]
    ensures j < i && o[j] == p[0]
    decreases m
  {
    assert p[m - 1] in Parents(g, p[m]);
    assert p[m - 1] in ToSet(o[..i]);
    var h :| 0 <= h < i && o[..i][h] == p[m - 1];
    assert o[h] == p[m - 1];
    if m == 1 {
      j := h;
    } else {
      j := ChainAdvances(g, o, p, m - 1, h);
    }
  }

  /** What a listed node derives from is listed earlier. */
  lemma AncestorEarlier(g: Graph, o: seq<int>, a: int, i: nat) returns (j: nat)
    requires ParentsFirst(g, o) && i < |o| && Reach(g, a, o[i])
    ensures j < i && o[j] == a
  {
    var p :| ChainBetween(g, p, a, o[i]);
    j := ChainAdvances(g, o, p, |p| - 1, i);
  }

  /** A topological order rules cycles out: positions only grow along a chain. */
  lemma OrderedIsAcyclic(g: Graph, o: seq<int>)
    requires TopologicalOrder(g, o)
    ensures Acyclic(g)
  {
    forall n | n in g && Reach(g, n, n) ensures false {
      assert n in ToSet(o);
      var i :| 0 <= i < |o| && o[i] == n;
      var j := AncestorEarlier(g, o, n, i);
    }
  }

  /** On a cycle, or derived from a node on one. */
  ghost predicate BelowCycle(g: Graph, n: int) {
    exists c :: c in g && Reach(g, c, c) && (c == n || Reach(g, c, n))
  }

  ghost predicate KeepsParent(g: Graph, stuck: set<int>) {
    stuck <= g.Keys && forall n :: n in stuck ==> Parents(g, n) * stuck != {}
  }

  /** Following a parent inside the set again and again must come round. */
  lemma StuckIsBelowCycle(g: Graph, stuck: set<int>, n: int)
    requires KeepsParent(g, stuck) && n in stuck
    ensures BelowCycle(g, n)
  {
    var p := Climb(g, stuck, n, |stuck|);
    var i, j := Pigeonhole(p, stuck);
    SubChain(g, p, i, j);
    SubChain(g, p, i, |p| - 1);
    assert Reach(g, p[i], p[i]) && Reach(g, p[i], n);
  }

  lemma SubChain(g: Graph, p: seq<int>, i: nat, j: nat)
    requires Chain(g, p) && i < j < |p|
    ensures Reach(g, p[i], p[j])
  {
    var c := p[i..j + 1];
    forall k | 0 <= k < |c| - 1 ensures c[k] in Parents(g, c[k + 1]) {
      assert c[k] == p[i + k] && c[k + 1] == p[i + k + 1];
    }
    assert ChainBetween(g, c, p[i], p[j]);
  }

  lemma {:induction false} Climb(g: Graph, stuck: set<int>, n: int, k: nat) returns (p: seq<int>)
    requires KeepsParent(g, stuck) && n in stuck
    ensures |p| == k + 1 && Chain(g, p) && p[k] == n
    ensures forall i :: 0 <= i < |p| ==> p[i] in stuck
  {
    if k == 0 {
      p := [n];
    } else {
      var q := Climb(g, stuck, n, k - 1);
      var m := Member(Parents(g, q[0]) * stuck);
      p := [m] + q;
      forall i | 0 <= i < |p| - 1 ensures p[i] in Parents(g, p[i + 1]) {
        if i > 0 { assert p[i] == q[i - 1] && p[i + 1] == q[i]; }
      }
    }
  }

  ghost function BelowCycles(g: Graph): set<int> {
    set n | n in g.Keys && BelowCycle(g, n)
  }

  /** When the ready list runs dry, what is left over is exactly what lies on or below a cycle. */
  lemma DryLeavesCycles(g: Graph, o: seq<int>)
    requires Closed(g) && Greedy(g, o) && Available(g, ToSet(o)) == {}
    ensures g.Keys - ToSet(o) == BelowCycles(g)
  {
    GreedyDistinct(g, o);
    var stuck := g.Keys - ToSet(o);
    forall n | n in stuck ensures Parents(g, n) * stuck != {} {
      assert n !in Available(g, ToSet(o));
      var m := Outside(Parents(g, n), ToSet(o));
      assert m in Parents(g, n) * stuck;
    }
    forall n | n in g ensures n in stuck <==> BelowCycle(g, n) {
      if n in stuck {
        StuckIsBelowCycle(g, stuck, n);
      } else {
        assert n in ToSet(o);
        var i :| 0 <= i < |o| && o[i] == n;
        ListedNotBelowCycle(g, o, i);
      }
    }
  }

  lemma ListedNotBelowCycle(g: Graph, o: seq<int>, i: nat)
    requires ParentsFirst(g, o) && i < |o|
    ensures !BelowCycle(g, o[i])
  {
    forall c | c in g && Reach(g, c, c) && (c == o[i] || Reach(g, c, o[i])) ensures false {
      var j := i;
      if c != o[i] { j := AncestorEarlier(g, o, c, i); }
      var k := AncestorEarlier(g, o, c, j);
    }
  }

  lemma NothingBelowCycles(g: Graph)
    ensures Acyclic(g) <==> BelowCycles(g) == {}
  {
    if !Acyclic(g) {
      var n :| n in g && Reach(g, n, n);
      assert n in BelowCycles(g);
    }
  }

  /** When the ready list runs dry, everything was listed exactly when there is no cycle. */
  lemma DryMeansCyclic(g: Graph, o: seq<int>)
    requires Closed(g) && Greedy(g, o) && Available(g, ToSet(o)) == {}
    ensures Acyclic(g) <==> ToSet(o) == g.Keys
  {
    GreedyDistinct(g, o);
    DryLeavesCycles(g, o);
    NothingBelowCycles(g);
    if ToSet(o) != g.Keys {
      var w := Outside(g.Keys, ToSet(o));
      assert w in g.Keys - ToSet(o);
    }
  }

  // ----- construction -----

  function Normalized(n: Node): Node {
    n.(derivedFrom := SortBy(Unique(n.derivedFrom), AtMost))
  }

  lemma NormalizedParents(n: Node)
    ensures Distinct(Normalized(n).derivedFrom)
    ensures ToSet(Normalized(n).derivedFrom) == ToSet(n.derivedFrom)
  {
    var u := Unique(n.derivedFrom);
    UniqueElements(n.derivedFrom);
    SortPermutes(u, AtMost);
    SortElements(u, AtMost);
    MultisetDistinct(u, SortBy(u, AtMost));
  }

  function Ids(input: seq<Node>): (r: seq<int>)
    ensures |r| == |input|
    ensures forall i :: 0 <= i < |input| ==> r[i] == input[i].id
  {
    seq(|input|, i requires 0 <= i < |input| => input[i].id)
  }

  lemma IdsTake(input: seq<Node>, i: nat)
    requires i < |input|
    ensures Ids(input[..i + 1]) == Ids(input[..i]) + [input[i].id]
    ensures Ids(input[..i]) == Ids(input)[..i]
    ensures GraphOf(input[..i + 1]) == GraphOf(input[..i])[input[i].id := Normalized(input[i])]
  {
    assert input[..i + 1][..i] == input[..i];
  }

  /** The nodes of a list of distinct ids. */
  ghost function GraphOf(input: seq<Node>): Graph {
    if input == [] then map[] else
      var n := input[|input| - 1];
      GraphOf(input[..|input| - 1])[n.id := Normalized(n)]
  }

  lemma {:induction false} GraphOfKeys(input: seq<Node>)
    ensures GraphOf(input).Keys == ToSet(Ids(input))
  {
    if input == [] {
    } else {
      var m := |input| - 1;
      GraphOfKeys(input[..m]);
      IdsTake(input, m);
      assert input[..m + 1] == input;
    }
  }

  lemma {:induction false} GraphOfAt(input: seq<Node>, i: nat)
    requires Distinct(Ids(input)) && i < |input|
    ensures input[i].id in GraphOf(input) && GraphOf(input)[input[i].id] == Normalized(input[i])
    decreases |input|
  {
    var m := |input| - 1;
    IdsTake(input, m);
    assert input[..m + 1] == input;
    if i < m {
      assert Ids(input)[i] != Ids(input)[m];
      assert input[..m][i] == input[i];
      GraphOfAt(input[..m], i);
    }
  }

  lemma GraphOfIncluded(input: seq<Node>, other: seq<Node>, x: int)
    requires multiset(input) == multiset(other)
    requires Distinct(Ids(input)) && Distinct(Ids(other))
    requires x in GraphOf(input)
    ensures x in GraphOf(other) && GraphOf(other)[x] == GraphOf(input)[x]
  {
    GraphOfKeys(input);
    var i :| 0 <= i < |input| && Ids(input)[i] == x;
    SameElements(input, other);
    assert input[i] in other;
    var j :| 0 <= j < |other| && other[j] == input[i];
    GraphOfAt(input, i);
    GraphOfAt(other, j);
  }

  /** Listing the same nodes in another order describes the same graph. */
  lemma GraphOfForgetsOrder(input: seq<Node>, other: seq<Node>)
    requires multiset(input) == multiset(other)
    requires Distinct(Ids(input)) && Distinct(Ids(other))
    ensures GraphOf(input) == GraphOf(other)
  {
    forall x | x in GraphOf(input) ensures x in GraphOf(other) && GraphOf(other)[x] == GraphOf(input)[x] {
      GraphOfIncluded(input, other, x);
    }
    forall x | x in GraphOf(other) ensures x in GraphOf(input) {
      GraphOfIncluded(other, input, x);
    }
  }

  function ChildrenOf(downstream: map<int, seq<int>>, id: int): seq<int> {
    if id in downstream then downstream[id] else []
  }

  ghost predicate ListsChildren(g: Graph, downstream: map<int, seq<int>>) {
    forall id :: id in g ==>
      && Distinct(ChildrenOf(downstream, id))
      && forall c :: c in ChildrenOf(downstream, id) <==> c in g && id in Parents(g, c)
  }

  method CollectNodes(input: seq<Node>) returns (r: Result<Graph, BuildError>)
    ensures r.Ok? ==> Distinct(Ids(input)) && r.value == GraphOf(input)
    ensures r.Err? ==> exists i :: 0 <= i < |input| && Distinct(Ids(input[..i])) &&
                                   input[i].id in Ids(input[..i]) && r.error == DuplicateNode(input[i].id)
  {
    var nodes: Graph := map[];
    for i := 0 to |input|
      invariant Distinct(Ids(input[..i])) && nodes == GraphOf(input[..i])
    {
      GraphOfKeys(input[..i]);
      IdsTake(input, i);
      var node := Normalized(input[i]);
      if node.id in nodes {
        return Err(DuplicateNode(node.id));
      }
      nodes := nodes[node.id := node];
    }
    assert input[..|input|] == input;
    r := Ok(nodes);
  }

  /** Nodes under their own id with distinct parents; references may still dangle. */
  ghost predicate WellKeyed(g: Graph, ids: seq<int>) {
    && Distinct(ids) && ToSet(ids) == g.Keys
    && forall n :: n in g ==> g[n].id == n && Distinct(g[n].derivedFrom)
  }

  /** `downstream` lists exactly the recorded (parent, child) edges, each once. */
  ghost predicate Lists(downstream: map<int, seq<int>>, edges: set<(int, int)>) {
    forall id ::
      && Distinct(ChildrenOf(downstream, id))
      && forall c :: c in ChildrenOf(downstream, id) <==> (id, c) in edges
  }

  ghost function EdgesInto(g: Graph, node: int): set<(int, int)>
    requires node in g
  {
    EdgesFrom(g[node].derivedFrom, node)
  }

  ghost function EdgesFrom(parents: seq<int>, node: int): set<(int, int)> {
    if parents == [] then {} else
      EdgesFrom(parents[..|parents| - 1], node) + {(parents[|parents| - 1], node)}
  }

  lemma {:induction false} EdgesFromMembers(parents: seq<int>, node: int)
    ensures forall p, c :: (p, c) in EdgesFrom(parents, node) <==> p in parents && c == node
  {
    if parents == [] {
    } else {
      EdgesFromMembers(parents[..|parents| - 1], node);
      assert parents == parents[..|parents| - 1] + [parents[|parents| - 1]];
    }
  }

  lemma AddEdge(downstream: map<int, seq<int>>, edges: set<(int, int)>, parent: int, node: int)
    requires Lists(downstream, edges) && (parent, node) !in edges
    ensures Lists(downstream[parent := ChildrenOf(downstream, parent) + [node]], edges + {(parent, node)})
  {
    var next := downstream[parent := ChildrenOf(downstream, parent) + [node]];
    assert node !in ChildrenOf(downstream, parent);
    forall id
      ensures Distinct(ChildrenOf(next, id))
      ensures forall c :: c in ChildrenOf(next, id) <==> (id, c) in edges + {(parent, node)}
    {
      assert id != parent ==> ChildrenOf(next, id) == ChildrenOf(downstream, id);
      assert Distinct(ChildrenOf(downstream, id));
    }
  }

  ghost predicate EdgesOf(g: Graph, nodes: seq<int>, edges: set<(int, int)>) {
    && (forall k :: 0 <= k < |nodes| ==> nodes[k] in g)
    && forall p, c :: (p, c) in edges <==> c in nodes && p in Parents(g, c)
  }

  ghost predicate FirstDangling(g: Graph, ids: seq<int>, error: BuildError) {
    exists i :: 0 <= i < |ids| && DanglingAt(g, ids, i, error)
  }

  /** `ids[i]` is the first listed node with a parent that is not in the graph. */
  ghost predicate DanglingAt(g: Graph, ids: seq<int>, i: int, error: BuildError)
    requires 0 <= i < |ids|
  {
    && (forall k :: 0 <= k <= i ==> ids[k] in g)
    && (forall k :: 0 <= k < i ==> Parents(g, ids[k]) <= g.Keys)
    && error.MissingReference? && error.child == ids[i]
    && error.parent in Parents(g, ids[i]) && error.parent !in g
  }

  method LinkNode(g: Graph, node: int, downstream0: map<int, seq<int>>, ghost edges: set<(int, int)>)
    returns (missing: Option<int>, downstream: map<int, seq<int>>)
    requires node in g && Distinct(g[node].derivedFrom)
    requires Lists(downstream0, edges) && forall p :: (p, node) !in edges
    ensures missing == None ==> Parents(g, node) <= g.Keys
    ensures missing == None ==> Lists(downstream, edges + EdgesInto(g, node))
    ensures missing.Some? ==> missing.value in Parents(g, node) && missing.value !in g
  {
    downstream := downstream0;
    var parents := g[node].derivedFrom;
    ghost var listed := edges;
    for j := 0 to |parents|
      invariant forall k :: 0 <= k < j ==> parents[k] in g
      invariant Lists(downstream, listed)
      invariant listed == edges + EdgesFrom(parents[..j], node)
    {
      var parent := parents[j];
      if parent !in g {
        return Some(parent), downstream;
      }
      EdgesFromMembers(parents[..j], node);
      AddEdge(downstream, listed, parent, node);
      var children := ChildrenOf(downstream, parent);
      downstream := downstream[parent := children + [node]];
      listed := listed + {(parent, node)};
      assert parents[..j + 1][..j] == parents[..j];
    }
    assert parents[..|parents|] == parents;
    missing := None;
  }

  lemma EdgesGrow(g: Graph, ids: seq<int>, i: nat, edges: set<(int, int)>)
    requires i < |ids| && ids[i] in g && EdgesOf(g, ids[..i], edges)
    ensures EdgesOf(g, ids[..i + 1], edges + EdgesInto(g, ids[i]))
  {
    EdgesFromMembers(g[ids[i]].derivedFrom, ids[i]);
    assert ids[..i + 1] == ids[..i] + [ids[i]];
  }

  function SortChildren(downstream: map<int, seq<int>>): map<int, seq<int>> {
    map id | id in downstream :: SortBy(downstream[id], AtMost)
  }

  lemma SortChildrenLists(downstream: map<int, seq<int>>, edges: set<(int, int)>)
    requires Lists(downstream, edges)
    ensures Lists(SortChildren(downstream), edges)
  {
    forall id
      ensures Distinct(ChildrenOf(SortChildren(downstream), id))
      ensures forall c :: c in ChildrenOf(SortChildren(downstream), id) <==> (id, c) in edges
    {
      var children := ChildrenOf(downstream, id);
      SortPermutes(children, AtMost);
      SortElements(children, AtMost);
      MultisetDistinct(children, SortBy(children, AtMost));
      assert ChildrenOf(SortChildren(downstream), id) == SortBy(children, AtMost);
    }
  }

  lemma AllEdges(g: Graph, ids: seq<int>, downstream: map<int, seq<int>>, edges: set<(int, int)>)
    requires WellKeyed(g, ids) && EdgesOf(g, ids, edges) && Lists(downstream, edges)
    ensures ListsChildren(g, downstream)
  {
    forall c ensures c in g <==> c in ids { assert c in ToSet(ids) <==> c in ids; }
  }

  lemma AllLinked(g: Graph, ids: seq<int>)
    requires WellKeyed(g, ids) && forall k :: 0 <= k < |ids| ==> Parents(g, ids[k]) <= g.Keys
    ensures Closed(g) && ToSet(ids) == g.Keys
  {
    forall n | n in g ensures Parents(g, n) <= g.Keys {
      assert n in ToSet(ids);
      var k :| 0 <= k < |ids| && ids[k] == n;
    }
  }

  method Link(g: Graph, ids: seq<int>)
    returns (failed: Option<BuildError>, downstream: map<int, seq<int>>, indegree: map<int, int>)
    requires WellKeyed(g, ids)
    ensures failed == None ==> Closed(g) && ListsChildren(g, downstream)
    ensures failed == None ==> indegree.Keys == g.Keys && forall n :: n in g ==> indegree[n] == |g[n].derivedFrom|
    ensures failed.Some? ==> FirstDangling(g, ids, failed.value)
  {
    downstream, indegree := map[], map[];
    ghost var edges: set<(int, int)> := {};
    for i := 0 to |ids|
      invariant forall k :: 0 <= k < i ==> ids[k] in g && Parents(g, ids[k]) <= g.Keys
      invariant EdgesOf(g, ids[..i], edges) && Lists(downstream, edges)
      invariant indegree.Keys == ToSet(ids[..i])
      invariant forall n :: n in indegree ==> n in g && indegree[n] == |g[n].derivedFrom|
    {
      var node := ids[i];
      assert node in ToSet(ids);
      indegree := indegree[node := |g[node].derivedFrom|];
      assert node !in ids[..i];
      var missing: Option<int>;
      missing, downstream := LinkNode(g, node, downstream, edges);
      if missing.Some? {
        assert DanglingAt(g, ids, i, MissingReference(missing.value, node));
        return Some(MissingReference(missing.value, node)), downstream, indegree;
      }
      EdgesGrow(g, ids, i, edges);
      edges := edges + EdgesInto(g, node);
      assert ids[..i + 1] == ids[..i] + [node];
    }
    assert ids[..|ids|] == ids;
    SortChildrenLists(downstream, edges);
    downstream := SortChildren(downstream);
    AllEdges(g, ids, downstream, edges);
    AllLinked(g, ids);
    failed := None;
  }

  // ----- the ready loop -----

  ghost predicate Counts(g: Graph, indegree: map<int, int>, done: set<int>) {
    indegree.Keys == g.Keys && forall n :: n in g ==> indegree[n] == |Parents(g, n) - done|
  }

  ghost predicate IsReady(ready: seq<int>, waiting: set<int>) {
    SortedBy(ready, AtMost) && Distinct(ready) && ToSet(ready) == waiting
  }

  lemma SortIsReady(s: seq<int>)
    requires Distinct(s)
    ensures IsReady(SortBy(s, AtMost), ToSet(s))
  {
    SortSorts(s, AtMost);
    SortPermutes(s, AtMost);
    SortElements(s, AtMost);
    MultisetDistinct(s, SortBy(s, AtMost));
  }

  lemma CountStep(parents: set<int>, done: set<int>, id: int)
    requires id !in done
    ensures |parents - (done + {id})| == |parents - done| - if id in parents then 1 else 0
  {
    if id in parents {
      assert parents - done == (parents - (done + {id})) + {id};
    } else {
      assert parents - done == parents - (done + {id});
    }
  }

  lemma CountZero(parents: set<int>, done: set<int>)
    ensures |parents - done| == 0 <==> parents <= done
  {
    if |parents - done| == 0 {
      forall p | p in parents ensures p in done { assert p in done || p in parents - done; }
    } else {
      var p := Member(parents - done);
    }
  }

  /** Nodes not listed yet whose remaining count is zero. */
  ghost function ZeroCount(indegree: map<int, int>, listed: set<int>): set<int> {
    set n | n in indegree.Keys && n !in listed && indegree[n] == 0
  }

  lemma ZeroCountIsAvailable(g: Graph, indegree: map<int, int>, done: set<int>)
    requires Counts(g, indegree, done)
    ensures ZeroCount(indegree, done) == Available(g, done)
  {
    forall n | n in g ensures n in ZeroCount(indegree, done) <==> n in Available(g, done) {
      CountZero(Parents(g, n), done);
    }
  }

  lemma DecrementReady(ready: seq<int>, indegree: map<int, int>, listed: set<int>, child: int)
    requires IsReady(ready, ZeroCount(indegree, listed))
    requires child in indegree && child !in listed && indegree[child] > 0
    ensures
      var remaining := indegree[child] - 1;
      IsReady(if remaining == 0 then SortBy(ready + [child], AtMost) else ready,
              ZeroCount(indegree[child := remaining], listed))
  {
    var next := indegree[child := indegree[child] - 1];
    assert child !in ToSet(ready);
    if indegree[child] == 1 {
      SortIsReady(ready + [child]);
      assert ToSet(ready + [child]) == ToSet(ready) + {child};
      assert ZeroCount(next, listed) == ZeroCount(indegree, listed) + {child};
    } else {
      assert ZeroCount(next, listed) == ZeroCount(indegree, listed);
    }
  }

  /** Listed nodes have all their parents listed. */
  ghost predicate ParentsDone(g: Graph, done: set<int>) {
    done <= g.Keys && forall n :: n in done ==> Parents(g, n) <= done
  }

  /** Counts inside the inner loop: the children in `seen` no longer wait for `id`. */
  ghost predicate CountsBetween(g: Graph, indegree: map<int, int>, done: set<int>, id: int, seen: set<int>) {
    indegree.Keys == g.Keys &&
    forall n :: n in g ==> indegree[n] == |Parents(g, n) - done| - if n in seen then 1 else 0
  }

  lemma CountsAfter(g: Graph, indegree: map<int, int>, done: set<int>, id: int, children: set<int>)
    requires CountsBetween(g, indegree, done, id, children)
    requires id !in done && forall c :: c in children <==> c in g && id in Parents(g, c)
    ensures Counts(g, indegree, done + {id})
  {
    forall n | n in g ensures indegree[n] == |Parents(g, n) - (done + {id})| {
      CountStep(Parents(g, n), done, id);
    }
  }

  lemma ChildWaits(g: Graph, done: set<int>, id: int, child: int)
    requires ParentsDone(g, done) && id in Available(g, done)
    requires child in g && id in Parents(g, child)
    ensures child !in done + {id} && |Parents(g, child) - done| > 0
  {
    assert id in Parents(g, child) - done;
  }

  lemma TakeOneMore(s: seq<int>, j: nat)
    requires j < |s|
    ensures ToSet(s[..j + 1]) == ToSet(s[..j]) + {s[j]}
  {
    assert s[..j + 1] == s[..j] + [s[j]];
  }

  method ReleaseChildren(g: Graph, ghost done: set<int>, id: int, children: seq<int>, ready0: seq<int>, indegree0: map<int, int>)
    returns (ready: seq<int>, indegree: map<int, int>)
    requires ParentsDone(g, done) && id in Available(g, done)
    requires Distinct(children) && forall c :: c in children <==> c in g && id in Parents(g, c)
    requires Counts(g, indegree0, done) && IsReady(ready0, ZeroCount(indegree0, done + {id}))
    ensures Counts(g, indegree, done + {id}) && IsReady(ready, ZeroCount(indegree, done + {id}))
  {
    ready, indegree := ready0, indegree0;
    for j := 0 to |children|
      invariant CountsBetween(g, indegree, done, id, ToSet(children[..j]))
      invariant IsReady(ready, ZeroCount(indegree, done + {id}))
    {
      var child := children[j];
      assert child in children && child !in children[..j];
      ChildWaits(g, done, id, child);
      DecrementReady(ready, indegree, done + {id}, child);
      TakeOneMore(children, j);
      var remaining := indegree[child] - 1;
      indegree := indegree[child := remaining];
      if remaining == 0 {
        ready := SortBy(ready + [child], AtMost);
      }
    }
    assert children[..|children|] == children;
    CountsAfter(g, indegree, done, id, ToSet(children));
  }

  lemma GreedyExtends(g: Graph, o: seq<int>, id: int)
    requires Greedy(g, o)
    requires id in Available(g, ToSet(o)) && forall m :: m in Available(g, ToSet(o)) ==> id <= m
    ensures Greedy(g, o + [id]) && ToSet(o + [id]) == ToSet(o) + {id}
  {
    var q := o + [id];
    forall k | 0 <= k < |q| ensures q[..k] == o[..k] {
    }
    assert o[..|o|] == o;
  }

  lemma GreedyParentsDone(g: Graph, o: seq<int>)
    requires Greedy(g, o)
    ensures ParentsDone(g, ToSet(o))
  {
    GreedyDistinct(g, o);
    forall n | n in ToSet(o) ensures Parents(g, n) <= ToSet(o) {
      var k :| 0 <= k < |o| && o[k] == n;
      assert o[k] in Available(g, ToSet(o[..k]));
    }
  }

  lemma ShiftReady(ready: seq<int>, indegree: map<int, int>, listed: set<int>)
    requires IsReady(ready, ZeroCount(indegree, listed)) && ready != []
    ensures ready[0] in ZeroCount(indegree, listed)
    ensures forall m :: m in ZeroCount(indegree, listed) ==> ready[0] <= m
    ensures IsReady(ready[1..], ZeroCount(indegree, listed + {ready[0]}))
  {
    assert ready[0] in ToSet(ready);
    forall m | m in ZeroCount(indegree, listed) ensures ready[0] <= m {
      assert m in ToSet(ready);
      var i :| 0 <= i < |ready| && ready[i] == m;
      if i > 0 { assert AtMost(ready[0], ready[i]); }
    }
    assert ready == [ready[0]] + ready[1..];
    assert ToSet(ready) == {ready[0]} + ToSet(ready[1..]);
    assert ZeroCount(indegree, listed + {ready[0]}) == ZeroCount(indegree, listed) - {ready[0]};
    assert ready[0] !in ready[1..];
  }

  method InitialReady(g: Graph, ids: seq<int>, indegree: map<int, int>) returns (ready: seq<int>)
    requires WellKeyed(g, ids) && indegree.Keys == g.Keys
    ensures IsReady(ready, ZeroCount(indegree, {}))
  {
    var isZero := (id: int) => id in indegree && indegree[id] == 0;
    var zero := Filter(ids, isZero);
    FilterElements(ids, isZero);
    FilterDistinct(ids, isZero);
    SortIsReady(zero);
    forall n ensures n in ToSet(zero) <==> n in ZeroCount(indegree, {}) {
      assert n in g <==> n in ToSet(ids);
    }
    assert ToSet(zero) == ZeroCount(indegree, {});
    ready := SortBy(zero, AtMost);
  }

  /** Kahn's loop: it terminates on every graph, and lists greedily until nothing is available. */
  method Drain(g: Graph, ids: seq<int>, downstream: map<int, seq<int>>, indegree0: map<int, int>)
    returns (ordered: seq<int>, indegree: map<int, int>)
    requires Closed(g) && WellKeyed(g, ids) && ListsChildren(g, downstream) && Counts(g, indegree0, {})
    ensures Greedy(g, ordered) && Available(g, ToSet(ordered)) == {}
    ensures Counts(g, indegree, ToSet(ordered))
  {
    ordered, indegree := [], indegree0;
    var ready := InitialReady(g, ids, indegree0);
    while |ready| > 0
      invariant Greedy(g, ordered) && Counts(g, indegree, ToSet(ordered))
      invariant IsReady(ready, ZeroCount(indegree, ToSet(ordered)))
      decreases |g| - |ordered|
    {
      var id := ready[0];
      ZeroCountIsAvailable(g, indegree, ToSet(ordered));
      ShiftReady(ready, indegree, ToSet(ordered));
      GreedyParentsDone(g, ordered);
      GreedyExtends(g, ordered, id);
      ghost var done := ToSet(ordered);
      ready := ready[1..];
      ordered := ordered + [id];
      ready, indegree := ReleaseChildren(g, done, id, ChildrenOf(downstream, id), ready, indegree);
      GreedyFits(g, ordered);
    }
    ZeroCountIsAvailable(g, indegree, ToSet(ordered));
  }

  lemma GreedyFits(g: Graph, o: seq<int>)
    requires Greedy(g, o)
    ensures |o| <= |g|
  {
    GreedyDistinct(g, o);
    DistinctCardinality(o);
    SubsetCardinality(ToSet(o), g.Keys);
    assert |g.Keys| == |g|;
  }

  method CyclicIds(g: Graph, ids: seq<int>, indegree: map<int, int>, ghost o: seq<int>) returns (cyclic: seq<int>)
    requires Closed(g) && WellKeyed(g, ids) && Counts(g, indegree, ToSet(o))
    requires Greedy(g, o) && Available(g, ToSet(o)) == {}
    ensures IsReady(cyclic, BelowCycles(g))
  {
    var waits := (id: int) => id in indegree && indegree[id] > 0;
    var list := Filter(ids, waits);
    FilterElements(ids, waits);
    FilterDistinct(ids, waits);
    SortIsReady(list);
    DryLeavesCycles(g, o);
    GreedyParentsDone(g, o);
    forall n ensures n in ToSet(list) <==> n in BelowCycles(g) {
      assert n in g <==> n in ToSet(ids);
      if n in g {
        CountZero(Parents(g, n), ToSet(o));
        assert n in ToSet(o) || n !in Available(g, ToSet(o));
      }
    }
    assert ToSet(list) == BelowCycles(g);
    cyclic := SortBy(list, AtMost);
  }

  /** What `Build` reports for a list of nodes, error by error. */
  ghost predicate BuildFailure(input: seq<Node>, error: BuildError) {
    match error
    case DuplicateNode(id) =>
      exists i :: 0 <= i < |input| && Distinct(Ids(input[..i])) && input[i].id in Ids(input[..i]) && id == input[i].id
    case MissingReference(_, _) =>
      Distinct(Ids(input)) && FirstDangling(GraphOf(input), Ids(input), error)
    case CycleDetected(ids) =>
      Distinct(Ids(input)) && Closed(GraphOf(input)) && IsReady(ids, BelowCycles(GraphOf(input)))
  }

  lemma WellKeyedInput(input: seq<Node>)
    requires Distinct(Ids(input))
    ensures WellKeyed(GraphOf(input), Ids(input))
  {
    var g := GraphOf(input);
    GraphOfKeys(input);
    forall n | n in g ensures g[n].id == n && Distinct(g[n].derivedFrom) {
      assert n in Ids(input);
      var i :| 0 <= i < |input| && Ids(input)[i] == n;
      GraphOfAt(input, i);
      NormalizedParents(input[i]);
    }
  }

  /** What a depth-first search has added since `found0`: closed upwards, and above `id`. */
  ghost predicate Searched(g: Graph, id: int, found0: set<int>, found: set<int>) {
    && found0 <= found <= g.Keys
    && forall n :: n in found - found0 ==> Parents(g, n) <= found && Reach(g, n, id)
  }

  lemma SearchedThrough(g: Graph, id: int, parent: int, found0: set<int>, before: set<int>, found: set<int>)
    requires Searched(g, id, found0, before) && parent in g && Reach(g, parent, id)
    requires Searched(g, parent, before + {parent}, found) && Parents(g, parent) <= found
    ensures Searched(g, id, found0, found)
  {
    forall n | n in found - found0 ensures Parents(g, n) <= found && Reach(g, n, id) {
      if n !in before && n != parent { ReachTransitive(g, n, parent, id); }
    }
  }

  /** The recursive `visit` of traceUpstream. */
  method Visit(g: Graph, id: int, found0: set<int>) returns (found: set<int>)
    requires Closed(g) && id in g && found0 <= g.Keys
    ensures Searched(g, id, found0, found) && Parents(g, id) <= found
    decreases |g.Keys - found0|
  {
    found := found0;
    var parents := g[id].derivedFrom;
    for i := 0 to |parents|
      invariant Searched(g, id, found0, found)
      invariant forall k :: 0 <= k < i ==> parents[k] in found
    {
      var parent := parents[i];
      assert parent in Parents(g, id);
      if parent !in found {
        ReachStep(g, parent, id);
        ShrinksBy(g.Keys, found0, found + {parent}, parent);
        ghost var before := found;
        found := Visit(g, parent, found + {parent});
        SearchedThrough(g, id, parent, found0, before, found);
      }
    }
  }

  /** `found` and `pending` stay among `all`, and no child of a found node is left out of both. */
  ghost predicate Worklist(kids: map<int, set<int>>, all: set<int>, first: set<int>, found: set<int>, pending: set<int>) {
    && found + pending <= all <= kids.Keys
    && first <= found + pending
    && forall n :: n in found ==> kids[n] <= found + pending
  }

  lemma WorklistTake(kids: map<int, set<int>>, all: set<int>, first: set<int>, found: set<int>, rest: set<int>, child: int)
    requires Worklist(kids, all, first, found, rest + {child}) && kids[child] <= all
    ensures child in found ==> Worklist(kids, all, first, found, rest)
    ensures Worklist(kids, all, first, found + {child}, rest + kids[child])
  {
  }

  ghost function Kids(g: Graph, downstream: map<int, seq<int>>): map<int, set<int>> {
    map n | n in g :: ToSet(ChildrenOf(downstream, n))
  }

  lemma KidsDescend(g: Graph, downstream: map<int, seq<int>>, id: int, n: int)
    requires ListsChildren(g, downstream) && n in g && (n == id || n in Descendants(g, id))
    ensures ToSet(ChildrenOf(downstream, n)) <= Descendants(g, id)
  {
    forall c | c in ChildrenOf(downstream, n) ensures c in Descendants(g, id) {
      ReachStep(g, n, c);
      if n != id { ReachTransitive(g, id, n, c); }
    }
  }

  lemma WorklistDone(g: Graph, downstream: map<int, seq<int>>, id: int, found: set<int>)
    requires ListsChildren(g, downstream) && id in g
    requires Worklist(Kids(g, downstream), Descendants(g, id), Kids(g, downstream)[id], found, {})
    ensures found == Descendants(g, id)
  {
    assert found + {} == found;
    forall n | n in Descendants(g, id) ensures n in found {
      DescendantsClosed(g, downstream, found, id, n);
    }
  }

  /** The worklist of traceDownstream; an id may be queued more than once. */
  method CollectDescendants(g: Graph, downstream: map<int, seq<int>>, id: int) returns (found: set<int>)
    requires ListsChildren(g, downstream) && id in g
    ensures found == Descendants(g, id)
  {
    found := {};
    var pending := ChildrenOf(downstream, id);
    ghost var kids, all := Kids(g, downstream), Descendants(g, id);
    KidsDescend(g, downstream, id, id);
    while |pending| > 0
      invariant Worklist(kids, all, kids[id], found, ToSet(pending))
      decreases |all - found|, |pending|
    {
      var child := pending[0];
      HeadTailSet(pending);
      KidsDescend(g, downstream, id, child);
      WorklistTake(kids, all, kids[id], found, ToSet(pending[1..]), child);
      pending := pending[1..];
      if child !in found {
        ShrinksBy(all, found, found + {child}, child);
        ConcatSet(pending, ChildrenOf(downstream, child));
        found := found + {child};
        pending := pending + ChildrenOf(downstream, child);
      }
    }
    WorklistDone(g, downstream, id, found);
  }

  class ProvenanceGraph {
    const nodes: Graph
    const downstream: map<int, seq<int>>
    const topological: seq<int>
    var invalidated: set<int>

    ghost predicate Valid()
      reads this
    {
      && Closed(nodes) && ListsChildren(nodes, downstream)
      && Greedy(nodes, topological) && ToSet(topological) == nodes.Keys
      && invalidated <= nodes.Keys
    }

    constructor (nodes: Graph, downstream: map<int, seq<int>>, topological: seq<int>)
      requires Closed(nodes) && ListsChildren(nodes, downstream)
      requires Greedy(nodes, topological) && ToSet(topological) == nodes.Keys
      ensures Valid() && this.nodes == nodes && this.topological == topological && invalidated == {}
    {
      this.nodes, this.downstream, this.topological := nodes, downstream, topological;
      invalidated := {};
    }

    /** Succeeds exactly on distinct ids, resolved references and no cycle; the order is the least one. */
    static method Build(input: seq<Node>) returns (r: Result<ProvenanceGraph, BuildError>)
      ensures r.Ok? <==> Distinct(Ids(input)) && Closed(GraphOf(input)) && Acyclic(GraphOf(input))
      ensures r.Ok? ==> fresh(r.value) && r.value.Valid() && r.value.nodes == GraphOf(input) && r.value.invalidated == {}
      ensures r.Ok? ==> LeastOrder(GraphOf(input), r.value.topological)
      ensures r.Err? ==> BuildFailure(input, r.error)
    {
      var collected := CollectNodes(input);
      if collected.Err? {
        DuplicateMeansIndistinct(input, collected.error);
        return Err(collected.error);
      }
      var g, ids := collected.value, Ids(input);
      WellKeyedInput(input);
      var failed, downstream, indegree := Link(g, ids);
      if failed.Some? {
        DanglingMeansOpen(g, ids, failed.value);
        return Err(failed.value);
      }
      InitialCounts(g, indegree);
      var ordered: seq<int>;
      ordered, indegree := Drain(g, ids, downstream, indegree);
      DryMeansCyclic(g, ordered);
      OrderedCount(g, ordered);
      if |ordered| != |g| {
        var cyclic := CyclicIds(g, ids, indegree, ordered);
        return Err(CycleDetected(cyclic));
      }
      GreedyIsLeastOrder(g, ordered);
      var graph := new ProvenanceGraph(g, downstream, ordered);
      r := Ok(graph);
    }

    method TraceUpstream(id: int) returns (r: Result<seq<int>, TraceError>)
      requires Valid()
      ensures r.Err? <==> id !in nodes
      ensures r.Ok? ==> r.value == Filter(topological, n => n in Ancestors(nodes, id))
    {
      if id !in nodes { return Err(NoSuchNode(id)); }
      var ancestors := Visit(nodes, id, {});
      forall n | n in nodes && Reach(nodes, n, id) ensures n in ancestors {
        AncestorsClosed(nodes, ancestors, n, id);
      }
      assert ancestors == Ancestors(nodes, id);
      var isAncestor := n => n in ancestors;
      FilterSame(topological, isAncestor, n => n in Ancestors(nodes, id));
      r := Ok(Filter(topological, isAncestor));
    }

    method TraceDownstream(id: int) returns (r: Result<seq<int>, TraceError>)
      requires Valid()
      ensures r.Err? <==> id !in nodes
      ensures r.Ok? ==> r.value == Filter(topological, n => n in Descendants(nodes, id))
    {
      if id !in nodes { return Err(NoSuchNode(id)); }
      var descendants := CollectDescendants(nodes, downstream, id);
      var isDescendant := n => n in descendants;
      FilterSame(topological, isDescendant, n => n in Descendants(nodes, id));
      r := Ok(Filter(topological, isDescendant));
    }

    /** Invalidation is recorded before the id, reason and time are checked: a malformed one still counts. */
    method Invalidate(sourceId: int, wellFormed: bool) returns (r: Result<seq<int>, TraceError>)
      requires Valid()
      modifies this
      ensures Valid()
      ensures invalidated == InvalidateStep(nodes, old(invalidated), Invalidation(sourceId, wellFormed))
      ensures sourceId !in nodes ==> r == Err(NoSuchNode(sourceId))
      ensures sourceId in nodes ==>
                Unsupported(nodes, invalidated) ==
                Unsupported(nodes, old(invalidated)) + {sourceId} + Descendants(nodes, sourceId)
      ensures sourceId in nodes && !wellFormed ==> r == Err(MalformedInvalidation)
      ensures sourceId in nodes && wellFormed ==>
                r == Ok(Filter(topological, n => n in Descendants(nodes, sourceId)))
    {
      if sourceId !in nodes { return Err(NoSuchNode(sourceId)); }
      var affected := TraceDownstream(sourceId);
      invalidated := invalidated + {sourceId};
      r := if wellFormed then affected else Err(MalformedInvalidation);
    }

    method SupportStatus(id: int) returns (r: Result<bool, TraceError>)
      requires Valid()
      ensures r.Err? <==> id !in nodes
      ensures r.Ok? ==> (r.value <==> id !in Unsupported(nodes, invalidated))
    {
      if id !in nodes { return Err(NoSuchNode(id)); }
      if id in invalidated { return Ok(false); }
      var upstream := TraceUpstream(id);
      var list := upstream.value;
      FilterElements(topological, n => n in Ancestors(nodes, id));
      forall n ensures n in list <==> n in Ancestors(nodes, id) {
        assert n in topological <==> n in ToSet(topological);
      }
      r := Ok(!exists n :: n in list && n in invalidated);
    }
  }

  /** Invalidated, or derived from something invalidated. */
  ghost function Unsupported(g: Graph, invalidated: set<int>): set<int> {
    set n | n in g.Keys && (n in invalidated || exists s :: s in invalidated && Reach(g, s, n))
  }

  lemma ShrinksBy(all: set<int>, small: set<int>, big: set<int>, x: int)
    requires small <= big && x in all && x in big && x !in small
    ensures |all - big| < |all - small|
  {
    SubsetCardinality((all - big) + {x}, all - small);
  }

  lemma {:induction false} AncestorsClosed(g: Graph, found: set<int>, n: int, id: int)
    requires Closed(g) && id in g && Parents(g, id) <= found <= g.Keys
    requires forall m :: m in found ==> Parents(g, m) <= found
    requires Reach(g, n, id)
    ensures n in found
  {
    var p :| ChainBetween(g, p, n, id);
    ChainInside(g, found, p, |p| - 1);
  }

  lemma {:induction false} ChainInside(g: Graph, found: set<int>, p: seq<int>, k: nat)
    requires Chain(g, p) && 0 < k < |p| && Parents(g, p[k]) <= found <= g.Keys
    requires forall m :: m in found ==> Parents(g, m) <= found
    ensures p[0] in found
    decreases k
  {
    assert p[k - 1] in Parents(g, p[k]);
    if k > 1 { ChainInside(g, found, p, k - 1); }
  }

  lemma DescendantsClosed(g: Graph, downstream: map<int, seq<int>>, found: set<int>, id: int, n: int)
    requires ListsChildren(g, downstream) && id in g && found <= g.Keys && Reach(g, id, n)
    requires ToSet(ChildrenOf(downstream, id)) <= found
    requires forall m :: m in found ==> ToSet(ChildrenOf(downstream, m)) <= found
    ensures n in found
  {
    var p :| ChainBetween(g, p, id, n);
    ChainForward(g, downstream, found, p, |p| - 1);
  }

  lemma {:induction false} ChainForward(g: Graph, downstream: map<int, seq<int>>, found: set<int>, p: seq<int>, k: nat)
    requires ListsChildren(g, downstream) && Chain(g, p) && 0 < k < |p| && found <= g.Keys
    requires ToSet(ChildrenOf(downstream, p[0])) <= found
    requires forall m :: m in found ==> ToSet(ChildrenOf(downstream, m)) <= found
    ensures p[k] in found
    decreases k
  {
    assert p[k - 1] in Parents(g, p[k]);
    assert p[k] in ToSet(ChildrenOf(downstream, p[k - 1]));
    if k > 1 { ChainForward(g, downstream, found, p, k - 1); }
  }

  // ----- what the class promises, across calls -----

  /** Upstream and downstream traces are converse. */
  lemma TracesAreConverse(g: Graph, o: seq<int>, a: int, b: int)
    requires TopologicalOrder(g, o) && a in g && b in g
    ensures b in Filter(o, n => n in Descendants(g, a)) <==> a in Filter(o, n => n in Ancestors(g, b))
  {
    FilterElements(o, n => n in Descendants(g, a));
    FilterElements(o, n => n in Ancestors(g, b));
    assert a in ToSet(o) && b in ToSet(o);
  }

  /** Listing the same nodes differently builds the same graph in the same order. */
  lemma BuildForgetsListing(input: seq<Node>, other: seq<Node>, o: seq<int>, q: seq<int>)
    requires multiset(input) == multiset(other) && Distinct(Ids(input)) && Distinct(Ids(other))
    requires LeastOrder(GraphOf(input), o) && LeastOrder(GraphOf(other), q)
    ensures GraphOf(input) == GraphOf(other) && o == q
  {
    GraphOfForgetsOrder(input, other);
    LeastIsUnique(GraphOf(input), o, q);
  }

  /** A call of `invalidate`; `wellFormed` says whether its id, reason and time pass their checks. */
  datatype Invalidation = Invalidation(sourceId: int, wellFormed: bool)

  function InvalidateStep(g: Graph, invalidated: set<int>, call: Invalidation): set<int> {
    if call.sourceId in g then invalidated + {call.sourceId} else invalidated
  }

  function InvalidateAll(g: Graph, calls: seq<Invalidation>): set<int> {
    if calls == [] then {} else InvalidateStep(g, InvalidateAll(g, calls[..|calls| - 1]), calls[|calls| - 1])
  }

  lemma {:induction false} InvalidatedBy(g: Graph, calls: seq<Invalidation>, s: int)
    ensures s in InvalidateAll(g, calls) <==> exists i :: 0 <= i < |calls| && calls[i].sourceId == s && s in g
    decreases |calls|
  {
    if calls != [] {
      var init := calls[..|calls| - 1];
      InvalidatedBy(g, init, s);
      assert forall i :: 0 <= i < |init| ==> calls[i] == init[i];
    }
  }

  /**
   After any run of calls, malformed and refused ones included, unsupported is every known node that was named
   in a call or descends from one that was.
   */
  lemma UnsupportedAfterRun(g: Graph, calls: seq<Invalidation>, n: int)
    requires n in g
    ensures n in Unsupported(g, InvalidateAll(g, calls)) <==>
            exists i :: 0 <= i < |calls| && calls[i].sourceId in g &&
                        (n == calls[i].sourceId || n in Descendants(g, calls[i].sourceId))
  {
    var sources := InvalidateAll(g, calls);
    if n in Unsupported(g, sources) {
      var s :| s in sources && (n == s || Reach(g, s, n));
      InvalidatedBy(g, calls, s);
      var i :| 0 <= i < |calls| && calls[i].sourceId == s;
      assert n == s || n in Descendants(g, calls[i].sourceId);
    }
    forall i | 0 <= i < |calls| && calls[i].sourceId in g ensures calls[i].sourceId in sources {
      InvalidatedBy(g, calls, calls[i].sourceId);
    }
  }

  lemma DuplicateMeansIndistinct(input: seq<Node>, error: BuildError)
    requires error.DuplicateNode? && BuildFailure(input, error)
    ensures !Distinct(Ids(input))
  {
    var i :| 0 <= i < |input| && Distinct(Ids(input[..i])) && input[i].id in Ids(input[..i]) && error.id == input[i].id;
    var j :| 0 <= j < i && Ids(input[..i])[j] == input[i].id;
    assert Ids(input)[j] == Ids(input)[i];
  }

  lemma DanglingMeansOpen(g: Graph, ids: seq<int>, error: BuildError)
    requires FirstDangling(g, ids, error)
    ensures !Closed(g)
  {
    var i :| 0 <= i < |ids| && DanglingAt(g, ids, i, error);
    assert error.parent in Parents(g, ids[i]);
  }

  lemma InitialCounts(g: Graph, indegree: map<int, int>)
    requires Closed(g) && indegree.Keys == g.Keys
    requires forall n :: n in g ==> indegree[n] == |g[n].derivedFrom|
    ensures Counts(g, indegree, {})
  {
    forall n | n in g ensures indegree[n] == |Parents(g, n) - {}| {
      DistinctCardinality(g[n].derivedFrom);
      assert Parents(g, n) - {} == Parents(g, n);
    }
  }

  lemma OrderedCount(g: Graph, o: seq<int>)
    requires Greedy(g, o)
    ensures |o| == |g| <==> ToSet(o) == g.Keys
  {
    GreedyDistinct(g, o);
    DistinctCardinality(o);
    assert |g.Keys| == |g|;
    if |o| == |g| && ToSet(o) != g.Keys {
      var w := Outside(g.Keys, ToSet(o));
      SubsetCardinality(ToSet(o), g.Keys - {w});
    }
  }
}
