/** The shortest path loop of the benchmark: relaxation from the start's own row, n - 1
    catches, and 9999 for both "no edge" and "no predecessor". */
module Dijkstra {
  const NONE: int := 9999

  datatype Node = Node(dist: int, prev: int, caught: bool)

  type Matrix = seq<seq<int>>

  /** Weights are at least 1, except that a node may have a loop of weight 0. */
  predicate MatrixOk(adj: Matrix) {
    && 0 < |adj| < NONE
    && (forall i :: 0 <= i < |adj| ==> |adj[i]| == |adj|)
    && (forall i, j :: 0 <= i < |adj| && 0 <= j < |adj| ==> adj[i][j] >= (if i == j then 0 else 1))
  }

  // ---- Walks ----

  /** A nonempty walk from the start, named by the nodes after it. */
  predicate IsWalk(adj: Matrix, w: seq<nat>) {
    0 < |w| && forall k :: 0 <= k < |w| ==> w[k] < |adj|
  }

  function End(w: seq<nat>): nat
    requires 0 < |w|
  {
    w[|w| - 1]
  }

  function Cost(adj: Matrix, start: nat, w: seq<nat>): int
    requires MatrixOk(adj) && start < |adj| && IsWalk(adj, w)
  {
    if |w| == 1 then adj[start][w[0]]
    else Cost(adj, start, w[..|w| - 1]) + adj[w[|w| - 2]][w[|w| - 1]]
  }

  /** `d` is the cost of a walk to `v`, and no walk to `v` costs less. */
  ghost predicate IsLeast(adj: Matrix, start: nat, v: nat, d: int)
    requires MatrixOk(adj) && start < |adj|
  {
    && (exists w: seq<nat> :: IsWalk(adj, w) && End(w) == v && Cost(adj, start, w) == d)
    && (forall w: seq<nat> :: IsWalk(adj, w) && End(w) == v ==> d <= Cost(adj, start, w))
  }

  lemma {:induction false} CostIsNonNegative(adj: Matrix, start: nat, w: seq<nat>)
    requires MatrixOk(adj) && start < |adj| && IsWalk(adj, w)
    ensures 0 <= Cost(adj, start, w)
    ensures End(w) != start ==> 0 < Cost(adj, start, w)
  {
    if |w| > 1 {
      CostIsNonNegative(adj, start, w[..|w| - 1]);
    }
  }

  // ---- The state of the loop ----

  predicate Sized(adj: Matrix, nodes: seq<Node>, start: nat) {
    MatrixOk(adj) && start < |adj| && |nodes| == |adj|
  }

  function Caught(nodes: seq<Node>): set<nat> {
    set i: nat | i < |nodes| && nodes[i].caught
  }

  /** A node's distance is its edge from the start, or goes through a caught predecessor. */
  predicate PrevOk(adj: Matrix, nodes: seq<Node>, start: nat, v: nat)
    requires Sized(adj, nodes, start) && v < |nodes|
  {
    if nodes[v].prev == NONE then nodes[v].dist == adj[start][v]
    else
      var p := nodes[v].prev;
      0 <= p < |nodes| && p != v && nodes[p].caught && nodes[v].dist == nodes[p].dist + adj[p][v]
  }

  /** Relaxed from the start and from every caught node. */
  ghost predicate Relaxed(adj: Matrix, nodes: seq<Node>, start: nat, v: nat)
    requires Sized(adj, nodes, start) && v < |nodes|
  {
    && nodes[v].dist <= adj[start][v]
    && forall c: nat :: c < |nodes| && nodes[c].caught ==> nodes[v].dist <= nodes[c].dist + adj[c][v]
  }

  /** Caught nodes are closer than the others, a zero distance apart. */
  ghost predicate Ordered(nodes: seq<Node>) {
    forall c: nat, v: nat :: c < |nodes| && v < |nodes| && nodes[c].caught && !nodes[v].caught && nodes[v].dist != 0 ==>
      nodes[c].dist <= nodes[v].dist
  }

  ghost predicate Distances(adj: Matrix, nodes: seq<Node>, start: nat)
    requires Sized(adj, nodes, start)
  {
    forall v: nat :: v < |nodes| ==>
      && nodes[v].dist >= (if v == start then 0 else 1)
      && (nodes[v].caught ==> 0 < nodes[v].dist < NONE)
  }

  ghost predicate Inv(adj: Matrix, nodes: seq<Node>, start: nat) {
    && Sized(adj, nodes, start) && Distances(adj, nodes, start) && Ordered(nodes)
    && (forall v: nat :: v < |nodes| ==> PrevOk(adj, nodes, start, v))
    && (forall v: nat :: v < |nodes| ==> Relaxed(adj, nodes, start, v))
  }

  /** All nodes but at most one can be caught: they have a walk of cost below 9999, and the
      start, if it is among them, has no free loop. */
  ghost predicate Catchable(adj: Matrix, start: nat)
    requires MatrixOk(adj) && start < |adj|
  {
    exists skip: nat :: AllBut(adj, start, skip)
  }

  ghost predicate AllBut(adj: Matrix, start: nat, skip: nat)
    requires MatrixOk(adj) && start < |adj|
  {
    forall v: nat :: v < |adj| && v != skip ==> CanCatch(adj, start, v)
  }

  ghost predicate CanCatch(adj: Matrix, start: nat, v: nat)
    requires MatrixOk(adj) && start < |adj|
  {
    && (v == start ==> adj[start][start] > 0)
    && exists w: seq<nat> :: IsWalk(adj, w) && End(w) == v && Cost(adj, start, w) < NONE
  }

  // ---- Distances are costs of walks ----

  /** Following the predecessors backwards, the distance shrinks at every step. */
  function PathTo(adj: Matrix, nodes: seq<Node>, start: nat, v: nat): (w: seq<nat>)
    requires Inv(adj, nodes, start) && v < |nodes|
    ensures IsWalk(adj, w) && End(w) == v && Cost(adj, start, w) == nodes[v].dist
    decreases nodes[v].dist
  {
    assert PrevOk(adj, nodes, start, v) && nodes[v].dist >= 0;
    if nodes[v].prev == NONE then [v]
    else
      var p := nodes[v].prev;
      var front := PathTo(adj, nodes, start, p);
      assert (front + [v])[..|front|] == front;
      front + [v]
  }

  // ---- Progress ----

  /** With nothing left to catch below 9999, distances bound all walks below 9999. */
  lemma {:induction false} NothingLeft(adj: Matrix, nodes: seq<Node>, start: nat, w: seq<nat>)
    requires Inv(adj, nodes, start) && IsWalk(adj, w) && Cost(adj, start, w) < NONE
    requires forall v: nat :: v < |nodes| && !nodes[v].caught ==> nodes[v].dist == 0 || nodes[v].dist >= NONE
    ensures nodes[End(w)].dist <= Cost(adj, start, w)
  {
    var v := End(w);
    assert Relaxed(adj, nodes, start, v);
    if |w| > 1 {
      var front := w[..|w| - 1];
      CostIsNonNegative(adj, start, front);
      NothingLeft(adj, nodes, start, front);
    }
  }

  lemma Indices(n: nat) returns (all: set<nat>)
    ensures forall i: nat :: i in all <==> i < n
    ensures |all| == n
  {
    if n == 0 {
      all := {};
    } else {
      all := Indices(n - 1);
      all := all + {n - 1};
    }
  }

  /** Fewer than n - 1 catches leave a node other than `skip`. */
  lemma AnotherUncaught(nodes: seq<Node>, skip: nat) returns (v: nat)
    requires |Caught(nodes)| < |nodes| - 1
    ensures v < |nodes| && v != skip && !nodes[v].caught
  {
    var all := Indices(|nodes|);
    assert |Caught(nodes) + {skip}| <= |Caught(nodes)| + 1;
    if all <= Caught(nodes) + {skip} {
      SubsetSize(all, Caught(nodes) + {skip});
    }
    v :| v in all && v !in Caught(nodes) + {skip};
  }

  lemma {:induction false} SubsetSize(a: set<nat>, b: set<nat>)
    requires a <= b
    ensures |a| <= |b|
  {
    if a != {} {
      var x :| x in a;
      SubsetSize(a - {x}, b - {x});
    }
  }

  /** While the count is short, some uncaught node has a distance strictly between 0 and 9999. */
  lemma SomethingToCatch(adj: Matrix, nodes: seq<Node>, start: nat) returns (v: nat)
    requires Inv(adj, nodes, start) && Catchable(adj, start) && |Caught(nodes)| < |nodes| - 1
    ensures v < |nodes| && !nodes[v].caught && 0 < nodes[v].dist < NONE
  {
    var skip: nat :| AllBut(adj, start, skip);
    v := AnotherUncaught(nodes, skip);
    assert CanCatch(adj, start, v);
    if forall i: nat :: i < |nodes| && !nodes[i].caught ==> nodes[i].dist == 0 || nodes[i].dist >= NONE {
      var w: seq<nat> :| IsWalk(adj, w) && End(w) == v && Cost(adj, start, w) < NONE;
      NothingLeft(adj, nodes, start, w);
      ZeroIsStart(adj, nodes, start, v);
      assert false;
    }
    v :| v < |nodes| && !nodes[v].caught && 0 < nodes[v].dist < NONE;
  }

  /** Distance zero is the start's free loop. */
  lemma ZeroIsStart(adj: Matrix, nodes: seq<Node>, start: nat, v: nat)
    requires Inv(adj, nodes, start) && v < |nodes| && nodes[v].dist == 0
    ensures v == start && adj[start][start] == 0
  {
    assert PrevOk(adj, nodes, start, v);
  }

  // ---- The answer ----

  /** With at most one node uncaught, every distance bounds every walk. */
  lemma {:induction false} DistancesBound(adj: Matrix, nodes: seq<Node>, start: nat, last: nat, w: seq<nat>)
    requires Inv(adj, nodes, start) && IsWalk(adj, w)
    requires forall v: nat :: v < |nodes| && v != last ==> nodes[v].caught
    ensures nodes[End(w)].dist <= Cost(adj, start, w)
  {
    var v := End(w);
    assert Relaxed(adj, nodes, start, v);
    if |w| > 1 {
      var front := w[..|w| - 1];
      var x := End(front);
      CostIsNonNegative(adj, start, front);
      DistancesBound(adj, nodes, start, last, front);
      if !nodes[x].caught {
        assert x == last;
        if nodes[x].dist == 0 {
          ZeroIsStart(adj, nodes, start, x);
        } else if v != x {
          assert nodes[v].dist <= nodes[x].dist;
        }
      }
    }
  }

  lemma TwoUncaught(nodes: seq<Node>, u: nat, v: nat)
    requires u < |nodes| && v < |nodes| && u != v && !nodes[u].caught && !nodes[v].caught
    ensures |Caught(nodes)| <= |nodes| - 2
  {
    var all := Indices(|nodes|);
    SubsetSize(Caught(nodes), all - {u} - {v});
    assert |all - {u}| == |nodes| - 1 && |all - {u} - {v}| == |nodes| - 2;
  }

  lemma OneUncaught(nodes: seq<Node>) returns (last: nat)
    requires |Caught(nodes)| >= |nodes| - 1
    ensures forall v: nat :: v < |nodes| && v != last ==> nodes[v].caught
  {
    last := 0;
    if exists v: nat :: v < |nodes| && !nodes[v].caught {
      last :| last < |nodes| && !nodes[last].caught;
      forall v: nat | v < |nodes| && v != last
        ensures nodes[v].caught
      {
        if !nodes[v].caught {
          TwoUncaught(nodes, v, last);
        }
      }
    }
  }

  /** When the loop ends every distance is the least cost of a nonempty walk. */
  lemma AnswerIsLeast(adj: Matrix, nodes: seq<Node>, start: nat, v: nat)
    requires Inv(adj, nodes, start) && |Caught(nodes)| >= |nodes| - 1 && v < |nodes|
    ensures IsLeast(adj, start, v, nodes[v].dist)
  {
    var last := OneUncaught(nodes);
    var path := PathTo(adj, nodes, start, v);
    forall w: seq<nat> | IsWalk(adj, w) && End(w) == v
      ensures nodes[v].dist <= Cost(adj, start, w)
    {
      DistancesBound(adj, nodes, start, last, w);
    }
  }

  /** With n - 1 catches made, all nodes but one can be caught. */
  lemma EndsOnlyIfCatchable(adj: Matrix, nodes: seq<Node>, start: nat)
    requires Inv(adj, nodes, start) && |Caught(nodes)| >= |nodes| - 1
    ensures Catchable(adj, start)
  {
    var last := OneUncaught(nodes);
    forall v: nat | v < |adj| && v != last
      ensures CanCatch(adj, start, v)
    {
      var path := PathTo(adj, nodes, start, v);
      assert Relaxed(adj, nodes, start, v);
    }
    assert AllBut(adj, start, last);
  }
}
