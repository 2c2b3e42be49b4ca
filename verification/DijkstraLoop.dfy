/** The loop itself, over the records it overwrites, and the path it sends. */
module DijkstraLoop {
  import opened Dijkstra

  /** After catching `u` and relaxing every other uncaught node through it. */
  function Relax(adj: Matrix, nodes: seq<Node>, u: nat, v: nat): Node
    requires MatrixOk(adj) && |nodes| == |adj| && u < |nodes| && v < |nodes|
  {
    if v == u then nodes[v].(caught := true)
    else if !nodes[v].caught && nodes[v].dist > nodes[u].dist + adj[u][v] then
      nodes[v].(dist := nodes[u].dist + adj[u][v], prev := u)
    else nodes[v]
  }

  ghost predicate IsRelaxed(adj: Matrix, nodes: seq<Node>, u: nat, nodes': seq<Node>) {
    && MatrixOk(adj) && |nodes| == |nodes'| == |adj| && u < |nodes|
    && forall v: nat :: v < |nodes| ==> nodes'[v] == Relax(adj, nodes, u, v)
  }

  ghost predicate IsStart(adj: Matrix, start: nat, nodes: seq<Node>) {
    && Sized(adj, nodes, start)
    && forall v: nat :: v < |nodes| ==> nodes[v] == Node(adj[start][v], NONE, false)
  }

  lemma StartEstablishes(adj: Matrix, start: nat, nodes: seq<Node>)
    requires IsStart(adj, start, nodes)
    ensures Inv(adj, nodes, start) && |Caught(nodes)| == 0
  {
    assert Caught(nodes) == {};
    forall v: nat | v < |nodes|
      ensures PrevOk(adj, nodes, start, v) && Relaxed(adj, nodes, start, v)
    {
    }
  }

  /** The node that may be caught: uncaught, and nearest of those not at zero or 9999. */
  ghost predicate IsNearest(nodes: seq<Node>, u: nat) {
    && u < |nodes| && !nodes[u].caught && 0 < nodes[u].dist < NONE
    && forall v: nat :: v < |nodes| && !nodes[v].caught && nodes[v].dist != 0 ==> nodes[u].dist <= nodes[v].dist
  }

  lemma RelaxKeepsDistances(adj: Matrix, start: nat, nodes: seq<Node>, u: nat, nodes': seq<Node>)
    requires Inv(adj, nodes, start) && IsNearest(nodes, u) && IsRelaxed(adj, nodes, u, nodes')
    ensures Distances(adj, nodes', start) && Ordered(nodes')
  {
    forall v: nat | v < |nodes'|
      ensures nodes'[v].dist >= (if v == start then 0 else 1) && (nodes'[v].caught ==> 0 < nodes'[v].dist < NONE)
    {
      assert nodes'[v] == Relax(adj, nodes, u, v);
    }
    forall c: nat, v: nat | c < |nodes'| && v < |nodes'| && nodes'[c].caught && !nodes'[v].caught && nodes'[v].dist != 0
      ensures nodes'[c].dist <= nodes'[v].dist
    {
      assert nodes'[c] == Relax(adj, nodes, u, c) && nodes'[v] == Relax(adj, nodes, u, v);
    }
  }

  lemma RelaxKeepsEdges(adj: Matrix, start: nat, nodes: seq<Node>, u: nat, nodes': seq<Node>, v: nat)
    requires Inv(adj, nodes, start) && IsNearest(nodes, u) && IsRelaxed(adj, nodes, u, nodes') && v < |nodes|
    ensures PrevOk(adj, nodes', start, v) && Relaxed(adj, nodes', start, v)
  {
    assert nodes'[v] == Relax(adj, nodes, u, v) && nodes'[u] == Relax(adj, nodes, u, u);
    assert PrevOk(adj, nodes, start, v) && Relaxed(adj, nodes, start, v);
    if nodes'[v].prev != NONE {
      assert nodes'[nodes'[v].prev] == Relax(adj, nodes, u, nodes'[v].prev);
    }
    forall c: nat | c < |nodes'| && nodes'[c].caught
      ensures nodes'[v].dist <= nodes'[c].dist + adj[c][v]
    {
      assert nodes'[c] == Relax(adj, nodes, u, c);
    }
  }

  /** Catching the nearest node keeps the invariant and catches exactly one more. */
  lemma RelaxKeepsInv(adj: Matrix, start: nat, nodes: seq<Node>, u: nat, nodes': seq<Node>)
    requires Inv(adj, nodes, start) && IsNearest(nodes, u) && IsRelaxed(adj, nodes, u, nodes')
    ensures Inv(adj, nodes', start) && |Caught(nodes')| == |Caught(nodes)| + 1
  {
    RelaxKeepsDistances(adj, start, nodes, u, nodes');
    forall v: nat | v < |nodes|
      ensures PrevOk(adj, nodes', start, v) && Relaxed(adj, nodes', start, v)
    {
      RelaxKeepsEdges(adj, start, nodes, u, nodes', v);
    }
    forall v: nat
      ensures v in Caught(nodes') <==> v in Caught(nodes) || v == u
    {
      assert v < |nodes| ==> nodes'[v] == Relax(adj, nodes, u, v);
    }
    assert Caught(nodes') == Caught(nodes) + {u};
  }

  // ---- Whole runs of the loop ----

  /** What the loop carries from one iteration to the next; `u` is -1 until the first catch. */
  datatype Loop = Loop(nodes: seq<Node>, u: int, count: int)

  ghost predicate CanPick(nodes: seq<Node>) {
    exists v: nat :: v < |nodes| && !nodes[v].caught && 0 < nodes[v].dist < NONE
  }

  /** One iteration. Without a node to catch it relaxes once more from the node caught last.
      There is none such if no node was caught yet: the source then reads before the array,
      and that is no iteration here. */
  ghost predicate IsIteration(adj: Matrix, s: Loop, s': Loop) {
    if CanPick(s.nodes) then
      s'.u >= 0 && IsNearest(s.nodes, s'.u) && s'.count == s.count + 1 && IsRelaxed(adj, s.nodes, s'.u, s'.nodes)
    else
      s.u >= 0 && s'.u == s.u && s'.count == s.count && IsRelaxed(adj, s.nodes, s.u, s'.nodes)
  }

  /** A node that the scan may choose. */
  predicate MayBePicked(nodes: seq<Node>, v: nat) { v < |nodes| && !nodes[v].caught && nodes[v].dist != 0 && nodes[v].dist < NONE }

  lemma {:induction false} NearestOf(nodes: seq<Node>, n: nat, v: nat) returns (u: nat)
    requires n <= |nodes| && v < n && MayBePicked(nodes, v)
    ensures u < n && MayBePicked(nodes, u) && forall x: nat :: x < n && MayBePicked(nodes, x) ==> nodes[u].dist <= nodes[x].dist
    decreases n
  {
    if x: nat :| x < n - 1 && MayBePicked(nodes, x) {
      u := NearestOf(nodes, n - 1, x);
      if MayBePicked(nodes, n - 1) && nodes[n - 1].dist < nodes[u].dist { u := n - 1; }
    } else {
      u := v;
    }
  }

  ghost function RelaxAll(adj: Matrix, nodes: seq<Node>, u: nat): (r: seq<Node>)
    requires MatrixOk(adj) && |nodes| == |adj| && u < |nodes|
    ensures IsRelaxed(adj, nodes, u, r)
  {
    seq<Node>(|nodes|, v requires 0 <= v < |nodes| => Relax(adj, nodes, u, v))
  }

  /** The loop can go on exactly if some uncaught node has a usable distance, or a node was
      caught before. */
  lemma IterationExists(adj: Matrix, s: Loop)
    requires MatrixOk(adj) && |s.nodes| == |adj| && s.u < |adj| && forall v: nat :: v < |s.nodes| ==> s.nodes[v].dist >= 0
    ensures (exists s' :: IsIteration(adj, s, s')) <==> s.u >= 0 || exists v: nat :: MayBePicked(s.nodes, v)
  {
    CanPickIs(s.nodes);
    hide CanPick;
    if v: nat :| MayBePicked(s.nodes, v) {
      var u := NearestOf(s.nodes, |s.nodes|, v);
      forall x: nat | x < |s.nodes| && !s.nodes[x].caught && s.nodes[x].dist != 0
        ensures s.nodes[u].dist <= s.nodes[x].dist
      {
        if s.nodes[x].dist < NONE { assert MayBePicked(s.nodes, x); }
      }
      assert IsNearest(s.nodes, u);
      assert IsIteration(adj, s, Loop(RelaxAll(adj, s.nodes, u), u, s.count + 1));
    } else if s.u >= 0 {
      assert IsIteration(adj, s, Loop(RelaxAll(adj, s.nodes, s.u), s.u, s.count));
    }
  }

  lemma CanPickIs(nodes: seq<Node>)
    requires forall v: nat :: v < |nodes| ==> nodes[v].dist >= 0
    ensures CanPick(nodes) <==> exists v: nat :: MayBePicked(nodes, v)
  {
    if CanPick(nodes) {
      var v: nat :| v < |nodes| && !nodes[v].caught && 0 < nodes[v].dist < NONE;
      assert MayBePicked(nodes, v);
    }
    if v: nat :| MayBePicked(nodes, v) { assert nodes[v].dist > 0; }
  }

  ghost predicate LoopInv(adj: Matrix, start: nat, s: Loop) {
    && Inv(adj, s.nodes, start) && s.count == |Caught(s.nodes)|
    && (if s.u == -1 then s.count == 0 else 0 <= s.u < |s.nodes| && s.nodes[s.u].caught)
  }

  /** Relaxing again from a caught node changes nothing: all were relaxed when it was caught. */
  lemma StaleKeeps(adj: Matrix, start: nat, nodes: seq<Node>, u: nat, nodes': seq<Node>)
    requires Inv(adj, nodes, start) && u < |nodes| && nodes[u].caught && IsRelaxed(adj, nodes, u, nodes')
    ensures nodes' == nodes
  {
    forall v: nat | v < |nodes|
      ensures nodes'[v] == nodes[v]
    {
      assert nodes'[v] == Relax(adj, nodes, u, v) && Relaxed(adj, nodes, start, v);
    }
  }

  /** An iteration keeps the invariant; if it catches nothing it changes nothing at all. */
  lemma IterationKeeps(adj: Matrix, start: nat, s: Loop, s': Loop)
    requires LoopInv(adj, start, s) && IsIteration(adj, s, s')
    ensures LoopInv(adj, start, s') && (!CanPick(s.nodes) ==> s' == s)
  {
    if CanPick(s.nodes) {
      RelaxKeepsInv(adj, start, s.nodes, s'.u, s'.nodes);
      var u: nat := s'.u;
      assert s'.nodes[u] == Relax(adj, s.nodes, u, u);
    } else {
      StaleKeeps(adj, start, s.nodes, s.u, s'.nodes);
    }
  }

  /** A run of the loop: iterations from the start as long as the count is short. */
  ghost predicate IsLoopRun(adj: Matrix, start: nat, ss: seq<Loop>) {
    && 0 < |ss| && IsStart(adj, start, ss[0].nodes) && ss[0].u == -1 && ss[0].count == 0
    && forall t :: 0 <= t < |ss| - 1 ==> ss[t].count < |adj| - 1 && IsIteration(adj, ss[t], ss[t + 1])
  }

  lemma {:induction false} RunKeepsInv(adj: Matrix, start: nat, ss: seq<Loop>, t: nat)
    requires IsLoopRun(adj, start, ss) && t < |ss|
    ensures LoopInv(adj, start, ss[t])
  {
    hide Inv, IsStart, IsIteration;
    if t == 0 {
      StartEstablishes(adj, start, ss[0].nodes);
    } else {
      RunKeepsInv(adj, start, ss, t - 1);
      IterationKeeps(adj, start, ss[t - 1], ss[t]);
    }
  }

  /** The loop ends only if all nodes but one can be caught. */
  lemma NeverEnds(adj: Matrix, start: nat, ss: seq<Loop>, t: nat)
    requires IsLoopRun(adj, start, ss) && t < |ss| && MatrixOk(adj) && start < |adj| && !Catchable(adj, start)
    ensures ss[t].count < |adj| - 1
  {
    RunKeepsInv(adj, start, ss, t);
    if ss[t].count >= |adj| - 1 {
      EndsOnlyIfCatchable(adj, ss[t].nodes, start);
    }
  }

  /** And if they can, every iteration catches one: the loop ends after n - 1 of them. */
  lemma {:induction false} EndsInTime(adj: Matrix, start: nat, ss: seq<Loop>, t: nat)
    requires IsLoopRun(adj, start, ss) && t < |ss| && MatrixOk(adj) && start < |adj| && Catchable(adj, start)
    ensures ss[t].count == t && (t > 0 ==> t <= |adj| - 1)
  {
    if t > 0 {
      EndsInTime(adj, start, ss, t - 1);
      RunKeepsInv(adj, start, ss, t - 1);
      assert |ss[t - 1].nodes| == |adj|;
      hide Inv, IsStart, IsRelaxed, Catchable;
      var v := SomethingToCatch(adj, ss[t - 1].nodes, start);
    }
  }

  /** Exactly when the source reads before the array: no edge of the start's row can be used,
      and there is more than one node. It happens in the first iteration or never. */
  lemma ReadsBeforeArray(adj: Matrix, start: nat, ss: seq<Loop>, t: nat)
    requires IsLoopRun(adj, start, ss) && t < |ss|
    ensures var outside := ss[t].count < |adj| - 1 && !CanPick(ss[t].nodes) && ss[t].u == -1;
            outside <==> t == 0 && |adj| > 1 && forall v :: 0 <= v < |adj| ==> adj[start][v] == 0 || adj[start][v] >= NONE
  {
    RunKeepsInv(adj, start, ss, t);
    if t == 0 {
      assert forall v: nat :: v < |adj| ==> ss[0].nodes[v] == Node(adj[start][v], NONE, false);
    } else {
      RunKeepsInv(adj, start, ss, t - 1);
      assert ss[t].u != -1;
    }
  }

  class Solver {
    const adj: Matrix
    const nodes: array<Node>
    var uDist: int
    var uNid: int
    var qCount: int

    constructor (matrix: Matrix)
      requires MatrixOk(matrix)
      ensures adj == matrix && fresh(nodes) && nodes.Length == |matrix|
    {
      adj := matrix;
      nodes := new Node[|matrix|](i => Node(NONE, NONE, false));
      uDist, uNid, qCount := NONE, NONE, 0;
    }

    predicate Valid() { MatrixOk(adj) && nodes.Length == |adj| }

    /** The nearest uncaught node, the first of them if several are as near. */
    method FindNearest()
      requires Valid() && uDist == NONE
      modifies this`uDist, this`uNid
      ensures if exists v: nat :: v < nodes.Length && !nodes[v].caught && nodes[v].dist != 0 && nodes[v].dist < NONE
              then 0 <= uNid < nodes.Length && !nodes[uNid].caught && nodes[uNid].dist != 0 && uDist == nodes[uNid].dist < NONE
                   && (forall v: nat :: v < nodes.Length && !nodes[v].caught && nodes[v].dist != 0 ==> uDist <= nodes[v].dist)
                   && (forall v: nat :: v < uNid && !nodes[v].caught && nodes[v].dist != 0 ==> uDist < nodes[v].dist)
              else uDist == NONE
    {
      var i := 0;
      while i < nodes.Length
        invariant i <= nodes.Length
        invariant forall v: nat :: v < i && !nodes[v].caught && nodes[v].dist != 0 ==> uDist <= nodes[v].dist
        invariant uDist == NONE || (0 <= uNid < i && !nodes[uNid].caught && nodes[uNid].dist != 0 && uDist == nodes[uNid].dist < NONE)
        invariant uDist != NONE ==> forall v: nat :: v < uNid && !nodes[v].caught && nodes[v].dist != 0 ==> uDist < nodes[v].dist
      {
        if !nodes[i].caught && nodes[i].dist < uDist && nodes[i].dist != 0 {
          uDist, uNid := nodes[i].dist, i;
        }
        i := i + 1;
      }
    }

    method RelaxFrom(u: nat)
      requires Valid() && u < nodes.Length
      modifies nodes
      ensures IsRelaxed(adj, old(nodes[..]), u, nodes[..])
    {
      ghost var before := nodes[..];
      var v := 0;
      while v < nodes.Length
        invariant v <= nodes.Length
        invariant forall k: nat :: k < v ==> nodes[k] == Relax(adj, before, u, k)
        invariant forall k: nat :: v <= k < nodes.Length ==> nodes[k] == before[k]
        invariant nodes[u].dist == before[u].dist
      {
        if v == u {
          nodes[v] := nodes[v].(caught := true);
        } else if !nodes[v].caught && nodes[v].dist > nodes[u].dist + adj[u][v] {
          nodes[v] := nodes[v].(dist := nodes[u].dist + adj[u][v], prev := u);
        }
        v := v + 1;
      }
    }

    method Init(start: nat)
      requires Valid() && start < |adj|
      modifies nodes, this`uDist, this`uNid, this`qCount
      ensures IsStart(adj, start, nodes[..]) && uDist == NONE && qCount == 0
    {
      uDist, uNid, qCount := NONE, NONE, 0;
      var v := 0;
      while v < nodes.Length
        invariant v <= nodes.Length && uDist == NONE && qCount == 0
        invariant forall k: nat :: k < v ==> nodes[k] == Node(adj[start][k], NONE, false)
      {
        nodes[v] := Node(adj[start][v], NONE, false);
        v := v + 1;
      }
    }

    ghost function State(u: int): Loop
      reads this, nodes
    {
      Loop(nodes[..], u, qCount)
    }

    /** One iteration of the loop, from any state; `ok` is false when the source would read
        before the array. */
    method Iterate(u: int) returns (ok: bool, u': int)
      requires Valid() && uDist == NONE && -1 <= u < nodes.Length
      requires forall v: nat :: v < nodes.Length ==> nodes[v].dist >= 0
      modifies nodes, this`uDist, this`uNid, this`qCount
      ensures ok <==> CanPick(old(nodes[..])) || u >= 0
      ensures ok ==> IsIteration(adj, old(State(u)), State(u')) && uDist == NONE
    {
      ghost var before := nodes[..];
      FindNearest();
      assert nodes[..] == before;
      var globalMiniCost := NONE;
      u' := u;
      if globalMiniCost > uDist {
        globalMiniCost := uDist;
        u' := uNid;
        qCount := qCount + 1;
        assert before[u'] == nodes[u'];
      }
      assert CanPick(before) ==> IsNearest(before, u');
      if u' < 0 { return false, u'; }
      RelaxFrom(u');
      uDist := NONE;
      ok := true;
    }

    /** Terminates, and every distance is the least cost of a nonempty walk. */
    method ShortestPaths(start: nat)
      requires Valid() && start < |adj| && Catchable(adj, start)
      modifies nodes, this`uDist, this`uNid, this`qCount
      ensures Inv(adj, nodes[..], start)
      ensures forall v: nat :: v < |adj| ==> IsLeast(adj, start, v, nodes[v].dist)
    {
      Init(start);
      StartEstablishes(adj, start, nodes[..]);
      var u := -1;
      while qCount < |adj| - 1
        invariant LoopInv(adj, start, State(u)) && uDist == NONE
        decreases |adj| - qCount
      {
        ghost var before := State(u);
        ghost var some := SomethingToCatch(adj, before.nodes, start);
        assert forall v: nat :: v < nodes.Length ==> nodes[v] == before.nodes[v] && before.nodes[v].dist >= 0;
        var ok, u' := Iterate(u);
        IterationKeeps(adj, start, before, State(u'));
        u := u';
      }
      forall v: nat | v < |adj|
        ensures IsLeast(adj, start, v, nodes[v].dist)
      {
        AnswerIsLeast(adj, nodes[..], start, v);
      }
    }

    /** The nodes of the path to `ch`, numbered from 1, from entry `at` of the result on. */
    method SendPath(ghost start: nat, ch: nat, result: array<int>, at: nat) returns (paths: nat)
      requires Inv(adj, nodes[..], start) && ch < |adj|
      requires at + |PathTo(adj, nodes[..], start, ch)| <= result.Length
      modifies result
      ensures var path := PathTo(adj, nodes[..], start, ch);
              && paths == at + |path|
              && (forall k :: at <= k < paths ==> result[k] == path[k - at] + 1)
              && (forall k :: 0 <= k < result.Length && !(at <= k < paths) ==> result[k] == old(result[k]))
      decreases nodes[ch].dist
    {
      ghost var path := PathTo(adj, nodes[..], start, ch);
      assert PrevOk(adj, nodes[..], start, ch) && nodes[ch].dist >= 0;
      paths := at;
      if nodes[ch].prev != NONE {
        assert path == PathTo(adj, nodes[..], start, nodes[ch].prev) + [ch];
        hide Inv, PathTo;
        paths := SendPath(start, nodes[ch].prev, result, at);
      }
      result[paths] := ch + 1;
      paths := paths + 1;
    }

    static method Header(start: nat, ch: nat, dist: int) returns (result: array<int>)
      ensures fresh(result) && result.Length == 33 && result[0] == start && result[1] == ch && result[2] == dist
      ensures forall k :: 3 <= k < 33 ==> result[k] == 0
    {
      result := new int[33](i => 0);
      result[0], result[1], result[2] := start, ch, dist;
    }

    /** The message for one pair: the two ends, the distance, and the path, zero filled. */
    method SendResult(start: nat, ch: nat) returns (result: array<int>)
      requires Inv(adj, nodes[..], start) && ch < |adj| && |adj| <= 30
      ensures fresh(result) && result.Length == 33
      ensures var path := PathTo(adj, nodes[..], start, ch);
              && 3 + |path| <= 33
              && result[..3 + |path|] == [start, ch, nodes[ch].dist] + Labels(path)
              && forall k :: 3 + |path| <= k < 33 ==> result[k] == 0
    {
      PathIsShort(adj, nodes[..], start, ch);
      ghost var path := PathTo(adj, nodes[..], start, ch);
      hide Inv, PathTo, Labels;
      result := Header(start, ch, nodes[ch].dist);
      var paths := SendPath(start, ch, result, 3);
      Assembles(result[..], start, ch, nodes[ch].dist, path);
      assert result[..paths] == result[..][..paths];
    }
  }

  /** Node numbers as they are sent, counted from 1. */
  function Labels(path: seq<nat>): (r: seq<int>)
    ensures |r| == |path| && forall k :: 0 <= k < |r| ==> r[k] == path[k] + 1
  {
    seq<int>(|path|, k requires 0 <= k < |path| => path[k] + 1)
  }

  lemma Assembles(r: seq<int>, a: int, b: int, c: int, path: seq<nat>)
    requires 3 + |path| <= |r| && r[0] == a && r[1] == b && r[2] == c
    requires forall k :: 3 <= k < 3 + |path| ==> r[k] == path[k - 3] + 1
    ensures r[..3 + |path|] == [a, b, c] + Labels(path)
  {
  }

  /** Distances strictly increase along a path. */
  lemma {:induction false} PathAscends(adj: Matrix, nodes: seq<Node>, start: nat, v: nat, i: nat)
    requires Inv(adj, nodes, start) && v < |nodes| && i < |PathTo(adj, nodes, start, v)|
    ensures var w := PathTo(adj, nodes, start, v);
            w[i] < |nodes| && (i < |w| - 1 ==> nodes[w[i]].dist < nodes[v].dist && PathTo(adj, nodes, start, w[i]) == w[..i + 1])
    decreases nodes[v].dist
  {
    assert PrevOk(adj, nodes, start, v) && nodes[v].dist >= 0;
    var w := PathTo(adj, nodes, start, v);
    if i < |w| - 1 {
      var front := PathTo(adj, nodes, start, nodes[v].prev);
      assert w == front + [v];
      assert PrevOk(adj, nodes, start, nodes[v].prev);
      PathAscends(adj, nodes, start, nodes[v].prev, i);
      assert w[..i + 1] == front[..i + 1];
      if i == |front| - 1 { assert front[..i + 1] == front; }
    }
  }

  /** No node repeats, so a path has at most n nodes. */
  lemma {:induction false} PathIsShort(adj: Matrix, nodes: seq<Node>, start: nat, v: nat)
    requires Inv(adj, nodes, start) && v < |nodes|
    ensures |PathTo(adj, nodes, start, v)| <= |nodes|
  {
    var w := PathTo(adj, nodes, start, v);
    forall i, j | 0 <= i < j < |w|
      ensures w[i] != w[j]
    {
      PathAscends(adj, nodes, start, v, i);
      PathAscends(adj, nodes, start, v, j);
      assert |w[..i + 1]| < |w[..j + 1]|;
    }
    DistinctIsShort(w, |nodes|);
  }

  lemma {:induction false} DistinctIsShort(w: seq<nat>, n: nat)
    requires forall i :: 0 <= i < |w| ==> w[i] < n
    requires forall i, j :: 0 <= i < j < |w| ==> w[i] != w[j]
    ensures |w| <= n
  {
    var all := Indices(n);
    DistinctSize(w);
    SubsetSize(Elements(w), all);
  }

  function Elements(w: seq<nat>): set<nat> { set x | x in w }

  lemma {:induction false} DistinctSize(w: seq<nat>)
    requires forall i, j :: 0 <= i < j < |w| ==> w[i] != w[j]
    ensures |Elements(w)| == |w|
  {
    if w == [] {
      assert Elements(w) == {};
    } else {
      var front, x := w[..|w| - 1], w[|w| - 1];
      DistinctSize(front);
      assert w == front + [x];
      assert Elements(w) == Elements(front) + {x};
      assert x !in front;
    }
  }
}
