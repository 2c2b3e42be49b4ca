/** How long a clear wave takes, with any other traffic in the mesh: a bounded time for each
    step down the tree of origin ports, as long as no other clear is due and no table is full. */
module BrLiteClearTime {
  import opened Topology
  import opened BrLite
  import opened BrLiteCam
  import opened BrLiteLine
  import opened BrLiteMesh
  import opened BrLiteClear
  import opened BrLiteService
  import opened BrLiteLiveness
  import BrLiteTiming

  /** The conditions under which the mesh is live, for tables of `size` lines. */
  ghost predicate IsLive(ns: seq<Net>, slack: nat, size: nat) {
    && 0 < slack && SourcesLetGo(ns, slack) && BrLiteTiming.SinksWithin(ns, slack)
    && (forall p, t: nat :: t < |ns| && p in ns[t].r ==> Open(ns, p) && |ns[t].r[p].io.flag| == size)
  }

  /** The time a router takes to pass the clear on and free its line. */
  function Hop(size: nat, slack: nat): nat { LineWait(size, AckWait(slack)) + AckWait(slack) + 2 }

  ghost predicate FreshAt(n: Net, v: Wave, p: Pos) { Shaped(n) && p in n.r && Fresh(n.r[p], v.key) }

  ghost predicate HasAt(n: Net, v: Wave, p: Pos) { Shaped(n) && p in n.r && Has(n.r[p], v.key) }

  ghost predicate GoneAt(n: Net, v: Wave, p: Pos) { Shaped(n) && p in n.r && Gone(n, v, p) }

  lemma WaveCycle(ns: seq<Net>, v: Wave, nx: nat, ny: nat, t: nat)
    requires IsWaveRun(ns, v, nx, ny) && t < |ns|
    ensures Shaped(ns[t]) && WaveInv(ns[t], v, nx, ny)
    ensures t + 1 < |ns| ==> Shaped(ns[t + 1]) && WaveNext(ns[t], ns[t + 1], v.key) && ns[t + 1].r.Keys == ns[t].r.Keys
  {
    hide WaveInv, NetNext, KeyRests;
    WaveRunKeepsInv(ns, v, nx, ny, t);
    if t + 1 < |ns| { SameRouters(ns[t], ns[t + 1], v); }
  }

  lemma WaveIsNet(n: Net, v: Wave, nx: nat, ny: nat)
    requires WaveInv(n, v, nx, ny)
    ensures NetInv(n, nx, ny)
  {
  }

  lemma WaveIsStep(n: Net, n': Net, k: Key)
    requires Shaped(n) && WaveNext(n, n', k)
    ensures NetNext(n, n')
  {
  }

  lemma WaveIsStretch(ns: seq<Net>, v: Wave, nx: nat, ny: nat)
    requires IsWaveRun(ns, v, nx, ny)
    ensures IsStretch(ns, nx, ny)
  {
    assert 0 < |ns|;
    hide *;
    forall t | 0 <= t < |ns|
      ensures Shaped(ns[t]) && (t < |ns| - 1 ==> NetNext(ns[t], ns[t + 1]))
    {
      WaveCycle(ns, v, nx, ny, t);
      if t < |ns| - 1 { WaveIsStep(ns[t], ns[t + 1], v.key); }
    }
    WaveCycle(ns, v, nx, ny, 0);
    WaveIsNet(ns[0], v, nx, ny);
    StretchIf(ns, nx, ny);
  }

  lemma StretchIf(ns: seq<Net>, nx: nat, ny: nat)
    requires 0 < |ns| && NetInv(ns[0], nx, ny)
    requires forall t :: 0 <= t < |ns| ==> Shaped(ns[t]) && (t < |ns| - 1 ==> NetNext(ns[t], ns[t + 1]))
    ensures IsStretch(ns, nx, ny)
  {
    hide NetInv, NetNext, Shaped;
  }

  lemma {:induction false} StaysReached(ns: seq<Net>, v: Wave, nx: nat, ny: nat, t: nat, u: nat, p: Pos)
    requires IsWaveRun(ns, v, nx, ny) && t <= u < |ns| && !FreshAt(ns[t], v, p)
    ensures !FreshAt(ns[u], v, p)
    decreases u
  {
    hide IsWaveRun, WaveInv, WaveNext, Fresh, Shaped;
    if t < u {
      StaysReached(ns, v, nx, ny, t, u - 1, p);
      WaveCycle(ns, v, nx, ny, u - 1);
      if FreshAt(ns[u], v, p) { FreshShrinks(ns[u - 1], ns[u], v, nx, ny, p); }
    }
  }

  lemma {:induction false} StaysGone(ns: seq<Net>, v: Wave, nx: nat, ny: nat, t: nat, u: nat, p: Pos)
    requires IsWaveRun(ns, v, nx, ny) && t < u < |ns| && GoneAt(ns[t], v, p)
    ensures !HasAt(ns[u], v, p)
  {
    WaveCycle(ns, v, nx, ny, t);
    hide IsWaveRun, WaveInv, WaveNext, At, Freeing;
    if HasAt(ns[u], v, p) {
      var i: nat :| At(ns[u].r[p], v.key, i);
      NeverReinserted(ns, v, nx, ny, t, u, p, i);
      NeverReinserted(ns, v, nx, ny, t + 1, u, p, i);
      LineMoves(ns[t], ns[t + 1], v, nx, ny, p, i);
    }
  }

  /** Line `i` at `p` is a CLEAR of the wave in the given stage. */
  ghost predicate ClearAt(n: Net, v: Wave, p: Pos, i: nat) {
    Shaped(n) && p in n.r && At(n.r[p], v.key, i) && n.r[p].io.flag[i].svc == CLEAR
  }

  ghost predicate SendingAt(n: Net, v: Wave, p: Pos, i: nat) { ClearAt(n, v, p, i) && Sending(n.r[p], i) }

  /** A router that was reached has freed its line, or has one CLEAR. */
  lemma GoneOrClear(n: Net, v: Wave, nx: nat, ny: nat, p: Pos) returns (gone: bool, i: nat)
    requires WaveInv(n, v, nx, ny) && p in n.r && !FreshAt(n, v, p)
    ensures if gone then GoneAt(n, v, p) else ClearAt(n, v, p, i) && !Freeing(n.r[p], i) && (PendingAt(n, p, i) || SendingAt(n, v, p, i))
  {
    hide NetInv, AllStages, AllReached, KeyRests, IsTree, CamInv;
    if Gone(n, v, p) { return true, 0; }
    i :| At(n.r[p], v.key, i) && !Freeing(n.r[p], i);
    StageFacts(n, v, nx, ny, p, i);
    return false, i;
  }

  /** There is no other line for the key. */
  lemma TheLine(n: Net, v: Wave, nx: nat, ny: nat, p: Pos, i: nat, j: nat)
    requires WaveInv(n, v, nx, ny) && p in n.r && At(n.r[p], v.key, i) && At(n.r[p], v.key, j)
    ensures i == j
  {
    hide NetInv, AllStages, AllReached, KeyRests, IsTree, CamInv;
    RouterOk(n, v, nx, ny, p);
    SameLine(n.r[p], WiresAt(n, p), v.key, i, j);
  }

  /** Line `i` later on: gone, or the same CLEAR. */
  lemma Later(ns: seq<Net>, v: Wave, nx: nat, ny: nat, t: nat, u: nat, p: Pos, i: nat) returns (gone: bool)
    requires IsWaveRun(ns, v, nx, ny) && t <= u < |ns| && ClearAt(ns[t], v, p, i) && !FreshAt(ns[t], v, p) && InAll(ns, p)
    ensures if gone then GoneAt(ns[u], v, p)
            else ClearAt(ns[u], v, p, i) && !Freeing(ns[u].r[p], i) && (PendingAt(ns[u], p, i) || SendingAt(ns[u], v, p, i))
  {
    assert Shaped(ns[t]) && Shaped(ns[u]) && p in ns[t].r && p in ns[u].r;
    hide IsWaveRun, WaveInv, Gone, At, Fresh, Freeing, Sending, InAll, Shaped;
    WaveCycle(ns, v, nx, ny, t);
    WaveCycle(ns, v, nx, ny, u);
    StaysReached(ns, v, nx, ny, t, u, p);
    var j;
    gone, j := GoneOrClear(ns[u], v, nx, ny, p);
    if !gone {
      NeverReinserted(ns, v, nx, ny, t, u, p, j);
      TheLine(ns[t], v, nx, ny, p, i, j);
    }
  }

  lemma LiveAt(ns: seq<Net>, nx: nat, ny: nat, slack: nat, size: nat, t: nat, p: Pos)
    requires IsLive(ns, slack, size) && IsStretch(ns, nx, ny) && t < |ns| && p in ns[t].r
    ensures Open(ns, p) && OpenAround(ns, p) && InAll(ns, p)
    ensures |ns[t].r[p].io.flag| == size && 0 < slack && SourcesLetGo(ns, slack) && BrLiteTiming.SinksWithin(ns, slack)
  {
    IsInAll(ns, nx, ny, t, p);
    hide SourcesLetGo, BrLiteTiming.SinksWithin, Open, IsStretch, InAll;
  }

  lemma SendingLeaves(r: Router, w: Wires, i: nat)
    requires CamInv(r, w) && Sending(r, i) && r.io.flag[i].svc == CLEAR && !Sending(Step(r, w), i)
    ensures Freeing(Step(r, w), i)
  {
  }

  /** A CLEAR that is being sent is sent, and freed, once it has been acknowledged. */
  lemma SendingFrees(ns: seq<Net>, v: Wave, nx: nat, ny: nat, slack: nat, size: nat, p: Pos, i: nat, t: nat) returns (u: nat)
    requires IsWaveRun(ns, v, nx, ny) && IsLive(ns, slack, size) && t + AckWait(slack) + 1 < |ns|
    requires SendingAt(ns[t], v, p, i) && !FreshAt(ns[t], v, p)
    ensures t <= u <= t + AckWait(slack) + 1 && GoneAt(ns[u], v, p)
  {
    hide *;
    SendingIsClear(ns[t], v, p, i);
    WaveIsStretch(ns, v, nx, ny);
    u := SendingStops(ns, nx, ny, slack, size, p, i, t);
    var gone := Later(ns, v, nx, ny, t, u - 1, p, i);
    if gone { return u - 1; }
    gone := Later(ns, v, nx, ny, t, u, p, i);
    if !gone { LeavesFreeing(ns[u - 1], ns[u], v, p, i); }
  }

  /** One cycle of the router at `p`. */
  ghost predicate StepsTo(n: Net, n': Net, p: Pos) {
    && Shaped(n) && Shaped(n') && p in n.r && p in n'.r
    && CamInv(n.r[p], WiresAt(n, p)) && n'.r[p] == Step(n.r[p], WiresAt(n, p))
  }

  lemma LeavesFreeing(n: Net, n': Net, v: Wave, p: Pos, i: nat)
    requires StepsTo(n, n', p) && Sending(n.r[p], i) && !Sending(n'.r[p], i) && ClearAt(n, v, p, i)
    ensures Freeing(n'.r[p], i)
  {
    hide CamInv, Step;
    SendingLeaves(n.r[p], WiresAt(n, p), i);
  }

  /** The output process stops sending within the time of an acknowledge. */
  lemma SendingStops(ns: seq<Net>, nx: nat, ny: nat, slack: nat, size: nat, p: Pos, i: nat, t: nat) returns (u: nat)
    requires IsStretch(ns, nx, ny) && IsLive(ns, slack, size) && t + AckWait(slack) + 1 < |ns|
    requires p in ns[t].r && Sending(ns[t].r[p], i)
    ensures InAll(ns, p) && t < u <= t + AckWait(slack) + 1 && StepsTo(ns[u - 1], ns[u], p)
    ensures Sending(ns[u - 1].r[p], i) && !Sending(ns[u].r[p], i)
  {
    hide AckWait, IsLive, IsStretch, InAll, Open, OpenAround, IsTrace, ServedWithin, CamInv, Step;
    LiveAt(ns, nx, ny, slack, size, t, p);
    MeshTrace(ns, nx, ny, p);
    RouterIsServed(ns, nx, ny, slack, p);
    u := SendEnds(Rs(ns, p), Ws(ns, p), AckWait(slack), t);
    InAllAt(ns, p, u); InAllAt(ns, p, u - 1);
    InCycle(Rs(ns, p), Ws(ns, p), u - 1);
  }

  lemma SendingIsClear(n: Net, v: Wave, p: Pos, i: nat)
    requires SendingAt(n, v, p, i)
    ensures ClearAt(n, v, p, i) && p in n.r && Sending(n.r[p], i)
  {
  }

  lemma TestedSends(r: Router, w: Wires, i: nat)
    requires CamInv(r, w) && r.outp.state == OUT_TEST_SVC && r.outp.line == i && r.io.flag[i].svc == CLEAR
    ensures Sending(Step(r, w), i)
  {
  }

  lemma HopIs(size: nat, slack: nat)
    ensures Hop(size, slack) == LineWait(size, AckWait(slack)) + AckWait(slack) + 2
  {
    hide LineWait, AckWait;
  }

  lemma StretchSteps(ns: seq<Net>, nx: nat, ny: nat, t: nat, p: Pos)
    requires IsStretch(ns, nx, ny) && InAll(ns, p) && t + 1 < |ns|
    ensures StepsTo(ns[t], ns[t + 1], p) && p in ns[t].r && p in ns[t + 1].r
  {
    hide IsStretch, NetInv, NetNext, CamInv, Step, WiresAt, Shaped, InAll;
    InAllAt(ns, p, t); InAllAt(ns, p, t + 1);
    MeshAt(ns, nx, ny, t);
    CamAt(ns[t], nx, ny, p);
    StepsAt(ns[t], ns[t + 1], p);
  }

  /** A CLEAR that is served is sent in the next cycle. */
  lemma ServedSends(n: Net, n': Net, v: Wave, p: Pos, i: nat)
    requires StepsTo(n, n', p) && ClearAt(n, v, p, i) && Served(n.r[p], i) && !Freeing(n.r[p], i)
    ensures Sending(n'.r[p], i)
  {
    hide CamInv, Step, WiresAt;
    TestedSends(n.r[p], WiresAt(n, p), i);
  }

  lemma PendingFrees(ns: seq<Net>, v: Wave, nx: nat, ny: nat, slack: nat, size: nat, p: Pos, i: nat, t: nat) returns (u: nat)
    requires IsWaveRun(ns, v, nx, ny) && IsLive(ns, slack, size) && t + Hop(size, slack) < |ns| && p in ns[t].r && InAll(ns, p)
    requires ClearAt(ns[t], v, p, i) && PendingAt(ns[t], p, i) && !FreshAt(ns[t], v, p)
    ensures t <= u <= t + Hop(size, slack) && GoneAt(ns[u], v, p)
  {
    hide *;
    HopIs(size, slack);
    WaveIsStretch(ns, v, nx, ny);
    u := PendingIsServed(ns, nx, ny, slack, size, p, i, t);
    var gone := Later(ns, v, nx, ny, t, u, p, i);
    if gone { return; }
    StretchSteps(ns, nx, ny, u, p);
    ServedSends(ns[u], ns[u + 1], v, p, i);
    gone := Later(ns, v, nx, ny, t, u + 1, p, i);
    if gone { return u + 1; }
    IsSending(ns[u + 1], v, p, i);
    StaysReached(ns, v, nx, ny, t, u + 1, p);
    u := SendingFrees(ns, v, nx, ny, slack, size, p, i, u + 1);
  }

  /** A router that was reached frees its line within the time of a hop. */
  lemma ReachedFrees(ns: seq<Net>, v: Wave, nx: nat, ny: nat, slack: nat, size: nat, p: Pos, t: nat) returns (u: nat)
    requires IsWaveRun(ns, v, nx, ny) && IsLive(ns, slack, size) && t + Hop(size, slack) < |ns| && p in ns[t].r
    requires !FreshAt(ns[t], v, p)
    ensures t <= u <= t + Hop(size, slack) && GoneAt(ns[u], v, p)
  {
    hide *;
    HopIs(size, slack);
    WaveIsStretch(ns, v, nx, ny);
    LiveAt(ns, nx, ny, slack, size, t, p);
    WaveCycle(ns, v, nx, ny, t);
    var gone, i := GoneOrClear(ns[t], v, nx, ny, p);
    if gone {
      u := t;
    } else if SendingAt(ns[t], v, p, i) {
      u := SendingFrees(ns, v, nx, ny, slack, size, p, i, t);
    } else {
      u := PendingFrees(ns, v, nx, ny, slack, size, p, i, t);
    }
  }

  lemma IsSending(n: Net, v: Wave, p: Pos, i: nat)
    requires ClearAt(n, v, p, i) && p in n.r && Sending(n.r[p], i)
    ensures SendingAt(n, v, p, i)
  {
  }

  lemma PendingIsServed(ns: seq<Net>, nx: nat, ny: nat, slack: nat, size: nat, p: Pos, i: nat, t: nat) returns (u: nat)
    requires IsStretch(ns, nx, ny) && IsLive(ns, slack, size) && t < |ns| && PendingAt(ns[t], p, i) && p in ns[t].r
    requires t + LineWait(size, AckWait(slack)) < |ns|
    ensures t <= u <= t + LineWait(size, AckWait(slack)) && p in ns[u].r && Served(ns[u].r[p], i)
  {
    assert Shaped(ns[t]) && IsPending(ns[t].r[p], i);
    hide AckWait, LineWait, IsLive, IsStretch, InAll, OpenAround, IsTrace, ServedWithin, Shaped, IsPending, NoneDue, Served, Open;
    LiveAt(ns, nx, ny, slack, size, t, p);
    MeshTrace(ns, nx, ny, p);
    RouterIsServed(ns, nx, ny, slack, p);
    AckLonger(slack);
    NoneDueAt(ns, p, t, LineWait(size, AckWait(slack)));
    u := LineIsServed(Rs(ns, p), Ws(ns, p), AckWait(slack), i, t);
    InAllAt(ns, p, u);
  }

  // ---- Down the tree ----

  /** How far `p` is from the root. */
  ghost function Depth(v: Wave, p: Pos): nat
    requires IsTree(v) && p in v.held
    decreases v.stamp[p]
  {
    if p == v.src then 0 else Depth(v, Parent(v, p)) + 1
  }

  /** The routers on the way from `p` to the root. */
  ghost function Path(v: Wave, p: Pos): set<Pos>
    requires IsTree(v) && p in v.held
    decreases v.stamp[p]
  {
    if p == v.src then {p} else Path(v, Parent(v, p)) + {p}
  }

  /** They are different routers, no younger than `p`. */
  lemma {:induction false} PathIsOld(v: Wave, p: Pos)
    requires IsTree(v) && p in v.held
    ensures Path(v, p) <= v.held && |Path(v, p)| == Depth(v, p) + 1
    ensures forall b :: b in Path(v, p) ==> v.stamp[b] <= v.stamp[p]
    decreases v.stamp[p]
  {
    if p != v.src { PathIsOld(v, Parent(v, p)); }
  }

  lemma Smaller<T>(a: set<T>, b: set<T>)
    requires a <= b
    ensures |a| <= |b|
  {
    assert b == a + (b - a);
  }

  lemma DepthIsBounded(v: Wave, p: Pos)
    requires IsTree(v) && p in v.held
    ensures Depth(v, p) < |v.held|
  {
    PathIsOld(v, p);
    Smaller(Path(v, p), v.held);
  }

  lemma TreeFacts(n: Net, v: Wave, nx: nat, ny: nat)
    requires WaveInv(n, v, nx, ny)
    ensures IsTree(v) && v.held <= n.r.Keys
  {
  }

  lemma ReachesChild(n: Net, v: Wave, nx: nat, ny: nat, p: Pos)
    requires WaveInv(n, v, nx, ny) && IsTree(v) && p in v.held && p != v.src && GoneAt(n, v, Parent(v, p))
    ensures !FreshAt(n, v, p)
  {
    hide WaveInv, Gone, Fresh, Shaped;
    TreeFacts(n, v, nx, ny);
    ParentReaches(n, v, nx, ny, p);
  }

  lemma OneStep(v: Wave, p: Pos, hop: nat)
    requires IsTree(v) && p in v.held && p != v.src
    ensures p in v.par && Parent(v, p) in v.held && {p, Parent(v, p)} <= v.stamp.Keys && v.stamp[Parent(v, p)] < v.stamp[p]
    ensures Rounds(Depth(v, p), hop) == Rounds(Depth(v, Parent(v, p)), hop) + hop
  {
  }

  /** The clear reaches a router within a hop for each step of its path. */
  lemma {:induction false} WaveReaches(ns: seq<Net>, v: Wave, nx: nat, ny: nat, slack: nat, size: nat, p: Pos) returns (u: nat)
    requires IsWaveRun(ns, v, nx, ny) && IsLive(ns, slack, size) && 0 < |ns| && !FreshAt(ns[0], v, v.src)
    requires IsTree(v) && p in v.held && Rounds(Depth(v, p), Hop(size, slack)) < |ns|
    ensures u <= Rounds(Depth(v, p), Hop(size, slack)) && !FreshAt(ns[u], v, p)
    decreases v.stamp[p]
  {
    if p == v.src { u := 0; return; }
    OneStep(v, p, Hop(size, slack));
    hide *;
    var b := Parent(v, p);
    u := WaveReaches(ns, v, nx, ny, slack, size, b);
    WaveCycle(ns, v, nx, ny, u);
    TreeFacts(ns[u], v, nx, ny);
    u := ReachedFrees(ns, v, nx, ny, slack, size, b, u);
    WaveCycle(ns, v, nx, ny, u);
    ReachesChild(ns[u], v, nx, ny, p);
  }

  lemma NotHeldHasNone(n: Net, v: Wave, nx: nat, ny: nat, p: Pos)
    requires WaveInv(n, v, nx, ny) && p !in v.held
    ensures !HasAt(n, v, p)
  {
    hide NetInv, AllStages, AllReached, KeyRests, IsTree;
    if HasAt(n, v, p) {
      var i: nat :| At(n.r[p], v.key, i);
      HeldOnly(n, v, nx, ny, p, i);
    }
  }

  /** The wave ends in time: once its source holds the plain flood no more, every table is
      free of the key after as many hops as there are routers that held it, and stays so. */
  lemma ClearEndsInTime(ns: seq<Net>, v: Wave, nx: nat, ny: nat, slack: nat, size: nat, t: nat, p: Pos)
    requires IsWaveRun(ns, v, nx, ny) && IsLive(ns, slack, size) && 0 < |ns| && !FreshAt(ns[0], v, v.src)
    requires Rounds(|v.held|, Hop(size, slack)) < t < |ns|
    ensures !HasAt(ns[t], v, p)
  {
    hide IsWaveRun, IsLive, Hop, FreshAt, GoneAt, HasAt, WaveInv, WaveNext, Shaped, IsTree;
    WaveCycle(ns, v, nx, ny, 0);
    TreeFacts(ns[0], v, nx, ny);
    if p in v.held {
      DepthIsBounded(v, p);
      RoundsGrow(Depth(v, p) + 1, |v.held|, Hop(size, slack));
      var u := WaveReaches(ns, v, nx, ny, slack, size, p);
      WaveCycle(ns, v, nx, ny, u);
      TreeFacts(ns[u], v, nx, ny);
      u := ReachedFrees(ns, v, nx, ny, slack, size, p, u);
      StaysGone(ns, v, nx, ny, u, t, p);
    } else {
      WaveCycle(ns, v, nx, ny, t);
      NotHeldHasNone(ns[t], v, nx, ny, p);
    }
  }
}
