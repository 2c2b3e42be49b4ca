/** The clear interval at work: from the request of a lone broadcast the timer of the source
    runs long enough for the flood to come to rest, so the clear finds a quiet mesh and leaves
    no trace. */
module BrLiteInterval {
  import opened Topology
  import opened BrLite
  import opened BrLiteCam
  import opened BrLiteLine
  import opened BrLiteMesh
  import opened BrLiteFlood
  import opened BrLiteClear
  import opened BrLiteTiming

  // ---- The timer of one router ----

  /** In cycle `t` after a calm start with the clock at `c`: a local write came in cycle 4 at
      the earliest, and no clear is due yet. */
  predicate TimerAt(r: Router, c: nat, t: nat) {
    && r.io.tick == c + t && !r.io.clearLocal
    && (r.io.wroteLocal ==> c + 4 <= r.io.wroteTick <= c + t)
    && (r.inp.state == IN_ARBITRATION ==> t >= 1) && (r.inp.state == IN_TEST_SPACE ==> t >= 2)
    && (r.inp.state == IN_WRITE ==> t >= 3)
  }

  lemma TimerRuns(r: Router, w: Wires, c: nat, t: nat)
    requires Shape(r) && WiresOk(w) && TimerAt(r, c, t)
    requires c + t + 1 + r.clearInterval < WORD && t < r.clearInterval + 3
    ensures TimerAt(Step(r, w), c, t + 1) && Step(r, w).clearInterval == r.clearInterval
  {
  }

  // ---- The run ----

  /** A cycle in which nobody begins to ask and the source lets go when it is acknowledged. */
  ghost predicate Calm(n: Net, n': Net, f: Flood) {
    && Shaped(n) && Shaped(n') && NetNext(n, n') && n'.r.Keys == n.r.Keys == n'.pe.Keys && RequestsOk(n', f)
    && forall p :: p in n.r ==> (n'.pe[p].req ==> n.pe[p].req && !n'.r[p].inp.ack[LOCAL])
  }

  ghost predicate ClocksAt(n: Net, c: nat, interval: nat, t: nat) {
    forall p :: p in n.r ==> TimerAt(n.r[p], c, t) && n.r[p].clearInterval == interval
  }

  /** A lone broadcast from its request on, with nothing assumed about its clear. */
  ghost predicate IsBroadcast(ns: seq<Net>, f: Flood, nx: nat, ny: nat, c: nat, interval: nat) {
    && 0 < |ns| && c + |ns| + interval < WORD && f.m.svc == ALL
    && LoneStart(ns[0], f) && FloodOk(ns[0], f, nx, ny) && RequestsOk(ns[0], f) && ClocksAt(ns[0], c, interval, 0)
    && (forall p :: p in ns[0].r ==> f.base[p] == CountKey(ns[0].pe[p].got, f.m.key))
    && (forall t :: 0 <= t < |ns| - 1 ==> Calm(ns[t], ns[t + 1], f))
  }

  lemma Clocks(ns: seq<Net>, f: Flood, nx: nat, ny: nat, c: nat, interval: nat)
    requires IsBroadcast(ns, f, nx, ny, c, interval)
    ensures c + |ns| + interval < WORD && ClocksAt(ns[0], c, interval, 0) && 0 < |ns|
  {
  }

  lemma CalmAt(ns: seq<Net>, f: Flood, nx: nat, ny: nat, c: nat, interval: nat, t: nat)
    requires IsBroadcast(ns, f, nx, ny, c, interval) && t + 1 < |ns|
    ensures Calm(ns[t], ns[t + 1], f)
  {
  }

  lemma ClocksRun(n: Net, n': Net, f: Flood, c: nat, interval: nat, t: nat)
    requires Calm(n, n', f) && ClocksAt(n, c, interval, t)
    requires c + t + 1 + interval < WORD && t < interval + 3
    ensures ClocksAt(n', c, interval, t + 1)
  {
    assert n'.r.Keys == n.r.Keys && Shaped(n);
    hide TimerAt, Step;
    forall p | p in n'.r
      ensures TimerAt(n'.r[p], c, t + 1) && n'.r[p].clearInterval == interval
    {
      TimerRuns(n.r[p], WiresAt(n, p), c, t);
    }
  }

  /** No clear is due before cycle `interval` + 4. */
  lemma {:induction false} NoClearBefore(ns: seq<Net>, f: Flood, nx: nat, ny: nat, c: nat, interval: nat, t: nat)
    requires IsBroadcast(ns, f, nx, ny, c, interval) && t < |ns| && t <= interval + 3
    ensures ClocksAt(ns[t], c, interval, t)
  {
    hide IsBroadcast, ClocksAt, Calm;
    Clocks(ns, f, nx, ny, c, interval);
    if t > 0 {
      NoClearBefore(ns, f, nx, ny, c, interval, t - 1);
      CalmAt(ns, f, nx, ny, c, interval, t - 1);
      ClocksRun(ns[t - 1], ns[t], f, c, interval, t - 1);
    }
  }

  lemma NothingFires(n: Net, n': Net, f: Flood, c: nat, interval: nat, t: nat)
    requires Calm(n, n', f) && ClocksAt(n, c, interval, t) && ClocksAt(n', c, interval, t + 1)
    ensures LoneNext(n, n', f) && FloodNext(n, n', f)
  {
    hide Step, WiresAt, NetNext, RequestsOk, Shape;
  }

  lemma StartsUnused(n: Net, f: Flood)
    requires LoneStart(n, f)
    ensures Shaped(n) && Unused(n, f.m.key)
  {
  }

  ghost predicate Links(n: Net, n': Net, f: Flood) { Shaped(n) && Shaped(n') && LoneNext(n, n', f) && FloodNext(n, n', f) }

  lemma IsLoneRunIf(ns: seq<Net>, f: Flood, nx: nat, ny: nat)
    requires 1 < |ns| && f.m.svc == ALL && LoneStart(ns[0], f) && FloodOk(ns[0], f, nx, ny) && RequestsOk(ns[0], f)
    requires forall p :: p in ns[0].r ==> f.base[p] == CountKey(ns[0].pe[p].got, f.m.key)
    requires forall t :: 0 <= t < |ns| - 1 ==> Links(ns[t], ns[t + 1], f)
    ensures IsLoneRun(ns, f, nx, ny)
  {
    StartsUnused(ns[0], f);
    hide LoneStart, FloodOk, RequestsOk, Unused, FloodNext, LoneNext, Shaped, CountKey;
    forall t | 0 <= t < |ns|
      ensures Shaped(ns[t])
    {
      if t > 0 { assert Links(ns[t - 1], ns[t], f); }
    }
    forall t | 0 <= t < |ns| - 1
      ensures LoneNext(ns[t], ns[t + 1], f) && FloodNext(ns[t], ns[t + 1], f)
    {
      assert Links(ns[t], ns[t + 1], f);
    }
  }

  /** Until then the run is a lone flood. */
  lemma IsLoneUntil(ns: seq<Net>, f: Flood, nx: nat, ny: nat, c: nat, interval: nat)
    requires IsBroadcast(ns, f, nx, ny, c, interval) && interval + 4 <= |ns|
    ensures IsLoneRun(ns[..interval + 4], f, nx, ny)
  {
    var flood := ns[..interval + 4];
    assert flood[0] == ns[0];
    forall t | 0 <= t < |flood| - 1
      ensures Links(flood[t], flood[t + 1], f)
    {
      hide Calm, ClocksAt, LoneNext, FloodNext, IsBroadcast;
      assert flood[t] == ns[t] && flood[t + 1] == ns[t + 1];
      NoClearBefore(ns, f, nx, ny, c, interval, t);
      NoClearBefore(ns, f, nx, ny, c, interval, t + 1);
      CalmAt(ns, f, nx, ny, c, interval, t);
      NothingFires(ns[t], ns[t + 1], f, c, interval, t);
      assert Shaped(ns[t]) && Shaped(ns[t + 1]) by { CalmShaped(ns[t], ns[t + 1], f); }
    }
    hide Links, LoneStart, FloodOk, RequestsOk, ClocksAt, Calm;
    IsLoneRunIf(flood, f, nx, ny);
  }

  lemma CalmShaped(n: Net, n': Net, f: Flood)
    requires Calm(n, n', f)
    ensures Shaped(n) && Shaped(n')
  {
  }

  // ---- The clear ----

  ghost predicate NobodyAsks(n: Net) { forall p :: p in n.pe ==> !n.pe[p].req }

  lemma NothingHeard(n: Net)
    requires Shaped(n) && forall p :: p in n.r ==> !Hears(n, p, LOCAL)
    ensures NobodyAsks(n)
  {
    forall p | p in n.pe
      ensures !n.pe[p].req
    {
      assert p in n.r.Keys && !Hears(n, p, LOCAL);
    }
  }

  lemma NotHeard(ns: seq<Net>, f: Flood, nx: nat, ny: nat, t: nat, p: Pos)
    requires IsLoneRun(ns, f, nx, ny) && nx + ny > 0 && t >= Front(nx, ny) + MOST && t < |ns|
    ensures Shaped(ns[t]) && (p in ns[t].r ==> !Hears(ns[t], p, LOCAL))
  {
    hide IsLoneRun, AllSent, Hears, DrainAt, FloodInv, IsMesh, LoneAt, OnTimeAt;
    var stamp := RunKeepsLoneInv(ns, f, nx, ny, t);
    assert Shaped(ns[t]);
    hide LoneInv;
    AllSentBy(ns[t], f, stamp, t, nx, ny);
    if p in ns[t].r {
      Drains(ns, f, nx, ny, t - MOST, MOST, p);
      DrainStarts(ns[t], f, stamp, t, nx, ny, p);
    }
  }

  /** When the flood is quiet its source has let go. */
  lemma SourceHasLetGo(ns: seq<Net>, f: Flood, nx: nat, ny: nat, t: nat)
    requires IsLoneRun(ns, f, nx, ny) && nx + ny > 0 && t >= Front(nx, ny) + MOST && t < |ns|
    ensures NobodyAsks(ns[t])
  {
    hide IsLoneRun, Hears, Shape;
    NotHeard(ns, f, nx, ny, t, f.src);
    forall p | p in ns[t].r
      ensures !Hears(ns[t], p, LOCAL)
    {
      NotHeard(ns, f, nx, ny, t, p);
    }
    NothingHeard(ns[t]);
  }

  lemma SinksOfPrefix(ns: seq<Net>, k: nat, slack: nat)
    requires SinksWithin(ns, slack) && k <= |ns|
    ensures SinksWithin(ns[..k], slack)
  {
    forall t: nat, p: Pos
      ensures !Neglects(ns[..k], t, slack, p)
    {
      if Neglects(ns[..k], t, slack, p) { NeglectsToo(ns, k, t, slack, p); }
    }
  }

  lemma NeglectsToo(ns: seq<Net>, k: nat, t: nat, slack: nat, p: Pos)
    requires k <= |ns| && Neglects(ns[..k], t, slack, p)
    ensures Neglects(ns, t, slack, p)
  {
    hide Requests, SinkAcks;
    forall u | t <= u <= t + slack
      ensures Requests(ns[u], p, LOCAL) && !SinkAcks(ns[u], p)
    {
      assert ns[..k][u] == ns[u];
    }
  }

  lemma MeshIsThere(ns: seq<Net>, f: Flood, nx: nat, ny: nat)
    requires IsLoneRun(ns, f, nx, ny)
    ensures nx + ny > 0
  {
    assert NetInv(ns[0], nx, ny) && IsMesh(ns[0], nx, ny);
  }

  /** The interval suffices: if it covers the deadline, then in the last cycle before a clear
      may be due the flood is everywhere, quiet, and asked for by nobody. */
  lemma IntervalSuffices(ns: seq<Net>, f: Flood, nx: nat, ny: nat, c: nat, interval: nat, slack: nat)
    requires IsBroadcast(ns, f, nx, ny, c, interval) && interval + 4 <= |ns| && SinksWithin(ns, slack)
    requires Deadline(nx, ny, slack) <= interval + 3
    ensures var n := ns[interval + 3];
      Shaped(n) && Quiet(n, f.m.key) && NobodyAsks(n) && forall p :: p in n.r ==> HoldsAt(n, f, p)
    ensures IsLoneRun(ns[..interval + 4], f, nx, ny)
  {
    hide IsBroadcast, IsLoneRun, SinksWithin, Quiet, HoldsAt, Shaped, NobodyAsks;
    var flood := ns[..interval + 4];
    IsLoneUntil(ns, f, nx, ny, c, interval);
    SinksOfPrefix(ns, interval + 4, slack);
    assert flood[interval + 3] == ns[interval + 3];
    MeshIsThere(flood, f, nx, ny);
    FloodIsQuietInTime(flood, f, nx, ny, slack, interval + 3);
    SourceHasLetGo(flood, f, nx, ny, interval + 3);
  }

  lemma StaysCalm(n: Net, n': Net, f: Flood)
    requires Calm(n, n', f) && NobodyAsks(n)
    ensures NobodyAsks(n') && KeyRests(n, f.m.key) && WaveNext(n, n', f.m.key)
  {
    hide NetNext, RequestsOk, Shape;
    forall p | p in n'.pe
      ensures !n'.pe[p].req
    {
      assert p in n'.pe.Keys && p in n.r.Keys;
    }
  }

  lemma {:induction false} StaysSilent(ns: seq<Net>, f: Flood, nx: nat, ny: nat, c: nat, interval: nat, from: nat, t: nat)
    requires IsBroadcast(ns, f, nx, ny, c, interval) && from <= t < |ns| && NobodyAsks(ns[from])
    ensures NobodyAsks(ns[t])
  {
    hide IsBroadcast, NobodyAsks, Calm;
    if from < t {
      StaysSilent(ns, f, nx, ny, c, interval, from, t - 1);
      CalmAt(ns, f, nx, ny, c, interval, t - 1);
      StaysCalm(ns[t - 1], ns[t], f);
    }
  }

  ghost predicate Gone(n: Net, f: Flood, p: Pos) { Shaped(n) && (p in n.r ==> !Has(n.r[p], f.m.key)) }

  ghost predicate IsClearing(n: Net, f: Flood) { Shaped(n) && f.src in n.r && Quiet(n, f.m.key) && !Fresh(n.r[f.src], f.m.key) }

  ghost predicate WaveLinks(n: Net, n': Net, k: Key) { Shaped(n) && Shaped(n') && WaveNext(n, n', k) }

  lemma IsQuietRunIf(ns: seq<Net>, k: Key)
    requires 1 < |ns| && forall t :: 0 <= t < |ns| - 1 ==> WaveLinks(ns[t], ns[t + 1], k)
    ensures IsQuietRun(ns, k)
  {
    hide WaveNext, Shaped;
    forall t | 0 <= t < |ns|
      ensures Shaped(ns[t])
    {
      if t > 0 { assert WaveLinks(ns[t - 1], ns[t], k); } else { assert WaveLinks(ns[0], ns[1], k); }
    }
    forall t | 0 <= t < |ns| - 1
      ensures WaveNext(ns[t], ns[t + 1], k)
    {
      assert WaveLinks(ns[t], ns[t + 1], k);
    }
  }

  lemma LinksAt(ns: seq<Net>, f: Flood, nx: nat, ny: nat, c: nat, interval: nat, from: nat, t: nat)
    requires IsBroadcast(ns, f, nx, ny, c, interval) && from <= t && t + 1 < |ns| && NobodyAsks(ns[from])
    ensures WaveLinks(ns[t], ns[t + 1], f.m.key) && KeyRests(ns[t], f.m.key)
  {
    hide IsBroadcast, NobodyAsks, Calm, WaveNext, KeyRests;
    StaysSilent(ns, f, nx, ny, c, interval, from, t);
    CalmAt(ns, f, nx, ny, c, interval, t);
    CalmShaped(ns[t], ns[t + 1], f);
    StaysCalm(ns[t], ns[t + 1], f);
  }

  lemma WaveFrom(ns: seq<Net>, f: Flood, nx: nat, ny: nat, c: nat, interval: nat, from: nat)
    requires IsBroadcast(ns, f, nx, ny, c, interval) && from + 1 < |ns| && NobodyAsks(ns[from])
    ensures IsQuietRun(ns[from..], f.m.key)
  {
    hide IsBroadcast, NobodyAsks, WaveLinks, KeyRests, IsQuietRun;
    var wave := ns[from..];
    forall t | 0 <= t < |wave| - 1
      ensures WaveLinks(wave[t], wave[t + 1], f.m.key)
    {
      assert wave[t] == ns[from + t] && wave[t + 1] == ns[from + t + 1];
      LinksAt(ns, f, nx, ny, c, interval, from, from + t);
    }
    IsQuietRunIf(wave, f.m.key);
  }

  /** The flood is over, its source holds it, and nobody asks. */
  ghost predicate IsOver(n: Net, f: Flood) {
    Shaped(n) && Quiet(n, f.m.key) && f.src in n.r && Has(n.r[f.src], f.m.key) && KeyRests(n, f.m.key)
  }

  lemma NoTrace(flood: seq<Net>, f: Flood, wave: seq<Net>, nx: nat, ny: nat, t: nat, u: nat, p: Pos)
    requires IsFloodRun(flood, f, nx, ny) && IsOver(flood[|flood| - 1], f)
    requires IsQuietRun(wave, f.m.key) && wave[0] == flood[|flood| - 1] && t < u < |wave| && IsClearing(wave[t], f)
    requires p in wave[t].r && p in wave[u].r && Shaped(wave[u])
    ensures Gone(wave[u], f, p)
  {
    hide IsFloodRun, IsQuietRun, Quiet, KeyRests, Has, Fresh;
    BroadcastLeavesNoTrace(flood, f, wave, nx, ny, t, u, p);
  }

  lemma OverAtInterval(ns: seq<Net>, f: Flood, nx: nat, ny: nat, c: nat, interval: nat, slack: nat)
    requires IsBroadcast(ns, f, nx, ny, c, interval) && interval + 4 < |ns| && SinksWithin(ns, slack)
    requires Deadline(nx, ny, slack) <= interval + 3
    ensures IsOver(ns[interval + 3], f) && NobodyAsks(ns[interval + 3]) && IsFloodRun(ns[..interval + 4], f, nx, ny)
  {
    hide IsBroadcast, SinksWithin, IsLoneRun, NobodyAsks, KeyRests, Quiet, LoneStart, WaveLinks, IsFloodRun;
    var flood := ns[..interval + 4];
    IntervalSuffices(ns, f, nx, ny, c, interval, slack);
    StartOf(flood, f, nx, ny);
    LinksAt(ns, f, nx, ny, c, interval, interval + 3, interval + 3);
    assert flood[interval + 3] == ns[interval + 3];
    SourceIsThere(flood, f, nx, ny, interval + 3);
  }

  lemma SourceIsThere(ns: seq<Net>, f: Flood, nx: nat, ny: nat, t: nat)
    requires IsLoneRun(ns, f, nx, ny) && t < |ns| && forall p :: p in ns[t].r ==> HoldsAt(ns[t], f, p)
    ensures HoldsAt(ns[t], f, f.src)
  {
    hide IsLoneRun;
    var stamp := RunKeepsLoneInv(ns, f, nx, ny, t);
  }

  /** The whole life of a lone broadcast, with the clear interval as the only premise about
      its clear: once the source has cleared its line and the mesh is quiet, from the next
      cycle on no router has a line for the key. */
  lemma LoneBroadcastLeavesNoTrace(ns: seq<Net>, f: Flood, nx: nat, ny: nat, c: nat, interval: nat, slack: nat,
                                   t: nat, u: nat, p: Pos)
    requires IsBroadcast(ns, f, nx, ny, c, interval) && SinksWithin(ns, slack) && Deadline(nx, ny, slack) <= interval + 3
    requires interval + 3 <= t < u < |ns| && IsClearing(ns[t], f) && p in ns[t].r && p in ns[u].r && Shaped(ns[u])
    ensures Gone(ns[u], f, p)
  {
    hide IsBroadcast, SinksWithin, IsFloodRun, IsQuietRun, IsOver, IsClearing, Gone, Shaped, NobodyAsks;
    var at := interval + 3;
    var flood, wave := ns[..at + 1], ns[at..];
    OverAtInterval(ns, f, nx, ny, c, interval, slack);
    WaveFrom(ns, f, nx, ny, c, interval, at);
    assert flood[|flood| - 1] == ns[at] == wave[0] && wave[t - at] == ns[t] && wave[u - at] == ns[u];
    NoTrace(flood, f, wave, nx, ny, t - at, u - at, p);
  }
}
