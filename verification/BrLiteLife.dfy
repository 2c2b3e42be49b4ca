/** The whole life of a broadcast that is alone in the mesh, in cycles: its timer starts with
    the write at the source, the clear fires right after the interval, and by a stated cycle
    no table holds anything of it. Nothing is assumed about the clear. */
module BrLiteLife {
  import opened Topology
  import opened BrLite
  import opened BrLiteCam
  import opened BrLiteLine
  import opened BrLiteMesh
  import opened BrLiteFlood
  import opened BrLiteTiming
  import opened BrLiteInterval
  import opened BrLiteService
  import opened BrLiteLiveness
  import opened BrLiteClearTime
  import BrLiteClear

  // ---- The timer of the source ----

  /** A source that holds its flood has its timer running for that line, from cycle 4 on. */
  ghost predicate SourceTimed(r: Router, k: Key, c: nat)
    requires Shape(r)
  {
    Has(r, k) ==> r.io.wroteLocal && At(r, k, r.io.wroteIdx) && r.io.wroteTick == c + 4
  }

  lemma HolderWritesNot(r: Router, w: Wires, k: Key)
    requires CamInv(r, w) && LoneRouter(r, w, k) && r.inp.state == IN_WRITE
    ensures !Has(r, k)
  {
    assert w.req[r.inp.port] && w.msg[r.inp.port].key == k;
  }

  lemma TimerMoves(r: Router, w: Wires, c: nat, t: nat)
    requires Shape(r) && WiresOk(w) && TimerAt(r, c, t) && c + t + 1 + r.clearInterval < WORD && t < r.clearInterval + 3
    ensures var io := Step(r, w).io;
      if r.inp.state == IN_WRITE && r.inp.port == LOCAL then io.wroteLocal && io.wroteIdx == r.inp.freeIdx && io.wroteTick == c + t + 1
      else io.wroteLocal == r.io.wroteLocal && io.wroteIdx == r.io.wroteIdx && io.wroteTick == r.io.wroteTick
  {
  }

  lemma WriteTime(r: Router, k: Key, c: nat, t: nat)
    requires Shape(r) && TimerAt(r, c, t) && r.inp.state == IN_WRITE && !Has(r, k) && Rank(r, k) + t <= 7
    ensures t == 3
  {
  }

  lemma SourceKeepsTime(r: Router, w: Wires, k: Key, c: nat, t: nat)
    requires CamInv(r, w) && LoneRouter(r, w, k) && TimerAt(r, c, t) && SourceTimed(r, k, c)
    requires c + t + 1 + r.clearInterval < WORD && t < r.clearInterval + 3
    requires r.inp.state == IN_WRITE ==> r.inp.port == LOCAL && Rank(r, k) + t <= 7
    ensures SourceTimed(Step(r, w), k, c)
  {
    TimerMoves(r, w, c, t);
    if r.inp.state == IN_WRITE {
      HolderWritesNot(r, w, k);
      WriteTime(r, k, c, t);
      AbsentMoves(r, w, k);
      hide Step, CamInv, LoneRouter, TimerAt, Rank;
    } else if Has(r, k) {
      HolderMoves(r, w, k, r.io.wroteIdx);
      hide Step, CamInv, LoneRouter, TimerAt, Rank;
    } else {
      AbsentMoves(r, w, k);
      NotHeld(Step(r, w), k);
      hide Step, CamInv, LoneRouter, TimerAt, Rank;
    }
  }

  lemma OtherKeepsTime(r: Router, w: Wires)
    requires CamInv(r, w) && !r.io.wroteLocal && !w.req[LOCAL]
    ensures !Step(r, w).io.wroteLocal
  {
  }

  ghost predicate TimedAt(n: Net, f: Flood, c: nat, p: Pos) {
    && Shaped(n) && p in n.r
    && if p == f.src then SourceTimed(n.r[p], f.m.key, c) else !n.r[p].io.wroteLocal
  }

  /** Only the source is asked by its own processing element, and only that writes there. */
  lemma WritesFromHome(n: Net, f: Flood, stamp: map<Pos, nat>, t: nat, nx: nat, ny: nat)
    requires LoneInv(n, f, stamp, t, nx, ny)
    ensures Shaped(n) && f.src in n.r
    ensures n.r[f.src].inp.state == IN_WRITE ==> n.r[f.src].inp.port == LOCAL && Rank(n.r[f.src], f.m.key) + t <= 7
  {
    hide FloodInv, CamInv, LoneRouter;
    var p, k := f.src, f.m.key;
    Facts(n, f, stamp, t, nx, ny, p);
    var r, w := n.r[p], WiresAt(n, p);
    if r.inp.state == IN_WRITE {
      HolderWritesNot(r, w, k);
      AsksFor(r, w, k);
      if r.inp.port != LOCAL {
        WireMsg(n, f, stamp, t, nx, ny, p, r.inp.port);
        SourceHolds(n, f, stamp, t, nx, ny, Nbr(p, r.inp.port));
      }
    }
  }

  lemma AsksFor(r: Router, w: Wires, k: Key)
    requires CamInv(r, w) && LoneRouter(r, w, k) && r.inp.state == IN_WRITE
    ensures w.req[r.inp.port] && w.msg[r.inp.port].key == k
  {
  }

  lemma NotAsked(n: Net, f: Flood, p: Pos)
    requires LoneAt(n, f, p) && p != f.src
    ensures !WiresAt(n, p).req[LOCAL]
  {
  }

  lemma KeepsTimed(n: Net, n': Net, f: Flood, stamp: map<Pos, nat>, nx: nat, ny: nat, c: nat, interval: nat, t: nat, p: Pos)
    requires LoneInv(n, f, stamp, t, nx, ny) && LoneNext(n, n', f) && ClocksAt(n, c, interval, t) && TimedAt(n, f, c, p)
    requires c + t + 1 + interval < WORD && t < interval + 3
    ensures TimedAt(n', f, c, p)
  {
    hide LoneInv, LoneNext, CamInv, Step, LoneRouter, SourceTimed;
    Facts(n, f, stamp, t, nx, ny, p);
    BrLiteTiming.Stepped(n, n', f, p);
    if p == f.src {
      WritesFromHome(n, f, stamp, t, nx, ny);
      SourceKeepsTime(n.r[p], WiresAt(n, p), f.m.key, c, t);
    } else {
      NotAsked(n, f, p);
      OtherKeepsTime(n.r[p], WiresAt(n, p));
    }
  }

  lemma StartsTimed(n: Net, f: Flood, c: nat, interval: nat, p: Pos)
    requires LoneStart(n, f) && p in n.r && NoTimer(n, p)
    ensures TimedAt(n, f, c, p)
  {
  }

  ghost predicate NoTimer(n: Net, p: Pos) { p in n.r && !n.r[p].io.wroteLocal }

  lemma NoTimerAtFirst(n: Net, c: nat, interval: nat, p: Pos)
    requires ClocksAt(n, c, interval, 0) && p in n.r
    ensures NoTimer(n, p)
  {
    assert TimerAt(n.r[p], c, 0);
  }

  /** Up to the interval, the timer of the source is the only one. */
  lemma {:induction false} StaysTimed(ns: seq<Net>, f: Flood, nx: nat, ny: nat, c: nat, interval: nat, t: nat, p: Pos)
    requires IsBroadcast(ns, f, nx, ny, c, interval) && interval + 4 <= |ns| && t <= interval + 3 && p in ns[0].r
    ensures TimedAt(ns[t], f, c, p)
  {
    hide IsBroadcast, IsLoneRun, LoneInv, LoneNext, LoneStart, ClocksAt, TimedAt;
    var flood := ns[..interval + 4];
    IsLoneUntil(ns, f, nx, ny, c, interval);
    StartOf(flood, f, nx, ny);
    Clocks(ns, f, nx, ny, c, interval);
    assert flood[0] == ns[0] && flood[t] == ns[t];
    if t == 0 {
      NoTimerAtFirst(ns[0], c, interval, p);
      StartsTimed(ns[0], f, c, interval, p);
    } else {
      StaysTimed(ns, f, nx, ny, c, interval, t - 1, p);
      assert flood[t - 1] == ns[t - 1];
      var stamp := RunKeepsLoneInv(flood, f, nx, ny, t - 1);
      NextOf(flood, f, nx, ny, t - 1);
      NoClearBefore(ns, f, nx, ny, c, interval, t - 1);
      KeepsTimed(ns[t - 1], ns[t], f, stamp, nx, ny, c, interval, t - 1, p);
    }
  }

  // ---- The clear fires ----

  /** All lines in use are for `k`. */
  predicate OnlyKey(r: Router, k: Key)
    requires Shape(r)
  {
    forall i :: 0 <= i < |r.io.flag| && r.io.flag[i].used ==> LineKey(r, i) == k
  }

  predicate Idle(r: Router, w: Wires) {
    && Shape(r) && WiresOk(w) && r.inp.state in {IN_INIT, IN_WAIT_REQ_DOWN} && r.outp.state == OUT_INIT
    && (forall q: Port :: !w.req[q]) && forall i :: 0 <= i < |r.io.flag| ==> !PendingLine(r, i)
  }

  lemma QuietIsIdle(r: Router, w: Wires, k: Key)
    requires CamInv(r, w) && LoneRouter(r, w, k) && (forall q: Port :: !r.outp.req[q] && !w.req[q])
    requires forall i: nat :: At(r, k, i) ==> !r.io.flag[i].pending
    ensures Idle(r, w) && OnlyKey(r, k) && !r.io.clearLocal
  {
    forall i | 0 <= i < |r.io.flag|
      ensures !PendingLine(r, i)
    {
      if r.io.flag[i].used { assert At(r, k, i); }
    }
  }

  /** A cycle of an idle router: it comes to rest with its lines untouched. */
  lemma IdleStep(r: Router, w: Wires)
    requires CamInv(r, w) && Idle(r, w) && !r.io.clearLocal
    ensures var r' := Step(r, w);
      && r'.inp.state == IN_INIT && r'.outp.state == OUT_INIT && r'.io.flag == r.io.flag && r'.inp.entry == r.inp.entry
      && r'.io.wroteIdx == r.io.wroteIdx && !(r'.io.clearLocal && r'.io.wroteLocal)
      && (!r.io.wroteLocal ==> !r'.io.wroteLocal && !r'.io.clearLocal)
  {
    var r' := Step(r, w);
    assert true !in w.req && true !in PendingMask(r);
    assert forall i :: 0 <= i < |r.io.flag| ==> r'.io.flag[i] == r.io.flag[i];
  }

  lemma TimerExpires(r: Router, w: Wires, c: nat)
    requires CamInv(r, w) && Idle(r, w) && TimerAt(r, c, r.clearInterval + 3) && r.io.wroteLocal && r.io.wroteTick == c + 4
    requires c + 2 * r.clearInterval + 4 < WORD
    ensures Step(r, w).io.clearLocal && !Step(r, w).io.wroteLocal
  {
  }

  /** One cycle before its clear: at rest, with no timer running. */
  ghost predicate Armed(r: Router, k: Key, due: bool) {
    && Shape(r) && OnlyKey(r, k) && r.inp.state == IN_INIT && r.outp.state == OUT_INIT
    && !r.io.wroteLocal && r.io.clearLocal == due && (due ==> At(r, k, r.io.wroteIdx))
  }

  /** No clear is due any more, and none will be. */
  ghost predicate Spent(r: Router, k: Key) {
    Shape(r) && OnlyKey(r, k) && !r.io.wroteLocal && !r.io.clearLocal
  }

  lemma OthersArm(r: Router, w: Wires, k: Key)
    requires CamInv(r, w) && Idle(r, w) && OnlyKey(r, k) && !r.io.clearLocal && !r.io.wroteLocal
    ensures Armed(Step(r, w), k, false)
  {
    IdleStep(r, w);
    hide Step, CamInv;
  }

  lemma SourceArms(r: Router, w: Wires, k: Key, c: nat)
    requires CamInv(r, w) && Idle(r, w) && OnlyKey(r, k) && !r.io.clearLocal && Has(r, k) && SourceTimed(r, k, c)
    requires TimerAt(r, c, r.clearInterval + 3) && c + 2 * r.clearInterval + 4 < WORD
    ensures Armed(Step(r, w), k, true)
  {
    IdleStep(r, w);
    TimerExpires(r, w, c);
    hide Step, CamInv, TimerAt;
  }

  /** The armed source fires; the others do nothing that matters here. */
  lemma ArmedStep(r: Router, w: Wires, k: Key, due: bool)
    requires CamInv(r, w) && Armed(r, k, due)
    ensures Spent(Step(r, w), k) && (due ==> !Fresh(Step(r, w), k))
  {
    var r' := Step(r, w);
    if due { LocalClearTurns(r, w, k); }
    forall i | 0 <= i < |r.io.flag| && r'.io.flag[i].used
      ensures LineKey(r', i) == k
    {
      LineStep(r, w, i);
    }
  }

  ghost predicate ArmedAt(n: Net, f: Flood, p: Pos) { Shaped(n) && p in n.r && Armed(n.r[p], f.m.key, p == f.src) }

  ghost predicate SpentAt(n: Net, f: Flood, p: Pos) { Shaped(n) && p in n.r && Spent(n.r[p], f.m.key) }

  /** The last cycle of the interval at router `p`: a quiet flood and nobody who asks. */
  ghost predicate LastAt(n: Net, f: Flood, c: nat, interval: nat, p: Pos) {
    && Shaped(n) && p in n.r && CamInv(n.r[p], WiresAt(n, p)) && LoneAt(n, f, p) && HoldsAt(n, f, p) && TimedAt(n, f, c, p)
    && n.r[p].clearInterval == interval && TimerAt(n.r[p], c, interval + 3) && c + 2 * interval + 4 < WORD
    && (forall q: Port :: !n.r[p].outp.req[q] && !WiresAt(n, p).req[q])
    && forall i: nat :: At(n.r[p], f.m.key, i) ==> !n.r[p].io.flag[i].pending
  }

  lemma LastArms(n: Net, n': Net, f: Flood, c: nat, interval: nat, p: Pos)
    requires LastAt(n, f, c, interval, p) && Calm(n, n', f)
    ensures ArmedAt(n', f, p)
  {
    hide CamInv, Step, SourceTimed, LoneRouter, TimerAt, Has, Idle, OnlyKey, NetNext, RequestsOk;
    var r, w := n.r[p], WiresAt(n, p);
    QuietIsIdle(r, w, f.m.key);
    CalmStep(n, n', f, p);
    if p == f.src { SourceArms(r, w, f.m.key, c); } else { OthersArm(r, w, f.m.key); }
  }

  lemma CalmStep(n: Net, n': Net, f: Flood, p: Pos)
    requires Calm(n, n', f) && p in n.r
    ensures Shaped(n) && Shaped(n') && p in n'.r && n'.r[p] == Step(n.r[p], WiresAt(n, p)) && n'.r.Keys == n.r.Keys
  {
    hide Step, WiresAt, RequestsOk;
  }

  lemma ArmedFires(n: Net, n': Net, f: Flood, nx: nat, ny: nat, p: Pos)
    requires ArmedAt(n, f, p) && Calm(n, n', f) && Shaped(n) && NetInv(n, nx, ny)
    ensures SpentAt(n', f, p) && (p == f.src ==> !Fresh(n'.r[p], f.m.key))
  {
    hide CamInv, Step, Armed, Spent, Fresh, Calm, NetInv;
    CamAt(n, nx, ny, p);
    CalmStep(n, n', f, p);
    ArmedStep(n.r[p], WiresAt(n, p), f.m.key, p == f.src);
  }

  // ---- The last cycle of the interval ----

  /** Without a line that is sent, and with nobody asking, no wire carries a request. */
  lemma AllDown(n: Net, f: Flood, stamp: map<Pos, nat>, t: nat, nx: nat, ny: nat, p: Pos, q: Port)
    requires LoneInv(n, f, stamp, t, nx, ny) && Shaped(n) && Quiet(n, f.m.key) && p in n.r
    ensures !n.r[p].outp.req[q]
  {
    hide LoneInv, CamInv, LoneRouter, FloodInv;
    Facts(n, f, stamp, t, nx, ny, p);
    if n.r[p].outp.req[q] { RequestsCarry(n.r[p], WiresAt(n, p), f.m.key, q); }
  }

  lemma RequestsCarry(r: Router, w: Wires, k: Key, q: Port)
    requires CamInv(r, w) && LoneRouter(r, w, k) && r.outp.req[q]
    ensures r.outp.msg[q].key == k
  {
    RequestsMatch(r, w, r.outp.line);
  }

  lemma WiresDown(n: Net, p: Pos, q: Port)
    requires Shaped(n) && p in n.r && NobodyAsks(n) && forall b: Pos, d: Port :: b in n.r ==> !n.r[b].outp.req[d]
    ensures !WiresAt(n, p).req[q]
  {
  }

  lemma AllWiresDown(n: Net, f: Flood, stamp: map<Pos, nat>, t: nat, nx: nat, ny: nat, p: Pos)
    requires LoneInv(n, f, stamp, t, nx, ny) && Shaped(n) && Quiet(n, f.m.key) && NobodyAsks(n) && p in n.r
    ensures forall q: Port :: !n.r[p].outp.req[q] && !WiresAt(n, p).req[q]
  {
    hide LoneInv, Quiet, NobodyAsks;
    forall b: Pos, d: Port | b in n.r
      ensures !n.r[b].outp.req[d]
    {
      AllDown(n, f, stamp, t, nx, ny, b, d);
    }
    forall q: Port
      ensures !WiresAt(n, p).req[q]
    {
      WiresDown(n, p, q);
    }
  }

  lemma LastIf(n: Net, f: Flood, stamp: map<Pos, nat>, nx: nat, ny: nat, c: nat, interval: nat, p: Pos)
    requires LoneInv(n, f, stamp, interval + 3, nx, ny) && Shaped(n) && Quiet(n, f.m.key) && NobodyAsks(n) && p in n.r
    requires HoldsAt(n, f, p) && TimedAt(n, f, c, p) && ClocksAt(n, c, interval, interval + 3) && c + 2 * interval + 4 < WORD
    ensures LastAt(n, f, c, interval, p)
  {
    hide LoneInv, LoneAt, CamInv, TimedAt, HoldsAt, TimerAt;
    Facts(n, f, stamp, interval + 3, nx, ny, p);
    AllWiresDown(n, f, stamp, interval + 3, nx, ny, p);
  }

  lemma LastCycle(ns: seq<Net>, f: Flood, nx: nat, ny: nat, c: nat, interval: nat, slack: nat, p: Pos)
    requires IsBroadcast(ns, f, nx, ny, c, interval) && SinksWithin(ns, slack) && Deadline(nx, ny, slack) <= interval + 3
    requires interval + 5 < |ns| && p in ns[interval + 3].r
    ensures LastAt(ns[interval + 3], f, c, interval, p)
  {
    hide IsBroadcast, SinksWithin, IsLoneRun, LoneInv, LoneNext, ClocksAt, TimedAt, Quiet, NobodyAsks, HoldsAt, Shaped, LastAt;
    var at := interval + 3;
    var flood := ns[..at + 1];
    IntervalSuffices(ns, f, nx, ny, c, interval, slack);
    Clocks(ns, f, nx, ny, c, interval);
    var stamp := RunKeepsLoneInv(flood, f, nx, ny, at);
    assert flood[at] == ns[at];
    PlacesStay(ns, f, nx, ny, c, interval, at, p);
    StaysTimed(ns, f, nx, ny, c, interval, at, p);
    NoClearBefore(ns, f, nx, ny, c, interval, at);
    LastIf(ns[at], f, stamp, nx, ny, c, interval, p);
  }

  lemma {:induction false} PlacesStay(ns: seq<Net>, f: Flood, nx: nat, ny: nat, c: nat, interval: nat, t: nat, p: Pos)
    requires IsBroadcast(ns, f, nx, ny, c, interval) && t < |ns|
    ensures Shaped(ns[t]) && ns[t].r.Keys == ns[0].r.Keys && (p in ns[t].r <==> p in ns[0].r)
  {
    hide IsBroadcast, Calm, Shaped;
    if t == 0 {
      StartShaped(ns, f, nx, ny, c, interval);
    } else {
      PlacesStay(ns, f, nx, ny, c, interval, t - 1, p);
      CalmAt(ns, f, nx, ny, c, interval, t - 1);
      CalmShaped(ns[t - 1], ns[t], f);
      CalmKeys(ns[t - 1], ns[t], f);
      assert p in ns[t].r <==> p in ns[t].r.Keys;
    }
  }

  lemma StartShaped(ns: seq<Net>, f: Flood, nx: nat, ny: nat, c: nat, interval: nat)
    requires IsBroadcast(ns, f, nx, ny, c, interval)
    ensures Shaped(ns[0])
  {
  }

  lemma CalmKeys(n: Net, n': Net, f: Flood)
    requires Calm(n, n', f)
    ensures n'.r.Keys == n.r.Keys
  {
    hide NetNext, RequestsOk, Shape;
  }

  // ---- The wave of this clear is alone too ----

  ghost predicate AllSpent(n: Net, f: Flood) { Shaped(n) && forall p :: p in n.r ==> SpentAt(n, f, p) }

  /** What a router hears from its neighbours is the clear of this flood. */
  lemma HearsClear(n: Net, f: Flood, v: BrLiteClear.Wave, nx: nat, ny: nat, p: Pos, q: Port)
    requires BrLiteClear.WaveInv(n, v, nx, ny) && v.key == f.m.key && AllSpent(n, f) && NobodyAsks(n) && Hears(n, p, q)
    ensures WiresAt(n, p).msg[q].svc == CLEAR && q != LOCAL
  {
    hide BrLiteClear.AllStages, BrLiteClear.AllReached, BrLiteClear.IsTree, BrLiteClear.KeyRests, NetInv, CamInv;
    if q != LOCAL {
      var b := Nbr(p, q);
      BrLiteClear.RouterOk(n, v, nx, ny, b);
      RequestsMatch(n.r[b], WiresAt(n, b), n.r[b].outp.line);
      assert SpentAt(n, f, b);
      BrLiteClear.WireClear(n, v, nx, ny, p, q);
    }
  }

  lemma KeepsSpent(r: Router, w: Wires, k: Key)
    requires CamInv(r, w) && Spent(r, k) && !w.req[LOCAL] && (forall q: Port :: w.req[q] ==> w.msg[q].svc == CLEAR)
    ensures Spent(Step(r, w), k) && !TurnedAway(r, w)
  {
    var r' := Step(r, w);
    assert r.inp.state != IN_WRITE;
    forall i | 0 <= i < |r.io.flag| && r'.io.flag[i].used
      ensures LineKey(r', i) == k
    {
      LineStep(r, w, i);
    }
  }

  lemma HearsClears(n: Net, f: Flood, v: BrLiteClear.Wave, nx: nat, ny: nat, p: Pos)
    requires BrLiteClear.WaveInv(n, v, nx, ny) && v.key == f.m.key && AllSpent(n, f) && NobodyAsks(n) && p in n.r
    ensures Shaped(n) && CamInv(n.r[p], WiresAt(n, p)) && Spent(n.r[p], f.m.key)
    ensures forall q: Port :: WiresAt(n, p).req[q] ==> q != LOCAL && WiresAt(n, p).msg[q].svc == CLEAR
  {
    assert SpentAt(n, f, p);
    hide BrLiteClear.WaveInv, CamInv, AllSpent, NobodyAsks;
    BrLiteClear.RouterOk(n, v, nx, ny, p);
    forall q: Port | WiresAt(n, p).req[q]
      ensures WiresAt(n, p).msg[q].svc == CLEAR && q != LOCAL
    {
      HearsClear(n, f, v, nx, ny, p, q);
    }
  }

  lemma IsOpen(n: Net, f: Flood, v: BrLiteClear.Wave, nx: nat, ny: nat, p: Pos)
    requires BrLiteClear.WaveInv(n, v, nx, ny) && v.key == f.m.key && AllSpent(n, f) && NobodyAsks(n) && p in n.r
    ensures OpenAt(n, p)
  {
    hide BrLiteClear.WaveInv, CamInv, AllSpent, NobodyAsks, TurnedAway;
    HearsClears(n, f, v, nx, ny, p);
    KeepsSpent(n.r[p], WiresAt(n, p), f.m.key);
  }

  lemma RouterStaysSpent(n: Net, n': Net, f: Flood, v: BrLiteClear.Wave, nx: nat, ny: nat, p: Pos)
    requires BrLiteClear.WaveInv(n, v, nx, ny) && v.key == f.m.key && AllSpent(n, f) && NobodyAsks(n) && Calm(n, n', f)
    requires p in n.r
    ensures SpentAt(n', f, p)
  {
    hide BrLiteClear.WaveInv, Calm, Spent, AllSpent, NobodyAsks, CamInv, Step, TurnedAway, WiresAt;
    HearsClears(n, f, v, nx, ny, p);
    CalmStep(n, n', f, p);
    KeepsSpent(n.r[p], WiresAt(n, p), f.m.key);
  }

  /** Rest is kept by the whole mesh. */
  lemma StaysSpent(n: Net, n': Net, f: Flood, v: BrLiteClear.Wave, nx: nat, ny: nat)
    requires BrLiteClear.WaveInv(n, v, nx, ny) && v.key == f.m.key && AllSpent(n, f) && NobodyAsks(n) && Calm(n, n', f)
    ensures AllSpent(n', f)
  {
    hide *;
    CalmShaped(n, n', f);
    CalmKeys(n, n', f);
    forall p | p in n'.r
      ensures SpentAt(n', f, p)
    {
      assert p in n'.r.Keys && p in n.r;
      RouterStaysSpent(n, n', f, v, nx, ny, p);
    }
    SpentIf(n', f);
  }

  lemma SpentIf(n: Net, f: Flood)
    requires Shaped(n) && forall p :: p in n.r ==> SpentAt(n, f, p)
    ensures AllSpent(n, f)
  {
    hide SpentAt, Shaped;
  }

  // ---- From the clear on ----

  /** The cycle after the clear has fired. */
  function Fired(interval: nat): nat { interval + 5 }

  /** What is known of the run from the end of the interval on. */
  ghost predicate IsCleared(ns: seq<Net>, f: Flood, v: BrLiteClear.Wave, nx: nat, ny: nat, c: nat, interval: nat) {
    && IsBroadcast(ns, f, nx, ny, c, interval) && Fired(interval) < |ns| && NobodyAsks(ns[interval + 3])
    && v.src == f.src && v.key == f.m.key && BrLiteClear.IsWaveRun(ns[interval + 3..], v, nx, ny)
  }

  lemma WaveAt(ns: seq<Net>, f: Flood, v: BrLiteClear.Wave, nx: nat, ny: nat, c: nat, interval: nat, t: nat)
    requires IsCleared(ns, f, v, nx, ny, c, interval) && interval + 3 <= t < |ns|
    ensures Shaped(ns[t]) && BrLiteClear.WaveInv(ns[t], v, nx, ny) && NobodyAsks(ns[t]) && v.key == f.m.key && v.src == f.src
    ensures t + 1 < |ns| ==> Shaped(ns[t + 1]) && BrLiteClear.WaveNext(ns[t], ns[t + 1], v.key) && Calm(ns[t], ns[t + 1], f)
  {
    hide IsBroadcast, NobodyAsks, BrLiteClear.IsWaveRun, BrLiteClear.WaveInv, BrLiteClear.WaveNext, Calm, Shaped;
    var wave := ns[interval + 3..];
    assert wave[t - (interval + 3)] == ns[t];
    WaveCycle(wave, v, nx, ny, t - (interval + 3));
    StaysSilent(ns, f, nx, ny, c, interval, interval + 3, t);
    if t + 1 < |ns| {
      assert wave[t + 1 - (interval + 3)] == ns[t + 1];
      CalmAt(ns, f, nx, ny, c, interval, t);
    }
  }

  lemma TheClearIsDue(ns: seq<Net>, f: Flood, nx: nat, ny: nat, c: nat, interval: nat, slack: nat) returns (v: BrLiteClear.Wave)
    requires IsBroadcast(ns, f, nx, ny, c, interval) && SinksWithin(ns, slack) && Deadline(nx, ny, slack) <= interval + 3
    requires Fired(interval) < |ns|
    ensures IsCleared(ns, f, v, nx, ny, c, interval)
  {
    hide IsBroadcast, SinksWithin, NobodyAsks, IsFloodRun, BrLiteClear.IsQuietRun, BrLiteClear.WaveInv, Quiet, BrLiteClear.KeyRests, Has, Shaped;
    var at := interval + 3;
    var flood := ns[..at + 1];
    OverAtInterval(ns, f, nx, ny, c, interval, slack);
    WaveFrom(ns, f, nx, ny, c, interval, at);
    assert flood[|flood| - 1] == ns[at] == ns[at..][0];
    v := BrLiteClear.FloodBecomesWave(flood, f, nx, ny);
  }

  lemma AllArmed(ns: seq<Net>, f: Flood, nx: nat, ny: nat, c: nat, interval: nat, slack: nat, p: Pos)
    requires IsBroadcast(ns, f, nx, ny, c, interval) && SinksWithin(ns, slack) && Deadline(nx, ny, slack) <= interval + 3
    requires Fired(interval) < |ns| && p in ns[interval + 3].r
    ensures ArmedAt(ns[interval + 4], f, p)
  {
    hide IsBroadcast, SinksWithin, LastAt, ArmedAt, Calm;
    LastCycle(ns, f, nx, ny, c, interval, slack, p);
    CalmAt(ns, f, nx, ny, c, interval, interval + 3);
    LastArms(ns[interval + 3], ns[interval + 4], f, c, interval, p);
  }

  lemma WaveNet(n: Net, v: BrLiteClear.Wave, nx: nat, ny: nat)
    requires BrLiteClear.WaveInv(n, v, nx, ny)
    ensures Shaped(n) && NetInv(n, nx, ny)
  {
  }

  /** When the clear has fired no timer runs anywhere, and the source no longer holds the
      plain flood. */
  lemma ClearHasFired(ns: seq<Net>, f: Flood, v: BrLiteClear.Wave, nx: nat, ny: nat, c: nat, interval: nat, slack: nat)
    requires IsCleared(ns, f, v, nx, ny, c, interval) && SinksWithin(ns, slack) && Deadline(nx, ny, slack) <= interval + 3
    ensures AllSpent(ns[Fired(interval)], f) && !FreshAt(ns[Fired(interval)], v, v.src)
  {
    var u := interval + 4;
    var n' := ns[u + 1];
    WaveAt(ns, f, v, nx, ny, c, interval, u);
    WaveNet(ns[u], v, nx, ny);
    hide SinksWithin, ArmedAt, Calm, SpentAt, Fresh, NetInv, BrLiteClear.WaveInv, BrLiteClear.WaveNext, BrLiteClear.IsWaveRun, IsBroadcast, NobodyAsks, Shaped;
    forall p | p in n'.r
      ensures SpentAt(n', f, p) && (p == f.src ==> !Fresh(n'.r[p], f.m.key))
    {
      PlacesStay(ns, f, nx, ny, c, interval, u + 1, p);
      PlacesStay(ns, f, nx, ny, c, interval, u - 1, p);
      AllArmed(ns, f, nx, ny, c, interval, slack, p);
      ArmedFires(ns[u], n', f, nx, ny, p);
    }
    SpentIf(n', f);
  }

  lemma {:induction false} SpentFrom(ns: seq<Net>, f: Flood, v: BrLiteClear.Wave, nx: nat, ny: nat, c: nat, interval: nat, slack: nat, t: nat)
    requires IsCleared(ns, f, v, nx, ny, c, interval) && SinksWithin(ns, slack) && Deadline(nx, ny, slack) <= interval + 3
    requires Fired(interval) <= t < |ns|
    ensures AllSpent(ns[t], f)
  {
    hide IsCleared, SinksWithin, Calm, AllSpent, BrLiteClear.WaveInv, BrLiteClear.WaveNext, NobodyAsks, Shaped;
    if t == Fired(interval) {
      ClearHasFired(ns, f, v, nx, ny, c, interval, slack);
    } else {
      SpentFrom(ns, f, v, nx, ny, c, interval, slack, t - 1);
      WaveAt(ns, f, v, nx, ny, c, interval, t - 1);
      StaysSpent(ns[t - 1], ns[t], f, v, nx, ny);
    }
  }

  // ---- The end ----

  /** All tables have `size` lines. */
  ghost predicate TableSize(n: Net, size: nat) { Shaped(n) && forall p :: p in n.r ==> |n.r[p].io.flag| == size }

  lemma SizeStays(n: Net, n': Net, f: Flood, size: nat)
    requires Calm(n, n', f) && TableSize(n, size)
    ensures TableSize(n', size)
  {
    CalmShaped(n, n', f);
    CalmKeys(n, n', f);
    hide Calm, Step;
    forall p | p in n'.r
      ensures |n'.r[p].io.flag| == size
    {
      assert p in n'.r.Keys && p in n.r;
      CalmStep(n, n', f, p);
    }
  }

  lemma {:induction false} SizeAt(ns: seq<Net>, f: Flood, nx: nat, ny: nat, c: nat, interval: nat, size: nat, t: nat)
    requires IsBroadcast(ns, f, nx, ny, c, interval) && t < |ns| && TableSize(ns[0], size)
    ensures TableSize(ns[t], size)
  {
    hide IsBroadcast, TableSize, Calm;
    if t > 0 {
      SizeAt(ns, f, nx, ny, c, interval, size, t - 1);
      CalmAt(ns, f, nx, ny, c, interval, t - 1);
      SizeStays(ns[t - 1], ns[t], f, size);
    }
  }

  lemma SinksOfSuffix(ns: seq<Net>, k: nat, slack: nat)
    requires SinksWithin(ns, slack) && k <= |ns|
    ensures SinksWithin(ns[k..], slack)
  {
    hide Requests, SinkAcks;
    forall t: nat, p: Pos
      ensures !Neglects(ns[k..], t, slack, p)
    {
      if Neglects(ns[k..], t, slack, p) {
        forall u | k + t <= u <= k + t + slack
          ensures Requests(ns[u], p, LOCAL) && !SinkAcks(ns[u], p)
        {
          assert ns[k..][u - k] == ns[u];
        }
        LeavesWaiting(ns, k + t, slack, p);
        assert false;
      }
    }
  }

  lemma NobodyKeeps(n: Net, p: Pos)
    requires NobodyAsks(n)
    ensures !Keeps(n, p)
  {
  }

  lemma NobodyKeepsOn(ns: seq<Net>, slack: nat)
    requires forall t :: 0 <= t < |ns| ==> NobodyAsks(ns[t])
    ensures SourcesLetGo(ns, slack)
  {
    hide NobodyAsks, Keeps;
    forall p: Pos, t: nat
      ensures !KeepsOn(ns, p, t, slack)
    {
      if KeepsOn(ns, p, t, slack) { NobodyKeeps(ns[t], p); }
    }
  }

  /** A cycle without a request of a processing element or a clear that is due. */
  ghost predicate LiveCycle(n: Net, first: Net, size: nat) {
    && NobodyAsks(n) && TableSize(n, size) && n.r.Keys == first.r.Keys
    && forall p :: p in n.r ==> OpenAt(n, p)
  }

  lemma LiveFacts(n: Net, first: Net, size: nat, p: Pos)
    requires LiveCycle(n, first, size)
    ensures NobodyAsks(n) && (p in n.r <==> p in first.r) && (p in n.r ==> OpenAt(n, p) && |n.r[p].io.flag| == size)
  {
    hide NobodyAsks, OpenAt, Shape;
    assert p in n.r <==> p in n.r.Keys;
  }

  lemma IsLiveIf(ns: seq<Net>, first: Net, slack: nat, size: nat)
    requires 0 < slack && SinksWithin(ns, slack) && forall t :: 0 <= t < |ns| ==> LiveCycle(ns[t], first, size)
    ensures IsLive(ns, slack, size)
  {
    hide SinksWithin, SourcesLetGo, OpenAt, NobodyAsks, LiveCycle;
    forall t | 0 <= t < |ns|
      ensures NobodyAsks(ns[t])
    {
      LiveFacts(ns[t], first, size, Pos(0, 0));
    }
    NobodyKeepsOn(ns, slack);
    forall p, t: nat | t < |ns| && p in ns[t].r
      ensures Open(ns, p) && |ns[t].r[p].io.flag| == size
    {
      LiveFacts(ns[t], first, size, p);
      forall u | 0 <= u < |ns|
        ensures OpenAt(ns[u], p)
      {
        LiveFacts(ns[u], first, size, p);
      }
    }
  }

  lemma IsLiveCycle(ns: seq<Net>, f: Flood, v: BrLiteClear.Wave, nx: nat, ny: nat, c: nat, interval: nat, slack: nat, size: nat, t: nat)
    requires IsCleared(ns, f, v, nx, ny, c, interval) && SinksWithin(ns, slack) && Deadline(nx, ny, slack) <= interval + 3
    requires TableSize(ns[0], size) && Fired(interval) <= t < |ns|
    ensures LiveCycle(ns[t], ns[0], size)
  {
    ClearedIsBroadcast(ns, f, v, nx, ny, c, interval);
    hide IsCleared, IsBroadcast, SinksWithin, AllSpent, BrLiteClear.WaveInv, BrLiteClear.WaveNext, Calm, NobodyAsks, TableSize, OpenAt, Shaped;
    WaveAt(ns, f, v, nx, ny, c, interval, t);
    SizeAt(ns, f, nx, ny, c, interval, size, t);
    SpentFrom(ns, f, v, nx, ny, c, interval, slack, t);
    PlacesStay(ns, f, nx, ny, c, interval, t, f.src);
    forall p | p in ns[t].r
      ensures OpenAt(ns[t], p)
    {
      IsOpen(ns[t], f, v, nx, ny, p);
    }
  }

  lemma ClearedIsBroadcast(ns: seq<Net>, f: Flood, v: BrLiteClear.Wave, nx: nat, ny: nat, c: nat, interval: nat)
    requires IsCleared(ns, f, v, nx, ny, c, interval)
    ensures IsBroadcast(ns, f, nx, ny, c, interval) && Fired(interval) < |ns|
  {
  }

  /** From then on the mesh is live: the clear meets nothing that could delay it. */
  lemma WaveIsLive(ns: seq<Net>, f: Flood, v: BrLiteClear.Wave, nx: nat, ny: nat, c: nat, interval: nat, slack: nat, size: nat)
    requires IsCleared(ns, f, v, nx, ny, c, interval) && SinksWithin(ns, slack) && Deadline(nx, ny, slack) <= interval + 3
    requires 0 < slack && TableSize(ns[0], size)
    ensures IsLive(ns[Fired(interval)..], slack, size)
  {
    hide *;
    ClearedIsBroadcast(ns, f, v, nx, ny, c, interval);
    var k := Fired(interval);
    var wave := ns[k..];
    forall t | 0 <= t < |wave|
      ensures LiveCycle(wave[t], ns[0], size)
    {
      assert wave[t] == ns[k + t];
      IsLiveCycle(ns, f, v, nx, ny, c, interval, slack, size, k + t);
    }
    SinksOfSuffix(ns, k, slack);
    IsLiveIf(wave, ns[0], slack, size);
  }

  lemma WaveGoesOn(ns: seq<Net>, v: BrLiteClear.Wave, nx: nat, ny: nat, k: nat)
    requires BrLiteClear.IsWaveRun(ns, v, nx, ny) && k + 1 < |ns|
    ensures BrLiteClear.IsWaveRun(ns[k..], v, nx, ny)
  {
    hide *;
    var rest := ns[k..];
    forall t | 0 <= t < |rest| - 1
      ensures WaveLinks(rest[t], rest[t + 1], v.key)
    {
      assert rest[t] == ns[k + t] && rest[t + 1] == ns[k + t + 1];
      WaveCycle(ns, v, nx, ny, k + t);
      LinkIf(ns[k + t], ns[k + t + 1], v.key);
    }
    IsQuietRunIf(rest, v.key);
    WaveCycle(ns, v, nx, ny, k);
    WaveRunIf(rest, v, nx, ny);
  }

  lemma LinkIf(n: Net, n': Net, k: Key)
    requires Shaped(n) && Shaped(n') && BrLiteClear.WaveNext(n, n', k)
    ensures WaveLinks(n, n', k)
  {
  }

  lemma WaveRunIf(ns: seq<Net>, v: BrLiteClear.Wave, nx: nat, ny: nat)
    requires 0 < |ns| && BrLiteClear.IsQuietRun(ns, v.key) && BrLiteClear.WaveInv(ns[0], v, nx, ny)
    ensures BrLiteClear.IsWaveRun(ns, v, nx, ny)
  {
    hide BrLiteClear.IsQuietRun, BrLiteClear.WaveInv;
  }

  /** The cycle from which a broadcast has left no trace, in a mesh of `count` routers. */
  function EndOfLife(interval: nat, count: nat, size: nat, slack: nat): nat {
    Fired(interval) + Rounds(count, Hop(size, slack)) + 1
  }

  /** A broadcast that is alone in the mesh ends: by a stated cycle after its request no
      table holds a line for it, if the interval covers the deadline of its flood. Its clear
      is not assumed to fire, to be quiet or to arrive. */
  lemma LoneBroadcastEnds(ns: seq<Net>, f: Flood, nx: nat, ny: nat, c: nat, interval: nat, slack: nat, size: nat, t: nat, p: Pos)
    requires IsBroadcast(ns, f, nx, ny, c, interval) && SinksWithin(ns, slack) && Deadline(nx, ny, slack) <= interval + 3
    requires 0 < slack && TableSize(ns[0], size) && EndOfLife(interval, |ns[0].r|, size, slack) <= t < |ns|
    ensures Shaped(ns[t]) && (p in ns[t].r ==> !Has(ns[t].r[p], f.m.key))
  {
    hide IsBroadcast, SinksWithin, BrLiteClear.IsWaveRun, BrLiteClear.WaveInv, BrLiteClear.WaveNext, BrLiteClear.IsTree, AllSpent,
      TableSize, Calm, Hop, IsLive, FreshAt, Shaped, NobodyAsks, Has;
    var k := Fired(interval);
    var v := TheClearIsDue(ns, f, nx, ny, c, interval, slack);
    var wave := ns[k..];
    WaveAt(ns, f, v, nx, ny, c, interval, k);
    WaveAt(ns, f, v, nx, ny, c, interval, t);
    assert wave == ns[interval + 3..][2..] && wave[0] == ns[k] && wave[t - k] == ns[t];
    WaveGoesOn(ns[interval + 3..], v, nx, ny, 2);
    WaveIsLive(ns, f, v, nx, ny, c, interval, slack, size);
    ClearHasFired(ns, f, v, nx, ny, c, interval, slack);
    TreeFacts(ns[k], v, nx, ny);
    PlacesStay(ns, f, nx, ny, c, interval, k, p);
    Smaller(v.held, ns[0].r.Keys);
    assert |ns[0].r.Keys| == |ns[0].r|;
    RoundsGrow(|v.held|, |ns[0].r|, Hop(size, slack));
    ClearEndsInTime(wave, v, nx, ny, slack, size, t - k, p);
    HasNot(ns[t], v, p);
  }

  lemma HasNot(n: Net, v: BrLiteClear.Wave, p: Pos)
    requires Shaped(n) && !HasAt(n, v, p)
    ensures p in n.r ==> !Has(n.r[p], v.key)
  {
  }
}
