/** Two broadcasts in a row of three routers, cycle by cycle, for every clear interval `j`; the
    platform's is 220. In one the sinks answer at once. In the other the middle sink answers
    after the interval only, and the clear overtakes the flood: no interval is long enough by
    itself. */
module BrLiteExample {
  import opened Topology
  import opened BrLite
  import opened BrLiteMesh
  import opened BrLiteFlood
  import opened BrLiteClear
  import opened BrLiteLine
  import opened BrLiteOneLine
  import opened BrLiteRow
  import BrLiteTiming
  import BrLiteInterval
  import RoundRobin

  /** A clear interval: longer than the flood, and shorter than the clock. */
  type Interval = j: nat | 24 <= j < WORD - 32 witness 220

  /** The clock in cycle `k`. */
  function Tick(k: nat): nat { k % WORD }

  function Bits(e: bool, w: bool, ns: bool, l: bool): Five<bool> { Five(e, w, ns, ns, l) }

  /** The source: asked in cycle 0, it sends from cycle 7 on, clears from cycle j + 4 on. */
  function AAt(j: Interval, k: nat): Short {
    var rising := k == 7 || k == j + 8;
    var waiting := 8 <= k < 12 || j + 9 <= k < j + 13;
    Short(0, j,
      if k == 1 then IN_ARBITRATION else if k == 2 then IN_TEST_SPACE else if k == 3 then IN_WRITE
      else if k == 4 then IN_WAIT_REQ_DOWN else IN_INIT,
      LOCAL, LOCAL,
      if k == 5 || k == j + 6 then OUT_ARBITRATION else if k == 6 || k == j + 7 then OUT_TEST_SVC
      else if rising || waiting then OUT_WAIT_ACK_PORTS else if k == j + 13 then OUT_CLEAR_TABLE else OUT_INIT,
      k >= 6, Bits(rising || waiting, rising, rising, false), Bits(k >= j + 8, k >= j + 8, k >= j + 8, false),
      Bits(false, waiting, waiting, rising || waiting),
      4 <= k < j + 14, 4 <= k < 7 || j + 5 <= k < j + 8, k >= j + 5,
      k == j + 4, 4 <= k < j + 5, 4 <= k < j + 4, if k < 4 then 0 else 4, Tick(k))
  }

  /** The router in the middle. Its sink answers in cycle 15, or `late` in cycle j + 14. */
  function BAt(j: Interval, late: bool, k: nat): Short {
    var taken := if late then j + 14 else 15;
    var first := 14 <= k <= (if late then j + 14 else 18);
    var second := !late && j + 15 <= k < j + 20;
    Short(256, j,
      if k == 8 || k == j + 9 then IN_ARBITRATION else if k == 9 || k == j + 10 then IN_TEST_SPACE
      else if k == 10 then IN_WRITE else if k == j + 11 then IN_CLEAR
      else if k == 11 || k == 12 || k == j + 12 || k == j + 13 then IN_WAIT_REQ_DOWN else IN_INIT,
      if k < 9 then LOCAL else WEST, if k < 11 then LOCAL else WEST,
      if k == 12 || (!late && k == j + 13) then OUT_ARBITRATION
      else if k == 13 || (!late && k == j + 14) then OUT_TEST_SVC
      else if first || second then OUT_WAIT_ACK_PORTS
      else if k == (if late then j + 15 else j + 20) then OUT_CLEAR_TABLE else OUT_INIT,
      k >= 13, Bits(14 <= k < 19 || second, false, k == 14 || (second && k == j + 15), 14 <= k <= taken),
      Bits(!late && k >= j + 15, false, !late && k >= j + 15, false),
      Bits(first && k >= 19, first || second, (first && k > 14) || (second && k > j + 15), (first && k > taken) || second),
      11 <= k < (if late then j + 16 else j + 21),
      11 <= k < 14 || (k >= j + 12 && (late || k < j + 15)), k >= j + 12,
      false, false, false, 0, Tick(k))
  }

  /** The router at the end. The clear reaches it unless it was swallowed before. */
  function CAt(j: Interval, late: bool, k: nat): Short {
    Short(512, j,
      if late && k >= j then IN_INIT
      else if k == 15 || k == j + 16 then IN_ARBITRATION else if k == 16 || k == j + 17 then IN_TEST_SPACE
      else if k == 17 then IN_WRITE else if k == j + 18 then IN_CLEAR
      else if k == 18 || k == 19 || k == j + 19 || k == j + 20 then IN_WAIT_REQ_DOWN else IN_INIT,
      if k < 16 then LOCAL else WEST, if k < 18 then LOCAL else WEST,
      if late && k >= j then OUT_INIT
      else if k == 19 || k == j + 20 then OUT_ARBITRATION else if k == 20 || k == j + 21 then OUT_TEST_SVC
      else if k == 21 || k == 22 || k == j + 22 then OUT_WAIT_ACK_PORTS
      else if k == j + 23 then OUT_CLEAR_TABLE else OUT_INIT,
      k >= 20, Bits(k == 21 || (!late && k == j + 22), false, k == 21 || (!late && k == j + 22), k == 21 || k == 22),
      Bits(!late && k >= j + 22, false, !late && k >= j + 22, false),
      Bits(k == 22, k == 21 || k == 22 || (!late && k == j + 22), k == 22, !late && k == j + 22),
      18 <= k && (late || k < j + 24), 18 <= k < 21 || (!late && j + 19 <= k < j + 22), !late && k >= j + 19,
      false, false, false, 0, Tick(k))
  }

  function AckB(j: Interval, late: bool, k: nat): bool {
    if late then k == j + 14 || k == j + 15 else k == 15 || k == 16
  }

  function RowAt(j: Interval, late: bool, k: nat): Row {
    Row(AAt(j, k), BAt(j, late, k), CAt(j, late, k), k < 4,
        AckB(j, late, k), if k < (if late then j + 14 else 15) then [] else [Hello(false)],
        k == 22 || k == 23, if k < 22 then [] else [Hello(false)])
  }

  lemma Asks(j: Interval, late: bool)
    ensures forall k: nat :: RowAt(j, late, k).asks <==> k < 4
  {
  }

  lemma OneAsks(q: Port, p: Port)
    ensures RoundRobin.Next(Ports(Only(q, true)), p) == q
  {
    var ask := Ports(Only(q, true));
    RoundRobin.NextIsNearest(ask, p);
    assert ask[q];
    assert Of(Only(q, true), RoundRobin.Next(ask, p));
  }

  // ---- What each router hears ----

  function AHears(j: Interval, k: nat): Five<Wire> {
    Five(Wire(false, false, k == 11 || k == 12 || k == j + 12 || k == j + 13), END, END, END, Wire(k < 4, false, false))
  }

  function BHears(j: Interval, late: bool, k: nat): Five<Wire> {
    Five(Wire(false, false, k == 18 || k == 19 || (!late && (k == j + 19 || k == j + 20))),
         Wire(7 <= k < 12 || j + 8 <= k < j + 13, k >= j + 8, false), END, END,
         Wire(false, false, AckB(j, late, k)))
  }

  function CHears(j: Interval, late: bool, k: nat): Five<Wire> {
    Five(END, Wire(14 <= k < 19 || (!late && j + 15 <= k < j + 20), !late && k >= j + 15, false), END, END,
         Wire(false, false, k == 22 || k == 23))
  }

  lemma Hears(j: Interval, late: bool, k: nat)
    ensures AtA(RowAt(j, late, k)) == AHears(j, k) && AtB(RowAt(j, late, k)) == BHears(j, late, k) && AtC(RowAt(j, late, k)) == CHears(j, late, k)
  {
  }

  /** Everything but the two states and what is sent. */
  predicate SameMarks(c: Short, d: Short) {
    && c.address == d.address && c.interval == d.interval && c.origin == d.origin && c.chosen == d.chosen
    && c.used == d.used && c.pending == d.pending && c.clear == d.clear
    && c.clearLocal == d.clearLocal && c.busy == d.busy && c.wrote == d.wrote && c.wroteTick == d.wroteTick && c.tick == d.tick
  }

  lemma ATurns(j: Interval, k: nat)
    ensures NextIn(AAt(j, k), AHears(j, k)) == AAt(j, k + 1).ins
    ensures AAt(j, k).ins == IN_ARBITRATION ==> RoundRobin.Next(Ports(Reqs(AHears(j, k))), AAt(j, k).port) == LOCAL
  {
    if k == 1 { assert Reqs(AHears(j, k)) == Only(LOCAL, true); OneAsks(LOCAL, AAt(j, k).port); }
    hide RoundRobin.Next, Ports, Only;
  }

  lemma ASends(j: Interval, k: nat)
    ensures var c := AAt(j, k + 1); NextOut(AAt(j, k), AHears(j, k)) == (c.outs, c.req, c.clears, c.acked)
  {
  }

  lemma AMarks(j: Interval, k: nat)
    ensures SameMarks(Next(AAt(j, k), AHears(j, k)), AAt(j, k + 1))
  {
    hide NextIn, NextOut, RoundRobin.Next, Ports, Reqs, Bits;
  }

  lemma AMoves(j: Interval, k: nat)
    ensures Next(AAt(j, k), AHears(j, k)) == AAt(j, k + 1)
  {
    ATurns(j, k); ASends(j, k); AMarks(j, k);
    hide NextIn, NextOut, RoundRobin.Next, Ports, Reqs, Bits, AHears;
  }

  lemma BSendsLate(j: Interval, k: nat)
    ensures var c := BAt(j, true, k + 1); NextOut(BAt(j, true, k), BHears(j, true, k)) == (c.outs, c.req, c.clears, c.acked)
  {
  }

  lemma BSendsFirst(j: Interval, k: nat)
    requires k < j
    ensures var c := BAt(j, false, k + 1); NextOut(BAt(j, false, k), BHears(j, false, k)) == (c.outs, c.req, c.clears, c.acked)
  {
  }

  lemma BTurns(j: Interval, late: bool, k: nat)
    ensures NextIn(BAt(j, late, k), BHears(j, late, k)) == BAt(j, late, k + 1).ins
    ensures BAt(j, late, k).ins == IN_ARBITRATION ==> RoundRobin.Next(Ports(Reqs(BHears(j, late, k))), BAt(j, late, k).port) == WEST
  {
    if k == 8 || k == j + 9 { assert Reqs(BHears(j, late, k)) == Only(WEST, true); OneAsks(WEST, BAt(j, late, k).port); }
    hide RoundRobin.Next, Ports, Only;
  }

  lemma BSends(j: Interval, late: bool, k: nat)
    ensures var c := BAt(j, late, k + 1); NextOut(BAt(j, late, k), BHears(j, late, k)) == (c.outs, c.req, c.clears, c.acked)
  {
    if late {
      BSendsLate(j, k);
    } else if k < j {
      BSendsFirst(j, k);
    }
  }

  lemma BMarks(j: Interval, late: bool, k: nat)
    ensures SameMarks(Next(BAt(j, late, k), BHears(j, late, k)), BAt(j, late, k + 1))
  {
    hide NextIn, NextOut, RoundRobin.Next, Ports, Reqs, Bits;
  }

  lemma BMoves(j: Interval, late: bool, k: nat)
    ensures Next(BAt(j, late, k), BHears(j, late, k)) == BAt(j, late, k + 1)
  {
    BTurns(j, late, k); BSends(j, late, k); BMarks(j, late, k);
    hide NextIn, NextOut, RoundRobin.Next, Ports, Reqs, Bits, BHears;
  }

  lemma CTurns(j: Interval, late: bool, k: nat)
    ensures NextIn(CAt(j, late, k), CHears(j, late, k)) == CAt(j, late, k + 1).ins
    ensures CAt(j, late, k).ins == IN_ARBITRATION ==> RoundRobin.Next(Ports(Reqs(CHears(j, late, k))), CAt(j, late, k).port) == WEST
  {
    if k == 15 || (!late && k == j + 16) { assert Reqs(CHears(j, late, k)) == Only(WEST, true); OneAsks(WEST, CAt(j, late, k).port); }
    hide RoundRobin.Next, Ports, Only;
  }

  lemma CSends(j: Interval, late: bool, k: nat)
    ensures var c := CAt(j, late, k + 1); NextOut(CAt(j, late, k), CHears(j, late, k)) == (c.outs, c.req, c.clears, c.acked)
  {
  }

  lemma CMarks(j: Interval, late: bool, k: nat)
    ensures SameMarks(Next(CAt(j, late, k), CHears(j, late, k)), CAt(j, late, k + 1))
  {
    hide NextIn, NextOut, RoundRobin.Next, Ports, Reqs, Bits;
  }

  lemma CMoves(j: Interval, late: bool, k: nat)
    ensures Next(CAt(j, late, k), CHears(j, late, k)) == CAt(j, late, k + 1)
  {
    CTurns(j, late, k); CSends(j, late, k); CMarks(j, late, k);
    hide NextIn, NextOut, RoundRobin.Next, Ports, Reqs, Bits, CHears;
  }

  // ---- The two runs ----

  const FIRST: Flood := Flood(A, Hello(false), map[A := 0, B := 0, C := 0])
  const KEY: Key := Hello(false).key

  /** Cycle `k` of the run. */
  function At(j: Interval, late: bool, k: nat): Net { NetOf(RowAt(j, late, k)) }

  lemma IsPlaced(j: Interval, late: bool, k: nat)
    ensures Placed(RowAt(j, late, k))
  {
  }

  /** The requests to the sinks, and what A sees of its own. */
  lemma LocalPorts(j: Interval, late: bool, k: nat)
    ensures !AAt(j, k).req.l && (Acking(AAt(j, k), LOCAL) <==> k == 4)
    ensures (BAt(j, late, k).req.l <==> 14 <= k <= if late then j + 14 else 15) && !BAt(j, late, k).clears.l
    ensures (CAt(j, late, k).req.l <==> k == 21 || k == 22) && !CAt(j, late, k).clears.l
  {
  }

  lemma SinksMove(j: Interval, late: bool, k: nat)
    ensures var r, r' := RowAt(j, late, k), RowAt(j, late, k + 1);
      && (r.asks && !Acking(r'.a, LOCAL) ==> r'.asks) && !r.a.req.l
      && SinkStep(r.b.req.l, r.b.clears.l, r.ackB, r.gotB, r'.ackB, r'.gotB)
      && SinkStep(r.c.req.l, r.c.clears.l, r.ackC, r.gotC, r'.ackC, r'.gotC)
  {
    LocalPorts(j, late, k); LocalPorts(j, late, k + 1);
    hide Hello, AAt, BAt, CAt, Acking;
  }

  lemma RowMoves(j: Interval, late: bool, k: nat)
    ensures RowStep(RowAt(j, late, k), RowAt(j, late, k + 1))
  {
    Hears(j, late, k);
    SinksMove(j, late, k);
    AMoves(j, k); BMoves(j, late, k); CMoves(j, late, k);
    hide Next, AtA, AtB, AtC, AHears, BHears, CHears, AAt, BAt, CAt, AckB, SinkStep, Acking, Hello;
  }

  lemma Moves(j: Interval, late: bool, k: nat)
    ensures Shaped(At(j, late, k)) && NetNext(At(j, late, k), At(j, late, k + 1))
    ensures OnlyThree(At(j, late, k), RowAt(j, late, k)) && IsMesh(At(j, late, k), 3, 1)
  {
    hide RowAt, NetOf, Placed, RowStep, OnlyThree, IsMesh, NetNext, Shaped;
    IsPlaced(j, late, k);
    RowMoves(j, late, k);
    RowSteps(RowAt(j, late, k), RowAt(j, late, k + 1));
    IsThree(RowAt(j, late, k));
    ThreeIsMesh(At(j, late, k), RowAt(j, late, k));
  }

  // ---- What the theorems ask about ----

  lemma LineOf(c: Short, i: nat)
    ensures BrLite.At(Full(c), KEY, i) <==> i == 0 && c.used
    ensures Full(c).io.flag[0] == Flag(c.used, c.pending, 1, if c.clear then CLEAR else ALL) && Full(c).io.wroteIdx == 0
    ensures ClearFires(Full(c)) <==> c.clearLocal && c.ins == IN_INIT && c.outs == OUT_INIT
  {
  }

  lemma Holds(c: Short)
    ensures Has(Full(c), KEY) <==> c.used
    ensures Fresh(Full(c), KEY) <==> c.used && !c.clear
  {
    hide Full, Hello;
    LineOf(c, 0);
    forall i: nat
      ensures BrLite.At(Full(c), KEY, i) <==> i == 0 && c.used
    {
      LineOf(c, i);
    }
  }

  predicate Rests(c: Short) { c.req == NONE && (c.used ==> !c.pending) }

  lemma Asleep(c: Short)
    requires Rests(c)
    ensures forall i: nat :: BrLite.At(Full(c), KEY, i) ==> !Full(c).io.flag[i].pending
    ensures forall q: Port :: !Full(c).outp.req[q]
  {
    forall i: nat | BrLite.At(Full(c), KEY, i)
      ensures !Full(c).io.flag[i].pending
    {
      LineOf(c, i);
    }
    forall q: Port
      ensures !Full(c).outp.req[q]
    {
      Shows(c, q); NoneOf(q);
    }
  }

  lemma IsQuiet(n: Net, r: Row)
    requires OnlyThree(n, r) && Shaped(n) && Rests(r.a) && Rests(r.b) && Rests(r.c)
    ensures Quiet(n, KEY)
  {
    Asleep(r.a); Asleep(r.b); Asleep(r.c);
    hide Full, Hello, Rests, Shape;
  }

  lemma IsNotQuiet(n: Net, r: Row)
    requires OnlyThree(n, r) && Shaped(n) && r.b.req.l
    ensures !Quiet(n, KEY)
  {
    Shows(r.b, LOCAL);
    assert B in n.r && n.r[B].outp.req[LOCAL] && n.r[B].outp.msg[LOCAL].key == KEY;
    hide Full;
  }

  lemma Requests(n: Net, r: Row)
    requires OnlyThree(n, r) && Shaped(n)
    ensures RequestsOk(n, FIRST) && (!r.asks ==> KeyRests(n, KEY))
  {
    hide Full, Shape;
  }

  // ---- The runs ----

  lemma FreshIsReset(c: Short)
    requires c.ins == IN_INIT && c.port == LOCAL && c.outs == OUT_INIT && c.req == c.acked == NONE
    requires !c.chosen && !c.used && !c.pending && !c.clearLocal && !c.busy && !c.wrote && c.wroteTick == 0 && c.tick == 0
    ensures IsReset(Full(c))
  {
    forall q: Port
      ensures !Full(c).inp.ack[q] && !Full(c).outp.req[q] && !Full(c).outp.ackPorts[q]
    {
      NoneOf(q);
    }
  }

  lemma StartsReset(j: Interval, late: bool)
    ensures IsReset(Full(RowAt(j, late, 0).a)) && IsReset(Full(RowAt(j, late, 0).b)) && IsReset(Full(RowAt(j, late, 0).c))
  {
    hide Full, IsReset;
    FreshIsReset(AAt(j, 0)); FreshIsReset(BAt(j, late, 0)); FreshIsReset(CAt(j, late, 0));
  }

  lemma ThreeReset(n: Net, r: Row)
    requires OnlyThree(n, r) && IsMesh(n, 3, 1) && !r.ackB && !r.ackC
    requires IsReset(Full(r.a)) && IsReset(Full(r.b)) && IsReset(Full(r.c))
    ensures IsNetReset(n, 3, 1)
  {
    hide Full, IsReset, IsMesh;
  }

  lemma BaseIsThree(p: Pos)
    ensures p in FIRST.base <==> p in {A, B, C}
    ensures p in FIRST.base ==> FIRST.base[p] == 0
  {
  }

  lemma NoneUsed(n: Net, r: Row)
    requires OnlyThree(n, r) && Shaped(n) && !r.a.used && !r.b.used && !r.c.used
    ensures Unused(n, KEY)
  {
    Holds(r.a); Holds(r.b); Holds(r.c);
    hide Full, Has, Shape;
  }

  lemma ThreeBegins(n: Net, r: Row)
    requires OnlyThree(n, r) && NetInv(n, 3, 1)
    ensures FloodOk(n, FIRST, 3, 1)
  {
    hide Full, NetInv;
    forall p
      ensures p in FIRST.base <==> p in n.r
    {
      BaseIsThree(p);
    }
    assert FIRST.base.Keys == n.r.Keys;
  }

  /** The run starts in reset, with the request up. */
  lemma Starts(j: Interval, late: bool)
    ensures IsNetReset(At(j, late, 0), 3, 1) && FloodOk(At(j, late, 0), FIRST, 3, 1)
    ensures Shaped(At(j, late, 0)) && Unused(At(j, late, 0), KEY) && RequestsOk(At(j, late, 0), FIRST)
  {
    hide NetOf, OnlyThree, IsMesh, NetNext, IsNetReset, IsReset, NetInv, Unused, RequestsOk, FloodOk;
    var n, r := At(j, late, 0), RowAt(j, late, 0);
    Moves(j, late, 0);
    StartsReset(j, late);
    ThreeReset(n, r);
    NetResetEstablishes(n, 3, 1);
    ThreeBegins(n, r);
    NoneUsed(n, r);
    Requests(n, r);
  }

  lemma NoFire(n: Net, r: Row)
    requires OnlyThree(n, r) && Shaped(n) && !r.a.clearLocal && !r.b.clearLocal && !r.c.clearLocal
    ensures forall p :: p in n.r ==> !ClearFires(n.r[p])
  {
    LineOf(r.a, 0); LineOf(r.b, 0); LineOf(r.c, 0);
    hide Full, ClearFires, Shape;
  }

  /** While the clear has not fired, the cycles are cycles of a flood. */
  lemma FloodMoves(j: Interval, late: bool, k: nat)
    requires k < j + 4
    ensures Shaped(At(j, late, k)) && FloodNext(At(j, late, k), At(j, late, k + 1), FIRST)
  {
    Moves(j, late, k); Moves(j, late, k + 1);
    assert !AAt(j, k).clearLocal && !BAt(j, late, k).clearLocal && !CAt(j, late, k).clearLocal;
    hide AAt, BAt, CAt, AckB, NetOf, NetNext, IsMesh, OnlyThree, RequestsOk, ClearFires, Shape, BrLite.At;
    Requests(At(j, late, k + 1), RowAt(j, late, k + 1));
    NoFire(At(j, late, k), RowAt(j, late, k));
  }

  lemma WaveIf(n: Net, n': Net)
    requires Shaped(n) && Shaped(n') && NetNext(n, n') && KeyRests(n', KEY)
    ensures WaveNext(n, n', KEY)
  {
    hide Shaped, NetNext, KeyRests;
  }

  lemma WaveMoves(j: Interval, late: bool, k: nat)
    requires j + 4 <= k
    ensures Shaped(At(j, late, k)) && WaveNext(At(j, late, k), At(j, late, k + 1), KEY)
  {
    hide *;
    Asks(j, late);
    Moves(j, late, k); Moves(j, late, k + 1);
    Requests(At(j, late, k + 1), RowAt(j, late, k + 1));
    WaveIf(At(j, late, k), At(j, late, k + 1));
  }

  /** `n` cycles from cycle `from` on. */
  function Nets(j: Interval, late: bool, from: nat, n: nat): (ns: seq<Net>)
    ensures |ns| == n && forall k :: 0 <= k < n ==> ns[k] == At(j, late, from + k)
  {
    seq<Net>(n, k requires 0 <= k < n => At(j, late, from + k))
  }

  /** How an observed flood begins. */
  ghost predicate Begins(n: Net, f: Flood) {
    && Shaped(n) && FloodOk(n, f, 3, 1) && Unused(n, f.m.key) && RequestsOk(n, f)
    && forall p :: p in n.r ==> f.base[p] == CountKey(n.pe[p].got, f.m.key)
  }

  lemma ItBegins(n: Net, r: Row, f: Flood)
    requires OnlyThree(n, r) && r.gotB == [] && r.gotC == []
    requires Shaped(n) && FloodOk(n, f, 3, 1) && Unused(n, f.m.key) && RequestsOk(n, f)
    requires forall p :: p in f.base ==> f.base[p] == 0
    ensures Begins(n, f)
  {
    hide Full, Hello, Shape, NetInv, Unused, RequestsOk;
    assert CountKey([], f.m.key) == 0;
  }

  lemma FirstIsZero()
    ensures forall p :: p in FIRST.base ==> FIRST.base[p] == 0
    ensures FIRST.m.key == KEY
  {
  }

  ghost predicate Follows(n: Net, n': Net, f: Flood) { Shaped(n) && Shaped(n') && FloodNext(n, n', f) }

  lemma IsRunIf(ns: seq<Net>, f: Flood)
    requires 1 < |ns| && Begins(ns[0], f)
    requires forall t :: 0 <= t < |ns| - 1 ==> Follows(ns[t], ns[t + 1], f)
    ensures IsFloodRun(ns, f, 3, 1)
  {
    hide FloodNext, Shaped, FloodOk, Unused, RequestsOk;
    forall t | 0 <= t < |ns|
      ensures Shaped(ns[t])
    {
      if t == 0 { assert Follows(ns[0], ns[1], f); } else { assert Follows(ns[t - 1], ns[t], f); }
    }
  }

  lemma WaveMovesAll(j: Interval, late: bool, n: nat)
    ensures forall t :: j + 4 <= t < n ==> Shaped(At(j, late, t)) && WaveNext(At(j, late, t), At(j, late, t + 1), KEY)
  {
    hide At, WaveNext, Shaped;
    forall t | j + 4 <= t < n
      ensures Shaped(At(j, late, t)) && WaveNext(At(j, late, t), At(j, late, t + 1), KEY)
    {
      WaveMoves(j, late, t);
    }
  }

  lemma NothingStored(j: Interval, late: bool)
    ensures RowAt(j, late, 0).gotB == [] && RowAt(j, late, 0).gotC == []
  {
    hide AAt, BAt, CAt, AckB;
  }

  lemma BeginsIf(n: Net, r: Row)
    requires OnlyThree(n, r) && r.gotB == [] && r.gotC == []
    requires Shaped(n) && FloodOk(n, FIRST, 3, 1) && Unused(n, KEY) && RequestsOk(n, FIRST)
    ensures Begins(n, FIRST)
  {
    hide Full, Hello, Shape, Shaped, NetInv, Unused, RequestsOk, OnlyThree, Begins, FloodOk;
    FirstIsZero();
    ItBegins(n, r, FIRST);
  }

  lemma BeginsAt(j: Interval, late: bool)
    ensures Begins(At(j, late, 0), FIRST)
  {
    Moves(j, late, 0);
    hide *;
    NothingStored(j, late); Starts(j, late);
    BeginsIf(At(j, late, 0), RowAt(j, late, 0));
  }

  /** Up to the cycle in which the clear fires, the run is an observed flood. */
  lemma FloodHappens(j: Interval, late: bool)
    ensures IsFloodRun(Nets(j, late, 0, j + 5), FIRST, 3, 1)
  {
    hide At, FloodNext, Shaped, Begins, IsFloodRun, NetNext, OnlyThree, IsMesh;
    var ns := Nets(j, late, 0, j + 5);
    BeginsAt(j, late);
    forall t | 0 <= t < |ns| - 1
      ensures Follows(ns[t], ns[t + 1], FIRST)
    {
      assert ns[t] == At(j, late, t) && ns[t + 1] == At(j, late, t + 1);
      FloodMoves(j, late, t); Moves(j, late, t + 1);
    }
    IsRunIf(ns, FIRST);
  }

  /** From that cycle on, it is a run in which nobody asks. */
  lemma WaveHappens(j: Interval, late: bool, n: nat)
    requires 0 < n
    ensures IsQuietRun(Nets(j, late, j + 4, n), KEY)
  {
    var ns := Nets(j, late, j + 4, n);
    WaveMovesAll(j, late, j + 4 + n);
    hide At, WaveNext, Shaped, Nets;
    forall t | 0 <= t < |ns| - 1
      ensures WaveNext(ns[t], ns[t + 1], KEY)
    {
      assert ns[t] == At(j, late, j + 4 + t) && ns[t + 1] == At(j, late, j + 4 + t + 1);
    }
  }

  ghost predicate HoldsAt(n: Net, p: Pos) { p in n.r && Shape(n.r[p]) && Has(n.r[p], KEY) }

  ghost predicate FreeAt(n: Net, p: Pos) { p in n.r && Shape(n.r[p]) && !Has(n.r[p], KEY) && !Fresh(n.r[p], KEY) }

  ghost predicate AtRest(n: Net) { Shaped(n) && Quiet(n, KEY) }

  lemma HeldBy(n: Net, r: Row)
    requires OnlyThree(n, r)
    ensures if r.a.used then HoldsAt(n, A) else FreeAt(n, A)
    ensures if r.b.used then HoldsAt(n, B) else FreeAt(n, B)
    ensures if r.c.used then HoldsAt(n, C) else FreeAt(n, C)
  {
    hide Full, Has, Fresh;
    Holds(r.a); Holds(r.b); Holds(r.c);
  }

  lemma RestsIf(n: Net, r: Row)
    requires OnlyThree(n, r) && Shaped(n)
    ensures Rests(r.a) && Rests(r.b) && Rests(r.c) ==> AtRest(n)
    ensures r.b.req.l ==> !AtRest(n)
    ensures !r.asks ==> KeyRests(n, KEY)
  {
    hide OnlyThree, Shaped, Quiet, Rests, KeyRests, RequestsOk;
    if Rests(r.a) && Rests(r.b) && Rests(r.c) { IsQuiet(n, r); }
    if r.b.req.l { IsNotQuiet(n, r); }
    Requests(n, r);
  }

  /** What the three routers hold in cycle `k`, read off their states. */
  lemma Held(j: Interval, late: bool, k: nat)
    ensures var n := At(j, late, k);
      && Shaped(n)
      && (if AAt(j, k).used then HoldsAt(n, A) else FreeAt(n, A))
      && (if BAt(j, late, k).used then HoldsAt(n, B) else FreeAt(n, B))
      && (if CAt(j, late, k).used then HoldsAt(n, C) else FreeAt(n, C))
      && (Rests(AAt(j, k)) && Rests(BAt(j, late, k)) && Rests(CAt(j, late, k)) ==> AtRest(n))
      && (BAt(j, late, k).req.l ==> !AtRest(n)) && (k >= j + 4 ==> KeyRests(n, KEY))
  {
    hide AAt, BAt, CAt, AckB, NetNext, At, IsMesh, KeyRests, Rests, OnlyThree, Shaped, HoldsAt, FreeAt, AtRest;
    Moves(j, late, k);
    HeldBy(At(j, late, k), RowAt(j, late, k));
    RestsIf(At(j, late, k), RowAt(j, late, k));
  }

  lemma StatesAt(j: Interval, k: nat)
    ensures k == j + 4 || k == j + 23 ==> Rests(AAt(j, k)) && Rests(BAt(j, false, k)) && Rests(CAt(j, false, k))
    ensures k == j + 4 ==> AAt(j, k).used && BAt(j, true, k).req.l && BAt(j, false, k).used && CAt(j, false, k).used
    ensures k >= j + 16 ==> Rests(AAt(j, k)) && Rests(BAt(j, true, k)) && Rests(CAt(j, true, k))
    ensures k >= j + 16 ==> !AAt(j, k).used && !BAt(j, true, k).used && CAt(j, true, k).used
    ensures k == j + 24 ==> !BAt(j, false, k).used && !CAt(j, false, k).used
  {
  }

  /** With sinks that answer at once every assumption of `BroadcastLeavesNoTrace` is met:
      the flood is quiet when the clear fires, and the mesh is quiet again 19 cycles later. */
  lemma BroadcastHappens(j: Interval)
    ensures var flood, wave := Nets(j, false, 0, j + 5), Nets(j, false, j + 4, 21);
      && IsFloodRun(flood, FIRST, 3, 1) && AtRest(flood[j + 4])
      && IsQuietRun(wave, KEY) && wave[0] == flood[j + 4] && Shaped(wave[0]) && KeyRests(wave[0], KEY)
      && HoldsAt(wave[0], A) && HoldsAt(wave[0], B) && HoldsAt(wave[0], C)
      && AtRest(wave[19]) && FreeAt(wave[19], A)
      && FreeAt(wave[20], A) && FreeAt(wave[20], B) && FreeAt(wave[20], C)
  {
    hide AAt, BAt, CAt, At, Rests, HoldsAt, FreeAt, AtRest, KeyRests, IsFloodRun, IsQuietRun, Shaped;
    FloodHappens(j, false);
    WaveHappens(j, false, 21);
    Held(j, false, j + 4); Held(j, false, j + 23); Held(j, false, j + 24);
    StatesAt(j, j + 4); StatesAt(j, j + 23); StatesAt(j, j + 24);
  }

  /** With a sink at B that answers after the clear interval only, all those assumptions are
      met but one: the flood is not quiet when the clear fires. B is freed without having
      sent the clear on. The mesh is quiet, A and B are free, and C holds the line for good. */
  lemma EarlyClearLeavesALine(j: Interval, n: nat)
    requires 12 < n
    ensures var flood, wave := Nets(j, true, 0, j + 5), Nets(j, true, j + 4, n);
      && IsNetReset(flood[0], 3, 1)
      && IsFloodRun(flood, FIRST, 3, 1) && !AtRest(flood[j + 4])
      && IsQuietRun(wave, KEY) && wave[0] == flood[j + 4] && Shaped(wave[0]) && KeyRests(wave[0], KEY)
      && HoldsAt(wave[0], A)
      && forall t :: 12 <= t < n ==> AtRest(wave[t]) && FreeAt(wave[t], A) && FreeAt(wave[t], B) && HoldsAt(wave[t], C)
  {
    hide AAt, BAt, CAt, At, Rests, HoldsAt, FreeAt, AtRest, KeyRests, IsFloodRun, IsQuietRun, Shaped,
      IsNetReset, FloodOk, Unused, RequestsOk;
    Starts(j, true);
    FloodHappens(j, true);
    WaveHappens(j, true, n);
    Held(j, true, j + 4);
    StatesAt(j, j + 4);
    var wave := Nets(j, true, j + 4, n);
    forall t | 12 <= t < n
      ensures AtRest(wave[t]) && FreeAt(wave[t], A) && FreeAt(wave[t], B) && HoldsAt(wave[t], C)
    {
      Held(j, true, j + 4 + t);
      StatesAt(j, j + 4 + t);
    }
  }

  // ---- The same run, with the interval as the only premise about the clear ----

  lemma OnlyAAsks(n: Net, n': Net, r: Row, r': Row)
    requires OnlyThree(n, r) && OnlyThree(n', r') && Shaped(n')
    requires r'.asks ==> r.asks && !Acking(r'.a, LOCAL)
    ensures forall p :: p in n.r ==> p in n'.r && p in n'.pe && p in n.pe
    ensures forall p :: p in n.r ==> (n'.pe[p].req ==> n.pe[p].req && !n'.r[p].inp.ack[LOCAL])
  {
    Shows(r'.a, LOCAL);
    hide Full, Hello, Acking, Shape;
  }

  lemma ThreeKeys(n: Net, r: Row)
    requires OnlyThree(n, r)
    ensures n.r.Keys == n.pe.Keys
  {
  }

  lemma CalmIf(n: Net, n': Net)
    requires Shaped(n) && Shaped(n') && NetNext(n, n') && RequestsOk(n', FIRST) && n'.r.Keys == n.r.Keys == n'.pe.Keys
    requires forall p :: p in n.r ==> p in n'.r && p in n'.pe && p in n.pe
    requires forall p :: p in n.r ==> (n'.pe[p].req ==> n.pe[p].req && !n'.r[p].inp.ack[LOCAL])
    ensures BrLiteInterval.Calm(n, n', FIRST)
  {
    hide NetNext, RequestsOk, Shape;
  }

  lemma IsCalm(j: Interval, late: bool, k: nat)
    ensures BrLiteInterval.Calm(At(j, late, k), At(j, late, k + 1), FIRST)
  {
    hide AAt, BAt, CAt, AckB, NetOf, NetNext, RequestsOk, OnlyThree, IsMesh, Shaped, Acking, BrLiteInterval.Calm;
    Moves(j, late, k); Moves(j, late, k + 1);
    Requests(At(j, late, k + 1), RowAt(j, late, k + 1));
    LocalPorts(j, late, k + 1);
    assert RowAt(j, late, k + 1).asks ==> RowAt(j, late, k).asks && !Acking(RowAt(j, late, k + 1).a, LOCAL);
    hide RowAt, At;
    SameKeys(At(j, late, k), At(j, late, k + 1), RowAt(j, late, k), RowAt(j, late, k + 1));
    OnlyAAsks(At(j, late, k), At(j, late, k + 1), RowAt(j, late, k), RowAt(j, late, k + 1));
    assert At(j, late, k + 1).pe.Keys == At(j, late, k + 1).r.Keys by { hide *; ThreeKeys(At(j, late, k + 1), RowAt(j, late, k + 1)); }
    CalmIf(At(j, late, k), At(j, late, k + 1));
  }

  lemma NothingHappened(c: Short)
    requires c.ins == IN_INIT && c.outs == OUT_INIT && !c.used && !c.clearLocal && !c.wrote && c.tick == 0
    ensures Full(c).inp.state == IN_INIT && Full(c).outp.state == OUT_INIT && !Full(c).io.clearLocal
    ensures forall i :: 0 <= i < |Full(c).io.flag| ==> !Full(c).io.flag[i].used
    ensures BrLiteInterval.TimerAt(Full(c), 0, 0) && Full(c).clearInterval == c.interval
  {
  }

  lemma ThreeStart(j: Interval, n: Net, r: Row)
    requires OnlyThree(n, r) && Shaped(n) && r.asks
    requires forall c :: c in {r.a, r.b, r.c} ==>
      c.interval == j && c.ins == IN_INIT && c.outs == OUT_INIT && !c.used && !c.clearLocal && !c.wrote && c.tick == 0
    ensures BrLiteTiming.LoneStart(n, FIRST) && BrLiteInterval.ClocksAt(n, 0, j, 0)
  {
    NothingHappened(r.a); NothingHappened(r.b); NothingHappened(r.c);
    hide Full, Shape, BrLiteInterval.TimerAt;
  }

  lemma IsStart(j: Interval, late: bool)
    ensures BrLiteTiming.LoneStart(At(j, late, 0), FIRST) && BrLiteInterval.ClocksAt(At(j, late, 0), 0, j, 0)
  {
    var r := RowAt(j, late, 0);
    assert forall c :: c in {r.a, r.b, r.c} ==>
      c.interval == j && c.ins == IN_INIT && c.outs == OUT_INIT && !c.used && !c.clearLocal && !c.wrote && c.tick == 0;
    hide NetOf, RowAt, OnlyThree, IsMesh, NetNext, Shaped, BrLiteTiming.LoneStart, BrLiteInterval.ClocksAt;
    Moves(j, late, 0);
    assert r.asks by { Asks(j, late); }
    ThreeStart(j, At(j, late, 0), r);
  }

  lemma IsBroadcastIf(j: Interval, ns: seq<Net>, f: Flood)
    requires 0 < |ns| && |ns| + j < WORD && f.m.svc == ALL && Begins(ns[0], f)
    requires BrLiteTiming.LoneStart(ns[0], f) && BrLiteInterval.ClocksAt(ns[0], 0, j, 0)
    requires forall t :: 0 <= t < |ns| - 1 ==> BrLiteInterval.Calm(ns[t], ns[t + 1], f)
    ensures BrLiteInterval.IsBroadcast(ns, f, 3, 1, 0, j)
  {
    hide BrLiteTiming.LoneStart, BrLiteInterval.ClocksAt, BrLiteInterval.Calm, FloodOk, Shaped, RequestsOk, Unused;
  }

  /** Both runs are broadcasts as `BrLiteInterval` speaks of. */
  lemma BroadcastRuns(j: Interval, late: bool, n: nat)
    requires 0 < n && n + j + 2 < WORD
    ensures BrLiteInterval.IsBroadcast(Nets(j, late, 0, n), FIRST, 3, 1, 0, j)
  {
    hide At, Begins, BrLiteTiming.LoneStart, BrLiteInterval.ClocksAt, BrLiteInterval.Calm, BrLiteInterval.IsBroadcast, Shaped;
    var ns := Nets(j, late, 0, n);
    BeginsAt(j, late);
    IsStart(j, late);
    forall t | 0 <= t < |ns| - 1
      ensures BrLiteInterval.Calm(ns[t], ns[t + 1], FIRST)
    {
      assert ns[t] == At(j, late, t) && ns[t + 1] == At(j, late, t + 1);
      IsCalm(j, late, t);
    }
    IsBroadcastIf(j, ns, FIRST);
  }

  lemma SinkOf(n: Net, r: Row, p: Pos)
    requires OnlyThree(n, r) && Shaped(n)
    ensures BrLiteTiming.Requests(n, p, LOCAL) ==> (p == A && r.a.req.l) || (p == B && r.b.req.l) || (p == C && r.c.req.l)
    ensures (p == B && r.ackB) || (p == C && r.ackC) ==> BrLiteTiming.SinkAcks(n, p)
  {
    Shows(r.a, LOCAL); Shows(r.b, LOCAL); Shows(r.c, LOCAL);
    hide Full, Hello, Shape;
  }

  lemma SinkAt(j: Interval, late: bool, k: nat, p: Pos)
    ensures BrLiteTiming.Requests(At(j, late, k), p, LOCAL) ==>
      (p == B && BAt(j, late, k).req.l) || (p == C && CAt(j, late, k).req.l)
    ensures (p == B && AckB(j, late, k)) || (p == C && (k == 22 || k == 23)) ==> BrLiteTiming.SinkAcks(At(j, late, k), p)
  {
    hide AAt, BAt, CAt, AckB, At, NetNext, IsMesh, OnlyThree, Shaped, BrLiteTiming.Requests, BrLiteTiming.SinkAcks;
    Moves(j, late, k);
    LocalPorts(j, late, k);
    SinkOf(At(j, late, k), RowAt(j, late, k), p);
  }

  lemma AtTheEnd(ns: seq<Net>, t: nat, p: Pos)
    requires t + 1 >= |ns|
    ensures !BrLiteTiming.Neglects(ns, t, 1, p)
  {
  }

  lemma AnswersAt(j: Interval, n: nat, t: nat, p: Pos)
    requires t + 1 < n
    ensures !BrLiteTiming.Neglects(Nets(j, false, 0, n), t, 1, p)
  {
    SinkAt(j, false, t, p); SinkAt(j, false, t + 1, p);
    LocalPorts(j, false, t); LocalPorts(j, false, t + 1);
    hide At, AAt, BAt, CAt, BrLiteTiming.Requests, BrLiteTiming.SinkAcks;
    var ns := Nets(j, false, 0, n);
    assert ns[t] == At(j, false, t) && ns[t + 1] == At(j, false, t + 1);
    hide Nets;
  }

  /** In the first run every sink answers within a cycle, and from an interval of 44 cycles
      on the deadline is past when the interval ends. */
  lemma SinksAnswer(j: Interval, n: nat)
    ensures BrLiteTiming.SinksWithin(Nets(j, false, 0, n), 1) 
    ensures BrLiteTiming.Deadline(3, 1, 1) <= j + 3 <==> j >= 44
  {
    hide BrLiteTiming.Neglects, Nets, At;
    forall t: nat, p: Pos
      ensures !BrLiteTiming.Neglects(Nets(j, false, 0, n), t, 1, p)
    {
      if t + 1 < n { AnswersAt(j, n, t, p); } else { AtTheEnd(Nets(j, false, 0, n), t, p); }
    }
  }
}
