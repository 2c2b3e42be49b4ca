/** Three such routers in a row, A - B - C, as a 3 x 1 mesh: A is asked to broadcast, and
    the sinks at B and C take deliveries. */
module BrLiteRow {
  import opened Topology
  import opened BrLite
  import opened BrLiteMesh
  import opened BrLiteOneLine

  const A: Pos := Pos(0, 0)
  const B: Pos := Pos(1, 0)
  const C: Pos := Pos(2, 0)

  /** The routers, the request at A, and the acknowledge and the log of the sinks at B and C. */
  datatype Row = Row(a: Short, b: Short, c: Short, asks: bool, ackB: bool, gotB: seq<Msg>, ackC: bool, gotC: seq<Msg>)

  function NetOf(r: Row): Net {
    Net(map[A := Full(r.a), B := Full(r.b), C := Full(r.c)],
        map[A := Side(r.asks, Hello(false), false, []), B := Side(false, Hello(false), r.ackB, r.gotB),
            C := Side(false, Hello(false), r.ackC, r.gotC)])
  }

  /** A row has nothing behind its ends. */
  const END: Wire := Wire(false, false, true)

  /** Router `c` acknowledges port `q`. */
  predicate Acking(c: Short, q: Port) { c.ins == IN_WAIT_REQ_DOWN && c.port == q }

  /** What port `q` of the neighbour `c` shows. */
  function From(c: Short, q: Port): Wire { Wire(Of(c.req, q), Of(c.clears, q), Acking(c, q)) }

  function AtA(r: Row): Five<Wire> { Five(From(r.b, WEST), END, END, END, Wire(r.asks, false, false)) }

  function AtB(r: Row): Five<Wire> { Five(From(r.c, WEST), From(r.a, EAST), END, END, Wire(false, false, r.ackB)) }

  function AtC(r: Row): Five<Wire> { Five(END, From(r.b, EAST), END, END, Wire(false, false, r.ackC)) }

  /** The ports are selected among those that lead somewhere. */
  predicate Placed(r: Row) {
    && r.a.address == 0 && r.b.address == 256 && r.c.address == 512
    && Sane(r.a) && Sane(r.b) && Sane(r.c)
    && r.a.port in {EAST, LOCAL} && r.b.port in {EAST, WEST, LOCAL} && r.c.port in {WEST, LOCAL}
  }

  predicate SinkStep(req: bool, clear: bool, ack: bool, got: seq<Msg>, ack': bool, got': seq<Msg>) {
    && (!req ==> !ack') && (req && ack ==> ack')
    && got' == if ack' && !ack then got + [Hello(clear)] else got
  }

  predicate RowStep(r: Row, r': Row) {
    && r'.a == Next(r.a, AtA(r)) && r'.b == Next(r.b, AtB(r)) && r'.c == Next(r.c, AtC(r))
    && (r.asks && !Acking(r'.a, LOCAL) ==> r'.asks)
    && !r.a.req.l
    && SinkStep(r.b.req.l, r.b.clears.l, r.ackB, r.gotB, r'.ackB, r'.gotB)
    && SinkStep(r.c.req.l, r.c.clears.l, r.ackC, r.gotC, r'.ackC, r'.gotC)
  }

  /** The keys of the maps, without the maps. */
  ghost predicate OnlyThree(n: Net, r: Row) {
    && (forall p :: p in n.r <==> p in {A, B, C}) && n.r.Keys == n.pe.Keys
    && n.r[A] == Full(r.a) && n.r[B] == Full(r.b) && n.r[C] == Full(r.c)
    && n.pe[A] == Side(r.asks, Hello(false), false, []) && n.pe[B] == Side(false, Hello(false), r.ackB, r.gotB)
    && n.pe[C] == Side(false, Hello(false), r.ackC, r.gotC)
  }

  lemma IsThree(r: Row)
    ensures OnlyThree(NetOf(r), r)
  {
    hide Full, Hello;
    var n := NetOf(r);
    assert n.r.Keys == {A, B, C} == n.pe.Keys;
    forall p
      ensures p in n.r <==> p in {A, B, C}
    {
      assert p in n.r <==> p in n.r.Keys;
    }
  }

  lemma ThreeIsMesh(n: Net, r: Row)
    requires OnlyThree(n, r) && Placed(r)
    ensures Shaped(n) && IsMesh(n, 3, 1)
  {
    hide Full, Shape, Hello;
  }

  lemma Shows(c: Short, q: Port)
    ensures var r := Full(c);
      && r.outp.req[q] == From(c, q).req && r.outp.msg[q] == Hello(From(c, q).clear) && r.inp.ack[q] == From(c, q).ack
  {
    assert Of(Only(c.port, c.ins == IN_WAIT_REQ_DOWN), q) == Acking(c, q);
  }

  /** Port by port, what the wires of one router are. */
  lemma DescribedBy(w: Five<Wire>, v: Wires, c: Short)
    requires WiresOk(v)
    requires forall q: Port :: v.req[q] == Of(w, q).req && v.ack[q] == Of(w, q).ack
    requires v.msg[c.port] == Hello(Of(w, c.port).clear)
    ensures Describes(w, v, c)
  {
    hide Hello;
    forall q: Port
      ensures v.req[q] == Of(Reqs(w), q) && v.ack[q] == Of(Acks(w), q)
    {
    }
    SameFive(v.req, Reqs(w));
    SameFive(v.ack, Acks(w));
  }

  lemma WiresAtA(n: Net, r: Row)
    requires OnlyThree(n, r) && Placed(r) && Shaped(n)
    ensures Describes(AtA(r), WiresAt(n, A), r.a)
  {
    hide Full, Hello, WiresAt, Shaped, Describes, From;
    Shows(r.b, WEST);
    DescribedBy(AtA(r), WiresAt(n, A), r.a);
  }

  lemma WiresAtB(n: Net, r: Row)
    requires OnlyThree(n, r) && Placed(r) && Shaped(n)
    ensures Describes(AtB(r), WiresAt(n, B), r.b)
  {
    hide Full, Hello, WiresAt, Shaped, Describes, From;
    Shows(r.a, EAST); Shows(r.c, WEST);
    DescribedBy(AtB(r), WiresAt(n, B), r.b);
  }

  lemma WiresAtC(n: Net, r: Row)
    requires OnlyThree(n, r) && Placed(r) && Shaped(n)
    ensures Describes(AtC(r), WiresAt(n, C), r.c)
  {
    hide Full, Hello, WiresAt, Shaped, Describes, From;
    Shows(r.b, EAST);
    DescribedBy(AtC(r), WiresAt(n, C), r.c);
  }

  lemma RoutersStep(n: Net, n': Net, r: Row, r': Row)
    requires Placed(r) && RowStep(r, r') && OnlyThree(n, r) && OnlyThree(n', r') && Shaped(n)
    ensures n'.r[A] == Step(n.r[A], WiresAt(n, A)) && n'.r[B] == Step(n.r[B], WiresAt(n, B))
    ensures n'.r[C] == Step(n.r[C], WiresAt(n, C))
  {
    WiresAtA(n, r); WiresAtB(n, r); WiresAtC(n, r);
    hide Describes, WiresAt, Sane, Hello, Full, Step, Next, Shaped;
    StepIsNext(r.a, AtA(r), WiresAt(n, A));
    StepIsNext(r.b, AtB(r), WiresAt(n, B));
    StepIsNext(r.c, AtC(r), WiresAt(n, C));
  }

  lemma SinkSide(c: Short, ack: bool, got: seq<Msg>, ack': bool, got': seq<Msg>)
    requires SinkStep(c.req.l, c.clears.l, ack, got, ack', got')
    ensures forall acked ::
      SideStep(Side(false, Hello(false), ack, got), Full(c), acked, Side(false, Hello(false), ack', got'))
  {
    Shows(c, LOCAL);
    hide Full, Hello;
  }

  lemma SourceSide(r: Row, r': Row)
    requires Placed(r) && RowStep(r, r')
    ensures SideStep(Side(r.asks, Hello(false), false, []), Full(r.a), Full(r'.a).inp.ack[LOCAL], Side(r'.asks, Hello(false), false, []))
  {
    Shows(r.a, LOCAL); Shows(r'.a, LOCAL);
    hide Next, AtA, AtB, AtC, Ports, OutOf, Only, Padded;
  }

  ghost predicate SidesAt(n: Net, n': Net, p: Pos) {
    && p in n.r && p in n.pe && p in n'.r && p in n'.pe && Shape(n.r[p]) && Shape(n'.r[p])
    && SideStep(n.pe[p], n.r[p], n'.r[p].inp.ack[LOCAL], n'.pe[p])
  }

  lemma SidesOfThree(n: Net, n': Net)
    requires forall p :: p in n.r <==> p in {A, B, C}
    requires SidesAt(n, n', A) && SidesAt(n, n', B) && SidesAt(n, n', C)
    ensures forall p :: p in n.r ==> SideStep(n.pe[p], n.r[p], n'.r[p].inp.ack[LOCAL], n'.pe[p])
  {
    hide SideStep, Shape;
  }

  lemma SidesStep(n: Net, n': Net, r: Row, r': Row)
    requires Placed(r) && RowStep(r, r') && OnlyThree(n, r) && OnlyThree(n', r')
    ensures forall p :: p in n.r ==> SideStep(n.pe[p], n.r[p], n'.r[p].inp.ack[LOCAL], n'.pe[p])
  {
    SourceSide(r, r');
    SinkSide(r.b, r.ackB, r.gotB, r'.ackB, r'.gotB);
    SinkSide(r.c, r.ackC, r.gotC, r'.ackC, r'.gotC);
    hide Full, Next, Sane, SideStep, Hello, SinkStep, AtA, AtB, AtC, Placed, Acking, Shape;
    SidesOfThree(n, n');
  }

  lemma SameKeys(n: Net, n': Net, r: Row, r': Row)
    requires OnlyThree(n, r) && OnlyThree(n', r')
    ensures n'.r.Keys == n.r.Keys && n'.pe.Keys == n.pe.Keys && forall p :: p in n.r <==> p in {A, B, C}
  {
    hide Full, Hello;
  }

  lemma ThreeStep(n: Net, n': Net)
    requires Shaped(n) && (forall p :: p in n.r <==> p in {A, B, C}) && n'.r.Keys == n.r.Keys && n'.pe.Keys == n.pe.Keys
    requires n'.r[A] == Step(n.r[A], WiresAt(n, A)) && n'.r[B] == Step(n.r[B], WiresAt(n, B))
    requires n'.r[C] == Step(n.r[C], WiresAt(n, C))
    requires forall p :: p in n.r ==> SideStep(n.pe[p], n.r[p], n'.r[p].inp.ack[LOCAL], n'.pe[p])
    ensures NetNext(n, n')
  {
    hide Step, WiresAt, SideStep, Shape;
    forall p | p in n.r
      ensures n'.r[p] == Step(n.r[p], WiresAt(n, p))
    {
    }
  }

  /** The row steps as the mesh does. */
  lemma RowSteps(r: Row, r': Row)
    requires Placed(r) && RowStep(r, r')
    ensures Shaped(NetOf(r)) && NetNext(NetOf(r), NetOf(r'))
  {
    hide *;
    var n, n' := NetOf(r), NetOf(r');
    IsThree(r); IsThree(r');
    ThreeIsMesh(n, r);
    SameKeys(n, n', r, r');
    RoutersStep(n, n', r, r');
    SidesStep(n, n', r, r');
    ThreeStep(n, n');
  }
}
