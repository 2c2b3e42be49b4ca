/** A router that uses one line of its table, in a mesh in which one key is used: its
    registers in short form. The short form steps as the router does, and can be followed
    by calculation. */
module BrLiteOneLine {
  import opened Topology
  import opened BrLite
  import RoundRobin

  /** The lines of a table. */
  const CAM_SIZE: nat := 16

  /** The one flood: its message and its clear. */
  function Hello(clear: bool): Msg { Msg(Key(0, 1), if clear then CLEAR else ALL, 0, 0, 0, 0) }

  /** A value for each port. */
  datatype Five<T> = Five(e: T, w: T, n: T, s: T, l: T)

  function Of<T>(f: Five<T>, q: Port): T {
    match q case 0 => f.e case 1 => f.w case 2 => f.n case 3 => f.s case _ => f.l
  }

  function Ports<T>(f: Five<T>): (r: seq<T>)
    ensures |r| == NPORT && forall q: Port :: r[q] == Of(f, q)
  {
    [f.e, f.w, f.n, f.s, f.l]
  }

  function Only(q: Port, on: bool): Five<bool> {
    Five(on && q == EAST, on && q == WEST, on && q == NORTH, on && q == SOUTH, on && q == LOCAL)
  }

  /** What a port carries: a request, whether for the clear, and an acknowledge. */
  datatype Wire = Wire(req: bool, clear: bool, ack: bool)

  /** `chosen` tells whether the line has been selected since reset. */
  datatype Short = Short(address: nat, interval: nat, ins: InState, port: Port, origin: Port,
                         outs: OutState, chosen: bool, req: Five<bool>, clears: Five<bool>, acked: Five<bool>,
                         used: bool, pending: bool, clear: bool,
                         clearLocal: bool, busy: bool, wrote: bool, wroteTick: nat, tick: nat)

  /** The output registers of `Full` by themselves. */
  function OutOf(outs: OutState, chosen: bool, req: Five<bool>, clears: Five<bool>, acked: Five<bool>): OutRegs {
    OutRegs(outs, if chosen then 0 else CAM_SIZE - 1, Ports(req), Ports(Msgs(clears)), Ports(acked))
  }

  /** `x` in line 0, and what no line in use holds in the others. */
  function Padded<T>(x: T, pad: T): (r: seq<T>)
    ensures |r| == CAM_SIZE && r[0] == x && forall i :: 0 < i < CAM_SIZE ==> r[i] == pad
  {
    seq<T>(CAM_SIZE, i => if i == 0 then x else pad)
  }

  lemma PaddedIs<T>(s: seq<T>, x: T, pad: T)
    requires |s| == CAM_SIZE && s[0] == x && forall i :: 0 < i < CAM_SIZE ==> s[i] == pad
    ensures s == Padded(x, pad)
  {
  }

  const UNUSED: Flag := Flag(false, false, 0, 0)
  const BLANK: Entry := Entry(0, 0, 0, 0, 0, LOCAL)

  function Full(c: Short): (r: Router)
    ensures Shape(r) && r.address == c.address
  {
    Router(c.address, c.interval,
      InRegs(c.ins, c.port, 0, 0, Ports(Only(c.port, c.ins == IN_WAIT_REQ_DOWN)),
        Padded(Entry(0, 0, 0, 0, 0, c.origin), BLANK)),
      OutOf(c.outs, c.chosen, c.req, c.clears, c.acked),
      IoRegs(Padded(Flag(c.used, c.pending, 1, if c.clear then CLEAR else ALL), UNUSED),
        c.clearLocal, c.busy, c.wrote, 0, c.wroteTick, c.tick))
  }

  function Msgs(clears: Five<bool>): Five<Msg> {
    Five(Hello(clears.e), Hello(clears.w), Hello(clears.n), Hello(clears.s), Hello(clears.l))
  }

  function Reqs(w: Five<Wire>): Five<bool> { Five(w.e.req, w.w.req, w.n.req, w.s.req, w.l.req) }

  function Acks(w: Five<Wire>): Five<bool> { Five(w.e.ack, w.w.ack, w.n.ack, w.s.ack, w.l.ack) }

  /** The wires `v` are those that `w` describes, as far as a router at `c` looks at them. */
  predicate Describes(w: Five<Wire>, v: Wires, c: Short) {
    && WiresOk(v)
    && v.req == Ports(Reqs(w)) && v.ack == Ports(Acks(w))
    && (c.ins in {IN_TEST_SPACE, IN_WRITE} ==> v.msg[c.port] == Hello(Of(w, c.port).clear))
  }

  function NextIn(c: Short, w: Five<Wire>): InState {
    match c.ins
    case IN_INIT => if !c.clearLocal && (w.e.req || w.w.req || w.n.req || w.s.req || w.l.req) then IN_ARBITRATION else IN_INIT
    case IN_ARBITRATION => IN_TEST_SPACE
    case IN_TEST_SPACE =>
      if !c.used && !Of(w, c.port).clear then IN_WRITE
      else if c.used && Of(w, c.port).clear && !c.pending then IN_CLEAR
      else IN_WAIT_REQ_DOWN
    case IN_WAIT_REQ_DOWN => if !Of(w, c.port).req then IN_INIT else IN_WAIT_REQ_DOWN
    case _ => IN_WAIT_REQ_DOWN
  }

  /** The ports a line in state `c` is sent on. */
  function Sends(c: Short): Five<bool> {
    Five(c.origin != EAST, c.origin != WEST, c.origin != NORTH, c.origin != SOUTH, !c.clear && c.address != 0)
  }

  function Either(a: Five<bool>, b: Five<bool>): Five<bool> {
    Five(a.e || b.e, a.w || b.w, a.n || b.n, a.s || b.s, a.l || b.l)
  }

  function Both(a: Five<bool>, b: Five<bool>): Five<bool> {
    Five(a.e && b.e, a.w && b.w, a.n && b.n, a.s && b.s, a.l && b.l)
  }

  function Not(a: Five<bool>): Five<bool> { Five(!a.e, !a.w, !a.n, !a.s, !a.l) }

  const NONE: Five<bool> := Five(false, false, false, false, false)

  function All(a: Five<bool>): bool { a.e && a.w && a.n && a.s && a.l }

  function NextOut(c: Short, w: Five<Wire>): (OutState, Five<bool>, Five<bool>, Five<bool>) {
    match c.outs
    case OUT_INIT => (if !c.clearLocal && c.used && c.pending then OUT_ARBITRATION else OUT_INIT, c.req, c.clears, c.acked)
    case OUT_ARBITRATION => (OUT_TEST_SVC, c.req, c.clears, c.acked)
    case OUT_TEST_SVC =>
      var s := Sends(c);
      (OUT_WAIT_ACK_PORTS, Either(s, c.req),
       Five(if s.e then c.clear else c.clears.e, if s.w then c.clear else c.clears.w, if s.n then c.clear else c.clears.n,
            if s.s then c.clear else c.clears.s, if s.l then c.clear else c.clears.l),
       Either(Not(s), c.acked))
    case OUT_WAIT_ACK_PORTS =>
      var acked := Either(c.acked, Acks(w));
      var req := Both(c.req, Either(c.acked, Not(Acks(w))));
      if All(acked) then (if c.clear then OUT_CLEAR_TABLE else OUT_INIT, req, c.clears, NONE)
      else (OUT_WAIT_ACK_PORTS, req, c.clears, acked)
    case _ => (OUT_INIT, c.req, c.clears, c.acked)
  }

  predicate Selects(c: Short) { c.chosen || (c.outs == OUT_ARBITRATION && c.used && c.pending) }

  /** One clock edge in short form. */
  function Next(c: Short, w: Five<Wire>): Short {
    var fires := c.clearLocal && c.ins == IN_INIT && c.outs == OUT_INIT;
    var tick := (c.tick + 1) % WORD;
    var expires := c.wrote && tick >= (c.wroteTick + c.interval) % WORD;
    var writes := c.ins == IN_WRITE;
    var local := writes && c.port == LOCAL;
    var clears := fires || (c.ins == IN_CLEAR && !c.clear && !c.pending);
    var (outs, req, msgs, acked) := NextOut(c, w);
    Short(c.address, c.interval, NextIn(c, w),
      if c.ins == IN_ARBITRATION then RoundRobin.Next(Ports(Reqs(w)), c.port) else c.port,
      if writes then c.port else c.origin,
      outs, Selects(c), req, msgs, acked,
      (c.used || writes) && c.outs != OUT_CLEAR_TABLE,
      (c.pending || writes || clears) && c.outs != OUT_TEST_SVC,
      if writes then Of(w, c.port).clear else c.clear || clears,
      expires || (c.clearLocal && !fires), local || (c.busy && !fires), local || (c.wrote && !expires),
      if local then tick else c.wroteTick, tick)
  }

  /** The output states that occur with this flood, which has no single target. A line is
      selected while it is pending, and sent only when it has been selected. */
  predicate Sane(c: Short) {
    && c.outs != OUT_SEND_LOCAL && c.outs != OUT_WAIT_ACK_DOWN
    && (c.outs == OUT_ARBITRATION ==> c.used && c.pending)
    && (c.outs in {OUT_TEST_SVC, OUT_WAIT_ACK_PORTS, OUT_CLEAR_TABLE} ==> c.chosen)
  }

  const HELLO: Key := Hello(false).key

  /** The lines, with nothing else of the router. */
  lemma LinesAre(c: Short, i: nat)
    requires i < CAM_SIZE
    ensures var r := Full(c);
      && |r.io.flag| == CAM_SIZE && r.io.flag[i].used == (i == 0 && c.used)
      && PendingLine(r, i) == (i == 0 && c.used && c.pending) && (At(r, HELLO, i) <==> i == 0 && c.used)
  {
    hide Padded, Ports, Only, OutOf;
  }

  /** The searches of the table find line 0 or nothing. */
  lemma Searches(c: Short)
    ensures var r := Full(c);
      && |r.io.flag| == CAM_SIZE && FirstAt(r, HELLO, 0) == (if c.used then 0 else CAM_SIZE)
      && (!c.used ==> FirstFree(r, 0) == 0)
  {
    hide Full, At, Shape, FirstAt, FirstFree;
    LinesAre(c, 0);
    var r := Full(c);
    var hit, free := FirstAt(r, HELLO, 0), FirstFree(r, 0);
    if hit < CAM_SIZE { LinesAre(c, hit); }
  }

  lemma PendingIs(c: Short)
    ensures PendingMask(Full(c)) == Padded(c.used && c.pending, false)
  {
    hide Full, PendingLine, Shape, Padded, PendingMask;
    LinesAre(c, 0);
    var mask := PendingMask(Full(c));
    forall i | 0 <= i < CAM_SIZE
      ensures mask[i] == (i == 0 && c.used && c.pending)
    {
      LinesAre(c, i);
    }
    PaddedIs(mask, c.used && c.pending, false);
  }

  lemma SelectsLine(pending: bool, last: nat)
    requires last < CAM_SIZE
    ensures true in Padded(pending, false) <==> pending
    ensures RoundRobin.Next(Padded(pending, false), last) == if pending then 0 else last
  {
    var mask := Padded(pending, false);
    RoundRobin.NextIsNearest(mask, last);
    assert mask[0] == pending;
  }

  lemma SameFive<T>(s: seq<T>, f: Five<T>)
    requires |s| == NPORT && forall q: Port :: s[q] == Of(f, q)
    ensures s == Ports(f)
  {
  }

  lemma AckMoves(p: Port, on: bool, on': bool)
    ensures Ports(Only(p, on))[p := on'] == Ports(Only(p, on'))
  {
    SameFive(Ports(Only(p, on))[p := on'], Only(p, on'));
  }

  /** The input registers by themselves. */
  function InOf(ins: InState, port: Port, ack: Five<bool>, origin: Port): InRegs {
    InRegs(ins, port, 0, 0, Ports(ack), Padded(Entry(0, 0, 0, 0, 0, origin), BLANK))
  }

  lemma FullIn(c: Short)
    ensures Shape(Full(c)) && Full(c).inp == InOf(c.ins, c.port, Only(c.port, c.ins == IN_WAIT_REQ_DOWN), c.origin)
    ensures Full(c).io.clearLocal == c.clearLocal && (Full(c).io.flag[0].pending <==> c.pending)
  {
  }

  lemma EntryMoves(origin: Port, port: Port)
    ensures Padded(Entry(0, 0, 0, 0, 0, origin), BLANK)[0 := Entry(0, 0, 0, 0, 0, port)] == Padded(Entry(0, 0, 0, 0, 0, port), BLANK)
  {
    PaddedIs(Padded(Entry(0, 0, 0, 0, 0, origin), BLANK)[0 := Entry(0, 0, 0, 0, 0, port)], Entry(0, 0, 0, 0, 0, port), BLANK);
  }

  /** Where the message is looked at, it is one of the flood's two. */
  lemma WiresAre(c: Short, w: Five<Wire>, v: Wires)
    requires Describes(w, v, c)
    ensures WiresOk(v) && v.ack == Ports(Acks(w)) && v.req == Ports(Reqs(w)) && (forall q: Port :: v.req[q] == Of(Reqs(w), q))
    ensures true in v.req <==> (w.e.req || w.w.req || w.n.req || w.s.req || w.l.req)
    ensures c.ins in {IN_TEST_SPACE, IN_WRITE} ==> v.msg[c.port] == Hello(Of(w, c.port).clear)
  {
  }

  lemma InIsNext(c: Short, w: Five<Wire>, v: Wires)
    requires Describes(w, v, c)
    ensures InStep(Full(c), v) == Full(Next(c, w)).inp
  {
    hide NextOut, Describes, Full, Padded, Ports, Only, Shape, FirstAt, FirstFree, RoundRobin.Next;
    WiresAre(c, w, v);
    FullIn(c); FullIn(Next(c, w));
    Searches(c);
    EntryMoves(c.origin, c.port);
    AckMoves(c.port, c.ins == IN_WAIT_REQ_DOWN, NextIn(c, w) == IN_WAIT_REQ_DOWN);
    IdleAck(c.port, Next(c, w).port);
    assert Of(Reqs(w), c.port) == Of(w, c.port).req;
  }

  /** No acknowledge is up at any port when none is at one. */
  lemma IdleAck(p: Port, q: Port)
    ensures Only(p, false) == Only(q, false)
  {
  }

  lemma TestStep(r: Router, v: Wires)
    requires Shape(r) && WiresOk(v) && r.outp.state == OUT_TEST_SVC && Propagates(r, r.outp.line)
    ensures var o := OutStep(r, v);
      && o.state == OUT_WAIT_ACK_PORTS && o.line == r.outp.line && |o.req| == |o.msg| == |o.ackPorts| == NPORT
      && (forall q: Port :: o.req[q] == (SendsOn(r, o.line, q) || r.outp.req[q]))
      && (forall q: Port :: o.msg[q] == if SendsOn(r, o.line, q) then LineMsg(r, o.line) else r.outp.msg[q])
      && (forall q: Port :: o.ackPorts[q] == (!SendsOn(r, o.line, q) || r.outp.ackPorts[q]))
  {
  }

  lemma WaitStep(r: Router, v: Wires)
    requires Shape(r) && WiresOk(v) && r.outp.state == OUT_WAIT_ACK_PORTS
    ensures var o := OutStep(r, v);
      && o.line == r.outp.line && |o.req| == |o.ackPorts| == NPORT && o.msg == r.outp.msg
      && (forall q: Port :: o.req[q] == (r.outp.req[q] && (r.outp.ackPorts[q] || !v.ack[q])))
      && (if forall q: Port :: r.outp.ackPorts[q] || v.ack[q] then
            && o.state == (if r.io.flag[r.outp.line].svc == CLEAR then OUT_CLEAR_TABLE else OUT_INIT)
            && forall q: Port :: !o.ackPorts[q]
          else o.state == OUT_WAIT_ACK_PORTS && forall q: Port :: o.ackPorts[q] == (r.outp.ackPorts[q] || v.ack[q]))
  {
    var a := AckedPorts(r.outp, v);
    if false !in a {
      forall q: Port
        ensures a[q]
      {
        assert a[q] in a;
      }
    }
  }

  lemma OfEach(a: Five<bool>, b: Five<bool>, q: Port)
    ensures Of(Either(a, b), q) == (Of(a, q) || Of(b, q)) && Of(Both(a, b), q) == (Of(a, q) && Of(b, q)) && Of(Not(a), q) == !Of(a, q)
  {
  }

  lemma SendsIs(c: Short, q: Port)
    ensures SendsOn(Full(c), 0, q) == Of(Sends(c), q) && Propagates(Full(c), 0) && LineMsg(Full(c), 0) == Hello(c.clear)
  {
  }

  lemma NoneOf(q: Port)
    ensures !Of(NONE, q)
  {
  }

  /** What the output process looks at. */
  lemma FullFacts(c: Short, w: Five<Wire>, v: Wires)
    requires WiresOk(v) && v.ack == Ports(Acks(w))
    ensures Shape(Full(c)) && WiresOk(v)
    ensures Full(c).io.clearLocal == c.clearLocal
    ensures Full(c).outp == OutOf(c.outs, c.chosen, c.req, c.clears, c.acked) && (Full(c).io.flag[0].svc == CLEAR) == c.clear
    ensures forall q: Port :: v.ack[q] == Of(Acks(w), q)
  {
  }

  lemma TestOf(c: Short, w: Five<Wire>, q: Port)
    requires c.outs == OUT_TEST_SVC
    ensures var (_, req, clears, acked) := NextOut(c, w);
      && Of(req, q) == (Of(Sends(c), q) || Of(c.req, q))
      && Of(Msgs(clears), q) == (if Of(Sends(c), q) then Hello(c.clear) else Of(Msgs(c.clears), q))
      && Of(acked, q) == (!Of(Sends(c), q) || Of(c.acked, q))
  {
  }

  lemma TestIsNext(c: Short, w: Five<Wire>, v: Wires)
    requires Describes(w, v, c) && c.outs == OUT_TEST_SVC && c.chosen
    ensures var (outs, req, clears, acked) := NextOut(c, w); OutStep(Full(c), v) == OutOf(outs, true, req, clears, acked)
  {
    assert NextOut(c, w).0 == OUT_WAIT_ACK_PORTS;
    hide NextOut, Msgs, Sends, Of;
    hide SendsOn, Ports, Full, OutStep, Describes, Shape, Propagates, LineMsg;
    WiresAre(c, w, v);
    FullFacts(c, w, v);
    var r := Full(c);
    SendsIs(c, EAST);
    TestStep(r, v);
    var o := OutStep(r, v);
    var (outs, req, clears, acked) := NextOut(c, w);
    forall q: Port
      ensures o.req[q] == Of(req, q) && o.msg[q] == Of(Msgs(clears), q) && o.ackPorts[q] == Of(acked, q)
    {
      SendsIs(c, q);
      TestOf(c, w, q);
    }
    hide Acks, Reqs, Sends, Of, NextOut, Msgs;
    SameFive(o.req, req);
    SameFive(o.msg, Msgs(clears));
    SameFive(o.ackPorts, acked);
  }

  lemma WaitIsNext(c: Short, w: Five<Wire>, v: Wires)
    requires Describes(w, v, c) && c.outs == OUT_WAIT_ACK_PORTS && c.chosen
    ensures var (outs, req, clears, acked) := NextOut(c, w); OutStep(Full(c), v) == OutOf(outs, true, req, clears, acked)
  {
    hide Ports, Full, OutStep, Describes, Of, Not, Either, Both, All, Acks, Shape;
    WiresAre(c, w, v);
    FullFacts(c, w, v);
    var r := Full(c);
    WaitStep(r, v);
    var o := OutStep(r, v);
    var (outs, req, clears, acked) := NextOut(c, w);
    AllIs(Either(c.acked, Acks(w)));
    forall q: Port
      ensures !Of(NONE, q)
      ensures o.req[q] == Of(req, q) && Of(Either(c.acked, Acks(w)), q) == (r.outp.ackPorts[q] || v.ack[q])
    {
      NoneOf(q);
      OfEach(c.acked, Acks(w), q);
      OfEach(Acks(w), NONE, q);
      OfEach(c.acked, Not(Acks(w)), q);
      OfEach(c.req, Either(c.acked, Not(Acks(w))), q);
    }
    SameFive(o.req, req);
    SameFive(o.ackPorts, acked);
  }

  lemma AllIs(f: Five<bool>)
    ensures All(f) == forall q: Port :: Of(f, q)
  {
    if forall q: Port :: Of(f, q) {
      assert Of(f, EAST) && Of(f, WEST) && Of(f, NORTH) && Of(f, SOUTH) && Of(f, LOCAL);
    }
  }

  lemma OutIsNext(c: Short, w: Five<Wire>, v: Wires)
    requires Describes(w, v, c) && Sane(c)
    ensures OutStep(Full(c), v) == Full(Next(c, w)).outp
  {
    WiresAre(c, w, v);
    FullFacts(c, w, v); FullFacts(Next(c, w), w, v);
    hide Full, Describes, Shape, Padded, RoundRobin.Next, NextIn, Ports, Acks, Reqs;
    if c.outs == OUT_TEST_SVC {
      TestIsNext(c, w, v);
      hide OutStep, NextOut, NextIn;
    } else if c.outs == OUT_WAIT_ACK_PORTS {
      WaitIsNext(c, w, v);
      hide OutStep, NextOut, NextIn;
    } else {
      PendingIs(c);
      SelectsLine(c.used && c.pending, Full(c).outp.line);
    }
  }

  lemma FullIo(c: Short)
    ensures var r := Full(c);
      && Shape(r) && r.io == IoRegs(Padded(Flag(c.used, c.pending, 1, if c.clear then CLEAR else ALL), UNUSED),
                        c.clearLocal, c.busy, c.wrote, 0, c.wroteTick, c.tick)
      && r.inp.state == c.ins && r.inp.port == c.port && r.inp.freeIdx == 0 && r.inp.sourceIdx == 0
      && r.outp.state == c.outs && (c.chosen ==> r.outp.line == 0) && r.clearInterval == c.interval
  {
  }

  lemma FlagIs(c: Short, w: Five<Wire>, v: Wires, i: nat)
    requires Describes(w, v, c) && Sane(c) && i < CAM_SIZE
    ensures WiresOk(v) && Shape(Full(c)) && |Full(c).io.flag| == CAM_SIZE
    ensures var d := Next(c, w);
      NextFlag(Full(c), v, i) == if i == 0 then Flag(d.used, d.pending, 1, if d.clear then CLEAR else ALL) else UNUSED
  {
    hide Full, Describes, Padded, NextIn, NextOut, Shape, RoundRobin.Next, Ports, Selects;
    WiresAre(c, w, v);
    FullIo(c);
  }

  lemma IoIsNext(c: Short, w: Five<Wire>, v: Wires)
    requires Describes(w, v, c) && Sane(c)
    ensures IoStep(Full(c), v) == Full(Next(c, w)).io
  {
    var d := Next(c, w);
    var was := Flag(c.used, c.pending, 1, if c.clear then CLEAR else ALL);
    var flag := IoStep(Full(c), v).flag;
    WiresAre(c, w, v);
    FullIo(c); FullIo(d);
    forall i | 0 <= i < CAM_SIZE
      ensures flag[i] == if i == 0 then Flag(d.used, d.pending, 1, if d.clear then CLEAR else ALL) else UNUSED
    {
      FlagIs(c, w, v, i);
    }
    hide Padded, NextIn, NextOut, Full, NextFlag, Describes;
    PaddedIs(flag, Flag(d.used, d.pending, 1, if d.clear then CLEAR else ALL), UNUSED);
  }

  lemma StepIsNext(c: Short, w: Five<Wire>, v: Wires)
    requires Describes(w, v, c) && Sane(c)
    ensures Step(Full(c), v) == Full(Next(c, w)) && Sane(Next(c, w))
  {
    InIsNext(c, w, v); OutIsNext(c, w, v); IoIsNext(c, w, v);
    hide InStep, OutStep, IoStep, NextIn, Sends;
  }
}
