/** The broadcast router: its registers, its three clocked processes as functions of the
    registers and the input wires, and the class that runs the processes on its fields.

    The three processes of one clock edge all read the values from before the edge. They
    write disjoint signals, so the registers are grouped by the process that writes them. */
module BrLite {
  import opened Topology
  import RoundRobin

  /** The service field holds three bits. Values below TARGET are the monitor services. */
  type Service = s: nat | s < 8
  const TARGET: Service := 5
  const ALL: Service := 6
  const CLEAR: Service := 7

  /** What identifies a flood: the router that started it and the number it gave to it. */
  datatype Key = Key(source: nat, id: nat)

  datatype Msg = Msg(key: Key, svc: Service, target: nat, payload: nat, producer: nat, ksvc: nat)

  /** The part of a CAM line written by process `input`. */
  datatype Entry = Entry(source: nat, target: nat, payload: nat, producer: nat, ksvc: nat, origin: Port)

  /** The part of a CAM line written by process `input_output`. */
  datatype Flag = Flag(used: bool, pending: bool, id: nat, svc: Service)

  datatype InState = IN_INIT | IN_ARBITRATION | IN_TEST_SPACE | IN_WRITE | IN_CLEAR | IN_WAIT_REQ_DOWN
  datatype OutState = OUT_INIT | OUT_ARBITRATION | OUT_TEST_SVC | OUT_WAIT_ACK_PORTS | OUT_CLEAR_TABLE
                    | OUT_SEND_LOCAL | OUT_WAIT_ACK_DOWN

  datatype InRegs = InRegs(state: InState, port: Port, sourceIdx: nat, freeIdx: nat,
                           ack: seq<bool>, entry: seq<Entry>)
  datatype OutRegs = OutRegs(state: OutState, line: nat, req: seq<bool>, msg: seq<Msg>, ackPorts: seq<bool>)
  datatype IoRegs = IoRegs(flag: seq<Flag>, clearLocal: bool, localBusy: bool,
                           wroteLocal: bool, wroteIdx: nat, wroteTick: nat, tick: nat)

  /** A router: its address, the number of cycles between a local write and its CLEAR,
      and its registers. */
  datatype Router = Router(address: nat, clearInterval: nat, inp: InRegs, outp: OutRegs, io: IoRegs)

  /** What the router sees on its five ports during one cycle. */
  datatype Wires = Wires(req: seq<bool>, msg: seq<Msg>, ack: seq<bool>)

  predicate WiresOk(w: Wires) {
    |w.req| == NPORT && |w.msg| == NPORT && |w.ack| == NPORT
  }

  /** Register widths and index ranges; nothing about the protocol. */
  predicate Shape(r: Router) {
    && 0 < |r.io.flag| == |r.inp.entry|
    && |r.inp.ack| == NPORT && |r.outp.req| == NPORT && |r.outp.msg| == NPORT && |r.outp.ackPorts| == NPORT
    && r.outp.line < |r.io.flag| && r.inp.freeIdx < |r.io.flag|
    && r.inp.sourceIdx < |r.io.flag| && r.io.wroteIdx < |r.io.flag|
  }

  function LineKey(r: Router, i: nat): Key
    requires Shape(r) && i < |r.io.flag|
  {
    Key(r.inp.entry[i].source, r.io.flag[i].id)
  }

  function LineMsg(r: Router, i: nat): Msg
    requires Shape(r) && i < |r.io.flag|
  {
    var e := r.inp.entry[i];
    Msg(LineKey(r, i), r.io.flag[i].svc, e.target, e.payload, e.producer, e.ksvc)
  }

  /** Line `i` of the table is in use for flood `k`. */
  predicate At(r: Router, k: Key, i: nat)
    requires Shape(r)
  {
    i < |r.io.flag| && r.io.flag[i].used && LineKey(r, i) == k
  }

  /** The first used line for `k` at index `i` or later, or the table size. */
  function FirstAt(r: Router, k: Key, i: nat): (j: nat)
    requires Shape(r) && i <= |r.io.flag|
    ensures i <= j <= |r.io.flag|
    ensures j < |r.io.flag| ==> At(r, k, j)
    ensures forall m :: i <= m < j ==> !At(r, k, m)
    decreases |r.io.flag| - i
  {
    if i == |r.io.flag| then i
    else if At(r, k, i) then i
    else FirstAt(r, k, i + 1)
  }

  /** The first unused line at index `i` or later, or the table size. */
  function FirstFree(r: Router, i: nat): (j: nat)
    requires Shape(r) && i <= |r.io.flag|
    ensures i <= j <= |r.io.flag|
    ensures j < |r.io.flag| ==> !r.io.flag[j].used
    ensures forall m :: i <= m < j ==> r.io.flag[m].used
    decreases |r.io.flag| - i
  {
    if i == |r.io.flag| then i
    else if !r.io.flag[i].used then i
    else FirstFree(r, i + 1)
  }

  predicate PendingLine(r: Router, i: nat)
    requires Shape(r)
  {
    i < |r.io.flag| && r.io.flag[i].used && r.io.flag[i].pending
  }

  function PendingMask(r: Router): (s: seq<bool>)
    requires Shape(r)
    ensures |s| == |r.io.flag|
    ensures forall i :: 0 <= i < |s| ==> s[i] == PendingLine(r, i)
  {
    seq(|r.io.flag|, i requires 0 <= i < |r.io.flag| => PendingLine(r, i))
  }

  /** Process `input`. */
  function InStep(r: Router, w: Wires): InRegs
    requires Shape(r) && WiresOk(w)
  {
    var a := r.inp;
    match a.state
    case IN_INIT =>
      if !r.io.clearLocal && true in w.req then a.(state := IN_ARBITRATION) else a
    case IN_ARBITRATION =>
      a.(port := RoundRobin.Next(w.req, a.port), state := IN_TEST_SPACE)
    case IN_TEST_SPACE =>
      var m := w.msg[a.port];
      var hit := FirstAt(r, m.key, 0);
      if hit == |r.io.flag| then
        if m.svc != CLEAR then
          var free := FirstFree(r, 0);
          if free == |r.io.flag| then a.(state := IN_INIT)
          else a.(freeIdx := free, state := IN_WRITE)
        else a.(ack := a.ack[a.port := true], state := IN_WAIT_REQ_DOWN)
      else if m.svc == CLEAR && !r.io.flag[hit].pending then
        a.(sourceIdx := hit, state := IN_CLEAR)
      else a.(sourceIdx := hit, ack := a.ack[a.port := true], state := IN_WAIT_REQ_DOWN)
    case IN_WAIT_REQ_DOWN =>
      if !w.req[a.port] then a.(ack := a.ack[a.port := false], state := IN_INIT) else a
    case IN_WRITE =>
      var m := w.msg[a.port];
      a.(entry := a.entry[a.freeIdx := Entry(m.key.source, m.target, m.payload, m.producer, m.ksvc, a.port)],
         ack := a.ack[a.port := true], state := IN_WAIT_REQ_DOWN)
    case IN_CLEAR =>
      a.(ack := a.ack[a.port := true], state := IN_WAIT_REQ_DOWN)
  }

  /** A message goes on through the mesh unless it is addressed to this router alone. */
  predicate Propagates(r: Router, i: nat)
    requires Shape(r) && i < |r.io.flag|
  {
    r.io.flag[i].svc >= ALL || r.inp.entry[i].target != r.address
  }

  /** The ports on which the line under `OUT_TEST_SVC` is sent when it propagates. */
  predicate SendsOn(r: Router, i: nat, q: Port)
    requires Shape(r) && i < |r.io.flag|
  {
    if q == LOCAL then r.io.flag[i].svc == ALL && r.inp.entry[i].source != r.address
    else q != r.inp.entry[i].origin
  }

  /** The ports acknowledged before this cycle or in it. */
  function AckedPorts(b: OutRegs, w: Wires): (s: seq<bool>)
    requires |b.ackPorts| == NPORT && WiresOk(w)
    ensures |s| == NPORT
    ensures forall q :: 0 <= q < NPORT ==> s[q] == (b.ackPorts[q] || w.ack[q])
  {
    seq(NPORT, q requires 0 <= q < NPORT => b.ackPorts[q] || w.ack[q])
  }

  /** Process `output`. */
  function OutStep(r: Router, w: Wires): OutRegs
    requires Shape(r) && WiresOk(w)
  {
    var b := r.outp;
    match b.state
    case OUT_INIT =>
      if !r.io.clearLocal && true in PendingMask(r) then b.(state := OUT_ARBITRATION) else b
    case OUT_ARBITRATION =>
      b.(line := RoundRobin.Next(PendingMask(r), b.line), state := OUT_TEST_SVC)
    case OUT_TEST_SVC =>
      var m := LineMsg(r, b.line);
      if Propagates(r, b.line) then
        b.(req := seq(NPORT, q requires 0 <= q < NPORT => SendsOn(r, b.line, q) || b.req[q]),
           msg := seq(NPORT, q requires 0 <= q < NPORT => if SendsOn(r, b.line, q) then m else b.msg[q]),
           ackPorts := seq(NPORT, q requires 0 <= q < NPORT => !SendsOn(r, b.line, q) || b.ackPorts[q]),
           state := OUT_WAIT_ACK_PORTS)
      else
        b.(req := b.req[LOCAL := true], msg := b.msg[LOCAL := m], state := OUT_SEND_LOCAL)
    case OUT_SEND_LOCAL =>
      if w.ack[LOCAL] then b.(req := b.req[LOCAL := false], state := OUT_WAIT_ACK_DOWN) else b
    case OUT_WAIT_ACK_PORTS =>
      var acked := AckedPorts(b, w);
      var req := seq(NPORT, q requires 0 <= q < NPORT => b.req[q] && (b.ackPorts[q] || !w.ack[q]));
      if false in acked then b.(ackPorts := acked, req := req)
      else b.(ackPorts := seq(NPORT, q => false), req := req,
              state := if r.io.flag[b.line].svc == CLEAR then OUT_CLEAR_TABLE else OUT_INIT)
    case OUT_WAIT_ACK_DOWN =>
      if !w.ack[LOCAL] then b.(state := OUT_INIT) else b
    case OUT_CLEAR_TABLE =>
      b.(state := OUT_INIT)
  }

  /** The local clear fires only when both other processes are at rest. */
  predicate ClearFires(r: Router) {
    r.io.clearLocal && r.inp.state == IN_INIT && r.outp.state == OUT_INIT
  }

  /** What process `input_output` makes of the flags of line `i`. */
  function NextFlag(r: Router, w: Wires, i: nat): Flag
    requires Shape(r) && WiresOk(w) && i < |r.io.flag|
  {
    var f := r.io.flag[i];
    var f1 := if ClearFires(r) && i == r.io.wroteIdx then f.(svc := CLEAR, pending := true) else f;
    var f2 :=
      if r.inp.state == IN_WRITE && i == r.inp.freeIdx then
        Flag(true, true, w.msg[r.inp.port].key.id, w.msg[r.inp.port].svc)
      else if r.inp.state == IN_CLEAR && i == r.inp.sourceIdx && f.svc != CLEAR && !f.pending then
        f1.(svc := CLEAR, pending := true)
      else f1;
    if r.outp.state == OUT_TEST_SVC && i == r.outp.line then f2.(pending := false)
    else if r.outp.state == OUT_CLEAR_TABLE && i == r.outp.line then f2.(used := false)
    else f2
  }

  /** Both clocks are 32 bits wide. */
  const WORD: nat := 0x1_0000_0000

  /** Process `input_output`. */
  function IoStep(r: Router, w: Wires): IoRegs
    requires Shape(r) && WiresOk(w)
  {
    var c := r.io;
    var tick := (c.tick + 1) % WORD;
    var expires := c.wroteLocal && tick >= (c.wroteTick + r.clearInterval) % WORD;
    var writesLocal := r.inp.state == IN_WRITE && r.inp.port == LOCAL;
    IoRegs(
      seq(|c.flag|, i requires 0 <= i < |c.flag| => NextFlag(r, w, i)),
      expires || (c.clearLocal && !ClearFires(r)),
      writesLocal || (c.localBusy && !ClearFires(r)),
      writesLocal || (c.wroteLocal && !expires),
      if writesLocal then r.inp.freeIdx else c.wroteIdx,
      if writesLocal then tick else c.wroteTick,
      tick)
  }

  /** One clock edge. */
  function Step(r: Router, w: Wires): (r': Router)
    requires Shape(r) && WiresOk(w)
    ensures Shape(r') && |r'.io.flag| == |r.io.flag|
  {
    Router(r.address, r.clearInterval, InStep(r, w), OutStep(r, w), IoStep(r, w))
  }

  /** The registers after reset. The table contents other than the two flags, and the
      message registers, keep whatever they held. */
  predicate IsReset(r: Router) {
    && Shape(r)
    && r.inp.state == IN_INIT && r.inp.port == LOCAL && r.inp.sourceIdx == 0
    && r.outp.state == OUT_INIT && r.outp.line == |r.io.flag| - 1
    && (forall q :: 0 <= q < NPORT ==> !r.inp.ack[q] && !r.outp.req[q] && !r.outp.ackPorts[q])
    && (forall i :: 0 <= i < |r.io.flag| ==> !r.io.flag[i].used && !r.io.flag[i].pending)
    && !r.io.clearLocal && !r.io.wroteLocal && !r.io.localBusy
    && r.io.wroteIdx == 0 && r.io.wroteTick == 0 && r.io.tick == 0
  }

  /** The module with its registers as fields. A process reads the current registers and
      drives the `next` ones; `Update` makes the driven values current. */
  class BrLiteRouter {
    const address: nat
    const clearInterval: nat
    var inp: InRegs
    var outp: OutRegs
    var io: IoRegs
    var nextInp: InRegs
    var nextOutp: OutRegs
    var nextIo: IoRegs

    function Current(): Router
      reads this
    {
      Router(address, clearInterval, inp, outp, io)
    }

    constructor (r: Router)
      requires Shape(r)
      ensures Current() == r
      ensures nextInp == inp && nextOutp == outp && nextIo == io
    {
      address, clearInterval := r.address, r.clearInterval;
      inp, outp, io := r.inp, r.outp, r.io;
      nextInp, nextOutp, nextIo := r.inp, r.outp, r.io;
    }

    /** Port arbitration scans from the port after the last winner. */
    method ArbitratePort(req: seq<bool>) returns (port: Port)
      requires |req| == NPORT
      ensures port == RoundRobin.Next(req, inp.port)
    {
      port := (inp.port + 1) % NPORT;
      while port != inp.port
        invariant RoundRobin.Scan(req, inp.port, port) == RoundRobin.Next(req, inp.port)
        decreases if port <= inp.port then inp.port - port else inp.port + NPORT - port
      {
        if req[port] { return; }
        port := (port + 1) % NPORT;
      }
    }

    /** Line arbitration scans the pending lines from the line after the last winner. */
    method ArbitrateLine() returns (line: nat)
      requires Shape(Current())
      ensures line == RoundRobin.Next(PendingMask(Current()), outp.line)
    {
      ghost var mask := PendingMask(Current());
      var n := |io.flag|;
      line := RoundRobin.Inc(outp.line, n);
      while line != outp.line
        invariant line < n
        invariant RoundRobin.Scan(mask, outp.line, line) == RoundRobin.Next(mask, outp.line)
        decreases if line <= outp.line then outp.line - line else outp.line + n - line
      {
        if io.flag[line].used && io.flag[line].pending { return; }
        line := RoundRobin.Inc(line, n);
      }
    }

    method LookUp(k: Key) returns (hit: nat)
      requires Shape(Current())
      ensures hit == FirstAt(Current(), k, 0)
    {
      hit := 0;
      while hit < |io.flag|
        invariant hit <= |io.flag|
        invariant FirstAt(Current(), k, hit) == FirstAt(Current(), k, 0)
      {
        if io.flag[hit].used && io.flag[hit].id == k.id && inp.entry[hit].source == k.source { return; }
        hit := hit + 1;
      }
    }

    method FindFree() returns (free: nat)
      requires Shape(Current())
      ensures free == FirstFree(Current(), 0)
    {
      free := 0;
      while free < |io.flag|
        invariant free <= |io.flag|
        invariant FirstFree(Current(), free) == FirstFree(Current(), 0)
      {
        if !io.flag[free].used { return; }
        free := free + 1;
      }
    }

    method Input(w: Wires)
      requires Shape(Current()) && WiresOk(w) && nextInp == inp
      modifies this`nextInp
      ensures nextInp == InStep(Current(), w)
    {
      match inp.state {
        case IN_INIT =>
          if !io.clearLocal {
            var hasRequest := false;
            var i := 0;
            while i < NPORT
              invariant i <= NPORT && hasRequest == (true in w.req[..i])
            {
              hasRequest := hasRequest || w.req[i];
              i := i + 1;
            }
            assert w.req[..i] == w.req;
            if hasRequest { nextInp := nextInp.(state := IN_ARBITRATION); }
          }
        case IN_ARBITRATION =>
          var port := ArbitratePort(w.req);
          nextInp := nextInp.(port := port, state := IN_TEST_SPACE);
        case IN_TEST_SPACE =>
          var m := w.msg[inp.port];
          var hit := LookUp(m.key);
          if hit < |io.flag| { nextInp := nextInp.(sourceIdx := hit); }
          if hit == |io.flag| && m.svc != CLEAR {
            var free := FindFree();
            if free == |io.flag| {
              nextInp := nextInp.(state := IN_INIT);
            } else {
              nextInp := nextInp.(freeIdx := free, state := IN_WRITE);
            }
          } else if hit < |io.flag| && m.svc == CLEAR && !io.flag[hit].pending {
            nextInp := nextInp.(state := IN_CLEAR);
          } else {
            nextInp := nextInp.(ack := inp.ack[inp.port := true], state := IN_WAIT_REQ_DOWN);
          }
        case IN_WAIT_REQ_DOWN =>
          if !w.req[inp.port] {
            nextInp := nextInp.(ack := inp.ack[inp.port := false], state := IN_INIT);
          }
        case IN_WRITE =>
          var m := w.msg[inp.port];
          var e := Entry(m.key.source, m.target, m.payload, m.producer, m.ksvc, inp.port);
          nextInp := nextInp.(entry := inp.entry[inp.freeIdx := e]);
          nextInp := nextInp.(ack := inp.ack[inp.port := true], state := IN_WAIT_REQ_DOWN);
        case IN_CLEAR =>
          nextInp := nextInp.(ack := inp.ack[inp.port := true], state := IN_WAIT_REQ_DOWN);
      }
    }

    /** The OUT_TEST_SVC branch that sends the selected line on every port but its origin. */
    method Propagate(w: Wires)
      requires Shape(Current()) && WiresOk(w) && nextOutp == outp
      requires outp.state == OUT_TEST_SVC && Propagates(Current(), outp.line)
      modifies this`nextOutp
      ensures nextOutp == OutStep(Current(), w)
    {
      ghost var r := Current();
      ghost var after := OutStep(r, w);
      var e, f, m := inp.entry[outp.line], io.flag[outp.line], LineMsg(Current(), outp.line);
      var req, msg, ackPorts := outp.req, outp.msg, outp.ackPorts;
      var i := 0;
      while i < NPORT - 1
        invariant i <= NPORT - 1 && |req| == NPORT && |msg| == NPORT && |ackPorts| == NPORT
        invariant forall q :: i <= q < NPORT ==>
          req[q] == outp.req[q] && msg[q] == outp.msg[q] && ackPorts[q] == outp.ackPorts[q]
        invariant forall q :: 0 <= q < i ==>
          req[q] == after.req[q] && msg[q] == after.msg[q] && ackPorts[q] == after.ackPorts[q]
      {
        assert SendsOn(r, outp.line, i) == (i != e.origin);
        if i != e.origin {
          req, msg := req[i := true], msg[i := m];
        } else {
          ackPorts := ackPorts[i := true];
        }
        i := i + 1;
      }
      if f.svc == ALL && e.source != address {
        req, msg := req[LOCAL := true], msg[LOCAL := m];
      } else {
        ackPorts := ackPorts[LOCAL := true];
      }
      assert req == after.req && msg == after.msg && ackPorts == after.ackPorts;
      nextOutp := nextOutp.(req := req, msg := msg, ackPorts := ackPorts, state := OUT_WAIT_ACK_PORTS);
    }

    /** The OUT_WAIT_ACK_PORTS branch: collect acknowledges until every port has one. */
    method CollectAcks(w: Wires)
      requires Shape(Current()) && WiresOk(w) && nextOutp == outp && outp.state == OUT_WAIT_ACK_PORTS
      modifies this`nextOutp
      ensures nextOutp == OutStep(Current(), w)
    {
      ghost var after := OutStep(Current(), w);
      var ackPorts, req, all := outp.ackPorts, outp.req, true;
      var i := 0;
      while i < NPORT
        invariant i <= NPORT && |req| == NPORT && |ackPorts| == NPORT
        invariant forall q :: 0 <= q < i ==>
          ackPorts[q] == (outp.ackPorts[q] || w.ack[q]) && req[q] == (outp.req[q] && (outp.ackPorts[q] || !w.ack[q]))
        invariant forall q :: i <= q < NPORT ==> ackPorts[q] == outp.ackPorts[q] && req[q] == outp.req[q]
        invariant all == (forall q :: 0 <= q < i ==> ackPorts[q])
      {
        if !ackPorts[i] && w.ack[i] {
          ackPorts, req := ackPorts[i := true], req[i := false];
        } else {
          all := all && ackPorts[i];
        }
        i := i + 1;
      }
      assert req == after.req;
      assert all == (false !in ackPorts);
      assert ackPorts == AckedPorts(outp, w);
      if all {
        nextOutp := nextOutp.(ackPorts := seq(NPORT, q => false), req := req,
          state := if io.flag[outp.line].svc == CLEAR then OUT_CLEAR_TABLE else OUT_INIT);
      } else {
        nextOutp := nextOutp.(ackPorts := ackPorts, req := req);
      }
    }

    method Output(w: Wires)
      requires Shape(Current()) && WiresOk(w) && nextOutp == outp
      modifies this`nextOutp
      ensures nextOutp == OutStep(Current(), w)
    {
      match outp.state {
        case OUT_INIT =>
          if !io.clearLocal {
            var i := 0;
            while i < |io.flag| && !(io.flag[i].used && io.flag[i].pending)
              invariant i <= |io.flag| && true !in PendingMask(Current())[..i]
            {
              i := i + 1;
            }
            if i < |io.flag| {
              assert PendingMask(Current())[i];
              nextOutp := nextOutp.(state := OUT_ARBITRATION);
            } else {
              assert PendingMask(Current())[..i] == PendingMask(Current());
            }
          }
        case OUT_ARBITRATION =>
          var line := ArbitrateLine();
          nextOutp := nextOutp.(line := line, state := OUT_TEST_SVC);
        case OUT_TEST_SVC =>
          if io.flag[outp.line].svc >= ALL || inp.entry[outp.line].target != address {
            Propagate(w);
          } else {
            nextOutp := nextOutp.(req := outp.req[LOCAL := true],
              msg := outp.msg[LOCAL := LineMsg(Current(), outp.line)], state := OUT_SEND_LOCAL);
          }
        case OUT_SEND_LOCAL =>
          if w.ack[LOCAL] {
            nextOutp := nextOutp.(req := outp.req[LOCAL := false], state := OUT_WAIT_ACK_DOWN);
          }
        case OUT_WAIT_ACK_PORTS =>
          CollectAcks(w);
        case OUT_WAIT_ACK_DOWN =>
          if !w.ack[LOCAL] { nextOutp := nextOutp.(state := OUT_INIT); }
        case OUT_CLEAR_TABLE =>
          nextOutp := nextOutp.(state := OUT_INIT);
      }
    }

    /** Sequential like the source: of two writes to one flag in a cycle the later wins. */
    method InputOutput(w: Wires)
      requires Shape(Current()) && WiresOk(w) && nextIo == io
      modifies this`nextIo
      ensures nextIo == IoStep(Current(), w)
    {
      var tick := (io.tick + 1) % WORD;
      var flag := io.flag;
      var clearLocal, localBusy, wroteLocal, wroteIdx, wroteTick :=
        io.clearLocal, io.localBusy, io.wroteLocal, io.wroteIdx, io.wroteTick;
      if io.clearLocal && inp.state == IN_INIT && outp.state == OUT_INIT {
        clearLocal, localBusy := false, false;
        flag := flag[wroteIdx := io.flag[wroteIdx].(svc := CLEAR, pending := true)];
      }
      if wroteLocal && tick >= (wroteTick + clearInterval) % WORD {
        clearLocal, wroteLocal := true, false;
      }
      if inp.state == IN_WRITE {
        var m := w.msg[inp.port];
        flag := flag[inp.freeIdx := Flag(true, true, m.key.id, m.svc)];
        if inp.port == LOCAL {
          localBusy, wroteLocal, wroteTick, wroteIdx := true, true, tick, inp.freeIdx;
        }
      } else if inp.state == IN_CLEAR {
        var f := io.flag[inp.sourceIdx];
        if f.svc != CLEAR && !f.pending {
          flag := flag[inp.sourceIdx := f.(svc := CLEAR, pending := true)];
        }
      }
      if outp.state == OUT_TEST_SVC {
        flag := flag[outp.line := flag[outp.line].(pending := false)];
      } else if outp.state == OUT_CLEAR_TABLE {
        flag := flag[outp.line := flag[outp.line].(used := false)];
      }
      ghost var r := Current();
      assert |flag| == |io.flag|;
      assert forall i :: 0 <= i < |flag| ==> flag[i] == NextFlag(r, w, i);
      assert flag == IoStep(r, w).flag;
      nextIo := IoRegs(flag, clearLocal, localBusy, wroteLocal, wroteIdx, wroteTick, tick);
    }

    method Update()
      modifies this
      ensures inp == nextInp && outp == nextOutp && io == nextIo
      ensures nextInp == old(nextInp) && nextOutp == old(nextOutp) && nextIo == old(nextIo)
    {
      inp, outp, io := nextInp, nextOutp, nextIo;
    }

    /** One clock edge. The simulator may run the three processes in any order. */
    method ClockEdge(w: Wires, order: nat)
      requires Shape(Current()) && WiresOk(w)
      requires nextInp == inp && nextOutp == outp && nextIo == io
      modifies this
      ensures Current() == Step(old(Current()), w)
      ensures nextInp == inp && nextOutp == outp && nextIo == io
    {
      if order == 0 {
        Input(w); Output(w); InputOutput(w);
      } else if order == 1 {
        InputOutput(w); Output(w); Input(w);
      } else {
        Output(w); InputOutput(w); Input(w);
      }
      Update();
    }
  }
}
