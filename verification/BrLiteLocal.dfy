/** What sits behind the local port of a router: the control registers through which the
    software asks for a broadcast, and the ring buffer that takes what is delivered. Together
    they keep the contract of a processing element. */
module BrLiteLocal {
  import opened Topology
  import opened BrLite
  import opened BrLiteMesh
  import RoundRobin

  // ---- Asking ----

  /** The register the processor writes in this cycle; an address selects at most one. */
  datatype Write = Idle | Payload(data: nat) | Target(data: nat) | Producer(data: nat) | Svc(data: nat) | Ksvc(data: nat) | Start

  datatype Regs = Regs(id: nat, start: bool, req: bool, msg: Msg)

  /** Identifiers go round in 0 .. 30. */
  const IDS: nat := 0x1F

  function Written(c: Regs, address: nat, w: Write): Regs {
    match w
    case Idle => c
    case Payload(d) => c.(msg := c.msg.(payload := d))
    case Target(d) => c.(msg := c.msg.(key := Key(address, c.msg.key.id), target := d % 0x1_0000))
    case Producer(d) => c.(msg := c.msg.(producer := d % 0x1_0000))
    case Svc(d) => c.(id := (c.id + 1) % IDS, msg := c.msg.(key := Key(c.msg.key.source, c.id), svc := d % 8))
    case Ksvc(d) => c.(msg := c.msg.(ksvc := d % 0x100))
    case Start => c.(start := true)
  }

  /** The registers once the inputs of a cycle have settled. The acknowledge acts at once. */
  function Settled(c: Regs, address: nat, w: Write, ack: bool): Regs {
    var d := Written(c, address, w);
    if ack then d.(req := false) else if d.start then d.(req := true, start := false) else d
  }

  class BrLiteControl {
    const address: nat
    var regs: Regs

    constructor (address: nat)
      ensures this.address == address && !regs.req && !regs.start && regs.id == 0
    {
      this.address := address;
      regs := Regs(0, false, false, Msg(Key(0, 0), 0, 0, 0, 0, 0));
    }

    method Config(w: Write, ack: bool)
      modifies this
      ensures regs == Settled(old(regs), address, w, ack)
      ensures ack ==> !regs.req
      ensures old(regs.req) && !ack ==> regs.req
      ensures !ack && (old(regs.start) || w.Start?) ==> regs.req && !regs.start
    {
      match w {
        case Payload(d) => regs := regs.(msg := regs.msg.(payload := d));
        case Target(d) => regs := regs.(msg := regs.msg.(key := Key(address, regs.msg.key.id), target := d % 0x1_0000));
        case Producer(d) => regs := regs.(msg := regs.msg.(producer := d % 0x1_0000));
        case Svc(d) =>
          var id := regs.id;
          regs := regs.(id := (id + 1) % IDS);
          regs := regs.(msg := regs.msg.(key := Key(regs.msg.key.source, id), svc := d % 8));
        case Ksvc(d) => regs := regs.(msg := regs.msg.(ksvc := d % 0x100));
        case Start => regs := regs.(start := true);
        case Idle =>
      }
      if regs.start && !ack {
        regs := regs.(req := true, start := false);
      }
      if ack { regs := regs.(req := false); }
    }
  }

  // ---- What the registers remember ----

  /** The registers after a number of cycles since reset, each with a write and an acknowledge. */
  function RegsAfter(address: nat, cycles: seq<(Write, bool)>): Regs {
    if cycles == [] then Regs(0, false, false, Msg(Key(0, 0), 0, 0, 0, 0, 0))
    else
      var last := cycles[|cycles| - 1];
      Settled(RegsAfter(address, cycles[..|cycles| - 1]), address, last.0, last.1)
  }

  /** The number of services written so far. */
  function Services(cycles: seq<(Write, bool)>): nat {
    if cycles == [] then 0 else Services(cycles[..|cycles| - 1]) + if cycles[|cycles| - 1].0.Svc? then 1 else 0
  }

  datatype Field = PAYLOAD | TARGET | PRODUCER | SERVICE | KSVC

  predicate Names(w: Write, f: Field) {
    match f case PAYLOAD => w.Payload? case TARGET => w.Target? case PRODUCER => w.Producer? case SERVICE => w.Svc? case KSVC => w.Ksvc?
  }

  /** What was last written to a register, and zero before the first time. */
  function LastData(cycles: seq<(Write, bool)>, f: Field): nat {
    if cycles == [] then 0
    else
      var w := cycles[|cycles| - 1].0;
      if Names(w, f) then w.data else LastData(cycles[..|cycles| - 1], f)
  }

  predicate Targeted(cycles: seq<(Write, bool)>) { exists i :: 0 <= i < |cycles| && cycles[i].0.Target? }

  lemma TargetedGrows(cycles: seq<(Write, bool)>)
    requires cycles != []
    ensures Targeted(cycles) <==> Targeted(cycles[..|cycles| - 1]) || cycles[|cycles| - 1].0.Target?
  {
    var front := cycles[..|cycles| - 1];
    if Targeted(cycles) && !cycles[|cycles| - 1].0.Target? {
      var i :| 0 <= i < |cycles| && cycles[i].0.Target?;
      assert front[i].0.Target?;
    }
    if i :| 0 <= i < |front| && front[i].0.Target? { assert cycles[i].0.Target?; }
  }

  /** The message is what was last written to its registers, with the router's own address
      once a target has been named, and with the number of the service modulo 31. */
  lemma {:induction false} MessageIsWritten(address: nat, cycles: seq<(Write, bool)>)
    ensures var c := RegsAfter(address, cycles);
      && c.msg.payload == LastData(cycles, PAYLOAD) && c.msg.target == LastData(cycles, TARGET) % 0x1_0000
      && c.msg.producer == LastData(cycles, PRODUCER) % 0x1_0000 && c.msg.svc == LastData(cycles, SERVICE) % 8
      && c.msg.ksvc == LastData(cycles, KSVC) % 0x100
      && c.msg.key.source == (if Targeted(cycles) then address else 0)
      && c.id == Services(cycles) % 31
      && c.msg.key.id == if Services(cycles) == 0 then 0 else (Services(cycles) - 1) % 31
  {
    if cycles != [] {
      MessageIsWritten(address, cycles[..|cycles| - 1]);
      TargetedGrows(cycles);
      hide Targeted;
      NextId(Services(cycles[..|cycles| - 1]));
    }
  }

  lemma NextId(n: nat)
    ensures (n % 31 + 1) % 31 == (n + 1) % 31
  {
  }

  /** What the software has to keep to: it looks whether the last broadcast is on its way
      before it writes, it names a target before it starts, and it does not ask for CLEAR. */
  predicate Polite(c: Regs, address: nat, w: Write) {
    && (c.req || c.start ==> w.Idle?)
    && (w.Start? ==> c.msg.key.source == address && c.msg.svc != CLEAR)
  }

  predicate RegsOk(c: Regs, address: nat) {
    c.req || c.start ==> c.msg.key.source == address && c.msg.svc != CLEAR
  }

  // ---- Taking ----

  /** What the buffer keeps of a message. */
  datatype Item = Item(payload: nat, source: nat, producer: nat, ksvc: nat)

  function ItemOf(m: Msg): Item { Item(m.payload, m.key.source, m.producer, m.ksvc) }

  datatype Ring = Ring(slot: seq<Item>, head: nat, tail: nat, full: bool, empty: bool, ack: bool)

  predicate RingOk(b: Ring) {
    && b.head < |b.slot| && b.tail < |b.slot| && !(b.full && b.empty)
    && (b.full || b.empty <==> b.head == b.tail)
  }

  function Held(b: Ring): nat
    requires RingOk(b)
  {
    if b.full then |b.slot| else if b.head <= b.tail then b.tail - b.head else b.tail + |b.slot| - b.head
  }

  /** The messages in the buffer, oldest first. */
  function Queue(b: Ring): (q: seq<Item>)
    requires RingOk(b)
    ensures |q| == Held(b)
  {
    seq(Held(b), i requires 0 <= i < Held(b) => b.slot[if b.head + i < |b.slot| then b.head + i else b.head + i - |b.slot|])
  }

  /** A pop comes first; a message is stored in a cycle without one. */
  predicate Stores(b: Ring, req: bool, pop: bool) { !(pop && !b.empty) && req && !b.full && !b.ack }

  function RingStep(b: Ring, req: bool, m: Msg, pop: bool): (b': Ring)
    requires RingOk(b)
    ensures RingOk(b')
  {
    var n := |b.slot|;
    var c :=
      if pop && !b.empty then b.(head := RoundRobin.Inc(b.head, n), full := false, empty := RoundRobin.Inc(b.head, n) == b.tail)
      else if Stores(b, req, pop) then
        b.(slot := b.slot[b.tail := ItemOf(m)], tail := RoundRobin.Inc(b.tail, n), full := RoundRobin.Inc(b.tail, n) == b.head, empty := false, ack := true)
      else b;
    if req then c else c.(ack := false)
  }

  /** The ring is a queue: what is stored comes out, once and in order. */
  lemma RingIsQueue(b: Ring, req: bool, m: Msg, pop: bool)
    requires RingOk(b)
    ensures var q, q' := Queue(b), Queue(RingStep(b, req, m, pop));
      && (b.empty <==> q == []) && (b.full <==> |q| == |b.slot|)
      && q' == (if pop && q != [] then q[1..] else if req && !b.ack && |q| < |b.slot| then q + [ItemOf(m)] else q)
  {
  }

  class BrLiteBuffer {
    var ring: Ring

    constructor (size: nat, blank: Item)
      requires size > 0
      ensures RingOk(ring) && Queue(ring) == [] && !ring.ack && |ring.slot| == size
    {
      ring := Ring(seq(size, i => blank), 0, 0, false, true, false);
    }

    method BufferIn(req: bool, m: Msg, pop: bool)
      requires RingOk(ring)
      modifies this
      ensures RingOk(ring) && ring == RingStep(old(ring), req, m, pop)
      ensures Queue(ring) ==
        (if pop && old(Queue(ring)) != [] then old(Queue(ring))[1..]
         else if req && !old(ring.ack) && |old(Queue(ring))| < |ring.slot| then old(Queue(ring)) + [ItemOf(m)]
         else old(Queue(ring)))
    {
      RingIsQueue(ring, req, m, pop);
      var n, wasAcked := |ring.slot|, ring.ack;
      if pop && !ring.empty {
        var next := RoundRobin.Inc(ring.head, n);
        if next == ring.tail { ring := ring.(empty := true); }
        ring := ring.(head := next, full := false);
      } else if req && !ring.full && !wasAcked {
        ring := ring.(slot := ring.slot[ring.tail := ItemOf(m)]);
        var next := RoundRobin.Inc(ring.tail, n);
        if next == ring.head { ring := ring.(full := true); }
        ring := ring.(tail := next, empty := false, ack := true);
      }
      if !req { ring := ring.(ack := false); }
    }
  }

  // ---- The local port ----

  /** One cycle of the local port of router `r`, whose acknowledge after the edge is `acked`:
      software that keeps to `Polite` and the two components keep the contract under which
      the network is proved, and every message in the log has gone into the buffer. */
  lemma LocalPortIsSide(c: Regs, b: Ring, got: seq<Msg>, r: Router, acked: bool, w: Write, pop: bool) returns (got': seq<Msg>)
    requires Shape(r) && RingOk(b) && RegsOk(c, r.address) && Polite(c, r.address, w)
    ensures var c', b' := Settled(c, r.address, w, acked), RingStep(b, r.outp.req[LOCAL], r.outp.msg[LOCAL], pop);
      && SideStep(Side(c.req, c.msg, b.ack, got), r, acked, Side(c'.req, c'.msg, b'.ack, got'))
      && RegsOk(c', r.address) && RingOk(b')
      && (got' == got || (got' == got + [r.outp.msg[LOCAL]] && Queue(b') == Queue(b) + [ItemOf(r.outp.msg[LOCAL])]))
  {
    RingIsQueue(b, r.outp.req[LOCAL], r.outp.msg[LOCAL], pop);
    got' := if Stores(b, r.outp.req[LOCAL], pop) then got + [r.outp.msg[LOCAL]] else got;
  }
}
