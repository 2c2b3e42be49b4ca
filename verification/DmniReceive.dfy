/** What the DMA engine writes to memory: its ring of registers is a queue of sixteen words,
    and a receive of `n` words stores the first `n` of the queue, one after the other. */
module DmniReceive {
  import opened Dmni

  /** How many words the ring holds. When the indices meet, `addBuffer` tells full from empty. */
  function Count(r: RecvRegs): (n: nat)
    requires r.first < BUFFER_SIZE && r.last < BUFFER_SIZE
    ensures n <= BUFFER_SIZE
  {
    if r.first == r.last then (if r.addBuffer then BUFFER_SIZE else 0)
    else if r.first < r.last then r.last - r.first
    else r.last + BUFFER_SIZE - r.first
  }

  /** The register that holds the `i`-th oldest word. */
  function Slot(first: nat, i: nat): (j: nat)
    requires first < BUFFER_SIZE && i < BUFFER_SIZE
    ensures j < BUFFER_SIZE
  {
    if first + i < BUFFER_SIZE then first + i else first + i - BUFFER_SIZE
  }

  /** The words of the ring, oldest first. */
  function Queue(r: RecvRegs): (q: seq<nat>)
    requires |r.buffer| == BUFFER_SIZE && r.first < BUFFER_SIZE && r.last < BUFFER_SIZE
    ensures |q| == Count(r)
    ensures forall i :: 0 <= i < |q| ==> q[i] == r.buffer[Slot(r.first, i)]
  {
    seq<nat>(Count(r), i requires 0 <= i < Count(r) => r.buffer[Slot(r.first, i)])
  }

  function Pushed(r: RecvRegs, in_: Inputs): seq<nat> {
    if in_.rx && SlotAvailable(r) then [in_.dataIn] else []
  }

  function Popped(r: RecvRegs, a: ArbRegs): nat { if Pops(r, a) then 1 else 0 }

  /** The status outputs are exactly the queue's room and content. */
  lemma StatusIsExact(d: Regs)
    requires Shape(d)
    ensures SlotAvailable(d.rcv) <==> |Queue(d.rcv)| < BUFFER_SIZE
    ensures ReadAvailable(d.rcv) <==> 0 < |Queue(d.rcv)|
  {
  }

  lemma PushAppends(r: RecvRegs, in_: Inputs)
    requires |r.buffer| == BUFFER_SIZE && r.first < BUFFER_SIZE && r.last < BUFFER_SIZE
    ensures Queue(PushStep(r, in_)) == Queue(r) + Pushed(r, in_)
  {
    var p := PushStep(r, in_);
    if in_.rx && SlotAvailable(r) {
      assert Count(p) == Count(r) + 1;
      assert Slot(r.first, Count(r)) == r.last;
    }
  }

  lemma PopDropsFirst(p: RecvRegs, p': RecvRegs)
    requires |p.buffer| == BUFFER_SIZE && p.first < BUFFER_SIZE && p.last < BUFFER_SIZE && 0 < Count(p)
    requires p'.buffer == p.buffer && p'.last == p.last && p'.first == (p.first + 1) % BUFFER_SIZE && !p'.addBuffer
    ensures Queue(p') == Queue(p)[1..]
  {
    assert Count(p') == Count(p) - 1;
    forall i | 0 <= i < Count(p')
      ensures Slot(p'.first, i) == Slot(p.first, i + 1)
    {
    }
  }

  lemma SameQueue(p: RecvRegs, p': RecvRegs)
    requires |p.buffer| == BUFFER_SIZE && p.first < BUFFER_SIZE && p.last < BUFFER_SIZE
    requires p'.buffer == p.buffer && p'.last == p.last && p'.first == p.first && p'.addBuffer == p.addBuffer
    ensures Queue(p') == Queue(p)
  {
  }

  /** The ring refines a queue in every cycle, with a push, a pop, both or neither. */
  lemma RingIsQueue(d: Regs, in_: Inputs)
    requires Shape(d)
    ensures Popped(d.rcv, d.arb) <= |Queue(d.rcv)|
    ensures Queue(Step(d, in_).rcv) == Queue(d.rcv)[Popped(d.rcv, d.arb)..] + Pushed(d.rcv, in_)
    ensures Pops(d.rcv, d.arb) ==> d.rcv.buffer[d.rcv.first] == Queue(d.rcv)[0]
  {
    hide Queue, Pushed, Count;
    var r, p, r' := d.rcv, PushStep(d.rcv, in_), Step(d, in_).rcv;
    StatusIsExact(d);
    PushAppends(r, in_);
    if Pops(r, d.arb) {
      assert 0 < |Queue(r)| <= |Queue(p)|;
      PopDropsFirst(p, r');
      assert Queue(p)[1..] == Queue(r)[1..] + Pushed(r, in_);
    } else {
      SameQueue(p, r');
      assert Queue(r)[0..] == Queue(r);
    }
  }

  /** A cycle of the engine, the flits it has taken from the network since the start of the
      job, and the writes that have reached memory since then. */
  datatype World = World(d: Regs, inp: Inputs, arrived: seq<nat>, written: seq<(nat, nat)>)

  /** The memory write that is on the port in this cycle, if any. */
  function Writes(d: Regs): seq<(nat, nat)> {
    if MemUse(d).Write? then [(MemUse(d).address, MemUse(d).data)] else []
  }

  ghost predicate Next(w: World, w': World) {
    && Shape(w.d)
    && w'.d == Step(w.d, w.inp)
    && w'.arrived == w.arrived + Pushed(w.d.rcv, w.inp)
    && w'.written == w.written + Writes(w.d)
  }

  /** The cycle in which the processor starts a receive of `size` words to `address`. */
  ghost predicate Starts(w: World, address: nat, size: nat) {
    && DmniInv(w.d) && address < WORD && size < WORD && w.arrived == [] && w.written == []
    && w.d.rcv.state == WAIT && w.inp.start && w.inp.receives
    && w.inp.address == address && w.inp.size == size
  }

  /** The size register counts down to zero from one less: size zero stands for 2^32. */
  function Amount(size: nat): nat { Minus(size, 1) + 1 }

  /** The writes that store `s` at consecutive words from `address` on. */
  function Stores(address: nat, s: seq<nat>): (r: seq<(nat, nat)>)
    ensures |r| == |s|
    ensures forall i :: 0 <= i < |s| ==> r[i] == (Plus(address, WORD_SIZE * i), s[i])
  {
    seq<(nat, nat)>(|s|, i requires 0 <= i < |s| => (Plus(address, WORD_SIZE * i), s[i]))
  }

  /** `all` is what was queued at the start and what has arrived since; `taken` words of it
      have left the ring. When copying, each is in memory or on the memory port. */
  ghost predicate Progress(w: World, address: nat, size: nat, all: seq<nat>, taken: nat) {
    var r := w.d.rcv;
    && Shape(w.d) && taken <= |all| && taken <= Amount(size)
    && Queue(r) == all[taken..]
    && (r.state in {COPY_TO_MEM, DROP_MESSAGE} ==> taken < Amount(size) && r.size == Amount(size) - 1 - taken)
    && (r.state == END ==> taken == Amount(size))
    && (r.state == COPY_TO_MEM ==> address != 0)
    && (r.state == DROP_MESSAGE ==> address == 0)
    && (if address == 0 then w.written == [] && !r.byteWe
        else
          && (r.state == COPY_TO_MEM ==> r.address == Minus(Plus(address, WORD_SIZE * taken), WORD_SIZE))
          && (r.byteWe ==> r.state in {COPY_TO_MEM, END})
          && (r.byteWe ==> 0 < taken && r.dataWrite == all[taken - 1] && r.address == Plus(address, WORD_SIZE * (taken - 1)))
          && w.written == Stores(address, all[..if r.byteWe then taken - 1 else taken]))
  }

  ghost predicate RecvInv(w: World, address: nat, size: nat, queued: seq<nat>) {
    && DmniInv(w.d) && address < WORD && size < WORD
    && exists taken: nat :: Progress(w, address, size, queued + w.arrived, taken)
  }

  lemma StartEstablishes(w: World, w': World, address: nat, size: nat)
    requires Starts(w, address, size) && Next(w, w')
    ensures RecvInv(w', address, size, Queue(w.d.rcv))
  {
    KeepsDmniInv(w.d, w.inp);
    RingIsQueue(w.d, w.inp);
    var all := Queue(w.d.rcv) + w'.arrived;
    assert all[..0] == [];
    assert Progress(w', address, size, all, 0);
  }

  lemma StoreOneMore(address: nat, s: seq<nat>, x: nat)
    ensures Stores(address, s + [x]) == Stores(address, s) + [(Plus(address, WORD_SIZE * |s|), x)]
  {
  }

  lemma AddressSteps(address: nat, i: nat)
    ensures Plus(Minus(Plus(address, WORD_SIZE * i), WORD_SIZE), WORD_SIZE) == Plus(address, WORD_SIZE * i)
    ensures Plus(address, WORD_SIZE * i) == Minus(Plus(address, WORD_SIZE * (i + 1)), WORD_SIZE)
  {
  }

  /** What was on the memory port has reached memory in the next cycle. */
  lemma PortDrains(w: World, w': World, address: nat, size: nat, all: seq<nat>, taken: nat)
    requires DmniInv(w.d) && Next(w, w') && Progress(w, address, size, all, taken) && address != 0
    ensures w'.written == Stores(address, all[..taken])
  {
    if w.d.rcv.byteWe {
      assert all[..taken] == all[..taken - 1] + [all[taken - 1]];
      StoreOneMore(address, all[..taken - 1], all[taken - 1]);
    }
  }

  lemma SizeStep(left: nat)
    requires 0 < left < WORD
    ensures Minus(left, 1) == left - 1
  {
  }

  lemma QueueAfter(w: World, w': World, address: nat, size: nat, all: seq<nat>, all': seq<nat>, taken: nat)
    requires DmniInv(w.d) && Next(w, w') && Progress(w, address, size, all, taken)
    requires all' == all + Pushed(w.d.rcv, w.inp)
    ensures var k := Popped(w.d.rcv, w.d.arb);
            taken + k <= |all| && Queue(w'.d.rcv) == all'[taken + k..] && all'[..taken] == all[..taken]
  {
    var k := Popped(w.d.rcv, w.d.arb);
    RingIsQueue(w.d, w.inp);
    hide Queue, Plus, Minus, Stores, Pushed, Pops, SlotAvailable;
    assert all'[taken + k..] == all[taken + k..] + Pushed(w.d.rcv, w.inp);
    assert all'[..taken] == all[..taken];
  }

  /** One cycle of a receive, with the ring's step and the port's step already accounted for. */
  lemma KeepsProgress(w: World, w': World, address: nat, size: nat, all: seq<nat>, all': seq<nat>, taken: nat)
    requires DmniInv(w.d) && Next(w, w') && address < WORD && size < WORD && w.d.rcv.state in {COPY_TO_MEM, DROP_MESSAGE}
    requires Progress(w, address, size, all, taken)
    requires all' == all + Pushed(w.d.rcv, w.inp) && w'.arrived == w.arrived + Pushed(w.d.rcv, w.inp)
    ensures Progress(w', address, size, all', taken + Popped(w.d.rcv, w.d.arb))
  {
    var k := Popped(w.d.rcv, w.d.arb);
    QueueAfter(w, w', address, size, all, all', taken);
    hide Queue, Plus, Minus, Stores, Pushed, Pops, SlotAvailable;
    AddressSteps(address, taken);
    if w.d.rcv.size > 0 { SizeStep(w.d.rcv.size); }
    if address != 0 {
      PortDrains(w, w', address, size, all, taken);
    }
  }

  lemma KeepsRecvInv(w: World, w': World, address: nat, size: nat, queued: seq<nat>)
    requires RecvInv(w, address, size, queued) && Next(w, w') && w.d.rcv.state in {COPY_TO_MEM, DROP_MESSAGE}
    ensures RecvInv(w', address, size, queued)
  {
    hide Progress, Queue, Step, Popped, Pushed;
    KeepsDmniInv(w.d, w.inp);
    var all, all' := queued + w.arrived, queued + w'.arrived;
    assert all' == all + Pushed(w.d.rcv, w.inp);
    var taken: nat :| Progress(w, address, size, all, taken);
    KeepsProgress(w, w', address, size, all, all', taken);
  }

  /** A run of one receive: it starts in cycle 0 and has not returned to WAIT before the last. */
  ghost predicate IsRecvRun(ws: seq<World>, address: nat, size: nat) {
    && 0 < |ws| && Starts(ws[0], address, size) && (forall t :: 0 <= t < |ws| ==> Shape(ws[t].d))
    && (forall t :: 0 <= t < |ws| - 1 ==> Next(ws[t], ws[t + 1]))
    && (forall t :: 1 <= t < |ws| - 1 ==> ws[t].d.rcv.state in {COPY_TO_MEM, DROP_MESSAGE, END})
  }

  lemma {:induction false} RunKeepsRecvInv(ws: seq<World>, address: nat, size: nat, t: nat)
    requires IsRecvRun(ws, address, size) && 1 <= t < |ws|
    requires forall u :: 1 <= u < t ==> ws[u].d.rcv.state in {COPY_TO_MEM, DROP_MESSAGE}
    ensures RecvInv(ws[t], address, size, Queue(ws[0].d.rcv))
  {
    hide RecvInv, Queue;
    assert Next(ws[t - 1], ws[t]);
    if t == 1 {
      StartEstablishes(ws[0], ws[1], address, size);
    } else {
      RunKeepsRecvInv(ws, address, size, t - 1);
      KeepsRecvInv(ws[t - 1], ws[t], address, size, Queue(ws[0].d.rcv));
    }
  }

  /** Exact receive. When a receive reaches END, exactly its amount of words has left the
      ring; one cycle later memory has seen exactly these words, the first of those queued
      at the start and arrived since, each written once to the next word from `address`,
      or none at all when the address is zero. Preemptions only take time. */
  lemma ReceivesExactly(ws: seq<World>, address: nat, size: nat, t: nat)
    requires IsRecvRun(ws, address, size) && 1 <= t < |ws| - 1
    requires forall u :: 1 <= u < t ==> ws[u].d.rcv.state in {COPY_TO_MEM, DROP_MESSAGE}
    requires ws[t].d.rcv.state == END
    ensures var all := Queue(ws[0].d.rcv) + ws[t].arrived;
            && Amount(size) <= |all|
            && Queue(ws[t].d.rcv) == all[Amount(size)..]
            && ws[t + 1].written == if address == 0 then [] else Stores(address, all[..Amount(size)])
    ensures ws[t + 1].d.rcv.state == WAIT && !ws[t + 1].d.rcv.byteWe
  {
    RunKeepsRecvInv(ws, address, size, t);
    assert Next(ws[t], ws[t + 1]);
    var all := Queue(ws[0].d.rcv) + ws[t].arrived;
    var taken: nat :| Progress(ws[t], address, size, all, taken);
    if address != 0 {
      PortDrains(ws[t], ws[t + 1], address, size, all, taken);
    }
  }

  /** The amount is the size that was asked for, unless that was zero. */
  lemma AmountIsSize(size: nat)
    requires size < WORD
    ensures Amount(size) == size <==> 0 < size
  {
  }
}
