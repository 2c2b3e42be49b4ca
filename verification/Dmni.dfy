/** The DMA engine between a processing element's memory and its local network port: the
    arbiter that time-shares the memory, the sender and the receiver, as functions of the
    registers and the inputs of one cycle, and the class that runs them on its fields. */
module Dmni {

  /** Registers of addresses and sizes are 32 bits wide and wrap. */
  const WORD: nat := 0x1_0000_0000
  const WORD_SIZE: nat := 4
  const BUFFER_SIZE: nat := 16
  const DMNI_TIMER: nat := 16

  datatype ArbState = ROUND | SEND | RECEIVE | BR_RECEIVE
  datatype DmaState = WAIT | LOAD | COPY_FROM_MEM | COPY_TO_MEM | DROP_MESSAGE | END

  datatype ArbRegs = ArbRegs(arb: ArbState, last: ArbState, timer: nat,
                             readEnable: bool, writeEnable: bool, brEnable: bool)

  datatype SendRegs = SendRegs(state: DmaState, active: bool, address: nat, address2: nat, size: nat, size2: nat,
                               tx: bool, data: nat)

  /** `byteWe` stands for the four equal byte enables. */
  datatype RecvRegs = RecvRegs(state: DmaState, active: bool, buffer: seq<nat>, first: nat, last: nat, addBuffer: bool,
                               address: nat, size: nat, byteWe: bool, dataWrite: nat)

  datatype Regs = Regs(arb: ArbRegs, snd: SendRegs, rcv: RecvRegs)

  /** What the engine sees in one cycle: the network port, the word read from memory, the
      configuration registers, and what the monitor receiver wants of the arbiter. */
  datatype Inputs = Inputs(credit: bool, rx: bool, dataIn: nat, memData: nat,
                           start: bool, receives: bool, address: nat, address2: nat, size: nat, size2: nat,
                           brWants: bool, brDone: bool)

  predicate Shape(d: Regs) {
    |d.rcv.buffer| == BUFFER_SIZE && d.rcv.first < BUFFER_SIZE && d.rcv.last < BUFFER_SIZE
  }

  /** Addition and subtraction in a 32-bit register. */
  function Plus(a: nat, b: nat): nat { (a + b) % WORD }

  function Minus(a: nat, b: nat): nat
    requires b <= WORD
  {
    (a + WORD - b) % WORD
  }

  function Grant(a: ArbRegs, to: ArbState): ArbRegs {
    match to
    case SEND => a.(arb := SEND, readEnable := true)
    case RECEIVE => a.(arb := RECEIVE, writeEnable := true)
    case BR_RECEIVE => a.(arb := BR_RECEIVE, brEnable := true)
    case ROUND => a
  }

  /** Process `arbiter`. */
  function ArbStep(d: Regs, in_: Inputs): ArbRegs {
    var a := d.arb;
    var copies := d.rcv.state == COPY_TO_MEM;
    match a.arb
    case ROUND => (
      match a.last
      case SEND =>
        if copies then Grant(a, RECEIVE) else if in_.brWants then Grant(a, BR_RECEIVE)
        else if d.snd.active then Grant(a, SEND) else a
      case RECEIVE =>
        if in_.brWants then Grant(a, BR_RECEIVE) else if d.snd.active then Grant(a, SEND)
        else if copies then Grant(a, RECEIVE) else a
      case BR_RECEIVE =>
        if d.snd.active then Grant(a, SEND) else if copies then Grant(a, RECEIVE)
        else if in_.brWants then Grant(a, BR_RECEIVE) else a
      case ROUND => a)
    case SEND =>
      if d.snd.state == END || (a.timer >= DMNI_TIMER && d.rcv.active) then
        a.(timer := 0, arb := ROUND, last := SEND, readEnable := false)
      else a.(timer := (a.timer + 1) % 256)
    case RECEIVE =>
      if d.rcv.state == END || (a.timer >= DMNI_TIMER && d.snd.active) then
        a.(timer := 0, arb := ROUND, last := RECEIVE, writeEnable := false)
      else a.(timer := (a.timer + 1) % 256)
    case BR_RECEIVE =>
      if in_.brDone then a.(arb := ROUND, last := BR_RECEIVE, brEnable := false) else a
  }

  /** The memory port follows the arbiter, and keeps following the last winner during the
      round in between. */
  predicate MemFollowsSend(a: ArbRegs) { a.arb == SEND || (a.arb == ROUND && a.last == SEND) }

  predicate MemFollowsReceive(a: ArbRegs) { a.arb == RECEIVE || (a.arb == ROUND && a.last == RECEIVE) }

  /** What the engine does with the memory in one cycle; the monitor receiver's part is its own. */
  datatype MemPort = Read(address: nat) | Write(address: nat, data: nat) | Monitor

  /** Process `mem_address_update`. */
  function MemUse(d: Regs): MemPort {
    if MemFollowsSend(d.arb) then Read(d.snd.address)
    else if MemFollowsReceive(d.arb) then
      if d.rcv.byteWe then Write(d.rcv.address, d.rcv.dataWrite) else Read(d.rcv.address)
    else Monitor
  }

  /** Where the second segment is read: an address whose bits 30..28 are not all zero is
      taken one word low. */
  function SecondStart(address2: nat): nat {
    if (address2 / 0x1000_0000) % 8 == 0 then address2 else Minus(address2, WORD_SIZE)
  }

  /** Process `send`. */
  function SendStep(s: SendRegs, a: ArbRegs, in_: Inputs): SendRegs {
    match s.state
    case WAIT =>
      if in_.start && !in_.receives then
        s.(address := in_.address, address2 := in_.address2, size := in_.size, size2 := in_.size2, active := true, state := LOAD)
      else s
    case LOAD =>
      if in_.credit && a.readEnable then s.(address := Plus(s.address, WORD_SIZE), state := COPY_FROM_MEM) else s
    case COPY_FROM_MEM =>
      if in_.credit && a.readEnable then
        if s.size > 0 then
          s.(tx := true, data := in_.memData, address := Plus(s.address, WORD_SIZE), size := s.size - 1)
        else if s.size2 > 0 then
          s.(size := s.size2, size2 := 0, tx := false, address := SecondStart(s.address2), state := LOAD)
        else s.(tx := false, state := END)
      else if !in_.credit then
        s.(size := Plus(s.size, 1), address := Minus(s.address, WORD_SIZE + WORD_SIZE), tx := false, state := LOAD)
      else s.(address := Minus(s.address, WORD_SIZE), tx := false, state := LOAD)
    case END =>
      s.(active := false, address := 0, address2 := 0, size := 0, size2 := 0, state := WAIT)
    case _ => s
  }

  /** Process `buffer_control`. */
  predicate SlotAvailable(r: RecvRegs) { !(r.first == r.last && r.addBuffer) }

  predicate ReadAvailable(r: RecvRegs) { !(r.first == r.last && !r.addBuffer) }

  /** The first half of process `receive`: take a flit from the network. */
  function PushStep(r: RecvRegs, in_: Inputs): RecvRegs
    requires |r.buffer| == BUFFER_SIZE && r.last < BUFFER_SIZE
  {
    if in_.rx && SlotAvailable(r) then
      r.(buffer := r.buffer[r.last := in_.dataIn], addBuffer := true, last := (r.last + 1) % BUFFER_SIZE)
    else r
  }

  predicate Pops(r: RecvRegs, a: ArbRegs) {
    ReadAvailable(r) && ((r.state == COPY_TO_MEM && a.writeEnable) || r.state == DROP_MESSAGE)
  }

  /** Process `receive`; where both halves drive a signal the second one wins. */
  function RecvStep(r: RecvRegs, a: ArbRegs, in_: Inputs): RecvRegs
    requires |r.buffer| == BUFFER_SIZE && r.first < BUFFER_SIZE && r.last < BUFFER_SIZE
  {
    var p := PushStep(r, in_);
    var left := Minus(r.size, 1);
    match r.state
    case WAIT =>
      if in_.start && in_.receives then
        p.(address := Minus(in_.address, WORD_SIZE), size := Minus(in_.size, 1), active := true,
           state := if in_.address == 0 then DROP_MESSAGE else COPY_TO_MEM)
      else p
    case COPY_TO_MEM =>
      if Pops(r, a) then
        p.(byteWe := true, dataWrite := r.buffer[r.first], first := (r.first + 1) % BUFFER_SIZE, addBuffer := false,
           address := Plus(r.address, WORD_SIZE), size := left, state := if r.size == 0 then END else COPY_TO_MEM)
      else p.(byteWe := false)
    case DROP_MESSAGE =>
      var q := p.(byteWe := false, dataWrite := 0, address := 0);
      if Pops(r, a) then
        q.(first := (r.first + 1) % BUFFER_SIZE, addBuffer := false, size := left,
           state := if r.size == 0 then END else DROP_MESSAGE)
      else q
    case END =>
      p.(active := false, byteWe := false, address := 0, size := 0, state := WAIT)
    case _ => p
  }

  /** One clock edge. */
  function Step(d: Regs, in_: Inputs): (d': Regs)
    requires Shape(d)
    ensures Shape(d')
  {
    Regs(ArbStep(d, in_), SendStep(d.snd, d.arb, in_), RecvStep(d.rcv, d.arb, in_))
  }

  predicate IsReset(d: Regs) {
    && Shape(d)
    && d.arb == ArbRegs(ROUND, SEND, 0, false, false, false)
    && d.snd.state == WAIT && !d.snd.active && !d.snd.tx
    && d.rcv.state == WAIT && !d.rcv.active && d.rcv.first == d.rcv.last == 0 && !d.rcv.addBuffer
    && !d.rcv.byteWe
  }

  /** The grants mirror the arbiter's state, nothing is transmitted outside the copy state,
      and a memory write is enabled only while the memory port follows the receiver. */
  predicate DmniInv(d: Regs) {
    && Shape(d)
    && d.arb.readEnable == (d.arb.arb == SEND)
    && d.arb.writeEnable == (d.arb.arb == RECEIVE)
    && d.arb.brEnable == (d.arb.arb == BR_RECEIVE)
    && d.snd.state in {WAIT, LOAD, COPY_FROM_MEM, END}
    && (d.snd.tx ==> d.snd.state == COPY_FROM_MEM)
    && d.rcv.state in {WAIT, COPY_TO_MEM, DROP_MESSAGE, END}
    && (d.rcv.byteWe ==> d.rcv.state in {COPY_TO_MEM, END} && MemFollowsReceive(d.arb))
  }

  lemma KeepsDmniInv(d: Regs, in_: Inputs)
    requires DmniInv(d)
    ensures DmniInv(Step(d, in_))
  {
  }

  /** The engine with its registers as fields; processes read the current values and drive
      the `next` ones. */
  class DmniModule {
    var arb: ArbRegs
    var snd: SendRegs
    var rcv: RecvRegs
    var nextArb: ArbRegs
    var nextSnd: SendRegs
    var nextRcv: RecvRegs

    function Current(): Regs
      reads this
    {
      Regs(arb, snd, rcv)
    }

    constructor (d: Regs)
      ensures Current() == d && nextArb == arb && nextSnd == snd && nextRcv == rcv
    {
      arb, snd, rcv := d.arb, d.snd, d.rcv;
      nextArb, nextSnd, nextRcv := d.arb, d.snd, d.rcv;
    }

    method Arbiter(in_: Inputs)
      requires nextArb == arb
      modifies this`nextArb
      ensures nextArb == ArbStep(Current(), in_)
    {
      match arb.arb {
        case ROUND =>
          var copies := rcv.state == COPY_TO_MEM;
          match arb.last {
            case SEND =>
              if copies { nextArb := arb.(arb := RECEIVE, writeEnable := true); }
              else if in_.brWants { nextArb := arb.(arb := BR_RECEIVE, brEnable := true); }
              else if snd.active { nextArb := arb.(arb := SEND, readEnable := true); }
            case RECEIVE =>
              if in_.brWants { nextArb := arb.(arb := BR_RECEIVE, brEnable := true); }
              else if snd.active { nextArb := arb.(arb := SEND, readEnable := true); }
              else if copies { nextArb := arb.(arb := RECEIVE, writeEnable := true); }
            case BR_RECEIVE =>
              if snd.active { nextArb := arb.(arb := SEND, readEnable := true); }
              else if copies { nextArb := arb.(arb := RECEIVE, writeEnable := true); }
              else if in_.brWants { nextArb := arb.(arb := BR_RECEIVE, brEnable := true); }
            case ROUND =>
          }
        case SEND =>
          if snd.state == END || (arb.timer >= DMNI_TIMER && rcv.active) {
            nextArb := arb.(timer := 0, arb := ROUND, last := SEND, readEnable := false);
          } else {
            nextArb := arb.(timer := (arb.timer + 1) % 256);
          }
        case RECEIVE =>
          if rcv.state == END || (arb.timer >= DMNI_TIMER && snd.active) {
            nextArb := arb.(timer := 0, arb := ROUND, last := RECEIVE, writeEnable := false);
          } else {
            nextArb := arb.(timer := (arb.timer + 1) % 256);
          }
        case BR_RECEIVE =>
          if in_.brDone { nextArb := arb.(arb := ROUND, last := BR_RECEIVE, brEnable := false); }
      }
    }

    method Send(in_: Inputs)
      requires nextSnd == snd
      modifies this`nextSnd
      ensures nextSnd == SendStep(snd, arb, in_)
    {
      match snd.state {
        case WAIT =>
          if in_.start && !in_.receives {
            nextSnd := nextSnd.(address := in_.address, address2 := in_.address2);
            nextSnd := nextSnd.(size := in_.size, size2 := in_.size2);
            nextSnd := nextSnd.(active := true, state := LOAD);
          }
        case LOAD =>
          if in_.credit && arb.readEnable {
            nextSnd := nextSnd.(address := Plus(snd.address, WORD_SIZE), state := COPY_FROM_MEM);
          }
        case COPY_FROM_MEM =>
          if in_.credit && arb.readEnable {
            if snd.size > 0 {
              nextSnd := nextSnd.(tx := true, data := in_.memData);
              nextSnd := nextSnd.(address := Plus(snd.address, WORD_SIZE), size := snd.size - 1);
            } else if snd.size2 > 0 {
              nextSnd := nextSnd.(size := snd.size2, size2 := 0, tx := false);
              if (snd.address2 / 0x1000_0000) % 8 == 0 {
                nextSnd := nextSnd.(address := snd.address2);
              } else {
                nextSnd := nextSnd.(address := Minus(snd.address2, WORD_SIZE));
              }
              nextSnd := nextSnd.(state := LOAD);
            } else {
              nextSnd := nextSnd.(tx := false, state := END);
            }
          } else {
            if !in_.credit {
              nextSnd := nextSnd.(size := Plus(snd.size, 1), address := Minus(snd.address, WORD_SIZE + WORD_SIZE));
            } else {
              nextSnd := nextSnd.(address := Minus(snd.address, WORD_SIZE));
            }
            nextSnd := nextSnd.(tx := false, state := LOAD);
          }
        case END =>
          nextSnd := nextSnd.(active := false, address := 0, address2 := 0, size := 0, size2 := 0, state := WAIT);
        case _ =>
      }
    }

    method Receive(in_: Inputs)
      requires Shape(Current()) && nextRcv == rcv
      modifies this`nextRcv
      ensures nextRcv == RecvStep(rcv, arb, in_)
    {
      if in_.rx && SlotAvailable(rcv) {
        nextRcv := nextRcv.(buffer := rcv.buffer[rcv.last := in_.dataIn]);
        nextRcv := nextRcv.(addBuffer := true, last := (rcv.last + 1) % BUFFER_SIZE);
      }
      match rcv.state {
        case WAIT =>
          if in_.start && in_.receives {
            nextRcv := nextRcv.(address := Minus(in_.address, WORD_SIZE), size := Minus(in_.size, 1), active := true);
            if in_.address == 0 {
              nextRcv := nextRcv.(state := DROP_MESSAGE);
            } else {
              nextRcv := nextRcv.(state := COPY_TO_MEM);
            }
          }
        case COPY_TO_MEM =>
          if arb.writeEnable && ReadAvailable(rcv) {
            nextRcv := nextRcv.(byteWe := true, dataWrite := rcv.buffer[rcv.first]);
            nextRcv := nextRcv.(first := (rcv.first + 1) % BUFFER_SIZE, addBuffer := false);
            nextRcv := nextRcv.(address := Plus(rcv.address, WORD_SIZE), size := Minus(rcv.size, 1));
            if rcv.size == 0 { nextRcv := nextRcv.(state := END); }
          } else {
            nextRcv := nextRcv.(byteWe := false);
          }
        case DROP_MESSAGE =>
          nextRcv := nextRcv.(byteWe := false, dataWrite := 0, address := 0);
          if ReadAvailable(rcv) {
            nextRcv := nextRcv.(first := (rcv.first + 1) % BUFFER_SIZE, addBuffer := false, size := Minus(rcv.size, 1));
            if rcv.size == 0 { nextRcv := nextRcv.(state := END); }
          }
        case END =>
          nextRcv := nextRcv.(active := false, byteWe := false, address := 0, size := 0, state := WAIT);
        case _ =>
      }
    }

    /** One clock edge; the three processes may run in any order. */
    method ClockEdge(in_: Inputs, sendFirst: bool)
      requires Shape(Current()) && nextArb == arb && nextSnd == snd && nextRcv == rcv
      modifies this
      ensures Current() == Step(old(Current()), in_)
      ensures nextArb == arb && nextSnd == snd && nextRcv == rcv
    {
      if sendFirst {
        Send(in_); Receive(in_); Arbiter(in_);
      } else {
        Arbiter(in_); Receive(in_); Send(in_);
      }
      arb, snd, rcv := nextArb, nextSnd, nextRcv;
    }
  }
}
