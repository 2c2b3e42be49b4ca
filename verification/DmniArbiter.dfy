/** Who gets the memory: under the arbiter of the DMA engine the sender and the receiver each
    wait for a bounded time only. The receiver of monitor messages may wait for ever, and it is
    proved exactly when. */
module DmniArbiter {
  import opened Dmni
  import RoundRobin

  /** A cycle, and the number of cycles the monitor receiver still keeps a grant it has. */
  datatype World = World(d: Regs, inp: Inputs, left: nat)

  /** Besides the grants: a job is active from its start to its END, the timer runs only
      during a grant that can be taken away, and somebody was last. A sender ends under its
      grant or just after it, and the receiver has a grant only while it copies. */
  predicate ArbInv(d: Regs) {
    && DmniInv(d)
    && (d.snd.state == END ==> d.arb.arb == SEND || (d.arb.arb == ROUND && d.arb.last == SEND))
    && (d.arb.arb == RECEIVE ==> d.rcv.state in {COPY_TO_MEM, END})
    && d.snd.active == (d.snd.state != WAIT) && d.rcv.active == (d.rcv.state != WAIT)
    && d.arb.last != ROUND && d.arb.timer < 256
    && (d.arb.arb in {ROUND, BR_RECEIVE} ==> d.arb.timer == 0)
  }

  lemma ResetEstablishes(d: Regs)
    requires IsReset(d)
    ensures ArbInv(d)
  {
  }

  lemma KeepsArbInv(d: Regs, in_: Inputs)
    requires ArbInv(d)
    ensures ArbInv(Step(d, in_))
  {
    KeepsDmniInv(d, in_);
  }

  /** The monitor receiver gives a grant back within `most` cycles. */
  ghost predicate Next(w: World, w': World, most: nat) {
    && Shape(w.d)
    && w'.d == Step(w.d, w.inp) && w'.left <= most
    && (w.d.arb.arb == BR_RECEIVE && !w.inp.brDone ==> w'.left < w.left)
  }

  ghost predicate IsRun(ws: seq<World>, most: nat) {
    && 0 < |ws| && IsReset(ws[0].d) && ws[0].left <= most
    && forall t :: 0 <= t < |ws| - 1 ==> Next(ws[t], ws[t + 1], most)
  }

  lemma {:induction false} RunKeepsArbInv(ws: seq<World>, most: nat, t: nat)
    requires IsRun(ws, most) && t < |ws|
    ensures ArbInv(ws[t].d) && ws[t].left <= most
  {
    hide ArbInv, IsReset, Step, Shape;
    if t == 0 {
      ResetEstablishes(ws[0].d);
    } else {
      RunKeepsArbInv(ws, most, t - 1);
      assert Next(ws[t - 1], ws[t], most);
      KeepsArbInv(ws[t - 1].d, ws[t - 1].inp);
    }
  }

  /** Cycles a grant lasts once the other side is active. */
  function Rest(timer: nat): nat { if timer >= DMNI_TIMER then 1 else DMNI_TIMER + 1 - timer }

  predicate SendWaits(d: Regs) { d.snd.state in {LOAD, COPY_FROM_MEM} && !d.arb.readEnable }

  predicate ReceiveWaits(d: Regs) { d.rcv.state == COPY_TO_MEM && !d.arb.writeEnable }

  /** How long the sender has to wait, by the state of the arbiter. */
  function SendPatience(w: World, most: nat): nat {
    match w.d.arb.arb
    case BR_RECEIVE => w.left + 2
    case RECEIVE => Rest(w.d.arb.timer) + most + 3
    case _ => if w.d.arb.last == BR_RECEIVE then 1 else if w.d.arb.last == RECEIVE then most + 3 else most + DMNI_TIMER + 5
  }

  function ReceivePatience(w: World, most: nat): nat {
    match w.d.arb.arb
    case BR_RECEIVE => w.left + DMNI_TIMER + 4
    case SEND => Rest(w.d.arb.timer) + 1
    case _ => if w.d.arb.last == SEND then 1 else if w.d.arb.last == BR_RECEIVE then DMNI_TIMER + 3 else most + DMNI_TIMER + 5
  }

  /** Every cycle of waiting brings the grant nearer. */
  lemma SendPatienceShrinks(w: World, w': World, most: nat)
    requires ArbInv(w.d) && w.left <= most && Next(w, w', most) && SendWaits(w.d)
    ensures SendWaits(w'.d) ==> SendPatience(w', most) < SendPatience(w, most)
    ensures !SendWaits(w'.d) ==> w'.d.arb.readEnable
  {
  }

  lemma ReceivePatienceShrinks(w: World, w': World, most: nat)
    requires ArbInv(w.d) && w.left <= most && Next(w, w', most) && ReceiveWaits(w.d)
    ensures ReceiveWaits(w'.d) ==> ReceivePatience(w', most) < ReceivePatience(w, most)
    ensures !ReceiveWaits(w'.d) ==> w'.d.arb.writeEnable
  {
  }

  /** A sender that needs the memory has it within most + 21 cycles. */
  lemma {:induction false} SendIsGranted(ws: seq<World>, most: nat, t: nat)
    requires IsRun(ws, most) && t < |ws| && SendWaits(ws[t].d)
    requires t + SendPatience(ws[t], most) < |ws|
    ensures SendPatience(ws[t], most) <= most + 21
    ensures exists u :: t < u <= t + SendPatience(ws[t], most) && ws[u].d.arb.readEnable
    decreases SendPatience(ws[t], most)
  {
    RunKeepsArbInv(ws, most, t);
    hide IsRun, ArbInv, Step;
    assert Next(ws[t], ws[t + 1], most);
    SendPatienceShrinks(ws[t], ws[t + 1], most);
    if SendWaits(ws[t + 1].d) {
      SendIsGranted(ws, most, t + 1);
    }
  }

  /** And so does a receiver. */
  lemma {:induction false} ReceiveIsGranted(ws: seq<World>, most: nat, t: nat)
    requires IsRun(ws, most) && t < |ws| && ReceiveWaits(ws[t].d)
    requires t + ReceivePatience(ws[t], most) < |ws|
    ensures ReceivePatience(ws[t], most) <= most + 21
    ensures exists u :: t < u <= t + ReceivePatience(ws[t], most) && ws[u].d.arb.writeEnable
    decreases ReceivePatience(ws[t], most)
  {
    RunKeepsArbInv(ws, most, t);
    hide IsRun, ArbInv, Step;
    assert Next(ws[t], ws[t + 1], most);
    ReceivePatienceShrinks(ws[t], ws[t + 1], most);
    if ReceiveWaits(ws[t + 1].d) {
      ReceiveIsGranted(ws, most, t + 1);
    }
  }

  // ---- Turns ----

  /** The three clients in the order of the round. */
  function Client(i: nat): ArbState
    requires i < 3
  {
    match i case 0 => SEND case 1 => RECEIVE case _ => BR_RECEIVE
  }

  /** A free arbiter scans its clients from the one after the last winner. */
  lemma RoundIsFair(d: Regs, in_: Inputs, last: nat)
    requires Shape(d) && last < 3 && d.arb.arb == ROUND && d.arb.last == Client(last)
    ensures var asks := [d.snd.active, d.rcv.state == COPY_TO_MEM, in_.brWants];
      Step(d, in_).arb.arb == if true in asks then Client(RoundRobin.Next(asks, last)) else ROUND
  {
    hide RecvStep, SendStep, RoundRobin.Next;
    var asks := [d.snd.active, d.rcv.state == COPY_TO_MEM, in_.brWants];
    NextOfThree(asks, last);
    assert true in asks <==> asks[0] || asks[1] || asks[2];
  }

  lemma NextOfThree(asks: seq<bool>, last: nat)
    requires |asks| == 3 && last < 3
    ensures RoundRobin.Next(asks, last) ==
      if asks[(last + 1) % 3] then (last + 1) % 3 else if asks[(last + 2) % 3] then (last + 2) % 3 else last
  {
    RoundRobin.NextIsNearest(asks, last);
    hide RoundRobin.Next;
    assert RoundRobin.Distance(last, (last + 1) % 3, 3) == 1 && RoundRobin.Distance(last, (last + 2) % 3, 3) == 2;
    assert RoundRobin.Distance(last, last, 3) == 3;
  }

  /** Client `to` was granted the memory in cycle `b` and has had it up to cycle `u`. */
  ghost predicate HasTurn(ws: seq<World>, to: ArbState, b: nat, u: nat) {
    && b < u < |ws| && ws[b].d.arb.arb == ROUND && to in {SEND, RECEIVE}
    && forall v :: b < v <= u ==> ws[v].d.arb.arb == to
  }

  lemma TimerStep(d: Regs, in_: Inputs, to: ArbState, held: nat)
    requires ArbInv(d) && to in {SEND, RECEIVE} && Step(d, in_).arb.arb == to
    requires d.arb.arb == to ==> d.arb.timer == held % 256
    ensures d.arb.arb == to ==> Step(d, in_).arb.timer == (held + 1) % 256
    ensures d.arb.arb == ROUND ==> Step(d, in_).arb.timer == 0
  {
    hide RecvStep, SendStep;
  }

  /** The timer counts the cycles of a turn, modulo 256. */
  lemma {:induction false} TimerIs(ws: seq<World>, most: nat, to: ArbState, b: nat, u: nat)
    requires IsRun(ws, most) && HasTurn(ws, to, b, u)
    ensures ws[u].d.arb.timer == (u - b - 1) % 256
    decreases u
  {
    RunKeepsArbInv(ws, most, u - 1);
    assert Next(ws[u - 1], ws[u], most) && ws[u].d.arb.arb == to;
    hide IsRun, ArbInv, Step;
    if u - 1 > b {
      TimerIs(ws, most, to, b, u - 1);
      TimerStep(ws[u - 1].d, ws[u - 1].inp, to, u - b - 2);
    } else {
      TimerStep(ws[b].d, ws[b].inp, to, 0);
    }
  }

  /** A turn ends exactly when its client is done, or when it has lasted sixteen cycles and the
      other one has a job; the client that had it was then the last one. */
  lemma TurnEnds(ws: seq<World>, most: nat, to: ArbState, b: nat, u: nat)
    requires IsRun(ws, most) && HasTurn(ws, to, b, u) && u + 1 < |ws|
    ensures var d, a := ws[u].d, ws[u + 1].d.arb;
      var done := if to == SEND then d.snd.state == END else d.rcv.state == END;
      var contends := if to == SEND then d.rcv.active else d.snd.active;
      if done || ((u - b - 1) % 256 >= 16 && contends) then a.arb == ROUND && a.last == to else a.arb == to
  {
    TimerIs(ws, most, to, b, u);
    assert Next(ws[u], ws[u + 1], most) && ws[u].d.arb.arb == to;
    hide IsRun, RecvStep, SendStep;
  }

  // ---- When the monitor receiver is granted ----

  /** The memory is granted to a sender that has nothing to send. */
  predicate Stale(d: Regs) { d.arb.arb == SEND && d.snd.state == WAIT }

  /** A stale grant arises exactly when a sender is preempted in its last cycle and nobody else
      can be granted in the cycle after: in its END cycle it still counts as active. */
  lemma StaleArises(d: Regs, in_: Inputs)
    requires ArbInv(d) && !Stale(d)
    ensures Stale(Step(d, in_)) <==>
      d.arb.arb == ROUND && d.snd.state == END && d.rcv.state != COPY_TO_MEM && !in_.brWants
  {
  }

  /** And it stays until a send starts, or its time is up while a receive is active. */
  lemma StaleStays(d: Regs, in_: Inputs)
    requires ArbInv(d) && Stale(d)
    ensures Stale(Step(d, in_)) <==> !(in_.start && !in_.receives) && !(d.arb.timer >= DMNI_TIMER && d.rcv.active)
    ensures !Step(d, in_).arb.brEnable
  {
  }

  predicate Idle(d: Regs) { d.snd.state == WAIT && d.rcv.state == WAIT }

  /** From cycle `t` on no job starts and a monitor message waits. */
  ghost predicate OnlyMonitor(ws: seq<World>, t: nat) {
    t < |ws| && Idle(ws[t].d) && !ws[t].d.arb.brEnable
    && forall u :: t <= u < |ws| ==> !ws[u].inp.start && ws[u].inp.brWants
  }

  lemma StaleStep(d: Regs, in_: Inputs)
    requires ArbInv(d) && Stale(d) && Idle(d) && !in_.start
    ensures Stale(Step(d, in_)) && Idle(Step(d, in_)) && !Step(d, in_).arb.brEnable
  {
    StaleStays(d, in_);
  }

  lemma {:induction false} StaysStale(ws: seq<World>, most: nat, t: nat, u: nat)
    requires IsRun(ws, most) && OnlyMonitor(ws, t) && Stale(ws[t].d) && t <= u < |ws|
    ensures Stale(ws[u].d) && Idle(ws[u].d) && !ws[u].d.arb.brEnable
  {
    hide ArbInv, Step, IsReset;
    if t < u {
      StaysStale(ws, most, t, u - 1);
      RunKeepsArbInv(ws, most, u - 1);
      assert Next(ws[u - 1], ws[u], most);
      StaleStep(ws[u - 1].d, ws[u - 1].inp);
    }
  }

  /** In every run from reset: when both engines are idle, no job starts any more and a monitor
      message waits, it is taken exactly if the memory is not granted to the sender, and then
      in the next cycle. */
  lemma MonitorIff(ws: seq<World>, most: nat, t: nat)
    requires IsRun(ws, most) && OnlyMonitor(ws, t) && t + 1 < |ws|
    ensures (exists u :: t < u < |ws| && ws[u].d.arb.brEnable) <==> ws[t].d.arb.arb != SEND
    ensures ws[t].d.arb.arb != SEND ==> ws[t + 1].d.arb.brEnable
  {
    RunKeepsArbInv(ws, most, t);
    if Stale(ws[t].d) {
      forall u | t < u < |ws|
        ensures !ws[u].d.arb.brEnable
      {
        StaysStale(ws, most, t, u);
      }
    } else {
      assert Next(ws[t], ws[t + 1], most);
    }
  }

  // ---- A monitor message that is never taken ----

  /** A message is to be dropped from cycle 0 on, and a send of 15 words starts in cycle 1.
      The flit to drop arrives in cycle 20, and a monitor message from cycle 22 on. */
  function InputAt(k: nat): Inputs {
    Inputs(true, k == 20, 0, 0, k < 2, k == 0, 0, 0, if k == 0 then 1 else 15, 0, k >= 22, false)
  }

  function ArbAt(k: nat): ArbRegs {
    var granted := 3 <= k < 20 || 21 <= k;
    ArbRegs(if granted then SEND else ROUND, SEND, if 3 <= k < 20 then k - 3 else if 21 <= k then (k - 21) % 256 else 0,
            granted, false, false)
  }

  /** The last word leaves in the cycle in which the grant expires. */
  function SendAt(k: nat): SendRegs {
    var state := if k < 2 then WAIT else if k < 4 then LOAD else if k < 20 then COPY_FROM_MEM else if k == 20 then END else WAIT;
    SendRegs(state, 2 <= k < 21, if 4 <= k < 20 then WORD_SIZE * (k - 3) else if k == 20 then WORD_SIZE * 16 else 0, 0,
             if k < 2 then 0 else if k < 4 then 15 else if k < 20 then 19 - k else 0, 0, 4 < k < 20, 0)
  }

  function RecvAt(k: nat): RecvRegs {
    RecvRegs(if k == 0 then WAIT else if k < 22 then DROP_MESSAGE else if k == 22 then END else WAIT, 1 <= k < 23,
             seq<nat>(BUFFER_SIZE, i => 0), if k < 22 then 0 else 1, if k < 21 then 0 else 1, k == 21,
             if k == 1 then WORD - WORD_SIZE else 0, if k == 22 then WORD - 1 else 0, false, 0)
  }

  function WorldAt(k: nat): World { World(Regs(ArbAt(k), SendAt(k), RecvAt(k)), InputAt(k), 0) }

  lemma ArbMoves(k: nat)
    ensures ArbStep(Regs(ArbAt(k), SendAt(k), RecvAt(k)), InputAt(k)) == ArbAt(k + 1)
  {
    assert RecvAt(k).state != COPY_TO_MEM && (RecvAt(k).active <==> 1 <= k < 23);
    assert (SendAt(k).state == END <==> k == 20) && (SendAt(k).active <==> 2 <= k < 21);
    hide RecvAt, SendAt;
  }

  lemma SendMoves(k: nat)
    ensures SendStep(SendAt(k), ArbAt(k), InputAt(k)) == SendAt(k + 1)
  {
  }

  lemma RecvMoves(k: nat)
    ensures RecvStep(RecvAt(k), ArbAt(k), InputAt(k)) == RecvAt(k + 1)
  {
    if k == 20 { assert RecvAt(k).buffer[0 := 0] == RecvAt(k).buffer; }
  }

  /** The grant goes to a sender that has just finished, because it is still active in its
      END cycle. No job contends for it any more, so it stays there, and the monitor message
      waits in every cycle from then on. */
  lemma MonitorStarves(n: nat, most: nat)
    requires n > 0
    ensures IsRun(seq<World>(n, k requires 0 <= k < n => WorldAt(k)), most)
    ensures forall k: nat :: k >= 23 ==> var w := WorldAt(k);
      w.inp.brWants && w.d.arb.arb == SEND && w.d.snd.state == WAIT && w.d.rcv.state == WAIT
  {
    var ws := seq<World>(n, k requires 0 <= k < n => WorldAt(k));
    forall t | 0 <= t < |ws| - 1
      ensures Next(ws[t], ws[t + 1], most)
    {
      ArbMoves(t); SendMoves(t); RecvMoves(t);
      hide ArbStep, SendStep, RecvStep;
    }
  }
}
