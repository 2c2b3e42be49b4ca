/** The packet sender of the two injectors. Unlike the DMA engine it does not step back when
    it loses its credit: it keeps the refused flit on its data register and presents it again. */
module InjectorSend {
  datatype SendState = SEND_IDLE | SEND_WAIT_REQUEST | SEND_DATA_AV | SEND_MSG_REQUEST | SEND_PACKET
                     | SEND_WAIT_CREDIT | SEND_FINISHED

  datatype Regs = Regs(state: SendState, last: SendState, idx: nat, tx: bool, data: nat)

  /** What the other processes of the injector ask for in this cycle, and the credit. */
  datatype Inputs = Inputs(credit: bool, sendsTask: bool, announces: bool, requests: bool, delivers: bool)

  /** The addresses that the control packets carry, and the packet built by the loader. */
  datatype Packets = Packets(mapper: nat, own: nat, packet: seq<nat>)

  const CONSTANT_PACKET_SIZE: nat := 13
  const DATA_AV: nat := 0x31
  const MESSAGE_REQUEST: nat := 0

  /** A control packet: the receiver, the size of the rest, the service, the two tasks, and
      the processor that asks; the other words stay zero. */
  function ControlPacket(to: nat, service: nat, producer: nat, consumer: nat, requester: nat): seq<nat> {
    [to, CONSTANT_PACKET_SIZE - 2, service, producer, consumer, 0, 0, 0, requester, 0, 0, 0, 0]
  }

  /** The injector has data for the mapper, which is task 0. */
  function Announcement(p: Packets): seq<nat> { ControlPacket(p.mapper, DATA_AV, p.own, 0, p.own) }

  /** The injector asks the mapper for a message. */
  function Request(p: Packets): seq<nat> { ControlPacket(p.mapper, MESSAGE_REQUEST, 0, p.own, p.own) }

  predicate IsSending(s: SendState) { s in {SEND_DATA_AV, SEND_MSG_REQUEST, SEND_PACKET} }

  function PacketOf(p: Packets, s: SendState): seq<nat>
    requires IsSending(s)
  {
    match s
    case SEND_DATA_AV => Announcement(p)
    case SEND_MSG_REQUEST => Request(p)
    case _ => p.packet
  }

  /** Where a sending state goes once its packet is through. */
  function After(s: SendState): SendState { if s == SEND_DATA_AV then SEND_WAIT_REQUEST else SEND_FINISHED }

  function Step(r: Regs, p: Packets, in_: Inputs): Regs {
    match r.state
    case SEND_IDLE =>
      if in_.sendsTask then
        if in_.credit && p.packet != [] then r.(state := SEND_PACKET, idx := 0) else r
      else if in_.announces then
        if in_.credit then r.(state := SEND_DATA_AV, idx := 0) else r
      else if in_.requests && in_.credit then r.(state := SEND_MSG_REQUEST, idx := 0)
      else r
    case SEND_WAIT_REQUEST =>
      if in_.delivers && in_.credit && p.packet != [] then r.(state := SEND_PACKET, idx := 0) else r
    case SEND_WAIT_CREDIT =>
      if in_.credit then r.(tx := true, state := r.last) else r
    case SEND_FINISHED => r.(state := SEND_IDLE)
    case _ =>
      var pkt := PacketOf(p, r.state);
      if !in_.credit then r.(tx := false, state := SEND_WAIT_CREDIT, last := r.state)
      else if r.idx < |pkt| then r.(tx := true, data := pkt[r.idx], idx := r.idx + 1)
      else r.(tx := false, state := After(r.state))
  }

  /** The sender with its registers as fields, as the injectors run it at every edge. */
  class Sender {
    var state: SendState
    var last: SendState
    var idx: nat
    var tx: bool
    var data: nat

    function Current(): Regs
      reads this
    {
      Regs(state, last, idx, tx, data)
    }

    constructor ()
      ensures state == SEND_IDLE && !tx
    {
      state, last, idx, tx, data := SEND_IDLE, SEND_IDLE, 0, false, 0;
    }

    method SendPacket(p: Packets, in_: Inputs)
      modifies this
      ensures Current() == Step(old(Current()), p, in_)
    {
      if state == SEND_IDLE {
        if in_.sendsTask {
          if in_.credit && |p.packet| > 0 { state, idx := SEND_PACKET, 0; }
        } else if in_.announces {
          if in_.credit { idx, state := 0, SEND_DATA_AV; }
        } else if in_.requests {
          if in_.credit { idx, state := 0, SEND_MSG_REQUEST; }
        }
      } else if state == SEND_WAIT_REQUEST {
        if in_.delivers && in_.credit && |p.packet| > 0 { state, idx := SEND_PACKET, 0; }
      } else if state == SEND_WAIT_CREDIT {
        if in_.credit { tx, state := true, last; }
      } else if state == SEND_FINISHED {
        state := SEND_IDLE;
      } else {
        var pkt := PacketOf(p, state);
        if in_.credit {
          if idx < |pkt| {
            tx, data, idx := true, pkt[idx], idx + 1;
          } else {
            tx, state := false, After(state);
          }
        } else {
          tx, last, state := false, state, SEND_WAIT_CREDIT;
        }
      }
    }
  }

  /** A cycle: the sender, the packets as the loaders left them, the flits accepted since the
      sender last began a packet, and the flit it has shown too many, if any. */
  datatype World = World(r: Regs, p: Packets, inp: Inputs, sent: seq<nat>, stale: seq<nat>)

  predicate Accepts(w: World) { w.r.tx && w.inp.credit }

  /** A packet begins when a sending state is entered from a resting one. */
  predicate Begins(r: Regs, r': Regs) { r.state in {SEND_IDLE, SEND_WAIT_REQUEST} && IsSending(r'.state) }

  predicate UnderWay(r: Regs) { IsSending(r.state) || r.state == SEND_WAIT_CREDIT }

  /** The credit is missing before the first flit has been shown: the only case the sender is
      not made for. It comes back with whatever its data register held. */
  predicate Early(w: World) { IsSending(w.r.state) && !w.r.tx && !w.inp.credit }

  /** The next cycle. The credit comes and goes as it likes, and the loaders may build new
      packets while none is under way. */
  ghost predicate Next(w: World, w': World) {
    && w'.r == Step(w.r, w.p, w.inp)
    && w'.sent == (if Begins(w.r, w'.r) then [] else if Accepts(w) then w.sent + [w.r.data] else w.sent)
    && w'.stale == (if Begins(w.r, w'.r) then [] else if Early(w) then [w.r.data] else w.stale)
    && (UnderWay(w.r) ==> w'.p == w.p)
  }

  /** The packet under way. */
  function Carried(w: World): seq<nat>
    requires UnderWay(w.r) && (w.r.state == SEND_WAIT_CREDIT ==> IsSending(w.r.last))
  {
    PacketOf(w.p, if w.r.state == SEND_WAIT_CREDIT then w.r.last else w.r.state)
  }

  /** `shown` flits of `all` have been put on the data register; the last of them is up for
      acceptance, or waiting for a credit to be put up again, and those before are accepted. */
  predicate Shown(w: World, all: seq<nat>, shown: nat) {
    0 < shown <= |all| && w.r.data == all[shown - 1] && w.sent == all[..shown - 1]
  }

  ghost predicate SendInv(w: World) {
    var r := w.r;
    && |w.stale| <= 1
    && (IsSending(r.state) ==>
          && r.idx <= |Carried(w)|
          && if r.tx then Shown(w, w.stale + Carried(w), |w.stale| + r.idx)
             else r.idx == 0 && w.sent == [] && w.stale == [])
    && (r.state == SEND_WAIT_CREDIT ==>
          && IsSending(r.last) && !r.tx && r.idx <= |Carried(w)|
          && Shown(w, w.stale + Carried(w), |w.stale| + r.idx))
    && (!UnderWay(r) ==> !r.tx)
  }

  /** With a credit the flit that is up, if any, has been accepted. */
  lemma Accepted(w: World, w': World)
    requires SendInv(w) && Next(w, w') && IsSending(w.r.state) && w.inp.credit
    ensures w'.stale == w.stale && w'.sent == (w.stale + Carried(w))[..|w.stale| + w.r.idx]
  {
    hide PacketOf;
    var all, n := w.stale + Carried(w), |w.stale| + w.r.idx;
    assert w.r.tx ==> all[..n] == all[..n - 1] + [w.r.data];
  }

  lemma ShowsNext(w: World, w': World)
    requires SendInv(w) && Next(w, w') && IsSending(w.r.state) && w.inp.credit && w.r.idx < |Carried(w)|
    ensures SendInv(w') && w'.r.state == w.r.state
  {
    hide PacketOf;
    Accepted(w, w');
    assert Carried(w') == Carried(w);
    assert (w.stale + Carried(w))[|w.stale| + w.r.idx] == Carried(w)[w.r.idx];
  }

  lemma Finishes(w: World, w': World)
    requires SendInv(w) && Next(w, w') && IsSending(w.r.state) && w.inp.credit && w.r.idx == |Carried(w)|
    ensures SendInv(w') && w'.sent == w.stale + Carried(w) && w'.stale == w.stale
  {
    hide PacketOf;
    Accepted(w, w');
    var all := w.stale + Carried(w);
    assert all[..|all|] == all;
  }

  lemma Refused(w: World, w': World)
    requires SendInv(w) && Next(w, w') && IsSending(w.r.state) && !w.inp.credit
    ensures SendInv(w') && w'.r.state == SEND_WAIT_CREDIT
  {
    hide PacketOf;
    assert Carried(w') == Carried(w);
    if !w.r.tx {
      assert (w'.stale + Carried(w'))[0] == w.r.data;
    }
  }

  lemma KeepsSending(w: World, w': World)
    requires SendInv(w) && Next(w, w') && IsSending(w.r.state)
    ensures SendInv(w')
    ensures w'.r.state == After(w.r.state) ==> w'.sent == w.stale + Carried(w) && w'.stale == w.stale
  {
    assert w.r.idx <= |Carried(w)|;
    hide SendInv, Next;
    if !w.inp.credit {
      Refused(w, w');
    } else if w.r.idx < |Carried(w)| {
      ShowsNext(w, w');
    } else {
      Finishes(w, w');
    }
  }

  lemma KeepsResting(w: World, w': World)
    requires SendInv(w) && Next(w, w') && !IsSending(w.r.state)
    ensures SendInv(w')
  {
    hide PacketOf;
    if w.r.state == SEND_WAIT_CREDIT {
      assert Carried(w') == Carried(w) && w'.stale == w.stale && w'.sent == w.sent;
    }
  }

  /** Every cycle keeps the account, and at the end of a packet all of it has been accepted,
      after the stale flit if there was one. */
  lemma KeepsSendInv(w: World, w': World)
    requires SendInv(w) && Next(w, w')
    ensures SendInv(w')
    ensures IsSending(w.r.state) && w'.r.state == After(w.r.state) ==> w'.sent == w.stale + Carried(w) && w'.stale == w.stale
  {
    hide SendInv, Next;
    if IsSending(w.r.state) { KeepsSending(w, w'); } else { KeepsResting(w, w'); }
  }

  ghost predicate IsRun(ws: seq<World>) {
    && 0 < |ws| && ws[0].r.state == SEND_IDLE && !ws[0].r.tx && ws[0].stale == []
    && (forall t :: 0 <= t < |ws| - 1 ==> Next(ws[t], ws[t + 1]))
  }

  lemma {:induction false} RunKeepsSendInv(ws: seq<World>, t: nat)
    requires IsRun(ws) && t < |ws|
    ensures SendInv(ws[t])
  {
    hide SendInv, Next;
    assert t > 0 ==> Next(ws[t - 1], ws[t]);
    if t == 0 {
      RestsAtFirst(ws[0]);
    } else {
      RunKeepsSendInv(ws, t - 1);
      KeepsSendInv(ws[t - 1], ws[t]);
    }
  }

  lemma RestsAtFirst(w: World)
    requires w.r.state == SEND_IDLE && !w.r.tx && w.stale == []
    ensures SendInv(w)
  {
    hide PacketOf;
  }

  /** Exact injector stream, for every run over any sequence of packets and under any credits:
      when a packet is done the flits accepted since it began are the packet, in order, and
      before it one stale flit exactly if the credit was missing in the cycle in which the
      packet was to begin. */
  lemma InjectsExactPacket(ws: seq<World>, t: nat)
    requires IsRun(ws) && t < |ws| - 1
    requires IsSending(ws[t].r.state) && ws[t + 1].r.state == After(ws[t].r.state)
    ensures ws[t + 1].sent == ws[t].stale + PacketOf(ws[t].p, ws[t].r.state)
    ensures ws[t + 1].sent == PacketOf(ws[t].p, ws[t].r.state) <==> ws[t].stale == []
  {
    hide PacketOf;
    RunKeepsSendInv(ws, t);
    assert Next(ws[t], ws[t + 1]);
    KeepsSendInv(ws[t], ws[t + 1]);
    assert [] + PacketOf(ws[t].p, ws[t].r.state) == PacketOf(ws[t].p, ws[t].r.state);
  }

  /** And while it is on its way they are a prefix of that. */
  lemma InjectsPrefix(ws: seq<World>, t: nat)
    requires IsRun(ws) && t < |ws| && UnderWay(ws[t].r)
    ensures ws[t].r.state == SEND_WAIT_CREDIT ==> IsSending(ws[t].r.last)
    ensures ws[t].sent <= ws[t].stale + Carried(ws[t])
  {
    hide PacketOf;
    RunKeepsSendInv(ws, t);
  }

  /** Packet `s` began in cycle `b` and is under way up to cycle `t`. */
  ghost predicate SameParcel(ws: seq<World>, b: nat, t: nat) {
    && b < t < |ws| && Begins(ws[b].r, ws[b + 1].r)
    && forall u :: b < u <= t ==> UnderWay(ws[u].r)
  }

  lemma StaleStep(w: World, w': World)
    requires SendInv(w) && Next(w, w') && UnderWay(w.r) && UnderWay(w'.r)
    ensures w'.stale == [] <==> w.stale == [] && !Early(w)
  {
    hide PacketOf;
    hide Shown;
  }

  /** The stale flit is there exactly if the credit was early in some cycle of the packet. */
  lemma {:induction false} StaleIff(ws: seq<World>, b: nat, t: nat)
    requires IsRun(ws) && SameParcel(ws, b, t)
    ensures ws[t].stale == [] <==> forall u :: b < u < t ==> !Early(ws[u])
    decreases t - b
  {
    hide PacketOf;
    hide SendInv, Early, UnderWay;
    if t == b + 1 {
      assert Next(ws[b], ws[b + 1]);
    } else {
      assert SameParcel(ws, b, t - 1);
      StaleIff(ws, b, t - 1);
      assert Next(ws[t - 1], ws[t]) && UnderWay(ws[t - 1].r) && UnderWay(ws[t].r);
      hide Next;
      RunKeepsSendInv(ws, t - 1);
      StaleStep(ws[t - 1], ws[t]);
    }
  }

  // ---- Which packet is sent, and why ----

  /** A packet begins in cycle `b`, and cycle `t` is the first one in which it is over. */
  ghost predicate IsParcel(ws: seq<World>, b: nat, t: nat) {
    && b + 1 < t < |ws| && Begins(ws[b].r, ws[b + 1].r) && !UnderWay(ws[t].r)
    && forall u :: b < u < t ==> UnderWay(ws[u].r)
  }

  /** When the sender is idle and when a packet then begins. */
  lemma BeginsIff(w: World, w': World)
    requires Next(w, w') && w.r.state == SEND_IDLE
    ensures Begins(w.r, w'.r) <==> w.inp.credit && if w.inp.sendsTask then w.p.packet != [] else w.inp.announces || w.inp.requests
    ensures !Begins(w.r, w'.r) ==> w'.r.state == SEND_IDLE
  {
  }

  /** Having announced an application the sender waits until the mapper is to be served, with
      a credit and with a packet. */
  lemma WaitsForRequest(w: World, w': World)
    requires Next(w, w') && w.r.state == SEND_WAIT_REQUEST
    ensures Begins(w.r, w'.r) <==> w.inp.delivers && w.inp.credit && w.p.packet != []
    ensures !Begins(w.r, w'.r) ==> w'.r.state == SEND_WAIT_REQUEST
  {
  }

  /** The sending state a credit is to bring back. */
  function Errand(r: Regs): SendState { if r.state == SEND_WAIT_CREDIT then r.last else r.state }

  lemma ErrandStays(w: World, w': World)
    requires SendInv(w) && Next(w, w') && UnderWay(w.r)
    ensures IsSending(Errand(w.r)) && w'.p == w.p
    ensures if UnderWay(w'.r) then Errand(w'.r) == Errand(w.r)
            else IsSending(w.r.state) && w'.r.state == After(w.r.state)
  {
    hide PacketOf;
    hide Shown;
  }

  lemma {:induction false} SameErrand(ws: seq<World>, b: nat, t: nat, u: nat)
    requires IsRun(ws) && IsParcel(ws, b, t) && b < u < t
    ensures Errand(ws[u].r) == Errand(ws[b + 1].r) && ws[u].p == ws[b + 1].p
    decreases u
  {
    hide PacketOf;
    hide SendInv;
    if u > b + 1 {
      SameErrand(ws, b, t, u - 1);
      RunKeepsSendInv(ws, u - 1);
      assert Next(ws[u - 1], ws[u]) && UnderWay(ws[u - 1].r) && UnderWay(ws[u].r);
      hide Next, IsRun;
      ErrandStays(ws[u - 1], ws[u]);
    }
  }

  lemma ErrandEnds(w: World, w': World)
    requires SendInv(w) && Next(w, w') && UnderWay(w.r) && !UnderWay(w'.r)
    ensures IsSending(Errand(w.r)) && w'.r.state == After(Errand(w.r)) && w'.sent == w'.stale + PacketOf(w.p, Errand(w.r))
  {
    hide PacketOf, SendInv, Next;
    ErrandStays(w, w');
    KeepsSendInv(w, w');
  }

  lemma ParcelCycle(ws: seq<World>, b: nat, t: nat, u: nat)
    requires IsRun(ws) && IsParcel(ws, b, t) && b < u < t
    ensures Next(ws[u], ws[u + 1]) && UnderWay(ws[u].r) && (u + 1 == t ==> !UnderWay(ws[u + 1].r))
  {
    hide Next;
  }

  lemma ParcelBegins(ws: seq<World>, b: nat, t: nat)
    requires IsParcel(ws, b, t)
    ensures b + 1 < t < |ws| && IsSending(ws[b + 1].r.state) && Errand(ws[b + 1].r) == ws[b + 1].r.state
  {
  }

  /** At the end of a parcel. */
  lemma ParcelEnds(ws: seq<World>, b: nat, t: nat)
    requires IsRun(ws) && IsParcel(ws, b, t)
    ensures var s := ws[b + 1].r.state; IsSending(s) && ws[t].r.state == After(s) && ws[t].sent == ws[t].stale + PacketOf(ws[b + 1].p, s)
  {
    hide *;
    ParcelBegins(ws, b, t);
    SameErrand(ws, b, t, t - 1);
    RunKeepsSendInv(ws, t - 1);
    ParcelCycle(ws, b, t, t - 1);
    ErrandEnds(ws[t - 1], ws[t]);
  }

  /** Every parcel is the packet it was begun for, flit by flit, behind the stale flit if there
      is one. A task to be sent goes first, and the sender is done; an announcement is followed
      by a wait, and the wait by the packet the loader has built; a request ends it. */
  lemma ParcelFollowsCause(ws: seq<World>, b: nat, t: nat)
    requires IsRun(ws) && IsParcel(ws, b, t)
    ensures var cause, p, end := ws[b].inp, ws[b + 1].p, ws[t];
      if ws[b].r.state == SEND_WAIT_REQUEST || cause.sendsTask then end.sent == end.stale + p.packet && end.r.state == SEND_FINISHED
      else if cause.announces then
        end.r.state == SEND_WAIT_REQUEST
        && end.sent == end.stale + [p.mapper, 11, 0x31, p.own, 0, 0, 0, 0, p.own, 0, 0, 0, 0]
      else
        cause.requests && end.r.state == SEND_FINISHED
        && end.sent == end.stale + [p.mapper, 11, 0x00, 0, p.own, 0, 0, 0, p.own, 0, 0, 0, 0]
  {
    ParcelEnds(ws, b, t);
    assert Next(ws[b], ws[b + 1]) && Begins(ws[b].r, ws[b + 1].r);
  }

  /** After a task or a request the sender is idle again in the next cycle. */
  lemma IsIdleAgain(w: World, w': World)
    requires Next(w, w') && w.r.state == SEND_FINISHED
    ensures w'.r.state == SEND_IDLE && w'.sent == w.sent + (if Accepts(w) then [w.r.data] else [])
  {
  }

  /** With the credit up from cycle `b` on, one flit goes up in every cycle. */
  lemma {:induction false} OneFlitACycle(ws: seq<World>, b: nat, k: nat)
    requires IsRun(ws) && b + 1 + k < |ws| && Begins(ws[b].r, ws[b + 1].r)
    requires forall u :: b <= u <= b + k ==> ws[u].inp.credit
    requires k <= |PacketOf(ws[b + 1].p, ws[b + 1].r.state)|
    ensures ws[b + 1 + k].p == ws[b + 1].p && ws[b + 1 + k].r.state == ws[b + 1].r.state && ws[b + 1 + k].r.idx == k
  {
    hide PacketOf;
    if k > 0 {
      OneFlitACycle(ws, b, k - 1);
      assert Next(ws[b + k], ws[b + k + 1]);
    } else {
      assert Next(ws[b], ws[b + 1]);
    }
  }

  lemma IsOver(ws: seq<World>, t: nat)
    requires IsRun(ws) && t + 1 < |ws| && IsSending(ws[t].r.state) && ws[t].inp.credit
    requires ws[t].r.idx == |PacketOf(ws[t].p, ws[t].r.state)|
    ensures !UnderWay(ws[t + 1].r)
  {
    hide PacketOf;
    assert Next(ws[t], ws[t + 1]);
  }

  /** And so a packet is over two cycles after its last flit went up. */
  lemma ParcelTakes(ws: seq<World>, b: nat, t: nat)
    requires IsRun(ws) && IsParcel(ws, b, t) && forall u :: b <= u < t ==> ws[u].inp.credit
    ensures |ws[t].sent| - |ws[t].stale| == t - b - 2
  {
    hide PacketOf;
    var s := ws[b + 1].r.state;
    var n := |PacketOf(ws[b + 1].p, s)|;
    ParcelEnds(ws, b, t);
    if t > b + 2 + n {
      OneFlitACycle(ws, b, n);
      IsOver(ws, b + 1 + n);
      assert false;
    }
    OneFlitACycle(ws, b, t - 2 - b);
    assert Next(ws[t - 1], ws[t]);
  }

  /** While a packet is under way its errand and its packet stay, and what has been shown is not
      taken back. Two credits in a row show one more flit or end the packet. */
  lemma TwoCreditsMoveOn(w: World, w': World, w'': World)
    requires SendInv(w) && Next(w, w') && Next(w', w'') && UnderWay(w.r) && w.inp.credit && w'.inp.credit
    ensures !UnderWay(w'.r) || !UnderWay(w''.r) || (w''.p == w.p && Errand(w''.r) == Errand(w.r) && w''.r.idx > w.r.idx)
  {
    hide PacketOf;
    hide Shown;
  }

  lemma NothingTakenBack(w: World, w': World)
    requires SendInv(w) && Next(w, w') && UnderWay(w.r) && UnderWay(w'.r)
    ensures w'.r.idx >= w.r.idx && w.sent <= w'.sent
  {
    hide PacketOf;
    hide Shown;
  }

  lemma ShownIsBounded(w: World)
    requires SendInv(w) && UnderWay(w.r)
    ensures IsSending(Errand(w.r)) && w.r.idx <= |PacketOf(w.p, Errand(w.r))|
  {
    hide PacketOf;
    hide Shown;
  }

  /** However long the credit was missing, a packet is over when the credit has been up for two
      cycles for each flit that is left, and two more. */
  lemma {:induction false} PacketIsCompleted(ws: seq<World>, t: nat, left: nat)
    requires IsRun(ws) && t + 2 * left + 2 < |ws| && UnderWay(ws[t].r)
    requires IsSending(Errand(ws[t].r)) ==> left >= |PacketOf(ws[t].p, Errand(ws[t].r))| - ws[t].r.idx
    requires forall u :: t <= u < t + 2 * left + 2 ==> ws[u].inp.credit
    ensures exists u :: t < u <= t + 2 * left + 2 && !UnderWay(ws[u].r)
    decreases left
  {
    RunKeepsSendInv(ws, t);
    RunKeepsSendInv(ws, t + 2);
    assert Next(ws[t], ws[t + 1]) && Next(ws[t + 1], ws[t + 2]);
    hide SendInv, Next, IsRun, UnderWay;
    TwoCreditsMoveOn(ws[t], ws[t + 1], ws[t + 2]);
    ShownIsBounded(ws[t]);
    if UnderWay(ws[t + 1].r) && UnderWay(ws[t + 2].r) {
      ShownIsBounded(ws[t + 2]);
      PacketIsCompleted(ws, t + 2, left - 1);
    }
  }
}
