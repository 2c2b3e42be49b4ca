/** A switch with its five input queues, cycle by cycle: the crossbar is always a matching,
    follows XY routing, and serves every request. */
module Crossbar {
  import opened Topology
  import opened XyRouting
  import opened SwitchControl
  import RoundRobin

  datatype QState = INIT | HEADER | BODY | END | END2

  /** The output side of a queue. `packet` is the header of the packet being served and
      `head` what the data wires show; BODY stands for the states that send flits. */
  datatype Queue = Queue(state: QState, packet: Header, head: Header)

  datatype Router = Router(sw: Switch, q: seq<Queue>)

  predicate Shaped(r: Router) {
    && Shape(r.sw) && |r.q| == NPORT
    && forall i: Port :: r.q[i].state == HEADER ==> r.q[i].head == r.q[i].packet
  }

  function Wires(r: Router): (w: Inputs)
    requires Shaped(r)
    ensures InputsOk(w)
    ensures forall i: Port :: w.h[i] == (r.q[i].state == HEADER) && w.data[i] == r.q[i].head
    ensures forall i: Port :: w.sender[i] == (r.q[i].state == BODY)
  {
    Inputs(
      seq(NPORT, i requires 0 <= i < NPORT => r.q[i].state == HEADER),
      seq(NPORT, i requires 0 <= i < NPORT => r.q[i].head),
      seq(NPORT, i requires 0 <= i < NPORT => r.q[i].state == BODY))
  }

  /** One cycle of a queue: a new packet may show up, the grant starts it, its last flit may
      leave; the request is only raised two cycles after `sender` has fallen. */
  predicate QueueStep(q: Queue, ack: bool, q': Queue) {
    && (q'.state == HEADER ==> q'.head == q'.packet)
    && (q.state != INIT ==> q'.packet == q.packet)
    && match q.state
       case INIT => q'.state == INIT || q'.state == HEADER
       case HEADER => q'.state == if ack then BODY else HEADER
       case BODY => q'.state == BODY || q'.state == END
       case END => q'.state == END2
       case END2 => q'.state == INIT
  }

  /** A queue is never stuck: from rest it may stay or ask for any packet, in a body it may go on
      or end, and asking and ending have one way on. */
  lemma QueueIsFree(q: Queue, ack: bool, hdr: Header)
    ensures q.state == INIT ==> QueueStep(q, ack, q) && QueueStep(q, ack, Queue(HEADER, hdr, hdr))
    ensures q.state == HEADER && q.head == q.packet ==> QueueStep(q, ack, if ack then q.(state := BODY) else q)
    ensures q.state == BODY ==> QueueStep(q, ack, q) && QueueStep(q, ack, q.(state := END))
    ensures q.state == END ==> QueueStep(q, ack, q.(state := END2))
    ensures q.state == END2 ==> QueueStep(q, ack, q.(state := INIT))
  {
  }

  /** One clock cycle: rising edge on registers and queues, then falling edge. */
  ghost predicate Cycle(r: Router, r': Router, at: Pos) {
    && Shaped(r) && Shaped(r')
    && (forall i: Port :: QueueStep(r.q[i], r.sw.ackH[i], r'.q[i]))
    && r'.sw == FallingEdge(RisingEdge(r.sw, Wires(r), at), Wires(r'), at)
  }

  /** Input i holds a connection: granted, sending, or just done. */
  predicate Holds(r: Router, i: Port)
    requires Shaped(r)
  {
    match r.q[i].state
    case HEADER => r.sw.ackH[i]
    case BODY => true
    case END => true
    case _ => false
  }

  /** An input that holds a connection owns the output that routing wants for its packet. */
  predicate InputOk(r: Router, i: Port, at: Pos)
    requires Shaped(r)
  {
    Holds(r, i) ==>
      !r.sw.free[r.sw.muxIn[i]] && r.sw.muxOut[r.sw.muxIn[i]] == i && r.sw.muxIn[i] == Wanted(at, r.q[i].packet)
  }

  /** A busy output belongs to an input that holds a connection to it. */
  predicate OutputOk(r: Router, j: Port)
    requires Shaped(r)
  {
    !r.sw.free[j] ==> Holds(r, r.sw.muxOut[j]) && r.sw.muxIn[r.sw.muxOut[j]] == j
  }

  ghost predicate Matching(r: Router, at: Pos)
    requires Shaped(r)
  {
    && (forall i: Port :: InputOk(r, i, at))
    && (forall j: Port :: OutputOk(r, j))
  }

  ghost predicate SignalsInv(r: Router)
    requires Shaped(r)
  {
    && (forall i: Port :: r.sw.ackH[i] ==> r.sw.ea == S7 && i == r.sw.sel && r.q[i].state == HEADER)
    && (forall i: Port :: r.sw.senderAnt[i] ==> r.q[i].state == BODY || r.q[i].state == END)
    && (forall i: Port :: r.q[i].state == END ==> r.sw.senderAnt[i])
    && (r.sw.ea == S0 ==> forall i: Port :: r.sw.free[i] && !Holds(r, i))
  }

  /** While a grant is being prepared the selected input waits and its output is free. */
  ghost predicate PhaseInv(r: Router, at: Pos)
    requires Shaped(r)
  {
    && (r.sw.ea == S2 ==> exists i: Port :: r.q[i].state == HEADER)
    && (S3 <= r.sw.ea <= S6 ==> r.q[r.sw.sel].state == HEADER)
    && (S4 <= r.sw.ea <= S6 ==>
          var out := Granted(r.sw.ea, r.q[r.sw.sel].packet, at);
          r.sw.free[out] && out == Wanted(at, r.q[r.sw.sel].packet))
  }

  ghost predicate RouterInv(r: Router, at: Pos) {
    Shaped(r) && Matching(r, at) && SignalsInv(r) && PhaseInv(r, at)
  }

  ghost predicate IsReset(r: Router) {
    && Shaped(r) && r.sw.ea == S0
    && forall i: Port :: r.sw.free[i] && !r.sw.ackH[i] && !r.sw.senderAnt[i] && r.q[i].state == INIT
  }

  lemma ResetEstablishes(r: Router, at: Pos)
    requires IsReset(r)
    ensures RouterInv(r, at)
  {
  }

  predicate Grants(r: Router) { S4 <= r.sw.ea <= S6 }

  lemma SignalsAfter(r: Router, r': Router, at: Pos, i: Port)
    requires Shaped(r) && SignalsInv(r) && PhaseInv(r, at) && Cycle(r, r', at)
    ensures r'.sw.ackH[i] <==> Grants(r) && i == r.sw.sel
    ensures r'.sw.senderAnt[i] <==> r.q[i].state == BODY
    ensures r'.sw.ea != S0 && (Grants(r) ==> r'.sw.ea == S7 && r'.sw.sel == r.sw.sel)
  {
    hide Wanted, DirX, DirY, Prox;
    assert Wires(r).sender[i] == (r.q[i].state == BODY);
    if r.sw.ea == S0 {
      assert !Holds(r, i);
    }
  }

  lemma KeepsSignalsInv(r: Router, r': Router, at: Pos)
    requires Shaped(r) && SignalsInv(r) && PhaseInv(r, at) && Cycle(r, r', at)
    ensures SignalsInv(r')
  {
    hide RisingEdge, FallingEdge, Wanted, DirX, DirY, Prox;
    SignalsAfter(r, r', at, EAST);
    forall i: Port
      ensures r'.sw.ackH[i] ==> r'.sw.ea == S7 && i == r'.sw.sel && r'.q[i].state == HEADER
      ensures r'.sw.senderAnt[i] ==> r'.q[i].state == BODY || r'.q[i].state == END
      ensures r'.q[i].state == END ==> r'.sw.senderAnt[i]
    {
      SignalsAfter(r, r', at, i);
      assert QueueStep(r.q[i], r.sw.ackH[i], r'.q[i]);
    }
  }

  /** A selection is made only while somebody asks, so it picks an input that asks. */
  lemma SelectsARequest(r: Router, r': Router, at: Pos)
    requires Shaped(r) && SignalsInv(r) && PhaseInv(r, at) && Cycle(r, r', at) && r.sw.ea == S2
    ensures r'.sw.ea == S3 && r'.sw.sel == RoundRobin.Next(Wires(r).h, r.sw.sel)
    ensures r.q[r'.sw.sel].state == HEADER && r'.q[r'.sw.sel].state == HEADER
  {
    ProxIsRoundRobin(r.sw.sel, Wires(r).h);
    RoundRobin.NextIsNearest(Wires(r).h, r.sw.sel);
    hide Prox, Wanted, DirX, DirY;
    var i: Port :| r.q[i].state == HEADER;
    assert Wires(r).h[i];
  }

  lemma KeepsPhaseInv(r: Router, r': Router, at: Pos)
    requires Shaped(r) && SignalsInv(r) && PhaseInv(r, at) && Cycle(r, r', at)
    ensures PhaseInv(r', at)
  {
    hide Prox, Wanted, DirX, DirY;
    if r.sw.ea == S1 && r'.sw.ea == S2 {
      assert true in Wires(r').h;
    } else if r.sw.ea == S2 {
      SelectsARequest(r, r', at);
    } else if r.sw.ea == S3 {
      GrantsTheWantedOutput(RisingEdge(r.sw, Wires(r), at), Wires(r'), at);
    }
  }

  function Out(r: Router, at: Pos): Port
    requires Shaped(r)
  {
    Granted(r.sw.ea, r.q[r.sw.sel].packet, at)
  }

  /** The connections after one cycle. */
  lemma MuxAfter(r: Router, r': Router, at: Pos, p: Port)
    requires RouterInv(r, at) && Cycle(r, r', at) && r.sw.ea != S0
    ensures r'.sw.muxIn[p] == if Grants(r) && p == r.sw.sel then Out(r, at) else r.sw.muxIn[p]
    ensures r'.sw.muxOut[p] == if Grants(r) && p == Out(r, at) then r.sw.sel else r.sw.muxOut[p]
  {
    hide Wanted, Matching;
  }

  lemma HoldsAfter(r: Router, r': Router, at: Pos, i: Port)
    requires RouterInv(r, at) && Cycle(r, r', at)
    ensures Holds(r', i) <==> (Holds(r, i) && r.q[i].state != END) || (Grants(r) && i == r.sw.sel)
  {
    hide Wanted, Matching;
  }

  /** An output becomes free only when its own input's packet has ended, and then it does;
      it becomes busy only by a grant. */
  lemma FreeAfter(r: Router, r': Router, at: Pos, j: Port)
    requires RouterInv(r, at) && Cycle(r, r', at)
    ensures r'.sw.free[j] <==>
      if r.sw.free[j] then !(Grants(r) && j == Out(r, at)) else r.q[r.sw.muxOut[j]].state == END
  {
    hide Wanted;
    var w := Wires(r);
    forall i: Port
      ensures Falling(r.sw, w, i) <==> r.q[i].state == END
    {
    }
    if r.sw.ea != S0 {
      forall i: Port | r.q[i].state == END
        ensures RisingEdge(r.sw, w, at).muxIn[i] == r.sw.muxIn[i]
      {
        MuxAfter(r, r', at, i);
      }
      assert OutputOk(r, j);
      if !r.sw.free[j] && r.q[r.sw.muxOut[j]].state == END {
        assert Falling(r.sw, w, r.sw.muxOut[j]);
      }
      forall i: Port | r.q[i].state == END && r.sw.muxIn[i] == j
        ensures !r.sw.free[j] && r.sw.muxOut[j] == i
      {
        assert InputOk(r, i, at);
      }
    }
  }

  lemma KeepsMatching(r: Router, r': Router, at: Pos)
    requires RouterInv(r, at) && Cycle(r, r', at)
    ensures Matching(r', at)
  {
    hide Wanted, RisingEdge, FallingEdge;
    if r.sw.ea == S0 {
      forall p: Port
        ensures InputOk(r', p, at) && OutputOk(r', p)
      {
        FreeAfter(r, r', at, p);
        HoldsAfter(r, r', at, p);
      }
    } else {
      forall i: Port
        ensures InputOk(r', i, at)
      {
        HoldsAfter(r, r', at, i);
        MuxAfter(r, r', at, i);
        MuxAfter(r, r', at, r'.sw.muxIn[i]);
        FreeAfter(r, r', at, r'.sw.muxIn[i]);
        assert InputOk(r, i, at);
      }
      forall j: Port
        ensures OutputOk(r', j)
      {
        FreeAfter(r, r', at, j);
        MuxAfter(r, r', at, j);
        MuxAfter(r, r', at, r'.sw.muxOut[j]);
        HoldsAfter(r, r', at, r'.sw.muxOut[j]);
        assert OutputOk(r, j);
      }
    }
  }

  ghost predicate IsRun(run: seq<Router>, at: Pos) {
    |run| > 0 && forall t :: 0 <= t < |run| - 1 ==> Cycle(run[t], run[t + 1], at)
  }

  /** The invariant holds in every state that a reset router can reach. */
  lemma {:induction false} RunKeepsInv(run: seq<Router>, at: Pos, t: nat)
    requires IsRun(run, at) && RouterInv(run[0], at) && t < |run|
    ensures RouterInv(run[t], at)
  {
    if t > 0 {
      RunKeepsInv(run, at, t - 1);
      assert Cycle(run[t - 1], run[t], at);
      KeepsMatching(run[t - 1], run[t], at);
      KeepsSignalsInv(run[t - 1], run[t], at);
      KeepsPhaseInv(run[t - 1], run[t], at);
    }
  }

  /** In every reachable state the busy outputs and the inputs that hold a connection are
      matched one to one, each to the output XY routing names for the packet being sent. */
  lemma CrossbarIsMatching(run: seq<Router>, at: Pos, t: nat)
    requires IsRun(run, at) && IsReset(run[0]) && t < |run|
    ensures Shaped(run[t])
    ensures forall j: Port, k: Port :: !run[t].sw.free[j] && !run[t].sw.free[k] && j != k ==>
              run[t].sw.muxOut[j] != run[t].sw.muxOut[k]
    ensures forall j: Port :: !run[t].sw.free[j] ==>
              run[t].sw.muxIn[run[t].sw.muxOut[j]] == j && j == Wanted(at, run[t].q[run[t].sw.muxOut[j]].packet)
    ensures forall i: Port :: run[t].q[i].state == BODY ==>
              !run[t].sw.free[run[t].sw.muxIn[i]] && run[t].sw.muxOut[run[t].sw.muxIn[i]] == i
  {
    ResetEstablishes(run[0], at);
    RunKeepsInv(run, at, t);
    hide Wanted;
    var r := run[t];
    forall j: Port | !r.sw.free[j]
      ensures r.sw.muxIn[r.sw.muxOut[j]] == j && j == Wanted(at, r.q[r.sw.muxOut[j]].packet)
    {
      assert OutputOk(r, j) && InputOk(r, r.sw.muxOut[j], at);
    }
    forall i: Port | r.q[i].state == BODY
      ensures !r.sw.free[r.sw.muxIn[i]] && r.sw.muxOut[r.sw.muxIn[i]] == i
    {
      assert InputOk(r, i, at);
    }
  }

  /** What one cycle may do to an output: a free one is granted to the selected input, which
      wants it; a busy one keeps its input until that input's `sender` has fallen, and is
      freed in that very cycle. */
  lemma OutputTurns(run: seq<Router>, at: Pos, t: nat, j: Port)
    requires IsRun(run, at) && IsReset(run[0]) && t + 1 < |run|
    ensures Shaped(run[t]) && Shaped(run[t + 1])
    ensures var r, r' := run[t], run[t + 1];
            if r.sw.free[j] then
              r'.sw.free[j] || (r.q[r.sw.sel].state == HEADER && j == Wanted(at, r.q[r.sw.sel].packet)
                                && r'.sw.muxOut[j] == r.sw.sel && r'.sw.ackH[r.sw.sel])
            else
              && (r'.sw.free[j] <==> r.q[r.sw.muxOut[j]].state == END)
              && r'.sw.muxOut[j] == r.sw.muxOut[j]
  {
    ResetEstablishes(run[0], at);
    RunKeepsInv(run, at, t);
    var r, r' := run[t], run[t + 1];
    FreeAfter(r, r', at, j);
    hide RisingEdge, FallingEdge, Wanted;
    if r.sw.ea == S0 {
      assert r.sw.free[j];
    } else {
      MuxAfter(r, r', at, j);
      SignalsAfter(r, r', at, r.sw.sel);
    }
  }

  /** Cycles to the next selection, from each phase. */
  function ToSelection(ea: Phase): nat {
    match ea
    case 0 => 2 case 1 => 1 case 2 => 0 case 3 => 4 case 7 => 2 case _ => 3
  }

  /** Bounds the cycles until input i is selected. */
  function Patience(r: Router, i: Port): nat {
    6 * RoundRobin.Distance(r.sw.sel, i, NPORT) + ToSelection(r.sw.ea)
  }

  predicate Selected(r: Router, i: Port) { r.sw.ea == S3 && r.sw.sel == i }

  lemma PatienceShrinks(r: Router, r': Router, at: Pos, i: Port)
    requires RouterInv(r, at) && Cycle(r, r', at) && r.q[i].state == HEADER && r'.q[i].state == HEADER
    requires !Selected(r', i) && r.sw.ea != S0
    ensures Patience(r', i) < Patience(r, i)
  {
    hide Prox, Wanted, DirX, DirY;
    assert Wires(r).h[i] && Wires(r').h[i];
    if r.sw.ea == S2 {
      SelectsARequest(r, r', at);
      RoundRobin.NextIsNearest(Wires(r).h, r.sw.sel);
    }
  }

  lemma {:induction false} PatienceRunsOut(run: seq<Router>, at: Pos, i: Port, t: nat)
    requires IsRun(run, at) && RouterInv(run[0], at) && t < |run| && run[0].sw.ea != S0
    requires forall u :: 0 <= u <= t ==> Shaped(run[u]) && run[u].q[i].state == HEADER
    requires forall u :: 1 <= u <= t ==> !Selected(run[u], i)
    ensures run[t].sw.ea != S0
    ensures Patience(run[t], i) + t <= Patience(run[0], i)
  {
    if t > 0 {
      PatienceRunsOut(run, at, i, t - 1);
      RunKeepsInv(run, at, t - 1);
      assert Cycle(run[t - 1], run[t], at);
      PatienceShrinks(run[t - 1], run[t], at, i);
      SignalsAfter(run[t - 1], run[t], at, i);
    }
  }

  /** No input starves: from any cycle after reset on, one that keeps asking is selected,
      and has its output tested, within 35 cycles whatever the other inputs do. */
  lemma InputIsSelected(run: seq<Router>, at: Pos, i: Port, s: nat)
    requires IsRun(run, at) && IsReset(run[0]) && 1 <= s && s + 35 < |run|
    requires forall u :: s <= u <= s + 35 ==> Shaped(run[u]) && run[u].q[i].state == HEADER
    ensures exists t :: s < t <= s + 35 && Selected(run[t], i)
  {
    ResetEstablishes(run[0], at);
    RunKeepsInv(run, at, s - 1);
    RunKeepsInv(run, at, s);
    assert Cycle(run[s - 1], run[s], at);
    SignalsAfter(run[s - 1], run[s], at, i);
    var rest := run[s..];
    hide Cycle, RouterInv, Patience;
    forall t | 0 <= t < |rest| - 1
      ensures Cycle(rest[t], rest[t + 1], at)
    {
      assert Cycle(run[s + t], run[s + t + 1], at);
    }
    if forall t :: s < t <= s + 35 ==> !Selected(run[t], i) {
      forall u | 1 <= u <= 35
        ensures !Selected(rest[u], i)
      {
        assert rest[u] == run[s + u];
      }
      PatienceRunsOut(rest, at, i, 35);
      PatienceIsBounded(rest, i);
    }
  }

  lemma PatienceIsBounded(run: seq<Router>, i: Port)
    requires |run| > 35
    ensures Patience(run[0], i) < 35 + Patience(run[35], i)
  {
  }

  /** A selected input whose wanted output is free after the edge is granted it. */
  lemma SelectionIsGranted(run: seq<Router>, at: Pos, t: nat, i: Port)
    requires IsRun(run, at) && IsReset(run[0]) && t + 2 < |run|
    requires Shaped(run[t]) && Selected(run[t], i)
    ensures Shaped(run[t + 1]) && Shaped(run[t + 2])
    ensures run[t + 1].sw.free[Wanted(at, run[t + 1].q[i].packet)] <==>
              run[t + 2].sw.ackH[i]
    ensures run[t + 2].sw.ackH[i] ==> run[t + 2].sw.muxIn[i] == Wanted(at, run[t + 1].q[i].packet)
  {
    ResetEstablishes(run[0], at);
    RunKeepsInv(run, at, t);
    RunKeepsInv(run, at, t + 1);
    var r, r' := run[t], run[t + 1];
    GrantsTheWantedOutput(RisingEdge(r.sw, Wires(r), at), Wires(r'), at);
    SignalsAfter(r', run[t + 2], at, i);
    hide Wanted, DirX, DirY, Prox;
    if r'.sw.ea != S0 {
      MuxAfter(r', run[t + 2], at, i);
    }
  }
}
