/** How long one router makes a port or a line wait. A port that keeps asking is selected, and
    its request answered, within a bounded number of cycles; so is a line that stays pending.
    The bounds need that no clear is due meanwhile. */
module BrLiteService {
  import opened Topology
  import opened BrLite
  import opened BrLiteCam
  import opened BrLiteLine
  import RoundRobin

  /** Successive cycles of one router, from any point of a run on. */
  ghost predicate IsTrace(rs: seq<Router>, ws: seq<Wires>) {
    && |rs| == |ws|
    && (forall t :: 0 <= t < |rs| ==> CamInv(rs[t], ws[t]))
    && (forall t :: 0 <= t < |rs| - 1 ==> Follows(rs[t], ws[t], rs[t + 1], ws[t + 1]))
  }

  ghost predicate Follows(r: Router, w: Wires, r': Router, w': Wires) {
    && Shape(r) && WiresOk(w) && WiresOk(w')
    && r' == Step(r, w) && HoldsRequests(r, w, w')
  }

  lemma RunIsTrace(rs: seq<Router>, ws: seq<Wires>)
    requires IsRun(rs, ws)
    ensures IsTrace(rs, ws)
  {
    hide CamInv, IsReset, Step, HoldsRequests;
    forall t | 0 <= t < |rs|
      ensures CamInv(rs[t], ws[t])
    {
      RunKeepsCamInv(rs, ws, t);
    }
  }

  lemma InCycle(rs: seq<Router>, ws: seq<Wires>, t: nat)
    requires |rs| == |ws| && IsTrace(rs, ws) && t < |rs|
    ensures |ws| == |rs| && CamInv(rs[t], ws[t])
    ensures t + 1 < |rs| ==> Follows(rs[t], ws[t], rs[t + 1], ws[t + 1])
  {
    hide CamInv, Follows;
  }

  /** `n` rounds of `turn` cycles each. */
  function Rounds(n: nat, turn: nat): nat {
    if n == 0 then 0 else turn + Rounds(n - 1, turn)
  }

  lemma {:induction false} RoundsGrow(m: nat, n: nat, turn: nat)
    requires m <= n
    ensures Rounds(m, turn) <= Rounds(n, turn)
  {
    if m < n { RoundsGrow(m, n - 1, turn); }
  }

  // ---- The input process ----

  /** The message at the selected port finds every line taken by other floods. */
  ghost predicate TurnedAway(r: Router, w: Wires) {
    && Shape(r) && WiresOk(w) && r.inp.state == IN_TEST_SPACE && w.msg[r.inp.port].svc != CLEAR
    && forall i :: 0 <= i < |r.io.flag| ==> r.io.flag[i].used && LineKey(r, i) != w.msg[r.inp.port].key
  }

  /** One cycle of the input process, apart from what it writes. */
  ghost predicate InputMoved(a: InRegs, b: InRegs, w: Wires, due: bool, away: bool)
    requires WiresOk(w)
  {
    match a.state
    case IN_INIT => b.port == a.port && b.state == if !due && true in w.req then IN_ARBITRATION else IN_INIT
    case IN_ARBITRATION => b.state == IN_TEST_SPACE && b.port == RoundRobin.Next(w.req, a.port)
    case IN_TEST_SPACE => b.port == a.port && (if away then b.state == IN_INIT else b.state in {IN_WRITE, IN_CLEAR, IN_WAIT_REQ_DOWN})
    case IN_WAIT_REQ_DOWN => b.port == a.port && b.state == if w.req[a.port] then IN_WAIT_REQ_DOWN else IN_INIT
    case _ => b.port == a.port && b.state == IN_WAIT_REQ_DOWN
  }

  lemma InputMoves(r: Router, w: Wires)
    requires CamInv(r, w)
    ensures InputMoved(r.inp, Step(r, w).inp, w, r.io.clearLocal, TurnedAway(r, w))
  {
    if r.inp.state == IN_TEST_SPACE {
      var key := w.msg[r.inp.port].key;
      var hit, free := FirstAt(r, key, 0), FirstFree(r, 0);
      if hit == |r.io.flag| && free == |r.io.flag| {
        forall i | 0 <= i < |r.io.flag|
          ensures r.io.flag[i].used && LineKey(r, i) != key
        {
          assert !At(r, key, i);
        }
      }
    }
  }

  lemma InputAt(rs: seq<Router>, ws: seq<Wires>, t: nat)
    requires |rs| == |ws| && IsTrace(rs, ws) && t + 1 < |rs|
    ensures t < |ws| && WiresOk(ws[t]) && InputMoved(rs[t].inp, rs[t + 1].inp, ws[t], rs[t].io.clearLocal, TurnedAway(rs[t], ws[t]))
  {
    hide IsTrace, CamInv, Step, TurnedAway, InputMoved;
    InCycle(rs, ws, t);
    InputMoves(rs[t], ws[t]);
  }

  /** From cycle `t` on, `slack` + 1 cycles in which the selected port, though acknowledged,
      keeps its request up. */
  ghost predicate Clings(rs: seq<Router>, ws: seq<Wires>, t: nat, slack: nat) {
    && t + slack < |rs| == |ws|
    && forall u :: t <= u <= t + slack ==> Clinging(rs[u], ws[u])
  }

  predicate Clinging(r: Router, w: Wires) { WiresOk(w) && r.inp.state == IN_WAIT_REQ_DOWN && w.req[r.inp.port] }

  ghost predicate LetGoWithin(rs: seq<Router>, ws: seq<Wires>, slack: nat) {
    forall t: nat :: !Clings(rs, ws, t, slack)
  }

  /** While the input process does not come to rest, it waits for the request to fall. */
  lemma {:induction false} StillClinging(rs: seq<Router>, ws: seq<Wires>, t: nat, u: nat)
    requires |rs| == |ws| && IsTrace(rs, ws) && t <= u < |rs| && rs[t].inp.state == IN_WAIT_REQ_DOWN
    requires forall v :: t < v <= u ==> rs[v].inp.state != IN_INIT
    ensures rs[u].inp.state == IN_WAIT_REQ_DOWN && rs[u].inp.port == rs[t].inp.port
    ensures forall v :: t <= v < u ==> Clinging(rs[v], ws[v])
  {
    hide IsTrace, TurnedAway, RoundRobin.Next;
    if t < u {
      StillClinging(rs, ws, t, u - 1);
      InputAt(rs, ws, u - 1);
    }
  }

  lemma IsClinging(rs: seq<Router>, ws: seq<Wires>, t: nat, slack: nat)
    requires |rs| == |ws| && IsTrace(rs, ws) && t + slack + 1 < |rs| && forall u :: t <= u < t + slack + 1 ==> Clinging(rs[u], ws[u])
    ensures Clings(rs, ws, t, slack)
  {
    hide Clinging, CamInv, Follows;
  }

  lemma WaitEnds(rs: seq<Router>, ws: seq<Wires>, slack: nat, t: nat) returns (u: nat)
    requires |rs| == |ws| && IsTrace(rs, ws) && LetGoWithin(rs, ws, slack) && t + slack + 1 < |rs| && rs[t].inp.state == IN_WAIT_REQ_DOWN
    ensures t < u <= t + slack + 1 && rs[u].inp.state == IN_INIT && rs[u].inp.port == rs[t].inp.port
  {
    hide IsTrace, Clings, Clinging, TurnedAway, RoundRobin.Next;
    u := t + 1;
    while u < t + slack + 1 && rs[u].inp.state != IN_INIT
      invariant t < u <= t + slack + 1
      invariant forall v :: t < v < u ==> rs[v].inp.state != IN_INIT
    {
      u := u + 1;
    }
    if rs[u].inp.state != IN_INIT {
      StillClinging(rs, ws, t, u);
      IsClinging(rs, ws, t, slack);
      assert false;
    }
    StillClinging(rs, ws, t, u - 1);
    InputAt(rs, ws, u - 1);
  }

  /** The most cycles until the input process is at rest again. */
  function InLeft(state: InState, slack: nat): nat {
    match state
    case IN_INIT => 0
    case IN_ARBITRATION => slack + 4
    case IN_TEST_SPACE => slack + 3
    case IN_WAIT_REQ_DOWN => slack + 1
    case _ => slack + 2
  }

  lemma {:induction false} InputReturns(rs: seq<Router>, ws: seq<Wires>, slack: nat, t: nat) returns (u: nat)
    requires |rs| == |ws| && IsTrace(rs, ws) && LetGoWithin(rs, ws, slack) && t < |rs|
    requires t + InLeft(rs[t].inp.state, slack) < |rs|
    ensures t <= u <= t + InLeft(rs[t].inp.state, slack) && rs[u].inp.state == IN_INIT
    ensures rs[t].inp.state != IN_ARBITRATION ==> rs[u].inp.port == rs[t].inp.port
    decreases InLeft(rs[t].inp.state, slack)
  {
    hide IsTrace, CamInv, LetGoWithin, Step, RoundRobin.Next;
    match rs[t].inp.state {
      case IN_INIT => u := t;
      case IN_WAIT_REQ_DOWN => u := WaitEnds(rs, ws, slack, t);
      case _ =>
        InputAt(rs, ws, t);
        u := InputReturns(rs, ws, slack, t + 1);
    }
  }

  /** Port `i` asks in `n` successive cycles and one more. */
  ghost predicate Asks(ws: seq<Wires>, i: Port, t: nat, n: nat) {
    t + n < |ws| && forall u :: t <= u <= t + n ==> WiresOk(ws[u]) && ws[u].req[i]
  }

  /** No clear of this router's own is due in these cycles. */
  ghost predicate NoneDue(rs: seq<Router>, t: nat, n: nat) {
    t + n < |rs| && forall u :: t <= u <= t + n ==> !rs[u].io.clearLocal
  }

  /** The most cycles from one rest of the input process to the next. */
  function InTurn(slack: nat): nat { slack + 5 }

  predicate Selects(r: Router, i: Port) { r.inp.state == IN_TEST_SPACE && r.inp.port == i }

  lemma AskedIsTrue(w: Wires, i: Port)
    requires WiresOk(w) && w.req[i]
    ensures true in w.req
  {
    assert w.req[i] in w.req;
  }

  /** From rest, the asking port is selected after as many rounds as it is away. */
  lemma {:induction false} SelectedFromRest(rs: seq<Router>, ws: seq<Wires>, slack: nat, i: Port, t: nat, n: nat) returns (u: nat)
    requires |rs| == |ws| && IsTrace(rs, ws) && LetGoWithin(rs, ws, slack) && t + n < |rs| && rs[t].inp.state == IN_INIT
    requires n >= Rounds(RoundRobin.Distance(rs[t].inp.port, i, NPORT), InTurn(slack))
    requires Asks(ws, i, t, n) && NoneDue(rs, t, n)
    ensures t < u <= t + n && Selects(rs[u], i)
    decreases n
  {
    hide IsTrace, CamInv, LetGoWithin, Step, RoundRobin.Next;
    var d := RoundRobin.Distance(rs[t].inp.port, i, NPORT);
    AskedIsTrue(ws[t], i);
    InputAt(rs, ws, t);
    InputAt(rs, ws, t + 1);
    u := t + 2;
    RoundRobin.NextIsNearest(ws[t + 1].req, rs[t].inp.port);
    if rs[u].inp.port != i {
      var v := InputReturns(rs, ws, slack, u);
      var e := RoundRobin.Distance(rs[v].inp.port, i, NPORT);
      RoundsGrow(e, d - 1, InTurn(slack));
      u := SelectedFromRest(rs, ws, slack, i, v, n - (v - t));
    }
  }

  lemma DistanceLeft(sel: nat, i: nat, n: nat, turn: nat)
    requires sel < n && i < n
    ensures Rounds(RoundRobin.Distance(sel, i, n), turn) + turn <= Rounds(n + 1, turn)
  {
    RoundsGrow(RoundRobin.Distance(sel, i, n), n, turn);
  }

  /** The wait of a port: five rounds, and one for the message under way. */
  function PortWait(slack: nat): nat { Rounds(NPORT + 1, InTurn(slack)) }

  /** A port that keeps asking is selected, whatever the other ports ask for. */
  lemma PortIsSelected(rs: seq<Router>, ws: seq<Wires>, slack: nat, i: Port, t: nat) returns (u: nat)
    requires |rs| == |ws| && IsTrace(rs, ws) && LetGoWithin(rs, ws, slack)
    requires Asks(ws, i, t, PortWait(slack)) && NoneDue(rs, t, PortWait(slack))
    ensures t < u <= t + PortWait(slack) && Selects(rs[u], i)
  {
    hide IsTrace, LetGoWithin, Rounds;
    assert PortWait(slack) >= InTurn(slack) by { DistanceLeft(0, 0, NPORT, InTurn(slack)); }
    var v := InputReturns(rs, ws, slack, t);
    DistanceLeft(rs[v].inp.port, i, NPORT, InTurn(slack));
    u := SelectedFromRest(rs, ws, slack, i, v, PortWait(slack) - (v - t));
  }

  /** The request of port `i` is acknowledged, or has found the table full. */
  ghost predicate Answered(r: Router, w: Wires, i: Port) {
    Shape(r) && (r.inp.ack[i] || (TurnedAway(r, w) && r.inp.port == i))
  }

  lemma RequestStays(r: Router, w: Wires, r': Router, w': Wires, i: Port)
    requires CamInv(r, w) && Follows(r, w, r', w') && w.req[i] && !Answered(r', w', i) && Shape(r')
    ensures w'.req[i]
  {
    hide Step, CamInv;
  }

  lemma {:induction false} StillAsks(rs: seq<Router>, ws: seq<Wires>, i: Port, t: nat, n: nat)
    requires |rs| == |ws| && IsTrace(rs, ws) && t + n < |rs| && Asks(ws, i, t, 0)
    requires forall u :: t < u <= t + n ==> !Answered(rs[u], ws[u], i)
    ensures Asks(ws, i, t, n)
    decreases n
  {
    hide IsTrace, CamInv, Answered, Follows;
    if n > 0 {
      StillAsks(rs, ws, i, t, n - 1);
      InCycle(rs, ws, t + n - 1); InCycle(rs, ws, t + n);
      assert Shape(rs[t + n]) && WiresOk(ws[t + n]) by { CamShape(rs[t + n], ws[t + n]); }
      RequestStays(rs[t + n - 1], ws[t + n - 1], rs[t + n], ws[t + n], i);
    }
  }

  lemma CamShape(r: Router, w: Wires)
    requires CamInv(r, w)
    ensures Shape(r) && WiresOk(w)
  {
  }

  /** A selected request is acknowledged in the next cycle or the one after. */
  lemma SelectedIsAnswered(rs: seq<Router>, ws: seq<Wires>, i: Port, u: nat) returns (v: nat)
    requires |rs| == |ws| && IsTrace(rs, ws) && u + 2 < |rs| && Selects(rs[u], i)
    ensures u <= v <= u + 2 && Answered(rs[v], ws[v], i)
  {
    InCycle(rs, ws, u); InCycle(rs, ws, u + 1); InCycle(rs, ws, u + 2);
    hide IsTrace, Step, Follows, TurnedAway, UniqueKeys, OutOk;
    InputAt(rs, ws, u); InputAt(rs, ws, u + 1);
    v := if TurnedAway(rs[u], ws[u]) then u else if rs[u + 1].inp.state == IN_WAIT_REQ_DOWN then u + 1 else u + 2;
  }

  /** The wait of a request. */
  function AckWait(slack: nat): nat { PortWait(slack) + 2 }

  /** Every request is answered: acknowledged, or found to have no room. */
  lemma RequestIsAnswered(rs: seq<Router>, ws: seq<Wires>, slack: nat, i: Port, t: nat)
    requires |rs| == |ws| && IsTrace(rs, ws) && LetGoWithin(rs, ws, slack)
    requires t + AckWait(slack) < |rs| && Asks(ws, i, t, 0) && NoneDue(rs, t, PortWait(slack))
    ensures exists u :: t <= u <= t + AckWait(slack) && Answered(rs[u], ws[u], i)
  {
    hide IsTrace, LetGoWithin, Answered, PortWait, Asks, NoneDue;
    if forall u :: t < u <= t + PortWait(slack) ==> !Answered(rs[u], ws[u], i) {
      StillAsks(rs, ws, i, t, PortWait(slack));
      var u := PortIsSelected(rs, ws, slack, i, t);
      var v := SelectedIsAnswered(rs, ws, i, u);
    }
  }

  // ---- The output process ----

  /** One cycle of the output process, apart from what it writes. */
  ghost predicate OutputMoved(a: OutRegs, b: OutRegs, w: Wires, due: bool, mask: seq<bool>)
    requires WiresOk(w) && a.line < |mask|
  {
    match a.state
    case OUT_INIT => b.line == a.line && b.state == if !due && true in mask then OUT_ARBITRATION else OUT_INIT
    case OUT_ARBITRATION => b.state == OUT_TEST_SVC && b.line == RoundRobin.Next(mask, a.line)
    case OUT_TEST_SVC => b.line == a.line && b.state in {OUT_WAIT_ACK_PORTS, OUT_SEND_LOCAL}
    case OUT_SEND_LOCAL => b.line == a.line && b.state == if w.ack[LOCAL] then OUT_WAIT_ACK_DOWN else OUT_SEND_LOCAL
    case OUT_WAIT_ACK_DOWN => b.line == a.line && b.state == if w.ack[LOCAL] then OUT_WAIT_ACK_DOWN else OUT_INIT
    case OUT_WAIT_ACK_PORTS => b.line == a.line && b.state in {OUT_WAIT_ACK_PORTS, OUT_CLEAR_TABLE, OUT_INIT}
    case OUT_CLEAR_TABLE => b.line == a.line && b.state == OUT_INIT
  }

  lemma OutputMoves(r: Router, w: Wires)
    requires CamInv(r, w)
    ensures OutputMoved(r.outp, Step(r, w).outp, w, r.io.clearLocal, PendingMask(r))
  {
  }

  lemma OutputAt(rs: seq<Router>, ws: seq<Wires>, t: nat)
    requires |rs| == |ws| && IsTrace(rs, ws) && t + 1 < |rs|
    ensures Shape(rs[t]) && WiresOk(ws[t])
    ensures OutputMoved(rs[t].outp, rs[t + 1].outp, ws[t], rs[t].io.clearLocal, PendingMask(rs[t]))
  {
    InCycle(rs, ws, t);
    hide IsTrace, UniqueKeys, InOk, OutOk, OutputMoved;
    OutputMoves(rs[t], ws[t]);
  }

  /** Port `q` requests and hears no acknowledge. */
  predicate Unheard(r: Router, w: Wires, q: Port) { Shape(r) && WiresOk(w) && r.outp.req[q] && !w.ack[q] }

  /** The sink was to take its acknowledge back and has not. */
  predicate HeldDown(r: Router, w: Wires) { WiresOk(w) && r.outp.state == OUT_WAIT_ACK_DOWN && w.ack[LOCAL] }

  ghost predicate Ignored(rs: seq<Router>, ws: seq<Wires>, q: Port, t: nat, wait: nat) {
    t + wait < |rs| == |ws| && forall u :: t <= u <= t + wait ==> Unheard(rs[u], ws[u], q)
  }

  ghost predicate Stuck(rs: seq<Router>, ws: seq<Wires>, t: nat, wait: nat) {
    t + wait < |rs| == |ws| && forall u :: t <= u <= t + wait ==> HeldDown(rs[u], ws[u])
  }

  /** Within `wait` cycles every request is acknowledged and the local acknowledge falls. */
  ghost predicate ServedWithin(rs: seq<Router>, ws: seq<Wires>, wait: nat) {
    && (forall t: nat :: !Stuck(rs, ws, t, wait))
    && (forall q: Port, t: nat :: !Ignored(rs, ws, q, t, wait))
  }

  /** A port that is still owed an acknowledge was owed it before. */
  lemma OwedBefore(r: Router, w: Wires, q: Port)
    requires CamInv(r, w) && Sending(r, r.outp.line) && Step(r, w).outp.req[q]
    ensures Unheard(r, w, q)
  {
    RequestStep(r, w, q);
    hide Step;
  }

  lemma {:induction false} StillOwed(rs: seq<Router>, ws: seq<Wires>, q: Port, t: nat, u: nat)
    requires |rs| == |ws| && IsTrace(rs, ws) && t <= u < |rs| && Shape(rs[u]) && rs[u].outp.req[q]
    requires forall v :: t <= v <= u ==> rs[v].outp.state == OUT_WAIT_ACK_PORTS
    ensures forall v :: t <= v < u ==> Unheard(rs[v], ws[v], q)
    decreases u
  {
    hide IsTrace, CamInv, Unheard, Step;
    if t < u {
      InCycle(rs, ws, u - 1);
      OwedBefore(rs[u - 1], ws[u - 1], q);
      UnheardAsks(rs[u - 1], ws[u - 1], q);
      StillOwed(rs, ws, q, t, u - 1);
    }
  }

  lemma UnheardAsks(r: Router, w: Wires, q: Port)
    requires Unheard(r, w, q)
    ensures Shape(r) && r.outp.req[q]
  {
  }

  lemma SomeOwed(r: Router, w: Wires) returns (q: Port)
    requires CamInv(r, w) && r.outp.state == OUT_WAIT_ACK_PORTS
    ensures r.outp.req[q]
  {
    q :| 0 <= q < NPORT && r.outp.req[q];
  }

  lemma IsIgnored(rs: seq<Router>, ws: seq<Wires>, q: Port, t: nat, wait: nat)
    requires |rs| == |ws| && t + wait + 1 < |rs| && forall v :: t <= v < t + wait + 1 ==> Unheard(rs[v], ws[v], q)
    ensures Ignored(rs, ws, q, t, wait)
  {
    hide Unheard;
  }

  /** The first cycle after `t` in which the output process has left the state, if that is
      within `n` cycles. */
  lemma FirstOut(rs: seq<Router>, t: nat, n: nat) returns (u: nat)
    requires t + n + 1 < |rs|
    ensures t < u <= t + n + 1 && forall v :: t < v < u ==> rs[v].outp.state == rs[t].outp.state
    ensures u <= t + n ==> rs[u].outp.state != rs[t].outp.state
  {
    u := t + 1;
    while u < t + n + 1 && rs[u].outp.state == rs[t].outp.state
      invariant t < u <= t + n + 1 && forall v :: t < v < u ==> rs[v].outp.state == rs[t].outp.state
    {
      u := u + 1;
    }
  }

  lemma SendEnds(rs: seq<Router>, ws: seq<Wires>, wait: nat, t: nat) returns (u: nat)
    requires |rs| == |ws| && IsTrace(rs, ws) && ServedWithin(rs, ws, wait) && t + wait + 1 < |rs|
    requires rs[t].outp.state == OUT_WAIT_ACK_PORTS
    ensures t < u <= t + wait + 1 && rs[u].outp.state in {OUT_CLEAR_TABLE, OUT_INIT} && rs[u].outp.line == rs[t].outp.line
    ensures rs[u - 1].outp.state == OUT_WAIT_ACK_PORTS && rs[u - 1].outp.line == rs[t].outp.line
  {
    hide IsTrace, Ignored, Stuck, CamInv;
    u := FirstOut(rs, t, wait);
    if rs[u].outp.state == OUT_WAIT_ACK_PORTS {
      InCycle(rs, ws, u);
      CamShape(rs[u], ws[u]);
      var q := SomeOwed(rs[u], ws[u]);
      StillOwed(rs, ws, q, t, u);
      IsIgnored(rs, ws, q, t, wait);
      assert false;
    }
    SameLineUntil(rs, ws, t, u - 1);
    OutputAt(rs, ws, u - 1);
  }

  /** The line stays selected while the state stays. */
  lemma {:induction false} SameLineUntil(rs: seq<Router>, ws: seq<Wires>, t: nat, u: nat)
    requires |rs| == |ws| && IsTrace(rs, ws) && t <= u < |rs| && rs[t].outp.state in {OUT_WAIT_ACK_PORTS, OUT_SEND_LOCAL, OUT_WAIT_ACK_DOWN}
    requires forall v :: t < v <= u ==> rs[v].outp.state == rs[t].outp.state
    ensures rs[u].outp.line == rs[t].outp.line
    decreases u
  {
    hide IsTrace, PendingMask, RoundRobin.Next;
    if t < u {
      SameLineUntil(rs, ws, t, u - 1);
      OutputAt(rs, ws, u - 1);
    }
  }

  lemma LocalOwed(r: Router, w: Wires)
    requires CamInv(r, w) && r.outp.state == OUT_SEND_LOCAL && Step(r, w).outp.state == OUT_SEND_LOCAL
    ensures Unheard(r, w, LOCAL)
  {
  }

  lemma DeliveryEnds(rs: seq<Router>, ws: seq<Wires>, wait: nat, t: nat) returns (u: nat)
    requires |rs| == |ws| && IsTrace(rs, ws) && ServedWithin(rs, ws, wait) && t + wait + 1 < |rs|
    requires rs[t].outp.state == OUT_SEND_LOCAL
    ensures t < u <= t + wait + 1 && rs[u].outp.state == OUT_WAIT_ACK_DOWN && rs[u].outp.line == rs[t].outp.line
  {
    hide IsTrace, Ignored, Stuck, CamInv, Unheard, Step;
    u := FirstOut(rs, t, wait);
    if rs[u].outp.state == OUT_SEND_LOCAL {
      forall v | t <= v < u
        ensures Unheard(rs[v], ws[v], LOCAL)
      {
        InCycle(rs, ws, v);
        LocalOwed(rs[v], ws[v]);
      }
      IsIgnored(rs, ws, LOCAL, t, wait);
      assert false;
    }
    SameLineUntil(rs, ws, t, u - 1);
    OutputAt(rs, ws, u - 1);
  }

  lemma IsStuck(rs: seq<Router>, ws: seq<Wires>, t: nat, wait: nat)
    requires |rs| == |ws| && t + wait + 1 < |rs| && forall v :: t <= v < t + wait + 1 ==> HeldDown(rs[v], ws[v])
    ensures Stuck(rs, ws, t, wait)
  {
    hide HeldDown;
  }

  lemma FallEnds(rs: seq<Router>, ws: seq<Wires>, wait: nat, t: nat) returns (u: nat)
    requires |rs| == |ws| && IsTrace(rs, ws) && ServedWithin(rs, ws, wait) && t + wait + 1 < |rs|
    requires rs[t].outp.state == OUT_WAIT_ACK_DOWN
    ensures t < u <= t + wait + 1 && rs[u].outp.state == OUT_INIT && rs[u].outp.line == rs[t].outp.line
  {
    hide IsTrace, Ignored, PendingMask, RoundRobin.Next;
    u := FirstOut(rs, t, wait);
    if rs[u].outp.state == OUT_WAIT_ACK_DOWN {
      forall v | t <= v < u
        ensures HeldDown(rs[v], ws[v])
      {
        OutputAt(rs, ws, v);
      }
      IsStuck(rs, ws, t, wait);
      assert false;
    }
    SameLineUntil(rs, ws, t, u - 1);
    OutputAt(rs, ws, u - 1);
  }

  /** The most cycles until the output process is at rest again. */
  function OutLeft(state: OutState, wait: nat): nat {
    match state
    case OUT_INIT => 0
    case OUT_CLEAR_TABLE => 1
    case OUT_WAIT_ACK_DOWN => wait + 1
    case OUT_SEND_LOCAL => 2 * wait + 2
    case OUT_WAIT_ACK_PORTS => 2 * wait + 2
    case OUT_TEST_SVC => 2 * wait + 3
    case OUT_ARBITRATION => 2 * wait + 4
  }

  lemma {:induction false} OutputReturns(rs: seq<Router>, ws: seq<Wires>, wait: nat, t: nat) returns (u: nat)
    requires |rs| == |ws| && IsTrace(rs, ws) && ServedWithin(rs, ws, wait) && 0 < wait && t < |rs|
    requires t + OutLeft(rs[t].outp.state, wait) < |rs|
    ensures t <= u <= t + OutLeft(rs[t].outp.state, wait) && rs[u].outp.state == OUT_INIT
    ensures rs[t].outp.state != OUT_ARBITRATION ==> rs[u].outp.line == rs[t].outp.line
    decreases OutLeft(rs[t].outp.state, wait)
  {
    hide IsTrace, ServedWithin, PendingMask, RoundRobin.Next;
    match rs[t].outp.state {
      case OUT_INIT => u := t;
      case OUT_WAIT_ACK_PORTS => u := SendEnds(rs, ws, wait, t); u := OutputReturns(rs, ws, wait, u);
      case OUT_SEND_LOCAL => u := DeliveryEnds(rs, ws, wait, t); u := OutputReturns(rs, ws, wait, u);
      case OUT_WAIT_ACK_DOWN => u := FallEnds(rs, ws, wait, t);
      case _ =>
        OutputAt(rs, ws, t);
        u := OutputReturns(rs, ws, wait, t + 1);
    }
  }

  function OutTurn(wait: nat): nat { 2 * wait + 5 }

  /** The line is taken up for sending, or freed: an early clear frees a line that is pending. */
  predicate Served(r: Router, i: nat) { (r.outp.state == OUT_TEST_SVC && r.outp.line == i) || Freeing(r, i) }

  ghost predicate IsPending(r: Router, i: nat) { Shape(r) && PendingLine(r, i) }

  /** A pending line stays so until it is served. */
  lemma PendingStays(r: Router, w: Wires, i: nat)
    requires CamInv(r, w) && IsPending(r, i) && !Served(r, i)
    ensures IsPending(Step(r, w), i)
  {
    LineStep(r, w, i);
  }

  lemma {:induction false} PendingUntil(rs: seq<Router>, ws: seq<Wires>, i: nat, t: nat, u: nat)
    requires |rs| == |ws| && IsTrace(rs, ws) && t <= u < |rs| && IsPending(rs[t], i)
    requires forall v :: t <= v < u ==> !Served(rs[v], i)
    ensures IsPending(rs[u], i)
    decreases u
  {
    hide IsTrace, IsPending, CamInv, Step, Served;
    if t < u {
      PendingUntil(rs, ws, i, t, u - 1);
      InCycle(rs, ws, u - 1);
      PendingStays(rs[u - 1], ws[u - 1], i);
    }
  }

  /** The line is served between two cycles, or pending in the later one. */
  lemma ServedOr(rs: seq<Router>, ws: seq<Wires>, i: nat, t: nat, u: nat) returns (done: bool, v: nat)
    requires |rs| == |ws| && IsTrace(rs, ws) && t <= u < |rs| && IsPending(rs[t], i)
    ensures if done then t <= v < u && Served(rs[v], i) else IsPending(rs[u], i)
  {
    hide IsTrace, IsPending, Served;
    if v :| t <= v < u && Served(rs[v], i) {
      return true, v;
    }
    PendingUntil(rs, ws, i, t, u);
    return false, t;
  }

  lemma PendingIsTrue(r: Router, i: nat)
    requires IsPending(r, i)
    ensures i < |PendingMask(r)| && PendingMask(r)[i] && true in PendingMask(r)
  {
    assert PendingMask(r)[i] in PendingMask(r);
  }

  /** The table keeps its size. */
  lemma {:induction false} SameSize(rs: seq<Router>, ws: seq<Wires>, t: nat, u: nat)
    requires |rs| == |ws| && IsTrace(rs, ws) && t <= u < |rs|
    ensures Shape(rs[u]) && |rs[u].io.flag| == |rs[t].io.flag|
    decreases u
  {
    hide IsTrace, CamInv, Step;
    InCycle(rs, ws, u);
    CamShape(rs[u], ws[u]);
    if t < u {
      SameSize(rs, ws, t, u - 1);
      InCycle(rs, ws, u - 1);
    }
  }

  /** From rest, a pending line is served after as many rounds as it is away. */
  lemma {:induction false} ServedFromRest(rs: seq<Router>, ws: seq<Wires>, wait: nat, i: nat, t: nat, n: nat) returns (u: nat)
    requires |rs| == |ws| && IsTrace(rs, ws) && ServedWithin(rs, ws, wait) && 0 < wait && t + n < |rs|
    requires IsPending(rs[t], i) && i < |rs[t].io.flag| && rs[t].outp.line < |rs[t].io.flag| && rs[t].outp.state == OUT_INIT
    requires n >= Rounds(RoundRobin.Distance(rs[t].outp.line, i, |rs[t].io.flag|), OutTurn(wait)) && NoneDue(rs, t, n)
    ensures t <= u <= t + n && Served(rs[u], i)
    decreases n
  {
    hide IsTrace, ServedWithin, RoundRobin.Next, PendingMask, CamInv, Step;
    var size := |rs[t].io.flag|;
    var d := RoundRobin.Distance(rs[t].outp.line, i, size);
    PendingIsTrue(rs[t], i);
    OutputAt(rs, ws, t);
    PendingUntil(rs, ws, i, t, t + 1);
    PendingIsTrue(rs[t + 1], i);
    OutputAt(rs, ws, t + 1);
    SameSize(rs, ws, t, t + 1);
    RoundRobin.NextIsNearest(PendingMask(rs[t + 1]), rs[t].outp.line);
    u := t + 2;
    if rs[u].outp.line != i {
      var v := OutputReturns(rs, ws, wait, u);
      SameSize(rs, ws, t, v);
      var done, w := ServedOr(rs, ws, i, t, v);
      if done { return w; }
      var e := RoundRobin.Distance(rs[v].outp.line, i, size);
      RoundsGrow(e, d - 1, OutTurn(wait));
      u := ServedFromRest(rs, ws, wait, i, v, n - (v - t));
    }
  }

  /** The wait of a line in a table of `size` lines. */
  function LineWait(size: nat, wait: nat): nat { Rounds(size + 1, OutTurn(wait)) }

  /** Every pending line is served, however many are pending. */
  lemma LineIsServed(rs: seq<Router>, ws: seq<Wires>, wait: nat, i: nat, t: nat) returns (u: nat)
    requires |rs| == |ws| && IsTrace(rs, ws) && ServedWithin(rs, ws, wait) && 0 < wait && t < |rs|
    requires IsPending(rs[t], i) && NoneDue(rs, t, LineWait(|rs[t].io.flag|, wait))
    ensures t <= u <= t + LineWait(|rs[t].io.flag|, wait) && Served(rs[u], i)
  {
    hide IsTrace, ServedWithin, Rounds, CamInv, PendingMask;
    var size := |rs[t].io.flag|;
    SameSize(rs, ws, t, t);
    DistanceLeft(0, 0, size, OutTurn(wait));
    var v := OutputReturns(rs, ws, wait, t);
    SameSize(rs, ws, t, v);
    var done, w := ServedOr(rs, ws, i, t, v);
    if done { return w; }
    DistanceLeft(rs[v].outp.line, i, size, OutTurn(wait));
    u := ServedFromRest(rs, ws, wait, i, v, LineWait(size, wait) - (v - t));
  }
}
