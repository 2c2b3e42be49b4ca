/** What one router keeps at every cycle, whatever its neighbours do, as long as they hold
    a request and its data until it is acknowledged. */
module BrLiteCam {
  import opened Topology
  import opened BrLite
  import RoundRobin

  /** No two used lines of the table belong to the same flood. */
  ghost predicate UniqueKeys(r: Router)
    requires Shape(r)
  {
    forall i, j :: 0 <= i < |r.io.flag| && 0 <= j < |r.io.flag| && i != j && r.io.flag[i].used && r.io.flag[j].used
      ==> LineKey(r, i) != LineKey(r, j)
  }

  /** The input side: acknowledge lines follow the state, the selected request is still up,
      and what IN_WRITE and IN_CLEAR are about to do is still right. */
  ghost predicate InOk(r: Router, w: Wires)
    requires Shape(r) && WiresOk(w)
  {
    var a := r.inp;
    && (forall p :: 0 <= p < NPORT ==> a.ack[p] == (a.state == IN_WAIT_REQ_DOWN && a.port == p))
    && (a.state == IN_ARBITRATION ==> true in w.req)
    && (a.state in {IN_TEST_SPACE, IN_WRITE, IN_CLEAR} ==> w.req[a.port])
    && (a.state == IN_WRITE ==>
          && !r.io.flag[a.freeIdx].used
          && w.msg[a.port].svc != CLEAR
          && forall i :: 0 <= i < |r.io.flag| ==> !At(r, w.msg[a.port].key, i))
    && (a.state == IN_CLEAR ==>
          && w.msg[a.port].svc == CLEAR
          && LineKey(r, a.sourceIdx) == w.msg[a.port].key
          && forall i :: 0 <= i < |r.io.flag| && At(r, w.msg[a.port].key, i) ==> i == a.sourceIdx)
  }

  /** The output side: the selected line is alive in the states that use it, and requests
      are up exactly on the ports still owing an acknowledge. */
  ghost predicate OutOk(r: Router)
    requires Shape(r)
  {
    var b := r.outp;
    && (b.state == OUT_ARBITRATION ==> exists i: nat :: PendingLine(r, i))
    && (b.state == OUT_TEST_SVC ==> PendingLine(r, b.line))
    && (b.state in {OUT_WAIT_ACK_PORTS, OUT_SEND_LOCAL, OUT_CLEAR_TABLE} ==> r.io.flag[b.line].used)
    && (b.state == OUT_CLEAR_TABLE ==> r.io.flag[b.line].svc == CLEAR)
    && (b.state == OUT_WAIT_ACK_PORTS ==> forall q :: 0 <= q < NPORT ==> b.req[q] == !b.ackPorts[q])
    && (b.state == OUT_WAIT_ACK_PORTS ==> true in b.req)
    && (b.state != OUT_WAIT_ACK_PORTS ==> forall q :: 0 <= q < NPORT ==> !b.ackPorts[q])
    && (b.state == OUT_SEND_LOCAL ==> forall q :: 0 <= q < NPORT ==> b.req[q] == (q == LOCAL))
    && (b.state !in {OUT_WAIT_ACK_PORTS, OUT_SEND_LOCAL} ==> forall q :: 0 <= q < NPORT ==> !b.req[q])
    && (forall q :: 0 <= q < NPORT && b.req[q] ==> b.msg[q].key == LineKey(r, b.line))
  }

  ghost predicate CamInv(r: Router, w: Wires) {
    Shape(r) && WiresOk(w) && UniqueKeys(r) && InOk(r, w) && OutOk(r)
  }

  /** The environment's side of the handshake: a request stays, with its data, until the
      cycle in which its acknowledge shows. It may fall in that very cycle. */
  ghost predicate HoldsRequests(r: Router, w: Wires, w': Wires)
    requires Shape(r) && WiresOk(w) && WiresOk(w')
  {
    forall p :: 0 <= p < NPORT && w.req[p] && !Step(r, w).inp.ack[p] ==> w'.req[p] && w'.msg[p] == w.msg[p]
  }

  lemma ResetEstablishes(r: Router, w: Wires)
    requires IsReset(r) && WiresOk(w)
    ensures CamInv(r, w)
  {
  }

  /** The key of a used line never changes, and a line comes into use only in IN_WRITE. */
  lemma LineStep(r: Router, w: Wires, i: nat)
    requires CamInv(r, w) && i < |r.io.flag|
    ensures var r' := Step(r, w);
            if r.inp.state == IN_WRITE && i == r.inp.freeIdx then
              && r'.io.flag[i] == Flag(true, true, w.msg[r.inp.port].key.id, w.msg[r.inp.port].svc)
              && LineMsg(r', i) == w.msg[r.inp.port] && r'.inp.entry[i].origin == r.inp.port
            else
              && LineKey(r', i) == LineKey(r, i) && r'.inp.entry[i] == r.inp.entry[i]
              && (r'.io.flag[i].used ==> r.io.flag[i].used)
              && (r.io.flag[i].used && !r'.io.flag[i].used ==> r.outp.state == OUT_CLEAR_TABLE && i == r.outp.line)
  {
  }

  lemma KeepsUniqueKeys(r: Router, w: Wires)
    requires CamInv(r, w)
    ensures UniqueKeys(Step(r, w))
  {
    var r' := Step(r, w);
    forall i, j | 0 <= i < |r.io.flag| && 0 <= j < |r.io.flag| && i != j && r'.io.flag[i].used && r'.io.flag[j].used
      ensures LineKey(r', i) != LineKey(r', j)
    {
      LineStep(r, w, i);
      LineStep(r, w, j);
      assert r.inp.state == IN_WRITE ==> !At(r, w.msg[r.inp.port].key, i) && !At(r, w.msg[r.inp.port].key, j);
    }
  }

  lemma OneLine(r: Router, k: Key, i: nat, j: nat)
    requires Shape(r) && UniqueKeys(r)
    ensures At(r, k, i) && At(r, k, j) ==> i == j
  {
    if At(r, k, i) && At(r, k, j) {
      assert r.io.flag[i].used && r.io.flag[j].used && LineKey(r, i) == LineKey(r, j);
    }
  }

  /** The look-up finds the only line there is for the message. */
  lemma KeepsTested(r: Router, w: Wires, w': Wires)
    requires CamInv(r, w) && WiresOk(w') && HoldsRequests(r, w, w') && r.inp.state == IN_TEST_SPACE
    ensures InOk(Step(r, w), w')
  {
    var r' := Step(r, w);
    var m := w.msg[r.inp.port];
    var hit := FirstAt(r, m.key, 0);
    forall i | 0 <= i < |r.io.flag|
      ensures At(r', m.key, i) ==> At(r, m.key, i) && i == hit
    {
      LineStep(r, w, i);
      OneLine(r, m.key, i, hit);
      if At(r, m.key, i) { assert At(r, m.key, hit); }
    }
    LineStep(r, w, r'.inp.sourceIdx);
    LineStep(r, w, r'.inp.freeIdx);
  }

  /** Selection lands on a requesting port, so the message tested next is on the wires. */
  lemma KeepsInOk(r: Router, w: Wires, w': Wires)
    requires CamInv(r, w) && WiresOk(w') && HoldsRequests(r, w, w')
    ensures InOk(Step(r, w), w')
  {
    match r.inp.state {
      case IN_INIT =>
        if true in w.req {
          var p :| 0 <= p < NPORT && w.req[p];
          assert w'.req[p];
        }
      case IN_ARBITRATION =>
        var p :| 0 <= p < NPORT && w.req[p];
        RoundRobin.NextIsNearest(w.req, r.inp.port);
      case IN_TEST_SPACE =>
        KeepsTested(r, w, w');
      case _ =>
    }
  }

  /** A pending line stays pending until OUT_TEST_SVC takes it. */
  lemma PendingStays(r: Router, w: Wires, i: nat)
    requires CamInv(r, w) && PendingLine(r, i)
    requires r.outp.state != OUT_TEST_SVC && r.outp.state != OUT_CLEAR_TABLE
    ensures PendingLine(Step(r, w), i)
  {
    LineStep(r, w, i);
  }

  lemma KeepsOutOk(r: Router, w: Wires)
    requires CamInv(r, w)
    ensures OutOk(Step(r, w))
  {
    var r' := Step(r, w);
    LineStep(r, w, r.outp.line);
    match r.outp.state {
      case OUT_INIT =>
        if r'.outp.state == OUT_ARBITRATION {
          var i :| 0 <= i < |PendingMask(r)| && PendingMask(r)[i];
          PendingStays(r, w, i);
        }
      case OUT_ARBITRATION =>
        var i: nat :| PendingLine(r, i);
        assert PendingMask(r)[i];
        RoundRobin.NextIsNearest(PendingMask(r), r.outp.line);
        assert PendingMask(r)[r'.outp.line];
        PendingStays(r, w, r'.outp.line);
      case OUT_TEST_SVC =>
        // three mesh ports at least are not the origin
        assert Propagates(r, r.outp.line) ==> r'.outp.req[if r.inp.entry[r.outp.line].origin == EAST then WEST else EAST];
      case OUT_WAIT_ACK_PORTS =>
        if r'.outp.state == OUT_WAIT_ACK_PORTS {
          var q :| 0 <= q < NPORT && !AckedPorts(r.outp, w)[q];
          assert r'.outp.req[q];
        }
        forall q | 0 <= q < NPORT && r'.outp.state != OUT_WAIT_ACK_PORTS
          ensures !r'.outp.req[q]
        {
          assert AckedPorts(r.outp, w)[q] in AckedPorts(r.outp, w);
        }
      case _ =>
    }
  }

  lemma KeepsCamInv(r: Router, w: Wires, w': Wires)
    requires CamInv(r, w) && WiresOk(w') && HoldsRequests(r, w, w')
    ensures CamInv(Step(r, w), w')
  {
    KeepsUniqueKeys(r, w);
    KeepsInOk(r, w, w');
    KeepsOutOk(r, w);
  }

  /** A run of one router: from reset, one clock edge per cycle, inputs as they come. */
  ghost predicate IsRun(rs: seq<Router>, ws: seq<Wires>) {
    && 0 < |rs| == |ws|
    && (forall t :: 0 <= t < |ws| ==> WiresOk(ws[t]))
    && IsReset(rs[0])
    && (forall t :: 0 <= t < |rs| ==> Shape(rs[t]))
    && (forall t :: 0 <= t < |rs| - 1 ==> rs[t + 1] == Step(rs[t], ws[t]) && HoldsRequests(rs[t], ws[t], ws[t + 1]))
  }

  lemma {:induction false} RunKeepsCamInv(rs: seq<Router>, ws: seq<Wires>, t: nat)
    requires IsRun(rs, ws) && t < |rs|
    ensures CamInv(rs[t], ws[t])
  {
    if t == 0 {
      ResetEstablishes(rs[0], ws[0]);
    } else {
      RunKeepsCamInv(rs, ws, t - 1);
      KeepsCamInv(rs[t - 1], ws[t - 1], ws[t]);
    }
  }

  predicate SetsUsed(r: Router, i: nat) { r.inp.state == IN_WRITE && i == r.inp.freeIdx }

  predicate ClearsUsed(r: Router, i: nat) { r.outp.state == OUT_CLEAR_TABLE && i == r.outp.line }

  /** Who drives `pending` of line `i` high: the local clear, an insertion, a received CLEAR. */
  predicate SetsPending(r: Router, i: nat)
    requires Shape(r) && i < |r.io.flag|
  {
    || (ClearFires(r) && i == r.io.wroteIdx)
    || SetsUsed(r, i)
    || (r.inp.state == IN_CLEAR && i == r.inp.sourceIdx && r.io.flag[i].svc != CLEAR && !r.io.flag[i].pending)
  }

  predicate ClearsPending(r: Router, i: nat) { r.outp.state == OUT_TEST_SVC && i == r.outp.line }

  /** The table is safe in every reachable cycle: floods have one line each, an insertion
      hits an unused line for a flood that has none, the line under test is used and
      pending, and no flag is driven both ways in one cycle. */
  lemma CamIsSafe(rs: seq<Router>, ws: seq<Wires>, t: nat, i: nat)
    requires IsRun(rs, ws) && t < |rs| && i < |rs[t].io.flag|
    ensures UniqueKeys(rs[t])
    ensures rs[t].inp.state == IN_WRITE ==> !rs[t].io.flag[rs[t].inp.freeIdx].used
    ensures rs[t].inp.state == IN_WRITE ==> !At(rs[t], ws[t].msg[rs[t].inp.port].key, i)
    ensures rs[t].outp.state == OUT_TEST_SVC ==> PendingLine(rs[t], rs[t].outp.line)
    ensures !(SetsUsed(rs[t], i) && ClearsUsed(rs[t], i))
    ensures !(SetsPending(rs[t], i) && ClearsPending(rs[t], i))
  {
    RunKeepsCamInv(rs, ws, t);
  }
}
