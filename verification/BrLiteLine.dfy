/** What one clock edge does to the line of one flood, seen from a single router. */
module BrLiteLine {
  import opened Topology
  import opened BrLite
  import opened BrLiteCam

  /** Router `r` has a used line for flood `k`. */
  ghost predicate Has(r: Router, k: Key)
    requires Shape(r)
  {
    exists i: nat :: At(r, k, i)
  }

  /** Router `r` is sending line `i` on its ports. */
  predicate Sending(r: Router, i: nat) { r.outp.state == OUT_WAIT_ACK_PORTS && r.outp.line == i }

  /** Router `r` is handing line `i` to its own sink. */
  predicate SendingLocal(r: Router, i: nat) { r.outp.state == OUT_SEND_LOCAL && r.outp.line == i }

  /** Nothing in this cycle turns the line of `k` into a CLEAR. */
  predicate NoClearFor(r: Router, w: Wires, k: Key)
    requires Shape(r) && WiresOk(w)
  {
    && (ClearFires(r) ==> !At(r, k, r.io.wroteIdx))
    && (r.inp.state == IN_CLEAR ==> w.msg[r.inp.port].key != k)
  }

  /** A line that is not a CLEAR survives; only OUT_TEST_SVC takes its pending flag. */
  lemma HeldStep(r: Router, w: Wires, k: Key, i: nat)
    requires CamInv(r, w) && At(r, k, i) && r.io.flag[i].svc != CLEAR && NoClearFor(r, w, k)
    ensures At(Step(r, w), k, i)
    ensures LineMsg(Step(r, w), i) == LineMsg(r, i) && Step(r, w).inp.entry[i] == r.inp.entry[i]
    ensures Step(r, w).io.flag[i].pending == (r.io.flag[i].pending && !ClearsPending(r, i))
  {
    LineStep(r, w, i);
  }

  /** A line new to the flood was written in this cycle, pending, from the selected port,
      which requests it; the router had no line for the flood and is not sending the new one. */
  lemma NewStep(r: Router, w: Wires, k: Key, i: nat)
    requires CamInv(r, w) && At(Step(r, w), k, i) && !At(r, k, i)
    ensures !Has(r, k)
    ensures w.req[r.inp.port] && w.msg[r.inp.port].key == k && w.msg[r.inp.port].svc != CLEAR
    ensures LineMsg(Step(r, w), i) == w.msg[r.inp.port] && Step(r, w).inp.entry[i].origin == r.inp.port
    ensures Step(r, w).io.flag[i].pending
    ensures !Sending(Step(r, w), i) && !SendingLocal(Step(r, w), i)
  {
    LineStep(r, w, i);
  }

  /** An acknowledge that rises for a message of the flood comes with a line for it, unless
      the message is a CLEAR. */
  lemma AckStep(r: Router, w: Wires, k: Key, q: Port)
    requires CamInv(r, w) && w.msg[q].key == k && w.msg[q].svc != CLEAR
    requires !r.inp.ack[q] && Step(r, w).inp.ack[q]
    ensures Has(r, k) || Has(Step(r, w), k)
  {
    if r.inp.state == IN_TEST_SPACE {
      assert At(r, k, FirstAt(r, k, 0));
    } else {
      LineStep(r, w, r.inp.freeIdx);
      assert At(Step(r, w), k, r.inp.freeIdx);
    }
  }

  /** An acknowledge whose request has gone is taken back at once. */
  lemma AckFalls(r: Router, w: Wires, q: Port)
    requires CamInv(r, w) && !w.req[q]
    ensures !Step(r, w).inp.ack[q]
  {
  }

  /** A request that is up was up before, or rises with every request down before. */
  lemma RequestStep(r: Router, w: Wires, q: Port)
    requires CamInv(r, w) && Step(r, w).outp.req[q]
    ensures if r.outp.req[q] then !w.ack[q] && Step(r, w).outp.msg[q] == r.outp.msg[q] && Step(r, w).outp.line == r.outp.line
            else r.outp.state == OUT_TEST_SVC && Step(r, w).outp.msg[q] == LineMsg(r, r.outp.line) && Step(r, w).outp.line == r.outp.line
  {
  }

  /** How a line gets to be sent on the ports, and how that ends. */
  lemma SendStep(r: Router, w: Wires, i: nat)
    requires CamInv(r, w) && i < |r.io.flag| && r.io.flag[i].used
    ensures Sending(Step(r, w), i) ==>
              if Sending(r, i) then forall q: Port :: Step(r, w).outp.ackPorts[q] == (r.outp.ackPorts[q] || w.ack[q])
              else r.outp.state == OUT_TEST_SVC && r.outp.line == i && Propagates(r, i)
                   && forall q: Port :: Step(r, w).outp.ackPorts[q] == !SendsOn(r, i, q)
    ensures Sending(r, i) && !Sending(Step(r, w), i) ==> forall q: Port :: r.outp.ackPorts[q] || w.ack[q]
    ensures ClearsPending(r, i) ==>
              if Propagates(r, i) then Sending(Step(r, w), i) else SendingLocal(Step(r, w), i)
    ensures SendingLocal(Step(r, w), i) ==>
              if SendingLocal(r, i) then !w.ack[LOCAL]
              else r.outp.state == OUT_TEST_SVC && r.outp.line == i && !Propagates(r, i)
    ensures SendingLocal(r, i) && !SendingLocal(Step(r, w), i) ==> w.ack[LOCAL]
  {
    if Sending(r, i) && !Sending(Step(r, w), i) {
      forall q: Port
        ensures AckedPorts(r.outp, w)[q]
      {
        assert AckedPorts(r.outp, w)[q] in AckedPorts(r.outp, w);
      }
    }
  }

  /** Requests are up exactly where a message of the selected line is still owed. */
  lemma RequestsMatch(r: Router, w: Wires, i: nat)
    requires CamInv(r, w)
    ensures Sending(r, i) ==> forall q: Port :: r.outp.req[q] == !r.outp.ackPorts[q]
    ensures SendingLocal(r, i) ==> forall q: Port :: r.outp.req[q] == (q == LOCAL)
    ensures forall q: Port :: r.outp.req[q] ==>
              (Sending(r, r.outp.line) || SendingLocal(r, r.outp.line))
              && r.outp.msg[q].key == LineKey(r, r.outp.line) && r.io.flag[r.outp.line].used
  {
  }

  /** A line that is sent is still requested somewhere. */
  lemma SendingRequests(r: Router, w: Wires, i: nat)
    requires CamInv(r, w) && (Sending(r, i) || SendingLocal(r, i))
    ensures exists q: Port :: r.outp.req[q] && r.outp.msg[q].key == LineKey(r, r.outp.line)
  {
    var q :| 0 <= q < NPORT && r.outp.req[q];
    assert r.outp.msg[q].key == LineKey(r, r.outp.line);
  }

  /** The line of `k`, if any, still carries the flood and not yet its CLEAR. */
  ghost predicate Fresh(r: Router, k: Key)
    requires Shape(r)
  {
    exists i: nat :: At(r, k, i) && r.io.flag[i].svc != CLEAR
  }

  /** Router `r` is freeing line `i` in this cycle. */
  predicate Freeing(r: Router, i: nat) { r.outp.state == OUT_CLEAR_TABLE && r.outp.line == i }

  /** A line at rest stays at rest or turns into a pending CLEAR. */
  lemma RestStep(r: Router, w: Wires, k: Key, i: nat)
    requires CamInv(r, w) && At(r, k, i) && r.io.flag[i].svc != CLEAR
    requires !r.io.flag[i].pending && !Sending(r, i) && !SendingLocal(r, i)
    ensures At(Step(r, w), k, i) && Step(r, w).inp.entry[i] == r.inp.entry[i]
    ensures !Sending(Step(r, w), i) && !SendingLocal(Step(r, w), i) && !Freeing(Step(r, w), i)
    ensures if Step(r, w).io.flag[i].svc == CLEAR then Step(r, w).io.flag[i].pending
            else !Step(r, w).io.flag[i].pending
  {
    LineStep(r, w, i);
    SendStep(r, w, i);
  }

  /** A CLEAR line goes from pending over sending to freed, and stays a CLEAR on the way. */
  lemma ClearStep(r: Router, w: Wires, k: Key, i: nat)
    requires CamInv(r, w) && At(r, k, i) && r.io.flag[i].svc == CLEAR
    requires r.io.flag[i].pending || Sending(r, i) || Freeing(r, i)
    ensures At(Step(r, w), k, i) == !Freeing(r, i)
    ensures !Freeing(r, i) ==>
              && Step(r, w).io.flag[i].svc == CLEAR && Step(r, w).inp.entry[i] == r.inp.entry[i]
              && (Step(r, w).io.flag[i].pending || Sending(Step(r, w), i) || Freeing(Step(r, w), i))
    ensures Freeing(Step(r, w), i) ==> Sending(r, i)
  {
    LineStep(r, w, i);
    SendStep(r, w, i);
  }

  /** When a CLEAR for `k` is acknowledged, the line of `k` has turned into a CLEAR or is gone. */
  lemma ClearAckStep(r: Router, w: Wires, k: Key, q: Port)
    requires CamInv(r, w) && w.msg[q].key == k && w.msg[q].svc == CLEAR
    requires !r.inp.ack[q] && Step(r, w).inp.ack[q]
    requires forall i: nat :: At(r, k, i) && r.io.flag[i].svc != CLEAR ==> !r.io.flag[i].pending
    ensures !Fresh(Step(r, w), k)
  {
    var hit := FirstAt(r, k, 0);
    forall i: nat | At(Step(r, w), k, i)
      ensures Step(r, w).io.flag[i].svc == CLEAR
    {
      LineStep(r, w, i);
      assert At(r, k, i);
      if r.inp.state == IN_TEST_SPACE {
        SameLine(r, w, k, i, hit);
      }
    }
  }

  lemma SameLine(r: Router, w: Wires, k: Key, i: nat, j: nat)
    requires CamInv(r, w) && At(r, k, i) && At(r, k, j)
    ensures i == j
  {
    OneLine(r, k, i, j);
  }

  /** A CLEAR under OUT_TEST_SVC is requested on every mesh port but its origin. */
  lemma ClearIsSent(r: Router, w: Wires, q: Port)
    requires CamInv(r, w) && r.outp.state == OUT_TEST_SVC && r.io.flag[r.outp.line].svc == CLEAR
    ensures Step(r, w).outp.req[q] == (q != LOCAL && q != r.inp.entry[r.outp.line].origin)
    ensures Step(r, w).outp.req[q] ==> Step(r, w).outp.msg[q].svc == CLEAR
    ensures Step(r, w).outp.ackPorts[q] == !Step(r, w).outp.req[q]
  {
  }

  /** The local clear turns the line it was armed for. */
  lemma LocalClearTurns(r: Router, w: Wires, k: Key)
    requires CamInv(r, w) && ClearFires(r) && At(r, k, r.io.wroteIdx)
    ensures At(Step(r, w), k, r.io.wroteIdx) && PendingLine(Step(r, w), r.io.wroteIdx)
    ensures !Fresh(Step(r, w), k)
  {
    LineStep(r, w, r.io.wroteIdx);
    forall i: nat | At(Step(r, w), k, i)
      ensures Step(r, w).io.flag[i].svc == CLEAR
    {
      LineStep(r, w, i);
      SameLine(r, w, k, i, r.io.wroteIdx);
    }
  }
}
