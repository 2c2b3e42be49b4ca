/** The registers behind the local clear over whole runs, told by what happened and when: the
    router is busy from a local write to a clear, its timer runs for the interval after the
    last local write, and the clear is due from then on until it starts. */
module BrLiteTimer {
  import opened Topology
  import opened BrLite
  import opened BrLiteCam

  /** In cycle `u` the router writes a message of its own processing element into its table. */
  predicate WritesLocal(rs: seq<Router>, u: nat) { u < |rs| && rs[u].inp.state == IN_WRITE && rs[u].inp.port == LOCAL }

  /** In cycle `u` it starts the clear that was due. */
  predicate Fires(rs: seq<Router>, u: nat) {
    u < |rs| && rs[u].io.clearLocal && rs[u].inp.state == IN_INIT && rs[u].outp.state == OUT_INIT
  }

  /** Cycle `u` is the last one before `t` with a local write. */
  ghost predicate LastWrite(rs: seq<Router>, u: nat, t: nat) {
    u < t && WritesLocal(rs, u) && forall v :: u < v < t ==> !WritesLocal(rs, v)
  }

  /** The interval after the last local write is over at the end of cycle `v`. */
  ghost predicate TimeIsUp(rs: seq<Router>, v: nat) {
    v < |rs| && exists u: nat :: LastWrite(rs, u, v) && v == u + rs[0].clearInterval
  }

  // ---- One cycle ----

  lemma OneCycle(rs: seq<Router>, ws: seq<Wires>, t: nat)
    requires IsRun(rs, ws) && t + 1 < |rs|
    ensures Shape(rs[t]) && WiresOk(ws[t]) && rs[t + 1] == Step(rs[t], ws[t])
  {
    hide Step, HoldsRequests, IsReset, Shape;
  }

  /** What becomes of these registers, given whether the router writes or fires. */
  predicate IoMoved(r: Router, r': Router, writes: bool, fires: bool) {
    && r'.clearInterval == r.clearInterval && r'.io.tick == (r.io.tick + 1) % WORD
    && r'.io.localBusy == (writes || (r.io.localBusy && !fires))
    && r'.io.wroteLocal == (writes || (r.io.wroteLocal && !Expires(r)))
    && r'.io.clearLocal == (Expires(r) || (r.io.clearLocal && !fires))
    && r'.io.wroteIdx == (if writes then r.inp.freeIdx else r.io.wroteIdx)
    && r'.io.wroteTick == if writes then r'.io.tick else r.io.wroteTick
  }

  predicate Expires(r: Router) { r.io.wroteLocal && (r.io.tick + 1) % WORD >= (r.io.wroteTick + r.clearInterval) % WORD }

  lemma IoMoves(rs: seq<Router>, ws: seq<Wires>, t: nat)
    requires IsRun(rs, ws) && t + 1 < |rs|
    ensures IoMoved(rs[t], rs[t + 1], WritesLocal(rs, t), Fires(rs, t))
  {
    OneCycle(rs, ws, t);
    hide IsRun;
  }

  lemma Resets(rs: seq<Router>, ws: seq<Wires>)
    requires IsRun(rs, ws)
    ensures 0 < |rs| && rs[0].io.tick == 0 && !rs[0].io.localBusy && !rs[0].io.wroteLocal && !rs[0].io.clearLocal
  {
  }

  // ---- Busy ----

  /** Since a local write no clear has started. */
  ghost predicate BusySince(rs: seq<Router>, u: nat, t: nat) {
    u < t && WritesLocal(rs, u) && forall v :: u < v < t ==> !Fires(rs, v)
  }

  lemma BusyLonger(rs: seq<Router>, u: nat, t: nat)
    ensures BusySince(rs, u, t + 1) <==> (u == t && WritesLocal(rs, t)) || (BusySince(rs, u, t) && !Fires(rs, t))
  {
  }

  /** The router is busy exactly from a write of its own processing element, of whatever
      service, until a clear starts. */
  lemma {:induction false} BusyIff(rs: seq<Router>, ws: seq<Wires>, t: nat)
    requires IsRun(rs, ws) && t < |rs|
    ensures rs[t].io.localBusy <==> exists u: nat :: BusySince(rs, u, t)
  {
    hide IsRun, Fires, WritesLocal, Expires;
    Resets(rs, ws);
    if t > 0 {
      BusyIff(rs, ws, t - 1);
      IoMoves(rs, ws, t - 1);
      hide BusySince;
      BusyLonger(rs, t - 1, t - 1);
      forall u: nat
        ensures BusySince(rs, u, t) <==> (u == t - 1 && WritesLocal(rs, u)) || (BusySince(rs, u, t - 1) && !Fires(rs, t - 1))
      {
        BusyLonger(rs, u, t - 1);
      }
    }
  }

  // ---- The timer ----

  lemma TickStep(t: nat)
    ensures (t % WORD + 1) % WORD == (t + 1) % WORD
  {
  }

  /** The clock counts the cycles. */
  lemma {:induction false} ClockIs(rs: seq<Router>, ws: seq<Wires>, t: nat)
    requires IsRun(rs, ws) && t < |rs|
    ensures rs[t].io.tick == t % WORD && rs[t].clearInterval == rs[0].clearInterval
  {
    hide IsRun, Fires, WritesLocal, Expires;
    Resets(rs, ws);
    if t > 0 {
      ClockIs(rs, ws, t - 1);
      IoMoves(rs, ws, t - 1);
      TickStep(t - 1);
    }
  }

  lemma LastIsLater(rs: seq<Router>, u: nat, t: nat)
    ensures LastWrite(rs, u, t + 1) <==> if WritesLocal(rs, t) then u == t else LastWrite(rs, u, t)
  {
    hide WritesLocal;
  }

  /** The last local write is on record: its line, and the clock after it. */
  lemma {:induction false} RecordIs(rs: seq<Router>, ws: seq<Wires>, u: nat, t: nat)
    requires IsRun(rs, ws) && u < t < |rs| && LastWrite(rs, u, t)
    ensures rs[t].io.wroteIdx == rs[u].inp.freeIdx && rs[t].io.wroteTick == (u + 1) % WORD
    decreases t
  {
    hide IsRun, Fires, WritesLocal, Expires, LastWrite;
    LastIsLater(rs, u, t - 1);
    IoMoves(rs, ws, t - 1);
    if WritesLocal(rs, t - 1) {
      ClockIs(rs, ws, t);
    } else {
      assert u < t - 1 by { WrittenBefore(rs, u, t - 1); }
      RecordIs(rs, ws, u, t - 1);
    }
  }

  lemma WrittenBefore(rs: seq<Router>, u: nat, t: nat)
    requires LastWrite(rs, u, t)
    ensures u < t
  {
  }

  lemma {:induction false} NeverWritten(rs: seq<Router>, ws: seq<Wires>, t: nat)
    requires IsRun(rs, ws) && t < |rs| && forall v: nat :: v < t ==> !WritesLocal(rs, v)
    ensures !rs[t].io.wroteLocal
  {
    hide IsRun, Fires, WritesLocal, Expires;
    Resets(rs, ws);
    if t > 0 {
      NeverWritten(rs, ws, t - 1);
      IoMoves(rs, ws, t - 1);
    }
  }

  /** There is a last local write, unless there was none. */
  lemma SomeLastWrite(rs: seq<Router>, t: nat) returns (some: bool, u: nat)
    ensures some ==> u < t && LastWrite(rs, u, t)
    ensures !some ==> forall v: nat :: v < t ==> !WritesLocal(rs, v)
  {
    u := t;
    while u > 0 && !WritesLocal(rs, u - 1)
      invariant u <= t && forall v: nat :: u <= v < t ==> !WritesLocal(rs, v)
    {
      u := u - 1;
    }
    some := u > 0;
    if some { u := u - 1; }
  }

  /** The timer is up exactly when the interval after the last local write is over. */
  lemma UpAt(u: nat, t: nat, interval: nat)
    requires u < t && 0 < interval && t + interval < WORD
    ensures (t % WORD + 1) % WORD >= ((u + 1) % WORD + interval) % WORD <==> t >= u + interval
  {
  }

  lemma RecordExpires(rs: seq<Router>, ws: seq<Wires>, u: nat, t: nat)
    requires IsRun(rs, ws) && u < t < |rs| && 0 < rs[0].clearInterval && t + rs[0].clearInterval < WORD && LastWrite(rs, u, t)
    ensures Expires(rs[t]) <==> rs[t].io.wroteLocal && t >= u + rs[0].clearInterval
  {
    hide IsRun, LastWrite;
    ClockIs(rs, ws, t);
    RecordIs(rs, ws, u, t);
    UpAt(u, t, rs[0].clearInterval);
  }

  /** The timer of the last local write runs for the interval, before the clock wraps. */
  lemma {:induction false} TimerIff(rs: seq<Router>, ws: seq<Wires>, u: nat, t: nat)
    requires IsRun(rs, ws) && u < t < |rs| && 0 < rs[0].clearInterval && t + rs[0].clearInterval < WORD
    requires LastWrite(rs, u, t)
    ensures rs[t].io.wroteLocal <==> t <= u + rs[0].clearInterval
    decreases t
  {
    hide IsRun, Fires, WritesLocal, Expires, LastWrite;
    LastIsLater(rs, u, t - 1);
    IoMoves(rs, ws, t - 1);
    if !WritesLocal(rs, t - 1) {
      assert u < t - 1 by { WrittenBefore(rs, u, t - 1); }
      TimerIff(rs, ws, u, t - 1);
      RecordExpires(rs, ws, u, t - 1);
    }
  }

  // ---- The clear ----

  /** The time is up exactly in the cycle in which the router finds it so. */
  lemma ExpiresIff(rs: seq<Router>, ws: seq<Wires>, t: nat)
    requires IsRun(rs, ws) && t < |rs| && 0 < rs[0].clearInterval && t + rs[0].clearInterval < WORD
    ensures Expires(rs[t]) <==> TimeIsUp(rs, t)
  {
    hide IsRun, WritesLocal, LastWrite;
    var some, u := SomeLastWrite(rs, t);
    ClockIs(rs, ws, t);
    if some {
      RecordExpires(rs, ws, u, t);
      TimerIff(rs, ws, u, t);
      hide Expires;
      forall x: nat | LastWrite(rs, x, t)
        ensures x == u
      {
        OnlyLast(rs, x, u, t);
      }
    } else {
      NeverWritten(rs, ws, t);
      NoLast(rs, t);
    }
  }

  lemma OnlyLast(rs: seq<Router>, x: nat, u: nat, t: nat)
    requires LastWrite(rs, x, t) && LastWrite(rs, u, t)
    ensures x == u
  {
    hide WritesLocal;
  }

  lemma NoLast(rs: seq<Router>, t: nat)
    requires forall v: nat :: v < t ==> !WritesLocal(rs, v)
    ensures forall x: nat :: !LastWrite(rs, x, t)
  {
    hide WritesLocal;
  }

  /** Since the interval after a local write was over, in cycle `v`, no clear has started. */
  ghost predicate DueSince(rs: seq<Router>, v: nat, t: nat) {
    v < t && TimeIsUp(rs, v) && forall x :: v < x < t ==> !Fires(rs, x)
  }

  lemma DueLonger(rs: seq<Router>, v: nat, t: nat)
    ensures DueSince(rs, v, t + 1) <==> (v == t && TimeIsUp(rs, v)) || (DueSince(rs, v, t) && !Fires(rs, t))
  {
    hide TimeIsUp, Fires;
  }

  /** The clear is due exactly from the end of the interval after a local write, if no other
      local write came in between, until a clear starts; before the clock wraps. */
  lemma {:induction false} DueIff(rs: seq<Router>, ws: seq<Wires>, t: nat)
    requires IsRun(rs, ws) && t < |rs| && 0 < rs[0].clearInterval && t + rs[0].clearInterval < WORD
    ensures rs[t].io.clearLocal <==> exists v: nat :: DueSince(rs, v, t)
  {
    hide IsRun, Fires, WritesLocal, Expires, TimeIsUp;
    Resets(rs, ws);
    if t > 0 {
      DueIff(rs, ws, t - 1);
      IoMoves(rs, ws, t - 1);
      ExpiresIff(rs, ws, t - 1);
      hide DueSince;
      DueLonger(rs, t - 1, t - 1);
      forall v: nat
        ensures DueSince(rs, v, t) <==> (v == t - 1 && TimeIsUp(rs, v)) || (DueSince(rs, v, t - 1) && !Fires(rs, t - 1))
      {
        DueLonger(rs, v, t - 1);
      }
    }
  }
}
