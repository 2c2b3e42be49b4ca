/** One flood across the mesh, from the moment its key is unused everywhere until it is
    quiet: who holds it, who delivered it, and the tree it leaves behind. Other floods and
    clears share the routers all the while. */
module BrLiteFlood {
  import opened Topology
  import opened BrLite
  import opened BrLiteCam
  import opened BrLiteLine
  import opened BrLiteMesh

  /** The flood under observation: where it starts, the message, and how many messages with
      its key each sink had stored before. */
  datatype Flood = Flood(src: Pos, m: Msg, base: map<Pos, nat>)

  /** How many messages of flood `k` are in a sink's log. */
  function CountKey(s: seq<Msg>, k: Key): nat {
    if s == [] then 0 else CountKey(s[..|s| - 1], k) + if s[|s| - 1].key == k then 1 else 0
  }

  /** How often router `p` has delivered the flood locally. */
  function Delivered(n: Net, f: Flood, p: Pos): int
    requires p in n.pe && p in f.base
  {
    CountKey(n.pe[p].got, f.m.key) - f.base[p]
  }

  /** How often it should: once at each router but the source, or only at the target. */
  function Due(f: Flood, p: Pos): int {
    if f.m.svc == ALL then (if p == f.src then 0 else 1)
    else if f.m.target == Address(p) then 1 else 0
  }

  ghost predicate FloodOk(n: Net, f: Flood, nx: nat, ny: nat) {
    && NetInv(n, nx, ny) && f.src in n.r && f.base.Keys == n.r.Keys
    && f.m.key.source == Address(f.src) && f.m.svc != CLEAR
  }

  /** Every neighbour of `p` holds the flood. */
  ghost predicate Saturated(n: Net, k: Key, p: Pos)
    requires Shaped(n)
  {
    forall q: Port :: q != LOCAL && Nbr(p, q) in n.r ==> Has(RouterAt(n, Nbr(p, q)), k)
  }

  /** A line of the flood carries its message, and came from a neighbour that had it earlier. */
  ghost predicate LineInv(n: Net, f: Flood, stamp: map<Pos, nat>, now: nat, p: Pos, i: nat)
    requires Shaped(n) && p in n.r && i < |n.r[p].io.flag| && stamp.Keys == n.r.Keys
  {
    var r := n.r[p];
    var o := r.inp.entry[i].origin;
    && LineMsg(r, i) == f.m
    && stamp[p] < now
    && (if p == f.src then o == LOCAL
        else o != LOCAL && Nbr(p, o) in n.r && Has(RouterAt(n, Nbr(p, o)), f.m.key) && stamp[Nbr(p, o)] < stamp[p])
  }

  /** Neighbours that acknowledged hold the flood; once the line is done with, all do. */
  ghost predicate SpreadInv(n: Net, f: Flood, p: Pos, i: nat)
    requires Shaped(n) && p in n.r && i < |n.r[p].io.flag|
  {
    var r := n.r[p];
    && (Sending(r, i) || SendingLocal(r, i) ==> !r.io.flag[i].pending)
    && (Sending(r, i) ==> Propagates(r, i))
    && (Sending(r, i) ==>
          forall q: Port :: q != LOCAL && r.outp.ackPorts[q] && Nbr(p, q) in n.r ==> Has(RouterAt(n, Nbr(p, q)), f.m.key))
    && (SendingLocal(r, i) ==> !Propagates(r, i))
    && (forall q: Port :: r.outp.line == i && r.outp.req[q] ==> r.outp.msg[q] == f.m)
    && (!r.io.flag[i].pending && Propagates(r, i) && !Sending(r, i) ==> Saturated(n, f.m.key, p))
  }

  /** An acknowledge that is up answers the request that is up. */
  ghost predicate AckInv(n: Net, f: Flood, p: Pos)
    requires Shaped(n) && p in n.r
  {
    forall q: Port :: q != LOCAL && Nbr(p, q) in n.r
      && n.r[p].outp.req[q] && n.r[p].outp.msg[q].key == f.m.key && RouterAt(n, Nbr(p, q)).inp.ack[Opp(q)]
      ==> Has(RouterAt(n, Nbr(p, q)), f.m.key)
  }

  /** The delivery count that goes with the stage the line of the flood is in. */
  predicate CountOk(n: Net, f: Flood, p: Pos, i: nat)
    requires Shaped(n) && p in n.r && i < |n.r[p].io.flag| && f.base.Keys == n.r.Keys
  {
    var r := n.r[p];
    && Delivered(n, f, p) ==
         (if r.io.flag[i].pending then 0
          else if (Sending(r, i) || SendingLocal(r, i)) && r.outp.req[LOCAL] then (if n.pe[p].ack then 1 else 0)
          else Due(f, p))
    && (!r.io.flag[i].pending && (Sending(r, i) || SendingLocal(r, i)) && r.outp.req[LOCAL] ==> Due(f, p) == 1)
  }

  /** Local deliveries so far, by the stage the line is in. */
  ghost predicate DeliveryInv(n: Net, f: Flood, p: Pos)
    requires Shaped(n) && p in n.r && f.base.Keys == n.r.Keys
  {
    var r := n.r[p];
    && (!Has(r, f.m.key) ==> Delivered(n, f, p) == 0)
    && (forall i: nat :: At(r, f.m.key, i) ==> CountOk(n, f, p, i))
  }

  ghost predicate AllLines(n: Net, f: Flood, stamp: map<Pos, nat>, now: nat)
    requires Shaped(n) && stamp.Keys == n.r.Keys
  {
    forall p, i: nat :: p in n.r && At(n.r[p], f.m.key, i) ==> LineInv(n, f, stamp, now, p, i) && SpreadInv(n, f, p, i)
  }

  ghost predicate AllAcks(n: Net, f: Flood)
    requires Shaped(n)
  {
    forall p :: p in n.r ==> AckInv(n, f, p)
  }

  ghost predicate AllDeliveries(n: Net, f: Flood)
    requires Shaped(n) && f.base.Keys == n.r.Keys
  {
    forall p :: p in n.r ==> DeliveryInv(n, f, p)
  }

  /** The processing elements use this key only for this message. */
  ghost predicate RequestsOk(n: Net, f: Flood)
    requires Shaped(n)
  {
    forall p :: p in n.r && n.pe[p].req && n.pe[p].msg.key == f.m.key ==> n.pe[p].msg == f.m
  }

  ghost predicate FloodInv(n: Net, f: Flood, stamp: map<Pos, nat>, now: nat, nx: nat, ny: nat) {
    && Shaped(n) && stamp.Keys == n.r.Keys == f.base.Keys
    && FloodOk(n, f, nx, ny)
    && AllLines(n, f, stamp, now) && AllAcks(n, f) && AllDeliveries(n, f) && RequestsOk(n, f)
  }

  /** One observed cycle: the mesh steps, nothing clears the flood, and the processing
      elements request this key only with this message. */
  ghost predicate FloodNext(n: Net, n': Net, f: Flood)
    requires Shaped(n)
  {
    && NetNext(n, n')
    && (forall p :: p in n.r && ClearFires(n.r[p]) ==> !At(n.r[p], f.m.key, n.r[p].io.wroteIdx))
    && Shaped(n') && RequestsOk(n', f)
  }

  /** The time each router first held the flood, given that `now` is this cycle. */
  ghost function Stamp(n: Net, f: Flood, stamp: map<Pos, nat>, now: nat): (s: map<Pos, nat>)
    requires Shaped(n) && stamp.Keys == n.r.Keys
    ensures s.Keys == n.r.Keys
  {
    map p | p in n.r :: if Has(n.r[p], f.m.key) then stamp[p] else now
  }

  /** What the invariants say of one line. */
  lemma LineFacts(n: Net, f: Flood, stamp: map<Pos, nat>, now: nat, nx: nat, ny: nat, p: Pos, i: nat)
    requires FloodInv(n, f, stamp, now, nx, ny) && p in n.r && At(n.r[p], f.m.key, i)
    ensures LineInv(n, f, stamp, now, p, i) && SpreadInv(n, f, p, i) && Has(n.r[p], f.m.key) && i < |n.r[p].inp.entry|
  {
    hide FloodOk, AllAcks, AllDeliveries, RequestsOk, LineInv, SpreadInv;
  }

  lemma RouterFacts(n: Net, f: Flood, stamp: map<Pos, nat>, now: nat, nx: nat, ny: nat, p: Pos)
    requires FloodInv(n, f, stamp, now, nx, ny) && p in n.r
    ensures CamInv(n.r[p], WiresAt(n, p)) && n.r[p].address == Address(p)
    ensures f.src in n.r && f.m.svc != CLEAR
  {
    hide AllLines, AllAcks, AllDeliveries, RequestsOk, CamInv;
  }

  /** Whatever carries the key on the wires is the flood's own message. */
  lemma WireMsg(n: Net, f: Flood, stamp: map<Pos, nat>, now: nat, nx: nat, ny: nat, p: Pos, q: Port)
    requires FloodInv(n, f, stamp, now, nx, ny) && p in n.r
    requires WiresAt(n, p).req[q] && WiresAt(n, p).msg[q].key == f.m.key
    ensures WiresAt(n, p).msg[q] == f.m
    ensures q != LOCAL ==> Nbr(p, q) in n.r && Has(RouterAt(n, Nbr(p, q)), f.m.key)
    ensures q == LOCAL ==> p == f.src
  {
    hide CamInv, AllLines, AllDeliveries, AllAcks, LineInv;
    if q == LOCAL {
      AddressesDiffer(n, nx, ny, p, f.src);
    } else {
      var b := Nbr(p, q);
      RouterFacts(n, f, stamp, now, nx, ny, b);
      RequestsMatch(n.r[b], WiresAt(n, b), n.r[b].outp.line);
      LineFacts(n, f, stamp, now, nx, ny, b, n.r[b].outp.line);
    }
  }

  /** The flood is safe from clears in an observed cycle. */
  lemma NothingClears(n: Net, n': Net, f: Flood, stamp: map<Pos, nat>, now: nat, nx: nat, ny: nat, p: Pos)
    requires FloodInv(n, f, stamp, now, nx, ny) && FloodNext(n, n', f) && p in n.r
    ensures CamInv(n.r[p], WiresAt(n, p)) && NoClearFor(n.r[p], WiresAt(n, p), f.m.key)
    ensures p in n'.r && n'.r[p] == Step(n.r[p], WiresAt(n, p)) && n'.r.Keys == n.r.Keys && f.m.svc != CLEAR
  {
    hide AllLines, AllDeliveries, AllAcks, RequestsOk, Step;
    RouterFacts(n, f, stamp, now, nx, ny, p);
    if n.r[p].inp.state == IN_CLEAR && WiresAt(n, p).msg[n.r[p].inp.port].key == f.m.key {
      WireMsg(n, f, stamp, now, nx, ny, p, n.r[p].inp.port);
    }
  }

  /** A held flood stays held, with its line untouched but for the pending flag, and its
      stamp lies in the past. */
  lemma LineStays(n: Net, n': Net, f: Flood, stamp: map<Pos, nat>, now: nat, nx: nat, ny: nat, p: Pos, i: nat)
    requires FloodInv(n, f, stamp, now, nx, ny) && FloodNext(n, n', f) && p in n.r && At(n.r[p], f.m.key, i)
    ensures p in n'.r && At(n'.r[p], f.m.key, i) && Has(n'.r[p], f.m.key) && i < |n'.r[p].inp.entry|
    ensures LineMsg(n'.r[p], i) == f.m && n'.r[p].inp.entry[i] == n.r[p].inp.entry[i]
    ensures n'.r[p].io.flag[i].pending == (n.r[p].io.flag[i].pending && !ClearsPending(n.r[p], i))
    ensures Stamp(n, f, stamp, now)[p] == stamp[p] < now
  {
    hide FloodOk, AllLines, AllDeliveries, AllAcks, RequestsOk, SpreadInv, NetNext, Step, CamInv, NoClearFor;
    LineFacts(n, f, stamp, now, nx, ny, p, i);
    NothingClears(n, n', f, stamp, now, nx, ny, p);
    HeldStep(n.r[p], WiresAt(n, p), f.m.key, i);
  }

  lemma HasStays(n: Net, n': Net, f: Flood, stamp: map<Pos, nat>, now: nat, nx: nat, ny: nat, p: Pos)
    requires FloodInv(n, f, stamp, now, nx, ny) && FloodNext(n, n', f) && p in n.r && Has(n.r[p], f.m.key)
    ensures p in n'.r && Has(n'.r[p], f.m.key) && Stamp(n, f, stamp, now)[p] == stamp[p] < now
  {
    hide FloodOk, AllLines, AllDeliveries, AllAcks, RequestsOk, NetNext, At;
    var i: nat :| At(n.r[p], f.m.key, i);
    LineStays(n, n', f, stamp, now, nx, ny, p, i);
  }

  /** Whoever holds the flood got it from the source, which still holds it. */
  lemma {:induction false} SourceHolds(n: Net, f: Flood, stamp: map<Pos, nat>, now: nat, nx: nat, ny: nat, p: Pos)
    requires FloodInv(n, f, stamp, now, nx, ny) && p in n.r && Has(n.r[p], f.m.key)
    ensures f.src in n.r && Has(n.r[f.src], f.m.key)
    decreases stamp[p]
  {
    hide FloodOk, AllLines, AllDeliveries, AllAcks, RequestsOk, SpreadInv, At, LineMsg;
    RouterFacts(n, f, stamp, now, nx, ny, p);
    var i: nat :| At(n.r[p], f.m.key, i);
    LineFacts(n, f, stamp, now, nx, ny, p, i);
    if p != f.src {
      SourceHolds(n, f, stamp, now, nx, ny, Nbr(p, n.r[p].inp.entry[i].origin));
    }
  }

  /** A line new to the flood: written from a port behind which the flood is held, or from
      the local port of the source, into a router that had no line for it. */
  lemma NewLine(n: Net, n': Net, f: Flood, stamp: map<Pos, nat>, now: nat, nx: nat, ny: nat, p: Pos, i: nat)
    requires FloodInv(n, f, stamp, now, nx, ny) && FloodNext(n, n', f) && p in n.r && p in n'.r
    requires At(n'.r[p], f.m.key, i) && !At(n.r[p], f.m.key, i)
    ensures !Has(n.r[p], f.m.key) && i < |n'.r[p].inp.entry| && Stamp(n, f, stamp, now)[p] == now
    ensures n'.r[p].io.flag[i].pending && LineMsg(n'.r[p], i) == f.m
    ensures !Sending(n'.r[p], i) && !SendingLocal(n'.r[p], i)
    ensures var o := n'.r[p].inp.entry[i].origin;
            if p == f.src then o == LOCAL
            else o != LOCAL && Nbr(p, o) in n.r && Has(RouterAt(n, Nbr(p, o)), f.m.key)
  {
    hide FloodOk, AllLines, AllDeliveries, AllAcks, RequestsOk, NetNext, Step, CamInv, NoClearFor;
    NothingClears(n, n', f, stamp, now, nx, ny, p);
    NewStep(n.r[p], WiresAt(n, p), f.m.key, i);
    WireMsg(n, f, stamp, now, nx, ny, p, n.r[p].inp.port);
    if n.r[p].inp.port != LOCAL {
      // the source itself would still hold the flood
      SourceHolds(n, f, stamp, now, nx, ny, Nbr(p, n.r[p].inp.port));
    }
  }

  lemma KeepsLineInv(n: Net, n': Net, f: Flood, stamp: map<Pos, nat>, now: nat, nx: nat, ny: nat, p: Pos, i: nat)
    requires FloodInv(n, f, stamp, now, nx, ny) && FloodNext(n, n', f) && p in n.r && p in n'.r && n'.r.Keys == n.r.Keys
    requires At(n'.r[p], f.m.key, i)
    ensures LineInv(n', f, Stamp(n, f, stamp, now), now + 1, p, i)
  {
    hide FloodOk, AllLines, AllDeliveries, AllAcks, RequestsOk, NetNext, SpreadInv, At, LineMsg, Has, Stamp;
    if At(n.r[p], f.m.key, i) {
      LineFacts(n, f, stamp, now, nx, ny, p, i);
      LineStays(n, n', f, stamp, now, nx, ny, p, i);
    } else {
      NewLine(n, n', f, stamp, now, nx, ny, p, i);
    }
    if p != f.src {
      HasStays(n, n', f, stamp, now, nx, ny, Nbr(p, n'.r[p].inp.entry[i].origin));
    }
  }

  /** The neighbour acknowledges a request it can see; what it sees is this flood, so it has
      a line for it already or writes one in the same cycle. */
  lemma AckMeansHeld(n: Net, n': Net, f: Flood, stamp: map<Pos, nat>, now: nat, nx: nat, ny: nat, p: Pos, q: Port)
    requires FloodInv(n, f, stamp, now, nx, ny) && FloodNext(n, n', f) && p in n.r && p in n'.r && n'.r.Keys == n.r.Keys
    requires q != LOCAL && Nbr(p, q) in n'.r
    requires n'.r[p].outp.req[q] && n'.r[p].outp.msg[q].key == f.m.key && RouterAt(n', Nbr(p, q)).inp.ack[Opp(q)]
    ensures Has(RouterAt(n', Nbr(p, q)), f.m.key)
  {
    hide FloodOk, AllLines, AllDeliveries, RequestsOk, NetNext, Step, CamInv, NoClearFor, LineMsg;
    var b := Nbr(p, q);
    OppIsBack(p, q);
    NothingClears(n, n', f, stamp, now, nx, ny, p);
    NothingClears(n, n', f, stamp, now, nx, ny, b);
    RequestStep(n.r[p], WiresAt(n, p), q);
    if !n.r[p].outp.req[q] {
      AckFalls(n.r[b], WiresAt(n, b), Opp(q));
    } else if !n.r[b].inp.ack[Opp(q)] {
      WireMsg(n, f, stamp, now, nx, ny, b, Opp(q));
      AckStep(n.r[b], WiresAt(n, b), f.m.key, Opp(q));
    }
    if Has(n.r[b], f.m.key) {
      HasStays(n, n', f, stamp, now, nx, ny, b);
    }
  }

  /** A port that counts as acknowledged while the line is sent leads to a holder. */
  lemma AckedHolds(n: Net, f: Flood, stamp: map<Pos, nat>, now: nat, nx: nat, ny: nat, p: Pos, i: nat, q: Port)
    requires FloodInv(n, f, stamp, now, nx, ny) && p in n.r && At(n.r[p], f.m.key, i) && Sending(n.r[p], i)
    requires q != LOCAL && Nbr(p, q) in n.r && (n.r[p].outp.ackPorts[q] || WiresAt(n, p).ack[q])
    ensures Has(RouterAt(n, Nbr(p, q)), f.m.key)
  {
    hide FloodOk, AllLines, AllDeliveries, RequestsOk, CamInv, LineInv, Has;
    LineFacts(n, f, stamp, now, nx, ny, p, i);
    RouterFacts(n, f, stamp, now, nx, ny, p);
    RequestsMatch(n.r[p], WiresAt(n, p), i);
    if !n.r[p].outp.ackPorts[q] {
      assert AckInv(n, f, p);
    }
  }

  /** A line that is sent on its ports is sent to holders and to neighbours yet to answer. */
  lemma KeepsSending(n: Net, n': Net, f: Flood, stamp: map<Pos, nat>, now: nat, nx: nat, ny: nat, p: Pos, i: nat, q: Port)
    requires FloodInv(n, f, stamp, now, nx, ny) && FloodNext(n, n', f) && p in n.r && p in n'.r
    requires At(n.r[p], f.m.key, i) && Sending(n'.r[p], i)
    requires q != LOCAL && n'.r[p].outp.ackPorts[q] && Nbr(p, q) in n.r && Nbr(p, q) in n'.r
    ensures Has(RouterAt(n', Nbr(p, q)), f.m.key)
  {
    hide FloodOk, AllLines, AllDeliveries, AllAcks, RequestsOk, NetNext, CamInv, Step, Has, Stamp, NoClearFor, LineMsg;
    LineFacts(n, f, stamp, now, nx, ny, p, i);
    NothingClears(n, n', f, stamp, now, nx, ny, p);
    SendStep(n.r[p], WiresAt(n, p), i);
    if Sending(n.r[p], i) {
      AckedHolds(n, f, stamp, now, nx, ny, p, i, q);
    }
    HasStays(n, n', f, stamp, now, nx, ny, Nbr(p, q));
  }

  lemma KeepsSaturated(n: Net, n': Net, f: Flood, stamp: map<Pos, nat>, now: nat, nx: nat, ny: nat, p: Pos, i: nat)
    requires FloodInv(n, f, stamp, now, nx, ny) && FloodNext(n, n', f) && p in n.r && p in n'.r && n'.r.Keys == n.r.Keys
    requires At(n.r[p], f.m.key, i) && !n'.r[p].io.flag[i].pending && Propagates(n.r[p], i) && !Sending(n'.r[p], i)
    ensures Saturated(n', f.m.key, p)
  {
    hide FloodOk, AllLines, AllDeliveries, AllAcks, RequestsOk, NetNext, CamInv, Step, Has, Stamp, NoClearFor, LineMsg;
    LineFacts(n, f, stamp, now, nx, ny, p, i);
    LineStays(n, n', f, stamp, now, nx, ny, p, i);
    NothingClears(n, n', f, stamp, now, nx, ny, p);
    SendStep(n.r[p], WiresAt(n, p), i);
    forall q: Port | q != LOCAL && Nbr(p, q) in n'.r
      ensures Has(RouterAt(n', Nbr(p, q)), f.m.key)
    {
      if Sending(n.r[p], i) {
        AckedHolds(n, f, stamp, now, nx, ny, p, i, q);
      }
      HasStays(n, n', f, stamp, now, nx, ny, Nbr(p, q));
    }
  }

  lemma KeepsSpreadInv(n: Net, n': Net, f: Flood, stamp: map<Pos, nat>, now: nat, nx: nat, ny: nat, p: Pos, i: nat)
    requires FloodInv(n, f, stamp, now, nx, ny) && FloodNext(n, n', f) && p in n.r && p in n'.r && n'.r.Keys == n.r.Keys
    requires At(n'.r[p], f.m.key, i) && CamInv(n'.r[p], WiresAt(n', p))
    ensures SpreadInv(n', f, p, i)
  {
    hide FloodOk, AllLines, AllDeliveries, AllAcks, RequestsOk, NetNext, CamInv, Step, Has, Stamp, NoClearFor, LineInv, Saturated;
    var r, r' := n.r[p], n'.r[p];
    RequestsMatch(r', WiresAt(n', p), i);
    if At(r, f.m.key, i) {
      LineFacts(n, f, stamp, now, nx, ny, p, i);
      LineStays(n, n', f, stamp, now, nx, ny, p, i);
      NothingClears(n, n', f, stamp, now, nx, ny, p);
      SameAddress(r, WiresAt(n, p));
      assert LineMsg(r, i) == f.m by { hide *; LineIsMsg(n, f, stamp, now, nx, ny, p, i); }
      assert Propagates(r', i) == Propagates(r, i);
      SendStep(r, WiresAt(n, p), i);
      forall q: Port | Sending(r', i) && q != LOCAL && r'.outp.ackPorts[q] && Nbr(p, q) in n'.r
        ensures Has(RouterAt(n', Nbr(p, q)), f.m.key)
      {
        KeepsSending(n, n', f, stamp, now, nx, ny, p, i, q);
      }
      forall q: Port | r'.outp.line == i && r'.outp.req[q]
        ensures r'.outp.msg[q] == f.m
      {
        RequestStep(r, WiresAt(n, p), q);
      }
      if !r'.io.flag[i].pending && Propagates(r', i) && !Sending(r', i) {
        KeepsSaturated(n, n', f, stamp, now, nx, ny, p, i);
      }
    } else {
      NewLine(n, n', f, stamp, now, nx, ny, p, i);
    }
  }

  lemma SameAddress(r: Router, w: Wires)
    requires Shape(r) && WiresOk(w)
    ensures Step(r, w).address == r.address
  {
  }

  lemma LineIsMsg(n: Net, f: Flood, stamp: map<Pos, nat>, now: nat, nx: nat, ny: nat, p: Pos, i: nat)
    requires FloodInv(n, f, stamp, now, nx, ny) && p in n.r && At(n.r[p], f.m.key, i)
    ensures LineMsg(n.r[p], i) == f.m
  {
    hide FloodOk, AllLines, AllDeliveries, AllAcks, RequestsOk, Has, SpreadInv, LineMsg;
    LineFacts(n, f, stamp, now, nx, ny, p, i);
  }

  /** The sink of `p` stores a message of the flood in this cycle. */
  predicate Stores(n: Net, n': Net, f: Flood, p: Pos)
    requires Shaped(n) && p in n.r && p in n'.pe
  {
    n.r[p].outp.req[LOCAL] && n.r[p].outp.msg[LOCAL].key == f.m.key && !n.pe[p].ack && n'.pe[p].ack
  }

  lemma DeliveredStep(n: Net, n': Net, f: Flood, p: Pos)
    requires Shaped(n) && FloodNext(n, n', f) && p in n.r && p in n'.pe && f.base.Keys == n.r.Keys
    ensures Delivered(n', f, p) == Delivered(n, f, p) + if Stores(n, n', f, p) then 1 else 0
  {
    hide RequestsOk, Step;
    assert SideStep(n.pe[p], n.r[p], n'.r[p].inp.ack[LOCAL], n'.pe[p]);
    var m := n.r[p].outp.msg[LOCAL];
    assert (n.pe[p].got + [m])[..|n.pe[p].got|] == n.pe[p].got;
  }

  /** Only the line of the flood can be behind a stored message of the flood. */
  lemma StoresFromLine(n: Net, n': Net, f: Flood, stamp: map<Pos, nat>, now: nat, nx: nat, ny: nat, p: Pos)
    requires FloodInv(n, f, stamp, now, nx, ny) && p in n.r && p in n'.pe && Stores(n, n', f, p)
    ensures At(n.r[p], f.m.key, n.r[p].outp.line)
    ensures Sending(n.r[p], n.r[p].outp.line) || SendingLocal(n.r[p], n.r[p].outp.line)
  {
    hide FloodOk, AllLines, AllDeliveries, AllAcks, RequestsOk, CamInv;
    RouterFacts(n, f, stamp, now, nx, ny, p);
    RequestsMatch(n.r[p], WiresAt(n, p), n.r[p].outp.line);
  }

  /** Handing a message to the local sink is due exactly where the flood is to be delivered. */
  lemma DueIsSent(n: Net, f: Flood, stamp: map<Pos, nat>, now: nat, nx: nat, ny: nat, p: Pos, i: nat)
    requires FloodInv(n, f, stamp, now, nx, ny) && p in n.r && At(n.r[p], f.m.key, i)
    ensures Due(f, p) == if !Propagates(n.r[p], i) || SendsOn(n.r[p], i, LOCAL) then 1 else 0
  {
    hide AllLines, AllDeliveries, AllAcks, RequestsOk, CamInv;
    LineIsMsg(n, f, stamp, now, nx, ny, p, i);
    RouterFacts(n, f, stamp, now, nx, ny, p);
    if Address(p) == Address(f.src) {
      AddressesDiffer(n, nx, ny, p, f.src);
    }
  }

  /** The local part of one edge, from the state of the selected line. */
  lemma LocalStep(r: Router, w: Wires, i: nat)
    requires CamInv(r, w) && i < |r.io.flag| && r.io.flag[i].used
    ensures ClearsPending(r, i) ==>
              !r.outp.req[LOCAL] && Step(r, w).outp.req[LOCAL] == (!Propagates(r, i) || SendsOn(r, i, LOCAL))
    ensures Sending(r, i) || SendingLocal(r, i) ==>
              Step(r, w).outp.req[LOCAL] == (r.outp.req[LOCAL] && !w.ack[LOCAL])
    ensures (Sending(r, i) || SendingLocal(r, i)) && r.outp.req[LOCAL] && !w.ack[LOCAL] ==>
              (Sending(r, i) ==> Sending(Step(r, w), i)) && (SendingLocal(r, i) ==> SendingLocal(Step(r, w), i))
    ensures !ClearsPending(r, i) && !Sending(r, i) && !SendingLocal(r, i) ==>
              !Sending(Step(r, w), i) && !SendingLocal(Step(r, w), i)
    ensures ClearsPending(r, i) ==> r.io.flag[i].pending
  {
    if Sending(r, i) && r.outp.req[LOCAL] && !w.ack[LOCAL] {
      assert !AckedPorts(r.outp, w)[LOCAL];
    }
  }

  lemma KeepsCount(n: Net, n': Net, f: Flood, stamp: map<Pos, nat>, now: nat, nx: nat, ny: nat, p: Pos, i: nat)
    requires FloodInv(n, f, stamp, now, nx, ny) && FloodNext(n, n', f) && p in n.r && p in n'.r && n'.r.Keys == n.r.Keys
    requires At(n.r[p], f.m.key, i) && CountOk(n, f, p, i)
    ensures i < |n'.r[p].io.flag| && CountOk(n', f, p, i)
  {
    hide FloodOk, AllLines, AllDeliveries, AllAcks, RequestsOk, CamInv, Step, Has, Stamp, NoClearFor, Delivered, Due, Propagates, SendsOn;
    LineFacts(n, f, stamp, now, nx, ny, p, i);
    LineStays(n, n', f, stamp, now, nx, ny, p, i);
    NothingClears(n, n', f, stamp, now, nx, ny, p);
    DeliveredStep(n, n', f, p);
    DueIsSent(n, f, stamp, now, nx, ny, p, i);
    LocalStep(n.r[p], WiresAt(n, p), i);
    SendStep(n.r[p], WiresAt(n, p), i);
    RequestsMatch(n.r[p], WiresAt(n, p), i);
    assert SideStep(n.pe[p], n.r[p], n'.r[p].inp.ack[LOCAL], n'.pe[p]);
    if Stores(n, n', f, p) {
      StoresFromLine(n, n', f, stamp, now, nx, ny, p);
      SameLine(n.r[p], WiresAt(n, p), f.m.key, i, n.r[p].outp.line);
    }
  }

  lemma KeepsDeliveryInv(n: Net, n': Net, f: Flood, stamp: map<Pos, nat>, now: nat, nx: nat, ny: nat, p: Pos)
    requires FloodInv(n, f, stamp, now, nx, ny) && FloodNext(n, n', f) && p in n.r && p in n'.r && n'.r.Keys == n.r.Keys
    ensures DeliveryInv(n', f, p)
  {
    hide FloodOk, AllLines, AllAcks, RequestsOk, NetNext, CamInv, Step, Stamp, NoClearFor, Delivered, Due, LineMsg, CountOk;
    DeliveredStep(n, n', f, p);
    assert DeliveryInv(n, f, p);
    if Stores(n, n', f, p) {
      StoresFromLine(n, n', f, stamp, now, nx, ny, p);
      assert Has(n.r[p], f.m.key);
    }
    if Has(n.r[p], f.m.key) {
      HasStays(n, n', f, stamp, now, nx, ny, p);
    }
    forall i: nat | At(n'.r[p], f.m.key, i)
      ensures CountOk(n', f, p, i)
    {
      if At(n.r[p], f.m.key, i) {
        KeepsCount(n, n', f, stamp, now, nx, ny, p, i);
      } else {
        NewLine(n, n', f, stamp, now, nx, ny, p, i);
        assert CountOk(n', f, p, i) by { PendingCount(n', f, p, i); }
      }
    }
  }

  lemma PendingCount(n: Net, f: Flood, p: Pos, i: nat)
    requires Shaped(n) && p in n.r && i < |n.r[p].io.flag| && f.base.Keys == n.r.Keys
    requires n.r[p].io.flag[i].pending && Delivered(n, f, p) == 0
    ensures CountOk(n, f, p, i)
  {
  }

  lemma KeepsFloodInv(n: Net, n': Net, f: Flood, stamp: map<Pos, nat>, now: nat, nx: nat, ny: nat)
    requires FloodInv(n, f, stamp, now, nx, ny) && FloodNext(n, n', f)
    ensures FloodInv(n', f, Stamp(n, f, stamp, now), now + 1, nx, ny)
  {
    hide AllLines, AllDeliveries, AllAcks, RequestsOk, CamInv, LineInv, SpreadInv, AckInv, DeliveryInv, Step;
    NetKeepsInv(n, n', nx, ny);
    assert AllLines(n', f, Stamp(n, f, stamp, now), now + 1) by {
      LinesKept(n, n', f, stamp, now, nx, ny);
    }
    assert AllAcks(n', f) by {
      AcksKept(n, n', f, stamp, now, nx, ny);
    }
    assert AllDeliveries(n', f) by {
      DeliveriesKept(n, n', f, stamp, now, nx, ny);
    }
  }

  lemma LinesKept(n: Net, n': Net, f: Flood, stamp: map<Pos, nat>, now: nat, nx: nat, ny: nat)
    requires FloodInv(n, f, stamp, now, nx, ny) && FloodNext(n, n', f) && NetInv(n', nx, ny) && n'.r.Keys == n.r.Keys
    ensures AllLines(n', f, Stamp(n, f, stamp, now), now + 1)
  {
    hide FloodOk, AllAcks, AllDeliveries, RequestsOk, NetNext, CamInv, LineInv, SpreadInv, Step;
    forall p, i: nat | p in n'.r && At(n'.r[p], f.m.key, i)
      ensures LineInv(n', f, Stamp(n, f, stamp, now), now + 1, p, i) && SpreadInv(n', f, p, i)
    {
      KeepsLineInv(n, n', f, stamp, now, nx, ny, p, i);
      KeepsSpreadInv(n, n', f, stamp, now, nx, ny, p, i);
    }
  }

  lemma AcksKept(n: Net, n': Net, f: Flood, stamp: map<Pos, nat>, now: nat, nx: nat, ny: nat)
    requires FloodInv(n, f, stamp, now, nx, ny) && FloodNext(n, n', f) && n'.r.Keys == n.r.Keys && Shaped(n')
    ensures AllAcks(n', f)
  {
    hide FloodInv, FloodNext, Step, Has;
    forall p, q: Port | p in n'.r && q != LOCAL && Nbr(p, q) in n'.r
      && n'.r[p].outp.req[q] && n'.r[p].outp.msg[q].key == f.m.key && RouterAt(n', Nbr(p, q)).inp.ack[Opp(q)]
      ensures Has(RouterAt(n', Nbr(p, q)), f.m.key)
    {
      AckMeansHeld(n, n', f, stamp, now, nx, ny, p, q);
    }
  }

  lemma DeliveriesKept(n: Net, n': Net, f: Flood, stamp: map<Pos, nat>, now: nat, nx: nat, ny: nat)
    requires FloodInv(n, f, stamp, now, nx, ny) && FloodNext(n, n', f) && n'.r.Keys == n.r.Keys && Shaped(n')
    ensures AllDeliveries(n', f)
  {
    hide FloodOk, AllLines, AllAcks, RequestsOk, NetNext, Step, DeliveryInv;
    forall p | p in n'.r
      ensures DeliveryInv(n', f, p)
    {
      KeepsDeliveryInv(n, n', f, stamp, now, nx, ny, p);
    }
  }

  /** Before the flood: its key is unused in every table. */
  ghost predicate Unused(n: Net, k: Key)
    requires Shaped(n)
  {
    forall p :: p in n.r ==> !Has(n.r[p], k)
  }

  /** After reset no key is in use anywhere. */
  lemma ResetIsUnused(n: Net, nx: nat, ny: nat, k: Key)
    requires IsNetReset(n, nx, ny)
    ensures Unused(n, k)
  {
    hide LineKey;
  }

  lemma StartEstablishes(n: Net, f: Flood, stamp: map<Pos, nat>, nx: nat, ny: nat)
    requires FloodOk(n, f, nx, ny) && Unused(n, f.m.key) && RequestsOk(n, f) && stamp.Keys == n.r.Keys
    requires forall p :: p in n.r ==> f.base[p] == CountKey(n.pe[p].got, f.m.key)
    ensures FloodInv(n, f, stamp, 0, nx, ny)
  {
    hide CamInv, LineInv, SpreadInv, CountOk;
    forall p, i: nat | p in n.r
      ensures !At(n.r[p], f.m.key, i)
    {
      assert !Has(n.r[p], f.m.key);
    }
    forall p | p in n.r
      ensures AckInv(n, f, p)
    {
      forall q: Port | n.r[p].outp.req[q]
        ensures n.r[p].outp.msg[q].key != f.m.key
      {
        RequestsMatch(n.r[p], WiresAt(n, p), n.r[p].outp.line);
        assert !At(n.r[p], f.m.key, n.r[p].outp.line);
      }
    }
  }

  /** An observed run: it starts with the key unused, and no cycle clears the flood. */
  ghost predicate IsFloodRun(ns: seq<Net>, f: Flood, nx: nat, ny: nat) {
    && 0 < |ns| && (forall t :: 0 <= t < |ns| ==> Shaped(ns[t]))
    && FloodOk(ns[0], f, nx, ny) && Unused(ns[0], f.m.key) && RequestsOk(ns[0], f)
    && (forall p :: p in ns[0].r ==> f.base[p] == CountKey(ns[0].pe[p].got, f.m.key))
    && (forall t :: 0 <= t < |ns| - 1 ==> FloodNext(ns[t], ns[t + 1], f))
  }

  lemma {:induction false} FloodRunKeepsInv(ns: seq<Net>, f: Flood, nx: nat, ny: nat, t: nat) returns (stamp: map<Pos, nat>)
    requires IsFloodRun(ns, f, nx, ny) && t < |ns|
    ensures FloodInv(ns[t], f, stamp, t, nx, ny)
  {
    hide FloodInv, FloodNext, FloodOk, Unused, RequestsOk, CountKey;
    if t == 0 {
      stamp := map p | p in ns[0].r :: 0;
      StartEstablishes(ns[0], f, stamp, nx, ny);
    } else {
      var before := FloodRunKeepsInv(ns, f, nx, ny, t - 1);
      assert before.Keys == ns[t - 1].r.Keys by { StampKeys(ns[t - 1], f, before, t - 1, nx, ny); }
      stamp := Stamp(ns[t - 1], f, before, t - 1);
      KeepsFloodInv(ns[t - 1], ns[t], f, before, t - 1, nx, ny);
    }
  }

  lemma StampKeys(n: Net, f: Flood, stamp: map<Pos, nat>, now: nat, nx: nat, ny: nat)
    requires FloodInv(n, f, stamp, now, nx, ny)
    ensures stamp.Keys == n.r.Keys
  {
  }

  /** Nothing of flood `k` is pending in a table or requested on a wire. */
  ghost predicate Quiet(n: Net, k: Key)
    requires Shaped(n)
  {
    && (forall p, i: nat :: p in n.r && At(n.r[p], k, i) ==> !n.r[p].io.flag[i].pending)
    && (forall p, q: Port :: p in n.r && n.r[p].outp.req[q] ==> n.r[p].outp.msg[q].key != k)
  }

  /** In a quiet mesh a holder that propagates has holders all around. */
  lemma QuietSaturates(n: Net, f: Flood, stamp: map<Pos, nat>, now: nat, nx: nat, ny: nat, p: Pos)
    requires FloodInv(n, f, stamp, now, nx, ny) && Quiet(n, f.m.key) && p in n.r && Has(n.r[p], f.m.key)
    requires f.m.svc == ALL || f.m.target != Address(p)
    ensures Saturated(n, f.m.key, p)
  {
    hide FloodOk, AllLines, AllDeliveries, AllAcks, RequestsOk, CamInv, LineInv;
    var i: nat :| At(n.r[p], f.m.key, i);
    LineFacts(n, f, stamp, now, nx, ny, p, i);
    LineIsMsg(n, f, stamp, now, nx, ny, p, i);
    RouterFacts(n, f, stamp, now, nx, ny, p);
    RequestsMatch(n.r[p], WiresAt(n, p), i);
    if Sending(n.r[p], i) {
      // every port has its acknowledge, for otherwise it would still request
      forall q: Port | q != LOCAL && Nbr(p, q) in n.r
        ensures Has(RouterAt(n, Nbr(p, q)), f.m.key)
      {
        assert n.r[p].outp.ackPorts[q];
      }
    }
  }

  /** One step from `p` towards `d`: first along x, then along y. */
  function Towards(p: Pos, d: Pos): (q: Port)
    requires p != d
    ensures q != LOCAL
  {
    if p.x < d.x then EAST else if p.x > d.x then WEST else if p.y < d.y then NORTH else SOUTH
  }

  /** In a quiet mesh the flood has reached `d` from any holder, if `d` is everywhere or the target. */
  lemma {:induction false} Reaches(n: Net, f: Flood, stamp: map<Pos, nat>, now: nat, nx: nat, ny: nat, p: Pos, d: Pos)
    requires FloodInv(n, f, stamp, now, nx, ny) && Quiet(n, f.m.key) && p in n.r && d in n.r && Has(n.r[p], f.m.key)
    requires f.m.svc == ALL || f.m.target == Address(d)
    ensures Has(n.r[d], f.m.key)
    decreases Dist(p, d)
  {
    hide AllLines, AllDeliveries, AllAcks, RequestsOk, CamInv, Quiet, Has;
    if p != d {
      if Address(p) == Address(d) {
        AddressesDiffer(n, nx, ny, p, d);
      }
      QuietSaturates(n, f, stamp, now, nx, ny, p);
      var q := Towards(p, d);
      Reaches(n, f, stamp, now, nx, ny, Nbr(p, q), d);
    }
  }

  /** A used line for `k`, and only one. */
  ghost predicate HoldsOnce(r: Router, k: Key)
    requires Shape(r)
  {
    exists i: nat :: At(r, k, i) && forall j: nat :: At(r, k, j) ==> j == i
  }

  lemma HoldsOne(r: Router, w: Wires, k: Key)
    requires CamInv(r, w) && Has(r, k)
    ensures HoldsOnce(r, k)
  {
    var i: nat :| At(r, k, i);
    forall j: nat | At(r, k, j)
      ensures j == i
    {
      SameLine(r, w, k, i, j);
    }
  }

  /** Deliveries in a quiet mesh, router by router. */
  lemma QuietDelivery(n: Net, f: Flood, stamp: map<Pos, nat>, now: nat, nx: nat, ny: nat, p: Pos)
    requires FloodInv(n, f, stamp, now, nx, ny) && Quiet(n, f.m.key) && p in n.r
    ensures Delivered(n, f, p) == if Has(n.r[p], f.m.key) then Due(f, p) else 0
  {
    hide FloodOk, AllLines, AllDeliveries, AllAcks, RequestsOk, CamInv, Delivered, Due;
    assert DeliveryInv(n, f, p) by { DeliveryFacts(n, f, stamp, now, nx, ny, p); }
    if Has(n.r[p], f.m.key) {
      var i: nat :| At(n.r[p], f.m.key, i);
      RouterFacts(n, f, stamp, now, nx, ny, p);
      RequestsMatch(n.r[p], WiresAt(n, p), i);
      assert CountOk(n, f, p, i);
    }
  }

  lemma DeliveryFacts(n: Net, f: Flood, stamp: map<Pos, nat>, now: nat, nx: nat, ny: nat, p: Pos)
    requires FloodInv(n, f, stamp, now, nx, ny) && p in n.r
    ensures DeliveryInv(n, f, p)
  {
    hide DeliveryInv, AllLines, AllAcks, RequestsOk, FloodOk;
  }

  /** Flood coverage, exactly once, for a message to ALL: in every run in which the key was
      unused at first and nothing cleared it, once the source holds the message and the mesh
      is quiet every router has exactly one line for it, and every router but the source has
      delivered it to its processing element exactly once, the source never. */
  lemma FloodCoversMesh(ns: seq<Net>, f: Flood, nx: nat, ny: nat, t: nat, p: Pos)
    requires IsFloodRun(ns, f, nx, ny) && t < |ns| && Quiet(ns[t], f.m.key)
    requires f.m.svc == ALL && f.src in ns[t].r && Has(ns[t].r[f.src], f.m.key) && p in ns[t].r
    ensures HoldsOnce(ns[t].r[p], f.m.key)
    ensures p in ns[t].pe && p in f.base && Delivered(ns[t], f, p) == if p == f.src then 0 else 1
  {
    hide FloodNext, FloodOk, FloodInv, Unused, RequestsOk, CamInv, Quiet, Has, At, Delivered;
    var stamp := FloodRunKeepsInv(ns, f, nx, ny, t);
    Reaches(ns[t], f, stamp, t, nx, ny, f.src, p);
    QuietDelivery(ns[t], f, stamp, t, nx, ny, p);
    RouterFacts(ns[t], f, stamp, t, nx, ny, p);
    HoldsOne(ns[t].r[p], WiresAt(ns[t], p), f.m.key);
    assert p in f.base by { BaseKeys(ns[t], f, stamp, t, nx, ny); }
  }

  lemma BaseKeys(n: Net, f: Flood, stamp: map<Pos, nat>, now: nat, nx: nat, ny: nat)
    requires FloodInv(n, f, stamp, now, nx, ny)
    ensures f.base.Keys == n.r.Keys == n.pe.Keys
  {
  }

  /** The same for a message with one target (TARGET and the monitor services): once quiet,
      the target has delivered it exactly once and no other router has delivered it at all. */
  lemma FloodFindsTarget(ns: seq<Net>, f: Flood, nx: nat, ny: nat, t: nat, d: Pos, p: Pos)
    requires IsFloodRun(ns, f, nx, ny) && t < |ns| && Quiet(ns[t], f.m.key)
    requires f.m.svc <= TARGET && f.src in ns[t].r && Has(ns[t].r[f.src], f.m.key)
    requires d in ns[t].r && f.m.target == Address(d) && p in ns[t].r
    ensures p in ns[t].pe && p in f.base && Delivered(ns[t], f, p) == if p == d then 1 else 0
  {
    hide FloodNext, FloodOk, FloodInv, Unused, RequestsOk, CamInv, Quiet, Has, At, Delivered;
    var stamp := FloodRunKeepsInv(ns, f, nx, ny, t);
    Reaches(ns[t], f, stamp, t, nx, ny, f.src, d);
    QuietDelivery(ns[t], f, stamp, t, nx, ny, p);
    assert p in f.base by { BaseKeys(ns[t], f, stamp, t, nx, ny); }
    if Address(p) == Address(d) {
      MeshOf(ns[t], f, stamp, t, nx, ny);
      AddressesDiffer(ns[t], nx, ny, p, d);
    }
  }

  lemma MeshOf(n: Net, f: Flood, stamp: map<Pos, nat>, now: nat, nx: nat, ny: nat)
    requires FloodInv(n, f, stamp, now, nx, ny)
    ensures IsMesh(n, nx, ny)
  {
    hide AllLines, AllAcks, AllDeliveries, RequestsOk;
  }
}
