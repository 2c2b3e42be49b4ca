/** How long a broadcast takes when it is alone in the mesh: seven cycles a hop, then a bounded
    time until every request has been answered. The clear interval has to cover it. */
module BrLiteTiming {
  import opened Topology
  import opened BrLite
  import opened BrLiteCam
  import opened BrLiteLine
  import opened BrLiteMesh
  import opened BrLiteFlood
  import RoundRobin

  // ---- One router ----

  /** Router `r` knows of no other flood than `k`, which goes to all, and of no clear. */
  ghost predicate LoneRouter(r: Router, w: Wires, k: Key)
    requires Shape(r) && WiresOk(w)
  {
    && !r.io.clearLocal && r.inp.state != IN_CLEAR
    && (forall i :: 0 <= i < |r.io.flag| && r.io.flag[i].used ==> LineKey(r, i) == k && r.io.flag[i].svc == ALL)
    && (forall q: Port :: w.req[q] ==> w.msg[q].key == k && w.msg[q].svc == ALL)
    && r.outp.state in {OUT_INIT, OUT_ARBITRATION, OUT_TEST_SVC, OUT_WAIT_ACK_PORTS}
    && (!Has(r, k) ==> r.inp.state != IN_WAIT_REQ_DOWN && r.outp.state == OUT_INIT)
    && (true in PendingMask(r) ==> r.outp.state != OUT_WAIT_ACK_PORTS)
  }

  ghost predicate Asleep(r: Router, w: Wires, k: Key)
    requires Shape(r) && WiresOk(w)
  {
    !Has(r, k) && r.inp.state == IN_INIT && true !in w.req
  }

  /** The cycles from a visible request to its line having been sent. */
  ghost function Rank(r: Router, k: Key): nat
    requires Shape(r)
  {
    if Has(r, k) then
      if true !in PendingMask(r) then 0
      else if r.outp.state == OUT_TEST_SVC then 1 else if r.outp.state == OUT_ARBITRATION then 2 else 3
    else match r.inp.state
      case IN_WRITE => 4
      case IN_TEST_SPACE => 5
      case IN_ARBITRATION => 6
      case _ => 7
  }

  lemma OnlyLine(r: Router, w: Wires, k: Key, i: nat)
    requires CamInv(r, w) && LoneRouter(r, w, k) && At(r, k, i)
    ensures forall j :: 0 <= j < |r.io.flag| && j != i ==> !r.io.flag[j].used
    ensures true in PendingMask(r) <==> r.io.flag[i].pending
  {
    forall j | 0 <= j < |r.io.flag| && r.io.flag[j].used
      ensures j == i
    {
      OneLine(r, k, i, j);
    }
    if r.io.flag[i].pending { assert PendingMask(r)[i]; }
  }

  lemma PendingIs(r: Router, i: nat)
    requires Shape(r) && i < |r.io.flag|
    requires forall j :: 0 <= j < |r.io.flag| && j != i ==> !r.io.flag[j].used
    ensures true in PendingMask(r) <==> r.io.flag[i].used && r.io.flag[i].pending
  {
    if r.io.flag[i].used && r.io.flag[i].pending { assert PendingMask(r)[i]; }
  }

  /** The used lines stay those of the flood. */
  lemma LinesStay(r: Router, w: Wires, k: Key, i: nat)
    requires CamInv(r, w) && LoneRouter(r, w, k) && i < |r.io.flag|
    ensures var r' := Step(r, w);
      && (r'.io.flag[i].used ==> LineKey(r', i) == k && r'.io.flag[i].svc == ALL)
      && (r'.io.flag[i].used <==> r.io.flag[i].used || (r.inp.state == IN_WRITE && i == r.inp.freeIdx))
      && (r.io.flag[i].used ==> r'.io.flag[i].pending == (r.io.flag[i].pending && !ClearsPending(r, i)))
  {
    LineStep(r, w, i);
  }

  /** A router that holds the flood: its line goes from pending to sent, the out process with it. */
  lemma HolderMoves(r: Router, w: Wires, k: Key, i: nat)
    requires CamInv(r, w) && LoneRouter(r, w, k) && At(r, k, i)
    ensures var r' := Step(r, w);
      && At(r', k, i) && (forall j :: 0 <= j < |r'.io.flag| && j != i ==> !r'.io.flag[j].used)
      && r'.io.flag[i].pending == (r.io.flag[i].pending && r.outp.state != OUT_TEST_SVC)
      && r'.outp.state ==
           (match r.outp.state
            case OUT_INIT => if r.io.flag[i].pending then OUT_ARBITRATION else OUT_INIT
            case OUT_ARBITRATION => OUT_TEST_SVC
            case OUT_TEST_SVC => OUT_WAIT_ACK_PORTS
            case _ => r'.outp.state)
      && r'.outp.state in {OUT_INIT, OUT_ARBITRATION, OUT_TEST_SVC, OUT_WAIT_ACK_PORTS}
      && (r.outp.state == OUT_WAIT_ACK_PORTS ==> r'.outp.state in {OUT_INIT, OUT_WAIT_ACK_PORTS})
      && r'.inp.state != IN_WRITE && r'.inp.state != IN_CLEAR
  {
    OnlyLine(r, w, k, i);
    forall j: nat | j < |r.io.flag|
      ensures Step(r, w).io.flag[j].used ==> j == i
    {
      LinesStay(r, w, k, j);
    }
    LinesStay(r, w, k, i);
  }

  /** A router without the flood: its input process goes from the request to the write. */
  lemma AbsentMoves(r: Router, w: Wires, k: Key)
    requires CamInv(r, w) && LoneRouter(r, w, k) && !Has(r, k)
    ensures forall i :: 0 <= i < |r.io.flag| ==> !r.io.flag[i].used
    ensures var r' := Step(r, w);
      && r'.outp.state == OUT_INIT
      && (if r.inp.state == IN_WRITE then
            && At(r', k, r.inp.freeIdx) && r'.io.flag[r.inp.freeIdx].pending
            && (forall j :: 0 <= j < |r'.io.flag| && j != r.inp.freeIdx ==> !r'.io.flag[j].used)
            && r'.inp.state == IN_WAIT_REQ_DOWN
          else
            && (forall j :: 0 <= j < |r'.io.flag| ==> !r'.io.flag[j].used)
            && r'.inp.state ==
                 (match r.inp.state
                  case IN_INIT => if true in w.req then IN_ARBITRATION else IN_INIT
                  case IN_ARBITRATION => IN_TEST_SPACE
                  case _ => IN_WRITE))
  {
    forall i | 0 <= i < |r.io.flag|
      ensures !r.io.flag[i].used
    {
      if r.io.flag[i].used { assert At(r, k, i); }
    }
    forall j: nat | j < |r.io.flag|
      ensures Step(r, w).io.flag[j].used ==> r.inp.state == IN_WRITE && j == r.inp.freeIdx
    {
      LinesStay(r, w, k, j);
    }
    LinesStay(r, w, k, r.inp.freeIdx);
    assert true !in PendingMask(r);
    if r.inp.state == IN_WRITE { LineStep(r, w, r.inp.freeIdx); }
  }

  /** The wires of the next cycle still carry this flood only. */
  predicate CarriesOnly(w: Wires, k: Key)
    requires WiresOk(w)
  {
    forall q: Port :: w.req[q] ==> w.msg[q].key == k && w.msg[q].svc == ALL
  }

  lemma NotHeld(r: Router, k: Key)
    requires Shape(r) && forall i :: 0 <= i < |r.io.flag| ==> !r.io.flag[i].used
    ensures !Has(r, k) && true !in PendingMask(r)
  {
  }

  lemma KeepsLone(r: Router, w: Wires, w': Wires, k: Key)
    requires CamInv(r, w) && LoneRouter(r, w, k) && WiresOk(w') && CarriesOnly(w', k) && !Step(r, w).io.clearLocal
    ensures LoneRouter(Step(r, w), w', k)
  {
    var r' := Step(r, w);
    forall i | 0 <= i < |r'.io.flag| && r'.io.flag[i].used
      ensures LineKey(r', i) == k && r'.io.flag[i].svc == ALL
    {
      LinesStay(r, w, k, i);
    }
    if Has(r, k) {
      var i: nat :| At(r, k, i);
      HolderMoves(r, w, k, i);
      OnlyLine(r, w, k, i);
      PendingIs(r', i);
      hide Step, CamInv;
    } else {
      AbsentMoves(r, w, k);
      if r.inp.state == IN_WRITE {
        PendingIs(r', r.inp.freeIdx);
      } else {
        NotHeld(r', k);
      }
      hide Step, CamInv;
    }
  }

  /** A router that is awake gets on with the flood in every cycle. */
  lemma RankFalls(r: Router, w: Wires, k: Key)
    requires CamInv(r, w) && LoneRouter(r, w, k)
    ensures if Rank(r, k) == 0 then Rank(Step(r, w), k) == 0 && Has(Step(r, w), k)
            else if Asleep(r, w, k) then Rank(Step(r, w), k) == 7
            else Rank(Step(r, w), k) == Rank(r, k) - 1 && Rank(Step(r, w), k) <= 6
    ensures Has(r, k) ==> Has(Step(r, w), k)
    ensures !Asleep(r, w, k) ==> Has(Step(r, w), k) || Step(r, w).inp.state != IN_INIT
  {
    var r' := Step(r, w);
    if Has(r, k) {
      var i: nat :| At(r, k, i);
      HolderMoves(r, w, k, i);
      OnlyLine(r, w, k, i);
      PendingIs(r', i);
      hide Step, CamInv, PendingMask;
    } else {
      AbsentMoves(r, w, k);
      if r.inp.state == IN_WRITE {
        PendingIs(r', r.inp.freeIdx);
      } else {
        NotHeld(r', k);
      }
      hide Step, CamInv, PendingMask;
    }
  }

  // ---- The mesh ----

  /** The flood is alone: no router knows of another, and only its source asks, until it is
      acknowledged. */
  ghost predicate LoneAt(n: Net, f: Flood, p: Pos) {
    && Shaped(n) && p in n.r
    && LoneRouter(n.r[p], WiresAt(n, p), f.m.key)
    && (n.pe[p].req ==> p == f.src && n.pe[p].msg == f.m && !n.r[p].inp.ack[LOCAL])
  }

  /** A cycle of such a run: nobody begins to ask, the source lets go when it is acknowledged,
      and no clear is due. */
  ghost predicate LoneNext(n: Net, n': Net, f: Flood) {
    && Shaped(n) && FloodNext(n, n', f)
    && n'.r.Keys == n.r.Keys == n'.pe.Keys
    && forall p :: p in n.r ==>
         !n'.r[p].io.clearLocal && (n'.pe[p].req ==> n.pe[p].req && !n'.r[p].inp.ack[LOCAL])
  }

  ghost predicate LoneStart(n: Net, f: Flood) {
    && Shaped(n) && f.src in n.r && n.pe[f.src].req && n.pe[f.src].msg == f.m
    && forall p :: p in n.r ==>
         && n.r[p].inp.state == IN_INIT && n.r[p].outp.state == OUT_INIT && !n.r[p].io.clearLocal
         && (forall i :: 0 <= i < |n.r[p].io.flag| ==> !n.r[p].io.flag[i].used)
         && (n.pe[p].req ==> p == f.src)
  }

  ghost predicate IsLoneRun(ns: seq<Net>, f: Flood, nx: nat, ny: nat) {
    && IsFloodRun(ns, f, nx, ny) && f.m.svc == ALL && LoneStart(ns[0], f)
    && forall t :: 0 <= t < |ns| - 1 ==> LoneNext(ns[t], ns[t + 1], f)
  }

  ghost predicate HoldsAt(n: Net, f: Flood, p: Pos) { Shaped(n) && p in n.r && Has(n.r[p], f.m.key) }

  ghost predicate AsleepAt(n: Net, f: Flood, p: Pos) { Shaped(n) && p in n.r && Asleep(n.r[p], WiresAt(n, p), f.m.key) }

  ghost function RankAt(n: Net, f: Flood, p: Pos): nat { if Shaped(n) && p in n.r then Rank(n.r[p], f.m.key) else 0 }

  /** Port `q` of router `p` requests, hears a request, or hears an acknowledge. */
  ghost predicate Requests(n: Net, p: Pos, q: Port) { Shaped(n) && p in n.r && n.r[p].outp.req[q] }

  ghost predicate Hears(n: Net, p: Pos, q: Port) { Shaped(n) && p in n.r && WiresAt(n, p).req[q] }

  ghost predicate HearsAck(n: Net, p: Pos, q: Port) { Shaped(n) && p in n.r && WiresAt(n, p).ack[q] }

  /** A router that is awake is done within seven cycles a hop. */
  ghost predicate OnTimeAt(n: Net, f: Flood, t: nat, p: Pos) {
    && (!AsleepAt(n, f, p) && RankAt(n, f, p) > 0 ==> RankAt(n, f, p) + t <= 7 * (Dist(p, f.src) + 1))
    && (p == f.src ==> !AsleepAt(n, f, p))
  }

  /** What holds in every cycle `t` of a lone run. */
  ghost predicate LoneInv(n: Net, f: Flood, stamp: map<Pos, nat>, t: nat, nx: nat, ny: nat) {
    && Shaped(n) && FloodInv(n, f, stamp, t, nx, ny) && IsMesh(n, nx, ny) && f.m.svc == ALL && f.src in n.r
    && forall p :: p in n.r ==> LoneAt(n, f, p) && OnTimeAt(n, f, t, p)
  }

  /** What one router needs of it. */
  lemma Facts(n: Net, f: Flood, stamp: map<Pos, nat>, t: nat, nx: nat, ny: nat, p: Pos)
    requires LoneInv(n, f, stamp, t, nx, ny) && p in n.r
    ensures Shaped(n) && CamInv(n.r[p], WiresAt(n, p)) && LoneAt(n, f, p) && OnTimeAt(n, f, t, p)
    ensures IsMesh(n, nx, ny) && f.m.svc == ALL && f.src in n.r
  {
    hide CamInv, LoneAt, OnTimeAt, FloodInv, IsMesh;
    RouterFacts(n, f, stamp, t, nx, ny, p);
  }

  lemma Stepped(n: Net, n': Net, f: Flood, p: Pos)
    requires LoneNext(n, n', f) && p in n.r
    ensures Shaped(n) && Shaped(n') && p in n'.r && n'.r[p] == Step(n.r[p], WiresAt(n, p)) && !n'.r[p].io.clearLocal
    ensures n'.pe[p].req ==> n.pe[p].req && n'.pe[p].msg == n.pe[p].msg && !n'.r[p].inp.ack[LOCAL]
  {
    assert SideStep(n.pe[p], n.r[p], n'.r[p].inp.ack[LOCAL], n'.pe[p]);
  }

  lemma SameRouters(n: Net, n': Net, f: Flood)
    requires LoneNext(n, n', f)
    ensures n'.r.Keys == n.r.Keys && Shaped(n) && Shaped(n')
  {
  }

  // ---- The start ----

  lemma NothingUp(r: Router, w: Wires)
    requires CamInv(r, w) && r.inp.state == IN_INIT && r.outp.state == OUT_INIT
    ensures forall q: Port :: !r.inp.ack[q] && !r.outp.req[q]
  {
  }

  lemma RouterStarts(n: Net, f: Flood, stamp: map<Pos, nat>, nx: nat, ny: nat, p: Pos)
    requires FloodInv(n, f, stamp, 0, nx, ny) && LoneStart(n, f) && f.m.svc == ALL && p in n.r
    ensures LoneAt(n, f, p) && OnTimeAt(n, f, 0, p)
  {
    hide FloodInv, CamInv;
    var w := WiresAt(n, p);
    NotHeld(n.r[p], f.m.key);
    RouterFacts(n, f, stamp, 0, nx, ny, p);
    NothingUp(n.r[p], w);
    forall q: Port | q != LOCAL
      ensures !w.req[q]
    {
      if w.req[q] {
        RouterFacts(n, f, stamp, 0, nx, ny, Nbr(p, q));
        NothingUp(n.r[Nbr(p, q)], WiresAt(n, Nbr(p, q)));
      }
    }
    if p == f.src { assert w.req[LOCAL]; }
  }

  lemma Starts(n: Net, f: Flood, stamp: map<Pos, nat>, nx: nat, ny: nat)
    requires FloodInv(n, f, stamp, 0, nx, ny) && LoneStart(n, f) && f.m.svc == ALL
    ensures LoneInv(n, f, stamp, 0, nx, ny)
  {
    assert f.src in n.r && Shaped(n);
    hide FloodInv, LoneAt, OnTimeAt, IsMesh, LoneStart, LoneInv, Shape;
    MeshOf(n, f, stamp, 0, nx, ny);
    forall p | p in n.r
      ensures LoneAt(n, f, p) && OnTimeAt(n, f, 0, p)
    {
      RouterStarts(n, f, stamp, nx, ny, p);
    }
    LoneInvIf(n, f, stamp, 0, nx, ny);
  }

  // ---- The flood stays alone ----

  lemma RequestKey(r: Router, w: Wires, w': Wires, k: Key, q: Port)
    requires CamInv(r, w) && LoneRouter(r, w, k) && WiresOk(w') && CamInv(Step(r, w), w') && Step(r, w).outp.req[q]
    ensures Step(r, w).outp.msg[q].key == k
  {
    hide Step;
    RequestsMatch(Step(r, w), w', Step(r, w).outp.line);
    LinesStay(r, w, k, Step(r, w).outp.line);
  }

  ghost predicate Carried(n: Net, f: Flood, p: Pos, q: Port) { Shaped(n) && p in n.r && WiresAt(n, p).msg[q] == f.m }

  /** What a neighbour requests in the next cycle is the flood. */
  lemma NeighbourCarries(n: Net, n': Net, f: Flood, stamp: map<Pos, nat>, t: nat, stamp': map<Pos, nat>, nx: nat, ny: nat, p: Pos, q: Port)
    requires LoneInv(n, f, stamp, t, nx, ny) && FloodInv(n', f, stamp', t + 1, nx, ny) && LoneNext(n, n', f)
    requires q != LOCAL && Hears(n', p, q)
    ensures Carried(n', f, p, q)
  {
    hide LoneInv, FloodInv, CamInv, Step, LoneNext, LoneRouter;
    var b := Nbr(p, q);
    SameRouters(n, n', f);
    assert b in n'.r && b in n'.r.Keys;
    Stepped(n, n', f, b);
    Facts(n, f, stamp, t, nx, ny, b);
    RouterFacts(n', f, stamp', t + 1, nx, ny, b);
    RequestKey(n.r[b], WiresAt(n, b), WiresAt(n', b), f.m.key, Opp(q));
    WireMsg(n', f, stamp', t + 1, nx, ny, p, q);
  }

  lemma StaysLone(n: Net, n': Net, f: Flood, stamp: map<Pos, nat>, t: nat, stamp': map<Pos, nat>, nx: nat, ny: nat, p: Pos)
    requires LoneInv(n, f, stamp, t, nx, ny) && FloodInv(n', f, stamp', t + 1, nx, ny) && LoneNext(n, n', f) && p in n.r
    ensures LoneAt(n', f, p)
  {
    hide LoneInv, FloodInv, CamInv, Step, LoneNext, LoneRouter;
    Facts(n, f, stamp, t, nx, ny, p);
    Stepped(n, n', f, p);
    forall q: Port | WiresAt(n', p).req[q]
      ensures WiresAt(n', p).msg[q] == f.m
    {
      if q != LOCAL { NeighbourCarries(n, n', f, stamp, t, stamp', nx, ny, p, q); }
    }
    KeepsLone(n.r[p], WiresAt(n, p), WiresAt(n', p), f.m.key);
  }

  // ---- The wave front ----

  lemma SentLine(r: Router, w: Wires, k: Key) returns (i: nat)
    requires CamInv(r, w) && LoneRouter(r, w, k) && Has(r, k) && Rank(r, k) == 0
    ensures At(r, k, i) && !r.io.flag[i].pending && Propagates(r, i)
    ensures Sending(r, i) ==> forall q: Port :: r.outp.req[q] == !r.outp.ackPorts[q]
  {
    i :| At(r, k, i);
    OnlyLine(r, w, k, i);
    RequestsMatch(r, w, i);
  }

  /** A line that has been sent has woken all neighbours. */
  lemma SentWakes(n: Net, f: Flood, stamp: map<Pos, nat>, t: nat, nx: nat, ny: nat, b: Pos, q: Port)
    requires LoneInv(n, f, stamp, t, nx, ny) && HoldsAt(n, f, b) && RankAt(n, f, b) == 0
    requires q != LOCAL && Nbr(b, q) in n.r
    ensures !AsleepAt(n, f, Nbr(b, q))
  {
    Facts(n, f, stamp, t, nx, ny, b);
    var r := n.r[b];
    OppIsBack(b, q);
    var i := SentLine(r, WiresAt(n, b), f.m.key);
    assert LineInv(n, f, stamp, t, b, i) && SpreadInv(n, f, b, i) by { hide LineInv, SpreadInv; LineFacts(n, f, stamp, t, nx, ny, b, i); }
    hide FloodInv, CamInv, LineInv, LoneInv, LoneRouter, Rank, Propagates;
    if Sending(r, i) && !r.outp.ackPorts[q] {
      assert WiresAt(n, Nbr(b, q)).req[Opp(q)];
    } else {
      assert Has(RouterAt(n, Nbr(b, q)), f.m.key);
    }
  }

  lemma CloserNeighbour(n: Net, nx: nat, ny: nat, p: Pos, d: Pos) returns (q: Port)
    requires IsMesh(n, nx, ny) && p in n.r && d in n.r && p != d
    ensures q != LOCAL && Nbr(p, q) in n.r && Dist(p, d) == Dist(Nbr(p, q), d) + 1
    ensures Opp(q) != LOCAL && Nbr(Nbr(p, q), Opp(q)) == p
  {
    q := Towards(p, d);
    OppIsBack(p, q);
  }

  /** A router that is awake and has rank 0 has sent its line. */
  lemma RankZero(n: Net, f: Flood, p: Pos)
    requires Shaped(n) && p in n.r && RankAt(n, f, p) == 0
    ensures HoldsAt(n, f, p)
  {
  }

  /** A router still asleep is further away than the front. */
  lemma {:induction false} WakesInTime(n: Net, f: Flood, stamp: map<Pos, nat>, t: nat, nx: nat, ny: nat, p: Pos)
    requires LoneInv(n, f, stamp, t, nx, ny) && AsleepAt(n, f, p)
    ensures t < 7 * Dist(p, f.src)
    decreases Dist(p, f.src)
  {
    hide LoneInv, RankAt, Asleep, WiresAt, CamInv, LoneAt, IsMesh, Dist, Nbr, Opp, Shape, HoldsAt;
    Facts(n, f, stamp, t, nx, ny, p);
    var q := CloserNeighbour(n, nx, ny, p, f.src);
    var b := Nbr(p, q);
    Facts(n, f, stamp, t, nx, ny, b);
    if AsleepAt(n, f, b) {
      WakesInTime(n, f, stamp, t, nx, ny, b);
    } else if RankAt(n, f, b) == 0 {
      RankZero(n, f, b);
      SentWakes(n, f, stamp, t, nx, ny, b, Opp(q));
    }
  }

  lemma StaysAwake(n: Net, n': Net, f: Flood, stamp: map<Pos, nat>, t: nat, nx: nat, ny: nat, p: Pos)
    requires LoneInv(n, f, stamp, t, nx, ny) && LoneNext(n, n', f) && p in n.r
    ensures var k, m := RankAt(n, f, p), RankAt(n', f, p);
      if k == 0 then m == 0 else if AsleepAt(n, f, p) then m == 7 else m == k - 1
    ensures !AsleepAt(n, f, p) ==> !AsleepAt(n', f, p)
  {
    hide LoneInv, Rank, LoneRouter, LoneNext, Step, CamInv;
    Stepped(n, n', f, p);
    Facts(n, f, stamp, t, nx, ny, p);
    RankFalls(n.r[p], WiresAt(n, p), f.m.key);
  }

  lemma StaysOnTime(n: Net, n': Net, f: Flood, stamp: map<Pos, nat>, t: nat, nx: nat, ny: nat, p: Pos)
    requires LoneInv(n, f, stamp, t, nx, ny) && LoneNext(n, n', f) && p in n.r
    ensures OnTimeAt(n', f, t + 1, p)
  {
    hide LoneInv, RankAt, AsleepAt, LoneNext, Dist, LoneAt, CamInv, IsMesh, WiresAt, Shape;
    Facts(n, f, stamp, t, nx, ny, p);
    StaysAwake(n, n', f, stamp, t, nx, ny, p);
    if AsleepAt(n, f, p) {
      WakesInTime(n, f, stamp, t, nx, ny, p);
    }
  }

  lemma KeepsLoneInv(n: Net, n': Net, f: Flood, stamp: map<Pos, nat>, t: nat, stamp': map<Pos, nat>, nx: nat, ny: nat)
    requires LoneInv(n, f, stamp, t, nx, ny) && FloodInv(n', f, stamp', t + 1, nx, ny) && LoneNext(n, n', f)
    ensures LoneInv(n', f, stamp', t + 1, nx, ny)
  {
    hide FloodInv, LoneNext, LoneAt, OnTimeAt, IsMesh, Shape;
    MeshOf(n', f, stamp', t + 1, nx, ny);
    SameRouters(n, n', f);
    assert f.src in n.r && f.m.svc == ALL;
    hide LoneInv;
    forall p | p in n'.r
      ensures LoneAt(n', f, p) && OnTimeAt(n', f, t + 1, p)
    {
      StaysLone(n, n', f, stamp, t, stamp', nx, ny, p);
      StaysOnTime(n, n', f, stamp, t, nx, ny, p);
    }
    assert f.src in n'.r;
    LoneInvIf(n', f, stamp', t + 1, nx, ny);
  }

  lemma LoneInvIf(n: Net, f: Flood, stamp: map<Pos, nat>, t: nat, nx: nat, ny: nat)
    requires Shaped(n) && FloodInv(n, f, stamp, t, nx, ny) && IsMesh(n, nx, ny) && f.m.svc == ALL && f.src in n.r
    requires forall p :: p in n.r ==> LoneAt(n, f, p) && OnTimeAt(n, f, t, p)
    ensures LoneInv(n, f, stamp, t, nx, ny)
  {
    hide FloodInv, LoneAt, OnTimeAt, IsMesh, Shape;
  }

  // ---- Answering what is left ----

  function Bit(b: bool): nat { if b then 1 else 0 }

  /** The ports on which a router is asked. */
  function Asked(w: Wires): (n: nat)
    requires WiresOk(w)
    ensures n <= 5
  {
    Bit(w.req[0]) + Bit(w.req[1]) + Bit(w.req[2]) + Bit(w.req[3]) + Bit(w.req[4])
  }

  /** The cycles until all of them have been answered and have gone. */
  function Drain(r: Router, w: Wires): int
    requires WiresOk(w)
  {
    match r.inp.state
    case IN_ARBITRATION => 5 * Asked(w) - 1
    case IN_TEST_SPACE => 5 * Asked(w) - 2
    case IN_WAIT_REQ_DOWN => if w.req[r.inp.port] then 5 * Asked(w) - 3 else 5 * Asked(w) + 1
    case _ => 5 * Asked(w)
  }

  lemma NoneAsked(w: Wires)
    requires WiresOk(w)
    ensures Asked(w) == 0 <==> true !in w.req
    ensures Asked(w) == 0 <==> forall q: Port :: !w.req[q]
  {
    if true !in w.req {
      assert !w.req[0] && !w.req[1] && !w.req[2] && !w.req[3] && !w.req[4];
    }
  }

  lemma FewerAsked(w: Wires, w': Wires, q: Port)
    requires WiresOk(w) && WiresOk(w') && forall p: Port :: w'.req[p] ==> w.req[p]
    ensures Asked(w') <= Asked(w)
    ensures w.req[q] ==> Asked(w) >= 1 && (!w'.req[q] ==> Asked(w') <= Asked(w) - 1)
  {
    assert (w'.req[0] ==> w.req[0]) && (w'.req[1] ==> w.req[1]) && (w'.req[2] ==> w.req[2]) && (w'.req[3] ==> w.req[3]);
    assert w'.req[4] ==> w.req[4];
  }

  /** The most cycles this can take: five for each port and one more. */
  const MOST: nat := 26

  lemma DrainIsBounded(r: Router, w: Wires)
    requires CamInv(r, w) && r.inp.state != IN_CLEAR && r.inp.state != IN_WRITE
    ensures 0 <= Drain(r, w) <= MOST
    ensures Drain(r, w) == 0 ==> forall q: Port :: !w.req[q]
  {
    NoneAsked(w);
    FewerAsked(w, w, r.inp.port);
  }

  /** A router that holds the flood answers one request every five cycles, if each goes once
      it is acknowledged and no new one comes. */
  lemma DrainFalls(r: Router, w: Wires, w': Wires, k: Key)
    requires CamInv(r, w) && LoneRouter(r, w, k) && Has(r, k) && WiresOk(w')
    requires forall q: Port :: w'.req[q] ==> w.req[q] && !r.inp.ack[q]
    ensures Drain(Step(r, w), w') <= if Drain(r, w) > 0 then Drain(r, w) - 1 else 0
  {
    var i: nat :| At(r, k, i);
    OnlyLine(r, w, k, i);
    NoneAsked(w);
    FewerAsked(w, w', r.inp.port);
    HolderMoves(r, w, k, i);
    if r.inp.state == IN_TEST_SPACE {
      assert At(r, k, FirstAt(r, k, 0));
    }
  }

  ghost function DrainAt(n: Net, p: Pos): int { if Shaped(n) && p in n.r then Drain(n.r[p], WiresAt(n, p)) else 0 }

  ghost predicate AllSent(n: Net, f: Flood) {
    Shaped(n) && forall p :: p in n.r ==> RankAt(n, f, p) == 0
  }

  lemma NothingTested(r: Router, w: Wires, k: Key)
    requires CamInv(r, w) && Has(r, k) && Rank(r, k) == 0
    ensures r.outp.state != OUT_TEST_SVC
  {
  }

  /** Once everything is sent a request only goes, and it goes when it is acknowledged. */
  lemma RequestGoes(n: Net, n': Net, f: Flood, stamp: map<Pos, nat>, t: nat, nx: nat, ny: nat, p: Pos, q: Port)
    requires LoneInv(n, f, stamp, t, nx, ny) && LoneNext(n, n', f) && AllSent(n, f) && Requests(n', p, q)
    ensures Requests(n, p, q) && !HearsAck(n, p, q)
  {
    hide LoneInv, CamInv, Step, LoneNext, Rank, LoneRouter;
    SameRouters(n, n', f);
    assert p in n'.r.Keys;
    Stepped(n, n', f, p);
    Facts(n, f, stamp, t, nx, ny, p);
    assert RankAt(n, f, p) == 0;
    RankZero(n, f, p);
    NothingTested(n.r[p], WiresAt(n, p), f.m.key);
    RequestStep(n.r[p], WiresAt(n, p), q);
  }

  ghost predicate Acks(n: Net, p: Pos, q: Port) { Shaped(n) && p in n.r && n.r[p].inp.ack[q] }

  lemma HearsWhat(n: Net, p: Pos, q: Port)
    requires Shaped(n) && p in n.r && q != LOCAL
    ensures Hears(n, p, q) <==> Requests(n, Nbr(p, q), Opp(q))
    ensures Nbr(p, q) in n.r ==> (HearsAck(n, Nbr(p, q), Opp(q)) <==> Acks(n, p, q))
    ensures Nbr(p, q) !in n.r ==> HearsAck(n, p, q)
  {
    OppIsBack(p, q);
  }

  lemma AskedLess(n: Net, n': Net, f: Flood, stamp: map<Pos, nat>, t: nat, nx: nat, ny: nat, p: Pos, q: Port)
    requires LoneInv(n, f, stamp, t, nx, ny) && LoneNext(n, n', f) && AllSent(n, f) && Hears(n', p, q)
    ensures Hears(n, p, q) && !Acks(n, p, q)
  {
    SameRouters(n, n', f);
    assert p in n'.r.Keys;
    if q == LOCAL {
      hide LoneInv, LoneNext, CamInv, LoneRouter, Step;
      Facts(n, f, stamp, t, nx, ny, p);
      Stepped(n, n', f, p);
    } else {
      hide LoneInv, LoneNext, AllSent, Requests, Hears, HearsAck, Acks;
      HearsWhat(n, p, q); HearsWhat(n', p, q);
      RequestGoes(n, n', f, stamp, t, nx, ny, Nbr(p, q), Opp(q));
      assert Nbr(p, q) in n.r by { hide *; RequestsIn(n, Nbr(p, q), Opp(q)); }
    }
  }

  lemma RequestsIn(n: Net, p: Pos, q: Port)
    requires Requests(n, p, q)
    ensures p in n.r
  {
  }

  lemma DrainsOn(n: Net, n': Net, f: Flood, stamp: map<Pos, nat>, t: nat, nx: nat, ny: nat, p: Pos)
    requires LoneInv(n, f, stamp, t, nx, ny) && LoneNext(n, n', f) && AllSent(n, f) && p in n.r
    ensures DrainAt(n', p) <= if DrainAt(n, p) > 0 then DrainAt(n, p) - 1 else 0
  {
    hide LoneInv, LoneNext, CamInv, Step, LoneRouter, Drain, Rank, AllSent;
    Stepped(n, n', f, p);
    Facts(n, f, stamp, t, nx, ny, p);
    forall q: Port | WiresAt(n', p).req[q]
      ensures WiresAt(n, p).req[q] && !n.r[p].inp.ack[q]
    {
      AskedLess(n, n', f, stamp, t, nx, ny, p, q);
    }
    assert RankAt(n, f, p) == 0 by { SentAt(n, f, p); }
    RankZero(n, f, p);
    DrainFalls(n.r[p], WiresAt(n, p), WiresAt(n', p), f.m.key);
  }

  lemma SentAt(n: Net, f: Flood, p: Pos)
    requires AllSent(n, f) && p in n.r
    ensures RankAt(n, f, p) == 0
  {
  }

  // ---- Whole runs ----

  lemma {:induction false} RunKeepsLoneInv(ns: seq<Net>, f: Flood, nx: nat, ny: nat, t: nat) returns (stamp: map<Pos, nat>)
    requires IsLoneRun(ns, f, nx, ny) && t < |ns|
    ensures LoneInv(ns[t], f, stamp, t, nx, ny)
  {
    hide IsLoneRun, IsFloodRun, LoneStart, LoneNext, LoneInv, FloodInv;
    StartOf(ns, f, nx, ny);
    stamp := FloodRunKeepsInv(ns, f, nx, ny, t);
    if t == 0 {
      Starts(ns[0], f, stamp, nx, ny);
    } else {
      var before := RunKeepsLoneInv(ns, f, nx, ny, t - 1);
      NextOf(ns, f, nx, ny, t - 1);
      KeepsLoneInv(ns[t - 1], ns[t], f, before, t - 1, stamp, nx, ny);
    }
  }

  lemma StartOf(ns: seq<Net>, f: Flood, nx: nat, ny: nat)
    requires IsLoneRun(ns, f, nx, ny)
    ensures IsFloodRun(ns, f, nx, ny) && LoneStart(ns[0], f) && f.m.svc == ALL
  {
  }

  lemma NextOf(ns: seq<Net>, f: Flood, nx: nat, ny: nat, t: nat)
    requires IsLoneRun(ns, f, nx, ny) && t + 1 < |ns|
    ensures LoneNext(ns[t], ns[t + 1], f)
  {
  }

  /** By this time every router has sent the flood on. */
  function Front(nx: nat, ny: nat): int { 7 * (nx + ny - 1) }

  lemma GapFits(n: Net, nx: nat, ny: nat, p: Pos, d: Pos)
    requires IsMesh(n, nx, ny) && p in n.r && d in n.r
    ensures Dist(p, d) <= nx + ny - 2
  {
  }

  lemma SentBy(n: Net, f: Flood, stamp: map<Pos, nat>, t: nat, nx: nat, ny: nat, p: Pos)
    requires LoneInv(n, f, stamp, t, nx, ny) && t >= Front(nx, ny) && p in n.r
    ensures RankAt(n, f, p) == 0
  {
    hide LoneInv, RankAt, AsleepAt, CamInv, LoneAt, Shape, IsMesh, Dist;
    Facts(n, f, stamp, t, nx, ny, p);
    GapFits(n, nx, ny, p, f.src);
    if AsleepAt(n, f, p) { WakesInTime(n, f, stamp, t, nx, ny, p); }
  }

  lemma AllSentBy(n: Net, f: Flood, stamp: map<Pos, nat>, t: nat, nx: nat, ny: nat)
    requires LoneInv(n, f, stamp, t, nx, ny) && t >= Front(nx, ny)
    ensures AllSent(n, f)
  {
    assert Shaped(n);
    hide LoneInv, RankAt, Shape;
    forall p | p in n.r
      ensures RankAt(n, f, p) == 0
    {
      SentBy(n, f, stamp, t, nx, ny, p);
    }
  }

  lemma NoWrite(r: Router, w: Wires, k: Key)
    requires CamInv(r, w) && LoneRouter(r, w, k) && Has(r, k)
    ensures r.inp.state != IN_WRITE && r.inp.state != IN_CLEAR
  {
    var i: nat :| At(r, k, i);
  }

  lemma DrainStarts(n: Net, f: Flood, stamp: map<Pos, nat>, t: nat, nx: nat, ny: nat, p: Pos)
    requires LoneInv(n, f, stamp, t, nx, ny) && AllSent(n, f) && p in n.r
    ensures 0 <= DrainAt(n, p) <= MOST
    ensures DrainAt(n, p) == 0 ==> forall q: Port :: !Hears(n, p, q)
  {
    hide LoneInv, CamInv, LoneRouter, Drain, Rank, AllSent;
    Facts(n, f, stamp, t, nx, ny, p);
    SentAt(n, f, p);
    RankZero(n, f, p);
    NoWrite(n.r[p], WiresAt(n, p), f.m.key);
    DrainIsBounded(n.r[p], WiresAt(n, p));
  }

  /** From then on every router answers. */
  lemma {:induction false} Drains(ns: seq<Net>, f: Flood, nx: nat, ny: nat, t: nat, u: nat, p: Pos)
    requires IsLoneRun(ns, f, nx, ny) && t >= Front(nx, ny) && t + u < |ns| && p in ns[t + u].r
    ensures DrainAt(ns[t + u], p) <= if u <= MOST then MOST - u else 0
    decreases u
  {
    hide IsLoneRun, DrainAt, LoneInv, AllSent, LoneNext;
    if u == 0 {
      var stamp := RunKeepsLoneInv(ns, f, nx, ny, t);
      AllSentBy(ns[t], f, stamp, t, nx, ny);
      DrainStarts(ns[t], f, stamp, t, nx, ny, p);
    } else {
      var v := t + u - 1;
      var stamp := RunKeepsLoneInv(ns, f, nx, ny, v);
      NextOf(ns, f, nx, ny, v);
      SameRouters(ns[v], ns[v + 1], f);
      assert p in ns[v + 1].r.Keys;
      AllSentBy(ns[v], f, stamp, v, nx, ny);
      Drains(ns, f, nx, ny, t, u - 1, p);
      DrainsOn(ns[v], ns[v + 1], f, stamp, v, nx, ny, p);
    }
  }

  /** Then no router requests anything of a neighbour. */
  lemma MeshIsSilent(ns: seq<Net>, f: Flood, nx: nat, ny: nat, t: nat, p: Pos, q: Port)
    requires IsLoneRun(ns, f, nx, ny) && nx + ny > 0 && t >= Front(nx, ny) + MOST && t < |ns| && q != LOCAL
    ensures !Requests(ns[t], p, q)
  {
    hide IsLoneRun, DrainAt, LoneInv, AllSent, LoneNext, Requests, Hears, HearsAck;
    if Requests(ns[t], p, q) {
      RequestsIn(ns[t], p, q);
      var n, m := ns[t], ns[t - 1];
      var stamp := RunKeepsLoneInv(ns, f, nx, ny, t - 1);
      var after := RunKeepsLoneInv(ns, f, nx, ny, t);
      NextOf(ns, f, nx, ny, t - 1);
      SameRouters(m, n, f);
      assert p in n.r.Keys && p in m.r;
      AllSentBy(m, f, stamp, t - 1, nx, ny);
      AllSentBy(n, f, after, t, nx, ny);
      RequestGoes(m, n, f, stamp, t - 1, nx, ny, p, q);
      HearsWhat(m, p, q);
      OppIsBack(p, q);
      var b := Nbr(p, q);
      assert b in m.r && b in m.r.Keys && b in n.r;
      HearsWhat(n, b, Opp(q));
      Drains(ns, f, nx, ny, t - MOST, MOST, b);
      DrainStarts(n, f, after, t, nx, ny, b);
    }
  }

  ghost predicate SinkAcks(n: Net, p: Pos) { p in n.pe && n.pe[p].ack }

  /** From cycle `t` on the sink at `p` leaves a delivery waiting for `slack` cycles. */
  ghost predicate Neglects(ns: seq<Net>, t: nat, slack: nat, p: Pos) {
    t + slack < |ns| && forall u :: t <= u <= t + slack ==> Requests(ns[u], p, LOCAL) && !SinkAcks(ns[u], p)
  }

  ghost predicate SinksWithin(ns: seq<Net>, slack: nat) {
    forall t: nat, p: Pos :: !Neglects(ns, t, slack, p)
  }

  lemma SinkHeard(n: Net, p: Pos)
    requires Shaped(n) && p in n.r
    ensures HearsAck(n, p, LOCAL) <==> SinkAcks(n, p)
  {
  }

  lemma {:induction false} StillAsked(ns: seq<Net>, f: Flood, nx: nat, ny: nat, t: nat, u: nat, p: Pos)
    requires IsLoneRun(ns, f, nx, ny) && t >= Front(nx, ny) && t <= u < |ns| && Requests(ns[u], p, LOCAL)
    ensures Requests(ns[t], p, LOCAL) && (t < u ==> !SinkAcks(ns[t], p))
    decreases u - t
  {
    hide IsLoneRun, LoneInv, AllSent, LoneNext, Requests, HearsAck;
    if t < u {
      StillAsked(ns, f, nx, ny, t + 1, u, p);
      var stamp := RunKeepsLoneInv(ns, f, nx, ny, t);
      NextOf(ns, f, nx, ny, t);
      SameRouters(ns[t], ns[t + 1], f);
      AllSentBy(ns[t], f, stamp, t, nx, ny);
      RequestGoes(ns[t], ns[t + 1], f, stamp, t, nx, ny, p, LOCAL);
      RequestsIn(ns[t], p, LOCAL);
      SinkHeard(ns[t], p);
    }
  }

  lemma IsNeglected(ns: seq<Net>, f: Flood, nx: nat, ny: nat, start: nat, slack: nat, p: Pos)
    requires IsLoneRun(ns, f, nx, ny) && start >= Front(nx, ny)
    requires start + slack + 1 < |ns| && Requests(ns[start + slack + 1], p, LOCAL)
    ensures Neglects(ns, start, slack, p)
  {
    hide IsLoneRun, Requests, SinkAcks;
    forall u | start <= u <= start + slack
      ensures Requests(ns[u], p, LOCAL) && !SinkAcks(ns[u], p)
    {
      StillAsked(ns, f, nx, ny, u, start + slack + 1, p);
    }
  }

  lemma SinksAreDone(ns: seq<Net>, f: Flood, nx: nat, ny: nat, slack: nat, t: nat, p: Pos)
    requires IsLoneRun(ns, f, nx, ny) && SinksWithin(ns, slack) && nx + ny > 0
    requires t >= Front(nx, ny) + slack + 1 && t < |ns|
    ensures !Requests(ns[t], p, LOCAL)
  {
    hide IsLoneRun, Requests, Neglects;
    if Requests(ns[t], p, LOCAL) { IsNeglected(ns, f, nx, ny, t - slack - 1, slack, p); }
  }

  /** The time a broadcast takes: seven cycles a hop, and then the longer of answering the
      neighbours and waiting for the sinks. */
  function Deadline(nx: nat, ny: nat, slack: nat): int {
    Front(nx, ny) + if slack + 1 > MOST then slack + 1 else MOST
  }

  ghost predicate RestsAt(n: Net, f: Flood, p: Pos) {
    Shaped(n) && p in n.r && Has(n.r[p], f.m.key) && forall i: nat :: At(n.r[p], f.m.key, i) ==> !n.r[p].io.flag[i].pending
  }

  lemma RouterIsDone(n: Net, f: Flood, stamp: map<Pos, nat>, t: nat, nx: nat, ny: nat, p: Pos)
    requires LoneInv(n, f, stamp, t, nx, ny) && AllSent(n, f) && p in n.r
    ensures RestsAt(n, f, p)
  {
    hide LoneInv, CamInv, AllSent, LoneRouter, Rank;
    Facts(n, f, stamp, t, nx, ny, p);
    SentAt(n, f, p);
    RankZero(n, f, p);
    var i := SentLine(n.r[p], WiresAt(n, p), f.m.key);
    OnlyLine(n.r[p], WiresAt(n, p), f.m.key, i);
  }

  lemma QuietIf(n: Net, f: Flood)
    requires Shaped(n) && (forall p :: p in n.r ==> RestsAt(n, f, p)) && forall p, q: Port :: !Requests(n, p, q)
    ensures Quiet(n, f.m.key)
  {
    hide Has;
    forall p, q: Port | p in n.r
      ensures !n.r[p].outp.req[q]
    {
      assert !Requests(n, p, q);
    }
  }

  lemma SilentIsQuiet(n: Net, f: Flood, stamp: map<Pos, nat>, t: nat, nx: nat, ny: nat)
    requires LoneInv(n, f, stamp, t, nx, ny) && AllSent(n, f) && forall p, q: Port :: !Requests(n, p, q)
    ensures Shaped(n) && Quiet(n, f.m.key) && forall p :: p in n.r ==> HoldsAt(n, f, p)
  {
    assert Shaped(n);
    hide LoneInv, AllSent, RestsAt, Requests, Quiet, Shape;
    forall p | p in n.r
      ensures RestsAt(n, f, p)
    {
      RouterIsDone(n, f, stamp, t, nx, ny, p);
    }
    QuietIf(n, f);
    forall p | p in n.r
      ensures HoldsAt(n, f, p)
    {
      RestHolds(n, f, p);
    }
  }

  lemma RestHolds(n: Net, f: Flood, p: Pos)
    requires RestsAt(n, f, p)
    ensures HoldsAt(n, f, p)
  {
  }

  /** A broadcast that is alone in the mesh is everywhere and quiet by its deadline, and
      stays so as long as no clear is due. */
  lemma FloodIsQuietInTime(ns: seq<Net>, f: Flood, nx: nat, ny: nat, slack: nat, t: nat)
    requires IsLoneRun(ns, f, nx, ny) && SinksWithin(ns, slack) && Deadline(nx, ny, slack) <= t < |ns|
    ensures Shaped(ns[t]) && Quiet(ns[t], f.m.key) && forall p :: p in ns[t].r ==> HoldsAt(ns[t], f, p)
  {
    var stamp := RunKeepsLoneInv(ns, f, nx, ny, t);
    assert nx + ny > 0;
    hide IsLoneRun, LoneInv, AllSent, Requests, SinksWithin, HoldsAt, Quiet, Shaped;
    AllSentBy(ns[t], f, stamp, t, nx, ny);
    forall p, q: Port
      ensures !Requests(ns[t], p, q)
    {
      if q == LOCAL { SinksAreDone(ns, f, nx, ny, slack, t, p); } else { MeshIsSilent(ns, f, nx, ny, t, p, q); }
    }
    SilentIsQuiet(ns[t], f, stamp, t, nx, ny);
  }
}
