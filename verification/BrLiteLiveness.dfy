/** Liveness of the mesh: with any number of broadcasts under way every request between
    routers is acknowledged, and every pending line served, within a bounded number of cycles,
    as long as no clear is due and no table is full. And what happens when clears are due:
    two routers may lock each other for ever. */
module BrLiteLiveness {
  import opened Topology
  import opened BrLite
  import opened BrLiteCam
  import opened BrLiteLine
  import opened BrLiteMesh
  import opened BrLiteTiming
  import opened BrLiteService

  // ---- One router of a run ----

  ghost predicate InAll(ns: seq<Net>, p: Pos) { forall t :: 0 <= t < |ns| ==> Shaped(ns[t]) && p in ns[t].r }

  ghost function Rs(ns: seq<Net>, p: Pos): (rs: seq<Router>)
    requires InAll(ns, p)
    ensures |rs| == |ns| && forall t :: 0 <= t < |rs| ==> rs[t] == ns[t].r[p]
  {
    seq<Router>(|ns|, t requires 0 <= t < |ns| => ns[t].r[p])
  }

  ghost function Ws(ns: seq<Net>, p: Pos): (ws: seq<Wires>)
    requires InAll(ns, p)
    ensures |ws| == |ns| && forall t :: 0 <= t < |ws| ==> ws[t] == WiresAt(ns[t], p)
  {
    seq<Wires>(|ns|, t requires 0 <= t < |ns| => WiresAt(ns[t], p))
  }

  /** A stretch of a run of the mesh. */
  ghost predicate IsStretch(ns: seq<Net>, nx: nat, ny: nat) { IsNetRun(ns) && NetInv(ns[0], nx, ny) }

  lemma MeshAt(ns: seq<Net>, nx: nat, ny: nat, t: nat)
    requires IsStretch(ns, nx, ny) && t < |ns|
    ensures Shaped(ns[t]) && NetInv(ns[t], nx, ny)
    ensures t + 1 < |ns| ==> Shaped(ns[t + 1]) && NetNext(ns[t], ns[t + 1]) && NetInv(ns[t + 1], nx, ny)
  {
    hide NetInv;
    NetRunKeepsInv(ns, nx, ny, t);
    if t + 1 < |ns| {
      NetRunKeepsInv(ns, nx, ny, t + 1);
      NetRunStep(ns, t);
    }
    hide NetNext;
  }

  lemma SamePlaces(n: Net, nx: nat, ny: nat, p: Pos)
    requires NetInv(n, nx, ny)
    ensures p in n.r <==> 0 <= p.x < nx && 0 <= p.y < ny
  {
  }

  lemma {:induction false} IsInAll(ns: seq<Net>, nx: nat, ny: nat, t: nat, p: Pos)
    requires IsStretch(ns, nx, ny) && t < |ns| && p in ns[t].r
    ensures InAll(ns, p)
  {
    hide IsStretch, NetInv, NetNext, Shaped;
    MeshAt(ns, nx, ny, t);
    SamePlaces(ns[t], nx, ny, p);
    forall u | 0 <= u < |ns|
      ensures Shaped(ns[u]) && p in ns[u].r
    {
      MeshAt(ns, nx, ny, u);
      SamePlaces(ns[u], nx, ny, p);
    }
  }

  lemma FollowsIf(n: Net, n': Net, nx: nat, ny: nat, p: Pos)
    requires Shaped(n) && Shaped(n') && NetInv(n, nx, ny) && NetNext(n, n') && p in n.r && p in n'.r
    ensures Follows(n.r[p], WiresAt(n, p), n'.r[p], WiresAt(n', p)) && CamInv(n.r[p], WiresAt(n, p))
  {
    WiresHold(n, n', nx, ny, p);
    hide Step, CamInv, HoldsRequests;
  }

  lemma CamAt(n: Net, nx: nat, ny: nat, p: Pos)
    requires NetInv(n, nx, ny) && Shaped(n) && p in n.r
    ensures CamInv(n.r[p], WiresAt(n, p))
  {
    hide CamInv;
  }

  lemma MeshTrace(ns: seq<Net>, nx: nat, ny: nat, p: Pos)
    requires IsStretch(ns, nx, ny) && InAll(ns, p)
    ensures IsTrace(Rs(ns, p), Ws(ns, p))
  {
    hide IsStretch, NetInv, NetNext, CamInv, Follows, WiresAt;
    var rs, ws := Rs(ns, p), Ws(ns, p);
    forall t | 0 <= t < |rs|
      ensures CamInv(rs[t], ws[t]) && (t < |rs| - 1 ==> Follows(rs[t], ws[t], rs[t + 1], ws[t + 1]))
    {
      MeshAt(ns, nx, ny, t);
      CamAt(ns[t], nx, ny, p);
      if t < |rs| - 1 { FollowsIf(ns[t], ns[t + 1], nx, ny, p); }
    }
  }

  // ---- Requests are let go ----

  /** The processing element at `p` keeps its request up though it is acknowledged. */
  ghost predicate Keeps(n: Net, p: Pos) { Shaped(n) && p in n.r && n.pe[p].req && n.r[p].inp.ack[LOCAL] }

  ghost predicate KeepsOn(ns: seq<Net>, p: Pos, t: nat, slack: nat) {
    t + slack < |ns| && forall u :: t <= u <= t + slack ==> Keeps(ns[u], p)
  }

  ghost predicate SourcesLetGo(ns: seq<Net>, slack: nat) { forall p: Pos, t: nat :: !KeepsOn(ns, p, t, slack) }

  lemma IsKept(ns: seq<Net>, p: Pos, t: nat, slack: nat)
    requires t + slack < |ns| && forall u :: t <= u <= t + slack ==> Keeps(ns[u], p)
    ensures KeepsOn(ns, p, t, slack)
  {
    hide Keeps;
  }

  /** A mesh port lets go in the cycle after its acknowledge. */
  lemma NeighbourLetsGo(n: Net, n': Net, nx: nat, ny: nat, p: Pos, q: Port)
    requires Shaped(n) && Shaped(n') && NetInv(n, nx, ny) && NetNext(n, n') && p in n.r && p in n'.r && q != LOCAL
    requires WiresAt(n, p).req[q] && n.r[p].inp.ack[q]
    ensures !WiresAt(n', p).req[q]
  {
    hide CamInv, Step, NetInv;
    var b := Nbr(p, q);
    OppIsBack(p, q);
    CamAt(n, nx, ny, b);
    assert n'.r.Keys == n.r.Keys;
    if WiresAt(n', p).req[q] { RequestStep(n.r[b], WiresAt(n, b), Opp(q)); }
  }

  lemma ClingsAtLocal(n: Net, n': Net, nx: nat, ny: nat, p: Pos)
    requires Shaped(n) && Shaped(n') && NetInv(n, nx, ny) && NetNext(n, n') && p in n.r && p in n'.r
    requires Clinging(n.r[p], WiresAt(n, p)) && Clinging(n'.r[p], WiresAt(n', p))
    ensures n.r[p].inp.port == LOCAL && n'.r[p].inp.port == LOCAL && Keeps(n, p)
  {
    FollowsIf(n, n', nx, ny, p);
    hide NetInv, NetNext, HoldsRequests, UniqueKeys, OutOk;
    var q := n.r[p].inp.port;
    assert n.r[p].inp.ack[q];
    InputMoves(n.r[p], WiresAt(n, p));
    if q != LOCAL { NeighbourLetsGo(n, n', nx, ny, p, q); }
  }

  lemma KeepsLast(n: Net, nx: nat, ny: nat, p: Pos)
    requires Shaped(n) && NetInv(n, nx, ny) && p in n.r && Clinging(n.r[p], WiresAt(n, p)) && n.r[p].inp.port == LOCAL
    ensures Keeps(n, p)
  {
    CamAt(n, nx, ny, p);
    hide NetInv, UniqueKeys, OutOk;
  }

  lemma RouterLetsGo(ns: seq<Net>, nx: nat, ny: nat, slack: nat, p: Pos)
    requires IsStretch(ns, nx, ny) && InAll(ns, p) && SourcesLetGo(ns, slack) && 0 < slack
    ensures LetGoWithin(Rs(ns, p), Ws(ns, p), slack)
  {
    hide IsStretch, NetInv, NetNext, Clinging, Keeps, WiresAt;
    forall t: nat
      ensures !Clings(Rs(ns, p), Ws(ns, p), t, slack)
    {
      if Clings(Rs(ns, p), Ws(ns, p), t, slack) {
        forall u | t <= u <= t + slack
          ensures Keeps(ns[u], p)
        {
          var v := if u < t + slack then u else u - 1;
          assert Clinging(Rs(ns, p)[v], Ws(ns, p)[v]) && Clinging(Rs(ns, p)[v + 1], Ws(ns, p)[v + 1]);
          MeshAt(ns, nx, ny, v);
          ClingsAtLocal(ns[v], ns[v + 1], nx, ny, p);
          KeepsLast(ns[v + 1], nx, ny, p);
        }
        IsKept(ns, p, t, slack);
        assert false;
      }
    }
  }

  // ---- Requests are answered ----

  /** No clear is due at `p`, and it has room for what it is sent. */
  ghost predicate OpenAt(n: Net, p: Pos) {
    Shaped(n) && p in n.r && !n.r[p].io.clearLocal && !TurnedAway(n.r[p], WiresAt(n, p))
  }

  ghost predicate Open(ns: seq<Net>, p: Pos) { forall t :: 0 <= t < |ns| ==> OpenAt(ns[t], p) }

  lemma OpenIs(ns: seq<Net>, p: Pos, t: nat)
    requires Open(ns, p) && t < |ns|
    ensures OpenAt(ns[t], p)
  {
    hide OpenAt;
  }

  lemma NoneDueAt(ns: seq<Net>, p: Pos, t: nat, n: nat)
    requires Open(ns, p) && InAll(ns, p) && t + n < |ns|
    ensures NoneDue(Rs(ns, p), t, n)
  {
    hide TurnedAway, WiresAt;
  }

  lemma AnsweredIsHeard(n: Net, p: Pos, q: Port)
    requires Shaped(n) && q != LOCAL && Nbr(p, q) in n.r && p in n.r && OpenAt(n, Nbr(p, q))
    requires Answered(n.r[Nbr(p, q)], WiresAt(n, Nbr(p, q)), Opp(q))
    ensures HearsAck(n, p, q)
  {
    hide TurnedAway;
    OppIsBack(p, q);
  }

  lemma AsksOnce(ns: seq<Net>, p: Pos, q: Port, t: nat)
    requires t < |ns| && q != LOCAL && Requests(ns[t], p, q) && InAll(ns, Nbr(p, q))
    ensures Asks(Ws(ns, Nbr(p, q)), Opp(q), t, 0)
  {
    OppIsBack(p, q);
  }

  /** Every request from router to router is acknowledged, whatever else the receiver is
      asked: within six rounds of its input process. */
  lemma EveryRequestIsAnswered(ns: seq<Net>, nx: nat, ny: nat, slack: nat, p: Pos, q: Port, t: nat)
    requires IsStretch(ns, nx, ny) && SourcesLetGo(ns, slack) && 0 < slack && t + AckWait(slack) < |ns|
    requires Requests(ns[t], p, q) && q != LOCAL && Nbr(p, q) in ns[t].r && Open(ns, Nbr(p, q))
    ensures exists u :: t <= u <= t + AckWait(slack) && HearsAck(ns[u], p, q)
  {
    hide IsStretch, SourcesLetGo, Open, InAll, IsTrace, LetGoWithin, HearsAck, AckWait, PortWait, Asks, NoneDue, Answered, OpenAt;
    var b := Nbr(p, q);
    IsInAll(ns, nx, ny, t, b);
    assert p in ns[t].r;
    IsInAll(ns, nx, ny, t, p);
    MeshTrace(ns, nx, ny, b);
    RouterLetsGo(ns, nx, ny, slack, b);
    AsksOnce(ns, p, q, t);
    AckLonger(slack);
    NoneDueAt(ns, b, t, PortWait(slack));
    RequestIsAnswered(Rs(ns, b), Ws(ns, b), slack, Opp(q), t);
    var u :| t <= u <= t + AckWait(slack) && Answered(Rs(ns, b)[u], Ws(ns, b)[u], Opp(q));
    InAllAt(ns, b, u); InAllAt(ns, p, u);
    OpenIs(ns, b, u);
    AnsweredIsHeard(ns[u], p, q);
  }

  lemma AckLonger(slack: nat)
    ensures PortWait(slack) <= AckWait(slack) && slack <= AckWait(slack)
  {
    hide Rounds;
    DistanceLeft(0, 0, NPORT, InTurn(slack));
  }

  lemma InAllAt(ns: seq<Net>, p: Pos, t: nat)
    requires InAll(ns, p) && t < |ns|
    ensures Shaped(ns[t]) && p in ns[t].r
  {
  }

  // ---- Lines are served ----

  /** The neighbours of `p` are open in all cycles. */
  ghost predicate OpenAround(ns: seq<Net>, p: Pos) {
    forall q: Port :: q != LOCAL && 0 < |ns| && Shaped(ns[0]) && Nbr(p, q) in ns[0].r ==> Open(ns, Nbr(p, q))
  }

  lemma UnheardIs(n: Net, p: Pos, q: Port)
    requires Shaped(n) && p in n.r && Unheard(n.r[p], WiresAt(n, p), q)
    ensures Requests(n, p, q) && !HearsAck(n, p, q) && (q != LOCAL ==> Nbr(p, q) in n.r)
    ensures q == LOCAL ==> !SinkAcks(n, p)
  {
  }

  lemma OpenBehind(ns: seq<Net>, nx: nat, ny: nat, p: Pos, q: Port, t: nat)
    requires IsStretch(ns, nx, ny) && OpenAround(ns, p) && t < |ns| && q != LOCAL && Shaped(ns[t]) && Nbr(p, q) in ns[t].r
    ensures Open(ns, Nbr(p, q))
  {
    hide IsStretch, NetInv, Open;
    IsInAll(ns, nx, ny, t, Nbr(p, q));
  }

  lemma LeavesWaiting(ns: seq<Net>, t: nat, slack: nat, p: Pos)
    requires t + slack < |ns| && forall u :: t <= u <= t + slack ==> Requests(ns[u], p, LOCAL) && !SinkAcks(ns[u], p)
    ensures Neglects(ns, t, slack, p)
  {
    hide Requests, SinkAcks;
  }

  lemma NotIgnored(ns: seq<Net>, nx: nat, ny: nat, slack: nat, p: Pos, q: Port, t: nat)
    requires IsStretch(ns, nx, ny) && InAll(ns, p) && OpenAround(ns, p) && SourcesLetGo(ns, slack) && SinksWithin(ns, slack) && 0 < slack
    ensures !Ignored(Rs(ns, p), Ws(ns, p), q, t, AckWait(slack))
  {
    if Ignored(Rs(ns, p), Ws(ns, p), q, t, AckWait(slack)) {
      hide IsStretch, SourcesLetGo, OpenAround, Unheard, Requests, HearsAck, SinkAcks, Shaped;
      AckLonger(slack);
      forall u | t <= u <= t + AckWait(slack)
        ensures Shaped(ns[u]) && Requests(ns[u], p, q) && !HearsAck(ns[u], p, q) && (q != LOCAL ==> Nbr(p, q) in ns[u].r)
        ensures q == LOCAL ==> !SinkAcks(ns[u], p)
      {
        assert Unheard(Rs(ns, p)[u], Ws(ns, p)[u], q);
        UnheardIs(ns[u], p, q);
      }
      hide AckWait;
      if q == LOCAL {
        LeavesWaiting(ns, t, slack, p);
        assert false;
      } else {
        OpenBehind(ns, nx, ny, p, q, t);
        EveryRequestIsAnswered(ns, nx, ny, slack, p, q, t);
      }
    }
  }

  /** A sink takes its acknowledge back when the request is gone. */
  lemma SinkFalls(n: Net, n': Net, nx: nat, ny: nat, p: Pos)
    requires Shaped(n) && Shaped(n') && NetInv(n, nx, ny) && NetNext(n, n') && p in n.r && p in n'.r
    requires HeldDown(n.r[p], WiresAt(n, p))
    ensures !HeldDown(n'.r[p], WiresAt(n', p))
  {
    CamAt(n, nx, ny, p);
    hide NetInv, UniqueKeys, InOk, Step;
    assert !n.r[p].outp.req[LOCAL];
    assert SideStep(n.pe[p], n.r[p], n'.r[p].inp.ack[LOCAL], n'.pe[p]);
  }

  lemma NotStuck(ns: seq<Net>, nx: nat, ny: nat, wait: nat, p: Pos, t: nat)
    requires IsStretch(ns, nx, ny) && InAll(ns, p) && 0 < wait
    ensures !Stuck(Rs(ns, p), Ws(ns, p), t, wait)
  {
    hide IsStretch, NetInv, NetNext, HeldDown, WiresAt;
    if Stuck(Rs(ns, p), Ws(ns, p), t, wait) {
      assert HeldDown(Rs(ns, p)[t], Ws(ns, p)[t]) && HeldDown(Rs(ns, p)[t + 1], Ws(ns, p)[t + 1]);
      MeshAt(ns, nx, ny, t);
      SinkFalls(ns[t], ns[t + 1], nx, ny, p);
    }
  }

  lemma RouterIsServed(ns: seq<Net>, nx: nat, ny: nat, slack: nat, p: Pos)
    requires IsStretch(ns, nx, ny) && InAll(ns, p) && OpenAround(ns, p) && SourcesLetGo(ns, slack) && SinksWithin(ns, slack) && 0 < slack
    ensures ServedWithin(Rs(ns, p), Ws(ns, p), AckWait(slack))
  {
    hide IsStretch, InAll, OpenAround, SourcesLetGo, SinksWithin, Stuck, Ignored, AckWait;
    AckLonger(slack);
    forall t: nat
      ensures !Stuck(Rs(ns, p), Ws(ns, p), t, AckWait(slack))
    {
      NotStuck(ns, nx, ny, AckWait(slack), p, t);
    }
    forall q: Port, t: nat
      ensures !Ignored(Rs(ns, p), Ws(ns, p), q, t, AckWait(slack))
    {
      NotIgnored(ns, nx, ny, slack, p, q, t);
    }
  }

  ghost predicate PendingAt(n: Net, p: Pos, i: nat) { Shaped(n) && p in n.r && IsPending(n.r[p], i) }

  ghost predicate ServedAt(n: Net, p: Pos, i: nat) { Shaped(n) && p in n.r && Served(n.r[p], i) }

  /** The wait of a line at `p`. */
  ghost function WaitAt(n: Net, p: Pos, slack: nat): nat {
    if p in n.r then LineWait(|n.r[p].io.flag|, AckWait(slack)) else 0
  }

  lemma NoneDueIf(ns: seq<Net>, p: Pos, t: nat, n: nat)
    requires InAll(ns, p) && t + n < |ns| && forall u :: t <= u <= t + n ==> Rests(ns[u], p)
    ensures NoneDue(Rs(ns, p), t, n)
  {
    forall u | t <= u <= t + n
      ensures !Rs(ns, p)[u].io.clearLocal
    {
      assert Rests(ns[u], p);
    }
  }

  /** No clear is due at `p`. */
  ghost predicate Rests(n: Net, p: Pos) { p in n.r && !n.r[p].io.clearLocal }

  /** Every pending line is served, with any number of broadcasts under way: sent on, handed
      to the sink, or freed. */
  lemma EveryLineIsServed(ns: seq<Net>, nx: nat, ny: nat, slack: nat, p: Pos, i: nat, t: nat)
    requires IsStretch(ns, nx, ny) && OpenAround(ns, p) && SourcesLetGo(ns, slack) && SinksWithin(ns, slack) && 0 < slack
    requires t < |ns| && t + WaitAt(ns[t], p, slack) < |ns| && PendingAt(ns[t], p, i)
    requires forall u :: t <= u <= t + WaitAt(ns[t], p, slack) ==> Rests(ns[u], p)
    ensures exists u :: t <= u <= t + WaitAt(ns[t], p, slack) && ServedAt(ns[u], p, i)
  {
    assert Shaped(ns[t]) && p in ns[t].r && IsPending(ns[t].r[p], i);
    hide IsStretch, OpenAround, SourcesLetGo, SinksWithin, IsTrace, ServedWithin, AckWait, LineWait, Served, IsPending, Rests, Shaped, NoneDue;
    IsInAll(ns, nx, ny, t, p);
    MeshTrace(ns, nx, ny, p);
    RouterIsServed(ns, nx, ny, slack, p);
    AckLonger(slack);
    NoneDueIf(ns, p, t, WaitAt(ns[t], p, slack));
    var u := LineIsServed(Rs(ns, p), Ws(ns, p), AckWait(slack), i, t);
    InAllAt(ns, p, u);
    assert ServedAt(ns[u], p, i);
  }

  // ---- Clears that lock each other ----

  /** A clear is due at `p`, which waits for the acknowledge of port `q`. */
  ghost predicate Bars(n: Net, p: Pos, q: Port) {
    && Shaped(n) && p in n.r && n.r[p].io.clearLocal && n.r[p].inp.state == IN_INIT
    && n.r[p].outp.state == OUT_WAIT_ACK_PORTS && n.r[p].outp.req[q]
  }

  /** Two neighbours wait for each other, and neither takes requests before its clear. */
  ghost predicate Locked(n: Net, p: Pos, q: Port) {
    q != LOCAL && Bars(n, p, q) && Bars(n, Nbr(p, q), Opp(q))
  }

  lemma BarsOn(r: Router, w: Wires, q: Port)
    requires CamInv(r, w) && r.io.clearLocal && r.inp.state == IN_INIT && r.outp.state == OUT_WAIT_ACK_PORTS && r.outp.req[q]
    requires !w.ack[q]
    ensures var r' := Step(r, w);
      r'.io.clearLocal && r'.inp.state == IN_INIT && r'.outp.state == OUT_WAIT_ACK_PORTS && r'.outp.req[q]
  {
    RequestHeld(r, w, q);
    assert !AckedPorts(r.outp, w)[q];
  }

  lemma NoAckAtRest(n: Net, nx: nat, ny: nat, p: Pos, q: Port)
    requires Shaped(n) && NetInv(n, nx, ny) && q != LOCAL && p in n.r && Bars(n, Nbr(p, q), Opp(q))
    ensures !WiresAt(n, p).ack[q]
  {
    OppIsBack(p, q);
    CamAt(n, nx, ny, Nbr(p, q));
    hide NetInv, UniqueKeys, OutOk;
  }

  lemma StaysBarred(n: Net, n': Net, nx: nat, ny: nat, p: Pos, q: Port)
    requires Shaped(n) && Shaped(n') && NetInv(n, nx, ny) && NetNext(n, n') && q != LOCAL
    requires Bars(n, p, q) && Bars(n, Nbr(p, q), Opp(q))
    ensures Bars(n', p, q)
  {
    NoAckAtRest(n, nx, ny, p, q);
    CamAt(n, nx, ny, p);
    assert n'.r.Keys == n.r.Keys && n'.r[p] == Step(n.r[p], WiresAt(n, p));
    hide NetInv, CamInv, Step;
    BarsOn(n.r[p], WiresAt(n, p), q);
  }

  /** A lock is for ever: neither clear is started, and neither router takes a message. */
  lemma {:induction false} LockedForGood(ns: seq<Net>, nx: nat, ny: nat, p: Pos, q: Port, t: nat, u: nat)
    requires IsStretch(ns, nx, ny) && t <= u < |ns| && Locked(ns[t], p, q)
    ensures Locked(ns[u], p, q)
    decreases u
  {
    hide IsStretch, NetInv, NetNext, Bars;
    if t < u {
      LockedForGood(ns, nx, ny, p, q, t, u - 1);
      MeshAt(ns, nx, ny, u - 1);
      OppIsBack(p, q);
      StaysBarred(ns[u - 1], ns[u], nx, ny, p, q);
      StaysBarred(ns[u - 1], ns[u], nx, ny, Nbr(p, q), Opp(q));
    }
  }

  /** What a lock means for its two routers. */
  lemma LockStarvesBoth(n: Net, nx: nat, ny: nat, p: Pos, q: Port)
    requires Shaped(n) && NetInv(n, nx, ny) && Locked(n, p, q)
    ensures p in n.r && Nbr(p, q) in n.r && !ClearFires(n.r[p]) && !ClearFires(n.r[Nbr(p, q)])
    ensures forall d: Port :: !n.r[p].inp.ack[d] && !n.r[Nbr(p, q)].inp.ack[d]
  {
    CamAt(n, nx, ny, p); CamAt(n, nx, ny, Nbr(p, q));
    hide NetInv, UniqueKeys, OutOk;
  }

  /** The clear of `p` falls due in this cycle, in which it begins to send through port `q`
      and has not been asked for anything. */
  ghost predicate FallsDue(n: Net, p: Pos, q: Port) {
    && Shaped(n) && p in n.r
    && var r := n.r[p];
    && r.inp.state == IN_INIT && true !in WiresAt(n, p).req
    && r.outp.state == OUT_TEST_SVC && Propagates(r, r.outp.line) && SendsOn(r, r.outp.line, q)
    && r.io.wroteLocal && (r.io.tick + 1) % WORD >= (r.io.wroteTick + r.clearInterval) % WORD
  }

  lemma DueStep(r: Router, w: Wires, q: Port)
    requires Shape(r) && WiresOk(w) && r.inp.state == IN_INIT && true !in w.req
    requires r.outp.state == OUT_TEST_SVC && Propagates(r, r.outp.line) && SendsOn(r, r.outp.line, q)
    requires r.io.wroteLocal && (r.io.tick + 1) % WORD >= (r.io.wroteTick + r.clearInterval) % WORD
    ensures var r' := Step(r, w);
      r'.io.clearLocal && r'.inp.state == IN_INIT && r'.outp.state == OUT_WAIT_ACK_PORTS && r'.outp.req[q]
  {
  }

  lemma BarsNow(n: Net, n': Net, p: Pos, q: Port)
    requires Shaped(n') && FallsDue(n, p, q) && NetNext(n, n')
    ensures Bars(n', p, q) && !Bars(n, p, q)
  {
    hide Step, NetNext, WiresAt, Shape, SendsOn, Propagates;
    StepsAt(n, n', p);
    DueStep(n.r[p], WiresAt(n, p), q);
  }

  lemma StepsAt(n: Net, n': Net, p: Pos)
    requires Shaped(n) && NetNext(n, n') && p in n.r
    ensures p in n'.r && n'.r[p] == Step(n.r[p], WiresAt(n, p))
  {
    hide Step, WiresAt, SideStep;
    assert n'.r.Keys == n.r.Keys;
  }

  /** How a lock arises: both clears fall due as the two begin to send to each other. */
  lemma LockArises(n: Net, n': Net, p: Pos, q: Port)
    requires Shaped(n) && Shaped(n') && NetNext(n, n') && q != LOCAL && FallsDue(n, p, q) && FallsDue(n, Nbr(p, q), Opp(q))
    ensures Locked(n', p, q) && !Locked(n, p, q)
  {
    hide NetNext, FallsDue, Bars;
    BarsNow(n, n', p, q);
    BarsNow(n, n', Nbr(p, q), Opp(q));
  }
}
