/** Routers wired into an N x M mesh, cycle by cycle. Every router sees the registers its
    neighbours had before the edge; each local port is driven by its processing element. */
module BrLiteMesh {
  import opened Topology
  import opened BrLite
  import opened BrLiteCam

  /** The local port of one router: the request of the processing element, and the sink
      that acknowledges and stores what the router delivers. */
  datatype Side = Side(req: bool, msg: Msg, ack: bool, got: seq<Msg>)

  datatype Net = Net(r: map<Pos, Router>, pe: map<Pos, Side>)

  const NO_MSG := Msg(Key(0, 0), 0, 0, 0, 0, 0)

  predicate Shaped(n: Net) {
    n.r.Keys == n.pe.Keys && forall p :: p in n.r ==> Shape(n.r[p])
  }

  function RouterAt(n: Net, p: Pos): (r: Router)
    requires Shaped(n) && p in n.r
    ensures Shape(r)
  {
    n.r[p]
  }

  ghost predicate IsMesh(n: Net, nx: nat, ny: nat) {
    && 0 < nx <= 256 && 0 < ny <= 256
    && Shaped(n)
    && (forall p :: p in n.r <==> 0 <= p.x < nx && 0 <= p.y < ny)
    && (forall p :: p in n.r ==> n.r[p].address == Address(p))
  }

  lemma AddressesDiffer(n: Net, nx: nat, ny: nat, p: Pos, p': Pos)
    requires IsMesh(n, nx, ny) && p in n.r && p' in n.r
    requires Address(p) == Address(p')
    ensures p == p'
  {
  }

  /** A missing neighbour requests nothing and acknowledges everything. */
  function WiresAt(n: Net, p: Pos): (w: Wires)
    requires Shaped(n) && p in n.r
    ensures WiresOk(w)
    ensures w.req[LOCAL] == n.pe[p].req && w.msg[LOCAL] == n.pe[p].msg && w.ack[LOCAL] == n.pe[p].ack
    ensures forall q: Port :: q != LOCAL ==>
      if Nbr(p, q) in n.r then
        && w.req[q] == RouterAt(n, Nbr(p, q)).outp.req[Opp(q)]
        && w.msg[q] == RouterAt(n, Nbr(p, q)).outp.msg[Opp(q)]
        && w.ack[q] == RouterAt(n, Nbr(p, q)).inp.ack[Opp(q)]
      else !w.req[q] && w.ack[q]
  {
    Wires(
      seq(NPORT, q requires 0 <= q < NPORT =>
        if q == LOCAL then n.pe[p].req else Nbr(p, q) in n.r && RouterAt(n, Nbr(p, q)).outp.req[Opp(q)]),
      seq(NPORT, q requires 0 <= q < NPORT =>
        if q == LOCAL then n.pe[p].msg else if Nbr(p, q) in n.r then RouterAt(n, Nbr(p, q)).outp.msg[Opp(q)] else NO_MSG),
      seq(NPORT, q requires 0 <= q < NPORT =>
        if q == LOCAL then n.pe[p].ack else Nbr(p, q) !in n.r || RouterAt(n, Nbr(p, q)).inp.ack[Opp(q)]))
  }

  /** A processing element stamps its own address, never sends CLEAR, and holds a request
      until the router acknowledges it: `acked` is the acknowledge after the edge, which the
      request may already have answered by falling. Its sink stores a message when it raises
      its acknowledge, at a time of its choosing, and lowers it once the request is gone. */
  ghost predicate SideStep(s: Side, r: Router, acked: bool, s': Side)
    requires Shape(r)
  {
    && (s.req && !acked ==> s'.req && s'.msg == s.msg)
    && (s'.req ==> s'.msg.key.source == r.address && s'.msg.svc != CLEAR)
    && (if !r.outp.req[LOCAL] then !s'.ack && s'.got == s.got
        else if s.ack then s'.ack && s'.got == s.got
        else if s'.ack then s'.got == s.got + [r.outp.msg[LOCAL]]
        else s'.got == s.got)
  }

  ghost predicate NetNext(n: Net, n': Net)
    requires Shaped(n)
  {
    && n'.r.Keys == n.r.Keys && n'.pe.Keys == n.pe.Keys
    && (forall p :: p in n.r ==> n'.r[p] == Step(n.r[p], WiresAt(n, p)))
    && (forall p :: p in n.r ==> SideStep(n.pe[p], n.r[p], n'.r[p].inp.ack[LOCAL], n'.pe[p]))
  }

  ghost predicate NetInv(n: Net, nx: nat, ny: nat) {
    && IsMesh(n, nx, ny)
    && (forall p :: p in n.r ==> CamInv(n.r[p], WiresAt(n, p)))
    && (forall p :: p in n.r && n.pe[p].req ==> n.pe[p].msg.key.source == Address(p) && n.pe[p].msg.svc != CLEAR)
  }

  /** A router itself honours the handshake it relies on. */
  lemma RequestHeld(r: Router, w: Wires, q: Port)
    requires CamInv(r, w) && r.outp.req[q] && !w.ack[q]
    ensures Step(r, w).outp.req[q] && Step(r, w).outp.msg[q] == r.outp.msg[q]
  {
    if r.outp.state == OUT_WAIT_ACK_PORTS {
      assert !AckedPorts(r.outp, w)[q];
    }
  }

  /** An acknowledge stays up as long as the request it answers. */
  lemma AckStays(r: Router, w: Wires, q: Port)
    requires CamInv(r, w) && w.req[q] && r.inp.ack[q]
    ensures Step(r, w).inp.ack[q]
  {
  }

  /** The neighbour behind port `q` holds its request until it is acknowledged. */
  lemma NeighbourHolds(n: Net, n': Net, nx: nat, ny: nat, p: Pos, q: Port)
    requires NetInv(n, nx, ny) && NetNext(n, n') && p in n.r && Shaped(n') && q != LOCAL
    requires WiresAt(n, p).req[q] && !Step(n.r[p], WiresAt(n, p)).inp.ack[q]
    ensures WiresAt(n', p).req[q] && WiresAt(n', p).msg[q] == WiresAt(n, p).msg[q]
  {
    hide Step, CamInv;
    var b := Nbr(p, q);
    OppIsBack(p, q);
    if n.r[p].inp.ack[q] { AckStays(n.r[p], WiresAt(n, p), q); }
    assert b in n.r && Nbr(b, Opp(q)) == p;
    RequestHeld(n.r[b], WiresAt(n, b), Opp(q));
  }

  /** The processing element holds its request until it is acknowledged. */
  lemma SideHolds(n: Net, n': Net, p: Pos)
    requires Shaped(n) && Shaped(n') && NetNext(n, n') && p in n.r
    requires WiresAt(n, p).req[LOCAL] && !Step(n.r[p], WiresAt(n, p)).inp.ack[LOCAL]
    ensures WiresAt(n', p).req[LOCAL] && WiresAt(n', p).msg[LOCAL] == WiresAt(n, p).msg[LOCAL]
  {
    hide Step;
    assert SideStep(n.pe[p], n.r[p], n'.r[p].inp.ack[LOCAL], n'.pe[p]);
  }

  lemma WiresHold(n: Net, n': Net, nx: nat, ny: nat, p: Pos)
    requires NetInv(n, nx, ny) && NetNext(n, n') && p in n.r
    requires Shaped(n) && Shaped(n') && p in n'.r
    ensures HoldsRequests(n.r[p], WiresAt(n, p), WiresAt(n', p))
  {
    hide Step, WiresAt, NetInv, NetNext, SideStep, Nbr, Opp;
    forall q: Port | WiresAt(n, p).req[q] && !Step(n.r[p], WiresAt(n, p)).inp.ack[q]
      ensures WiresAt(n', p).req[q] && WiresAt(n', p).msg[q] == WiresAt(n, p).msg[q]
    {
      if q == LOCAL { SideHolds(n, n', p); } else { NeighbourHolds(n, n', nx, ny, p, q); }
    }
  }

  /** Assume-guarantee, closed: in a mesh every router meets its neighbours' contract, so
      the table invariant of every router holds in every cycle. */
  lemma NetKeepsInv(n: Net, n': Net, nx: nat, ny: nat)
    requires NetInv(n, nx, ny) && NetNext(n, n')
    ensures NetInv(n', nx, ny)
  {
    assert IsMesh(n', nx, ny);
    forall p | p in n'.r
      ensures CamInv(n'.r[p], WiresAt(n', p))
      ensures n'.pe[p].req ==> n'.pe[p].msg.key.source == Address(p) && n'.pe[p].msg.svc != CLEAR
    {
      WiresHold(n, n', nx, ny, p);
      KeepsCamInv(n.r[p], WiresAt(n, p), WiresAt(n', p));
      assert SideStep(n.pe[p], n.r[p], n'.r[p].inp.ack[LOCAL], n'.pe[p]);
    }
  }

  ghost predicate IsNetRun(ns: seq<Net>) {
    && 0 < |ns|
    && (forall t :: 0 <= t < |ns| ==> Shaped(ns[t]))
    && (forall t :: 0 <= t < |ns| - 1 ==> NetNext(ns[t], ns[t + 1]))
  }

  ghost predicate IsNetReset(n: Net, nx: nat, ny: nat) {
    && IsMesh(n, nx, ny)
    && (forall p :: p in n.r ==> IsReset(n.r[p]) && !n.pe[p].ack)
    && (forall p :: p in n.r && n.pe[p].req ==> n.pe[p].msg.key.source == Address(p) && n.pe[p].msg.svc != CLEAR)
  }

  lemma NetRunStep(ns: seq<Net>, t: nat)
    requires IsNetRun(ns) && t + 1 < |ns|
    ensures NetNext(ns[t], ns[t + 1])
  {
    hide NetNext, Shaped;
  }

  lemma {:induction false} NetRunKeepsInv(ns: seq<Net>, nx: nat, ny: nat, t: nat)
    requires IsNetRun(ns) && NetInv(ns[0], nx, ny) && t < |ns|
    ensures NetInv(ns[t], nx, ny)
  {
    if t > 0 {
      NetRunStep(ns, t - 1);
      hide NetInv, IsNetRun, NetNext;
      NetRunKeepsInv(ns, nx, ny, t - 1);
      NetKeepsInv(ns[t - 1], ns[t], nx, ny);
    }
  }

  lemma NetResetEstablishes(n: Net, nx: nat, ny: nat)
    requires IsNetReset(n, nx, ny)
    ensures NetInv(n, nx, ny)
  {
    forall p | p in n.r
      ensures CamInv(n.r[p], WiresAt(n, p))
    {
      ResetEstablishes(n.r[p], WiresAt(n, p));
    }
  }

  /** From reset on, in every cycle of every run, every router of the mesh keeps its table. */
  lemma NetRunFromReset(ns: seq<Net>, nx: nat, ny: nat, t: nat)
    requires IsNetRun(ns) && IsNetReset(ns[0], nx, ny) && t < |ns|
    ensures NetInv(ns[t], nx, ny)
  {
    hide NetInv, IsNetRun, IsNetReset;
    assert 0 < |ns|;
    NetResetEstablishes(ns[0], nx, ny);
    NetRunKeepsInv(ns, nx, ny, t);
  }
}
