/** Deterministic XY routing: the output a router wants for a header, and where a packet
    that follows it goes in an nx x ny mesh. */
module XyRouting {
  import opened Topology

  /** What routing reads of the first flit: the router in bits 15..0 and three bits at the
      top, of which bit 2 marks a packet for a peripheral and bits 1..0 name its port. */
  datatype Header = Header(target: Pos, io: Io)

  type Io = i: nat | i < 8

  type Word = bv32

  function FieldX(flit: Word): Word { (flit >> 8) & 0xFF }
  function FieldY(flit: Word): Word { flit & 0xFF }
  function FieldIo(flit: Word): Word { flit >> 29 }

  /** The first flit of a packet for the peripheral on port `port` of router (x, y). */
  function PeripheralFlit(port: Word, x: Word, y: Word): Word {
    0x8000_0000 | (port << 29) | (x << 8) | y
  }

  lemma PeripheralFlitFields(port: Word, x: Word, y: Word)
    requires port < 4 && x < 256 && y < 256
    ensures var f := PeripheralFlit(port, x, y);
            FieldIo(f) == 4 + port && FieldX(f) == x && FieldY(f) == y
  {
  }

  function IoOf(flit: Word): Io {
    match FieldIo(flit)
    case 0 => 0 case 1 => 1 case 2 => 2 case 3 => 3
    case 4 => 4 case 5 => 5 case 6 => 6 case _ => 7
  }

  function HeaderOf(flit: Word): Header {
    Header(Pos(FieldX(flit) as int, FieldY(flit) as int), IoOf(flit))
  }

  /** The three top bits, as a number. */
  lemma IoIsTopBits(flit: Word)
    ensures IoOf(flit) as bv32 == FieldIo(flit) && (flit & 0x8000_0000 != 0 <==> IoOf(flit) >= 4)
  {
  }

  predicate IsIo(hdr: Header) { hdr.io >= 4 }

  function DirX(at: Pos, hdr: Header): Port {
    if at.x > hdr.target.x || hdr.io == 5 then WEST else EAST
  }

  function DirY(at: Pos, hdr: Header): Port {
    if at.y < hdr.target.y || hdr.io == 6 then NORTH else SOUTH
  }

  /** The only output that routing can grant to the packet at this router. */
  function Wanted(at: Pos, hdr: Header): Port {
    if at == hdr.target then
      if !IsIo(hdr) then LOCAL
      else if hdr.io < 6 then DirX(at, hdr) else DirY(at, hdr)
    else if at.x != hdr.target.x then DirX(at, hdr)
    else DirY(at, hdr)
  }

  predicate InMesh(p: Pos, nx: nat, ny: nat) {
    0 <= p.x < nx && 0 <= p.y < ny
  }

  /** The output a peripheral header asks for at its target. */
  function IoPort(hdr: Header): Port {
    match hdr.io
    case 4 => EAST
    case 5 => WEST
    case 6 => NORTH
    case _ => SOUTH
  }

  /** The header names a router of the mesh and, for a peripheral, a port on the border. */
  predicate WellAimed(hdr: Header, nx: nat, ny: nat) {
    && InMesh(hdr.target, nx, ny)
    && (IsIo(hdr) ==> !InMesh(Nbr(hdr.target, IoPort(hdr)), nx, ny))
  }

  /** Where the packet is after `k` hops. */
  ghost function After(start: Pos, hdr: Header, k: nat): Pos {
    if k == 0 then start
    else var p := After(start, hdr, k - 1); Nbr(p, Wanted(p, hdr))
  }

  lemma EachHopIsCloser(at: Pos, hdr: Header, nx: nat, ny: nat)
    requires WellAimed(hdr, nx, ny) && InMesh(at, nx, ny) && at != hdr.target
    ensures var next := Nbr(at, Wanted(at, hdr));
            InMesh(next, nx, ny) && Dist(next, hdr.target) == Dist(at, hdr.target) - 1
  {
  }

  /** A packet stays in the mesh, comes one router closer at every hop, and is at its
      target after exactly |dx| + |dy| hops, not before. */
  lemma {:induction false} PacketArrives(start: Pos, hdr: Header, nx: nat, ny: nat, k: nat)
    requires WellAimed(hdr, nx, ny) && InMesh(start, nx, ny) && k <= Dist(start, hdr.target)
    ensures InMesh(After(start, hdr, k), nx, ny)
    ensures Dist(After(start, hdr, k), hdr.target) == Dist(start, hdr.target) - k
    ensures After(start, hdr, k) == hdr.target <==> k == Dist(start, hdr.target)
  {
    if k > 0 {
      PacketArrives(start, hdr, nx, ny, k - 1);
      EachHopIsCloser(After(start, hdr, k - 1), hdr, nx, ny);
    }
  }

  /** At its target a packet for a task is handed to the local port; one for a peripheral
      leaves the mesh on the port its header names. */
  lemma PacketIsDelivered(start: Pos, hdr: Header, nx: nat, ny: nat)
    requires WellAimed(hdr, nx, ny) && InMesh(start, nx, ny)
    ensures var last := After(start, hdr, Dist(start, hdr.target));
            && last == hdr.target
            && Wanted(last, hdr) == (if IsIo(hdr) then IoPort(hdr) else LOCAL)
            && (IsIo(hdr) ==> !InMesh(Nbr(last, Wanted(last, hdr)), nx, ny))
  {
    PacketArrives(start, hdr, nx, ny, Dist(start, hdr.target));
  }

  /** A peripheral's packet reaches its port from every router exactly when the port is on
      the border of the mesh. */
  lemma PeripheralIsReached(hdr: Header, nx: nat, ny: nat)
    requires IsIo(hdr) && InMesh(hdr.target, nx, ny)
    ensures (forall s: Pos :: InMesh(s, nx, ny) ==> LeavesAt(s, hdr, hdr.target, nx, ny))
            <==> !InMesh(Nbr(hdr.target, IoPort(hdr)), nx, ny)
  {
    if InMesh(Nbr(hdr.target, IoPort(hdr)), nx, ny) {
      assert !LeavesAt(hdr.target, hdr, hdr.target, nx, ny);
    } else {
      forall s: Pos | InMesh(s, nx, ny)
        ensures LeavesAt(s, hdr, hdr.target, nx, ny)
      {
        forall k: nat | k <= Dist(s, hdr.target)
          ensures InMesh(After(s, hdr, k), nx, ny)
        {
          PacketArrives(s, hdr, nx, ny, k);
        }
        PacketIsDelivered(s, hdr, nx, ny);
      }
    }
  }

  /** The flit both injectors build for their own port, on a router inside the mesh. */
  lemma InjectorIsReached(port: Word, x: Word, y: Word, nx: nat, ny: nat)
    requires port < 4 && x < 256 && y < 256 && InMesh(Pos(x as int, y as int), nx, ny)
    ensures var hdr := HeaderOf(PeripheralFlit(port, x, y));
            && hdr.target == Pos(x as int, y as int)
            && IoPort(hdr) == (match port case 0 => EAST case 1 => WEST case 2 => NORTH case _ => SOUTH)
            && ((forall s: Pos :: InMesh(s, nx, ny) ==> LeavesAt(s, hdr, hdr.target, nx, ny))
                <==> !InMesh(Nbr(hdr.target, IoPort(hdr)), nx, ny))
  {
    PeripheralFlitFields(port, x, y);
    PeripheralIsReached(HeaderOf(PeripheralFlit(port, x, y)), nx, ny);
  }

  /** The packet stays in the mesh up to `exit` and takes the next hop out of it there. */
  ghost predicate LeavesAt(start: Pos, hdr: Header, exit: Pos, nx: nat, ny: nat) {
    exists k: nat ::
      && After(start, hdr, k) == exit
      && (forall j: nat :: j <= k ==> InMesh(After(start, hdr, j), nx, ny))
      && !InMesh(Nbr(exit, Wanted(exit, hdr)), nx, ny)
  }

  /** An east or south port that faces another router bounces its packets for ever. */
  lemma {:induction false} InwardPortBounces(hdr: Header, nx: nat, ny: nat, k: nat)
    requires InMesh(hdr.target, nx, ny) && (hdr.io == 4 || hdr.io == 7)
    requires InMesh(Nbr(hdr.target, IoPort(hdr)), nx, ny)
    ensures After(hdr.target, hdr, 2 * k) == hdr.target
    ensures After(hdr.target, hdr, 2 * k + 1) == Nbr(hdr.target, IoPort(hdr))
  {
    if k > 0 {
      InwardPortBounces(hdr, nx, ny, k - 1);
      assert After(hdr.target, hdr, 2 * k) ==
        Nbr(Nbr(hdr.target, IoPort(hdr)), Wanted(Nbr(hdr.target, IoPort(hdr)), hdr));
    }
  }

  /** A link between two routers, named by the router that drives it. */
  datatype Channel = Channel(from: Pos, port: Port)

  predicate IsChannel(c: Channel, nx: nat, ny: nat) {
    c.port != LOCAL && InMesh(c.from, nx, ny) && InMesh(Nbr(c.from, c.port), nx, ny)
  }

  /** Some packet can hold `c` while it waits for `d`. */
  ghost predicate Depends(c: Channel, d: Channel, nx: nat, ny: nat) {
    && IsChannel(c, nx, ny) && IsChannel(d, nx, ny) && d.from == Nbr(c.from, c.port)
    && exists hdr: Header :: WellAimed(hdr, nx, ny) && Wanted(c.from, hdr) == c.port && Wanted(d.from, hdr) == d.port
  }

  function Rank(c: Channel, nx: nat, ny: nat): int {
    match c.port
    case 0 => c.from.x
    case 1 => nx - 1 - c.from.x
    case 2 => nx + c.from.y
    case _ => nx + ny - 1 - c.from.y
  }

  lemma RankIncreases(c: Channel, d: Channel, nx: nat, ny: nat)
    requires Depends(c, d, nx, ny)
    ensures Rank(c, nx, ny) < Rank(d, nx, ny)
  {
    var hdr: Header :| WellAimed(hdr, nx, ny) && Wanted(c.from, hdr) == c.port && Wanted(d.from, hdr) == d.port;
    assert c.from == hdr.target ==> !IsIo(hdr) || c.port == IoPort(hdr);
    assert d.from == hdr.target ==> !IsIo(hdr) || d.port == IoPort(hdr);
  }

  ghost predicate IsDependencyPath(cs: seq<Channel>, nx: nat, ny: nat) {
    forall i :: 0 <= i < |cs| - 1 ==> Depends(cs[i], cs[i + 1], nx, ny)
  }

  lemma {:induction false} PathRankIncreases(cs: seq<Channel>, nx: nat, ny: nat, i: nat, j: nat)
    requires IsDependencyPath(cs, nx, ny) && i < j < |cs|
    ensures Rank(cs[i], nx, ny) < Rank(cs[j], nx, ny)
    decreases j
  {
    RankIncreases(cs[j - 1], cs[j], nx, ny);
    if i < j - 1 {
      PathRankIncreases(cs, nx, ny, i, j - 1);
    }
  }

  /** No chain of waiting packets closes on itself, so XY routing cannot deadlock. */
  lemma NoRoutingDeadlock(cs: seq<Channel>, nx: nat, ny: nat)
    requires IsDependencyPath(cs, nx, ny) && |cs| >= 2
    ensures forall i, j :: 0 <= i < j < |cs| ==> cs[i] != cs[j]
    ensures |cs| <= nx + ny
  {
    forall i, j | 0 <= i < j < |cs|
      ensures cs[i] != cs[j]
    {
      PathRankIncreases(cs, nx, ny, i, j);
    }
    PathIsShort(cs, nx, ny, |cs| - 1);
  }

  /** A dependency path climbs at least one rank per channel. */
  lemma {:induction false} PathIsShort(cs: seq<Channel>, nx: nat, ny: nat, j: nat)
    requires IsDependencyPath(cs, nx, ny) && j < |cs| && |cs| >= 2
    ensures j <= Rank(cs[j], nx, ny) < nx + ny
  {
    if j > 0 {
      assert Depends(cs[j - 1], cs[j], nx, ny);
      RankIncreases(cs[j - 1], cs[j], nx, ny);
      PathIsShort(cs, nx, ny, j - 1);
    } else {
      assert Depends(cs[0], cs[1], nx, ny);
    }
  }
}
