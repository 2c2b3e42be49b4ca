/** The ports of a router and the routers behind them in the N x M mesh. */
module Topology {
  import Division

  const EAST: nat := 0
  const WEST: nat := 1
  const NORTH: nat := 2
  const SOUTH: nat := 3
  const LOCAL: nat := 4
  const NPORT: nat := 5

  type Port = p: nat | p < 5

  datatype Pos = Pos(x: int, y: int)

  /** The router behind port `q`; it need not exist. */
  function Nbr(p: Pos, q: Port): Pos {
    match q
    case 0 => Pos(p.x + 1, p.y)
    case 1 => Pos(p.x - 1, p.y)
    case 2 => Pos(p.x, p.y + 1)
    case 3 => Pos(p.x, p.y - 1)
    case _ => p
  }

  function Opp(q: Port): Port {
    match q
    case 0 => WEST
    case 1 => EAST
    case 2 => SOUTH
    case 3 => NORTH
    case _ => LOCAL
  }

  lemma OppIsBack(p: Pos, q: Port)
    ensures q != LOCAL ==> Opp(q) != LOCAL && Opp(q) != q && Opp(Opp(q)) == q && Nbr(Nbr(p, q), Opp(q)) == p
  {
  }

  /** The number of hops between two routers. */
  function Dist(p: Pos, q: Pos): nat { Division.Abs(p.x - q.x) + Division.Abs(p.y - q.y) }

  /** The address register holds x in its upper and y in its lower byte. */
  function Address(p: Pos): int { p.x * 256 + p.y }

  // ---- Arrays of routers ----

  /** The place of a router in the arrays of an nx x ny mesh, row by row. */
  function Index(p: Pos, nx: nat): int { p.y * nx + p.x }

  /** The address given to the router at place `i`: 8-bit fields for x and y. */
  function RouterAddress(i: nat, nx: nat): nat
    requires nx > 0
  {
    (i % nx) % 256 * 256 + (i / nx) % 256
  }

  /** Places and positions agree: the router at place y * nx + x carries the address of
      (x, y), and the places the wiring names are those of the neighbours. */
  lemma PlacesArePositions(p: Pos, nx: nat, ny: nat)
    requires 0 <= p.x < nx <= 256 && 0 <= p.y < ny <= 256
    ensures Index(p, nx) >= 0 && RouterAddress(Index(p, nx), nx) == Address(p)
    ensures Index(Nbr(p, EAST), nx) == Index(p, nx) + 1 && Index(Nbr(p, WEST), nx) == Index(p, nx) - 1
    ensures Index(Nbr(p, NORTH), nx) == Index(p, nx) + nx && Index(Nbr(p, SOUTH), nx) == Index(p, nx) - nx
  {
    Division.MulMono(0, p.y, nx);
    Division.DivUnique(Index(p, nx), nx, p.y, p.x);
    assert (p.y + 1) * nx == p.y * nx + nx && (p.y - 1) * nx == p.y * nx - nx;
  }
}
