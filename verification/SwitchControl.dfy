/** The switch of a packet router: one arbiter and one routing unit shared by five input
    queues, and the crossbar they allocate. */
module SwitchControl {
  import opened Topology
  import opened XyRouting
  import RoundRobin

  type Phase = n: nat | n < 8

  const S0: Phase := 0
  const S1: Phase := 1
  const S2: Phase := 2
  const S3: Phase := 3
  const S4: Phase := 4
  const S5: Phase := 5
  const S6: Phase := 6
  const S7: Phase := 7

  /** `muxIn[i]` is the output that input i feeds, `muxOut[j]` the input that feeds j. */
  datatype Switch = Switch(ea: Phase, sel: Port, ackH: seq<bool>, free: seq<bool>,
    muxIn: seq<Port>, muxOut: seq<Port>, senderAnt: seq<bool>)

  /** What the five queues drive: a request, the flit at the head, and a level that is up
      from the grant to the last flit of the packet. */
  datatype Inputs = Inputs(h: seq<bool>, data: seq<Header>, sender: seq<bool>)

  predicate Shape(s: Switch) {
    |s.ackH| == |s.free| == |s.muxIn| == |s.muxOut| == |s.senderAnt| == NPORT
  }

  predicate InputsOk(w: Inputs) {
    |w.h| == |w.data| == |w.sender| == NPORT
  }

  function All<T>(v: T): (r: seq<T>)
    ensures |r| == NPORT && forall i :: 0 <= i < NPORT ==> r[i] == v
  {
    [v, v, v, v, v]
  }

  /** The arbiter's choice, one priority list per last winner. */
  function Prox(sel: Port, h: seq<bool>): Port
    requires |h| == NPORT
  {
    match sel
    case 4 => if h[EAST] then EAST else if h[WEST] then WEST else if h[NORTH] then NORTH else if h[SOUTH] then SOUTH else LOCAL
    case 0 => if h[WEST] then WEST else if h[NORTH] then NORTH else if h[SOUTH] then SOUTH else if h[LOCAL] then LOCAL else EAST
    case 1 => if h[NORTH] then NORTH else if h[SOUTH] then SOUTH else if h[LOCAL] then LOCAL else if h[EAST] then EAST else WEST
    case 2 => if h[SOUTH] then SOUTH else if h[LOCAL] then LOCAL else if h[EAST] then EAST else if h[WEST] then WEST else NORTH
    case _ => if h[LOCAL] then LOCAL else if h[EAST] then EAST else if h[WEST] then WEST else if h[NORTH] then NORTH else SOUTH
  }

  /** The five lists are one rotating scan. */
  lemma ProxIsRoundRobin(sel: Port, h: seq<bool>)
    requires |h| == NPORT
    ensures Prox(sel, h) == RoundRobin.Next(h, sel)
  {
    var j1 := RoundRobin.Inc(sel, NPORT);
    var j2 := RoundRobin.Inc(j1, NPORT);
    var j3 := RoundRobin.Inc(j2, NPORT);
    var j4 := RoundRobin.Inc(j3, NPORT);
    assert RoundRobin.Inc(j4, NPORT) == sel;
    assert RoundRobin.Scan(h, sel, j4) == if h[j4] then j4 else sel;
    assert RoundRobin.Scan(h, sel, j3) == if h[j3] then j3 else RoundRobin.Scan(h, sel, j4);
    assert RoundRobin.Scan(h, sel, j2) == if h[j2] then j2 else RoundRobin.Scan(h, sel, j3);
    assert RoundRobin.Scan(h, sel, j1) == if h[j1] then j1 else RoundRobin.Scan(h, sel, j2);
  }

  /** The next phase, from the settled values of the arbiter and the routing unit. */
  function NextPhase(s: Switch, w: Inputs, at: Pos): Phase
    requires Shape(s) && InputsOk(w)
  {
    var hdr := w.data[s.sel];
    var t := hdr.target;
    match s.ea
    case 0 => S1
    case 1 => if true in w.h then S2 else S1
    case 2 => S3
    case 3 =>
      if at == t && IsIo(hdr) then
        if hdr.io < 6 && s.free[DirX(at, hdr)] then S5
        else if hdr.io >= 6 && s.free[DirY(at, hdr)] then S6
        else S1
      else if at == t && s.free[LOCAL] then S4
      else if at.x != t.x && s.free[DirX(at, hdr)] then S5
      else if at.x == t.x && at.y != t.y && s.free[DirY(at, hdr)] then S6
      else S1
    case 7 => S1
    case _ => S7
  }

  /** The output connected in phases S4, S5 and S6. */
  function Granted(ea: Phase, hdr: Header, at: Pos): Port {
    if ea == S4 then LOCAL else if ea == S5 then DirX(at, hdr) else DirY(at, hdr)
  }

  /** Routing grants exactly the output that XY routing wants, and only when it is free. */
  lemma GrantsTheWantedOutput(s: Switch, w: Inputs, at: Pos)
    requires Shape(s) && InputsOk(w) && s.ea == S3
    ensures var next := NextPhase(s, w, at); var hdr := w.data[s.sel];
            && (S4 <= next <= S6 <==> s.free[Wanted(at, hdr)])
            && (S4 <= next <= S6 ==> Granted(next, hdr, at) == Wanted(at, hdr))
            && (next < S4 ==> next == S1)
  {
  }

  predicate Falling(s: Switch, w: Inputs, i: Port)
    requires Shape(s) && InputsOk(w)
  {
    !w.sender[i] && s.senderAnt[i]
  }

  /** The registers after the rising edge. Every falling `sender` frees the output that its
      input is connected to after the edge; this write wins over the grant. */
  function RisingEdge(s: Switch, w: Inputs, at: Pos): (r: Switch)
    requires Shape(s) && InputsOk(w)
    ensures Shape(r)
  {
    var out := Granted(s.ea, w.data[s.sel], at);
    var grant := S4 <= s.ea <= S6;
    var muxIn := if grant then s.muxIn[s.sel := out] else s.muxIn;
    s.(sel := if s.ea == S0 then EAST else if s.ea == S2 then Prox(s.sel, w.h) else s.sel,
       ackH := if s.ea <= S1 then All(false) else if s.ea == S2 then s.ackH else s.ackH[s.sel := grant],
       muxIn := if s.ea == S0 then All(EAST) else muxIn,
       muxOut := if s.ea == S0 then All(EAST) else if grant then s.muxOut[out := s.sel] else s.muxOut,
       senderAnt := if s.ea == S0 then All(false) else w.sender,
       free := seq<bool>(NPORT, j requires 0 <= j < NPORT =>
         if exists i: Port :: Falling(s, w, i) && muxIn[i] == j then true
         else if s.ea == S0 then true
         else s.free[j] && !(grant && j == out)))
  }

  /** The falling edge loads the phase computed after the rising edge has settled. */
  function FallingEdge(s: Switch, w: Inputs, at: Pos): Switch
    requires Shape(s) && InputsOk(w)
  {
    s.(ea := NextPhase(s, w, at))
  }

  class SwitchController {
    const address: Pos
    var ea: Phase
    var sel: Port
    var ackH: seq<bool>
    var free: seq<bool>
    var muxIn: seq<Port>
    var muxOut: seq<Port>
    var senderAnt: seq<bool>

    function Current(): Switch
      reads this
    {
      Switch(ea, sel, ackH, free, muxIn, muxOut, senderAnt)
    }

    constructor (at: Pos)
      ensures Shape(Current()) && ea == S0 && address == at
    {
      address := at;
      ea, sel := S0, EAST;
      ackH, free, senderAnt := All(false), All(true), All(false);
      muxIn, muxOut := All(EAST), All(EAST);
    }

    /** Sequential like the source: the five release tests follow the grant. */
    method ControleSequ(w: Inputs)
      requires Shape(Current()) && InputsOk(w)
      modifies this`sel, this`ackH, this`free, this`muxIn, this`muxOut, this`senderAnt
      ensures Current() == RisingEdge(old(Current()), w, address)
    {
      ghost var before := Current();
      var nextFree, nextIn, nextOut, nextAnt := free, muxIn, muxOut, w.sender;
      var nextAck, nextSel := ackH, sel;
      if ea == S0 {
        nextSel := EAST;
        nextAck, nextFree, nextAnt := All(false), All(true), All(false);
        nextOut := All(EAST);
      } else if ea == S1 {
        nextAck := All(false);
      } else if ea == S2 {
        nextSel := Prox(sel, w.h);
      } else if S4 <= ea <= S6 {
        var out := Granted(ea, w.data[sel], address);
        nextIn, nextOut := nextIn[sel := out], nextOut[out := sel];
        nextFree, nextAck := nextFree[out := false], nextAck[sel := true];
      } else {
        nextAck := nextAck[sel := false];
      }
      ghost var granted := nextFree;
      var i := 0;
      while i < NPORT
        invariant 0 <= i <= NPORT && |nextFree| == NPORT
        invariant forall j :: 0 <= j < NPORT ==>
          nextFree[j] == (granted[j] || exists k: Port :: k < i && Falling(before, w, k) && nextIn[k] == j)
      {
        var k: Port := i;
        if !w.sender[k] && senderAnt[k] {
          nextFree := nextFree[nextIn[k] := true];
        }
        i := i + 1;
      }
      if ea == S0 {
        nextIn := All(EAST);
      }
      assert nextFree == RisingEdge(before, w, address).free;
      assert nextAck == RisingEdge(before, w, address).ackH;
      assert nextIn == RisingEdge(before, w, address).muxIn;
      sel, ackH, free, muxIn, muxOut, senderAnt := nextSel, nextAck, nextFree, nextIn, nextOut, nextAnt;
    }

    method StateSequ(w: Inputs)
      requires Shape(Current()) && InputsOk(w)
      modifies this`ea
      ensures Current() == FallingEdge(old(Current()), w, address)
    {
      ea := NextPhase(Current(), w, address);
    }
  }
}
