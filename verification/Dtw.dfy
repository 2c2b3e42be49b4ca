/** Dynamic time warping with two columns: the result is the least cost of a warping path. */
module Dtw {
  type Row = seq<int>

  /** Two sequences of samples of one width. */
  ghost predicate Samples(x: seq<Row>, y: seq<Row>, size: nat) {
    && 0 < size && |x| == |y| == size
    && forall i :: 0 <= i < size ==> |x[i]| == size && |y[i]| == size
  }

  function SumOfSquares(x: Row, y: Row, k: nat): int
    requires k <= |x| && k <= |y|
  {
    if k == 0 then 0 else SumOfSquares(x, y, k - 1) + (x[k - 1] - y[k - 1]) * (x[k - 1] - y[k - 1])
  }

  /** The squared distance of sample i of x and sample j of y. */
  function Local(x: seq<Row>, y: seq<Row>, size: nat, i: nat, j: nat): int
    requires Samples(x, y, size) && i < size && j < size
  {
    SumOfSquares(x[i], y[j], size)
  }

  method EuclideanDistance(x: Row, y: Row, size: nat) returns (ed: int)
    requires |x| == size && |y| == size
    ensures ed == SumOfSquares(x, y, size)
  {
    ed := 0;
    var i := 0;
    while i < size
      invariant i <= size && ed == SumOfSquares(x, y, i)
    {
      var aux := x[i] - y[i];
      ed := ed + aux * aux;
      i := i + 1;
    }
  }

  function Min(x: int, y: int): int { if x > y then y else x }

  // ---- Warping paths ----

  datatype Point = Point(i: nat, j: nat)

  /** One sample further in one sequence or in both. */
  predicate Step(p: Point, q: Point) {
    q == Point(p.i + 1, p.j) || q == Point(p.i, p.j + 1) || q == Point(p.i + 1, p.j + 1)
  }

  /** A path from (0, 0) to `end`. */
  predicate IsPath(path: seq<Point>, end: Point) {
    && 0 < |path| && path[0] == Point(0, 0) && path[|path| - 1] == end
    && forall k :: 0 <= k < |path| - 1 ==> Step(path[k], path[k + 1])
  }

  ghost function Cost(x: seq<Row>, y: seq<Row>, size: nat, path: seq<Point>): int
    requires Samples(x, y, size) && forall k :: 0 <= k < |path| ==> path[k].i < size && path[k].j < size
  {
    if path == [] then 0
    else Cost(x, y, size, path[..|path| - 1]) + Local(x, y, size, path[|path| - 1].i, path[|path| - 1].j)
  }

  lemma {:induction false} PathStaysInside(path: seq<Point>, end: Point, k: nat)
    requires IsPath(path, end) && k < |path|
    ensures path[k].i <= end.i && path[k].j <= end.j
    decreases |path| - k
  {
    if k < |path| - 1 {
      PathStaysInside(path, end, k + 1);
    }
  }

  /** No path to `end` costs less than `c`, and one costs just that. */
  ghost predicate IsLeast(x: seq<Row>, y: seq<Row>, size: nat, end: Point, c: int)
    requires Samples(x, y, size)
  {
    && (exists path :: IsPathIn(path, end, size) && Cost(x, y, size, path) == c)
    && (forall path :: IsPathIn(path, end, size) ==> c <= Cost(x, y, size, path))
  }

  ghost predicate IsPathIn(path: seq<Point>, end: Point, size: nat) {
    IsPath(path, end) && forall k :: 0 <= k < |path| ==> path[k].i < size && path[k].j < size
  }

  // ---- The recurrence ----

  ghost function Best(x: seq<Row>, y: seq<Row>, size: nat, i: nat, j: nat): int
    requires Samples(x, y, size) && i < size && j < size
  {
    Local(x, y, size, i, j) +
      if i == 0 && j == 0 then 0
      else if i == 0 then Best(x, y, size, 0, j - 1)
      else if j == 0 then Best(x, y, size, i - 1, 0)
      else Min(Best(x, y, size, i - 1, j), Min(Best(x, y, size, i - 1, j - 1), Best(x, y, size, i, j - 1)))
  }

  /** The neighbour the recurrence takes its minimum from. */
  ghost function Before(x: seq<Row>, y: seq<Row>, size: nat, i: nat, j: nat): (p: Point)
    requires Samples(x, y, size) && i < size && j < size && (i > 0 || j > 0)
    ensures p.i < size && p.j < size && Step(p, Point(i, j)) && p.i + p.j < i + j
  {
    if i == 0 then Point(0, j - 1)
    else if j == 0 then Point(i - 1, 0)
    else
      var a, b, c := Best(x, y, size, i - 1, j), Best(x, y, size, i - 1, j - 1), Best(x, y, size, i, j - 1);
      if a <= b && a <= c then Point(i - 1, j) else if b <= c then Point(i - 1, j - 1) else Point(i, j - 1)
  }

  lemma BestIs(x: seq<Row>, y: seq<Row>, size: nat, i: nat, j: nat)
    requires Samples(x, y, size) && i < size && j < size && (i > 0 || j > 0)
    ensures Best(x, y, size, i, j) == Local(x, y, size, i, j) +
              if i == 0 then Best(x, y, size, 0, j - 1)
              else if j == 0 then Best(x, y, size, i - 1, 0)
              else Min(Best(x, y, size, i - 1, j), Min(Best(x, y, size, i - 1, j - 1), Best(x, y, size, i, j - 1)))
  {
  }

  lemma BestFromBefore(x: seq<Row>, y: seq<Row>, size: nat, i: nat, j: nat)
    requires Samples(x, y, size) && i < size && j < size && (i > 0 || j > 0)
    ensures var p := Before(x, y, size, i, j);
            Best(x, y, size, i, j) == Local(x, y, size, i, j) + Best(x, y, size, p.i, p.j)
  {
    hide Local, Best;
    BestIs(x, y, size, i, j);
  }

  /** A path that costs what the recurrence says. */
  lemma {:induction false} BestPath(x: seq<Row>, y: seq<Row>, size: nat, i: nat, j: nat) returns (path: seq<Point>)
    requires Samples(x, y, size) && i < size && j < size
    ensures IsPathIn(path, Point(i, j), size) && Cost(x, y, size, path) == Best(x, y, size, i, j)
    decreases i + j
  {
    hide Local;
    if i == 0 && j == 0 {
      path := [Point(0, 0)];
      assert Cost(x, y, size, path[..0]) == 0;
    } else {
      BestFromBefore(x, y, size, i, j);
      hide Best;
      var p := Before(x, y, size, i, j);
      var front := BestPath(x, y, size, p.i, p.j);
      path := front + [Point(i, j)];
      assert path[..|path| - 1] == front;
    }
  }

  lemma {:induction false} BestIsLowest(x: seq<Row>, y: seq<Row>, size: nat, path: seq<Point>, i: nat, j: nat)
    requires Samples(x, y, size) && i < size && j < size && IsPathIn(path, Point(i, j), size)
    ensures Best(x, y, size, i, j) <= Cost(x, y, size, path)
    decreases |path|
  {
    var front := path[..|path| - 1];
    if |path| == 1 {
      assert Cost(x, y, size, front) == 0;
    } else {
      var p := path[|path| - 2];
      assert Step(p, path[|path| - 1]);
      assert IsPathIn(front, p, size);
      BestIsLowest(x, y, size, front, p.i, p.j);
    }
  }

  /** The recurrence is optimal over all warping paths. */
  lemma BestIsLeast(x: seq<Row>, y: seq<Row>, size: nat, i: nat, j: nat)
    requires Samples(x, y, size) && i < size && j < size
    ensures IsLeast(x, y, size, Point(i, j), Best(x, y, size, i, j))
  {
    var path := BestPath(x, y, size, i, j);
    forall path | IsPathIn(path, Point(i, j), size)
      ensures Best(x, y, size, i, j) <= Cost(x, y, size, path)
    {
      BestIsLowest(x, y, size, path, i, j);
    }
  }

  lemma {:induction false} SquaresCommute(x: Row, y: Row, k: nat)
    requires k <= |x| && k <= |y|
    ensures SumOfSquares(x, y, k) == SumOfSquares(y, x, k)
  {
    if k > 0 {
      SquaresCommute(x, y, k - 1);
      var d := x[k - 1] - y[k - 1];
      assert d * d == (-d) * (-d);
    }
  }

  /** Exchanging the two sequences does not change the result. */
  lemma {:induction false} BestIsSymmetric(x: seq<Row>, y: seq<Row>, size: nat, i: nat, j: nat)
    requires Samples(x, y, size) && i < size && j < size
    ensures Best(x, y, size, i, j) == Best(y, x, size, j, i)
    decreases i + j
  {
    SquaresCommute(x[i], y[j], size);
    if i > 0 { BestIsSymmetric(x, y, size, i - 1, j); }
    if j > 0 { BestIsSymmetric(x, y, size, i, j - 1); }
    if i > 0 && j > 0 { BestIsSymmetric(x, y, size, i - 1, j - 1); }
  }

  method FirstColumn(x: seq<Row>, y: seq<Row>, size: nat, currCol: array<int>)
    requires Samples(x, y, size) && currCol.Length == size
    modifies currCol
    ensures forall k: nat :: k < size ==> currCol[k] == Best(x, y, size, 0, k)
  {
    hide SumOfSquares;
    currCol[0] := EuclideanDistance(x[0], y[0], size);
    var j := 1;
    while j <= size - 1
      invariant 1 <= j <= size && forall k: nat :: k < j ==> currCol[k] == Best(x, y, size, 0, k)
    {
      var ed := EuclideanDistance(x[0], y[j], size);
      currCol[j] := currCol[j - 1] + ed;
      j := j + 1;
    }
  }

  method NextColumn(x: seq<Row>, y: seq<Row>, size: nat, i: nat, lastCol: array<int>, currCol: array<int>)
    requires Samples(x, y, size) && 0 < i < size && lastCol.Length == size && currCol.Length == size && lastCol != currCol
    requires forall k: nat :: k < size ==> lastCol[k] == Best(x, y, size, i - 1, k)
    modifies currCol
    ensures forall k: nat :: k < size ==> currCol[k] == Best(x, y, size, i, k)
  {
    hide SumOfSquares;
    var ed := EuclideanDistance(x[i], y[0], size);
    currCol[0] := lastCol[0] + ed;
    var j := 1;
    while j <= size - 1
      invariant 1 <= j <= size && forall k: nat :: k < j ==> currCol[k] == Best(x, y, size, i, k)
    {
      var minGlobalCost := Min(lastCol[j], Min(lastCol[j - 1], currCol[j - 1]));
      ed := EuclideanDistance(x[i], y[j], size);
      assert minGlobalCost + ed == Best(x, y, size, i, j);
      currCol[j] := minGlobalCost + ed;
      j := j + 1;
    }
  }

  /** The result is the least cost of a warping path from corner to corner, and is the same
      with the two sequences exchanged. */
  method DynamicTimeWarping(x: seq<Row>, y: seq<Row>, size: nat) returns (r: int)
    requires Samples(x, y, size)
    ensures IsLeast(x, y, size, Point(size - 1, size - 1), r)
    ensures Samples(y, x, size) && r == Best(x, y, size, size - 1, size - 1) == Best(y, x, size, size - 1, size - 1)
  {
    var lastCol, currCol := new int[size], new int[size];
    FirstColumn(x, y, size, currCol);
    var i := 1;
    while i <= size - 1
      invariant 1 <= i <= size && forall k: nat :: k < size ==> currCol[k] == Best(x, y, size, i - 1, k)
    {
      forall k | 0 <= k < size {
        lastCol[k] := currCol[k];
      }
      NextColumn(x, y, size, i, lastCol, currCol);
      i := i + 1;
    }
    BestIsLeast(x, y, size, size - 1, size - 1);
    BestIsSymmetric(x, y, size, size - 1, size - 1);
    r := currCol[size - 1];
  }
}
