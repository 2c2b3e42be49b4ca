/** The tree along which the workers of the map-reduce benchmark add up their slices: every
    worker sends to its number with the lowest set bit cleared. */
module ReductionTree {
  import opened Options
  import opened Powers

  /** The position of the lowest set bit. */
  function Low(id: nat): nat
    requires id > 0
  {
    if id % 2 == 1 then 0 else 1 + Low(id / 2)
  }

  /** The number of levels, at most `i`, at which `id` is still a row of the table. */
  function Level(id: nat, i: nat): (r: nat)
    ensures r <= i
  {
    if id == 0 then i else if Low(id) < i then Low(id) else i
  }

  lemma {:induction false} LowBitFits(id: nat)
    requires id > 0
    ensures Pow2(Low(id)) <= id
  {
    if id % 2 == 0 { LowBitFits(id / 2); }
  }

  function Parent(id: nat): nat
    requires id > 0
  {
    LowBitFits(id);
    id - Pow2(Low(id))
  }

  /** The senders a worker waits for at the first `k` levels. */
  function Chain(id: nat, k: nat): (c: seq<nat>)
    ensures |c| == k
  {
    if k == 0 then [] else Chain(id, k - 1) + [id + Pow2(k - 1)]
  }

  // ---- Rows of a level: the multiples of a power of two ----

  function Row(k: nat, i: nat): nat { k * Pow2(i) }

  lemma Halves(k: nat, p: nat)
    ensures (2 * k) * p == k * (2 * p) && (2 * k + 1) * p == k * (2 * p) + p
  {
  }

  lemma RowHalves(k: nat, i: nat)
    ensures Row(2 * k, i) == Row(k, i + 1)
    ensures Row(2 * k + 1, i) == Row(k, i + 1) + Pow2(i)
    ensures Row(k, 0) == k
  {
    Halves(k, Pow2(i));
    assert Pow2(i + 1) == 2 * Pow2(i) && Pow2(0) == 1;
  }

  lemma RowsAscend(k: nat, l: nat, i: nat)
    requires k < l
    ensures Row(k, i) + Pow2(i) <= Row(l, i)
  {
    assert (l - k) * Pow2(i) >= Pow2(i);
  }

  lemma RowDoubles(k: nat, i: nat)
    ensures Row(k, i + 1) == 2 * Row(k, i)
  {
  }

  /** A multiple of 2^i is a row of level i, and an odd multiple leaves there. */
  lemma {:induction false} LevelOfRow(k: nat, i: nat)
    ensures Level(Row(k, i), i) == i
    ensures k % 2 == 1 ==> Row(k, i) > 0 && Low(Row(k, i)) == i
  {
    if i > 0 {
      LevelOfRow(k, i - 1);
      RowDoubles(k, i - 1);
    }
  }

  lemma {:induction false} RowOfLevel(x: nat, i: nat) returns (k: nat)
    requires Level(x, i) == i
    ensures x == Row(k, i)
  {
    if i == 0 {
      k := x;
    } else if x == 0 {
      k := 0;
    } else {
      k := RowOfLevel(x / 2, i - 1);
      RowDoubles(k, i - 1);
    }
  }

  // ---- The table of one level ----

  datatype Table = Table(idx: seq<nat>, dest: seq<seq<nat>>, recv: map<nat, seq<nat>>, send: map<nat, nat>)

  ghost predicate RowsOk(t: Table, tasks: nat, i: nat) {
    && |t.idx| == |t.dest| && tasks == Row(|t.idx|, i)
    && (forall k :: 0 <= k < |t.idx| ==> t.idx[k] == Row(k, i))
    && (forall k :: 0 <= k < |t.idx| ==> t.dest[k] == Chain(t.idx[k], i))
  }

  /** What is known of number `x` in the receivers' dictionary after `i` levels. */
  ghost predicate RecvAt(recv: map<nat, seq<nat>>, tasks: nat, i: nat, x: nat) {
    && (x in recv <==> i > 0 && x < tasks && x % 2 == 0)
    && (x in recv ==> recv[x] == Chain(x, Level(x, i)))
  }

  ghost predicate SendAt(send: map<nat, nat>, tasks: nat, i: nat, c: nat) {
    && (c in send <==> 0 < c < tasks && Low(c) < i)
    && (c in send ==> send[c] == Parent(c))
  }

  ghost predicate MapsOk(t: Table, tasks: nat, i: nat) {
    (forall x: nat :: RecvAt(t.recv, tasks, i, x)) && (forall c: nat :: SendAt(t.send, tasks, i, c))
  }

  function KeepEven<T>(s: seq<T>): (r: seq<T>)
    ensures |r| == (|s| + 1) / 2 && forall k :: 0 <= k < |r| ==> r[k] == s[2 * k]
  {
    seq<T>((|s| + 1) / 2, k requires 0 <= k < (|s| + 1) / 2 => s[2 * k])
  }

  /** The list comprehension that drops the odd places. */
  method DropOdd<T>(s: seq<T>) returns (r: seq<T>)
    ensures r == KeepEven(s)
  {
    r := [];
    var j := 0;
    while j < |s|
      invariant j <= |s| && |r| == (j + 1) / 2 && forall k :: 0 <= k < |r| ==> r[k] == s[2 * k]
    {
      if j % 2 == 0 { r := r + [s[j]]; }
      j := j + 1;
    }
  }

  /** Every even place receives from the place after it; an odd number of rows is an index
      error of the source. */
  method AppendPairs(idx: seq<nat>, dest: seq<seq<nat>>) returns (ok: bool, r: seq<seq<nat>>)
    requires |idx| == |dest|
    ensures ok <==> |idx| % 2 == 0
    ensures ok ==> |r| == |dest| && forall j :: 0 <= j < |dest| ==> r[j] == if j % 2 == 0 then dest[j] + [idx[j + 1]] else dest[j]
  {
    r := dest;
    var j := 0;
    while j < |idx|
      invariant j <= |idx| + 1 && j % 2 == 0 && |r| == |dest| && (j == |idx| + 1 ==> false)
      invariant forall k :: 0 <= k < j ==> r[k] == if k % 2 == 0 then dest[k] + [idx[k + 1]] else dest[k]
      invariant forall k :: j <= k < |dest| ==> r[k] == dest[k]
    {
      if j + 1 >= |idx| { return false, r; }
      r := r[j := r[j] + [idx[j + 1]]];
      j := j + 2;
    }
    ok := true;
  }

  /** A dictionary after the assignments m[keys[k]] = vals[k], in order. */
  function UpdateAll<V>(m: map<nat, V>, keys: seq<nat>, vals: seq<V>): map<nat, V>
    requires |keys| == |vals|
  {
    if keys == [] then m
    else UpdateAll(m, keys[..|keys| - 1], vals[..|vals| - 1])[keys[|keys| - 1] := vals[|vals| - 1]]
  }

  ghost predicate Distinct(keys: seq<nat>) {
    forall k, l :: 0 <= k < l < |keys| ==> keys[k] != keys[l]
  }

  lemma {:induction false} UpdateAllFacts<V>(m: map<nat, V>, keys: seq<nat>, vals: seq<V>)
    requires |keys| == |vals| && Distinct(keys)
    ensures var r := UpdateAll(m, keys, vals);
            && (forall k :: 0 <= k < |keys| ==> keys[k] in r && r[keys[k]] == vals[k])
            && (forall x :: x in r && x !in keys ==> x in m && r[x] == m[x])
            && (forall x :: x in m ==> x in r)
  {
    if keys != [] {
      var n := |keys| - 1;
      UpdateAllFacts(m, keys[..n], vals[..n]);
      var before := UpdateAll(m, keys[..n], vals[..n]);
      forall k | 0 <= k < |keys|
        ensures keys[k] in UpdateAll(m, keys, vals) && UpdateAll(m, keys, vals)[keys[k]] == vals[k]
      {
        if k < n {
          assert keys[..n][k] == keys[k] && vals[..n][k] == vals[k];
        }
      }
    }
  }

  lemma UpdateHit<V>(m: map<nat, V>, keys: seq<nat>, vals: seq<V>, k: nat)
    requires |keys| == |vals| && Distinct(keys) && k < |keys|
    ensures keys[k] in UpdateAll(m, keys, vals) && UpdateAll(m, keys, vals)[keys[k]] == vals[k]
  {
    UpdateAllFacts(m, keys, vals);
  }

  lemma UpdateMiss<V>(m: map<nat, V>, keys: seq<nat>, vals: seq<V>, x: nat)
    requires |keys| == |vals| && Distinct(keys) && x !in keys
    ensures var r := UpdateAll(m, keys, vals); (x in r <==> x in m) && (x in r ==> r[x] == m[x])
  {
    UpdateAllFacts(m, keys, vals);
  }

  function Lasts(dest: seq<seq<nat>>): (r: seq<nat>)
    requires forall k :: 0 <= k < |dest| ==> 0 < |dest[k]|
    ensures |r| == |dest| && forall k :: 0 <= k < |r| ==> r[k] == dest[k][|dest[k]| - 1]
  {
    seq<nat>(|dest|, k requires 0 <= k < |dest| => dest[k][|dest[k]| - 1])
  }

  lemma UpdateOne<V>(m: map<nat, V>, keys: seq<nat>, vals: seq<V>, n: nat)
    requires |keys| == |vals| && n < |keys|
    ensures UpdateAll(m, keys[..n + 1], vals[..n + 1]) == UpdateAll(m, keys[..n], vals[..n])[keys[n] := vals[n]]
  {
    assert keys[..n + 1][..n] == keys[..n] && vals[..n + 1][..n] == vals[..n];
  }

  /** Both dictionaries take the rows of the level. */
  method Record(t: Table) returns (recv: map<nat, seq<nat>>, send: map<nat, nat>)
    requires |t.idx| == |t.dest| && forall k :: 0 <= k < |t.dest| ==> 0 < |t.dest[k]|
    ensures recv == UpdateAll(t.recv, t.idx, t.dest) && send == UpdateAll(t.send, Lasts(t.dest), t.idx)
  {
    recv, send := t.recv, t.send;
    assert UpdateAll(t.recv, [], []) == t.recv && UpdateAll(t.send, [], []) == t.send;
    hide UpdateAll;
    ghost var lasts := Lasts(t.dest);
    var n := 0;
    while n < |t.idx|
      invariant n <= |t.idx|
      invariant recv == UpdateAll(t.recv, t.idx[..n], t.dest[..n])
      invariant send == UpdateAll(t.send, lasts[..n], t.idx[..n])
    {
      recv := recv[t.idx[n] := t.dest[n]];
      send := send[t.dest[n][|t.dest[n]| - 1] := t.idx[n]];
      UpdateOne(t.recv, t.idx, t.dest, n);
      UpdateOne(t.send, lasts, t.idx, n);
      n := n + 1;
    }
    assert t.idx[..n] == t.idx && t.dest[..n] == t.dest && lasts[..n] == lasts;
  }

  // ---- One level ----

  ghost predicate Paired(t: Table, dest: seq<seq<nat>>) {
    && |t.idx| == |t.dest| == |dest| && |t.idx| % 2 == 0
    && forall j :: 0 <= j < |dest| ==> dest[j] == if j % 2 == 0 then t.dest[j] + [t.idx[j + 1]] else t.dest[j]
  }

  lemma KeepsRows(t: Table, tasks: nat, i: nat, dest: seq<seq<nat>>)
    requires RowsOk(t, tasks, i) && Paired(t, dest)
    ensures RowsOk(Table(KeepEven(t.idx), KeepEven(dest), t.recv, t.send), tasks, i + 1)
  {
    var idx', dest' := KeepEven(t.idx), KeepEven(dest);
    RowHalves(|idx'|, i);
    forall k | 0 <= k < |idx'|
      ensures idx'[k] == Row(k, i + 1) && dest'[k] == Chain(idx'[k], i + 1)
    {
      RowHalves(k, i);
      hide Row;
      assert t.idx[2 * k + 1] == Row(2 * k + 1, i);
    }
  }

  lemma RowsDistinct(t: Table, tasks: nat, i: nat)
    requires RowsOk(t, tasks, i + 1)
    ensures Distinct(t.idx) && (forall k :: 0 <= k < |t.dest| ==> 0 < |t.dest[k]|) && Distinct(Lasts(t.dest))
    ensures forall k :: 0 <= k < |t.idx| ==> Lasts(t.dest)[k] == Row(2 * k + 1, i) && t.idx[k] < tasks && Row(2 * k + 1, i) < tasks
  {
    hide Row;
    forall k, l | 0 <= k < l < |t.idx|
      ensures t.idx[k] < t.idx[l]
    {
      RowsAscend(k, l, i + 1);
    }
    forall k | 0 <= k < |t.idx|
      ensures 0 < |t.dest[k]| && t.dest[k][|t.dest[k]| - 1] == Row(2 * k + 1, i) && t.idx[k] < tasks && Row(2 * k + 1, i) < tasks
    {
      RowHalves(k, i);
      RowsAscend(k, |t.idx|, i + 1);
    }
    forall k, l | 0 <= k < l < |t.dest|
      ensures Lasts(t.dest)[k] != Lasts(t.dest)[l]
    {
      RowsAscend(2 * k + 1, 2 * l + 1, i);
    }
  }

  /** The rows of level i + 1 are the numbers that are still in the table there. */
  lemma RowsAre(t: Table, tasks: nat, i: nat, x: nat)
    requires RowsOk(t, tasks, i) && x < tasks
    ensures x in t.idx <==> Level(x, i) == i
  {
    hide Row;
    if x in t.idx {
      var k :| 0 <= k < |t.idx| && t.idx[k] == x;
      LevelOfRow(k, i);
    }
    if Level(x, i) == i {
      var k := RowOfLevel(x, i);
      if k >= |t.idx| {
        if k > |t.idx| { RowsAscend(|t.idx|, k, i); }
      } else {
        assert t.idx[k] == x;
      }
    }
  }

  function NextTable(t: Table, dest: seq<seq<nat>>): Table
    requires |t.idx| == |dest| && forall k :: 0 <= k < |KeepEven(dest)| ==> 0 < |KeepEven(dest)[k]|
  {
    var idx', dest' := KeepEven(t.idx), KeepEven(dest);
    Table(idx', dest', UpdateAll(t.recv, idx', dest'), UpdateAll(t.send, Lasts(dest'), idx'))
  }

  /** Even numbers stay for a second level; one that has left keeps its level. */
  lemma LevelStep(x: nat, i: nat)
    ensures if Level(x, i + 1) == i + 1 then x % 2 == 0 else Level(x, i) == Level(x, i + 1)
    ensures i == 0 ==> (Level(x, i + 1) == i + 1 <==> x % 2 == 0)
  {
  }

  lemma RowEntry(t: Table, tasks: nat, i: nat, k: nat)
    requires RowsOk(t, tasks, i) && k < |t.idx|
    ensures t.idx[k] < tasks && Level(t.idx[k], i) == i && t.dest[k] == Chain(t.idx[k], i)
  {
    LevelOfRow(k, i);
    RowsAscend(k, |t.idx|, i);
    hide Row, Chain, Level;
  }

  lemma KeepsReceivers(t: Table, tasks: nat, i: nat, recv: map<nat, seq<nat>>, x: nat)
    requires RowsOk(t, tasks, i + 1) && RecvAt(recv, tasks, i, x)
    ensures RecvAt(UpdateAll(recv, t.idx, t.dest), tasks, i + 1, x)
  {
    RowsDistinct(t, tasks, i);
    LevelStep(x, i);
    assert |t.idx| == |t.dest|;
    if x in t.idx {
      var k :| 0 <= k < |t.idx| && t.idx[k] == x;
      RowEntry(t, tasks, i + 1, k);
      UpdateHit(recv, t.idx, t.dest, k);
      hide RowsOk, Row, Chain, UpdateAll, Level, Low, Lasts, Distinct;
    } else {
      if x < tasks {
        RowsAre(t, tasks, i + 1, x);
      }
      UpdateMiss(recv, t.idx, t.dest, x);
      hide RowsOk, Row, Chain, UpdateAll, Level, Low, Lasts, Distinct;
    }
  }

  /** A sender that leaves at level i is an odd row of it. */
  lemma OddRow(c: nat, i: nat) returns (k: nat)
    requires c > 0 && Low(c) == i
    ensures c == Row(2 * k + 1, i)
  {
    k := RowOfLevel(c, i);
    if k % 2 == 0 {
      RowHalves(k / 2, i);
      LevelOfRow(k / 2, i + 1);
    }
    k := k / 2;
  }

  lemma SenderLeaves(t: Table, tasks: nat, i: nat, k: nat)
    requires RowsOk(t, tasks, i + 1) && k < |t.dest| && forall k :: 0 <= k < |t.dest| ==> 0 < |t.dest[k]|
    ensures var c := Lasts(t.dest)[k]; 0 < c < tasks && Low(c) == i && t.idx[k] == Parent(c)
  {
    RowsDistinct(t, tasks, i);
    LevelOfRow(2 * k + 1, i);
    RowHalves(k, i);
    hide Row, Chain, Pow2;
    assert t.idx[k] == Row(k, i + 1);
  }

  lemma LeaverIsSender(t: Table, tasks: nat, i: nat, c: nat)
    requires RowsOk(t, tasks, i + 1) && forall k :: 0 <= k < |t.dest| ==> 0 < |t.dest[k]|
    requires 0 < c < tasks && Low(c) == i
    ensures c in Lasts(t.dest)
  {
    var k := OddRow(c, i);
    RowHalves(|t.idx|, i);
    RowsDistinct(t, tasks, i);
    hide Row, Chain, Low, Pow2;
    if k < |t.idx| {
      assert Lasts(t.dest)[k] == c;
    } else if k > |t.idx| {
      RowsAscend(2 * |t.idx| + 1, 2 * k + 1, i);
    }
  }

  lemma KeepsSenders(t: Table, tasks: nat, i: nat, send: map<nat, nat>, c: nat)
    requires RowsOk(t, tasks, i + 1) && SendAt(send, tasks, i, c)
    requires forall k :: 0 <= k < |t.dest| ==> 0 < |t.dest[k]|
    ensures SendAt(UpdateAll(send, Lasts(t.dest), t.idx), tasks, i + 1, c)
  {
    RowsDistinct(t, tasks, i);
    hide Row, Chain, UpdateAll, Pow2, Low;
    if c in Lasts(t.dest) {
      var k :| 0 <= k < |t.dest| && Lasts(t.dest)[k] == c;
      SenderLeaves(t, tasks, i, k);
      UpdateHit(send, Lasts(t.dest), t.idx, k);
    } else {
      if 0 < c < tasks && Low(c) == i {
        LeaverIsSender(t, tasks, i, c);
      }
      UpdateMiss(send, Lasts(t.dest), t.idx, c);
    }
  }

  lemma KeepsMaps(t: Table, tasks: nat, i: nat, dest: seq<seq<nat>>)
    requires RowsOk(t, tasks, i) && MapsOk(t, tasks, i) && Paired(t, dest)
    ensures forall k :: 0 <= k < |KeepEven(dest)| ==> 0 < |KeepEven(dest)[k]|
    ensures RowsOk(NextTable(t, dest), tasks, i + 1) && MapsOk(NextTable(t, dest), tasks, i + 1)
  {
    var t' := Table(KeepEven(t.idx), KeepEven(dest), t.recv, t.send);
    KeepsRows(t, tasks, i, dest);
    RowsDistinct(t', tasks, i);
    var recv', send', next := UpdateAll(t.recv, t'.idx, t'.dest), UpdateAll(t.send, Lasts(t'.dest), t'.idx), i + 1;
    forall x: nat
      ensures RecvAt(recv', tasks, next, x)
    {
      assert RecvAt(t.recv, tasks, i, x);
      KeepsReceivers(t', tasks, i, t.recv, x);
    }
    forall c: nat
      ensures SendAt(send', tasks, next, c)
    {
      assert SendAt(t.send, tasks, i, c);
      KeepsSenders(t', tasks, i, t.send, c);
    }
    hide Row, Chain, UpdateAll, RecvAt, SendAt;
  }

  // ---- The whole table ----

  function Log2(n: nat): nat
    requires n > 0
  {
    if n == 1 then 0 else 1 + Log2(n / 2)
  }

  lemma {:induction false} Log2Bounds(n: nat)
    requires n > 0
    ensures Pow2(Log2(n)) <= n < 2 * Pow2(Log2(n))
  {
    if n > 1 { Log2Bounds(n / 2); }
  }

  lemma StartRows(t: Table, tasks: nat)
    requires |t.idx| == |t.dest| == tasks && t.recv == map[] && t.send == map[]
    requires forall k :: 0 <= k < tasks ==> t.idx[k] == k && t.dest[k] == []
    ensures RowsOk(t, tasks, 0) && MapsOk(t, tasks, 0)
  {
  }

  /** Receivers and destination of a worker; `None` stands for an index or key error of the
      source. */
  method GetTargets(id: nat, tasks: nat) returns (r: Option<(seq<nat>, nat)>)
    requires tasks > 0
    ensures r.Some? <==> tasks == Pow2(Log2(tasks)) && 0 < id < tasks && id % 2 == 0
    ensures r.Some? ==> r.value == (Chain(id, Low(id)), Parent(id))
  {
    hide Row, Chain, Pow2, UpdateAll;
    var xx := Log2(tasks);
    var idx, dest := seq<nat>(tasks, k requires 0 <= k < tasks => k), seq<seq<nat>>(tasks, k => []);
    var t := Table(idx, dest, map[], map[]);
    Log2Bounds(tasks);
    StartRows(t, tasks);
    var i := 0;
    while i < xx
      invariant i <= xx && RowsOk(t, tasks, i) && MapsOk(t, tasks, i)
    {
      EnoughRows(tasks, |t.idx|, i, xx);
      var ok, paired := AppendPairs(t.idx, t.dest);
      if !ok {
        OddMeansNoPower(tasks, |t.idx|, i, xx);
        return None;
      }
      KeepsMaps(t, tasks, i, paired);
      var idx' := DropOdd(t.idx);
      var dest' := DropOdd(paired);
      var recv, send := Record(Table(idx', dest', t.recv, t.send));
      t := Table(idx', dest', recv, send);
      i := i + 1;
    }
    LastLevel(tasks, |t.idx|, xx);
    assert RecvAt(t.recv, tasks, xx, id) && SendAt(t.send, tasks, xx, id);
    if 0 < id < tasks { LevelBelow(id, xx); }
    if id in t.recv && id in t.send {
      r := Some((t.recv[id], t.send[id]));
    } else {
      r := None;
    }
  }

  lemma OneRow(i: nat)
    ensures Row(1, i) == Pow2(i) && Row(0, i) == 0
  {
  }

  /** Before the last level there are at least two rows. */
  lemma EnoughRows(tasks: nat, n: nat, i: nat, xx: nat)
    requires tasks == Row(n, i) && i < xx && Pow2(xx) <= tasks
    ensures n >= 2
  {
    OneRow(i);
    PowMono(i + 1, xx);
    assert Pow2(i + 1) == 2 * Pow2(i);
    hide Row;
  }

  /** An odd number of rows, three or more, only occurs if `tasks` is no power of two. */
  lemma OddMeansNoPower(tasks: nat, n: nat, i: nat, xx: nat)
    requires tasks == Row(n, i) && n % 2 == 1 && n >= 2
    ensures tasks != Pow2(xx)
  {
    LevelOfRow(n, i);
    OneRow(xx);
    OneRow(i);
    LevelOfRow(1, xx);
    RowsAscend(1, n, i);
    hide Row;
  }

  lemma LastLevel(tasks: nat, n: nat, xx: nat)
    requires tasks == Row(n, xx) && Pow2(xx) <= tasks < 2 * Pow2(xx)
    ensures tasks == Pow2(xx)
  {
    OneRow(xx);
    if n >= 2 {
      RowsAscend(1, n, xx);
    }
    hide Row;
  }

  lemma LevelBelow(id: nat, xx: nat)
    requires 0 < id < Pow2(xx)
    ensures Low(id) < xx
  {
    LowBitFits(id);
    PowMono(xx, Low(id));
  }
}
