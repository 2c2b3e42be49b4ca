/** Why the reduction along the tree is right: both ends of every edge name each other, no
    worker waits in a circle, and every slice is counted once. */
module ReductionSum {
  import Division
  import opened Options
  import opened Powers
  import opened ReductionTree

  /** Whom task `id` of 2^m tasks waits for, in order. For the master, task 0, these are the
      tasks 2^0, ..., 2^(m-1); for a worker they are what `GetTargets` returns, and nobody
      if its number is odd. */
  function Senders(id: nat, m: nat): seq<nat> { Chain(id, Level(id, m)) }

  lemma {:induction false} ChainAt(id: nat, k: nat, j: nat)
    requires j < k
    ensures Chain(id, k)[j] == id + Pow2(j)
  {
    if j < k - 1 {
      ChainAt(id, k - 1, j);
    }
  }

  /** The generator's rule for odd workers and its list for the master are cases of the
      general one. */
  lemma OddWorkersAndMaster(id: nat, m: nat, j: nat)
    ensures id % 2 == 1 ==> Senders(id, m) == [] && Parent(id) == id - 1
    ensures |Senders(0, m)| == m && (j < m ==> Senders(0, m)[j] == Pow2(j))
  {
    if j < m { ChainAt(0, m, j); }
  }

  /** The receptions and the destination written for a worker. */
  method WriteWorker(id: nat, m: nat) returns (r: Option<(seq<nat>, nat)>)
    requires 0 < id < Pow2(m)
    ensures r == Some((Senders(id, m), Parent(id)))
  {
    LogOfPow(m);
    LevelBelow(id, m);
    if id % 2 != 0 {
      OddWorkersAndMaster(id, m, 0);
      r := Some(([], id - 1));
    } else {
      hide Pow2;
      r := GetTargets(id, Pow2(m));
    }
  }

  lemma {:induction false} LogOfPow(m: nat)
    ensures Log2(Pow2(m)) == m
  {
    if m > 0 { LogOfPow(m - 1); }
  }

  /** The receptions written for the master. */
  method WriteMaster(tasks: nat) returns (r: seq<nat>)
    requires tasks > 0
    ensures forall m: nat :: tasks == Pow2(m) ==> r == Senders(0, m)
  {
    r := [];
    var i := 0;
    while i < Log2(tasks)
      invariant i <= Log2(tasks) && r == Chain(0, i)
    {
      r := r + [Pow2(i)];
      i := i + 1;
    }
    forall m: nat | tasks == Pow2(m)
      ensures r == Senders(0, m)
    {
      LogOfPow(m);
    }
  }

  lemma {:induction false} LowOfChild(id: nat, j: nat)
    requires id == 0 || j < Low(id)
    ensures Low(id + Pow2(j)) == j
  {
    if j > 0 {
      LowOfChild(id / 2, j - 1);
      assert (id + Pow2(j)) / 2 == id / 2 + Pow2(j - 1);
    }
  }

  lemma {:induction false} LevelOfParent(c: nat)
    requires c > 0
    ensures Parent(c) == 0 || Low(c) < Low(Parent(c))
  {
    LowBitFits(c);
    if c % 2 == 0 {
      LevelOfParent(c / 2);
      LowBitFits(c / 2);
      assert Parent(c) == 2 * Parent(c / 2);
    }
  }

  /** Child c is in its parent's list, in the place of its lowest bit, and in no other. */
  lemma EdgeFromBelow(c: nat, m: nat)
    requires 0 < c < Pow2(m)
    ensures Parent(c) < c && Low(c) < |Senders(Parent(c), m)| && Senders(Parent(c), m)[Low(c)] == c
  {
    LevelBelow(c, m);
    LevelOfParent(c);
    LowBitFits(c);
    ChainAt(Parent(c), Level(Parent(c), m), Low(c));
  }

  lemma ParentOfChild(id: nat, j: nat)
    requires id == 0 || j < Low(id)
    ensures Low(id + Pow2(j)) == j && Parent(id + Pow2(j)) == id
  {
    LowOfChild(id, j);
    hide Low, Pow2;
  }

  lemma SenderIs(id: nat, m: nat, j: nat)
    requires j < |Senders(id, m)|
    ensures Senders(id, m)[j] == id + Pow2(j) && j < Level(id, m)
  {
    ChainAt(id, Level(id, m), j);
  }

  lemma ChildFits(id: nat, m: nat, j: nat)
    requires id < Pow2(m) && j < Level(id, m)
    ensures id < id + Pow2(j) < Pow2(m)
  {
    SubtreeFits(id, j + 1, m);
    assert Pow2(j + 1) == 2 * Pow2(j);
  }

  /** Whoever is waited for is a task that sends to exactly this one. */
  lemma EdgeFromAbove(id: nat, m: nat, j: nat)
    requires id < Pow2(m) && j < |Senders(id, m)|
    ensures var c := Senders(id, m)[j]; id < c < Pow2(m) && Parent(c) == id && Low(c) == j
  {
    hide Senders, Pow2, Parent, Low;
    SenderIs(id, m, j);
    ChildFits(id, m, j);
    ParentOfChild(id, j);
  }

  /** The subtree of a row lies within the tasks. */
  lemma {:induction false} SubtreeFits(id: nat, k: nat, m: nat)
    requires id < Pow2(m) && k <= Level(id, m)
    ensures id + Pow2(k) <= Pow2(m)
  {
    if id == 0 {
      PowMono(k, m);
    } else if k > 0 {
      assert Pow2(m) == 2 * Pow2(m - 1) && id % 2 == 0;
      SubtreeFits(id / 2, k - 1, m - 1);
    }
  }

  /** Every edge of the tree is known to both of its ends, and to no other task. */
  lemma EdgesAgree(m: nat, id: nat, c: nat)
    requires id < Pow2(m) && c < Pow2(m)
    ensures c in Senders(id, m) <==> c > 0 && Parent(c) == id
  {
    if c in Senders(id, m) {
      var j :| 0 <= j < |Senders(id, m)| && Senders(id, m)[j] == c;
      EdgeFromAbove(id, m, j);
    }
    if c > 0 && Parent(c) == id {
      EdgeFromBelow(c, m);
    }
  }

  // ---- Waiting ----

  /** Task `at` takes the result of its j-th sender. It waits for its earlier receipts and
      for all receipts of that sender. */
  datatype Receipt = Receipt(at: nat, j: nat)

  ghost predicate WaitsFor(r: Receipt, s: Receipt, m: nat) {
    && r.at < Pow2(m) && r.j < |Senders(r.at, m)| && s.j < |Senders(s.at, m)|
    && ((s.at == r.at && s.j < r.j) || s.at == Senders(r.at, m)[r.j])
  }

  /** A chain of waiting receipts moves to lower and lower levels, so it never closes. */
  lemma WaitingDescends(r: Receipt, s: Receipt, m: nat)
    requires WaitsFor(r, s, m)
    ensures s.j < r.j
  {
    if s.at == Senders(r.at, m)[r.j] {
      EdgeFromAbove(r.at, m, r.j);
    }
  }

  lemma {:induction false} NoCyclicWaiting(rs: seq<Receipt>, m: nat, n: nat)
    requires 1 < |rs| && 0 < n < |rs|
    requires forall k :: 0 <= k < |rs| - 1 ==> WaitsFor(rs[k], rs[k + 1], m)
    ensures rs[n].j + n <= rs[0].j && rs[n] != rs[0]
  {
    WaitingDescends(rs[n - 1], rs[n], m);
    if n > 1 {
      NoCyclicWaiting(rs, m, n - 1);
    }
  }

  // ---- Sums ----

  /** The sum of own(x) for from <= x < to. */
  function Sum(own: nat -> int, from: nat, to: nat): int
    decreases to
  {
    if to <= from then 0 else Sum(own, from, to - 1) + own(to - 1)
  }

  lemma {:induction false} SumSplits(own: nat -> int, a: nat, b: nat, c: nat)
    requires a <= b <= c
    ensures Sum(own, a, c) == Sum(own, a, b) + Sum(own, b, c)
    decreases c
  {
    if b < c {
      SumSplits(own, a, b, c - 1);
    }
  }

  /** The j-th sender sends after exactly j receipts. */
  lemma SenderIsComplete(id: nat, m: nat, j: nat)
    requires id < Pow2(m) && j < |Senders(id, m)|
    ensures |Senders(Senders(id, m)[j], m)| == j && Senders(id, m)[j] == id + Pow2(j)
  {
    EdgeFromAbove(id, m, j);
    ChainAt(id, Level(id, m), j);
    LevelBelow(Senders(id, m)[j], m);
  }

  /** What task `id` holds after it has received from the first k tasks in its list, each of
      which sends what it holds once it is through with its own list. */
  function Held(own: nat -> int, id: nat, m: nat, k: nat): int
    requires id < Pow2(m) && k <= |Senders(id, m)|
    decreases k
  {
    if k == 0 then own(id) else
      var s := Senders(id, m)[k - 1];
      SenderIsComplete(id, m, k - 1);
      EdgeFromAbove(id, m, k - 1);
      Held(own, id, m, k - 1) + Held(own, s, m, |Senders(s, m)|)
  }

  lemma RangeDoubles(own: nat -> int, id: nat, k: nat)
    requires k > 0
    ensures Sum(own, id, id + Pow2(k)) == Sum(own, id, id + Pow2(k - 1)) + Sum(own, id + Pow2(k - 1), id + Pow2(k - 1) + Pow2(k - 1))
  {
    SumSplits(own, id, id + Pow2(k - 1), id + Pow2(k));
  }

  /** After k receipts a task holds the slices of 2^k consecutive tasks, each once. */
  lemma {:induction false} HeldIsRange(own: nat -> int, id: nat, m: nat, k: nat)
    requires id < Pow2(m) && k <= |Senders(id, m)|
    ensures Held(own, id, m, k) == Sum(own, id, id + Pow2(k))
    decreases k
  {
    hide Senders, Low, Parent, Pow2, Sum;
    if k == 0 {
      assert Sum(own, id, id + Pow2(0)) == own(id) by { OneSlice(own, id); }
    } else {
      SenderIsComplete(id, m, k - 1);
      EdgeFromAbove(id, m, k - 1);
      HeldIsRange(own, id, m, k - 1);
      HeldIsRange(own, Senders(id, m)[k - 1], m, k - 1);
      RangeDoubles(own, id, k);
    }
  }

  lemma OneSlice(own: nat -> int, id: nat)
    ensures Sum(own, id, id + Pow2(0)) == own(id)
  {
    assert Sum(own, id, id) == 0;
  }

  // ---- Slices ----

  function SumSeq(s: seq<int>): int { if s == [] then 0 else s[0] + SumSeq(s[1..]) }

  lemma {:induction false} SumSeqSplits(s: seq<int>, t: seq<int>)
    ensures SumSeq(s + t) == SumSeq(s) + SumSeq(t)
  {
    if s == [] {
      assert s + t == t;
    } else {
      assert (s + t)[1..] == s[1..] + t;
      SumSeqSplits(s[1..], t);
    }
  }

  /** Worker w gets the w-th share of `div` numbers; the master keeps everything after the
      last worker's. */
  function Slice(arr: seq<int>, tasks: nat, w: nat): seq<int>
    requires 0 < tasks && w < tasks
  {
    var div := |arr| / tasks;
    Shares(|arr|, tasks, w);
    if w == 0 then arr[(tasks - 1) * div..] else arr[(w - 1) * div..w * div]
  }

  lemma Shares(n: nat, tasks: nat, w: nat)
    requires 0 < tasks && w < tasks
    ensures var div := n / tasks; 0 <= (tasks - 1) * div <= n && (w > 0 ==> 0 <= (w - 1) * div <= w * div <= (tasks - 1) * div)
  {
    var div := Division.Quotient(n, tasks);
    assert n == tasks * div + n % tasks;
    Division.MulMono(tasks - 1, tasks, div);
    Division.MulMono(w, tasks - 1, div);
    if w > 0 { Division.MulMono(w - 1, w, div); }
  }

  /** What task w gets to work on; nothing is handed out if there are fewer numbers than
      tasks, for then a share is empty and the loop makes no round. */
  function Handed(arr: seq<int>, tasks: nat, w: nat): Option<seq<int>>
    requires 0 < tasks && w < tasks
  {
    if |arr| < tasks then None else Some(Slice(arr, tasks, w))
  }

  lemma ShareIsEmpty(n: nat, tasks: nat)
    requires 0 < tasks
    ensures Division.Quotient(n, tasks) == 0 <==> n < tasks
  {
    var div := Division.Quotient(n, tasks);
    if n < tasks {
      Division.DivUnique(n, tasks, 0, n);
    }
  }

  /** Where round i of the loop begins. */
  function RoundAt(i: nat, div: nat): nat { i * div }

  lemma RoundIs(arr: seq<int>, tasks: nat, div: nat, i: nat)
    requires 0 < tasks && div == Division.Quotient(|arr|, tasks) && 0 < div && i < tasks
    ensures var j := RoundAt(i, div);
      && j < RoundAt(tasks, div) && Division.Quotient(j, div) == i && RoundAt(i + 1, div) == j + div
      && j + div <= |arr| && (i + 1 < tasks ==> arr[j..j + div] == Slice(arr, tasks, i + 1))
      && (i + 1 == tasks ==> j + (|arr| - RoundAt(tasks, div) + div) == |arr| && arr[j..] == Slice(arr, tasks, 0))
  {
    var d := Division.Quotient(|arr|, tasks);
    Division.DivUnique(i * div, div, i, 0);
    Division.MulMono(i + 1, tasks, div);
    assert div * (i + 1) == i * div + div;
    assert |arr| == tasks * d + |arr| % tasks;
    if i + 1 < tasks { Shares(|arr|, tasks, i + 1); } else { Shares(|arr|, tasks, 0); }
  }

  /** After i rounds the first i workers have their shares. */
  ghost predicate SentFirst(arr: seq<int>, tasks: nat, sent: seq<Option<seq<int>>>, i: nat)
    requires 0 < tasks
  {
    && |sent| == tasks
    && forall w :: 1 <= w < tasks ==> sent[w] == if w <= i then Some(Slice(arr, tasks, w)) else None
  }

  lemma SendsNext(arr: seq<int>, tasks: nat, sent: seq<Option<seq<int>>>, i: nat)
    requires 0 < tasks && i + 1 < tasks && SentFirst(arr, tasks, sent, i)
    ensures SentFirst(arr, tasks, sent[i + 1 := Some(Slice(arr, tasks, i + 1))], i + 1)
  {
    hide Slice;
  }

  /** Before the first round no one has a share; after the last one all workers have. */
  lemma SentAtEnds(arr: seq<int>, tasks: nat, sent: seq<Option<seq<int>>>)
    requires 0 < tasks
    ensures SentFirst(arr, tasks, seq(tasks, w => None), 0)
    ensures SentFirst(arr, tasks, sent, tasks - 1) ==> SentFirst(arr, tasks, sent, tasks)
    ensures SentFirst(arr, tasks, sent, if |arr| < tasks then 0 else tasks) ==>
      |sent| == tasks && forall w :: 1 <= w < tasks ==> sent[w] == Handed(arr, tasks, w)
  {
    hide Slice;
  }

  /** The master's loop: it sends a share to each worker and keeps the last one with what is
      left over. `sent[w]` is the message for worker w, `kept` the master's own block. */
  method HandOut(arr: seq<int>, tasks: nat) returns (sent: seq<Option<seq<int>>>, kept: Option<seq<int>>)
    requires 0 < tasks
    ensures |sent| == tasks && kept == Handed(arr, tasks, 0)
    ensures forall w :: 1 <= w < tasks ==> sent[w] == Handed(arr, tasks, w)
  {
    var divNumber := Division.Quotient(|arr|, tasks);
    ShareIsEmpty(|arr|, tasks);
    var valuesToSent := divNumber * tasks;
    var valuesToStay := |arr| - valuesToSent + divNumber;
    sent, kept := seq(tasks, w => None), None;
    ghost var i := 0;
    var j := 0;
    assert valuesToSent == RoundAt(tasks, divNumber) && RoundAt(0, divNumber) == 0;
    hide SentFirst, Slice, RoundAt, Division.Quotient;
    SentAtEnds(arr, tasks, sent);
    while j < valuesToSent
      invariant 0 <= i <= tasks && j == RoundAt(i, divNumber) && SentFirst(arr, tasks, sent, i)
      invariant divNumber == 0 ==> i == 0
      invariant kept == if 0 < i == tasks then Some(Slice(arr, tasks, 0)) else None
      decreases tasks - i
    {
      RoundIs(arr, tasks, divNumber, i);
      var target := Division.Quotient(j, divNumber) + 1;
      if target < tasks {
        SendsNext(arr, tasks, sent, i);
        sent := sent[target := Some(arr[j..j + divNumber])];
      } else {
        assert arr[j..j + valuesToStay] == arr[j..];
        kept := Some(arr[j..j + valuesToStay]);
        SentAtEnds(arr, tasks, sent);
      }
      i, j := i + 1, j + divNumber;
    }
    if divNumber > 0 && i < tasks { RoundIs(arr, tasks, divNumber, i); }
    SentAtEnds(arr, tasks, sent);
  }

  function Own(arr: seq<int>, tasks: nat): nat -> int
    requires 0 < tasks
  {
    (w: nat) => if w < tasks then SumSeq(Slice(arr, tasks, w)) else 0
  }

  lemma {:induction false} WorkersShare(arr: seq<int>, tasks: nat, w: nat)
    requires 0 < w <= tasks
    ensures var div := |arr| / tasks;
            0 <= (w - 1) * div <= |arr| && Sum(Own(arr, tasks), 1, w) == SumSeq(arr[..(w - 1) * div])
  {
    var div := |arr| / tasks;
    Shares(|arr|, tasks, w - 1);
    if w > 1 {
      WorkersShare(arr, tasks, w - 1);
      SumSplits(Own(arr, tasks), 1, w - 1, w);
      assert Sum(Own(arr, tasks), w - 1, w) == SumSeq(Slice(arr, tasks, w - 1));
      var front, share := arr[..(w - 2) * div], arr[(w - 2) * div..(w - 1) * div];
      assert arr[..(w - 1) * div] == front + share;
      SumSeqSplits(front, share);
    }
  }

  lemma OwnIs(arr: seq<int>, tasks: nat, w: nat)
    requires w < tasks
    ensures Own(arr, tasks)(w) == SumSeq(Slice(arr, tasks, w))
  {
  }

  /** The slices of all tasks add up to the array. */
  lemma SlicesAreAll(arr: seq<int>, tasks: nat)
    requires 0 < tasks
    ensures Sum(Own(arr, tasks), 0, tasks) == SumSeq(arr)
  {
    var own := Own(arr, tasks);
    OwnIs(arr, tasks, 0);
    hide Own;
    WorkersShare(arr, tasks, tasks);
    SumSplits(own, 0, 1, tasks);
    assert Sum(own, 0, 1) == own(0);
    var at := (tasks - 1) * (|arr| / tasks);
    assert arr == arr[..at] + arr[at..];
    SumSeqSplits(arr[..at], arr[at..]);
  }

  /** Every task gets its slice exactly if there are as many numbers as tasks, and then the
      master's result is the sum of the whole array, for every power of two of tasks, when
      every task receives what its list says. With fewer numbers no task gets anything. */
  lemma ReductionIsSum(arr: seq<int>, m: nat)
    ensures 0 < Pow2(m) && m == |Senders(0, m)|
    ensures forall w :: 0 <= w < Pow2(m) ==> (Handed(arr, Pow2(m), w).Some? <==> |arr| >= Pow2(m))
    ensures forall w :: 0 <= w < Pow2(m) && |arr| >= Pow2(m) ==>
      SumSeq(Handed(arr, Pow2(m), w).value) == Own(arr, Pow2(m))(w)
    ensures |arr| >= Pow2(m) ==> Held(Own(arr, Pow2(m)), 0, m, m) == SumSeq(arr)
  {
    forall w | 0 <= w < Pow2(m)
      ensures Own(arr, Pow2(m))(w) == SumSeq(Slice(arr, Pow2(m), w))
    {
      OwnIs(arr, Pow2(m), w);
    }
    hide Own, Pow2, Sum, SumSeq, Slice;
    OddWorkersAndMaster(0, m, 0);
    HeldIsRange(Own(arr, Pow2(m)), 0, m, m);
    SlicesAreAll(arr, Pow2(m));
  }
}
