/** Rotating-priority selection, the one policy behind the three arbiters of the
    platform: the scan starts one past the last winner and wraps around. */
module RoundRobin {

  /** The index after `j` in a ring of `n`. */
  function Inc(j: nat, n: nat): (r: nat)
    requires j < n
    ensures r < n
    ensures r == (j + 1) % n
  {
    if j + 1 == n then 0 else j + 1
  }

  /** How far the scan that starts after `sel` goes before it looks at `i`: 1..n. */
  function Distance(sel: nat, i: nat, n: nat): (d: nat)
    requires sel < n && i < n
    ensures 1 <= d <= n
  {
    if i > sel then i - sel else i + n - sel
  }

  /** What the scan finds when it stands at `j` and gives up on reaching `sel`. */
  function Scan(ask: seq<bool>, sel: nat, j: nat): (r: nat)
    requires sel < |ask| && j < |ask|
    ensures r < |ask|
    decreases if j <= sel then sel - j else sel + |ask| - j
  {
    if j == sel then sel
    else if ask[j] then j
    else Scan(ask, sel, Inc(j, |ask|))
  }

  /** The next winner when `sel` won last. */
  function Next(ask: seq<bool>, sel: nat): (r: nat)
    requires sel < |ask|
    ensures r < |ask|
  {
    Scan(ask, sel, Inc(sel, |ask|))
  }

  /** The scan stops at a requester or back at `sel`, and every index it passed was idle. */
  lemma {:induction false} ScanFinds(ask: seq<bool>, sel: nat, j: nat)
    requires sel < |ask| && j < |ask|
    ensures var r := Scan(ask, sel, j);
            && (r != sel ==> ask[r])
            && (forall i :: 0 <= i < |ask| && ask[i] && i != sel && (j == sel || Distance(sel, j, |ask|) <= Distance(sel, i, |ask|))
                 ==> j == sel || (r != sel && Distance(sel, r, |ask|) <= Distance(sel, i, |ask|)))
    decreases if j <= sel then sel - j else sel + |ask| - j
  {
    if j != sel && !ask[j] {
      ScanFinds(ask, sel, Inc(j, |ask|));
    }
  }

  /** A requester is never overtaken: the winner is the nearest requester after the last
      winner, it is a requester whenever there is one, and otherwise nothing changes. */
  lemma NextIsNearest(ask: seq<bool>, sel: nat)
    requires sel < |ask|
    ensures forall i :: 0 <= i < |ask| && ask[i] ==> ask[Next(ask, sel)]
    ensures forall i :: 0 <= i < |ask| && ask[i] ==>
              Distance(sel, Next(ask, sel), |ask|) <= Distance(sel, i, |ask|)
    ensures ask[Next(ask, sel)] || Next(ask, sel) == sel
  {
    ScanFinds(ask, sel, Inc(sel, |ask|));
  }

  /** A run of selections: each winner follows from the previous one and what was asked then. */
  ghost predicate IsRun(asks: seq<seq<bool>>, sels: seq<nat>, n: nat) {
    && |sels| == |asks| + 1
    && (forall t :: 0 <= t < |asks| ==> |asks[t]| == n)
    && (forall t :: 0 <= t < |sels| ==> sels[t] < n)
    && (forall t :: 0 <= t < |asks| ==> sels[t + 1] == Next(asks[t], sels[t]))
  }

  /** While `i` keeps asking and is not selected, its distance shrinks at every selection. */
  lemma {:induction false} DistanceShrinks(asks: seq<seq<bool>>, sels: seq<nat>, n: nat, i: nat, t: nat)
    requires IsRun(asks, sels, n) && i < n && t <= |asks|
    requires forall u :: 0 <= u < |asks| ==> asks[u][i]
    requires forall u :: 1 <= u <= t ==> sels[u] != i
    ensures Distance(sels[t], i, n) + t <= Distance(sels[0], i, n)
  {
    if t > 0 {
      DistanceShrinks(asks, sels, n, i, t - 1);
      NextIsNearest(asks[t - 1], sels[t - 1]);
    }
  }

  /** No starvation: an index that asks throughout is selected within `n` selections. */
  lemma NoStarvation(asks: seq<seq<bool>>, sels: seq<nat>, n: nat, i: nat)
    requires IsRun(asks, sels, n) && i < n && |asks| >= n
    requires forall u :: 0 <= u < |asks| ==> asks[u][i]
    ensures exists t :: 1 <= t <= n && sels[t] == i
  {
    if forall t :: 1 <= t <= n ==> sels[t] != i {
      DistanceShrinks(asks, sels, n, i, n);
    }
  }
}
