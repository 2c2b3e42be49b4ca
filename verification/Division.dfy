/** The few facts of integer arithmetic that the other proofs need. */
module Division {
  function Abs(x: int): nat { if x < 0 then -x else x }

  function Quotient(a: nat, b: nat): nat
    requires b > 0
  {
    a / b
  }

  lemma MulMono(a: nat, b: nat, c: nat)
    requires a <= b
    ensures c * a <= c * b
  {
  }

  lemma DivUnique(x: nat, b: nat, q: nat, r: nat)
    requires r < b && x == b * q + r
    ensures x / b == q && x % b == r
  {
    var d := x / b;
    assert x == b * d + x % b;
    assert b * (d + 1) == b * d + b && b * (q + 1) == b * q + b;
    if d < q {
      MulMono(d + 1, q, b);
    } else if d > q {
      MulMono(q + 1, d, b);
    }
  }

  lemma Regroup(a: nat, b: nat, c: nat, m: nat, r: nat, q: nat, t: nat)
    requires a == b * m + r && m == c * q + t && r < b && t < c
    ensures b * c > 0 && a == (b * c) * q + (b * t + r) && b * t + r < b * c
  {
    assert b * m == b * (c * q) + b * t;
    assert b * (c * q) == (b * c) * q;
    MulMono(t, c - 1, b);
    assert b * (c - 1) == b * c - b;
  }

  lemma DivDiv(a: nat, b: nat, c: nat)
    requires b > 0 && c > 0
    ensures b * c > 0 && a / (b * c) == a / b / c
  {
    var m := a / b;
    Regroup(a, b, c, m, a % b, m / c, m % c);
    DivUnique(a, b * c, m / c, b * (m % c) + a % b);
  }
}
