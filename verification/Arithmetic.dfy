/** Division facts that need multiplying two unknowns. */
module Arithmetic {
  lemma {:induction false} DivModUnique(q: nat, r: nat, d: nat)
    requires r < d
    ensures (q * d + r) / d == q && (q * d + r) % d == r
  {
    var x := q * d + r;
    var y := x / d;
    assert y * d <= x < y * d + d;
    if y < q {
      Scale(y + 1, q, d);
    } else if y > q {
      Scale(q + 1, y, d);
    }
  }

  lemma {:induction false} SameDigits(q1: nat, r1: nat, q2: nat, r2: nat, d: nat)
    requires r1 < d && r2 < d && q1 * d + r1 == q2 * d + r2
    ensures q1 == q2 && r1 == r2
  {
    DivModUnique(q1, r1, d);
    DivModUnique(q2, r2, d);
  }

  lemma {:induction false} Scale(a: nat, b: nat, c: nat)
    requires a <= b
    ensures a * c <= b * c
  {
  }

  lemma {:induction false} DivModParts(k: nat, d: nat)
    requires d > 0
    ensures k == k / d * d + k % d && k % d < d
  {
  }

  lemma {:induction false} DigitBelow(q: nat, r: nat, d: nat, n: nat)
    requires q * d + r < n * d
    ensures q < n
  {
    if q >= n {
      Scale(n, q, d);
    }
  }

  lemma {:induction false} RowsBelow(q: nat, x: nat, d: nat, n: nat)
    requires x < d && q < n
    ensures q * d + x < n * d
  {
    Scale(q + 1, n, d);
  }
}
