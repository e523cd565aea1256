/** Small facts about products, quotients and remainders, used where the solver needs them spelled out. */
module Arithmetic {

  /** The largest 64-bit number. */
  const MAX_UINT64: nat := 0xFFFF_FFFF_FFFF_FFFF

  /** Subtraction and addition of 64-bit numbers. */
  function Sub64(a: nat, b: nat): (r: nat) {
    (a - b) % (MAX_UINT64 + 1)
  }

  function Add64(a: nat, b: nat): (r: nat) {
    (a + b) % (MAX_UINT64 + 1)
  }

  lemma Scale(a: nat, b: nat, k: nat)
    requires a <= b
    ensures a * k <= b * k
  {
  }

  lemma Increment(a: nat, k: nat)
    ensures (a + 1) * k == a * k + k
  {
  }

  lemma Associate(a: nat, b: nat, c: nat)
    ensures a * (b * c) == (a * b) * c
  {
  }

  lemma Distribute(a: nat, b: nat, c: nat)
    ensures a * (b + c) == a * b + a * c
  {
  }

  /** What rounding down means. */
  lemma Floor(a: nat, b: nat, q: nat)
    requires 0 < b
    ensures a / b <= q <==> a < (q + 1) * b
    ensures q <= a / b <==> q * b <= a
  {
    var d := a / b;
    assert d * b <= a < (d + 1) * b;
    if d <= q { Scale(d + 1, q + 1, b); } else { Scale(q + 1, d, b); }
    if q <= d { Scale(q, d, b); } else { Scale(d + 1, q, b); }
  }

  lemma QuotientIs(a: nat, p: nat, q: nat, r: nat)
    requires r < p && a == q * p + r
    ensures a / p == q && a % p == r
  {
    Increment(q, p);
    Floor(a, p, q);
  }

  lemma Shift(r: nat, k: nat, m: nat)
    requires 0 < m
    ensures (k * m + r) % m == r % m
  {
    var q, s := r / m, r % m;
    assert r == q * m + s;
    Distribute(m, k, q);
    QuotientIs(k * m + r, m, k + q, s);
  }

  lemma Expand(a: nat, b: nat, k: nat, m: nat, r: nat)
    requires a == k * m + r
    ensures a * b == (b * k) * m + r * b
  {
  }

  lemma ModOfProduct(a: nat, b: nat, m: nat)
    requires 0 < m
    ensures ((a % m) * b) % m == (a * b) % m
  {
    var k, r := a / m, a % m;
    Expand(a, b, k, m, r);
    Shift(r * b, b * k, m);
  }

  /** `n` times `k`. */
  function Times(n: nat, k: nat): (r: nat) {
    if n == 0 then 0 else k + Times(n - 1, k)
  }

  lemma {:induction false} TimesIs(n: nat, k: nat)
    ensures Times(n, k) == n * k
  {
    if n > 0 {
      TimesIs(n - 1, k);
      Increment(n - 1, k);
    }
  }

  lemma {:induction false} TimesOrder(a: nat, b: nat, k: nat)
    requires a < b
    ensures Times(a, k) + k <= Times(b, k)
    decreases b
  {
    if a < b - 1 { TimesOrder(a, b - 1, k); }
  }

  /** A number below `2 * n`, reduced by `n`. */
  function Wrap(x: nat, n: nat): (r: nat) {
    if x < n then x else x - n
  }
}
