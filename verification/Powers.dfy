/** Powers of two and the integer logarithm. */
module Powers {
  import opened Arithmetic

  function Pow2(n: nat): (r: nat)
    ensures r > 0
  {
    if n == 0 then 1 else 2 * Pow2(n - 1)
  }

  lemma {:induction false} Pow2Add(a: nat, b: nat)
    ensures Pow2(a + b) == Pow2(a) * Pow2(b)
  {
    if a > 0 {
      Pow2Add(a - 1, b);
      assert Pow2(a + b) == 2 * (Pow2(a - 1) * Pow2(b));
    }
  }

  lemma {:induction false} Pow2Monotone(a: nat, b: nat)
    requires a <= b
    ensures Pow2(a) <= Pow2(b)
  {
    if a < b { Pow2Monotone(a, b - 1); }
  }

  /** The position of the highest one bit; zero for everything below two. */
  method MLog2(num: int) returns (r: nat)
    ensures r == Log2(num)
  {
    if num < 2 {
      return 0;
    }
    var retVal := -1;
    var newNum := num;
    while newNum != 0
      invariant newNum >= 0 && retVal >= -1
      invariant Shifted(num, newNum, retVal + 1)
    {
      retVal := retVal + 1;
      ShiftOnce(num, newNum, retVal);
      newNum := newNum / 2;
    }
    Log2Unique(num, retVal);
    r := retVal;
  }

  /** `n` is `num` shifted right by `k`, and the last bit shifted out so far, if any, is not above `num`. */
  ghost predicate Shifted(num: int, n: int, k: nat) {
    && n * Pow2(k) <= num < (n + 1) * Pow2(k)
    && (if k == 0 then n == num else Pow2(k - 1) <= num)
  }

  lemma ShiftOnce(num: int, n: int, k: nat)
    requires Shifted(num, n, k) && n >= 1
    ensures Shifted(num, n / 2, k + 1)
  {
    assert 1 * Pow2(k) <= n * Pow2(k);
    Halve(n, Pow2(k), num);
  }

  lemma Halve(n: nat, p: nat, num: int)
    requires n * p <= num < (n + 1) * p
    ensures (n / 2) * (2 * p) <= num < (n / 2 + 1) * (2 * p)
  {
    assert n == 2 * (n / 2) + n % 2;
    assert (n / 2) * (2 * p) == (2 * (n / 2)) * p <= n * p;
    assert (n / 2 + 1) * (2 * p) == (2 * (n / 2) + 2) * p >= (n + 1) * p;
  }

  function Log2(num: int): (r: nat)
    ensures num >= 1 ==> Pow2(r) <= num < Pow2(r + 1)
    decreases if num < 0 then 0 else num
  {
    if num < 2 then 0 else 1 + Log2(num / 2)
  }

  lemma Log2Unique(num: int, r: nat)
    requires num >= 1 && Pow2(r) <= num < Pow2(r + 1)
    ensures r == Log2(num)
  {
    var l := Log2(num);
    if r < l { Pow2Monotone(r + 1, l); }
    if l < r { Pow2Monotone(l + 1, r); }
  }

  lemma Log2Monotone(a: int, b: int)
    requires a <= b
    ensures Log2(a) <= Log2(b)
  {
  }

  // ----- shifts, one bit at a time -----

  function Shl(x: nat, n: nat): (r: nat) {
    if n == 0 then x else 2 * Shl(x, n - 1)
  }

  function Shr(a: nat, n: nat): (r: nat)
    decreases n
  {
    if n == 0 then a else Shr(a / 2, n - 1)
  }

  /** The lowest `n` bits. */
  function Low(a: nat, n: nat): (r: nat)
    decreases n
  {
    if n == 0 then 0 else a % 2 + 2 * Low(a / 2, n - 1)
  }

  lemma {:induction false} ShlIsProduct(x: nat, n: nat)
    ensures Shl(x, n) == x * Pow2(n)
  {
    if n > 0 {
      ShlIsProduct(x, n - 1);
      Associate(x, 2, Pow2(n - 1));
      Associate(2, x, Pow2(n - 1));
    }
  }

  lemma {:induction false} Split(a: nat, n: nat)
    ensures a == Shl(Shr(a, n), n) + Low(a, n) && Low(a, n) < Pow2(n)
  {
    if n > 0 { Split(a / 2, n - 1); }
  }

  /** Shifting right is dividing, and the low bits are the remainder. */
  lemma ShrIsQuotient(a: nat, n: nat)
    ensures Shr(a, n) == a / Pow2(n) && Low(a, n) == a % Pow2(n)
  {
    Split(a, n);
    ShlIsProduct(Shr(a, n), n);
    QuotientIs(a, Pow2(n), Shr(a, n), Low(a, n));
  }

  lemma {:induction false} Joined(x: nat, n: nat, r: nat)
    requires r < Pow2(n)
    ensures Shr(Shl(x, n) + r, n) == x && Low(Shl(x, n) + r, n) == r
  {
    if n > 0 {
      assert (Shl(x, n) + r) / 2 == Shl(x, n - 1) + r / 2;
      Joined(x, n - 1, r / 2);
    }
  }

  lemma {:induction false} ShrTwice(a: nat, m: nat, n: nat)
    ensures Shr(Shr(a, m), n) == Shr(a, m + n)
    decreases m
  {
    if m > 0 { ShrTwice(a / 2, m - 1, n); }
  }

  lemma {:induction false} ShlTwice(x: nat, m: nat, n: nat)
    ensures Shl(Shl(x, m), n) == Shl(x, m + n)
    decreases n
  {
    if n > 0 { ShlTwice(x, m, n - 1); }
  }

  lemma {:induction false} ShlSum(x: nat, y: nat, n: nat)
    ensures Shl(x + y, n) == Shl(x, n) + Shl(y, n)
  {
    if n > 0 { ShlSum(x, y, n - 1); }
  }

  lemma {:induction false} ShlBound(x: nat, m: nat, n: nat)
    ensures x < Pow2(m) <==> Shl(x, n) < Pow2(m + n)
    decreases n
  {
    if n > 0 { ShlBound(x, m, n - 1); }
  }

  lemma {:induction false} JoinedBound(x: nat, m: nat, n: nat, r: nat)
    requires x < Pow2(m) && r < Pow2(n)
    ensures Shl(x, n) + r < Pow2(m + n)
  {
    if n > 0 { JoinedBound(x, m, n - 1, r / 2); }
  }

  lemma {:induction false} ShrBound(a: nat, m: nat, n: nat)
    requires a < Pow2(m + n)
    ensures Shr(a, n) < Pow2(m)
    decreases n
  {
    if n > 0 { ShrBound(a / 2, m, n - 1); }
  }

  lemma {:induction false} LowSmall(a: nat, n: nat)
    requires a < Pow2(n)
    ensures Low(a, n) == a
  {
    if n > 0 { LowSmall(a / 2, n - 1); }
  }

  // ----- arithmetic on machine words -----

  const TWO_TO_THE_64: nat := 0x1_0000_0000_0000_0000

  /** Truncation to a machine word. */
  function Word(x: nat): (r: nat) {
    x % TWO_TO_THE_64
  }

  lemma WordSize()
    ensures Pow2(64) == TWO_TO_THE_64
  {
    assert Pow2(2) == 4;
    Square(2, 4);
    Square(4, 0x10);
    Square(8, 0x100);
    Square(16, 0x1_0000);
    Square(32, 0x1_0000_0000);
  }

  lemma Square(n: nat, x: nat)
    requires Pow2(n) == x
    ensures Pow2(n + n) == x * x
  {
    Pow2Add(n, n);
  }

  lemma WordShl(x: nat, n: nat)
    ensures Word(Shl(Word(x), n)) == Word(Shl(x, n))
  {
    ShlIsProduct(x, n);
    ShlIsProduct(Word(x), n);
    ModOfProduct(x, Pow2(n), TWO_TO_THE_64);
  }

  lemma {:induction false} ShlOfOne(c: nat, n: nat)
    ensures Shl(1, n) * c == Shl(c, n)
  {
    if n > 0 {
      ShlOfOne(c, n - 1);
      Associate(2, Shl(1, n - 1), c);
    }
  }

  /** Multiplying by a shifted one and adding, with all arithmetic wrapping, is shifting and adding. */
  lemma WordMultiplyAdd(x: nat, c: nat, n: nat)
    ensures Word(Word(x) + Word(Word(Shl(1, n)) * c)) == Word(x + Shl(c, n))
  {
    ModOfProduct(Shl(1, n), c, TWO_TO_THE_64);
    ShlOfOne(c, n);
    WordSum(x, Shl(c, n));
  }

  lemma WordSum(x: nat, y: nat)
    ensures Word(Word(x) + Word(y)) == Word(x + y)
  {
  }
}
