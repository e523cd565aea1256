/** Counting one bits, and two-bit cells holding a value, in arrays of 32-bit words. */
module BitCount {

  // ----- what is counted -----

  function Value(x: bv32): (r: nat) {
    x as nat
  }

  function Sum(a: bv32, b: bv32, c: bv32, d: bv32): (r: bv32) {
    (a + b) + (c + d)
  }

  /** The number of one bits among the lowest eight. */
  function Ones8(x: bv32): (r: bv32) {
    Sum(x & 1, (x >> 1) & 1, (x >> 2) & 1, (x >> 3) & 1)
    + Sum((x >> 4) & 1, (x >> 5) & 1, (x >> 6) & 1, (x >> 7) & 1)
  }

  /** The number of one bits of a word. */
  function Ones(x: bv32): (r: nat) {
    Value(Ones8(x)) + Value(Ones8(x >> 8)) + Value(Ones8(x >> 16)) + Value(Ones8(x >> 24))
  }

  /** Whether the lowest cell of a word holds `v`. */
  function Cell(v: bv32, x: bv32): (r: bv32) {
    if x & 3 == v then 1 else 0
  }

  /** The number of cells holding `v` among the lowest four. */
  function Cells4(v: bv32, x: bv32): (r: bv32) {
    Sum(Cell(v, x), Cell(v, x >> 2), Cell(v, x >> 4), Cell(v, x >> 6))
  }

  /** The number of cells of a word that hold `v`. */
  function Cells(v: bv32, x: bv32): (r: nat) {
    Value(Cells4(v, x)) + Value(Cells4(v, x >> 8)) + Value(Cells4(v, x >> 16)) + Value(Cells4(v, x >> 24))
  }

  function TotalOnes(data: seq<bv32>): (r: nat) {
    if data == [] then 0 else TotalOnes(data[..|data| - 1]) + Ones(data[|data| - 1])
  }

  function TotalCells(v: bv32, data: seq<bv32>): (r: nat) {
    if data == [] then 0 else TotalCells(v, data[..|data| - 1]) + Cells(v, data[|data| - 1])
  }

  // ----- counting the bits of a word -----

  function Pairs(x: bv32): (r: bv32) {
    x - ((x >> 1) & 0x55555555)
  }

  function Nibbles(x: bv32): (r: bv32) {
    (x & 0x33333333) + ((x >> 2) & 0x33333333)
  }

  function Bytes(x: bv32): (r: bv32) {
    (x + (x >> 4)) & 0x0f0f0f0f
  }

  lemma Byte0(x: bv32)
    ensures Bytes(Nibbles(Pairs(x))) & 255 == Ones8(x)
  {
  }

  lemma Byte1(x: bv32)
    ensures (Bytes(Nibbles(Pairs(x))) >> 8) & 255 == Ones8(x >> 8)
  {
  }

  lemma Byte2(x: bv32)
    ensures (Bytes(Nibbles(Pairs(x))) >> 16) & 255 == Ones8(x >> 16)
  {
  }

  lemma Byte3(x: bv32)
    ensures (Bytes(Nibbles(Pairs(x))) >> 24) & 255 == Ones8(x >> 24)
  {
  }

  lemma BytesSmall(x: bv32)
    ensures Bytes(x) & 0xf0f0f0f0 == 0
  {
  }

  lemma Ones8Small(x: bv32)
    ensures Ones8(x) <= 8
  {
  }

  /** Multiplying adds up the four bytes in the top one. */
  function TopByte(n: bv32): (r: bv32) {
    (n * 0x01010101) >> 24
  }

  lemma AddBytes(n: bv32)
    requires n & 0xf0f0f0f0 == 0
    ensures TopByte(n) == Sum(n & 255, (n >> 8) & 255, (n >> 16) & 255, (n >> 24) & 255)
  {
  }

  lemma Add(a: bv32, b: bv32)
    requires a <= 16 && b <= 16
    ensures (a + b) as nat == a as nat + b as nat
  {
  }

  lemma AddFour(a: bv32, b: bv32, c: bv32, d: bv32)
    requires a <= 8 && b <= 8 && c <= 8 && d <= 8
    ensures Value(Sum(a, b, c, d)) == Value(a) + Value(b) + Value(c) + Value(d)
  {
    Add(a, b);
    Add(c, d);
    Add(a + b, c + d);
  }

  lemma Gather(n: bv32, a: bv32, b: bv32, c: bv32, d: bv32)
    requires n & 0xf0f0f0f0 == 0
    requires n & 255 == a && (n >> 8) & 255 == b && (n >> 16) & 255 == c && (n >> 24) & 255 == d
    requires a <= 8 && b <= 8 && c <= 8 && d <= 8
    ensures Value(TopByte(n)) == Value(a) + Value(b) + Value(c) + Value(d)
  {
    AddBytes(n);
    AddFour(a, b, c, d);
  }

  lemma Halves(x: bv32, n: bv32)
    requires n == Bytes(Nibbles(Pairs(x)))
    ensures n & 0xf0f0f0f0 == 0
    ensures n & 255 == Ones8(x) && (n >> 8) & 255 == Ones8(x >> 8)
    ensures (n >> 16) & 255 == Ones8(x >> 16) && (n >> 24) & 255 == Ones8(x >> 24)
    ensures Ones8(x) <= 8 && Ones8(x >> 8) <= 8 && Ones8(x >> 16) <= 8 && Ones8(x >> 24) <= 8
  {
    Byte0(x);
    Byte1(x);
    Byte2(x);
    Byte3(x);
    BytesSmall(Nibbles(Pairs(x)));
    Ones8Small(x);
    Ones8Small(x >> 8);
    Ones8Small(x >> 16);
    Ones8Small(x >> 24);
  }

  /** The bit tricks count the one bits of every word. */
  lemma SwarCounts(x: bv32, n: bv32)
    requires n == Bytes(Nibbles(Pairs(x)))
    ensures Value(TopByte(n)) == Ones(x)
  {
    Halves(x, n);
    Gather(n, Ones8(x), Ones8(x >> 8), Ones8(x >> 16), Ones8(x >> 24));
  }

  // ----- counting the cells of a word -----

  /** Flips the bits of a word so that exactly the cells that held `v` hold three. */
  function Flip(v: bv32, x: bv32): (r: bv32) {
    if v == 0 then x ^ 0xFFFFFFFF else if v == 1 then x ^ 0xAAAAAAAA else if v == 2 then x ^ 0x55555555 else x
  }

  /** A one at the lower bit of each cell that holds three. */
  function Threes(x: bv32): (r: bv32) {
    (x & 0x55555555) & ((x & 0xAAAAAAAA) >> 1)
  }

  lemma Cells4Found(v: bv32, x: bv32)
    requires v < 4
    ensures Ones8(Threes(Flip(v, x))) == Cells4(v, x)
  {
  }

  lemma LowByte(x: bv32, y: bv32)
    requires x & 255 == y & 255
    ensures Ones8(x) == Ones8(y)
  {
  }

  lemma Above8(v: bv32, x: bv32)
    requires v < 4
    ensures (Threes(Flip(v, x)) >> 8) & 255 == Threes(Flip(v, x >> 8)) & 255
  {
  }

  lemma Above16(v: bv32, x: bv32)
    requires v < 4
    ensures (Threes(Flip(v, x)) >> 16) & 255 == Threes(Flip(v, x >> 16)) & 255
  {
  }

  lemma Above24(v: bv32, x: bv32)
    requires v < 4
    ensures (Threes(Flip(v, x)) >> 24) & 255 == Threes(Flip(v, x >> 24)) & 255
  {
  }

  ghost predicate Agree(v: bv32, x: bv32, y: bv32) {
    Ones8(y) == Cells4(v, x)
  }

  lemma AgreeFrom(v: bv32, x: bv32, y: bv32)
    requires v < 4 && y & 255 == Threes(Flip(v, x)) & 255
    ensures Agree(v, x, y)
  {
    LowByte(y, Threes(Flip(v, x)));
    Cells4Found(v, x);
  }

  lemma Agreements(v: bv32, x: bv32, y: bv32)
    requires v < 4 && y == Threes(Flip(v, x))
    ensures Agree(v, x, y) && Agree(v, x >> 8, y >> 8) && Agree(v, x >> 16, y >> 16) && Agree(v, x >> 24, y >> 24)
  {
    AgreeFrom(v, x, y);
    Above8(v, x);
    AgreeFrom(v, x >> 8, y >> 8);
    Above16(v, x);
    AgreeFrom(v, x >> 16, y >> 16);
    Above24(v, x);
    AgreeFrom(v, x >> 24, y >> 24);
  }

  lemma Tally(v: bv32, x: bv32, y: bv32)
    requires Agree(v, x, y) && Agree(v, x >> 8, y >> 8) && Agree(v, x >> 16, y >> 16) && Agree(v, x >> 24, y >> 24)
    ensures Ones(y) == Cells(v, x)
  {
  }

  /** The cells of any word that hold `v` are as many as the one bits that are left. */
  lemma CellsFound(v: bv32, x: bv32, y: bv32)
    requires v < 4 && y == Threes(Flip(v, x))
    ensures Ones(y) == Cells(v, x)
  {
    Agreements(v, x, y);
    Tally(v, x, y);
  }

  // ----- the counters -----

  method Count32MLC1(data: bv32) returns (r: nat)
    ensures r == Ones(data)
  {
    var count := data;
    count := count - ((count >> 1) & 0x55555555);
    count := (count & 0x33333333) + ((count >> 2) & 0x33333333);
    count := (count + (count >> 4)) & 0x0f0f0f0f;
    SwarCounts(data, count);
    r := Value(TopByte(count));
  }

  method Count32MLC2(value: bv32, data: bv32) returns (r: nat)
    requires value < 4
    ensures r == Cells(value, data)
  {
    var d := data;
    if value == 0 {
      d := d ^ 0xFFFFFFFF;
    } else if value == 1 {
      d := d ^ 0xAAAAAAAA;
    } else if value == 2 {
      d := d ^ 0x55555555;
    }
    var count := Threes(d);
    CellsFound(value, data, count);
    r := Count32MLC1(count);
  }

  method CountBitsMLC1(value: nat, data: array<bv32>, words: nat) returns (r: nat)
    requires words <= data.Length
    ensures r == if value == 1 then TotalOnes(data[..words]) else words * 32 - TotalOnes(data[..words])
  {
    var count := 0;
    for i := 0 to words
      invariant count == TotalOnes(data[..i])
    {
      assert data[..i + 1][..i] == data[..i];
      var c := Count32MLC1(data[i]);
      count := count + c;
    }
    TotalOnesBounded(data[..words]);
    r := if value == 1 then count else words * 32 - count;
  }

  lemma OnesBounded(x: bv32)
    ensures Ones(x) <= 32
  {
    SmallValue(x);
    SmallValue(x >> 8);
    SmallValue(x >> 16);
    SmallValue(x >> 24);
  }

  lemma SmallValue(x: bv32)
    ensures Value(Ones8(x)) <= 8
  {
    Ones8Small(x);
  }

  lemma {:induction false} TotalOnesBounded(data: seq<bv32>)
    ensures TotalOnes(data) <= 32 * |data|
  {
    if data != [] {
      TotalOnesBounded(data[..|data| - 1]);
      OnesBounded(data[|data| - 1]);
    }
  }

  method CountBitsMLC2(value: bv32, data: array<bv32>, words: nat) returns (r: nat)
    requires value < 4 && words <= data.Length
    ensures r == TotalCells(value, data[..words])
  {
    r := 0;
    for i := 0 to words
      invariant r == TotalCells(value, data[..i])
    {
      assert data[..i + 1][..i] == data[..i];
      var c := Count32MLC2(value, data[i]);
      r := r + c;
    }
  }

  // ----- the counts add up -----

  lemma CellValue(v: bv32, x: bv32)
    ensures Cell(v, x) <= 8 && Value(Cell(v, x)) == if x & 3 == v then 1 else 0
  {
  }

  lemma SomeCell(x: bv32)
    ensures Value(Cell(0, x)) + Value(Cell(1, x)) + Value(Cell(2, x)) + Value(Cell(3, x)) == 1
  {
    CellValue(0, x);
    CellValue(1, x);
    CellValue(2, x);
    CellValue(3, x);
    assert x & 3 == 0 || x & 3 == 1 || x & 3 == 2 || x & 3 == 3;
  }

  lemma CellSum(v: bv32, x: bv32)
    ensures Value(Cells4(v, x)) ==
      Value(Cell(v, x)) + Value(Cell(v, x >> 2)) + Value(Cell(v, x >> 4)) + Value(Cell(v, x >> 6))
  {
    CellValue(v, x);
    CellValue(v, x >> 2);
    CellValue(v, x >> 4);
    CellValue(v, x >> 6);
    AddFour(Cell(v, x), Cell(v, x >> 2), Cell(v, x >> 4), Cell(v, x >> 6));
  }

  lemma OneOfFour(x: bv32)
    ensures Value(Cells4(0, x)) + Value(Cells4(1, x)) + Value(Cells4(2, x)) + Value(Cells4(3, x)) == 4
  {
    CellSum(0, x);
    CellSum(1, x);
    CellSum(2, x);
    CellSum(3, x);
    SomeCell(x);
    SomeCell(x >> 2);
    SomeCell(x >> 4);
    SomeCell(x >> 6);
  }

  lemma EveryCellCounted(x: bv32)
    ensures Cells(0, x) + Cells(1, x) + Cells(2, x) + Cells(3, x) == 16
  {
    OneOfFour(x);
    OneOfFour(x >> 8);
    OneOfFour(x >> 16);
    OneOfFour(x >> 24);
  }

  /** The four cell counts of an array add up to sixteen per word. */
  lemma {:induction false} CellsAddUp(data: seq<bv32>)
    ensures TotalCells(0, data) + TotalCells(1, data) + TotalCells(2, data) + TotalCells(3, data) == 16 * |data|
  {
    if data != [] {
      CellsAddUp(data[..|data| - 1]);
      EveryCellCounted(data[|data| - 1]);
    }
  }

  /** A memory word of `bits` bits is counted as `bits / 32` machine words. The counts add up to its number
      of cells, as asserted when its write time is computed, exactly when that leaves at most one bit over. */
  lemma CellAssertionIff(bits: nat, data: seq<bv32>)
    requires |data| == bits / 32
    ensures TotalCells(0, data) + TotalCells(1, data) + TotalCells(2, data) + TotalCells(3, data) == bits / 2
      <==> bits % 32 < 2
  {
    CellsAddUp(data);
  }
}
