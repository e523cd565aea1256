/** Splitting a physical address into its fields and putting it together again. A translation is a mixed
    radix number: field widths, in the order of the translation method, are the (logarithms of the)
    radices. */
module AddressTranslators {
  import opened Arithmetic
  import opened Powers
  import opened TranslationMethods

  // ----- mixed radix numbers, lowest digit first -----

  function Sum(w: seq<nat>): (r: nat) {
    if w == [] then 0 else w[0] + Sum(w[1..])
  }

  function Pack(d: seq<nat>, w: seq<nat>): (r: nat)
    requires |d| == |w|
  {
    if d == [] then 0 else Shl(Pack(d[1..], w[1..]), w[0]) + d[0]
  }

  function Unpack(a: nat, w: seq<nat>): (d: seq<nat>)
    ensures |d| == |w|
    decreases |w|
  {
    if w == [] then [] else [Low(a, w[0])] + Unpack(Shr(a, w[0]), w[1..])
  }

  ghost predicate InRange(d: seq<nat>, w: seq<nat>) {
    |d| == |w| && forall i :: 0 <= i < |d| ==> d[i] < Pow2(w[i])
  }

  lemma {:induction false} UnpackPack(d: seq<nat>, w: seq<nat>)
    requires InRange(d, w)
    ensures Unpack(Pack(d, w), w) == d
  {
    if d != [] {
      UnpackPack(d[1..], w[1..]);
      Joined(Pack(d[1..], w[1..]), w[0], d[0]);
    }
  }

  lemma {:induction false} UnpackInRange(a: nat, w: seq<nat>)
    ensures InRange(Unpack(a, w), w)
    decreases |w|
  {
    if w != [] {
      Split(a, w[0]);
      UnpackInRange(Shr(a, w[0]), w[1..]);
    }
  }

  lemma {:induction false} PackUnpack(a: nat, w: seq<nat>)
    requires a < Pow2(Sum(w))
    ensures Pack(Unpack(a, w), w) == a
    decreases |w|
  {
    if w != [] {
      Split(a, w[0]);
      ShrBound(a, Sum(w[1..]), w[0]);
      PackUnpack(Shr(a, w[0]), w[1..]);
      assert Unpack(a, w)[1..] == Unpack(Shr(a, w[0]), w[1..]);
    }
  }

  lemma {:induction false} PackBound(d: seq<nat>, w: seq<nat>)
    requires InRange(d, w)
    ensures Pack(d, w) < Pow2(Sum(w))
  {
    if d != [] {
      PackBound(d[1..], w[1..]);
      JoinedBound(Pack(d[1..], w[1..]), Sum(w[1..]), w[0], d[0]);
    }
  }

  /** A digit is a slice of the number. */
  lemma {:induction false} UnpackAt(a: nat, w: seq<nat>, i: nat)
    requires i < |w|
    ensures Unpack(a, w)[i] == Low(Shr(a, Sum(w[..i])), w[i])
    decreases i
  {
    if i == 0 {
      assert w[..0] == [];
    } else {
      UnpackAt(Shr(a, w[0]), w[1..], i - 1);
      assert w[..i][1..] == w[1..][..i - 1];
      ShrTwice(a, w[0], Sum(w[1..][..i - 1]));
    }
  }

  lemma {:induction false} SumSnoc(w: seq<nat>, i: nat)
    requires i < |w|
    ensures Sum(w[..i + 1]) == Sum(w[..i]) + w[i]
  {
    if i > 0 {
      assert w[..i + 1][1..] == w[1..][..i] && w[..i][1..] == w[1..][..i - 1];
      SumSnoc(w[1..], i - 1);
    }
  }

  /** Adding a digit on top. */
  lemma {:induction false} PackSnoc(d: seq<nat>, w: seq<nat>, i: nat)
    requires |d| == |w| && i < |w|
    ensures Pack(d[..i + 1], w[..i + 1]) == Pack(d[..i], w[..i]) + Shl(d[i], Sum(w[..i]))
  {
    if i == 0 {
      ShlIsProduct(0, w[0]);
      assert d[..1][1..] == [] && w[..1][1..] == [];
    } else {
      var d', w' := d[1..], w[1..];
      PackSnoc(d', w', i - 1);
      assert d[..i + 1][1..] == d'[..i] && d[..i][1..] == d'[..i - 1];
      assert w[..i + 1][1..] == w'[..i] && w[..i][1..] == w'[..i - 1];
      ShlSum(Pack(d'[..i - 1], w'[..i - 1]), Shl(d[i], Sum(w'[..i - 1])), w[0]);
      ShlTwice(d[i], Sum(w'[..i - 1]), w[0]);
    }
  }

  // ----- fields in the order of the translation method -----

  /** The field at a position of the order. */
  function FieldAt(order: seq<int>, i: int): (p: nat)
    requires |order| == FIELDS
    ensures p < FIELDS ==> order[p] == i
    ensures p >= FIELDS ==> i !in order
  {
    if order[MEM_ROW] == i then MEM_ROW
    else if order[MEM_COL] == i then MEM_COL
    else if order[MEM_BANK] == i then MEM_BANK
    else if order[MEM_RANK] == i then MEM_RANK
    else if order[MEM_CHANNEL] == i then MEM_CHANNEL
    else if order[MEM_SUBARRAY] == i then MEM_SUBARRAY
    else MEM_UNKNOWN
  }

  lemma FieldAtPermutation(order: seq<int>, i: nat)
    requires IsPermutation(order) && i < FIELDS
    ensures FieldAt(order, i) < FIELDS
    ensures FieldAt(order, order[i]) == i
  {
    Onto(order, i);
  }

  /** Per-field values, rearranged from lowest to highest position. */
  ghost function Ordered(order: seq<int>, values: seq<nat>): (r: seq<nat>)
    requires IsPermutation(order) && |values| == FIELDS
    ensures |r| == FIELDS
  {
    seq(FIELDS, i requires 0 <= i < FIELDS =>
      FieldAtPermutation(order, i);
      values[FieldAt(order, i)])
  }

  /** And back. */
  ghost function ByField(order: seq<int>, digits: seq<nat>): (r: seq<nat>)
    requires IsPermutation(order) && |digits| == FIELDS
    ensures |r| == FIELDS
  {
    seq(FIELDS, p requires 0 <= p < FIELDS => digits[order[p]])
  }

  lemma Rearranged(order: seq<int>, values: seq<nat>)
    requires IsPermutation(order) && |values| == FIELDS
    ensures ByField(order, Ordered(order, values)) == values
    ensures Ordered(order, ByField(order, values)) == values
  {
    forall p | 0 <= p < FIELDS ensures FieldAt(order, order[p]) == p && FieldAt(order, p) < FIELDS {
      FieldAtPermutation(order, p);
    }
  }

  /** The fields of an address, whose lowest `offset` bits lie within a burst. */
  ghost function Fields(address: nat, order: seq<int>, widths: seq<nat>, offset: nat): (f: seq<nat>)
    requires IsPermutation(order) && |widths| == FIELDS
    ensures |f| == FIELDS
  {
    ByField(order, Unpack(Shr(address, offset), Ordered(order, widths)))
  }

  /** The address with the given fields, in 64-bit arithmetic. */
  ghost function Address(fields: seq<nat>, order: seq<int>, widths: seq<nat>, offset: nat): (r: nat)
    requires IsPermutation(order) && |widths| == |fields| == FIELDS
  {
    Word(Shl(Pack(Ordered(order, fields), Ordered(order, widths)), offset))
  }

  ghost predicate Fits(order: seq<int>, widths: seq<nat>, offset: nat) {
    IsPermutation(order) && |widths| == FIELDS && Sum(Ordered(order, widths)) + offset <= 64
  }

  lemma OrderedInRange(order: seq<int>, values: seq<nat>, widths: seq<nat>)
    requires IsPermutation(order) && |values| == |widths| == FIELDS && InRange(values, widths)
    ensures InRange(Ordered(order, values), Ordered(order, widths))
  {
    forall i | 0 <= i < FIELDS ensures Ordered(order, values)[i] < Pow2(Ordered(order, widths)[i]) {
      FieldAtPermutation(order, i);
    }
  }

  lemma ByFieldInRange(order: seq<int>, digits: seq<nat>, widths: seq<nat>)
    requires IsPermutation(order) && |digits| == |widths| == FIELDS && InRange(digits, Ordered(order, widths))
    ensures InRange(ByField(order, digits), widths)
  {
  }

  lemma WithinWord(x: nat, bits: nat, offset: nat)
    requires x < Pow2(bits) && bits + offset <= 64
    ensures Word(Shl(x, offset)) == Shl(x, offset)
  {
    ShlBound(x, bits, offset);
    Pow2Monotone(bits + offset, 64);
    WordSize();
  }

  lemma AddressExact(fields: seq<nat>, order: seq<int>, widths: seq<nat>, offset: nat)
    requires Fits(order, widths, offset) && InRange(fields, widths)
    ensures Address(fields, order, widths, offset) == Shl(Pack(Ordered(order, fields), Ordered(order, widths)), offset)
  {
    var d, w := Ordered(order, fields), Ordered(order, widths);
    OrderedInRange(order, fields, widths);
    PackBound(d, w);
    WithinWord(Pack(d, w), Sum(w), offset);
  }

  /** Decoding what was encoded gives the fields back. */
  lemma DecodeEncode(fields: seq<nat>, order: seq<int>, widths: seq<nat>, offset: nat)
    requires Fits(order, widths, offset) && InRange(fields, widths)
    ensures Fields(Address(fields, order, widths, offset), order, widths, offset) == fields
  {
    var d, w := Ordered(order, fields), Ordered(order, widths);
    AddressExact(fields, order, widths, offset);
    OrderedInRange(order, fields, widths);
    Joined(Pack(d, w), offset, 0);
    UnpackPack(d, w);
    Rearranged(order, fields);
  }

  lemma FieldsInRange(address: nat, order: seq<int>, widths: seq<nat>, offset: nat)
    requires IsPermutation(order) && |widths| == FIELDS
    ensures InRange(Fields(address, order, widths, offset), widths)
  {
    UnpackInRange(Shr(address, offset), Ordered(order, widths));
    ByFieldInRange(order, Unpack(Shr(address, offset), Ordered(order, widths)), widths);
  }

  /** Encoding what was decoded clears the bits within the burst, for every address below capacity. */
  lemma EncodeDecode(address: nat, order: seq<int>, widths: seq<nat>, offset: nat)
    requires Fits(order, widths, offset) && address < Pow2(Sum(Ordered(order, widths)) + offset)
    ensures Address(Fields(address, order, widths, offset), order, widths, offset) == address - Low(address, offset)
  {
    var w, f := Ordered(order, widths), Fields(address, order, widths, offset);
    FieldsInRange(address, order, widths, offset);
    AddressExact(f, order, widths, offset);
    Rearranged(order, Unpack(Shr(address, offset), w));
    ShrBound(address, Sum(w), offset);
    PackUnpack(Shr(address, offset), w);
    Split(address, offset);
  }

  /** So two addresses below capacity have the same fields exactly when they lie in the same burst. */
  lemma SameFieldsIff(a: nat, b: nat, order: seq<int>, widths: seq<nat>, offset: nat)
    requires Fits(order, widths, offset)
    requires a < Pow2(Sum(Ordered(order, widths)) + offset) && b < Pow2(Sum(Ordered(order, widths)) + offset)
    ensures Fields(a, order, widths, offset) == Fields(b, order, widths, offset) <==> Shr(a, offset) == Shr(b, offset)
  {
    if Fields(a, order, widths, offset) == Fields(b, order, widths, offset) {
      EncodeDecode(a, order, widths, offset);
      EncodeDecode(b, order, widths, offset);
      SameBurst(a, b, offset);
    }
  }

  lemma SameBurst(a: nat, b: nat, n: nat)
    requires a - Low(a, n) == b - Low(b, n)
    ensures Shr(a, n) == Shr(b, n)
  {
  }

  // ----- which bits a field is in -----

  /** The widths of the fields among the first `n` with places below `k`, added up. */
  ghost function WidthsBelow(order: seq<int>, widths: seq<nat>, k: int, n: nat): (r: nat)
    requires n <= |order| == |widths|
  {
    if n == 0 then 0
    else WidthsBelow(order, widths, k, n - 1) + if order[n - 1] < k then widths[n - 1] else 0
  }

  lemma {:induction false} BelowNext(order: seq<int>, widths: seq<nat>, k: int, n: nat, p: nat)
    requires n <= |order| == |widths| && p < |order| && order[p] == k
    requires forall q :: 0 <= q < |order| && q != p ==> order[q] != k
    ensures WidthsBelow(order, widths, k + 1, n) == WidthsBelow(order, widths, k, n) + if p < n then widths[p] else 0
  {
    if n > 0 { BelowNext(order, widths, k, n - 1, p); }
  }

  lemma {:induction false} NoneBelow(order: seq<int>, widths: seq<nat>, n: nat)
    requires n <= |order| == |widths| && forall q :: 0 <= q < |order| ==> order[q] >= 0
    ensures WidthsBelow(order, widths, 0, n) == 0
  {
    if n > 0 { NoneBelow(order, widths, n - 1); }
  }

  lemma {:induction false} SumBelow(order: seq<int>, widths: seq<nat>, k: nat)
    requires IsPermutation(order) && |widths| == FIELDS && k <= FIELDS
    ensures Sum(Ordered(order, widths)[..k]) == WidthsBelow(order, widths, k, |order|)
  {
    var w := Ordered(order, widths);
    if k == 0 {
      assert w[..0] == [];
      NoneBelow(order, widths, |order|);
    } else {
      SumBelow(order, widths, k - 1);
      SumSnoc(w, k - 1);
      FieldAtPermutation(order, k - 1);
      BelowNext(order, widths, k - 1, |order|, FieldAt(order, k - 1));
    }
  }

  /** A field is the slice of the address above the burst and above all fields with lower places. */
  lemma FieldIs(address: nat, order: seq<int>, widths: seq<nat>, offset: nat, p: nat)
    requires IsPermutation(order) && |widths| == FIELDS && p < FIELDS
    ensures Fields(address, order, widths, offset)[p] ==
      (address / Pow2(offset + WidthsBelow(order, widths, order[p], FIELDS))) % Pow2(widths[p])
  {
    var w, i := Ordered(order, widths), order[p];
    FieldAtPermutation(order, p);
    UnpackAt(Shr(address, offset), w, i);
    SumBelow(order, widths, i);
    ShrTwice(address, offset, Sum(w[..i]));
    ShrIsQuotient(address, offset + Sum(w[..i]));
    ShrIsQuotient(Shr(Shr(address, offset), Sum(w[..i])), w[i]);
  }

  // ----- the translator as an object -----

  class AddressTranslator {
    var busWidth: int
    var burstLength: int
    const translation: TranslationMethod

    ghost predicate Valid()
      reads this, translation, translation.order, translation.bitWidths
    {
      && translation.Valid() && IsPermutation(translation.order[..])
      && 0 <= busWidth && 1 <= burstLength
    }

    /** The bits that address a byte within a burst. */
    ghost function Offset(): (r: nat)
      reads this
    {
      Log2(busWidth * burstLength / 8)
    }

    constructor (m: TranslationMethod)
      requires m.Valid() && IsPermutation(m.order[..])
      ensures Valid() && translation == m && Offset() == 6
    {
      busWidth, burstLength, translation := 64, 8, m;
      new;
      assert busWidth * burstLength / 8 == 64;
      Log2Unique(64, 6);
    }

    /** The bytes of a burst, if they are a power of two. */
    lemma OffsetIs(k: nat)
      requires Valid() && busWidth * burstLength == 8 * Pow2(k)
      ensures Offset() == k
    {
      Log2Unique(busWidth * burstLength / 8, k);
    }

    method OffsetBits() returns (busOffsetBits: nat, lowColBits: nat)
      requires Valid()
      ensures busOffsetBits + lowColBits == Offset()
    {
      busOffsetBits := MLog2(busWidth / 8);
      var burstBits := MLog2(busWidth * burstLength / 8);
      BurstNotSmaller(busWidth, burstLength);
      lowColBits := burstBits - busOffsetBits;
    }

    method FindOrder(i: int) returns (p: nat)
      requires translation.Valid()
      ensures p == FieldAt(translation.order[..], i)
    {
      if translation.order[MEM_ROW] == i {
        p := MEM_ROW;
      } else if translation.order[MEM_COL] == i {
        p := MEM_COL;
      } else if translation.order[MEM_BANK] == i {
        p := MEM_BANK;
      } else if translation.order[MEM_RANK] == i {
        p := MEM_RANK;
      } else if translation.order[MEM_CHANNEL] == i {
        p := MEM_CHANNEL;
      } else if translation.order[MEM_SUBARRAY] == i {
        p := MEM_SUBARRAY;
      } else {
        p := MEM_UNKNOWN;
      }
    }

    method Modulo(partialAddr: nat, partition: nat) returns (r: nat)
      requires Valid() && partition < FIELDS
      ensures r == Low(partialAddr, translation.bitWidths[partition])
    {
      var bits := translation.bitWidths[partition];
      var moduloSize := Shl(1, bits);
      ShlIsProduct(1, bits);
      ShrIsQuotient(partialAddr, bits);
      r := partialAddr % moduloSize;
    }

    /** Takes the field at position `i` off the low end of `refAddress`. */
    method TakeField(i: nat, refAddress: nat, partitions: array<nat>, ghost digits: seq<nat>) returns (rest: nat)
      requires Valid() && partitions.Length == FIELDS && i < FIELDS == |digits|
      requires partitions != translation.bitWidths && partitions as object != translation.order
      requires Unpack(refAddress, Ordered(translation.order[..], translation.bitWidths[..])[i..]) == digits[i..]
      modifies partitions
      ensures var p := FieldAt(translation.order[..], i);
        p < FIELDS && partitions[..] == old(partitions[..])[p := digits[i]]
      ensures Unpack(rest, Ordered(translation.order[..], translation.bitWidths[..])[i + 1..]) == digits[i + 1..]
    {
      FieldAtPermutation(translation.order[..], i);
      ghost var w := Ordered(translation.order[..], translation.bitWidths[..]);
      assert w[i..][1..] == w[i + 1..] && digits[i..][1..] == digits[i + 1..];
      var part := FindOrder(i);
      partitions[part] := Modulo(refAddress, part);
      rest := Shr(refAddress, translation.bitWidths[part]);
    }

    method TakeFields(address: nat, partitions: array<nat>)
      requires Valid() && partitions.Length == FIELDS
      requires partitions != translation.bitWidths && partitions as object != translation.order
      modifies partitions
      ensures var digits := Unpack(address, Ordered(translation.order[..], translation.bitWidths[..]));
        forall p :: 0 <= p < FIELDS ==> partitions[..][p] == digits[translation.order[p]]
    {
      ghost var order, w := translation.order[..], Ordered(translation.order[..], translation.bitWidths[..]);
      ghost var digits := Unpack(address, w);
      assert w[0..] == w && digits[0..] == digits;
      var refAddress := address;
      var i := 0;
      while i < 6
        invariant i <= 6
        invariant Unpack(refAddress, w[i..]) == digits[i..]
        invariant forall p :: 0 <= p < FIELDS && order[p] < i ==> partitions[p] == digits[order[p]]
      {
        refAddress := TakeField(i, refAddress, partitions, digits);
        i := i + 1;
      }
    }

    /** Fills `partitions` with the row, column, bank, rank, channel and subarray of an address. */
    method Translate(address: nat, partitions: array<nat>)
      requires Valid() && partitions.Length == FIELDS
      requires partitions != translation.bitWidths && partitions as object != translation.order
      modifies partitions
      ensures partitions[..] == Fields(address, translation.order[..], translation.bitWidths[..], Offset())
    {
      ghost var order, widths := translation.order[..], translation.bitWidths[..];
      var busOffsetBits, lowColBits := OffsetBits();
      var refAddress := Shr(address, busOffsetBits);
      refAddress := Shr(refAddress, lowColBits);
      ShrTwice(address, busOffsetBits, lowColBits);
      TakeFields(refAddress, partitions);
      FieldsAre(address, order, widths, Offset(), Unpack(refAddress, Ordered(order, widths)), partitions[..]);
    }

    /** The address with the given fields. All arithmetic wraps around at 64 bits. */
    method ReverseTranslate(fields: seq<nat>) returns (phyAddr: nat)
      requires Valid() && |fields| == FIELDS
      ensures phyAddr == Address(fields, translation.order[..], translation.bitWidths[..], Offset())
    {
      ghost var order, widths := translation.order[..], translation.bitWidths[..];
      ghost var d, w, offset := Ordered(order, fields), Ordered(order, widths), Offset();
      var busOffsetBits, lowColBits := OffsetBits();
      var unitAddr := Word(Shl(1, busOffsetBits));
      unitAddr := Word(Shl(unitAddr, lowColBits));
      UnitAtStart(busOffsetBits, lowColBits, offset);
      phyAddr := 0;
      EmptyAddress(d, w, offset);
      var i := 0;
      while i < 6
        invariant i <= 6
        invariant unitAddr == Unit(w, i, offset) && phyAddr == Partial(d, w, i, offset)
      {
        FieldAtPermutation(order, i);
        var part := FindOrder(i);
        assert d[i] == fields[part] && w[i] == widths[part];
        NextUnit(w, i, offset);
        NextPartial(d, w, i, offset);
        phyAddr := Word(phyAddr + Word(unitAddr * fields[part]));
        unitAddr := Word(Shl(unitAddr, translation.bitWidths[part]));
        i := i + 1;
      }
      assert d[..6] == d && w[..6] == w;
    }
  }

  lemma FieldsAre(address: nat, order: seq<int>, widths: seq<nat>, offset: nat, digits: seq<nat>, f: seq<nat>)
    requires IsPermutation(order) && |widths| == |f| == FIELDS
    requires digits == Unpack(Shr(address, offset), Ordered(order, widths))
    requires forall p :: 0 <= p < FIELDS ==> f[p] == digits[order[p]]
    ensures f == Fields(address, order, widths, offset)
  {
  }

  lemma BurstNotSmaller(busWidth: int, burstLength: int)
    requires 0 <= busWidth && 1 <= burstLength
    ensures Log2(busWidth / 8) <= Log2(busWidth * burstLength / 8)
  {
    var burst := busWidth * burstLength;
    Scale(1, burstLength, busWidth);
    Log2Monotone(busWidth / 8, burst / 8);
  }

  /** What the lowest `i` fields contribute, and the weight of the next one. */
  ghost function Partial(d: seq<nat>, w: seq<nat>, i: nat, offset: nat): (r: nat)
    requires |d| == |w| && i <= |w|
  {
    Word(Shl(Pack(d[..i], w[..i]), offset))
  }

  ghost function Unit(w: seq<nat>, i: nat, offset: nat): (r: nat)
    requires i <= |w|
  {
    Word(Shl(1, Sum(w[..i]) + offset))
  }

  lemma UnitAtStart(a: nat, b: nat, offset: nat)
    requires a + b == offset
    ensures Word(Shl(Word(Shl(1, a)), b)) == Word(Shl(1, offset))
  {
    WordShl(Shl(1, a), b);
    ShlTwice(1, a, b);
  }

  lemma EmptyAddress(d: seq<nat>, w: seq<nat>, offset: nat)
    requires |d| == |w|
    ensures Partial(d, w, 0, offset) == 0 && Unit(w, 0, offset) == Word(Shl(1, offset))
  {
    assert d[..0] == [] && w[..0] == [];
    ShlIsProduct(0, offset);
  }

  lemma NextUnit(w: seq<nat>, i: nat, offset: nat)
    requires i < |w|
    ensures Word(Shl(Unit(w, i, offset), w[i])) == Unit(w, i + 1, offset)
  {
    var k := Sum(w[..i]) + offset;
    SumSnoc(w, i);
    ShlTwice(1, k, w[i]);
    WordShl(Shl(1, k), w[i]);
  }

  lemma NextPartial(d: seq<nat>, w: seq<nat>, i: nat, offset: nat)
    requires |d| == |w| && i < |w|
    ensures Word(Partial(d, w, i, offset) + Word(Unit(w, i, offset) * d[i])) == Partial(d, w, i + 1, offset)
  {
    var k, x := Sum(w[..i]), Pack(d[..i], w[..i]);
    PackSnoc(d, w, i);
    ShlSum(x, Shl(d[i], k), offset);
    ShlTwice(d[i], k, offset);
    WordMultiplyAdd(Shl(x, offset), d[i], k + offset);
  }
}
