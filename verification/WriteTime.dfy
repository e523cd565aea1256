/** How long programming the cells of a write takes, and where its programming iterations start. */
module WriteTimes {
  import opened Arithmetic
  import opened BitCount
  import opened SubArrayTiming
  import WritePausing

  /** `averageIterations` is the rounded mean of the four pulse counts. `direct` says that a flat energy
      model is combined with write-through, which skips the look at the data. `bits` is the size of a
      memory word. `srms` is the programming mode with a single reset and multiple sets. */
  datatype CellModel = CellModel(
    uniform: bool, levels: nat, averageIterations: nat, direct: bool, bits: nat, srms: bool,
    tWP: nat, tWP0: nat, tWP1: nat, nWP00: nat, nWP01: nat, nWP10: nat, nWP11: nat, maxVariance: nat)

  /** The cycles needed, with the starts of the iterations in ascending order; or a failed assertion. */
  datatype Outcome = Time(cycles: nat, starts: seq<nat>) | Aborted

  /** The data as machine words, if there is any. */
  datatype Data = NoData | Words(words: seq<bv32>)

  // ----- iteration starts -----

  /** Adds the latest start to a set kept in ascending order. */
  function Insert(starts: seq<nat>, s: nat): (r: seq<nat>) {
    if starts != [] && starts[|starts| - 1] == s then starts else starts + [s]
  }

  /** `n` starts from `first` on, one every `step` cycles, on top of the earlier ones. */
  function Every(starts: seq<nat>, first: nat, step: nat, n: nat): (r: seq<nat>)
    decreases n
  {
    if n == 0 then starts else Every(Insert(starts, first), first + step, step, n - 1)
  }

  ghost predicate Ascending(starts: seq<nat>) {
    forall i, j :: 0 <= i < j < |starts| ==> starts[i] < starts[j]
  }

  ghost predicate Within(starts: seq<nat>, low: nat, high: nat) {
    forall i :: 0 <= i < |starts| ==> low <= starts[i] <= high
  }

  lemma {:induction false} EveryWithin(starts: seq<nat>, first: nat, step: nat, n: nat, low: nat, high: nat)
    requires Ascending(starts) && Within(starts, low, first) && low <= first && first + Times(n, step) <= high + step
    requires n == 0 ==> first <= high
    ensures Ascending(Every(starts, first, step, n)) && Within(Every(starts, first, step, n), low, high)
    decreases n
  {
    if n > 0 {
      var more := Insert(starts, first);
      assert Ascending(more) && Within(more, low, first + step);
      if n == 1 {
        assert Every(more, first + step, step, 0) == more;
      } else {
        EveryWithin(more, first + step, step, n - 1, low, high);
      }
    }
  }

  // ----- the time -----

  /** The pulse count is drawn at random, but at most `maxVariance` away from the mean. */
  function Clamp(sample: nat, mean: nat, maxVariance: nat): (r: nat) {
    if sample > mean + maxVariance then mean + maxVariance
    else if sample < mean - maxVariance then mean - maxVariance
    else sample
  }

  predicate Holds(v: bv32, data: seq<bv32>) {
    TotalCells(v, data) > 0
  }

  /** Which cell values occur in the data. */
  datatype Found = Found(has00: bool, has01: bool, has10: bool, has11: bool)

  function FoundIn(data: seq<bv32>): (r: Found) {
    Found(Holds(0, data), Holds(1, data), Holds(2, data), Holds(3, data))
  }

  /** The pulses the slowest value needs. */
  function Pulses(c: CellModel, f: Found): (r: nat) {
    Max(Max(if f.has00 then c.nWP00 else 0, if f.has01 then c.nWP01 else 0),
        Max(if f.has10 then c.nWP10 else 0, if f.has11 then c.nWP11 else 0))
  }

  /** One pulse of `once` cycles, then `n` pulses of `repeated` cycles. */
  function Programmed(now: nat, once: nat, n: nat, repeated: nat): (r: Outcome) {
    Time(once + Times(n, repeated), Every([now], now + once, repeated, n))
  }

  lemma ProgrammedWithin(now: nat, once: nat, n: nat, repeated: nat)
    ensures var r := Programmed(now, once, n, repeated); Ascending(r.starts) && Within(r.starts, now, now + r.cycles)
  {
    EveryWithin([now], now + once, repeated, n, now, now + once + Times(n, repeated));
  }

  /** The time for two-bit cells: one pulse, then as many as drawn. */
  function PulseTime(c: CellModel, now: nat, sample: nat, f: Found): (r: Outcome) {
    if f.has01 || f.has10 then
      var n := Clamp(sample, Pulses(c, f), c.maxVariance);
      if c.srms then Programmed(now, c.tWP0, n, c.tWP1) else Programmed(now, c.tWP1, n, c.tWP0)
    else if f.has00 && !f.has11 then Programmed(now, c.tWP0, 0, 0)
    else if !f.has00 && f.has11 then Programmed(now, c.tWP1, 0, 0)
    else Aborted
  }

  function ProgramTime(c: CellModel, now: nat, sample: nat, data: Data): (r: Outcome)
    requires data.Words? ==> |data.words| == c.bits / 32
  {
    if c.uniform then
      Time(c.tWP, if c.levels > 1 && c.averageIterations > 0
                  then Every([], now, c.tWP / c.averageIterations, c.averageIterations) else [])
    else if c.direct then Time(c.tWP, [])
    else if data.NoData? then Time(c.tWP0, [])
    else if c.levels == 1 then Time(c.tWP, [])
    else if c.levels == 2 then if c.bits % 32 < 2 then PulseTime(c, now, sample, FoundIn(data.words)) else Aborted
    else Time(0, [])
  }

  // ----- what holds of it -----

  lemma UniformWithin(c: CellModel, now: nat)
    requires c.averageIterations > 0
    ensures var s := Every([], now, c.tWP / c.averageIterations, c.averageIterations);
      Ascending(s) && Within(s, now, now + c.tWP)
  {
    var n, step := c.averageIterations, c.tWP / c.averageIterations;
    TimesIs(n, step);
    assert n * step <= c.tWP;
    EveryWithin([], now, step, n, now, now + c.tWP);
  }

  lemma PulsesWithin(c: CellModel, now: nat, sample: nat, f: Found)
    requires PulseTime(c, now, sample, f).Time?
    ensures var r := PulseTime(c, now, sample, f); Ascending(r.starts) && Within(r.starts, now, now + r.cycles)
  {
    if f.has01 || f.has10 {
      var n := Clamp(sample, Pulses(c, f), c.maxVariance);
      if c.srms { ProgrammedWithin(now, c.tWP0, n, c.tWP1); } else { ProgrammedWithin(now, c.tWP1, n, c.tWP0); }
    } else if f.has00 {
      ProgrammedWithin(now, c.tWP0, 0, 0);
    } else {
      ProgrammedWithin(now, c.tWP1, 0, 0);
    }
  }

  /** Iterations start in ascending order, all of them while the write lasts. */
  lemma StartsWithin(c: CellModel, now: nat, sample: nat, data: Data)
    requires (data.Words? ==> |data.words| == c.bits / 32) && ProgramTime(c, now, sample, data).Time?
    ensures var r := ProgramTime(c, now, sample, data); Ascending(r.starts) && Within(r.starts, now, now + r.cycles)
  {
    if c.uniform {
      if c.averageIterations > 0 { UniformWithin(c, now); }
    } else if !c.direct && data.Words? && c.levels == 2 {
      PulsesWithin(c, now, sample, FoundIn(data.words));
    }
  }

  /** The write time cannot be computed exactly when two-bit cells are looked at, and the word size is not
      a multiple of the machine word, or the data has no intermediate value and both extremes (or nothing). */
  lemma AbortedIff(c: CellModel, now: nat, sample: nat, data: Data)
    requires data.Words? ==> |data.words| == c.bits / 32
    ensures ProgramTime(c, now, sample, data).Aborted? <==>
      && !c.uniform && !c.direct && data.Words? && c.levels == 2
      && (c.bits % 32 >= 2
          || (TotalCells(0, data.words) + TotalCells(3, data.words) == 16 * |data.words|
              && (TotalCells(0, data.words) > 0 <==> TotalCells(3, data.words) > 0)))
  {
    if data.Words? { CellsAddUp(data.words); }
  }

  // ----- how long a write takes -----

  /** `t` is one of `n` times from `first` on, `step` cycles apart. */
  ghost predicate Hits(first: nat, step: nat, n: nat, t: int) {
    exists k: nat :: k < n && t == first + Times(k, step)
  }

  lemma HitsNext(first: nat, step: nat, n: nat, t: int)
    requires n > 0
    ensures Hits(first, step, n, t) <==> t == first || Hits(first + step, step, n - 1, t)
  {
    if k: nat :| k < n && t == first + Times(k, step) {
      assert k > 0 ==> t == first + step + Times(k - 1, step);
    }
    if k: nat :| k < n - 1 && t == first + step + Times(k, step) {
      assert t == first + Times(k + 1, step);
    }
    assert first == first + Times(0, step);
  }

  lemma {:induction false} EveryHas(starts: seq<nat>, first: nat, step: nat, n: nat, t: nat)
    ensures t in Every(starts, first, step, n) <==> t in starts || Hits(first, step, n, t)
    decreases n
  {
    if n > 0 {
      EveryHas(Insert(starts, first), first + step, step, n - 1, t);
      assert t in Insert(starts, first) <==> t in starts || t == first;
      HitsNext(first, step, n, t);
    }
  }

  /** A write of `once` cycles, and then `n` times `repeated`: iterations start with the first cycle and
      wherever one of these ends but the last. */
  ghost predicate Takes(r: Outcome, now: nat, once: nat, n: nat, repeated: nat) {
    && r.Time? && r.cycles == once + n * repeated
    && forall t: nat :: t in r.starts <==> t == now || Hits(now + once, repeated, n, t)
  }

  lemma ProgrammedTakes(now: nat, once: nat, n: nat, repeated: nat)
    ensures Takes(Programmed(now, once, n, repeated), now, once, n, repeated)
  {
    TimesIs(n, repeated);
    forall t: nat
      ensures t in Programmed(now, once, n, repeated).starts <==> t == now || Hits(now + once, repeated, n, t)
    {
      EveryHas([now], now + once, repeated, n, t);
    }
  }

  /** `most` is the largest pulse count of a cell value that occurs in the data. */
  ghost predicate IsMost(c: CellModel, data: seq<bv32>, most: nat) {
    && (TotalCells(0, data) > 0 ==> c.nWP00 <= most) && (TotalCells(1, data) > 0 ==> c.nWP01 <= most)
    && (TotalCells(2, data) > 0 ==> c.nWP10 <= most) && (TotalCells(3, data) > 0 ==> c.nWP11 <= most)
    && ((TotalCells(0, data) > 0 && most == c.nWP00) || (TotalCells(1, data) > 0 && most == c.nWP01)
        || (TotalCells(2, data) > 0 && most == c.nWP10) || (TotalCells(3, data) > 0 && most == c.nWP11))
  }

  /** `n` is the drawn number, moved to within `variance` of `most`. */
  ghost predicate IsDrawn(sample: nat, most: nat, variance: nat, n: nat) {
    && most - variance <= n <= most + variance
    && (n < sample ==> n == most + variance) && (sample < n ==> n == most - variance)
  }

  /** Two-bit cells are looked at, and their counts add up. */
  ghost predicate LooksAtCells(c: CellModel, data: Data) {
    !c.uniform && !c.direct && c.levels == 2 && c.bits % 32 < 2 && data.Words? && |data.words| == c.bits / 32
  }

  /** With a cell 01 or 10 to program: one pulse, then as many of the other kind as drawn, starting with a
      reset if the mode is single reset and multiple sets. */
  lemma MixedTime(c: CellModel, now: nat, sample: nat, data: Data) returns (most: nat, n: nat)
    requires LooksAtCells(c, data) && TotalCells(1, data.words) + TotalCells(2, data.words) > 0
    ensures IsMost(c, data.words, most) && IsDrawn(sample, most, c.maxVariance, n)
    ensures var r := ProgramTime(c, now, sample, data);
      if c.srms then Takes(r, now, c.tWP0, n, c.tWP1) else Takes(r, now, c.tWP1, n, c.tWP0)
  {
    most := Pulses(c, FoundIn(data.words));
    n := Clamp(sample, most, c.maxVariance);
    if c.srms { ProgrammedTakes(now, c.tWP0, n, c.tWP1); } else { ProgrammedTakes(now, c.tWP1, n, c.tWP0); }
  }

  /** With cells of one extreme only: one pulse of its kind. */
  lemma ExtremeTime(c: CellModel, now: nat, sample: nat, data: Data)
    requires LooksAtCells(c, data) && TotalCells(1, data.words) + TotalCells(2, data.words) == 0
    ensures TotalCells(0, data.words) > 0 && TotalCells(3, data.words) == 0 ==>
      ProgramTime(c, now, sample, data) == Time(c.tWP0, [now])
    ensures TotalCells(0, data.words) == 0 && TotalCells(3, data.words) > 0 ==>
      ProgramTime(c, now, sample, data) == Time(c.tWP1, [now])
  {
  }

  /** Uniform writes always take the same time, in iterations of equal length if cells hold several bits. */
  lemma UniformTime(c: CellModel, now: nat, sample: nat, data: Data, t: nat)
    requires c.uniform && (data.Words? ==> |data.words| == c.bits / 32)
    ensures var r := ProgramTime(c, now, sample, data);
      && r.Time? && r.cycles == c.tWP
      && (t in r.starts <==>
            c.levels > 1 && c.averageIterations > 0
            && Hits(now, c.tWP / c.averageIterations, c.averageIterations, t))
  {
    if c.averageIterations > 0 { EveryHas([], now, c.tWP / c.averageIterations, c.averageIterations, t); }
  }

  /** In all other cases the time is fixed, and there are no iterations to resume from. */
  lemma FixedTime(c: CellModel, now: nat, sample: nat, data: Data)
    requires !c.uniform && (data.Words? ==> |data.words| == c.bits / 32)
    ensures var r := ProgramTime(c, now, sample, data);
      && (c.direct ==> r == Time(c.tWP, []))
      && (!c.direct && data.NoData? ==> r == Time(c.tWP0, []))
      && (!c.direct && data.Words? && c.levels == 1 ==> r == Time(c.tWP, []))
      && (!c.direct && data.Words? && c.levels != 1 && c.levels != 2 ==> r == Time(0, []))
  {
  }

  /** An interrupted write resumes at the latest iteration start that is not in the future, which is not
      before the write began. */
  lemma {:induction false} ResumePoint(starts: seq<nat>, now: nat, start: nat)
    requires Ascending(starts) && (forall i :: 0 <= i < |starts| ==> start <= starts[i]) && start <= now
    ensures var point := WritePausing.IterationStart(starts, now, start);
      && start <= point <= now
      && forall i :: 0 <= i < |starts| && starts[i] <= now ==> starts[i] <= point
  {
    if starts != [] && starts[0] <= now {
      assert forall i :: 1 <= i < |starts| ==> starts[i] == starts[1..][i - 1];
      ResumePoint(starts[1..], now, starts[0]);
    }
  }

  // ----- the computation -----

  method AddStarts(starts: seq<nat>, first: nat, step: nat, n: nat) returns (r: seq<nat>)
    ensures r == Every(starts, first, step, n)
  {
    r := starts;
    var start: nat := first;
    for iter := 0 to n
      invariant Every(starts, first, step, n) == Every(r, start, step, n - iter)
    {
      r := Insert(r, start);
      start := start + step;
    }
  }

  method WriteCellData(c: CellModel, now: nat, sample: nat, data: array?<bv32>) returns (r: Outcome)
    requires data != null ==> data.Length == c.bits / 32
    ensures r == ProgramTime(c, now, sample, if data == null then NoData else Words(data[..]))
  {
    var starts: seq<nat> := [];
    if c.uniform {
      if c.levels > 1 {
        if c.averageIterations > 0 {
          starts := AddStarts([], now, c.tWP / c.averageIterations, c.averageIterations);
        }
      }
      return Time(c.tWP, starts);
    }
    if c.direct { return Time(c.tWP, []); }
    if data == null { return Time(c.tWP0, []); }
    if c.levels == 1 { return Time(c.tWP, []); }
    if c.levels != 2 { return Time(0, []); }
    r := WriteTwoBitCells(c, now, sample, data);
  }

  method WriteTwoBitCells(c: CellModel, now: nat, sample: nat, data: array<bv32>) returns (r: Outcome)
    requires data.Length == c.bits / 32
    ensures r == if c.bits % 32 < 2 then PulseTime(c, now, sample, FoundIn(data[..])) else Aborted
  {
    assert data[..data.Length] == data[..];
    var count00 := CountBitsMLC2(0, data, data.Length);
    var count01 := CountBitsMLC2(1, data, data.Length);
    var count10 := CountBitsMLC2(2, data, data.Length);
    var count11 := CountBitsMLC2(3, data, data.Length);
    CellAssertionIff(c.bits, data[..]);
    if count00 + count01 + count10 + count11 != c.bits / 2 { return Aborted; }
    r := ChoosePulses(c, now, sample, count00, count01, count10, count11);
  }

  method Program(now: nat, once: nat, n: nat, repeated: nat) returns (r: Outcome)
    ensures r == Programmed(now, once, n, repeated)
  {
    var starts := AddStarts([now], now + once, repeated, n);
    TimesIs(n, repeated);
    r := Time(once + n * repeated, starts);
  }

  method ChoosePulses(c: CellModel, now: nat, sample: nat, count00: nat, count01: nat, count10: nat, count11: nat)
    returns (r: Outcome)
    ensures r == PulseTime(c, now, sample, Found(count00 > 0, count01 > 0, count10 > 0, count11 > 0))
  {
    var delay00 := if count00 == 0 then 0 else c.nWP00;
    var delay01 := if count01 == 0 then 0 else c.nWP01;
    var delay10 := if count10 == 0 then 0 else c.nWP10;
    var delay11 := if count11 == 0 then 0 else c.nWP11;
    var pulses := Max(Max(delay00, delay01), Max(delay10, delay11));
    var once: nat, repeated: nat, n: nat := 0, 0, 0;
    if count01 > 0 || count10 > 0 {
      n := Clamp(sample, pulses, c.maxVariance);
      once, repeated := if c.srms then c.tWP0 else c.tWP1, if c.srms then c.tWP1 else c.tWP0;
    } else if count00 > 0 && count11 == 0 {
      once := c.tWP0;
    } else if count00 == 0 && count11 > 0 {
      once := c.tWP1;
    } else {
      return Aborted;
    }
    r := Program(now, once, n, repeated);
  }
}
