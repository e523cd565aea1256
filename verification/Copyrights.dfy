/** Printing a set of years as ranges, and reading them back. */
module Copyrights {

  // ----- numbers -----

  predicate IsDigit(c: char) {
    '0' <= c <= '9'
  }

  function DigitOf(n: nat): (c: char)
    requires n < 10
    ensures IsDigit(c)
  {
    ('0' as int + n) as char
  }

  function ValueOf(c: char): (n: nat)
    requires IsDigit(c)
    ensures n < 10
  {
    c as int - '0' as int
  }

  function Digits(n: nat): (s: string)
    ensures s != [] && AllDigits(s)
  {
    if n < 10 then [DigitOf(n)] else Digits(n / 10) + [DigitOf(n % 10)]
  }

  predicate AllDigits(s: string) {
    forall i :: 0 <= i < |s| ==> IsDigit(s[i])
  }

  function Value(s: string): (r: nat)
    requires AllDigits(s)
  {
    if s == [] then 0 else 10 * Value(s[..|s| - 1]) + ValueOf(s[|s| - 1])
  }

  lemma {:induction false} ValueOfDigits(n: nat)
    ensures Value(Digits(n)) == n
  {
    if n >= 10 {
      ValueOfDigits(n / 10);
      assert Digits(n)[..|Digits(n)| - 1] == Digits(n / 10);
    } else {
      assert Digits(n)[..0] == [];
    }
  }

  function Format(n: int): (r: string) {
    if n < 0 then "-" + Digits(-n) else Digits(n)
  }

  predicate FourDigits(n: int) {
    1000 <= n <= 9999
  }

  lemma DigitsLength(n: nat)
    ensures |Digits(n)| == 4 <==> 1000 <= n <= 9999
    ensures |Digits(n)| < 4 <==> n < 1000
  {
    if n >= 10 {
      var a := n / 10;
      assert |Digits(n)| == |Digits(a)| + 1;
      if a >= 10 {
        var b := a / 10;
        assert |Digits(a)| == |Digits(b)| + 1;
        if b >= 10 {
          var c := b / 10;
          assert |Digits(b)| == |Digits(c)| + 1;
          assert c >= 10 ==> |Digits(c)| == |Digits(c / 10)| + 1;
        }
      }
    }
  }

  // ----- reading -----

  predicate IsSpace(c: char) {
    c == ' ' || c == '\t' || c == '\n' || c == '\r' || c == '\U{000B}' || c == '\U{000C}'
  }

  function SkipSpaces(s: string): (r: string)
    ensures |r| <= |s|
  {
    if s != [] && IsSpace(s[0]) then SkipSpaces(s[1..]) else s
  }

  function DropSpaces(s: string): (r: string) {
    if s != [] && IsSpace(s[|s| - 1]) then DropSpaces(s[..|s| - 1]) else s
  }

  function Strip(s: string): (r: string) {
    DropSpaces(SkipSpaces(s))
  }

  function Split(s: string): (r: seq<string>)
    ensures r != []
  {
    if s == [] then [[]]
    else
      var r := Split(s[1..]);
      if s[0] == ',' then [[]] + r else [[s[0]] + r[0]] + r[1..]
  }

  datatype Option<T> = None | Some(value: T)

  datatype Range = Range(first: int, last: int)

  predicate StartsWithYear(s: string) {
    |s| >= 4 && AllDigits(s[..4])
  }

  /** Two four-digit years with a dash between them at the start of a text; what follows is ignored. */
  function MatchRange(s: string): (r: Option<Range>) {
    if !StartsWithYear(s) then None
    else
      var dash := SkipSpaces(s[4..]);
      if dash == [] || dash[0] != '-' then None
      else
        var second := SkipSpaces(dash[1..]);
        if StartsWithYear(second) then Some(Range(Value(s[..4]), Value(second[..4]))) else None
  }

  /** A number with an optional sign and surrounding spaces. */
  function ParseInt(s: string): (r: Option<int>) {
    var t := Strip(s);
    var digits := if t != [] && (t[0] == '-' || t[0] == '+') then t[1..] else t;
    if digits == [] || !AllDigits(digits) then None
    else
      var v: int := Value(digits);
      if t[0] == '-' then Some(-v) else Some(v)
  }

  function Years(r: Range): (years: set<int>)
    ensures forall y :: y in years <==> r.first <= y <= r.last
    decreases if r.last < r.first then 0 else r.last - r.first + 1
  {
    if r.last < r.first then {} else Years(Range(r.first, r.last - 1)) + {r.last}
  }

  /** The years that one part of a text stands for. */
  function ReadPart(part: string): (r: set<int>) {
    var date := Strip(part);
    match MatchRange(date)
    case Some(r) => Years(r)
    case None => match ParseInt(date) case Some(n) => {n} case None => {}
  }

  function Union(sets: seq<set<int>>): (r: set<int>) {
    if sets == [] then {} else Union(sets[..|sets| - 1]) + sets[|sets| - 1]
  }

  function ReadParts(parts: seq<string>): (r: set<int>) {
    Union(seq(|parts|, i requires 0 <= i < |parts| => ReadPart(parts[i])))
  }

  function Read(text: string): (r: set<int>) {
    ReadParts(Split(text))
  }

  // ----- printing -----

  /** The runs of consecutive years, given in ascending order. */
  function Runs(years: seq<int>): (r: seq<Range>) {
    if years == [] then [] else Extend(Runs(years[..|years| - 1]), years[|years| - 1])
  }

  function Extend(runs: seq<Range>, y: int): (r: seq<Range>) {
    var n := |runs| - 1;
    if runs != [] && runs[n].last + 1 == y then runs[n := Range(runs[n].first, y)] else runs + [Range(y, y)]
  }

  function FormatRun(r: Range): (result: string) {
    if r.first == r.last then Format(r.first) else Format(r.first) + "-" + Format(r.last)
  }

  function FormatRuns(runs: seq<Range>): (r: seq<string>) {
    seq(|runs|, i requires 0 <= i < |runs| => FormatRun(runs[i]))
  }

  function Join(parts: seq<string>): (r: string) {
    if parts == [] then [] else if |parts| == 1 then parts[0] else parts[0] + "," + Join(parts[1..])
  }

  function Insert(s: seq<int>, x: int): (r: seq<int>) {
    if s == [] || s[|s| - 1] <= x then s + [x] else Insert(s[..|s| - 1], x) + [s[|s| - 1]]
  }

  function Sort(s: seq<int>): (r: seq<int>) {
    if s == [] then [] else Insert(Sort(s[..|s| - 1]), s[|s| - 1])
  }

  /** The text for a set of years, whose elements are listed in any order. */
  function Print(years: seq<int>): (r: string) {
    Join(FormatRuns(Runs(Sort(years))))
  }

  lemma OneMoreDigit(n: nat, d: nat)
    requires n > 0 && d < 10
    ensures Digits(10 * n + d) == Digits(n) + [DigitOf(d)]
  {
  }

  /** How years and ranges are written. */
  lemma Writes()
    ensures FormatRun(Range(1987, 1987)) == "1987" && FormatRun(Range(7, 12)) == "7-12"
  {
    OneMoreDigit(1, 9);
    OneMoreDigit(19, 8);
    OneMoreDigit(198, 7);
    OneMoreDigit(1, 2);
  }

  /** The parts of a text are written one after the other, with commas in between. */
  lemma JoinsThree(a: string, b: string, c: string)
    ensures Join([a, b, c]) == a + "," + b + "," + c
  {
    assert [a, b, c][1..] == [b, c] && [b, c][1..] == [c];
    assert Join([b, c]) == b + "," + c;
  }

  // ----- the runs -----

  ghost predicate Increasing(s: seq<int>) {
    forall i, j :: 0 <= i < j < |s| ==> s[i] < s[j]
  }

  ghost predicate Distinct(s: seq<int>) {
    forall i, j :: 0 <= i < j < |s| ==> s[i] != s[j]
  }

  lemma {:induction false} InsertIncreases(s: seq<int>, x: int)
    requires Increasing(s) && x !in s
    ensures Increasing(Insert(s, x)) && forall y :: y in Insert(s, x) <==> y in s || y == x
  {
    var n := |s| - 1;
    if s != [] && s[n] > x {
      InsertIncreases(s[..n], x);
      var r := Insert(s[..n], x);
      assert s == s[..n] + [s[n]];
      forall i | 0 <= i < |r| ensures r[i] < s[n] {
        assert r[i] in r;
      }
    }
  }

  lemma {:induction false} SortIncreases(s: seq<int>)
    requires Distinct(s)
    ensures Increasing(Sort(s)) && forall y :: y in Sort(s) <==> y in s
  {
    var n := |s| - 1;
    if s != [] {
      SortIncreases(s[..n]);
      assert s == s[..n] + [s[n]];
      assert s[n] !in s[..n];
      InsertIncreases(Sort(s[..n]), s[n]);
    }
  }

  /** Ranges in ascending order that neither overlap nor touch. */
  ghost predicate Separate(runs: seq<Range>) {
    && (forall i :: 0 <= i < |runs| ==> runs[i].first <= runs[i].last)
    && (forall i, j :: 0 <= i < j < |runs| ==> runs[i].last + 1 < runs[j].first)
  }

  predicate Covers(runs: seq<Range>, y: int) {
    exists i :: 0 <= i < |runs| && runs[i].first <= y <= runs[i].last
  }

  lemma RunsLast(years: seq<int>)
    requires years != []
    ensures var runs := Runs(years); runs != [] && runs[|runs| - 1].last == years[|years| - 1]
  {
  }

  /** The runs are separate, and they cover just the years. */
  lemma {:induction false} RunsAre(years: seq<int>)
    requires Increasing(years)
    ensures Separate(Runs(years)) && forall y :: Covers(Runs(years), y) <==> y in years
  {
    if years != [] {
      var n := |years| - 1;
      var before, y := years[..n], years[n];
      assert years == before + [y];
      RunsAre(before);
      if before != [] { RunsLast(before); }
      ExtendSeparate(Runs(before), y);
      forall z ensures Covers(Runs(years), z) <==> z in years { ExtendCovers(Runs(before), y, z); }
    }
  }

  lemma ExtendSeparate(runs: seq<Range>, y: int)
    requires Separate(runs) && (runs != [] ==> runs[|runs| - 1].last < y)
    ensures Separate(Extend(runs, y))
  {
  }

  lemma ExtendCovers(runs: seq<Range>, y: int, z: int)
    requires Separate(runs)
    ensures Covers(Extend(runs, y), z) <==> Covers(runs, z) || z == y
  {
    var n, more := |runs| - 1, Extend(runs, y);
    if Covers(runs, z) {
      var i: nat :| i < |runs| && runs[i].first <= z <= runs[i].last;
      assert more[i].first <= z <= more[i].last;
    }
    if z == y { assert more[|more| - 1].first <= z <= more[|more| - 1].last; }
    if Covers(more, z) {
      var i: nat :| i < |more| && more[i].first <= z <= more[i].last;
      assert z == y || (i < |runs| && runs[i].first <= z <= runs[i].last);
    }
  }

  // ----- splitting what was joined -----

  lemma {:induction false} SplitOne(s: string, rest: string)
    requires ',' !in s
    ensures Split(s + "," + rest) == [s] + Split(rest)
    ensures Split(s) == [s]
  {
    if s == [] {
      assert s + "," + rest == "," + rest;
    } else {
      assert (s + "," + rest)[1..] == s[1..] + "," + rest;
      SplitOne(s[1..], rest);
      assert [s[0]] + s[1..] == s;
    }
  }

  lemma {:induction false} SplitJoin(parts: seq<string>)
    requires parts != [] && forall i :: 0 <= i < |parts| ==> ',' !in parts[i]
    ensures Split(Join(parts)) == parts
  {
    if |parts| == 1 {
      SplitOne(parts[0], []);
    } else {
      SplitOne(parts[0], Join(parts[1..]));
      SplitJoin(parts[1..]);
    }
  }

  // ----- reading a printed run -----

  /** A text without spaces at its ends. */
  predicate Trim(s: string) {
    s != [] && !IsSpace(s[0]) && !IsSpace(s[|s| - 1])
  }

  lemma FormatTrim(r: Range)
    ensures Trim(FormatRun(r)) && ',' !in FormatRun(r)
  {
  }

  lemma ReadNumber(n: int)
    ensures ReadPart(Format(n)) == {n}
  {
    var s := Format(n);
    FormatTrim(Range(n, n));
    assert Strip(s) == s && Strip(Strip(s)) == s;
    ValueOfDigits(if n < 0 then -n else n);
    if n < 0 {
      assert s[1..] == Digits(-n);
      assert !StartsWithYear(s) by { if |s| >= 4 { assert s[..4][0] == '-'; } }
    } else if |s| > 4 {
      assert IsDigit(s[4]) && s[4..][0] == s[4];
    }
  }

  lemma NotNumber(a: string, b: string)
    requires Trim(a + "-" + b) && a != []
    ensures ParseInt(a + "-" + b) == None
  {
    var s := a + "-" + b;
    assert Strip(s) == s;
    assert s[|a|] == '-';
    if s[0] == '-' || s[0] == '+' { assert s[1..][|a| - 1] == '-'; }
  }

  lemma ReadTwo(f: int, l: int)
    requires f < l
    ensures var years := ReadPart(Format(f) + "-" + Format(l));
      && (FourDigits(f) && FourDigits(l) ==> years == Years(Range(f, l)))
      && (!FourDigits(f) ==> years == {})
      && (forall y :: y in years ==> FourDigits(y))
  {
    var a, b := Format(f), Format(l);
    var s := a + "-" + b;
    FormatTrim(Range(f, l));
    assert Strip(s) == s && Strip(Strip(s)) == s;
    NotNumber(a, b);
    if f < 0 {
      assert !StartsWithYear(s) by { assert s[..4][0] == '-'; }
    } else {
      DigitsLength(f);
      ValueOfDigits(f);
      if f < 1000 {
        assert !StartsWithYear(s) by { if |s| >= 4 { assert s[..4][|a|] == '-'; } }
      } else if f <= 9999 {
        ReadSecond(f, l);
      } else {
        assert s[4..][0] == a[4] && IsDigit(a[4]);
      }
    }
  }

  lemma ReadSecond(f: int, l: int)
    requires FourDigits(f) && f < l
    ensures var r := MatchRange(Format(f) + "-" + Format(l));
      r.Some? && r.value.first == f && r.value.last <= 9999 && (FourDigits(l) ==> r.value.last == l)
  {
    var a, b := Format(f), Format(l);
    var s := a + "-" + b;
    DigitsLength(f);
    ValueOfDigits(f);
    DigitsLength(l);
    ValueOfDigits(l);
    assert s[..4] == a && s[4..] == "-" + b && s[4..][1..] == b;
    assert SkipSpaces(b) == b;
    FourIsSmall(b[..4]);
    if FourDigits(l) { assert b[..4] == b; }
  }

  lemma FourIsSmall(s: string)
    requires |s| == 4 && AllDigits(s)
    ensures Value(s) <= 9999
  {
    assert Value(s) == 10 * Value(s[..3]) + ValueOf(s[3]);
    assert s[..3][..2] == s[..2] && Value(s[..3]) == 10 * Value(s[..2]) + ValueOf(s[2]);
    assert s[..2][..1] == s[..1] && Value(s[..2]) == 10 * Value(s[..1]) + ValueOf(s[1]);
    assert s[..1][..0] == [] && Value(s[..1]) == ValueOf(s[0]);
  }

  // ----- how freely texts may be written -----

  /** White space as Python strips it from plain text. */
  ghost predicate Blank(w: string) {
    forall i :: 0 <= i < |w| ==> w[i] in {' ', '\t', '\n', '\r', '\U{000B}', '\U{000C}'}
  }

  lemma {:induction false} SkipBlank(w: string, s: string)
    requires Blank(w) && (s != [] ==> !IsSpace(s[0]))
    ensures SkipSpaces(w + s) == s
  {
    if w == [] {
      assert w + s == s;
    } else {
      assert (w + s)[1..] == w[1..] + s;
      SkipBlank(w[1..], s);
    }
  }

  lemma {:induction false} DropBlank(s: string, w: string)
    requires Blank(w) && s != [] && !IsSpace(s[|s| - 1])
    ensures DropSpaces(s + w) == s
    decreases |w|
  {
    if w == [] {
      assert s + w == s;
    } else {
      assert (s + w)[..|s + w| - 1] == s + w[..|w| - 1];
      DropBlank(s, w[..|w| - 1]);
    }
  }

  lemma {:induction false} DropKeeps(s: string, rest: string)
    requires s != [] && !IsSpace(s[|s| - 1])
    ensures s <= DropSpaces(s + rest)
    decreases |rest|
  {
    if rest == [] {
      assert s + rest == s;
    } else if IsSpace(rest[|rest| - 1]) {
      assert (s + rest)[..|s + rest| - 1] == s + rest[..|rest| - 1];
      DropKeeps(s, rest[..|rest| - 1]);
    }
  }

  lemma YearIs(y: int)
    requires FourDigits(y)
    ensures var s := Format(y); |s| == 4 && AllDigits(s) && Value(s) == y
  {
    DigitsLength(y);
    ValueOfDigits(y);
  }

  lemma MatchesRange(f: int, l: int, u: string, v: string, rest: string)
    requires FourDigits(f) && FourDigits(l) && Blank(u) && Blank(v)
    ensures MatchRange(Format(f) + (u + ("-" + (v + (Format(l) + rest))))) == Some(Range(f, l))
  {
    YearIs(f);
    YearIs(l);
    var a, b := Format(f), Format(l);
    var d := v + (b + rest);
    var s := a + (u + ("-" + d));
    assert s[..4] == a && s[4..] == u + ("-" + d);
    SkipBlank(u, "-" + d);
    assert ("-" + d)[1..] == d;
    SkipBlank(v, b + rest);
    assert (b + rest)[..4] == b;
  }

  /** Blanks around a range and its dash do not matter, nor does anything behind its second year. */
  lemma ReadsRange(f: int, l: int, u: string, v: string, w: string, rest: string)
    requires FourDigits(f) && FourDigits(l) && Blank(u) && Blank(v) && Blank(w)
    ensures ReadPart(w + Format(f) + u + "-" + v + Format(l) + rest) == Years(Range(f, l))
  {
    YearIs(f);
    YearIs(l);
    var core := Format(f) + (u + ("-" + (v + Format(l))));
    assert w + Format(f) + u + "-" + v + Format(l) + rest == w + (core + rest);
    assert (core + rest)[0] == Format(f)[0];
    SkipBlank(w, core + rest);
    assert core[|core| - 1] == Format(l)[3];
    DropKeeps(core, rest);
    var date := DropSpaces(core + rest);
    var more := date[|core|..];
    assert date == Format(f) + (u + ("-" + (v + (Format(l) + more))));
    MatchesRange(f, l, u, v, more);
  }

  lemma NotRange(sign: string, n: nat)
    requires sign in {"", "-", "+"}
    ensures MatchRange(sign + Digits(n)) == None
  {
    var s := sign + Digits(n);
    if sign == "" {
      assert s == Digits(n);
      if |s| > 4 { assert IsDigit(s[4]) && s[4..][0] == s[4]; }
    } else {
      if |s| >= 4 { assert s[..4][0] == sign[0]; }
    }
  }

  function Signed(sign: string, n: nat): (y: int) {
    if sign == "-" then -(n as int) else n
  }

  lemma StripsNothing(sign: string, n: nat)
    requires sign in {"", "-", "+"}
    ensures Strip(sign + Digits(n)) == sign + Digits(n)
  {
    var core := sign + Digits(n);
    assert core[|core| - 1] == Digits(n)[|Digits(n)| - 1];
    SkipBlank("", core);
    DropBlank(core, "");
    assert "" + core == core && core + "" == core;
  }

  lemma ParsesSigned(sign: string, n: nat)
    requires sign in {"", "-", "+"} && Strip(sign + Digits(n)) == sign + Digits(n)
    ensures ParseInt(sign + Digits(n)) == Some(Signed(sign, n))
  {
    var core := sign + Digits(n);
    ValueOfDigits(n);
    if sign == "" {
      assert core == Digits(n) && IsDigit(core[0]);
    } else {
      assert core[0] == sign[0] && core[1..] == Digits(n);
    }
  }

  /** A number may have a sign and blanks around it. */
  lemma ReadsNumber(n: nat, sign: string, u: string, v: string)
    requires Blank(u) && Blank(v) && sign in {"", "-", "+"}
    ensures ReadPart(u + sign + Digits(n) + v) == {Signed(sign, n)}
  {
    var core := sign + Digits(n);
    assert u + sign + Digits(n) + v == u + (core + v);
    assert core[|core| - 1] == Digits(n)[|Digits(n)| - 1];
    assert (core + v)[0] == core[0];
    SkipBlank(u, core + v);
    DropBlank(core, v);
    NotRange(sign, n);
    StripsNothing(sign, n);
    ParsesSigned(sign, n);
  }

  // ----- the round trip -----

  /** A run that is read back as printed. */
  predicate Readable(r: Range) {
    r.first == r.last || (FourDigits(r.first) && FourDigits(r.last))
  }

  lemma {:induction false} InUnion(sets: seq<set<int>>, y: int)
    ensures y in Union(sets) <==> exists i :: 0 <= i < |sets| && y in sets[i]
  {
    if sets != [] {
      var n := |sets| - 1;
      InUnion(sets[..n], y);
      if y in Union(sets[..n]) {
        var i: nat :| i < n && y in sets[..n][i];
        assert y in sets[i];
      }
    }
  }

  lemma ReadRun(r: Range)
    requires r.first <= r.last
    ensures Readable(r) ==> ReadPart(FormatRun(r)) == Years(r)
    ensures !Readable(r) ==> forall y :: y in ReadPart(FormatRun(r)) ==> FourDigits(y)
  {
    if r.first == r.last {
      ReadNumber(r.first);
    } else {
      ReadTwo(r.first, r.last);
    }
  }

  lemma ReadBack(runs: seq<Range>)
    requires runs != [] && Separate(runs)
    ensures forall y :: y in Read(Join(FormatRuns(runs))) <==>
      exists i :: 0 <= i < |runs| && y in ReadPart(FormatRun(runs[i]))
  {
    var parts := FormatRuns(runs);
    forall i | 0 <= i < |parts| ensures ',' !in parts[i] { FormatTrim(runs[i]); }
    SplitJoin(parts);
    var sets := seq(|parts|, i requires 0 <= i < |parts| => ReadPart(parts[i]));
    assert ReadParts(parts) == Union(sets);
    SameSets(sets, runs);
  }

  lemma SameSets(sets: seq<set<int>>, runs: seq<Range>)
    requires |sets| == |runs| && forall i :: 0 <= i < |sets| ==> sets[i] == ReadPart(FormatRun(runs[i]))
    ensures forall y :: y in Union(sets) <==> exists i :: 0 <= i < |runs| && y in ReadPart(FormatRun(runs[i]))
  {
    forall y ensures y in Union(sets) <==> exists i :: 0 <= i < |runs| && y in ReadPart(FormatRun(runs[i])) {
      InUnion(sets, y);
      if i: nat :| i < |runs| && y in ReadPart(FormatRun(runs[i])) { assert y in sets[i]; }
    }
  }

  /** A run that is not readable loses one of its ends: no other part of the text stands for it. */
  lemma EndLost(runs: seq<Range>, k: nat) returns (y: int)
    requires Separate(runs) && k < |runs| && !Readable(runs[k])
    ensures runs[k].first <= y <= runs[k].last
    ensures forall i :: 0 <= i < |runs| ==> y !in ReadPart(FormatRun(runs[i]))
  {
    y := if FourDigits(runs[k].first) then runs[k].last else runs[k].first;
    forall i | 0 <= i < |runs| ensures y !in ReadPart(FormatRun(runs[i])) {
      ReadRun(runs[i]);
    }
  }

  /** Reading what was printed gives back the years exactly when every run of more than one year is between
      four-digit years. */
  lemma RoundTripIff(years: seq<int>)
    requires years != [] && Distinct(years)
    ensures Read(Print(years)) == (set y | y in years) <==> forall r :: r in Runs(Sort(years)) ==> Readable(r)
  {
    SortIncreases(years);
    var sorted := Sort(years);
    assert years[0] in sorted;
    RunsAre(sorted);
    var runs := Runs(sorted);
    ReadBack(runs);
    if forall r :: r in runs ==> Readable(r) {
      forall y ensures y in Read(Print(years)) <==> y in years {
        ReadableRuns(runs, y);
      }
    } else {
      var k: nat :| k < |runs| && !Readable(runs[k]);
      var y := EndLost(runs, k);
      assert Covers(runs, y);
      assert y in years && y !in Read(Print(years));
    }
  }

  lemma ReadableRuns(runs: seq<Range>, y: int)
    requires Separate(runs) && forall r :: r in runs ==> Readable(r)
    ensures (exists i :: 0 <= i < |runs| && y in ReadPart(FormatRun(runs[i]))) <==> Covers(runs, y)
  {
    forall i | 0 <= i < |runs| ensures y in ReadPart(FormatRun(runs[i])) <==> runs[i].first <= y <= runs[i].last {
      assert runs[i] in runs;
      ReadRun(runs[i]);
    }
  }

  /** So it does for every set of four-digit years. */
  lemma FourDigitYears(years: seq<int>)
    requires years != [] && Distinct(years) && forall y :: y in years ==> FourDigits(y)
    ensures Read(Print(years)) == set y | y in years
  {
    SortIncreases(years);
    var runs := Runs(Sort(years));
    RunsAre(Sort(years));
    forall r | r in runs ensures Readable(r) {
      var i: nat :| i < |runs| && runs[i] == r;
      assert Covers(runs, r.first) && Covers(runs, r.last);
    }
    RoundTripIff(years);
  }

  // ----- the programs -----

  method DateStr(dates: seq<int>) returns (text: string)
    requires dates != [] && Distinct(dates)
    ensures text == Print(dates)
  {
    var sorted := SortYears(dates);
    assert |sorted| > 0 by { SortIncreases(dates); assert dates[0] in sorted; }
    var runs: seq<Range> := [];
    var first, second := sorted[0], sorted[0];
    assert sorted[..1][..0] == [] && sorted[..1] == [first];
    for i := 1 to |sorted|
      invariant Runs(sorted[..i]) == runs + [Range(first, second)]
    {
      var next := sorted[i];
      assert sorted[..i + 1][..i] == sorted[..i];
      if next == second + 1 {
        second := next;
      } else {
        runs := runs + [Range(first, second)];
        first, second := next, next;
      }
    }
    assert sorted[..|sorted|] == sorted;
    runs := runs + [Range(first, second)];
    text := JoinRuns(runs);
  }

  method SortYears(dates: seq<int>) returns (r: seq<int>)
    ensures r == Sort(dates)
  {
    r := [];
    for i := 0 to |dates|
      invariant r == Sort(dates[..i])
    {
      assert dates[..i + 1][..i] == dates[..i];
      r := Insert(r, dates[i]);
    }
    assert dates[..|dates|] == dates;
  }

  method JoinRuns(runs: seq<Range>) returns (text: string)
    requires runs != []
    ensures text == Join(FormatRuns(runs))
  {
    var i: nat := |runs| - 1;
    text := FormatRun(runs[i]);
    assert FormatRuns(runs)[i..] == [FormatRun(runs[i])];
    while i > 0
      invariant i < |runs| && text == Join(FormatRuns(runs)[i..])
    {
      i := i - 1;
      text := FormatRun(runs[i]) + "," + text;
      assert FormatRuns(runs)[i..][1..] == FormatRuns(runs)[i + 1..];
    }
    assert FormatRuns(runs)[0..] == FormatRuns(runs);
  }

  method ProcessDates(text: string) returns (output: set<int>)
    ensures output == Read(text)
  {
    var parts := Split(text);
    output := {};
    for i := 0 to |parts|
      invariant output == ReadParts(parts[..i])
    {
      ReadOneMore(parts, i);
      var date := Strip(parts[i]);
      var range := MatchRange(date);
      if range.Some? {
        var years := AddRange(range.value);
        output := output + years;
      } else {
        var n := ParseInt(date);
        if n.Some? { output := output + {n.value}; }
      }
    }
    assert parts[..|parts|] == parts;
  }

  lemma ReadOneMore(parts: seq<string>, i: nat)
    requires i < |parts|
    ensures ReadParts(parts[..i + 1]) == ReadParts(parts[..i]) + ReadPart(parts[i])
  {
    var more := seq(|parts[..i + 1]|, k requires 0 <= k < |parts[..i + 1]| => ReadPart(parts[..i + 1][k]));
    var sets := seq(|parts[..i]|, k requires 0 <= k < |parts[..i]| => ReadPart(parts[..i][k]));
    assert more[..i] == sets;
  }

  method AddRange(r: Range) returns (years: set<int>)
    ensures years == Years(r)
  {
    years := {};
    var y := r.first;
    while y <= r.last
      invariant r.first <= y && forall z :: z in years <==> r.first <= z < y && z <= r.last
      decreases r.last + 1 - y
    {
      years := years + {y};
      y := y + 1;
    }
  }
}
