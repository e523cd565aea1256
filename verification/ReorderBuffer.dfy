/** The buffer that puts instructions of a trace back into the order of their sequence numbers before they are
    printed. */
module ReorderBuffers {
  import Arithmetic

  /** `retire` is zero for an instruction that was not completed. */
  datatype Inst = Inst(sn: nat, fetch: nat, retire: nat)

  /** The buffer is sorted when it holds more than `max` instructions, and printed from until `min` are left.
      Bounds of zero do not filter. */
  datatype Options = Options(
    max: nat, min: nat, snStart: nat, snStop: nat, tickStart: nat, tickStop: nat, onlyCommitted: bool)

  /** `taken` are the instructions taken out so far, printed or filtered. */
  datatype Buffer = Buffer(queue: seq<Inst>, taken: seq<Inst>)

  // ----- sorting -----

  /** Equal numbers stay in the order they had. */
  function Insert(s: seq<Inst>, x: Inst): (r: seq<Inst>)
    ensures |r| == |s| + 1
  {
    if s == [] || s[|s| - 1].sn <= x.sn then s + [x] else Insert(s[..|s| - 1], x) + [s[|s| - 1]]
  }

  function Sort(s: seq<Inst>): (r: seq<Inst>)
    ensures |r| == |s|
  {
    if s == [] then [] else Insert(Sort(s[..|s| - 1]), s[|s| - 1])
  }

  ghost predicate Ascending(s: seq<Inst>) {
    forall i, j :: 0 <= i < j < |s| ==> s[i].sn <= s[j].sn
  }

  ghost predicate Increasing(s: seq<Inst>) {
    forall i, j :: 0 <= i < j < |s| ==> s[i].sn < s[j].sn
  }

  /** The number of instructions that come before sequence number `v`. */
  function Below(s: seq<Inst>, v: nat): (r: nat)
    ensures r <= |s|
  {
    if s == [] then 0 else Below(s[..|s| - 1], v) + if s[|s| - 1].sn < v then 1 else 0
  }

  lemma {:induction false} BelowAppend(a: seq<Inst>, b: seq<Inst>, v: nat)
    ensures Below(a + b, v) == Below(a, v) + Below(b, v)
  {
    if b == [] {
      assert a + b == a;
    } else {
      assert (a + b)[..|a + b| - 1] == a + b[..|b| - 1];
      BelowAppend(a, b[..|b| - 1], v);
    }
  }

  lemma {:induction false} InsertSorts(s: seq<Inst>, x: Inst)
    requires Ascending(s)
    ensures Ascending(Insert(s, x)) && multiset(Insert(s, x)) == multiset(s) + multiset{x}
  {
    var n := |s| - 1;
    if s != [] && s[n].sn > x.sn {
      InsertSorts(s[..n], x);
      assert s == s[..n] + [s[n]];
      assert Insert(s, x) == Insert(s[..n], x) + [s[n]];
      AllAtMost(Insert(s[..n], x), s[..n], x, s[n].sn);
    }
  }

  lemma AllAtMost(r: seq<Inst>, s: seq<Inst>, x: Inst, v: nat)
    requires multiset(r) == multiset(s) + multiset{x} && x.sn <= v && forall i :: 0 <= i < |s| ==> s[i].sn <= v
    ensures forall i :: 0 <= i < |r| ==> r[i].sn <= v
  {
    forall i | 0 <= i < |r| ensures r[i].sn <= v {
      assert r[i] in multiset(r);
      assert r[i] == x || r[i] in s;
    }
  }

  lemma {:induction false} InsertBelow(s: seq<Inst>, x: Inst, v: nat)
    ensures Below(Insert(s, x), v) == Below(s, v) + if x.sn < v then 1 else 0
  {
    var n := |s| - 1;
    if s == [] || s[n].sn <= x.sn {
      assert (s + [x])[..|s|] == s;
    } else {
      InsertBelow(s[..n], x, v);
      assert (Insert(s[..n], x) + [s[n]])[..|s|] == Insert(s[..n], x);
    }
  }

  lemma {:induction false} SortSorts(s: seq<Inst>)
    ensures Ascending(Sort(s)) && multiset(Sort(s)) == multiset(s)
  {
    if s != [] {
      SortSorts(s[..|s| - 1]);
      InsertSorts(Sort(s[..|s| - 1]), s[|s| - 1]);
      assert s == s[..|s| - 1] + [s[|s| - 1]];
    }
  }

  lemma {:induction false} SortBelow(s: seq<Inst>, v: nat)
    ensures Below(Sort(s), v) == Below(s, v)
  {
    if s != [] {
      SortBelow(s[..|s| - 1], v);
      InsertBelow(Sort(s[..|s| - 1]), s[|s| - 1], v);
    }
  }

  // ----- the buffer -----

  /** Takes out instructions until at most `lower` are left. */
  function Print(b: Buffer, lower: nat): (r: Buffer) {
    var s := Sort(b.queue);
    var k := if |s| > lower then |s| - lower else 0;
    Buffer(s[k..], b.taken + s[..k])
  }

  function Arrive(o: Options, b: Buffer, x: Inst): (r: Buffer) {
    var c := b.(queue := b.queue + [x]);
    if |c.queue| > o.max then Print(c, o.min) else c
  }

  /** The buffer after the first instructions of a trace. */
  function Fill(o: Options, trace: seq<Inst>): (r: Buffer) {
    if trace == [] then Buffer([], []) else Arrive(o, Fill(o, trace[..|trace| - 1]), trace[|trace| - 1])
  }

  /** All instructions of a trace, in the order they are taken out. */
  function Output(o: Options, trace: seq<Inst>): (r: seq<Inst>) {
    Print(Fill(o, trace), 0).taken
  }

  /** How many instructions the buffer holds after `n` of them have come. */
  function Held(o: Options, n: nat): (r: nat)
    ensures r <= n
  {
    if n == 0 then 0
    else
      var h := Held(o, n - 1) + 1;
      if h > o.max && h > o.min then o.min else h
  }

  lemma {:induction false} HeldIs(o: Options, trace: seq<Inst>)
    ensures |Fill(o, trace).queue| == Held(o, |trace|) && |Fill(o, trace).taken| == |trace| - Held(o, |trace|)
  {
    if trace != [] { HeldIs(o, trace[..|trace| - 1]); }
  }

  /** In full: it fills up to the larger bound, and then falls to the smaller one with every arrival beyond. */
  lemma {:induction false} HeldExact(o: Options, n: nat)
    ensures var full := if o.max > o.min then o.max else o.min;
      Held(o, n) == if n <= full then n else o.min + (n - full - 1) % (full + 1 - o.min)
  {
    var full := if o.max > o.min then o.max else o.min;
    if n > 0 {
      HeldExact(o, n - 1);
      if n > full + 1 {
        NextRemainder(n - full - 2, full + 1 - o.min);
      } else if n == full + 1 {
        Arithmetic.QuotientIs(0, full + 1 - o.min, 0, 0);
      }
    }
  }

  lemma NextRemainder(a: nat, k: nat)
    requires k > 0
    ensures (a + 1) % k == if a % k + 1 == k then 0 else a % k + 1
  {
    var q, r := a / k, a % k;
    assert a == q * k + r;
    if r + 1 == k {
      Arithmetic.Increment(q, k);
      Arithmetic.QuotientIs(a + 1, k, q + 1, 0);
    } else {
      Arithmetic.QuotientIs(a + 1, k, q, r + 1);
    }
  }

  lemma {:induction false} TakenGrows(o: Options, m: nat, n: nat)
    requires m <= n
    ensures m - Held(o, m) <= n - Held(o, n)
    decreases n
  {
    if m < n { TakenGrows(o, m, n - 1); }
  }

  lemma {:induction false} HeldAtLeast(o: Options, n: nat)
    ensures Held(o, n) >= if n < o.min then n else o.min
  {
    if n > 0 { HeldAtLeast(o, n - 1); }
  }

  // ----- when the order is right -----

  ghost predicate Distinct(trace: seq<Inst>) {
    forall i, j :: 0 <= i < j < |trace| ==> trace[i].sn != trace[j].sn
  }

  /** No instruction comes after more instructions have been taken out than should go before it. */
  ghost predicate InTime(o: Options, trace: seq<Inst>) {
    forall i :: 0 <= i < |trace| ==> i - Held(o, i) <= Below(trace, trace[i].sn)
  }

  /** What is taken out is ahead of everything else. */
  ghost predicate Ahead(a: seq<Inst>, b: seq<Inst>) {
    forall i, j :: 0 <= i < |a| && 0 <= j < |b| ==> a[i].sn < b[j].sn
  }

  ghost predicate Accounts(b: Buffer, come: seq<Inst>) {
    && multiset(b.taken) + multiset(b.queue) == multiset(come)
    && forall v :: Below(b.taken, v) + Below(b.queue, v) == Below(come, v)
  }

  lemma PrintAccounts(b: Buffer, lower: nat, come: seq<Inst>)
    requires Accounts(b, come)
    ensures Accounts(Print(b, lower), come)
  {
    PrintPermutes(b, lower);
    forall v { PrintBelow(b, lower, v); }
  }

  lemma PrintPermutes(b: Buffer, lower: nat)
    ensures var t := Print(b, lower); multiset(t.taken) + multiset(t.queue) == multiset(b.taken) + multiset(b.queue)
  {
    var s := Sort(b.queue);
    SortSorts(b.queue);
    SplitMultiset(s, if |s| > lower then |s| - lower else 0);
  }

  lemma SplitMultiset(s: seq<Inst>, k: nat)
    requires k <= |s|
    ensures multiset(s[..k]) + multiset(s[k..]) == multiset(s)
  {
    assert s == s[..k] + s[k..];
  }

  lemma PrintBelow(b: Buffer, lower: nat, v: nat)
    ensures var t := Print(b, lower); Below(t.taken, v) + Below(t.queue, v) == Below(b.taken, v) + Below(b.queue, v)
  {
    var s := Sort(b.queue);
    SortBelow(b.queue, v);
    SplitBelow(b.taken, s, if |s| > lower then |s| - lower else 0, v);
  }

  lemma SplitBelow(a: seq<Inst>, s: seq<Inst>, k: nat, v: nat)
    requires k <= |s|
    ensures Below(a + s[..k], v) + Below(s[k..], v) == Below(a, v) + Below(s, v)
  {
    BelowAppend(a, s[..k], v);
    BelowAppend(s[..k], s[k..], v);
    assert s == s[..k] + s[k..];
  }

  lemma {:induction false} FillAccounts(o: Options, trace: seq<Inst>)
    ensures Accounts(Fill(o, trace), trace)
  {
    if trace != [] {
      var n := |trace| - 1;
      FillAccounts(o, trace[..n]);
      var b := Fill(o, trace[..n]);
      var c := b.(queue := b.queue + [trace[n]]);
      assert trace == trace[..n] + [trace[n]];
      forall v ensures Below(c.taken, v) + Below(c.queue, v) == Below(trace, v) {
        BelowAppend(b.queue, [trace[n]], v);
        BelowAppend(trace[..n], [trace[n]], v);
      }
      if |c.queue| > o.max { PrintAccounts(c, o.min, trace); }
    }
  }

  /** Every instruction comes out exactly once. */
  lemma OutputPermutes(o: Options, trace: seq<Inst>)
    ensures multiset(Output(o, trace)) == multiset(trace)
    ensures forall v :: Below(Output(o, trace), v) == Below(trace, v)
  {
    FillAccounts(o, trace);
    PrintAccounts(Fill(o, trace), 0, trace);
    assert Print(Fill(o, trace), 0).queue == [];
  }

  /** The instruction with the least number among those still to come. */
  lemma {:induction false} Earliest(rest: seq<Inst>) returns (k: nat)
    requires rest != []
    ensures k < |rest| && Below(rest, rest[k].sn) == 0 && forall i :: 0 <= i < |rest| ==> rest[k].sn <= rest[i].sn
  {
    var n := |rest| - 1;
    k := n;
    if n > 0 {
      var j := Earliest(rest[..n]);
      if rest[j].sn <= rest[n].sn { k := j; }
    }
    NoneBelow(rest, rest[k].sn);
  }

  lemma {:induction false} NoneBelow(s: seq<Inst>, v: nat)
    requires forall i :: 0 <= i < |s| ==> v <= s[i].sn
    ensures Below(s, v) == 0
  {
    if s != [] { NoneBelow(s[..|s| - 1], v); }
  }

  /** In an ascending sequence, at most `j` instructions are below one that is at most the one at `j`. */
  lemma {:induction false} BelowAtMost(s: seq<Inst>, j: nat, v: nat)
    requires Ascending(s) && j < |s| && v <= s[j].sn
    ensures Below(s, v) <= j
  {
    assert s == s[..j] + s[j..];
    BelowAppend(s[..j], s[j..], v);
    NoneBelow(s[j..], v);
  }

  ghost predicate Ordered(b: Buffer, rest: seq<Inst>) {
    Increasing(b.taken) && Ahead(b.taken, b.queue) && Ahead(b.taken, rest)
  }

  /** What is taken out of a buffer is ahead of what is still to come, if that is in time. */
  lemma TakenAhead(b: Buffer, lower: nat, come: seq<Inst>, rest: seq<Inst>, all: seq<Inst>)
    requires Accounts(b, come) && Ordered(b, rest) && all == come + rest
    requires forall i :: 0 <= i < |rest| ==> |Print(b, lower).taken| <= Below(all, rest[i].sn)
    ensures Ahead(Print(b, lower).taken, rest)
  {
    var s, t := Sort(b.queue), Print(b, lower);
    var k := if |s| > lower then |s| - lower else 0;
    SortSorts(b.queue);
    if rest != [] {
      var e := Earliest(rest);
      var v := rest[e].sn;
      assert |t.taken| <= Below(all, v);
      BelowAppend(come, rest, v);
      SortBelow(b.queue, v);
      forall j | 0 <= j < k ensures s[j].sn < v {
        if v <= s[j].sn { BelowAtMost(s, j, v); }
      }
      assert forall j :: 0 <= j < |t.taken| ==> t.taken[j].sn < v;
    }
  }

  lemma {:induction false} OneAt(s: seq<Inst>, v: nat)
    requires Distinct(s)
    ensures Below(s, v + 1) <= Below(s, v) + 1
  {
    var n := |s| - 1;
    if s != [] {
      if s[n].sn == v { NoneAt(s[..n], v); } else { OneAt(s[..n], v); }
    }
  }

  lemma {:induction false} NoneAt(s: seq<Inst>, v: nat)
    requires forall i :: 0 <= i < |s| ==> s[i].sn != v
    ensures Below(s, v + 1) == Below(s, v)
  {
    if s != [] { NoneAt(s[..|s| - 1], v); }
  }

  lemma {:induction false} SomeAt(s: seq<Inst>, i: nat)
    requires i < |s|
    ensures Below(s, s[i].sn + 1) >= Below(s, s[i].sn) + 1
  {
    var n, v := |s| - 1, s[i].sn;
    if i < n { SomeAt(s[..n], i); } else { BelowMore(s[..n], v); }
  }

  lemma {:induction false} BelowMore(s: seq<Inst>, v: nat)
    ensures Below(s, v) <= Below(s, v + 1)
  {
    if s != [] { BelowMore(s[..|s| - 1], v); }
  }

  lemma {:induction false} TwoAt(s: seq<Inst>, i: nat, j: nat)
    requires i < j < |s| && s[i].sn == s[j].sn
    ensures Below(s, s[i].sn + 1) >= Below(s, s[i].sn) + 2
  {
    var n := |s| - 1;
    if j < n { TwoAt(s[..n], i, j); } else { SomeAt(s[..n], i); }
  }

  /** Part of a trace without repetitions, once sorted, is increasing. */
  lemma DistinctSorted(s: seq<Inst>, others: seq<Inst>, come: seq<Inst>)
    requires Ascending(s) && Distinct(come)
    requires forall v :: Below(others, v) + Below(s, v) == Below(come, v)
    ensures Increasing(s)
  {
    forall i, j | 0 <= i < j < |s| ensures s[i].sn < s[j].sn {
      var v := s[i].sn;
      OneAt(come, v);
      BelowMore(others, v);
      assert Below(s, v + 1) <= Below(s, v) + 1;
      if s[j].sn == v { TwoAt(s, i, j); }
    }
  }

  lemma SortedIncreasing(b: Buffer, come: seq<Inst>)
    requires Accounts(b, come) && Distinct(come)
    ensures Increasing(Sort(b.queue)) && multiset(Sort(b.queue)) == multiset(b.queue)
  {
    SortSorts(b.queue);
    forall v ensures Below(b.taken, v) + Below(Sort(b.queue), v) == Below(come, v) { SortBelow(b.queue, v); }
    DistinctSorted(Sort(b.queue), b.taken, come);
  }

  lemma SortedAhead(b: Buffer, rest: seq<Inst>)
    requires Ordered(b, rest)
    ensures Ahead(b.taken, Sort(b.queue))
  {
    var s := Sort(b.queue);
    SortSorts(b.queue);
    forall i, j | 0 <= i < |b.taken| && 0 <= j < |s| ensures b.taken[i].sn < s[j].sn {
      assert s[j] in multiset(b.queue);
      assert s[j] in b.queue;
    }
  }

  lemma PrintOrdered(b: Buffer, lower: nat, come: seq<Inst>, rest: seq<Inst>, all: seq<Inst>)
    requires Accounts(b, come) && Ordered(b, rest) && Distinct(come) && all == come + rest
    requires forall i :: 0 <= i < |rest| ==> |Print(b, lower).taken| <= Below(all, rest[i].sn)
    ensures Ordered(Print(b, lower), rest)
  {
    var s := Sort(b.queue);
    TakenAhead(b, lower, come, rest, all);
    SortedIncreasing(b, come);
    SortedAhead(b, rest);
    SplitOrdered(b.taken, s, if |s| > lower then |s| - lower else 0);
  }

  lemma SplitOrdered(a: seq<Inst>, s: seq<Inst>, k: nat)
    requires Increasing(a) && Increasing(s) && Ahead(a, s) && k <= |s|
    ensures Increasing(a + s[..k]) && Ahead(a + s[..k], s[k..])
  {
  }

  lemma {:induction false} FillOrdered(o: Options, trace: seq<Inst>, come: seq<Inst>, rest: seq<Inst>)
    requires Distinct(trace) && InTime(o, trace) && trace == come + rest
    ensures Ordered(Fill(o, come), rest)
    decreases |come|
  {
    if come != [] {
      var before, x := come[..|come| - 1], come[|come| - 1];
      assert come == before + [x] && trace == before + ([x] + rest);
      FillOrdered(o, trace, before, [x] + rest);
      ArriveOrdered(o, trace, before, x, rest);
    }
  }

  lemma ArriveOrdered(o: Options, trace: seq<Inst>, before: seq<Inst>, x: Inst, rest: seq<Inst>)
    requires Distinct(trace) && InTime(o, trace) && trace == before + [x] + rest
    requires Ordered(Fill(o, before), [x] + rest)
    ensures Ordered(Arrive(o, Fill(o, before), x), rest)
  {
    var b := Fill(o, before);
    var c := b.(queue := b.queue + [x]);
    QueuedAhead(b, x, rest);
    if |c.queue| > o.max { PrintInTime(o, trace, before, x, rest, c); }
  }

  lemma PrintInTime(o: Options, trace: seq<Inst>, before: seq<Inst>, x: Inst, rest: seq<Inst>, c: Buffer)
    requires Distinct(trace) && InTime(o, trace) && trace == before + [x] + rest
    requires var b := Fill(o, before); c == b.(queue := b.queue + [x])
    requires |c.queue| > o.max && Ordered(c, rest)
    ensures Ordered(Print(c, o.min), rest)
  {
    var come := before + [x];
    FillAccounts(o, before);
    ArrivedAccounts(Fill(o, before), before, x);
    assert come[..|before|] == before;
    HeldIs(o, come);
    StillInTime(o, trace, come, rest);
    DistinctPart(trace, come, rest);
    PrintOrdered(c, o.min, come, rest, trace);
  }

  lemma DistinctPart(trace: seq<Inst>, come: seq<Inst>, rest: seq<Inst>)
    requires Distinct(trace) && trace == come + rest
    ensures Distinct(come)
  {
    assert forall i :: 0 <= i < |come| ==> come[i] == trace[i];
  }

  lemma StillInTime(o: Options, trace: seq<Inst>, come: seq<Inst>, rest: seq<Inst>)
    requires InTime(o, trace) && trace == come + rest
    ensures forall i :: 0 <= i < |rest| ==> |come| - Held(o, |come|) <= Below(trace, rest[i].sn)
  {
    forall i | 0 <= i < |rest| ensures |come| - Held(o, |come|) <= Below(trace, rest[i].sn) {
      assert rest[i] == trace[|come| + i];
      TakenGrows(o, |come|, |come| + i);
    }
  }

  lemma QueuedAhead(b: Buffer, x: Inst, rest: seq<Inst>)
    requires Ordered(b, [x] + rest)
    ensures Ordered(b.(queue := b.queue + [x]), rest)
  {
    var all := [x] + rest;
    forall i, j | 0 <= i < |b.taken| && 0 <= j < |rest| ensures b.taken[i].sn < rest[j].sn {
      assert b.taken[i].sn < all[j + 1].sn;
    }
    forall i | 0 <= i < |b.taken| ensures b.taken[i].sn < x.sn {
      assert b.taken[i].sn < all[0].sn;
    }
  }

  lemma ArrivedAccounts(b: Buffer, come: seq<Inst>, x: Inst)
    requires Accounts(b, come)
    ensures Accounts(b.(queue := b.queue + [x]), come + [x])
  {
    forall v ensures Below(b.taken, v) + Below(b.queue + [x], v) == Below(come + [x], v) {
      BelowAppend(b.queue, [x], v);
      BelowAppend(come, [x], v);
    }
  }

  lemma InTimeOrders(o: Options, trace: seq<Inst>)
    requires Distinct(trace) && InTime(o, trace)
    ensures Increasing(Output(o, trace))
  {
    assert trace + [] == trace;
    FillOrdered(o, trace, trace, []);
    FillAccounts(o, trace);
    PrintOrdered(Fill(o, trace), 0, trace, [], trace);
  }

  /** In an increasing sequence, as many instructions are below another as come before it. */
  lemma {:induction false} BelowIsIndex(s: seq<Inst>, k: nat)
    requires Increasing(s) && k < |s|
    ensures Below(s, s[k].sn) == k
  {
    assert s == s[..k] + s[k..];
    BelowAppend(s[..k], s[k..], s[k].sn);
    NoneBelow(s[k..], s[k].sn);
    AllBelow(s[..k], s[k].sn);
  }

  lemma {:induction false} AllBelow(s: seq<Inst>, v: nat)
    requires forall i :: 0 <= i < |s| ==> s[i].sn < v
    ensures Below(s, v) == |s|
  {
    if s != [] { AllBelow(s[..|s| - 1], v); }
  }

  /** What has been taken out stays. */
  lemma {:induction false} TakenStays(o: Options, trace: seq<Inst>, n: nat)
    requires n <= |trace|
    ensures Fill(o, trace[..n]).taken <= Fill(o, trace).taken <= Output(o, trace)
    decreases |trace|
  {
    var m := |trace| - 1;
    if n <= m {
      assert trace[..m][..n] == trace[..n];
      TakenStays(o, trace[..m], n);
    } else {
      assert trace[..n] == trace;
    }
  }

  lemma OrderedInTime(o: Options, trace: seq<Inst>, i: nat)
    requires Distinct(trace) && i < |trace| && Increasing(Output(o, trace))
    ensures i - Held(o, i) <= Below(trace, trace[i].sn)
  {
    var out, x, taken := Output(o, trace), trace[i], Fill(o, trace[..i]).taken;
    TakenStays(o, trace, i);
    HeldIs(o, trace[..i]);
    OutputPermutes(o, trace);
    assert x in multiset(trace);
    assert x in multiset(out);
    var k: nat :| k < |out| && out[k] == x;
    BelowIsIndex(out, k);
    FillAccounts(o, trace[..i]);
    forall m | 0 <= m < |taken| ensures out[m] != x {
      assert out[m] == taken[m] && taken[m] in multiset(taken);
      assert taken[m] in multiset(trace[..i]);
      assert taken[m] in trace[..i];
    }
  }

  /** The instructions come out in the order of their numbers exactly when each of them comes in time. */
  lemma OrderedIff(o: Options, trace: seq<Inst>)
    requires Distinct(trace)
    ensures Increasing(Output(o, trace)) <==> InTime(o, trace)
  {
    if InTime(o, trace) { InTimeOrders(o, trace); }
    if Increasing(Output(o, trace)) {
      forall i | 0 <= i < |trace| ensures i - Held(o, i) <= Below(trace, trace[i].sn) {
        OrderedInTime(o, trace, i);
      }
    }
  }

  /** That is so, for any thresholds, if no instruction comes more than `min` places after its place in the
      right order. */
  lemma NotTooLate(o: Options, trace: seq<Inst>)
    requires Distinct(trace) && forall i :: 0 <= i < |trace| ==> i <= Below(trace, trace[i].sn) + o.min
    ensures Increasing(Output(o, trace)) && multiset(Output(o, trace)) == multiset(trace)
  {
    forall i | 0 <= i < |trace| ensures i - Held(o, i) <= Below(trace, trace[i].sn) {
      HeldAtLeast(o, i);
    }
    OrderedIff(o, trace);
    OutputPermutes(o, trace);
  }

  // ----- printing -----

  predicate Shown(o: Options, x: Inst) {
    && (o.snStart > 0 ==> x.sn >= o.snStart) && (o.snStop > 0 ==> x.sn <= o.snStop)
    && (o.tickStart > 0 ==> x.fetch >= o.tickStart) && (o.tickStop > 0 ==> x.fetch <= o.tickStop)
    && (o.onlyCommitted ==> x.retire != 0)
  }

  function Select(o: Options, s: seq<Inst>): (r: seq<Inst>) {
    if s == [] then []
    else Select(o, s[..|s| - 1]) + if Shown(o, s[|s| - 1]) then [s[|s| - 1]] else []
  }

  lemma SelectLast(o: Options, s: seq<Inst>, x: Inst)
    requires s != []
    ensures var front, last := s[..|s| - 1], s[|s| - 1];
      && multiset(s)[x] == multiset(front)[x] + (if x == last then 1 else 0)
      && multiset(Select(o, s))[x] == multiset(Select(o, front))[x] + if x == last && Shown(o, last) then 1 else 0
  {
    assert s == s[..|s| - 1] + [s[|s| - 1]];
  }

  /** What is printed: just the instructions from the first to the last sequence number and tick asked for, if any,
      and only those that completed, if so asked, ... */
  lemma {:induction false} SelectIs(o: Options, s: seq<Inst>, x: Inst)
    ensures multiset(Select(o, s))[x] == if
      && (o.snStart == 0 || o.snStart <= x.sn) && (o.snStop == 0 || x.sn <= o.snStop)
      && (o.tickStart == 0 || o.tickStart <= x.fetch) && (o.tickStop == 0 || x.fetch <= o.tickStop)
      && (!o.onlyCommitted || x.retire > 0)
      then multiset(s)[x] else 0
  {
    if s != [] {
      SelectIs(o, s[..|s| - 1], x);
      SelectLast(o, s, x);
    }
  }

  lemma {:induction false} SelectWithin(o: Options, s: seq<Inst>)
    ensures forall x :: x in Select(o, s) ==> x in s
  {
    if s != [] { SelectWithin(o, s[..|s| - 1]); }
  }

  /** ... in the order in which they are taken out. */
  lemma {:induction false} SelectInOrder(o: Options, s: seq<Inst>)
    requires Increasing(s)
    ensures Increasing(Select(o, s))
  {
    if s != [] {
      var front, last := s[..|s| - 1], s[|s| - 1];
      var r := Select(o, front);
      SelectInOrder(o, front);
      SelectWithin(o, front);
      forall i | 0 <= i < |r| ensures r[i].sn < last.sn {
        assert r[i] in front;
        var j :| 0 <= j < |front| && front[j] == r[i];
        assert s[j] == r[i];
      }
    }
  }

  class ReorderBuffer {
    const o: Options
    var queue: seq<Inst>
    var printed: seq<Inst>
    ghost var taken: seq<Inst>

    constructor (o: Options)
      ensures this.o == o && queue == [] && printed == [] && taken == []
    {
      this.o := o;
      queue, printed, taken := [], [], [];
    }

    method SortQueue()
      modifies `queue
      ensures queue == Sort(old(queue))
    {
      var s, r := queue, [];
      for i := 0 to |s|
        invariant r == Sort(s[..i])
      {
        assert s[..i + 1][..i] == s[..i];
        r := InsertOne(r, s[i]);
      }
      assert s[..|s|] == s;
      queue := r;
    }

    method InsertOne(s: seq<Inst>, x: Inst) returns (r: seq<Inst>)
      ensures r == Insert(s, x)
    {
      var i := |s|;
      assert s[..i] == s && s[i..] == [];
      while i > 0 && s[i - 1].sn > x.sn
        invariant 0 <= i <= |s|
        invariant Insert(s, x) == Insert(s[..i], x) + s[i..]
      {
        assert s[..i][..i - 1] == s[..i - 1];
        assert [s[i - 1]] + s[i..] == s[i - 1..];
        i := i - 1;
      }
      r := s[..i] + [x] + s[i..];
    }

    method PrintInsts(lower: nat)
      modifies `queue, `printed, `taken
      ensures Buffer(queue, taken) == Print(Buffer(old(queue), old(taken)), lower)
      ensures printed == old(printed) + Select(o, taken[|old(taken)|..])
    {
      SortQueue();
      ghost var s := queue;
      ghost var k: nat := 0;
      while |queue| > lower
        invariant k <= |s| && queue == s[k..] && taken == old(taken) + s[..k]
        invariant k <= if |s| > lower then |s| - lower else 0
        invariant printed == old(printed) + Select(o, s[..k])
      {
        PrintOne(queue[0]);
        queue := queue[1..];
        taken := taken + [s[k]];
        assert s[..k + 1] == s[..k] + [s[k]] && s[..k + 1][..k] == s[..k];
        k := k + 1;
      }
      assert taken[|old(taken)|..] == s[..k];
    }

    /** Prints an instruction unless it is filtered out. */
    method PrintOne(item: Inst)
      modifies `printed
      ensures printed == old(printed) + if Shown(o, item) then [item] else []
    {
      if o.snStart > 0 && item.sn < o.snStart { return; }
      if o.snStop > 0 && item.sn > o.snStop { return; }
      if o.tickStart > 0 && item.fetch < o.tickStart { return; }
      if o.tickStop > 0 && item.fetch > o.tickStop { return; }
      if o.onlyCommitted && item.retire == 0 { return; }
      printed := printed + [item];
    }

    method QueueInst(inst: Inst)
      modifies `queue, `printed, `taken
      ensures Buffer(queue, taken) == Arrive(o, Buffer(old(queue), old(taken)), inst)
      ensures |old(taken)| <= |taken| && printed == old(printed) + Select(o, taken[|old(taken)|..])
    {
      queue := queue + [inst];
      if |queue| > o.max { PrintInsts(o.min); }
      assert taken[|taken|..] == [];
    }

    /** Runs a trace to its end. */
    method ProcessTrace(trace: seq<Inst>)
      requires queue == [] && printed == [] && taken == []
      modifies `queue, `printed, `taken
      ensures queue == [] && printed == Select(o, Output(o, trace))
    {
      for i := 0 to |trace|
        invariant Buffer(queue, taken) == Fill(o, trace[..i]) && printed == Select(o, taken)
      {
        assert trace[..i + 1][..i] == trace[..i];
        ghost var before := taken;
        QueueInst(trace[i]);
        SelectAppend(o, before, taken[|before|..]);
        FillStep(o, trace, i);
        assert before + taken[|before|..] == taken;
      }
      assert trace[..|trace|] == trace;
      ghost var before := taken;
      PrintInsts(0);
      SelectAppend(o, before, taken[|before|..]);
      assert before + taken[|before|..] == taken;
    }
  }

  lemma FillStep(o: Options, trace: seq<Inst>, i: nat)
    requires i < |trace|
    ensures Fill(o, trace[..i + 1]) == Arrive(o, Fill(o, trace[..i]), trace[i])
    ensures Fill(o, trace[..i]).taken <= Fill(o, trace[..i + 1]).taken
  {
    assert trace[..i + 1][..i] == trace[..i];
  }

  lemma {:induction false} SelectAppend(o: Options, a: seq<Inst>, b: seq<Inst>)
    ensures Select(o, a + b) == Select(o, a) + Select(o, b)
  {
    if b == [] {
      assert a + b == a;
    } else {
      assert (a + b)[..|a + b| - 1] == a + b[..|b| - 1];
      SelectAppend(o, a, b[..|b| - 1]);
    }
  }
}
