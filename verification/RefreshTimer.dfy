/** When the refresh pulses of each bank group come. */
module RefreshTimers {
  import opened Arithmetic
  import opened Refreshes

  /** Every row is refreshed once per `tREFW` cycles, `refreshRows` rows at a time. */
  datatype Timing = Timing(tREFW: nat, rows: nat, refreshRows: nat, start: nat)

  predicate Divides(l: Groups, t: Timing) {
    Proper(l) && t.refreshRows > 0 && t.rows / t.refreshRows > 0
  }

  /** The number of pulses a group needs per refresh window. */
  function PulsesPerWindow(t: Timing): (r: nat)
    requires t.refreshRows > 0
  {
    t.rows / t.refreshRows
  }

  function Interval(l: Groups, t: Timing): (r: nat)
    requires Divides(l, t)
  {
    t.tREFW / PulsesPerWindow(t)
  }

  lemma CountPositive(l: Groups)
    requires Proper(l)
    ensures Count(l) > 0
  {
  }

  /** The time between the pulses of one group and the next. */
  function Slice(l: Groups, t: Timing): (r: nat)
    requires Divides(l, t)
  {
    CountPositive(l);
    Interval(l, t) / Count(l)
  }

  /** The time of pulse `n` of group `g`. */
  function PulseAt(l: Groups, t: Timing, g: nat, n: nat): (r: nat)
    requires Divides(l, t)
  {
    t.start + Interval(l, t) + Times(g, Slice(l, t)) + Times(n, Interval(l, t))
  }

  /** In plain numbers: the interval is the window divided by the pulses it has to hold, the groups share it evenly,
      and the first pulse of the first group comes after one interval. */
  lemma PulseAtIs(l: Groups, t: Timing, g: nat, n: nat)
    requires Divides(l, t)
    ensures l.ranks * l.groups > 0
    ensures var interval := t.tREFW / (t.rows / t.refreshRows);
      PulseAt(l, t, g, n) == t.start + interval + g * (interval / (l.ranks * l.groups)) + n * interval
  {
    CountPositive(l);
    TimesIs(l.ranks, l.groups);
    TimesIs(g, Slice(l, t));
    TimesIs(n, Interval(l, t));
  }

  // ----- enough pulses -----

  lemma {:induction false} TimesAdd(m: nat, n: nat, k: nat)
    ensures Times(m + n, k) == Times(m, k) + Times(n, k)
    decreases m
  {
    if m > 0 { TimesAdd(m - 1, n, k); }
  }

  lemma {:induction false} FirstFrom(first: nat, step: nat, s: nat, n: nat) returns (m: nat)
    requires step > 0 && (n == 0 || first + Times(n - 1, step) < s)
    ensures n <= m && s <= first + Times(m, step) && (m == 0 || first + Times(m - 1, step) < s)
    decreases if s < first + Times(n, step) then 0 else s - first - Times(n, step) + 1
  {
    if s <= first + Times(n, step) { m := n; } else { m := FirstFrom(first, step, s, n + 1); }
  }

  /** In every window of `tREFW` cycles, from one interval before the first pulse of a group on, that group
      gets as many pulses as it takes to refresh all rows. */
  lemma EnoughPulses(l: Groups, t: Timing, g: nat, s: nat) returns (n: nat)
    requires Divides(l, t) && Interval(l, t) > 0 && PulseAt(l, t, g, 0) < s + Interval(l, t)
    ensures forall m :: n <= m < n + PulsesPerWindow(t) ==> s <= PulseAt(l, t, g, m) < s + t.tREFW
  {
    var step, first := Interval(l, t), PulseAt(l, t, g, 0);
    n := FirstFrom(first, step, s, 0);
    Fills(l, t);
    forall m | n <= m < n + PulsesPerWindow(t) ensures s <= PulseAt(l, t, g, m) < s + t.tREFW {
      TimesAdd(n, m - n, step);
      TimesOrder(m - n, PulsesPerWindow(t), step);
      if n > 0 { TimesAdd(n - 1, 1, step); }
    }
  }

  lemma Fills(l: Groups, t: Timing)
    requires Divides(l, t)
    ensures Times(PulsesPerWindow(t), Interval(l, t)) <= t.tREFW
  {
    TimesIs(PulsesPerWindow(t), Interval(l, t));
    Floor(t.tREFW, PulsesPerWindow(t), Interval(l, t));
  }

  // ----- one pulse at a time -----

  lemma SlicesFit(l: Groups, t: Timing)
    requires Divides(l, t)
    ensures Times(Count(l), Slice(l, t)) <= Interval(l, t)
  {
    CountPositive(l);
    TimesIs(Count(l), Slice(l, t));
    Floor(Interval(l, t), Count(l), Slice(l, t));
  }

  lemma NotBoth(l: Groups, t: Timing, g: nat, m: nat, h: nat, n: nat)
    requires Divides(l, t) && Slice(l, t) >= 1 && g < Count(l) && h < Count(l) && g != h && m <= n
    ensures PulseAt(l, t, g, m) != PulseAt(l, t, h, n)
  {
    SlicesFit(l, t);
    if m == n {
      if g < h { TimesOrder(g, h, Slice(l, t)); } else { TimesOrder(h, g, Slice(l, t)); }
    } else {
      TimesOrder(m, n, Interval(l, t));
      TimesOrder(g, Count(l), Slice(l, t));
    }
  }

  ghost predicate Staggered(l: Groups, t: Timing)
    requires Divides(l, t)
  {
    forall g: nat, m: nat, h: nat, n: nat :: g < Count(l) && h < Count(l) && g != h ==>
      PulseAt(l, t, g, m) != PulseAt(l, t, h, n)
  }

  /** No two groups ever pulse on the same cycle exactly when there is a cycle for each group in an interval
      (or only one group). */
  lemma StaggeredIff(l: Groups, t: Timing)
    requires Divides(l, t)
    ensures Staggered(l, t) <==> Slice(l, t) >= 1 || Count(l) == 1
  {
    CountPositive(l);
    if Slice(l, t) >= 1 {
      forall g: nat, m: nat, h: nat, n: nat | g < Count(l) && h < Count(l) && g != h
        ensures PulseAt(l, t, g, m) != PulseAt(l, t, h, n)
      {
        if m <= n { NotBoth(l, t, g, m, h, n); } else { NotBoth(l, t, h, n, g, m); }
      }
    } else if Count(l) > 1 {
      TimesIs(1, Slice(l, t));
      assert PulseAt(l, t, 0, 0) == PulseAt(l, t, 1, 0);
    }
  }

  // ----- the timers as they run -----

  datatype Pulsed = Pulsed(group: nat, at: nat)

  /** The pulse event waiting for each group, and the pulses so far. */
  datatype Timers = Timers(next: seq<nat>, now: nat, log: seq<Pulsed>)

  datatype Action = Fire(g: nat) | Pass

  /** What is due comes before the next cycle. */
  predicate CanAct(r: Timers, a: Action) {
    match a
    case Fire(g) => g < |r.next| && r.next[g] == r.now
    case Pass => forall g :: 0 <= g < |r.next| ==> r.next[g] > r.now
  }

  /** A pulse inserts the event of the next one, an interval later. */
  function Act(l: Groups, t: Timing, r: Timers, a: Action): (s: Timers)
    requires Divides(l, t) && CanAct(r, a)
  {
    match a
    case Fire(g) => r.(next := r.next[g := r.now + Interval(l, t)], log := r.log + [Pulsed(g, r.now)])
    case Pass => r.(now := r.now + 1)
  }

  predicate CanRun(l: Groups, t: Timing, r: Timers, actions: seq<Action>)
    requires Divides(l, t)
    decreases |actions|
  {
    actions == [] || (CanAct(r, actions[0]) && CanRun(l, t, Act(l, t, r, actions[0]), actions[1..]))
  }

  function Run(l: Groups, t: Timing, r: Timers, actions: seq<Action>): (s: Timers)
    requires Divides(l, t) && CanRun(l, t, r, actions)
    decreases |actions|
  {
    if actions == [] then r else Run(l, t, Act(l, t, r, actions[0]), actions[1..])
  }

  function Started(l: Groups, t: Timing): (r: Timers)
    requires Divides(l, t)
  {
    Timers(seq(Count(l), g requires 0 <= g < Count(l) => PulseAt(l, t, g, 0)), t.start, [])
  }

  /** The times at which a group has pulsed. */
  function TimesOf(log: seq<Pulsed>, g: nat): (r: seq<nat>) {
    if log == [] then []
    else
      var e := log[|log| - 1];
      TimesOf(log[..|log| - 1], g) + if e.group == g then [e.at] else []
  }

  /** The group has had its first pulses, and waits for the one after them. */
  ghost predicate OnTime(l: Groups, t: Timing, r: Timers, g: nat)
    requires Divides(l, t) && g < |r.next|
  {
    var times := TimesOf(r.log, g);
    && r.next[g] == PulseAt(l, t, g, |times|) && r.now <= r.next[g]
    && forall n :: 0 <= n < |times| ==> times[n] == PulseAt(l, t, g, n)
  }

  ghost predicate AllOnTime(l: Groups, t: Timing, r: Timers)
    requires Divides(l, t)
  {
    |r.next| == Count(l) && forall g :: 0 <= g < |r.next| ==> OnTime(l, t, r, g)
  }

  lemma ActOnTime(l: Groups, t: Timing, r: Timers, a: Action)
    requires Divides(l, t) && AllOnTime(l, t, r) && CanAct(r, a)
    ensures AllOnTime(l, t, Act(l, t, r, a))
  {
    var s := Act(l, t, r, a);
    forall g | 0 <= g < |s.next| ensures OnTime(l, t, s, g) {
      assert OnTime(l, t, r, g);
      if a.Fire? {
        assert s.log[..|r.log|] == r.log;
        if a.g == g { NextPulse(l, t, g, |TimesOf(r.log, g)|); }
      }
    }
  }

  lemma NextPulse(l: Groups, t: Timing, g: nat, n: nat)
    requires Divides(l, t)
    ensures PulseAt(l, t, g, n + 1) == PulseAt(l, t, g, n) + Interval(l, t)
  {
    TimesAdd(n, 1, Interval(l, t));
  }

  lemma {:induction false} RunOnTime(l: Groups, t: Timing, r: Timers, actions: seq<Action>)
    requires Divides(l, t) && AllOnTime(l, t, r) && CanRun(l, t, r, actions)
    ensures AllOnTime(l, t, Run(l, t, r, actions))
    decreases |actions|
  {
    if actions != [] {
      ActOnTime(l, t, r, actions[0]);
      RunOnTime(l, t, Act(l, t, r, actions[0]), actions[1..]);
    }
  }

  /** In every run of the timers, each pulse inserting the next, a group pulses at just the times given by
      `PulseAt`, and has done so up to the present. */
  lemma PulsesOnTime(l: Groups, t: Timing, actions: seq<Action>, g: nat)
    requires Divides(l, t) && CanRun(l, t, Started(l, t), actions) && g < Count(l)
    ensures var r := Run(l, t, Started(l, t), actions);
      var times := TimesOf(r.log, g);
      && (forall n :: 0 <= n < |times| ==> times[n] == PulseAt(l, t, g, n))
      && r.now <= PulseAt(l, t, g, |times|)
  {
    var r := Started(l, t);
    forall h | 0 <= h < |r.next| ensures OnTime(l, t, r, h) {}
    RunOnTime(l, t, r, actions);
    assert OnTime(l, t, Run(l, t, r, actions), g);
  }

  /** So in every run, in every window of `tREFW` cycles that is over, from one interval before its first
      pulse on, a group has pulsed often enough to refresh all rows. */
  lemma EveryWindowPulsed(l: Groups, t: Timing, actions: seq<Action>, g: nat, s: nat) returns (n: nat)
    requires Divides(l, t) && Interval(l, t) > 0 && CanRun(l, t, Started(l, t), actions) && g < Count(l)
    requires PulseAt(l, t, g, 0) < s + Interval(l, t) && s + t.tREFW <= Run(l, t, Started(l, t), actions).now
    ensures var times := TimesOf(Run(l, t, Started(l, t), actions).log, g);
      n + PulsesPerWindow(t) <= |times| &&
      forall m :: n <= m < n + PulsesPerWindow(t) ==> s <= times[m] < s + t.tREFW
  {
    n := EnoughPulses(l, t, g, s);
    PulsesOnTime(l, t, actions, g);
    var times, last := TimesOf(Run(l, t, Started(l, t), actions).log, g), n + PulsesPerWindow(t) - 1;
    assert PulseAt(l, t, g, last) < s + t.tREFW;
    if |times| <= last { TimesOrder(|times|, last, Interval(l, t)); }
  }

  // ----- setting the timers -----

  method Intervals(l: Groups, t: Timing) returns (interval: nat, slice: nat)
    requires Divides(l, t)
    ensures interval == Interval(l, t) && slice == Slice(l, t)
  {
    interval := t.tREFW / (t.rows / t.refreshRows);
    CountPositive(l);
    TimesIs(l.ranks, l.groups);
    slice := interval / (l.ranks * l.groups);
  }

  method Offset(i: nat, j: nat, groups: nat, slice: nat) returns (offset: nat)
    ensures offset == Times(Times(i, groups) + j, slice)
  {
    offset := (i * groups + j) * slice;
    TimesIs(i, groups);
    TimesIs(i * groups + j, slice);
  }

  /** The first pulse of each group, in the order of their numbers. */
  method FirstPulses(l: Groups, t: Timing) returns (pulses: seq<nat>)
    requires Divides(l, t)
    ensures |pulses| == Count(l)
    ensures forall g :: 0 <= g < |pulses| ==> pulses[g] == PulseAt(l, t, g, 0)
  {
    var interval, slice := Intervals(l, t);
    pulses := [];
    for i := 0 to l.ranks
      invariant |pulses| == Times(i, l.groups)
      invariant forall g :: 0 <= g < |pulses| ==> pulses[g] == PulseAt(l, t, g, 0)
    {
      for j := 0 to l.groups
        invariant |pulses| == Times(i, l.groups) + j
        invariant forall g :: 0 <= g < |pulses| ==> pulses[g] == PulseAt(l, t, g, 0)
      {
        var offset := Offset(i, j, l.groups, slice);
        pulses := pulses + [t.start + interval + offset];
      }
    }
  }
}
