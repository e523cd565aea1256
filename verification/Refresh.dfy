/** Counting refresh pulses per bank group, choosing the group to refresh next, and what every run of
    pulses and refreshes keeps. */
module Refreshes {
  import opened Arithmetic
  import opened QueueIds

  /** Groups are numbered rank by rank. A group needs a refresh from `threshold` pulses on. */
  datatype Groups = Groups(ranks: nat, groups: nat, threshold: nat)

  predicate Proper(l: Groups) {
    l.ranks > 0 && l.groups > 0 && l.threshold > 0
  }

  function Count(l: Groups): (r: nat) {
    Times(l.ranks, l.groups)
  }

  /** `nextRank` and `nextGroup` say where the next search starts. `pulsed` and `served` are the history:
      the groups of all pulses, and of all refreshes that were queued. */
  datatype Refresher = Refresher(
    counters: seq<nat>, nextRank: nat, nextGroup: nat, pulsed: seq<nat>, served: seq<nat>)

  predicate Sized(l: Groups, r: Refresher) {
    Proper(l) && |r.counters| == Count(l) && r.nextRank < l.ranks && r.nextGroup < l.groups
  }

  function Initial(l: Groups): (r: Refresher) {
    Refresher(seq(Count(l), _ => 0), 0, 0, [], [])
  }

  predicate Needs(l: Groups, counters: seq<nat>, g: nat) {
    g < |counters| && counters[g] >= l.threshold
  }

  // ----- searching -----

  function GroupNumber(l: Groups, rank: nat, group: nat): (r: nat) {
    Number(Place(rank, group), l.groups)
  }

  /** The group looked at in round `i`, position `k` of the search. */
  function Visit(l: Groups, nextRank: nat, nextGroup: nat, i: nat, k: nat): (r: nat) {
    GroupNumber(l, Wrap(nextRank + i, l.ranks), Wrap(nextGroup + k, l.groups))
  }

  datatype Found = Found(group: nat) | NotFound

  /** The first group met, from round `i` and position `k` on, that needs a refresh. */
  function Search(l: Groups, r: Refresher, i: nat, k: nat): (result: Found)
    requires i <= l.ranks && k <= l.groups
    decreases l.ranks - i, l.groups - k
  {
    if i == l.ranks then NotFound
    else if k == l.groups then Search(l, r, i + 1, 0)
    else if Needs(l, r.counters, Visit(l, r.nextRank, r.nextGroup, i, k)) then
      Found(Visit(l, r.nextRank, r.nextGroup, i, k))
    else Search(l, r, i, k + 1)
  }

  lemma {:induction false} SearchFinds(l: Groups, r: Refresher, i: nat, k: nat, a: nat, b: nat)
    requires i <= a < l.ranks && k <= l.groups && b < l.groups && (a == i ==> k <= b)
    requires Needs(l, r.counters, Visit(l, r.nextRank, r.nextGroup, a, b))
    ensures Search(l, r, i, k).Found?
    decreases l.ranks - i, l.groups - k
  {
    if k == l.groups {
      SearchFinds(l, r, i + 1, 0, a, b);
    } else if !Needs(l, r.counters, Visit(l, r.nextRank, r.nextGroup, i, k)) {
      SearchFinds(l, r, i, k + 1, a, b);
    }
  }

  lemma {:induction false} SearchNeeds(l: Groups, r: Refresher, i: nat, k: nat)
    requires i <= l.ranks && k <= l.groups
    ensures var f := Search(l, r, i, k); f.Found? ==> Needs(l, r.counters, f.group)
    decreases l.ranks - i, l.groups - k
  {
    if i < l.ranks {
      if k == l.groups {
        SearchNeeds(l, r, i + 1, 0);
      } else {
        SearchNeeds(l, r, i, k + 1);
      }
    }
  }

  /** The search succeeds exactly when some group needs a refresh, and it finds such a group. */
  lemma SearchIff(l: Groups, r: Refresher)
    requires Sized(l, r)
    ensures Search(l, r, 0, 0).Found? <==> exists g :: 0 <= g < |r.counters| && Needs(l, r.counters, g)
    ensures Search(l, r, 0, 0).Found? ==> Needs(l, r.counters, Search(l, r, 0, 0).group)
  {
    SearchNeeds(l, r, 0, 0);
    if g: nat :| g < |r.counters| && Needs(l, r.counters, g) {
      PlaceFits(g, l.groups, l.ranks);
      NumberOfPlace(g, l.groups);
      var p := PlaceOf(g, l.groups);
      var a := if r.nextRank <= p.row then p.row - r.nextRank else l.ranks - r.nextRank + p.row;
      var b := if r.nextGroup <= p.column then p.column - r.nextGroup else l.groups - r.nextGroup + p.column;
      SearchFinds(l, r, 0, 0, a, b);
    }
  }

  /** How far the search has to go from where it starts. */
  function Ahead(from: nat, to: nat, n: nat): (r: int) {
    if from <= to then to - from else n - from + to
  }

  lemma {:induction false} SearchFrom(l: Groups, r: Refresher, i: nat, k: nat, a: nat, b: nat)
    requires Sized(l, r) && i < l.ranks && k <= l.groups && a < l.ranks && b < l.groups
    requires i < a || (i == a && k <= b)
    requires Needs(l, r.counters, Visit(l, r.nextRank, r.nextGroup, a, b))
    ensures exists c: nat, d: nat ::
      c < l.ranks && d < l.groups && (c < a || (c == a && d <= b))
      && Search(l, r, i, k) == Found(Visit(l, r.nextRank, r.nextGroup, c, d))
    decreases l.ranks - i, l.groups - k
  {
    if k == l.groups {
      SearchFrom(l, r, i + 1, 0, a, b);
    } else if !Needs(l, r.counters, Visit(l, r.nextRank, r.nextGroup, i, k)) {
      SearchFrom(l, r, i, k + 1, a, b);
    } else {
      assert Search(l, r, i, k) == Found(Visit(l, r.nextRank, r.nextGroup, i, k));
    }
  }

  lemma Rank(l: Groups, r: Refresher, c: nat, d: nat)
    requires Sized(l, r) && c < l.ranks && d < l.groups
    ensures var p := PlaceOf(Visit(l, r.nextRank, r.nextGroup, c, d), l.groups);
      Ahead(r.nextRank, p.row, l.ranks) == c && Ahead(r.nextGroup, p.column, l.groups) == d
  {
    PlaceOfNumber(Place(Wrap(r.nextRank + c, l.ranks), Wrap(r.nextGroup + d, l.groups)), l.groups);
  }

  /** The group found is of the first rank, counted from where the search starts, in which some group needs a
      refresh, and the first such group there, counted from where the search starts in every rank. */
  lemma SearchNearest(l: Groups, r: Refresher, g: nat)
    requires Sized(l, r) && Needs(l, r.counters, g)
    ensures Search(l, r, 0, 0).Found?
    ensures var f, p := PlaceOf(Search(l, r, 0, 0).group, l.groups), PlaceOf(g, l.groups);
      var c, a := Ahead(r.nextRank, f.row, l.ranks), Ahead(r.nextRank, p.row, l.ranks);
      c < a || (c == a && Ahead(r.nextGroup, f.column, l.groups) <= Ahead(r.nextGroup, p.column, l.groups))
  {
    PlaceFits(g, l.groups, l.ranks);
    NumberOfPlace(g, l.groups);
    var p := PlaceOf(g, l.groups);
    var a, b := Ahead(r.nextRank, p.row, l.ranks), Ahead(r.nextGroup, p.column, l.groups);
    SearchFrom(l, r, 0, 0, a, b);
    var c: nat, d: nat :|
      c < l.ranks && d < l.groups && (c < a || (c == a && d <= b))
      && Search(l, r, 0, 0) == Found(Visit(l, r.nextRank, r.nextGroup, c, d));
    Rank(l, r, c, d);
  }

  // ----- steps -----

  function Pulse(r: Refresher, g: nat): (result: Refresher)
    requires g < |r.counters|
  {
    r.(counters := r.counters[g := r.counters[g] + 1], pulsed := r.pulsed + [g])
  }

  /** The search position moves on by one group from where it was, wherever the group served is. */
  function Serve(l: Groups, r: Refresher, g: nat): (result: Refresher)
    requires Needs(l, r.counters, g) && Proper(l)
  {
    var wrapped := r.nextGroup + 1 >= l.groups;
    r.(counters := r.counters[g := r.counters[g] - 1], served := r.served + [g],
       nextGroup := if wrapped then 0 else r.nextGroup + 1,
       nextRank := if wrapped then Next(r.nextRank, l.ranks) else r.nextRank)
  }

  function Next(rank: nat, ranks: nat): (r: nat) {
    if rank + 1 == ranks then 0 else rank + 1
  }

  /** The sum of all counters. */
  function Total(counters: seq<nat>): (r: nat) {
    if counters == [] then 0 else Total(counters[..|counters| - 1]) + counters[|counters| - 1]
  }

  lemma {:induction false} TotalUpdate(counters: seq<nat>, g: nat, x: nat)
    requires g < |counters|
    ensures Total(counters[g := x]) == Total(counters) - counters[g] + x
  {
    var n := |counters| - 1;
    if g == n {
      assert counters[g := x][..n] == counters[..n];
    } else {
      assert counters[g := x][..n] == counters[..n][g := x];
      TotalUpdate(counters[..n], g, x);
    }
  }

  /** Queueing a refresh lowers the sum of all counters. */
  lemma ServeLowers(l: Groups, r: Refresher, g: nat)
    requires Needs(l, r.counters, g) && Proper(l)
    ensures Total(Serve(l, r, g).counters) == Total(r.counters) - 1
  {
    TotalUpdate(r.counters, g, r.counters[g] - 1);
  }

  // ----- accounting -----

  function Occurrences(s: seq<nat>, g: nat): (r: nat) {
    if s == [] then 0 else Occurrences(s[..|s| - 1], g) + if s[|s| - 1] == g then 1 else 0
  }

  /** Each counter is the number of pulses minus the number of refreshes queued. */
  ghost predicate Accounted(r: Refresher) {
    forall g :: 0 <= g < |r.counters| ==> r.counters[g] + Occurrences(r.served, g) == Occurrences(r.pulsed, g)
  }

  lemma PulseAccounted(r: Refresher, g: nat)
    requires Accounted(r) && g < |r.counters|
    ensures Accounted(Pulse(r, g))
  {
  }

  lemma ServeAccounted(l: Groups, r: Refresher, g: nat)
    requires Accounted(r) && Needs(l, r.counters, g) && Proper(l)
    ensures Accounted(Serve(l, r, g))
  {
  }

  // ----- fairness -----

  /** The group the next search looks at first. */
  function Position(l: Groups, r: Refresher): (result: nat) {
    GroupNumber(l, r.nextRank, r.nextGroup)
  }

  function Distance(l: Groups, r: Refresher, g: nat): (result: int) {
    if Position(l, r) <= g then g - Position(l, r) else Count(l) - Position(l, r) + g
  }

  lemma PositionMoves(l: Groups, r: Refresher, g: nat)
    requires Sized(l, r) && Needs(l, r.counters, g)
    ensures var t := Serve(l, r, g);
      Sized(l, t) && Position(l, t) == if Position(l, r) + 1 == Count(l) then 0 else Position(l, r) + 1
  {
    NumberFits(Place(r.nextRank, r.nextGroup), l.groups, l.ranks);
    assert Times(r.nextRank + 1, l.groups) == l.groups + Times(r.nextRank, l.groups);
    if r.nextRank + 1 < l.ranks {
      TimesOrder(r.nextRank + 1, l.ranks, l.groups);
    }
  }

  lemma FirstWins(l: Groups, r: Refresher)
    requires Sized(l, r) && Needs(l, r.counters, Position(l, r))
    ensures Search(l, r, 0, 0) == Found(Position(l, r))
  {
  }

  datatype Event = PulseEvent(group: nat) | ServeEvent

  predicate Enabled(l: Groups, r: Refresher, e: Event) {
    match e
    case PulseEvent(g) => g < |r.counters|
    case ServeEvent => Search(l, r, 0, 0).Found?
  }

  ghost function Take(l: Groups, r: Refresher, e: Event): (result: Refresher)
    requires Sized(l, r) && Enabled(l, r, e)
  {
    match e
    case PulseEvent(g) => Pulse(r, g)
    case ServeEvent =>
      SearchIff(l, r);
      Serve(l, r, Search(l, r, 0, 0).group)
  }

  lemma TakeSized(l: Groups, r: Refresher, e: Event)
    requires Sized(l, r) && Enabled(l, r, e)
    ensures Sized(l, Take(l, r, e))
  {
    SearchIff(l, r);
    if e.ServeEvent? { PositionMoves(l, r, Search(l, r, 0, 0).group); }
  }

  ghost predicate CanRun(l: Groups, r: Refresher, events: seq<Event>)
    requires Sized(l, r)
    decreases |events|
  {
    events == [] ||
    (Enabled(l, r, events[0]) && (TakeSized(l, r, events[0]); CanRun(l, Take(l, r, events[0]), events[1..])))
  }

  ghost function Run(l: Groups, r: Refresher, events: seq<Event>): (t: Refresher)
    requires Sized(l, r) && CanRun(l, r, events)
    ensures Sized(l, t)
    decreases |events|
  {
    if events == [] then r else
      TakeSized(l, r, events[0]);
      Run(l, Take(l, r, events[0]), events[1..])
  }

  /** In every run each counter is the number of pulses minus the number of refreshes queued, so it never
      goes below zero. */
  lemma {:induction false} RunAccounted(l: Groups, r: Refresher, events: seq<Event>)
    requires Sized(l, r) && Accounted(r) && CanRun(l, r, events)
    ensures Accounted(Run(l, r, events))
    decreases |events|
  {
    if events != [] {
      var e := events[0];
      TakeSized(l, r, e);
      SearchIff(l, r);
      if e.ServeEvent? { ServeAccounted(l, r, Search(l, r, 0, 0).group); } else { PulseAccounted(r, e.group); }
      RunAccounted(l, Take(l, r, e), events[1..]);
    }
  }

  /** `g` needs a refresh whenever one is queued. */
  ghost predicate KeepsNeeding(l: Groups, r: Refresher, events: seq<Event>, g: nat)
    requires Sized(l, r) && CanRun(l, r, events)
    decreases |events|
  {
    events == [] ||
    ((events[0].ServeEvent? ==> Needs(l, r.counters, g)) &&
     (TakeSized(l, r, events[0]); KeepsNeeding(l, Take(l, r, events[0]), events[1..], g)))
  }

  lemma {:induction false} ServedGrows(l: Groups, r: Refresher, events: seq<Event>)
    requires Sized(l, r) && CanRun(l, r, events)
    ensures |r.served| <= |Run(l, r, events).served| && Run(l, r, events).served[..|r.served|] == r.served
    decreases |events|
  {
    if events != [] {
      TakeSized(l, r, events[0]);
      var t := Take(l, r, events[0]);
      ServedGrows(l, t, events[1..]);
      assert |r.served| <= |t.served| && t.served[..|r.served|] == r.served;
      var u := Run(l, t, events[1..]);
      assert u.served[..|r.served|] == u.served[..|t.served|][..|r.served|];
    }
  }

  /** A group that keeps needing a refresh is served within as many refreshes as there are groups. */
  lemma {:induction false} Fair(l: Groups, r: Refresher, events: seq<Event>, g: nat) returns (i: nat)
    requires Sized(l, r) && CanRun(l, r, events) && KeepsNeeding(l, r, events, g) && g < Count(l)
    requires |Run(l, r, events).served| > |r.served| + Distance(l, r, g)
    ensures |r.served| <= i <= |r.served| + Distance(l, r, g) < |r.served| + Count(l)
    ensures i < |Run(l, r, events).served| && Run(l, r, events).served[i] == g
    decreases |events|
  {
    NumberFits(Place(r.nextRank, r.nextGroup), l.groups, l.ranks);
    var e := events[0];
    TakeSized(l, r, e);
    var t := Take(l, r, e);
    if e.ServeEvent? {
      SearchIff(l, r);
      var f := Search(l, r, 0, 0).group;
      if f == g {
        ServedGrows(l, t, events[1..]);
        i := |r.served|;
        assert Run(l, t, events[1..]).served[..|t.served|][i] == t.served[i];
        return;
      }
      if Position(l, r) == g { FirstWins(l, r); }
      PositionMoves(l, r, f);
    }
    i := Fair(l, t, events[1..], g);
  }
}
