/** Several event queues, each in its own clock domain, driven by one global clock that is at least as
    fast as every local one. Frequencies are exact: a local cycle lasts `global / local` global cycles. */
module GlobalEventQueues {
  import opened EventQueues
  import opened Clocks

  /** The fixed part of the system: the global frequency, and per queue its frequency and recipients. */
  datatype Net = Net(frequency: nat, locals: seq<nat>, handlers: seq<Handler>)

  ghost predicate Proper(net: Net) {
    && |net.locals| == |net.handlers|
    && forall i :: 0 <= i < |net.locals| ==> 0 < net.locals[i] <= net.frequency && FutureOnly(net.handlers[i])
  }

  /** One dispatch, with the queue it came from. */
  datatype Stamp = Stamp(queue: nat, dispatch: Dispatch)

  datatype System = System(now: nat, queues: seq<Queue>, log: seq<Stamp>)

  ghost predicate Shaped(net: Net, s: System) {
    && Proper(net) && |s.queues| == |net.locals| && s.now < MAX_CYCLE
    && forall i :: 0 <= i < |s.queues| ==> WellFormed(s.queues[i]) && s.queues[i].now <= s.queues[i].next
  }

  function Time(net: Net, i: nat, cycle: nat): (r: nat)
    requires i < |net.locals| && 0 < net.locals[i]
  {
    ToGlobal(net.frequency, net.locals[i], cycle)
  }

  function LocalNow(net: Net, i: nat, now: nat): (r: nat)
    requires i < |net.locals| && 0 < net.locals[i] <= net.frequency
  {
    ToLocal(net.frequency, net.locals[i], now)
  }

  /** The clock of queue `i` is neither behind the global clock nor ahead of it, in either unit. */
  ghost predicate ClockInStep(net: Net, s: System, i: nat)
    requires Shaped(net, s) && i < |s.queues|
  {
    LocalNow(net, i, s.now) <= s.queues[i].now && Time(net, i, s.queues[i].now) <= s.now
  }

  ghost predicate InStep(net: Net, s: System)
    requires Shaped(net, s)
  {
    forall i :: 0 <= i < |s.queues| ==> ClockInStep(net, s, i)
  }

  ghost predicate StampedWithin(net: Net, log: seq<Stamp>, lo: nat, hi: nat)
    requires Proper(net)
  {
    forall k :: 0 <= k < |log| ==>
      log[k].queue < |net.locals| && lo <= Time(net, log[k].queue, log[k].dispatch.cycle) <= hi
  }

  ghost predicate NoneBefore(net: Net, s: System, t: nat)
    requires Shaped(net, s)
  {
    forall i {:trigger s.queues[i]} :: 0 <= i < |s.queues| ==> t <= Time(net, i, s.queues[i].next)
  }

  // ----- advancing one queue, and bringing all queues up to date -----

  function Stamps(i: nat, t: seq<Dispatch>): (r: seq<Stamp>) {
    seq(|t|, k requires 0 <= k < |t| => Stamp(i, t[k]))
  }

  ghost function Advanced(net: Net, s: System, i: nat, n: nat): (r: System)
    requires Shaped(net, s) && i < |s.queues| && s.queues[i].now + n < MAX_CYCLE
    ensures Shaped(net, r)
  {
    SkipTrace(s.queues[i], net.handlers[i], n);
    var q := Skip(s.queues[i], net.handlers[i], n);
    s.(queues := s.queues[i := q], log := s.log + Stamps(i, q.trace[|s.queues[i].trace|..]))
  }

  ghost function Synced(net: Net, s: System, i: nat): (r: System)
    requires Shaped(net, s) && i < |s.queues|
    ensures Shaped(net, r) && r.now == s.now
  {
    var target := LocalNow(net, i, s.now);
    LocalIsSlower(net.frequency, net.locals[i], s.now);
    if target > s.queues[i].now then Advanced(net, s, i, target - s.queues[i].now) else s
  }

  ghost function SyncedFrom(net: Net, s: System, i: nat): (r: System)
    requires Shaped(net, s) && i <= |s.queues|
    ensures Shaped(net, r) && r.now == s.now
    decreases |s.queues| - i
  {
    if i == |s.queues| then s else SyncedFrom(net, Synced(net, s, i), i + 1)
  }

  // ----- the log of the system and the traces of its queues -----

  /** The dispatches of queue `i` in the log of the whole system. */
  function Projected(log: seq<Stamp>, i: nat): (t: seq<Dispatch>) {
    if log == [] then [] else
      var st := log[|log| - 1];
      Projected(log[..|log| - 1], i) + if st.queue == i then [st.dispatch] else []
  }

  /** The log is an interleaving of the queues' own traces: nothing is left out, nothing added. */
  ghost predicate Logged(s: System) {
    forall i {:trigger s.queues[i]} :: 0 <= i < |s.queues| ==> Projected(s.log, i) == s.queues[i].trace
  }

  lemma {:induction false} ProjectedStamps(log: seq<Stamp>, j: nat, t: seq<Dispatch>, i: nat)
    ensures Projected(log + Stamps(j, t), i) == Projected(log, i) + if i == j then t else []
    decreases |t|
  {
    if t == [] {
      assert log + Stamps(j, t) == log;
    } else {
      var front, last := t[..|t| - 1], t[|t| - 1];
      assert log + Stamps(j, t) == log + Stamps(j, front) + [Stamp(j, last)];
      ProjectedStamps(log, j, front, i);
      assert t == front + [last];
    }
  }

  /** `r` comes from `q` by skipping ahead, if it has moved at all. */
  ghost predicate SkipsTo(q: Queue, h: Handler, r: Queue) {
    r == q || (WellFormed(q) && FutureOnly(h) && q.now <= r.now < MAX_CYCLE && r == Skip(q, h, r.now - q.now))
  }

  /** Every queue has skipped ahead, if it has moved at all. */
  ghost predicate Follows(net: Net, s: System, r: System) {
    && |s.queues| == |r.queues| == |net.handlers|
    && forall i {:trigger r.queues[i]} :: 0 <= i < |r.queues| ==> SkipsTo(s.queues[i], net.handlers[i], r.queues[i])
  }

  lemma SkipsToTwice(a: Queue, h: Handler, b: Queue, c: Queue)
    requires WellFormed(a) && FutureOnly(h) && a.now <= a.next && SkipsTo(a, h, b) && SkipsTo(b, h, c)
    ensures SkipsTo(a, h, c)
  {
    if a != b && b != c {
      var m, n := b.now - a.now, c.now - b.now;
      SkipSplits(a, h, m, n);
      assert c == Skip(a, h, m + n);
    }
  }

  lemma FollowsTwice(net: Net, a: System, b: System, c: System)
    requires Shaped(net, a) && Follows(net, a, b) && Follows(net, b, c)
    ensures Follows(net, a, c)
  {
    forall i {:trigger c.queues[i]} | 0 <= i < |c.queues| ensures SkipsTo(a.queues[i], net.handlers[i], c.queues[i]) {
      assert SkipsTo(a.queues[i], net.handlers[i], b.queues[i]);
      SkipsToTwice(a.queues[i], net.handlers[i], b.queues[i], c.queues[i]);
    }
  }

  lemma AdvancedLogged(net: Net, s: System, i: nat, n: nat)
    requires Shaped(net, s) && i < |s.queues| && s.queues[i].now + n < MAX_CYCLE && Logged(s)
    ensures Logged(Advanced(net, s, i, n))
  {
    var q, r := s.queues[i], Advanced(net, s, i, n);
    SkipTrace(q, net.handlers[i], n);
    var t := Skip(q, net.handlers[i], n).trace;
    forall j {:trigger r.queues[j]} | 0 <= j < |r.queues| ensures Projected(r.log, j) == r.queues[j].trace {
      ProjectedStamps(s.log, i, t[|q.trace|..], j);
      assert Projected(s.log, j) == s.queues[j].trace;
      assert q.trace + t[|q.trace|..] == t;
    }
  }

  lemma AdvancedFollows(net: Net, s: System, i: nat, n: nat)
    requires Shaped(net, s) && i < |s.queues| && s.queues[i].now + n < MAX_CYCLE
    ensures Follows(net, s, Advanced(net, s, i, n))
    ensures Logged(s) ==> Logged(Advanced(net, s, i, n))
  {
    if Logged(s) { AdvancedLogged(net, s, i, n); }
  }

  lemma SyncedStep(net: Net, s: System, i: nat)
    requires Shaped(net, s) && i < |s.queues|
    ensures Follows(net, s, Synced(net, s, i))
    ensures Logged(s) ==> Logged(Synced(net, s, i))
  {
    var n := LocalNow(net, i, s.now) - s.queues[i].now;
    LocalIsSlower(net.frequency, net.locals[i], s.now);
    if n > 0 { AdvancedFollows(net, s, i, n); }
  }

  lemma {:induction false} SyncedFollows(net: Net, s: System, i: nat)
    requires Shaped(net, s) && i <= |s.queues|
    ensures Follows(net, s, SyncedFrom(net, s, i))
    ensures Logged(s) ==> Logged(SyncedFrom(net, s, i))
    decreases |s.queues| - i
  {
    if i < |s.queues| {
      SyncedStep(net, s, i);
      SyncedFollows(net, Synced(net, s, i), i + 1);
      FollowsTwice(net, s, Synced(net, s, i), SyncedFrom(net, s, i));
    }
  }

  // ----- what a skip of one queue dispatches -----

  ghost predicate CyclesWithin(t: seq<Dispatch>, lo: nat, hi: nat) {
    forall k :: 0 <= k < |t| ==> lo <= t[k].cycle <= hi
  }

  lemma {:induction false} RunToTrace(q: Queue, h: Handler, target: nat)
    requires WellFormed(q) && FutureOnly(h) && target < MAX_CYCLE
    ensures var r := RunTo(q, h, target);
      && q.trace <= r.trace && q.next <= r.next
      && CyclesWithin(r.trace[|q.trace|..], q.next, target)
      && (target < q.next ==> r == q.(now := target))
    decreases target + 1 - q.next
  {
    if q.next <= target {
      RunToStep(q, h, target);
      var p := Processed(q.(now := q.next), h);
      ProcessedNext(q.(now := q.next), h);
      RunToTrace(p, h, target);
      JoinTraces(q.trace, p.trace, RunTo(q, h, target).trace, q.next, target);
    }
  }

  lemma JoinTraces(a: seq<Dispatch>, b: seq<Dispatch>, c: seq<Dispatch>, lo: nat, hi: nat)
    requires a <= b <= c && CyclesWithin(b[|a|..], lo, hi) && CyclesWithin(c[|b|..], lo, hi)
    ensures a <= c && CyclesWithin(c[|a|..], lo, hi)
  {
  }

  lemma SkipTrace(q: Queue, h: Handler, n: nat)
    requires WellFormed(q) && FutureOnly(h) && q.now + n < MAX_CYCLE && q.now <= q.next
    ensures var r := Skip(q, h, n);
      && q.trace <= r.trace && q.next <= r.next
      && CyclesWithin(r.trace[|q.trace|..], q.next, q.now + n)
      && (q.now + n < q.next ==> r == q.(now := q.now + n))
  {
    if n > 0 || q.next == q.now {
      SkipReaches(q, h, n, q.now + n);
      RunToTrace(q, h, q.now + n);
    } else {
      SkipNone(q, h);
    }
  }

  /** Skipping exactly to the next event processes that event's cycle and nothing else. */
  lemma SkipToNext(q: Queue, h: Handler)
    requires WellFormed(q) && FutureOnly(h) && q.now <= q.next < MAX_CYCLE
    ensures var r := Skip(q, h, q.next - q.now);
      && q.trace < r.trace && q.next < r.next && r.now == q.next
      && CyclesWithin(r.trace[|q.trace|..], q.next, q.next)
  {
    SkipTrace(q, h, q.next - q.now);
    SkipReaches(q, h, q.next - q.now, q.next);
    RunToExtends(q, h, q.next);
  }

  // ----- synchronising -----

  ghost predicate BeginAt(global: nat, local: nat, t: seq<Dispatch>, now: nat)
    requires 0 < local
  {
    forall k :: 0 <= k < |t| ==> ToGlobal(global, local, t[k].cycle) == now
  }

  /** Catching up with global cycle `now`, when nothing due before it is pending, dispatches only events of
      local cycles that begin in `now`. */
  lemma CatchUp(global: nat, local: nat, q: Queue, h: Handler, now: nat, n: nat)
    requires 0 < local <= global && WellFormed(q) && FutureOnly(h) && q.now <= q.next
    requires q.now + n == ToLocal(global, local, now) < MAX_CYCLE && now <= ToGlobal(global, local, q.next)
    ensures var r := Skip(q, h, n);
      && q.trace <= r.trace && q.next <= r.next
      && BeginAt(global, local, r.trace[|q.trace|..], now)
      && (now < ToGlobal(global, local, q.next) ==> r.trace == q.trace)
  {
    SkipTrace(q, h, n);
    Reached(global, local, q.next, now);
    var t := Skip(q, h, n).trace[|q.trace|..];
    forall k | 0 <= k < |t| ensures ToGlobal(global, local, t[k].cycle) == now {
      ToGlobalMonotone(global, local, q.next, t[k].cycle);
      Reached(global, local, t[k].cycle, now);
    }
  }

  /** Queue `i` has nothing due before the present, and its clock does not run ahead of it. */
  ghost predicate OnTime(net: Net, s: System, i: nat)
    requires Shaped(net, s) && i < |s.queues|
  {
    s.now <= Time(net, i, s.queues[i].next) && Time(net, i, s.queues[i].now) <= s.now
  }

  /** Nothing has happened except in queue `i`, and its next event has not become earlier. */
  ghost predicate Elsewhere(s: System, i: nat, r: System) {
    && |r.queues| == |s.queues| && s.log <= r.log
    && (i < |s.queues| ==> s.queues[i].next <= r.queues[i].next)
    && forall j {:trigger r.queues[j]} :: 0 <= j < |s.queues| && j != i ==> r.queues[j] == s.queues[j]
  }

  lemma SyncedElsewhere(net: Net, s: System, i: nat)
    requires Shaped(net, s) && i < |s.queues|
    ensures Elsewhere(s, i, Synced(net, s, i))
  {
  }

  /** What one queue's share of a synchronisation does, when nothing due before the present is pending:
      it is brought into step, and whatever it dispatches begins in the present global cycle. */
  lemma SyncedOne(net: Net, s: System, i: nat)
    requires Shaped(net, s) && i < |s.queues| && OnTime(net, s, i)
    ensures var r := Synced(net, s, i);
      && ClockInStep(net, r, i)
      && s.log <= r.log && StampedWithin(net, r.log[|s.log|..], s.now, s.now)
      && (s.now < Time(net, i, s.queues[i].next) ==> r.log == s.log)
  {
    var target, q := LocalNow(net, i, s.now), s.queues[i];
    LocalIsSlower(net.frequency, net.locals[i], s.now);
    Reached(net.frequency, net.locals[i], target, s.now);
    if target > q.now {
      CatchUp(net.frequency, net.locals[i], q, net.handlers[i], s.now, target - q.now);
      var t := Skip(q, net.handlers[i], target - q.now).trace[|q.trace|..];
      StampsBegin(net, i, t, s.now);
      assert (s.log + Stamps(i, t))[|s.log|..] == Stamps(i, t);
    }
  }

  lemma StampsBegin(net: Net, i: nat, t: seq<Dispatch>, now: nat)
    requires Proper(net) && i < |net.locals| && BeginAt(net.frequency, net.locals[i], t, now)
    ensures StampedWithin(net, Stamps(i, t), now, now)
  {
  }

  /** From queue `i` on, all are on time. */
  ghost predicate Timely(net: Net, s: System, i: nat)
    requires Shaped(net, s)
  {
    forall j :: i <= j < |s.queues| ==> OnTime(net, s, j)
  }

  ghost predicate Quiet(net: Net, s: System, i: nat)
    requires Shaped(net, s)
  {
    forall j {:trigger s.queues[j]} :: i <= j < |s.queues| ==> s.now < Time(net, j, s.queues[j].next)
  }

  ghost predicate NextsRise(s: System, r: System) {
    |s.queues| == |r.queues| &&
    forall j {:trigger r.queues[j]} :: 0 <= j < |s.queues| ==> s.queues[j].next <= r.queues[j].next
  }

  /** The log has grown by dispatches of one global cycle; by none if `quiet`. */
  ghost predicate LogGrown(net: Net, a: seq<Stamp>, b: seq<Stamp>, t: nat, quiet: bool)
    requires Proper(net)
  {
    a <= b && StampedWithin(net, b[|a|..], t, t) && (quiet ==> b == a)
  }

  lemma GrownTwice(net: Net, a: seq<Stamp>, b: seq<Stamp>, c: seq<Stamp>, t: nat, quiet: bool)
    requires Proper(net) && LogGrown(net, a, b, t, quiet) && LogGrown(net, b, c, t, quiet)
    ensures LogGrown(net, a, c, t, quiet)
  {
  }

  /** What queue `i`'s share of a synchronisation does to the clocks and the log. */
  ghost predicate Share(net: Net, s: System, i: nat, m: System)
    requires Shaped(net, s) && i < |s.queues|
  {
    && Shaped(net, m) && m.now == s.now && Elsewhere(s, i, m)
    && (ClockInStep(net, s, i) ==> m == s)
    && (OnTime(net, s, i) ==>
          && ClockInStep(net, m, i)
          && LogGrown(net, s.log, m.log, s.now, s.now < Time(net, i, s.queues[i].next)))
  }

  ghost predicate SyncsTo(net: Net, s: System, i: nat, r: System)
    requires Shaped(net, s) && i <= |s.queues|
    decreases |s.queues| - i
  {
    if i == |s.queues| then r == s else exists m :: Share(net, s, i, m) && SyncsTo(net, m, i + 1, r)
  }

  lemma SyncedShares(net: Net, s: System, i: nat)
    requires Shaped(net, s) && i < |s.queues|
    ensures Share(net, s, i, Synced(net, s, i))
  {
    SyncedElsewhere(net, s, i);
    if OnTime(net, s, i) { SyncedOne(net, s, i); }
  }

  lemma {:induction false} SyncedSyncs(net: Net, s: System, i: nat)
    requires Shaped(net, s) && i <= |s.queues|
    ensures SyncsTo(net, s, i, SyncedFrom(net, s, i))
    decreases |s.queues| - i
  {
    if i < |s.queues| {
      SyncedShares(net, s, i);
      SyncedSyncs(net, Synced(net, s, i), i + 1);
    }
  }

  lemma {:induction false} SyncShaped(net: Net, s: System, i: nat, r: System)
    requires Shaped(net, s) && i <= |s.queues| && SyncsTo(net, s, i, r)
    ensures Shaped(net, r) && r.now == s.now
    decreases |s.queues| - i
  {
    if i < |s.queues| {
      var m :| Share(net, s, i, m) && SyncsTo(net, m, i + 1, r);
      SyncShaped(net, m, i + 1, r);
    }
  }

  lemma {:induction false} SyncPrefix(net: Net, s: System, i: nat, j: nat, r: System)
    requires Shaped(net, s) && j < i <= |s.queues| && SyncsTo(net, s, i, r)
    ensures |r.queues| == |s.queues| && r.queues[j] == s.queues[j]
    decreases |s.queues| - i
  {
    if i < |s.queues| {
      var m :| Share(net, s, i, m) && SyncsTo(net, m, i + 1, r);
      SyncPrefix(net, m, i + 1, j, r);
    }
  }

  lemma SyncClock(net: Net, s: System, i: nat, j: nat, r: System)
    requires Shaped(net, s) && Shaped(net, r) && i <= j < |s.queues| == |r.queues| && r.now == s.now
    requires OnTime(net, s, j) && SyncsTo(net, s, i, r)
    ensures ClockInStep(net, r, j) && s.queues[j].next <= r.queues[j].next
    decreases |s.queues| - i
  {
    var m :| Share(net, s, i, m) && SyncsTo(net, m, i + 1, r);
    if i == j {
      SyncPrefix(net, m, j + 1, j, r);
    } else {
      assert m.queues[j] == s.queues[j];
      SyncClock(net, m, i + 1, j, r);
    }
  }

  lemma TimelyShare(net: Net, s: System, i: nat, m: System, quiet: bool)
    requires Shaped(net, s) && i < |s.queues| && Share(net, s, i, m)
    requires Timely(net, s, i) && (quiet ==> Quiet(net, s, i))
    ensures Timely(net, m, i + 1) && LogGrown(net, s.log, m.log, s.now, quiet)
    ensures quiet ==> Quiet(net, m, i + 1)
  {
    assert OnTime(net, s, i);
    assert quiet ==> s.now < Time(net, i, s.queues[i].next);
    forall j | i + 1 <= j < |m.queues| ensures OnTime(net, m, j) && m.queues[j] == s.queues[j] {
      assert OnTime(net, s, j);
    }
  }

  lemma {:induction false} SyncLog(net: Net, s: System, i: nat, r: System, quiet: bool)
    requires Shaped(net, s) && i <= |s.queues| && SyncsTo(net, s, i, r)
    requires Timely(net, s, i) && (quiet ==> Quiet(net, s, i))
    ensures LogGrown(net, s.log, r.log, s.now, quiet)
    decreases |s.queues| - i
  {
    if i < |s.queues| {
      var m :| Share(net, s, i, m) && SyncsTo(net, m, i + 1, r);
      TimelyShare(net, s, i, m, quiet);
      SyncLog(net, m, i + 1, r, quiet);
      GrownTwice(net, s.log, m.log, r.log, s.now, quiet);
    }
  }

  lemma {:induction false} SyncNone(net: Net, s: System, i: nat, r: System)
    requires Shaped(net, s) && i <= |s.queues| && InStep(net, s) && SyncsTo(net, s, i, r)
    ensures r == s
    decreases |s.queues| - i
  {
    if i < |s.queues| {
      var m :| Share(net, s, i, m) && SyncsTo(net, m, i + 1, r);
      assert ClockInStep(net, s, i);
      SyncNone(net, s, i + 1, r);
    }
  }

  /** Synchronising a system that is on time brings every clock into step; what it dispatches begins in the
      present global cycle, and it dispatches nothing if nothing is due. */
  lemma SyncAll(net: Net, s: System, r: System)
    requires Shaped(net, s) && Timely(net, s, 0) && SyncsTo(net, s, 0, r)
    ensures Shaped(net, r) && InStep(net, r) && NextsRise(s, r)
    ensures LogGrown(net, s.log, r.log, s.now, Quiet(net, s, 0))
  {
    SyncShaped(net, s, 0, r);
    forall j | 0 <= j < |r.queues| ensures ClockInStep(net, r, j) && s.queues[j].next <= r.queues[j].next {
      assert OnTime(net, s, j);
      SyncClock(net, s, 0, j, r);
    }
    SyncLog(net, s, 0, r, Quiet(net, s, 0));
  }

  lemma StampsJoin(net: Net, a: seq<Stamp>, b: seq<Stamp>, c: seq<Stamp>, lo: nat, hi: nat)
    requires Proper(net) && a <= b <= c
    requires StampedWithin(net, b[|a|..], lo, hi) && StampedWithin(net, c[|b|..], lo, hi)
    ensures StampedWithin(net, c[|a|..], lo, hi)
  {
  }

  // ----- what holds between any two calls -----

  /** The global cycle of a dispatch. */
  ghost function At(net: Net, st: Stamp): (t: nat)
    requires Proper(net)
  {
    if st.queue < |net.locals| then Time(net, st.queue, st.dispatch.cycle) else 0
  }

  ghost function LastTime(net: Net, log: seq<Stamp>): (t: nat)
    requires Proper(net)
  {
    if log == [] then 0 else At(net, log[|log| - 1])
  }

  /** The dispatches are in global order. */
  ghost predicate Chronological(net: Net, log: seq<Stamp>)
    requires Proper(net)
  {
    forall k, l :: 0 <= k < l < |log| ==> At(net, log[k]) <= At(net, log[l])
  }

  /** The local clocks are in step, the log is what the queues have dispatched, and none of it is ahead of
      the present. */
  ghost predicate Sound(net: Net, s: System) {
    Shaped(net, s) && InStep(net, s) && Logged(s) && StampedWithin(net, s.log, 0, s.now)
  }

  /** The dispatches so far are in global order, and nothing pending belongs before the last of them. */
  ghost predicate Ordered(net: Net, s: System)
    requires Shaped(net, s)
  {
    Chronological(net, s.log) && NoneBefore(net, s, LastTime(net, s.log))
  }

  /** `r` comes after `s`: every queue has skipped ahead, the log has grown, and order is not lost. */
  ghost predicate Progress(net: Net, s: System, r: System)
    requires Shaped(net, s)
  {
    Sound(net, r) && Follows(net, s, r) && s.log <= r.log && (Ordered(net, s) ==> Ordered(net, r))
  }

  lemma ProgressTwice(net: Net, a: System, b: System, c: System)
    requires Shaped(net, a) && Progress(net, a, b) && Progress(net, b, c)
    ensures Progress(net, a, c)
  {
    FollowsTwice(net, a, b, c);
  }

  lemma LogWithin(net: Net, a: seq<Stamp>, b: seq<Stamp>, now: nat, t: nat, later: nat)
    requires Proper(net) && a <= b && StampedWithin(net, a, 0, now) && StampedWithin(net, b[|a|..], t, t)
    requires now <= later && t <= later
    ensures StampedWithin(net, b, 0, later)
  {
  }

  lemma LogGrows(net: Net, a: seq<Stamp>, b: seq<Stamp>, t: nat)
    requires Proper(net) && a <= b && Chronological(net, a) && LastTime(net, a) <= t
    requires StampedWithin(net, b[|a|..], t, t)
    ensures Chronological(net, b) && LastTime(net, b) <= t
  {
  }

  // ----- one round of the global loop -----

  /** `i` is a queue whose next event is due first, in global cycle `t`. */
  ghost predicate First(net: Net, s: System, i: nat, t: nat)
    requires Shaped(net, s)
  {
    i < |s.queues| && s.queues[i].next < MAX_CYCLE && t < MAX_CYCLE
    && t == Time(net, i, s.queues[i].next) && NoneBefore(net, s, t)
  }

  ghost function Picked(net: Net, s: System, i: nat, t: nat): (r: System)
    requires Shaped(net, s) && First(net, s, i, t)
    ensures Shaped(net, r) && r.now == (if t > s.now then t else s.now)
  {
    SkipToNext(s.queues[i], net.handlers[i]);
    Advanced(net, s, i, s.queues[i].next - s.queues[i].now).(now := if t > s.now then t else s.now)
  }

  lemma PickedFollows(net: Net, s: System, i: nat, t: nat)
    requires Shaped(net, s) && First(net, s, i, t)
    ensures Follows(net, s, Picked(net, s, i, t))
    ensures Logged(s) ==> Logged(Picked(net, s, i, t))
  {
    AdvancedFollows(net, s, i, s.queues[i].next - s.queues[i].now);
    var a, r := Advanced(net, s, i, s.queues[i].next - s.queues[i].now), Picked(net, s, i, t);
    assert a.queues == r.queues && a.log == r.log;
  }

  lemma PickedElsewhere(net: Net, s: System, i: nat, t: nat)
    requires Shaped(net, s) && First(net, s, i, t)
    ensures var r := Picked(net, s, i, t);
      && Elsewhere(s, i, r) && r.queues[i].now == s.queues[i].next < r.queues[i].next
      && s.log < r.log && StampedWithin(net, r.log[|s.log|..], t, t)
  {
    var q := s.queues[i];
    SkipToNext(q, net.handlers[i]);
    var d := Skip(q, net.handlers[i], q.next - q.now).trace[|q.trace|..];
    StampsBegin(net, i, d, t);
    assert (s.log + Stamps(i, d))[|s.log|..] == Stamps(i, d);
  }

  lemma PickedKeeps(net: Net, s: System, i: nat, t: nat)
    requires Shaped(net, s) && First(net, s, i, t)
    ensures NoneBefore(net, Picked(net, s, i, t), t)
  {
    var r := Picked(net, s, i, t);
    PickedElsewhere(net, s, i, t);
    forall j {:trigger r.queues[j]} | 0 <= j < |r.queues| ensures t <= Time(net, j, r.queues[j].next) {
      if j == i {
        ToGlobalMonotone(net.frequency, net.locals[i], s.queues[i].next, r.queues[i].next);
      } else {
        assert r.queues[j] == s.queues[j];
      }
    }
  }

  /** A clock that has not moved stays in step if the present has not either, and on time in any case. */
  lemma ClockKept(net: Net, s: System, r: System, j: nat)
    requires Shaped(net, s) && Shaped(net, r) && InStep(net, s) && s.now <= r.now
    requires |r.queues| == |s.queues| && j < |s.queues| && r.queues[j].now == s.queues[j].now
    ensures Time(net, j, r.queues[j].now) <= r.now
    ensures r.now == s.now ==> ClockInStep(net, r, j)
  {
    assert ClockInStep(net, s, j);
  }

  lemma PickedClock(net: Net, s: System, i: nat, t: nat)
    requires Shaped(net, s) && InStep(net, s) && First(net, s, i, t)
    ensures Time(net, i, Picked(net, s, i, t).queues[i].now) == t
    ensures t <= s.now ==> ClockInStep(net, Picked(net, s, i, t), i)
  {
    PickedElsewhere(net, s, i, t);
    assert ClockInStep(net, s, i);
  }

  lemma RoundInStep(net: Net, s: System, i: nat, t: nat)
    requires Shaped(net, s) && InStep(net, s) && First(net, s, i, t)
    ensures var p := Picked(net, s, i, t);
      && (t <= s.now ==> InStep(net, p))
      && (s.now < t ==> Timely(net, p, 0))
  {
    var p := Picked(net, s, i, t);
    PickedElsewhere(net, s, i, t);
    PickedKeeps(net, s, i, t);
    PickedClock(net, s, i, t);
    forall j | 0 <= j < |p.queues|
      ensures t <= s.now ==> ClockInStep(net, p, j)
      ensures s.now < t ==> OnTime(net, p, j)
    {
      if j != i {
        assert p.queues[j] == s.queues[j];
        ClockKept(net, s, p, j);
      }
    }
  }

  lemma RoundSyncs(net: Net, s: System, i: nat, t: nat, r: System)
    requires Shaped(net, s) && InStep(net, s) && First(net, s, i, t)
    requires SyncsTo(net, Picked(net, s, i, t), 0, r)
    ensures var p := Picked(net, s, i, t);
      && Shaped(net, r) && r.now == p.now && InStep(net, r) && NextsRise(p, r) && LogGrown(net, p.log, r.log, t, false)
  {
    var p := Picked(net, s, i, t);
    RoundInStep(net, s, i, t);
    if t <= s.now {
      SyncNone(net, p, 0, r);
    } else {
      SyncShaped(net, p, 0, r);
      SyncAll(net, p, r);
    }
  }

  lemma RoundDispatches(net: Net, s: System, i: nat, t: nat, r: System)
    requires Shaped(net, s) && InStep(net, s) && First(net, s, i, t)
    requires SyncsTo(net, Picked(net, s, i, t), 0, r)
    ensures Shaped(net, r) && s.log < r.log && StampedWithin(net, r.log[|s.log|..], t, t)
    ensures NoneBefore(net, r, t) && NextsRise(s, r) && s.queues[i].next < r.queues[i].next
  {
    var p := Picked(net, s, i, t);
    PickedElsewhere(net, s, i, t);
    PickedKeeps(net, s, i, t);
    RoundSyncs(net, s, i, t, r);
    StampsJoin(net, s.log, p.log, r.log, t, t);
    LaterNone(net, p, r, t);
    RisesTwice(s, p, r, i);
  }

  lemma RisesTwice(s: System, p: System, r: System, i: nat)
    requires i < |s.queues| && Elsewhere(s, i, p) && NextsRise(p, r)
    ensures NextsRise(s, r)
  {
  }

  lemma RoundFollows(net: Net, s: System, i: nat, t: nat, r: System)
    requires Shaped(net, s) && First(net, s, i, t)
    requires r == SyncedFrom(net, Picked(net, s, i, t), 0)
    ensures Follows(net, s, r) && (Logged(s) ==> Logged(r))
  {
    PickedFollows(net, s, i, t);
    SyncedFollows(net, Picked(net, s, i, t), 0);
    FollowsTwice(net, s, Picked(net, s, i, t), r);
  }

  /** A round dispatches at least one event, and only events of global cycle `t`; every queue has skipped
      ahead, the log keeps up with them, and order is not lost. */
  lemma RoundKeeps(net: Net, s: System, i: nat, t: nat, r: System)
    requires Sound(net, s) && First(net, s, i, t)
    requires r == SyncedFrom(net, Picked(net, s, i, t), 0)
    ensures Progress(net, s, r) && NoneBefore(net, r, t)
    ensures s.log < r.log && StampedWithin(net, r.log[|s.log|..], t, t)
    ensures NextsRise(s, r) && s.queues[i].next < r.queues[i].next
  {
    SyncedSyncs(net, Picked(net, s, i, t), 0);
    RoundFollows(net, s, i, t, r);
    RoundDispatches(net, s, i, t, r);
    RoundSyncs(net, s, i, t, r);
    LogWithin(net, s.log, r.log, s.now, t, r.now);
    if Ordered(net, s) { RoundOrdered(net, s, i, t, r); }
  }

  lemma RoundOrdered(net: Net, s: System, i: nat, t: nat, r: System)
    requires Shaped(net, s) && Shaped(net, r) && Ordered(net, s) && First(net, s, i, t) && s.log <= r.log
    requires StampedWithin(net, r.log[|s.log|..], t, t) && NoneBefore(net, r, t)
    ensures Ordered(net, r)
  {
    assert LastTime(net, s.log) <= Time(net, i, s.queues[i].next) == t;
    LogGrows(net, s.log, r.log, t);
    NoneBeforeLess(net, r, LastTime(net, r.log), t);
  }

  lemma NoneBeforeLess(net: Net, s: System, a: nat, b: nat)
    requires Shaped(net, s) && NoneBefore(net, s, b) && a <= b
    ensures NoneBefore(net, s, a)
  {
  }

  lemma LaterNone(net: Net, s: System, r: System, t: nat)
    requires Shaped(net, s) && Shaped(net, r) && NoneBefore(net, s, t)
    requires NextsRise(s, r)
    ensures NoneBefore(net, r, t)
  {
    forall j {:trigger r.queues[j]} | 0 <= j < |r.queues| ensures t <= Time(net, j, r.queues[j].next) {
      assert s.queues[j].next <= r.queues[j].next;
      ToGlobalMonotone(net.frequency, net.locals[j], s.queues[j].next, r.queues[j].next);
    }
  }

  /** Skipping over a stretch without events dispatches nothing: all clocks just move. */
  lemma IdleKeeps(net: Net, s: System, to: nat, r: System)
    requires Sound(net, s) && s.now <= to < MAX_CYCLE && NoneBefore(net, s, to + 1)
    requires r == SyncedFrom(net, s.(now := to), 0)
    ensures Progress(net, s, r) && r.log == s.log && NoneBefore(net, r, to + 1)
  {
    SyncedSyncs(net, s.(now := to), 0);
    SyncedFollows(net, s.(now := to), 0);
    IdleSyncs(net, s, to, r);
  }

  lemma IdleSyncs(net: Net, s: System, to: nat, r: System)
    requires Sound(net, s) && s.now <= to < MAX_CYCLE && NoneBefore(net, s, to + 1)
    requires SyncsTo(net, s.(now := to), 0, r) && Follows(net, s.(now := to), r) && (Logged(s) ==> Logged(r))
    ensures Progress(net, s, r) && r.log == s.log && NoneBefore(net, r, to + 1)
  {
    var p := s.(now := to);
    assert p.queues == s.queues;
    IdleTimely(net, s, to);
    SyncAll(net, p, r);
    SyncShaped(net, p, 0, r);
    LaterNone(net, p, r, to + 1);
    assert r.log[|s.log|..] == [];
    LogWithin(net, s.log, r.log, s.now, 0, to);
    if Ordered(net, s) { LaterNone(net, p, r, LastTime(net, s.log)); }
  }

  lemma IdleTimely(net: Net, s: System, to: nat)
    requires Shaped(net, s) && InStep(net, s) && s.now <= to < MAX_CYCLE && NoneBefore(net, s, to + 1)
    ensures Timely(net, s.(now := to), 0) && Quiet(net, s.(now := to), 0)
  {
    var p := s.(now := to);
    forall j | 0 <= j < |p.queues| ensures OnTime(net, p, j) && to < Time(net, j, p.queues[j].next) {
      assert ClockInStep(net, s, j);
    }
  }

  // ----- termination of the global loop -----

  /** How far the next events of the queues are from `bound`, added up. */
  ghost function Gap(queues: seq<Queue>, bound: nat): (r: nat) {
    if queues == [] then 0 else
      (if queues[0].next < bound then bound - queues[0].next else 0) + Gap(queues[1..], bound)
  }

  lemma {:induction false} GapShrinks(a: seq<Queue>, b: seq<Queue>, bound: nat, i: nat)
    requires |a| == |b| && forall j :: 0 <= j < |a| ==> a[j].next <= b[j].next
    ensures Gap(b, bound) <= Gap(a, bound)
    ensures i < |a| && a[i].next < b[i].next && a[i].next < bound ==> Gap(b, bound) < Gap(a, bound)
  {
    if a != [] {
      assert forall j :: 0 <= j < |a[1..]| ==> a[1..][j] == a[j + 1] && b[1..][j] == b[j + 1];
      GapShrinks(a[1..], b[1..], bound, if i > 0 then i - 1 else |a|);
    }
  }

  ghost predicate RoundDone(net: Net, s: System, r: System, goal: nat)
    requires Shaped(net, s) && Shaped(net, r)
  {
    && Progress(net, s, r) && s.log < r.log
    && (r.now > s.now ==> NoneBefore(net, r, r.now))
    && Gap(r.queues, goal + 1) < Gap(s.queues, goal + 1)
  }

  lemma GapFalls(net: Net, s: System, r: System, i: nat, t: nat, goal: nat)
    requires Shaped(net, s) && First(net, s, i, t) && t <= goal
    requires NextsRise(s, r) && s.queues[i].next < r.queues[i].next
    ensures Gap(r.queues, goal + 1) < Gap(s.queues, goal + 1)
  {
    GlobalIsFaster(net.frequency, net.locals[i], s.queues[i].next);
    GapShrinks(s.queues, r.queues, goal + 1, i);
  }

  lemma RoundOutcome(net: Net, s: System, i: nat, t: nat, goal: nat, r: System)
    requires Sound(net, s) && First(net, s, i, t) && t <= goal
    requires r == SyncedFrom(net, Picked(net, s, i, t), 0)
    ensures RoundDone(net, s, r, goal)
  {
    RoundKeeps(net, s, i, t, r);
    GapFalls(net, s, r, i, t, goal);
  }

  /** What a call that advances `n` global cycles has done. */
  ghost predicate CycleDone(net: Net, s: System, n: nat, r: System)
    requires Shaped(net, s)
  {
    && Progress(net, s, r) && r.now == s.now + n
    && if n > 0 then NoneBefore(net, r, r.now) else r == s
  }

  /** Nothing has happened yet. */
  ghost function Start(net: Net): (s: System) {
    System(0, seq(|net.locals|, i => EMPTY), [])
  }

  lemma StartSound(net: Net)
    requires Proper(net)
    ensures Sound(net, Start(net)) && Ordered(net, Start(net))
  {
  }

  lemma ZeroBegins(global: nat, local: nat)
    requires 0 < local
    ensures ToGlobal(global, local, 0) == 0
  {
  }

  // ----- operations from outside -----

  /** A client of queue `i` may remove any event, and insert at or after the queue's present. */
  ghost predicate Allowed(net: Net, s: System, i: nat, op: Op)
    requires Shaped(net, s)
  {
    i < |s.queues| && op.when <= MAX_CYCLE && (op.Insert? ==> s.queues[i].now <= op.when)
  }

  ghost function Acted(net: Net, s: System, i: nat, op: Op): (r: System)
    requires Shaped(net, s) && Allowed(net, s, i, op)
    ensures Shaped(net, r)
  {
    ApplyValid(s.queues[i], op);
    ApplyNext(s.queues[i], op);
    s.(queues := s.queues[i := Apply(s.queues[i], op)])
  }

  /** An operation can only make the next event earlier by inserting there. */
  lemma ApplyNext(q: Queue, op: Op)
    requires WellFormed(q)
    ensures var r := Apply(q, op);
      && r.now == q.now && r.trace == q.trace
      && if op.Insert? then r.next == if op.when < q.next then op.when else q.next else q.next <= r.next
  {
  }

  /** The event belongs no earlier than what has been dispatched last. */
  ghost predicate InOrder(net: Net, s: System, i: nat, op: Op)
    requires Shaped(net, s) && i < |s.queues|
  {
    op.Insert? ==> LastTime(net, s.log) <= Time(net, i, op.when)
  }

  lemma ActedKeeps(net: Net, s: System, i: nat, op: Op)
    requires Sound(net, s) && Allowed(net, s, i, op)
    ensures Sound(net, Acted(net, s, i, op))
    ensures Ordered(net, s) && InOrder(net, s, i, op) ==> Ordered(net, Acted(net, s, i, op))
  {
    ActedSound(net, s, i, op);
    if Ordered(net, s) && InOrder(net, s, i, op) { ActedOrdered(net, s, i, op); }
  }

  lemma ActedOrdered(net: Net, s: System, i: nat, op: Op)
    requires Shaped(net, s) && Allowed(net, s, i, op) && Ordered(net, s) && InOrder(net, s, i, op)
    ensures Ordered(net, Acted(net, s, i, op))
  {
    var r, t := Acted(net, s, i, op), LastTime(net, s.log);
    ApplyNext(s.queues[i], op);
    assert r.log == s.log;
    forall j {:trigger r.queues[j]} | 0 <= j < |r.queues| ensures t <= Time(net, j, r.queues[j].next) {
      assert t <= Time(net, j, s.queues[j].next);
      if j == i && r.queues[i].next >= s.queues[i].next {
        ToGlobalMonotone(net.frequency, net.locals[i], s.queues[i].next, r.queues[i].next);
      }
    }
  }

  lemma ActedSound(net: Net, s: System, i: nat, op: Op)
    requires Sound(net, s) && Allowed(net, s, i, op)
    ensures Sound(net, Acted(net, s, i, op))
  {
    var r := Acted(net, s, i, op);
    ApplyNext(s.queues[i], op);
    forall j | 0 <= j < |r.queues|
      ensures ClockInStep(net, r, j) && Projected(r.log, j) == r.queues[j].trace
    {
      assert r.queues[j].now == s.queues[j].now && r.queues[j].trace == s.queues[j].trace;
      ClockKept(net, s, r, j);
    }
    assert r.log == s.log;
  }

  /** After an insertion at or after its queue's local time, the next round dispatches in global order
      exactly when the event does not belong before the last dispatch. */
  lemma InsertKeepsOrderIff(net: Net, s: System, i: nat, op: Op, j: nat, t: nat)
    requires Sound(net, s) && Ordered(net, s) && op.Insert?
    requires Allowed(net, s, i, op)
    requires First(net, Acted(net, s, i, op), j, t)
    ensures Chronological(net, Picked(net, Acted(net, s, i, op), j, t).log)
      <==> LastTime(net, s.log) <= Time(net, i, op.when)
  {
    var r := Acted(net, s, i, op);
    PickedElsewhere(net, r, j, t);
    if InOrder(net, s, i, op) {
      ActedKeeps(net, s, i, op);
      PickedKeeps(net, r, j, t);
      RoundOrdered(net, r, j, t, Picked(net, r, j, t));
    } else {
      ApplyNext(s.queues[i], op);
      ToGlobalMonotone(net.frequency, net.locals[i], r.queues[i].next, op.when);
      LateBreaksOrder(net, r, j, t, Picked(net, r, j, t).log);
    }
  }

  lemma LateBreaksOrder(net: Net, s: System, i: nat, t: nat, log: seq<Stamp>)
    requires Proper(net) && s.log < log && StampedWithin(net, log[|s.log|..], t, t) && t < LastTime(net, s.log)
    ensures !Chronological(net, log)
  {
    var k := |s.log|;
    assert log[k] == log[k..][0] && log[k - 1] == s.log[k - 1];
    assert At(net, log[k - 1]) > At(net, log[k]);
  }

  // ----- the global queue as an object -----

  class GlobalEventQueue {
    const frequency: nat
    /** In the order in which the rounds visit them. */
    const eventQueues: seq<EventQueue>
    const localFrequencies: seq<nat>
    var currentCycle: nat
    /** All dispatches, in order. */
    ghost var log: seq<Stamp>

    ghost function Fixed(): (r: Net) {
      Net(frequency, localFrequencies, seq(|eventQueues|, i requires 0 <= i < |eventQueues| => eventQueues[i].handler))
    }

    ghost function State(): (r: System)
      reads this, eventQueues
    {
      System(currentCycle,
             seq(|eventQueues|, i requires 0 <= i < |eventQueues| reads eventQueues => eventQueues[i].State()),
             log)
    }

    ghost predicate Valid()
      reads this, eventQueues
    {
      && |eventQueues| == |localFrequencies|
      && (forall i, j :: 0 <= i < j < |eventQueues| ==> eventQueues[i] != eventQueues[j])
      && Shaped(Fixed(), State())
    }

    constructor (frequency: nat, eventQueues: seq<EventQueue>, localFrequencies: seq<nat>)
      requires |eventQueues| == |localFrequencies|
      requires forall i, j :: 0 <= i < j < |eventQueues| ==> eventQueues[i] != eventQueues[j]
      requires forall i :: 0 <= i < |eventQueues| ==>
        0 < localFrequencies[i] <= frequency && eventQueues[i].Valid() && eventQueues[i].State() == EMPTY
      ensures Valid() && Sound(Fixed(), State()) && Ordered(Fixed(), State())
      ensures State() == Start(Fixed())
      ensures this.frequency == frequency && this.eventQueues == eventQueues
      ensures this.localFrequencies == localFrequencies
    {
      this.frequency, this.eventQueues, this.localFrequencies := frequency, eventQueues, localFrequencies;
      currentCycle := 0;
      log := [];
      new;
      assert State() == Start(Fixed());
      StartSound(Fixed());
    }

    method LoopQueue(i: nat, n: nat)
      requires Valid() && i < |eventQueues| && eventQueues[i].currentCycle + n < MAX_CYCLE
      modifies this`log, eventQueues[i]
      ensures Valid() && State() == Advanced(Fixed(), old(State()), i, n)
    {
      ghost var before := eventQueues[i].trace;
      assert eventQueues[i].State() == State().queues[i] && Fixed().handlers[i] == eventQueues[i].handler;
      SkipTrace(eventQueues[i].State(), eventQueues[i].handler, n);
      eventQueues[i].LoopSteps(n);
      log := log + Stamps(i, eventQueues[i].trace[|before|..]);
      assert State().queues == old(State()).queues[i := eventQueues[i].State()];
    }

    method SyncQueue(i: nat)
      requires Valid() && i < |eventQueues|
      modifies this`log, eventQueues
      ensures Valid() && State() == Synced(Fixed(), old(State()), i)
    {
      var setCycle := ToLocal(frequency, localFrequencies[i], currentCycle);
      assert State().queues[i] == eventQueues[i].State();
      LocalIsSlower(frequency, localFrequencies[i], currentCycle);
      if setCycle > eventQueues[i].currentCycle {
        LoopQueue(i, setCycle - eventQueues[i].currentCycle);
      }
    }

    method Sync()
      requires Valid()
      modifies this`log, eventQueues
      ensures Valid() && State() == SyncedFrom(Fixed(), old(State()), 0)
    {
      ghost var net, goal := Fixed(), SyncedFrom(Fixed(), State(), 0);
      var i := 0;
      while i < |eventQueues|
        invariant i <= |eventQueues| && Valid()
        invariant SyncedFrom(net, State(), i) == goal
      {
        SyncQueue(i);
        i := i + 1;
      }
    }

    /** The global cycle of the earliest event, and a queue holding it; the largest cycle number when
        there is none. */
    method GetNextEvent() returns (next: nat, queue: nat)
      requires Valid()
      ensures next <= MAX_CYCLE && NoneBefore(Fixed(), State(), next)
      ensures next < MAX_CYCLE ==> First(Fixed(), State(), queue, next)
    {
      next, queue := MAX_CYCLE, |eventQueues|;
      var i := 0;
      while i < |eventQueues|
        invariant i <= |eventQueues| && next <= MAX_CYCLE
        invariant forall j {:trigger State().queues[j]} :: 0 <= j < i ==>
          next <= Time(Fixed(), j, State().queues[j].next)
        invariant next < MAX_CYCLE ==>
          queue < i && State().queues[queue].next < MAX_CYCLE &&
          next == Time(Fixed(), queue, State().queues[queue].next)
      {
        assert State().queues[i] == eventQueues[i].State();
        var local := eventQueues[i].nextEventCycle;
        GlobalIsFaster(frequency, localFrequencies[i], local);
        if local != MAX_CYCLE {
          var cycle := ToGlobal(frequency, localFrequencies[i], local);
          if cycle < next {
            next, queue := cycle, i;
          }
        }
        i := i + 1;
      }
    }

    /** Advances exactly `steps` global cycles: every queue has skipped ahead, what they dispatched is in
        the log, in global order unless an earlier insertion came too late, and nothing due before the new
        present is left. */
    method Cycle(steps: nat)
      requires Valid() && Sound(Fixed(), State()) && currentCycle + steps < MAX_CYCLE
      modifies this, eventQueues
      ensures Valid() && CycleDone(Fixed(), old(State()), steps, State())
    {
      var iterationSteps := 0;
      ghost var net, start, goal := Fixed(), State(), currentCycle + steps;
      while iterationSteps < steps
        invariant Valid() && Progress(net, start, State())
        invariant iterationSteps <= steps && currentCycle == start.now + iterationSteps
        invariant iterationSteps == steps > 0 ==> NoneBefore(net, State(), currentCycle)
        invariant steps == 0 ==> State() == start
        decreases Gap(State().queues, goal + 1), steps - iterationSteps
      {
        ghost var before := State();
        var nextEvent, queue := GetNextEvent();
        var globalQueueSteps := 0;
        if nextEvent > currentCycle {
          globalQueueSteps := nextEvent - currentCycle;
        }
        if globalQueueSteps > steps - iterationSteps {
          Idle(steps - iterationSteps);
          ProgressTwice(net, start, before, State());
          break;
        }
        Round(queue, nextEvent, globalQueueSteps, goal);
        ProgressTwice(net, start, before, State());
        iterationSteps := iterationSteps + globalQueueSteps;
      }
    }

    /** Nothing is due within the next `n` cycles: every clock moves, nothing is dispatched. */
    method Idle(n: nat)
      requires Valid() && Sound(Fixed(), State()) && currentCycle + n < MAX_CYCLE
      requires NoneBefore(Fixed(), State(), currentCycle + n + 1)
      modifies this, eventQueues
      ensures Valid() && Progress(Fixed(), old(State()), State())
      ensures currentCycle == old(currentCycle) + n && log == old(log)
      ensures NoneBefore(Fixed(), State(), currentCycle)
    {
      ghost var s := State();
      currentCycle := currentCycle + n;
      assert State() == s.(now := currentCycle);
      Sync();
      IdleKeeps(Fixed(), s, currentCycle, State());
      NoneBeforeLess(Fixed(), State(), currentCycle, currentCycle + 1);
    }

    /** Lets one queue run up to its next event. */
    method PickQueue(queue: nat, nextEvent: nat, globalQueueSteps: nat)
      requires Valid() && First(Fixed(), State(), queue, nextEvent)
      requires globalQueueSteps == if nextEvent > currentCycle then nextEvent - currentCycle else 0
      modifies this, eventQueues
      ensures Valid() && State() == Picked(Fixed(), old(State()), queue, nextEvent)
    {
      ghost var q := State().queues[queue];
      assert q == eventQueues[queue].State();
      GlobalIsFaster(frequency, localFrequencies[queue], q.next);
      var localQueueSteps := eventQueues[queue].nextEventCycle - eventQueues[queue].currentCycle;
      LoopQueue(queue, localQueueSteps);
      currentCycle := currentCycle + globalQueueSteps;
      assert State() == Advanced(Fixed(), old(State()), queue, localQueueSteps).(now := currentCycle);
    }

    method Round(queue: nat, nextEvent: nat, globalQueueSteps: nat, ghost goal: nat)
      requires Valid() && Sound(Fixed(), State()) && First(Fixed(), State(), queue, nextEvent)
      requires globalQueueSteps == if nextEvent > currentCycle then nextEvent - currentCycle else 0
      requires nextEvent <= goal
      modifies this, eventQueues
      ensures Valid() && RoundDone(Fixed(), old(State()), State(), goal)
      ensures currentCycle == old(currentCycle) + globalQueueSteps
    {
      ghost var s := State();
      PickQueue(queue, nextEvent, globalQueueSteps);
      Sync();
      RoundOutcome(Fixed(), s, queue, nextEvent, goal, State());
    }
  }

}
