/** Runs of the memory controller: transactions are chosen and served, refresh pulses come, refreshes are
    queued, commands are issued, and time passes, in any order. */
module ControllerRuns {
  import opened BankShadows
  import opened Controllers
  import Q = CommandQueues
  import R = Refreshes

  // ----- refreshes owed -----

  /** A bank is marked as needing a refresh exactly when its group owes enough of them. */
  ghost predicate MarkOk(cfg: Controls, s: State, x: nat)
    requires Sound(cfg) && x < |s.banks|
  {
    s.banks[x].needRefresh <==> R.Needs(Groups(cfg), s.r.counters, GroupOf(cfg, x))
  }

  ghost predicate Owed(cfg: Controls, s: State) {
    Sound(cfg) && R.Accounted(s.r) && forall x :: 0 <= x < |s.banks| ==> MarkOk(cfg, s, x)
  }

  lemma TransactOwed(cfg: Controls, s: State, t: Transaction)
    requires Tracks(cfg, s) && Owed(cfg, s) && Fits(cfg, t.address) && SubarraysFit(cfg, s)
    ensures Owed(cfg, Transact(cfg, s, t))
  {
    HomeFits(cfg, t.address);
    var u := Transact(cfg, s, t);
    forall x | 0 <= x < |u.banks| ensures MarkOk(cfg, u, x) {
      assert MarkOk(cfg, s, x);
    }
  }

  lemma RefreshOwed(cfg: Controls, s: State, g: nat)
    requires Tracks(cfg, s) && Owed(cfg, s) && R.Needs(Groups(cfg), s.r.counters, g)
    ensures Owed(cfg, QueueRefresh(cfg, s, g))
  {
    var t, n := QueueRefresh(cfg, s, g), cfg.banksPerRefresh;
    R.ServeAccounted(Groups(cfg), s.r, g);
    forall x | 0 <= x < |t.banks| ensures MarkOk(cfg, t, x) {
      assert MarkOk(cfg, s, x);
      RefreshedBank(cfg, s, g, x);
    }
  }

  /** What a refresh does to the flags of each bank. */
  lemma RefreshedBank(cfg: Controls, s: State, g: nat, x: nat)
    requires Tracks(cfg, s) && R.Needs(Groups(cfg), s.r.counters, g) && x < |s.banks|
    ensures var t := QueueRefresh(cfg, s, g);
      if GroupOf(cfg, x) == g then
        && t.banks[x].refreshQueued
        && t.banks[x].needRefresh == (s.banks[x].needRefresh && R.Needs(Groups(cfg), t.r.counters, g))
        && t.banks[x].activateQueued == Precharged(cfg, s.banks[x]).activateQueued
        && t.banks[x].subarrays == Precharged(cfg, s.banks[x]).subarrays
      else t.banks[x] == s.banks[x]
  {
    var n := cfg.banksPerRefresh;
    var closed := PrechargeGroup(cfg, s, g, n);
    PrechargeGroupAt(cfg, s, g, n, x);
    MemberOfGroup(cfg, x);
    var flagged := SetGroup(cfg, closed.banks, g, RefreshQueued, true, n);
    SetGroupAll(cfg, closed.banks, g, RefreshQueued, true, x);
    SetGroupAll(cfg, flagged, g, NeedRefresh, false, x);
  }

  lemma PulseOwed(cfg: Controls, s: State, g: nat)
    requires Tracks(cfg, s) && Owed(cfg, s) && g < R.Count(Groups(cfg))
    ensures Owed(cfg, Pulse(cfg, s, g))
  {
    var t := Pulse(cfg, s, g);
    R.PulseAccounted(s.r, g);
    forall x | 0 <= x < |t.banks| ensures MarkOk(cfg, t, x) {
      assert MarkOk(cfg, s, x);
      SetGroupAll(cfg, s.banks, g, NeedRefresh, true, x);
    }
  }

  lemma IssueOwed(cfg: Controls, s: State, x: nat)
    requires Tracks(cfg, s) && Owed(cfg, s) && x < |s.banks| && s.q.queues[x] != []
    ensures Owed(cfg, IssueAt(cfg, s, x))
  {
    MemberOfGroup(cfg, x);
    var t := IssueAt(cfg, s, x);
    forall y | 0 <= y < |t.banks| ensures MarkOk(cfg, t, y) {
      assert MarkOk(cfg, s, y);
      SetGroupAll(cfg, s.banks, GroupOf(cfg, x), RefreshQueued, false, y);
    }
  }

  // ----- closed pages -----

  /** No bank is left active. */
  ghost predicate Idle(s: State) {
    forall x :: 0 <= x < |s.banks| ==> !s.banks[x].activateQueued
  }

  lemma RefreshIdle(cfg: Controls, s: State, g: nat)
    requires Tracks(cfg, s) && Idle(s) && R.Needs(Groups(cfg), s.r.counters, g)
    ensures Idle(QueueRefresh(cfg, s, g))
  {
    var t := QueueRefresh(cfg, s, g);
    forall x | 0 <= x < |t.banks| ensures !t.banks[x].activateQueued {
      assert !s.banks[x].activateQueued;
      RefreshedBank(cfg, s, g, x);
    }
  }

  lemma TransactIdle(cfg: Controls, s: State, t: Transaction)
    requires Tracks(cfg, s) && Idle(s) && Fits(cfg, t.address) && SubarraysFit(cfg, s) && t.last && cfg.usePrecharge
    ensures Idle(Transact(cfg, s, t))
    ensures Home(cfg, t.address) < |s.banks|
    ensures !CaseOf(cfg, s.banks[Home(cfg, t.address)], s.q.queues[Home(cfg, t.address)] == [], t.address).RowHit?
  {
    HomeFits(cfg, t.address);
    var x := Home(cfg, t.address);
    assert BankOk(cfg, s, x) && !s.banks[x].activateQueued;
    ClosedPageStaysClosed(cfg, s.banks[x], s.q.queues[x] == [], t);
  }

  // ----- steps -----

  datatype Step =
    | TransactStep(sel: Selector, t: Transaction)
    | ServeStep
    | PulseStep(g: nat)
    | CycleStep(ready: seq<bool>)
    | TickStep

  /** A transaction is served when it has been chosen. With the restricted closed-page policy every
      transaction is marked as the last one of its row. */
  ghost predicate Enabled(cfg: Controls, s: State, step: Step)
    requires Tracks(cfg, s) && SubarraysFit(cfg, s)
  {
    match step
    case TransactStep(sel, t) =>
      && Fits(cfg, t.address) && (cfg.closePage == 2 ==> t.last)
      && (HomeFits(cfg, t.address);
          var x := Home(cfg, t.address);
          Selects(cfg, sel, s.banks[x], s.q.queues[x] == [], t, s.q.now))
    case ServeStep => R.Search(Groups(cfg), s.r, 0, 0).Found?
    case PulseStep(g) => g < R.Count(Groups(cfg))
    case CycleStep(ready) => |ready| == |s.q.queues|
    case TickStep => true
  }

  /** The queue a cycle issues from, if any. */
  ghost function Issuing(s: State, ready: seq<bool>): (k: nat)
    requires |ready| == |s.q.queues| && s.q.cur <= |s.q.queues|
  {
    if s.q.lastIssue == s.q.now then |s.q.queues| else Q.Pick(s.q.queues, s.q.cur, ready, 0)
  }

  ghost function Take(cfg: Controls, s: State, step: Step): (r: State)
    requires Tracks(cfg, s) && SubarraysFit(cfg, s) && Enabled(cfg, s, step)
  {
    match step
    case TransactStep(_, t) => Transact(cfg, s, t)
    case ServeStep =>
      R.SearchIff(Groups(cfg), s.r);
      QueueRefresh(cfg, s, R.Search(Groups(cfg), s.r, 0, 0).group)
    case PulseStep(g) => Pulse(cfg, s, g)
    case CycleStep(ready) =>
      var k := Issuing(s, ready);
      if k == |s.q.queues| then s else IssueAt(cfg, s, Q.Scan(s.q.cur, k, |s.q.queues|))
    case TickStep => s.(q := Q.Tick(s.q))
  }

  ghost predicate Invariant(cfg: Controls, s: State) {
    && cfg.usePrecharge && Tracks(cfg, s) && SubarraysFit(cfg, s) && Owed(cfg, s)
    && (cfg.closePage == 2 ==> Idle(s))
  }

  lemma TakeTracks(cfg: Controls, s: State, step: Step)
    requires Invariant(cfg, s) && Enabled(cfg, s, step)
    ensures Tracks(cfg, Take(cfg, s, step)) && SubarraysFit(cfg, Take(cfg, s, step))
  {
    R.SearchIff(Groups(cfg), s.r);
    match step {
      case TransactStep(_, t) => TransactTracks(cfg, s, t);
      case ServeStep => RefreshTracks(cfg, s, R.Search(Groups(cfg), s.r, 0, 0).group);
      case PulseStep(g) => PulseTracks(cfg, s, g);
      case CycleStep(ready) =>
        var k := Issuing(s, ready);
        if k < |s.q.queues| { IssueTracks(cfg, s, Q.Scan(s.q.cur, k, |s.q.queues|)); }
      case TickStep => TickTracks(cfg, s);
    }
    SubarraysAll(cfg, Take(cfg, s, step));
  }

  lemma TakeOwed(cfg: Controls, s: State, step: Step)
    requires Invariant(cfg, s) && Enabled(cfg, s, step)
    ensures Owed(cfg, Take(cfg, s, step))
  {
    R.SearchIff(Groups(cfg), s.r);
    match step {
      case TransactStep(_, t) => TransactOwed(cfg, s, t);
      case ServeStep => RefreshOwed(cfg, s, R.Search(Groups(cfg), s.r, 0, 0).group);
      case PulseStep(g) => PulseOwed(cfg, s, g);
      case CycleStep(ready) =>
        var k := Issuing(s, ready);
        if k < |s.q.queues| { IssueOwed(cfg, s, Q.Scan(s.q.cur, k, |s.q.queues|)); }
      case TickStep =>
        forall x | 0 <= x < |s.banks| ensures MarkOk(cfg, Take(cfg, s, step), x) { assert MarkOk(cfg, s, x); }
    }
  }

  lemma IssueIdle(cfg: Controls, s: State, x: nat)
    requires Tracks(cfg, s) && Idle(s) && x < |s.banks| && s.q.queues[x] != []
    ensures Idle(IssueAt(cfg, s, x))
  {
    MemberOfGroup(cfg, x);
    SetGroupFlags(cfg, s.banks, GroupOf(cfg, x), RefreshQueued, false, cfg.banksPerRefresh);
    var t := IssueAt(cfg, s, x);
    forall y | 0 <= y < |t.banks| ensures !t.banks[y].activateQueued {
      assert !s.banks[y].activateQueued;
    }
  }

  lemma TakeIdle(cfg: Controls, s: State, step: Step)
    requires Invariant(cfg, s) && Enabled(cfg, s, step) && cfg.closePage == 2
    ensures Idle(Take(cfg, s, step))
  {
    R.SearchIff(Groups(cfg), s.r);
    match step {
      case TransactStep(_, t) => TransactIdle(cfg, s, t);
      case ServeStep => RefreshIdle(cfg, s, R.Search(Groups(cfg), s.r, 0, 0).group);
      case PulseStep(g) => SetGroupFlags(cfg, s.banks, g, NeedRefresh, true, cfg.banksPerRefresh);
      case CycleStep(ready) =>
        var k := Issuing(s, ready);
        if k < |s.q.queues| { IssueIdle(cfg, s, Q.Scan(s.q.cur, k, |s.q.queues|)); }
      case TickStep =>
    }
  }

  lemma TakeKeeps(cfg: Controls, s: State, step: Step)
    requires Invariant(cfg, s) && Enabled(cfg, s, step)
    ensures Invariant(cfg, Take(cfg, s, step))
  {
    TakeTracks(cfg, s, step);
    TakeOwed(cfg, s, step);
    if cfg.closePage == 2 { TakeIdle(cfg, s, step); }
  }

  ghost predicate CanRun(cfg: Controls, s: State, steps: seq<Step>)
    requires Invariant(cfg, s)
    decreases |steps|
  {
    steps == [] ||
    (Enabled(cfg, s, steps[0]) && (TakeKeeps(cfg, s, steps[0]); CanRun(cfg, Take(cfg, s, steps[0]), steps[1..])))
  }

  ghost function Run(cfg: Controls, s: State, steps: seq<Step>): (t: State)
    requires Invariant(cfg, s) && CanRun(cfg, s, steps)
    decreases |steps|
  {
    if steps == [] then s else
      TakeKeeps(cfg, s, steps[0]);
      Run(cfg, Take(cfg, s, steps[0]), steps[1..])
  }

  lemma {:induction false} RunKeeps(cfg: Controls, s: State, steps: seq<Step>)
    requires Invariant(cfg, s) && CanRun(cfg, s, steps)
    ensures Invariant(cfg, Run(cfg, s, steps))
    decreases |steps|
  {
    if steps != [] {
      TakeKeeps(cfg, s, steps[0]);
      RunKeeps(cfg, Take(cfg, s, steps[0]), steps[1..]);
    }
  }

  lemma InitialInvariant(cfg: Controls)
    requires Sound(cfg) && cfg.usePrecharge
    ensures Invariant(cfg, Initial(cfg))
  {
    InitialTracks(cfg);
    var s := Initial(cfg);
    forall x | 0 <= x < |s.banks| ensures MarkOk(cfg, s, x) {
      MemberOfGroup(cfg, x);
    }
  }

  /** Runs from the start, and where they lead. */
  ghost predicate IsRun(cfg: Controls, steps: seq<Step>)
    requires Sound(cfg) && cfg.usePrecharge
  {
    InitialInvariant(cfg);
    CanRun(cfg, Initial(cfg), steps)
  }

  ghost function After(cfg: Controls, steps: seq<Step>): (s: State)
    requires Sound(cfg) && cfg.usePrecharge && IsRun(cfg, steps)
    ensures Invariant(cfg, s)
  {
    InitialInvariant(cfg);
    RunKeeps(cfg, Initial(cfg), steps);
    Run(cfg, Initial(cfg), steps)
  }

  /** A run is a shorter run and a last step. */
  lemma {:induction false} RunFront(cfg: Controls, s: State, front: seq<Step>, last: Step)
    requires Invariant(cfg, s) && CanRun(cfg, s, front + [last])
    ensures CanRun(cfg, s, front)
    ensures var t := Run(cfg, s, front);
      Invariant(cfg, t) && Enabled(cfg, t, last) && Run(cfg, s, front + [last]) == Take(cfg, t, last)
    decreases |front|
  {
    if front == [] {
      assert front + [last] == [last];
      TakeKeeps(cfg, s, last);
      assert [last][1..] == [];
    } else {
      TakeKeeps(cfg, s, front[0]);
      assert (front + [last])[0] == front[0] && (front + [last])[1..] == front[1..] + [last];
      RunFront(cfg, Take(cfg, s, front[0]), front[1..], last);
    }
  }

  lemma AfterFront(cfg: Controls, steps: seq<Step>)
    requires Sound(cfg) && cfg.usePrecharge && IsRun(cfg, steps) && steps != []
    ensures var front, last := steps[..|steps| - 1], steps[|steps| - 1];
      && IsRun(cfg, front) && Enabled(cfg, After(cfg, front), last)
      && After(cfg, steps) == Take(cfg, After(cfg, front), last)
  {
    InitialInvariant(cfg);
    var front, last := steps[..|steps| - 1], steps[|steps| - 1];
    assert steps == front + [last];
    RunFront(cfg, Initial(cfg), front, last);
  }

  lemma {:induction false} RunAppend(cfg: Controls, s: State, steps: seq<Step>, step: Step)
    requires Invariant(cfg, s) && CanRun(cfg, s, steps)
    requires Invariant(cfg, Run(cfg, s, steps)) && Enabled(cfg, Run(cfg, s, steps), step)
    ensures CanRun(cfg, s, steps + [step])
    ensures Run(cfg, s, steps + [step]) == Take(cfg, Run(cfg, s, steps), step)
    decreases |steps|
  {
    if steps == [] {
      TakeKeeps(cfg, s, step);
      assert CanRun(cfg, Take(cfg, s, step), []);
    } else {
      assert (steps + [step])[1..] == steps[1..] + [step];
      TakeKeeps(cfg, s, steps[0]);
      RunAppend(cfg, Take(cfg, s, steps[0]), steps[1..], step);
    }
  }

  /** One more step at the end of a run. */
  lemma AfterStep(cfg: Controls, steps: seq<Step>, step: Step)
    requires Sound(cfg) && cfg.usePrecharge && IsRun(cfg, steps) && Enabled(cfg, After(cfg, steps), step)
    ensures IsRun(cfg, steps + [step]) && After(cfg, steps + [step]) == Take(cfg, After(cfg, steps), step)
  {
    InitialInvariant(cfg);
    RunKeeps(cfg, Initial(cfg), steps);
    RunAppend(cfg, Initial(cfg), steps, step);
  }

  function AllReady(cfg: Controls): (r: seq<bool>) {
    seq(BankCount(cfg), _ => true)
  }

  /** When queue `x` is the only one with anything to issue and every device is ready, its head is issued. */
  lemma OnlyOneIssues(cfg: Controls, s: State, ready: seq<bool>, x: nat)
    requires Invariant(cfg, s) && s.q.lastIssue != s.q.now && x < |s.q.queues| == |ready|
    requires forall y :: 0 <= y < |ready| ==> ready[y]
    requires Pending(s, x) != [] && forall y :: 0 <= y < |s.q.queues| && y != x ==> Pending(s, y) == []
    ensures Issuing(s, ready) < |s.q.queues| && Q.Scan(s.q.cur, Issuing(s, ready), |s.q.queues|) == x
    ensures s.q.queues[x] != [] && s.q.queues[x][0].command == Pending(s, x)[0]
    ensures Pending(Take(cfg, s, CycleStep(ready)), x) == Pending(s, x)[1..]
    ensures forall y :: 0 <= y < |s.q.queues| && y != x ==> Pending(Take(cfg, s, CycleStep(ready)), y) == []
  {
    var n := |s.q.queues|;
    Q.IssueDisciplined(s.q, x);
    forall y | 0 <= y < n && y != x ensures s.q.queues[y] == [] {
      Q.NoHeadIssued(s.q, y);
      assert Pending(s, y) == [];
    }
    var i := if s.q.cur <= x then x - s.q.cur else n - s.q.cur + x;
    assert Q.Scan(s.q.cur, i, n) == x && Q.Ready(s.q.queues, ready, x);
  }

  /** In every reachable state, for every bank: replaying its queue on the rows the device has open meets no
      illegal command and ends in the rows recorded; the bank counts as active exactly when one of its
      subarrays does; it is marked as needing a refresh exactly when its group owes enough of them; and with
      the restricted closed-page policy it is not active. */
  lemma Reachable(cfg: Controls, steps: seq<Step>, x: nat)
    requires Sound(cfg) && cfg.usePrecharge && IsRun(cfg, steps) && x < BankCount(cfg)
    ensures GroupOf(cfg, x) < |After(cfg, steps).r.counters|
    ensures var s := After(cfg, steps);
      && Consistent(cfg, s.banks[x]) && Coherent(cfg, s.banks[x], Pending(s, x), s.device[x])
      && (s.banks[x].needRefresh <==> s.r.counters[GroupOf(cfg, x)] >= cfg.threshold)
      && s.r.counters[GroupOf(cfg, x)] + R.Occurrences(s.r.served, GroupOf(cfg, x))
         == R.Occurrences(s.r.pulsed, GroupOf(cfg, x))
      && (cfg.closePage == 2 ==> !s.banks[x].activateQueued)
  {
    var s := After(cfg, steps);
    MemberOfGroup(cfg, x);
    assert BankOk(cfg, s, x) && MarkOk(cfg, s, x);
  }

  // ----- the commands of a refresh -----

  /** What a refresh adds to the queue of each bank. */
  function RefreshCommands(cfg: Controls, s: State, g: nat, x: nat): (r: seq<Command>)
    requires Sound(cfg) && x < |s.banks|
  {
    (if GroupOf(cfg, x) == g then PrechargeCommands(cfg, s.banks[x]) else [])
    + (if x == Member(cfg, g, 0) then [Ref] else [])
  }

  lemma PushedPending(cfg: Controls, s: State, g: nat, x: nat)
    requires Tracks(cfg, s) && g < R.Count(Groups(cfg)) && x < |s.banks|
    ensures Pending(RefreshPushed(cfg, s, g), x) == Pending(s, x) + RefreshCommands(cfg, s, g, x)
  {
    var n := cfg.banksPerRefresh;
    MemberIs(cfg, g, 0);
    MemberOfGroup(cfg, x);
    var closed, h := PrechargeGroup(cfg, s, g, n), Member(cfg, g, 0);
    PrechargeGroupAt(cfg, s, g, n, x);
    PrechargeGroupTracks(cfg, s, g, n);
    Q.PushAllDisciplined(closed.q, h, [Ref]);
    var before := if GroupOf(cfg, x) == g then PrechargeCommands(cfg, s.banks[x]) else [];
    var last := if x == h then [Ref] else [];
    assert Pending(closed, x) == Pending(s, x) + before;
    assert Pending(RefreshPushed(cfg, s, g), x) == Pending(closed, x) + last;
    Reassociate(Pending(s, x), before, last);
  }

  lemma Reassociate<T>(a: seq<T>, b: seq<T>, c: seq<T>)
    ensures (a + b) + c == a + (b + c)
  {
  }

  lemma RefreshPending(cfg: Controls, s: State, g: nat, x: nat)
    requires Tracks(cfg, s) && R.Needs(Groups(cfg), s.r.counters, g) && x < |s.banks|
    ensures Pending(QueueRefresh(cfg, s, g), x) == Pending(s, x) + RefreshCommands(cfg, s, g, x)
  {
    PushedPending(cfg, s, g, x);
    assert QueueRefresh(cfg, s, g).q == RefreshPushed(cfg, s, g).q;
  }
}
