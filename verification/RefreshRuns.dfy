/** Refreshes between being queued and being issued, over whole runs of the controller: how many of a group
    wait, what its flags say of them, and when the assertion made on issuing one holds. */
module RefreshRuns {
  import opened BankShadows
  import opened Controllers
  import opened ControllerRuns
  import Q = CommandQueues
  import R = Refreshes

  function Refs(cs: seq<Command>): (r: nat) {
    if cs == [] then 0 else (if cs[0].Ref? then 1 else 0) + Refs(cs[1..])
  }

  lemma {:induction false} RefsAppend(a: seq<Command>, b: seq<Command>)
    ensures Refs(a + b) == Refs(a) + Refs(b)
  {
    if a == [] {
      assert a + b == b;
    } else {
      assert (a + b)[1..] == a[1..] + b;
      RefsAppend(a[1..], b);
    }
  }

  lemma {:induction false} RefsZero(cs: seq<Command>)
    ensures Refs(cs) == 0 <==> Ref !in cs
  {
    if cs != [] { RefsZero(cs[1..]); }
  }

  // ----- what waits, and what is flagged -----

  /** The queue that takes the refreshes of a group. */
  function HeadOf(cfg: Controls, g: nat): (r: nat)
    requires Sound(cfg) && g < R.Count(Groups(cfg))
    ensures r < BankCount(cfg) && GroupOf(cfg, r) == g
  {
    MemberIs(cfg, g, 0);
    Member(cfg, g, 0)
  }

  /** How many refreshes of a group wait to be issued. */
  function Waiting(cfg: Controls, s: State, g: nat): (r: nat)
    requires Sound(cfg) && |s.q.queues| == BankCount(cfg) && g < R.Count(Groups(cfg))
  {
    Refs(Pending(s, HeadOf(cfg, g)))
  }

  ghost predicate Flagged(cfg: Controls, s: State, g: nat)
    requires Sound(cfg) && Shaped(cfg, s)
  {
    GroupFlagged(cfg, s.banks, g)
  }

  /** Refreshes wait only in the queues of group heads, and the flags of a group agree. */
  ghost predicate InPlace(cfg: Controls, s: State, x: nat)
    requires Sound(cfg) && Shaped(cfg, s) && x < |s.banks|
  {
    MemberOfGroup(cfg, x);
    var h := HeadOf(cfg, GroupOf(cfg, x));
    (x != h ==> Refs(Pending(s, x)) == 0) && s.banks[x].refreshQueued == s.banks[h].refreshQueued
  }

  ghost predicate Arranged(cfg: Controls, s: State) {
    Sound(cfg) && Shaped(cfg, s) && forall x :: 0 <= x < |s.banks| ==> InPlace(cfg, s, x)
  }

  lemma FlaggedIs(cfg: Controls, s: State, g: nat)
    requires Arranged(cfg, s) && g < R.Count(Groups(cfg))
    ensures Flagged(cfg, s, g) == s.banks[HeadOf(cfg, g)].refreshQueued
  {
    if s.banks[HeadOf(cfg, g)].refreshQueued {
      forall x | 0 <= x < |s.banks| && GroupOf(cfg, x) == g ensures s.banks[x].refreshQueued {
        assert InPlace(cfg, s, x);
      }
    }
  }

  /** For group `g`, from `s` to `t` a refresh has been queued, or issued, or neither. */
  ghost predicate Turned(cfg: Controls, s: State, t: State, g: nat, queued: bool, issued: bool)
    requires Sound(cfg) && Shaped(cfg, s) && Shaped(cfg, t) && g < R.Count(Groups(cfg))
  {
    && (Flagged(cfg, t, g) <==> queued || (Flagged(cfg, s, g) && !issued))
    && Waiting(cfg, t, g) + (if issued then 1 else 0) == Waiting(cfg, s, g) + (if queued then 1 else 0)
  }

  // ----- what each step does to them -----

  /** A step that neither queues nor issues a refresh nor touches the flags. */
  lemma QuietTurns(cfg: Controls, s: State, t: State, g: nat)
    requires Arranged(cfg, s) && Shaped(cfg, t) && g < R.Count(Groups(cfg))
    requires forall x :: 0 <= x < |s.banks| ==>
      Refs(Pending(t, x)) == Refs(Pending(s, x)) && t.banks[x].refreshQueued == s.banks[x].refreshQueued
    ensures Arranged(cfg, t) && Turned(cfg, s, t, g, false, false)
  {
    forall x | 0 <= x < |t.banks| ensures InPlace(cfg, t, x) {
      MemberOfGroup(cfg, x);
      assert InPlace(cfg, s, x);
    }
    FlaggedIs(cfg, s, g);
    FlaggedIs(cfg, t, g);
  }

  lemma NoRefs(cfg: Controls, b: Bank, k: Case, t: Transaction)
    requires Proper(cfg) && t.address.subarray < |b.subarrays|
    ensures Refs(Commands(cfg, b, k, t)) == 0
  {
    RefsZero(Commands(cfg, b, k, t));
  }

  lemma TransactTurns(cfg: Controls, s: State, t: Transaction, g: nat)
    requires Tracks(cfg, s) && SubarraysFit(cfg, s) && Arranged(cfg, s) && Fits(cfg, t.address)
    requires g < R.Count(Groups(cfg))
    ensures Arranged(cfg, Transact(cfg, s, t)) && Turned(cfg, s, Transact(cfg, s, t), g, false, false)
  {
    HomeFits(cfg, t.address);
    var x := Home(cfg, t.address);
    var k := CaseOf(cfg, s.banks[x], s.q.queues[x] == [], t.address);
    var cs := Commands(cfg, s.banks[x], k, t);
    NoRefs(cfg, s.banks[x], k, t);
    Q.PushAllDisciplined(s.q, x, cs);
    RefsAppend(Pending(s, x), cs);
    QuietTurns(cfg, s, Transact(cfg, s, t), g);
  }

  lemma RefreshRefs(cfg: Controls, s: State, g: nat, x: nat)
    requires Tracks(cfg, s) && R.Needs(Groups(cfg), s.r.counters, g) && x < |s.banks|
    ensures Refs(Pending(QueueRefresh(cfg, s, g), x)) ==
      Refs(Pending(s, x)) + if x == HeadOf(cfg, g) then 1 else 0
  {
    RefreshPending(cfg, s, g, x);
    RefsAppend(Pending(s, x), RefreshCommands(cfg, s, g, x));
    RefsAppend(if GroupOf(cfg, x) == g then PrechargeCommands(cfg, s.banks[x]) else [],
               if x == HeadOf(cfg, g) then [Ref] else []);
  }

  lemma RefreshTurns(cfg: Controls, s: State, g: nat, h: nat)
    requires Tracks(cfg, s) && Arranged(cfg, s) && R.Needs(Groups(cfg), s.r.counters, g)
    requires h < R.Count(Groups(cfg))
    ensures Shaped(cfg, QueueRefresh(cfg, s, g)) && Arranged(cfg, QueueRefresh(cfg, s, g))
    ensures Turned(cfg, s, QueueRefresh(cfg, s, g), h, h == g, false)
  {
    var t := QueueRefresh(cfg, s, g);
    R.PositionMoves(Groups(cfg), s.r, g);
    forall x | 0 <= x < |t.banks| ensures InPlace(cfg, t, x) {
      MemberOfGroup(cfg, x);
      assert InPlace(cfg, s, x);
      RefreshedBank(cfg, s, g, x);
      RefreshedBank(cfg, s, g, HeadOf(cfg, GroupOf(cfg, x)));
      RefreshRefs(cfg, s, g, x);
    }
    RefreshedBank(cfg, s, g, HeadOf(cfg, h));
    RefreshRefs(cfg, s, g, HeadOf(cfg, h));
    FlaggedIs(cfg, s, h);
    FlaggedIs(cfg, t, h);
  }

  lemma PulseTurns(cfg: Controls, s: State, g: nat, h: nat)
    requires Tracks(cfg, s) && Arranged(cfg, s) && g < R.Count(Groups(cfg)) && h < R.Count(Groups(cfg))
    ensures Arranged(cfg, Pulse(cfg, s, g)) && Turned(cfg, s, Pulse(cfg, s, g), h, false, false)
  {
    forall x | 0 <= x < |s.banks| ensures Pulse(cfg, s, g).banks[x].refreshQueued == s.banks[x].refreshQueued {
      SetGroupAll(cfg, s.banks, g, NeedRefresh, true, x);
    }
    QuietTurns(cfg, s, Pulse(cfg, s, g), h);
  }

  /** Issuing from queue `x` leaves the rest of it; a refresh clears the flags of its group. */
  lemma IssueLeaves(cfg: Controls, s: State, x: nat, y: nat)
    requires Tracks(cfg, s) && x < |s.banks| && s.q.queues[x] != [] && s.q.lastIssue != s.q.now && y < |s.banks|
    ensures var t, c := IssueAt(cfg, s, x), s.q.queues[x][0].command;
      && Shaped(cfg, t)
      && Refs(Pending(s, y)) == Refs(Pending(t, y)) + (if y == x && c.Ref? then 1 else 0)
      && t.banks[y].refreshQueued ==
           (s.banks[y].refreshQueued && !(c.Ref? && GroupOf(cfg, y) == GroupOf(cfg, x)))
  {
    MemberOfGroup(cfg, x);
    IssueTracks(cfg, s, x);
    Q.IssueDisciplined(s.q, x);
    assert Pending(s, x)[1..] == Pending(IssueAt(cfg, s, x), x);
    SetGroupAll(cfg, s.banks, GroupOf(cfg, x), RefreshQueued, false, y);
  }

  lemma IssueTurns(cfg: Controls, s: State, x: nat, g: nat)
    requires Tracks(cfg, s) && Arranged(cfg, s) && x < |s.banks| && s.q.queues[x] != [] && s.q.lastIssue != s.q.now
    requires g < R.Count(Groups(cfg))
    ensures Shaped(cfg, IssueAt(cfg, s, x)) && Arranged(cfg, IssueAt(cfg, s, x))
    ensures Turned(cfg, s, IssueAt(cfg, s, x), g, false,
                   s.q.queues[x][0].command.Ref? && GroupOf(cfg, x) == g)
  {
    var t := IssueAt(cfg, s, x);
    IssueLeaves(cfg, s, x, x);
    assert InPlace(cfg, s, x);
    forall y | 0 <= y < |t.banks| ensures InPlace(cfg, t, y) {
      MemberOfGroup(cfg, y);
      assert InPlace(cfg, s, y);
      IssueLeaves(cfg, s, x, y);
      IssueLeaves(cfg, s, x, HeadOf(cfg, GroupOf(cfg, y)));
    }
    IssueLeaves(cfg, s, x, HeadOf(cfg, g));
    FlaggedIs(cfg, s, g);
    FlaggedIs(cfg, t, g);
  }

  /** Whether a step queues a refresh for group `g`. */
  ghost predicate Serves(cfg: Controls, s: State, step: Step, g: nat)
    requires Invariant(cfg, s) && Enabled(cfg, s, step)
  {
    step.ServeStep? && R.Search(Groups(cfg), s.r, 0, 0).group == g
  }

  /** Whether a step issues a refresh of group `g`. */
  ghost predicate Issues(cfg: Controls, s: State, step: Step, g: nat)
    requires Invariant(cfg, s) && Enabled(cfg, s, step)
  {
    step.CycleStep? &&
    (var k := Issuing(s, step.ready);
     k < |s.q.queues| &&
     (var x := Q.Scan(s.q.cur, k, |s.q.queues|);
      s.q.queues[x][0].command.Ref? && GroupOf(cfg, x) == g))
  }

  lemma TakeTurns(cfg: Controls, s: State, step: Step, g: nat)
    requires Invariant(cfg, s) && Enabled(cfg, s, step) && Arranged(cfg, s) && g < R.Count(Groups(cfg))
    ensures Arranged(cfg, Take(cfg, s, step))
    ensures Turned(cfg, s, Take(cfg, s, step), g, Serves(cfg, s, step, g), Issues(cfg, s, step, g))
  {
    R.SearchIff(Groups(cfg), s.r);
    match step {
      case TransactStep(_, t) => TransactTurns(cfg, s, t, g);
      case ServeStep => RefreshTurns(cfg, s, R.Search(Groups(cfg), s.r, 0, 0).group, g);
      case PulseStep(h) => PulseTurns(cfg, s, h, g);
      case CycleStep(ready) =>
        var k := Issuing(s, ready);
        if k < |s.q.queues| { IssueTurns(cfg, s, Q.Scan(s.q.cur, k, |s.q.queues|), g); }
        else { QuietTurns(cfg, s, s, g); }
      case TickStep =>
        Q.TickDisciplined(s.q);
        QuietTurns(cfg, s, Take(cfg, s, step), g);
    }
  }

  lemma InitialArranged(cfg: Controls)
    requires Sound(cfg) && cfg.usePrecharge
    ensures Arranged(cfg, Initial(cfg))
    ensures forall g :: 0 <= g < R.Count(Groups(cfg)) ==>
      Waiting(cfg, Initial(cfg), g) == 0 && !Flagged(cfg, Initial(cfg), g)
  {
    var s := Initial(cfg);
    InitialTracks(cfg);
    forall x | 0 <= x < |s.banks| ensures InPlace(cfg, s, x) {
      MemberOfGroup(cfg, x);
      assert Pending(s, x) == [];
    }
    forall g | 0 <= g < R.Count(Groups(cfg)) ensures Waiting(cfg, s, g) == 0 && !Flagged(cfg, s, g) {
      assert Pending(s, HeadOf(cfg, g)) == [];
      FlaggedIs(cfg, s, g);
    }
  }

  // ----- when the assertion holds -----

  /** Every refresh of the group that is issued finds the group flagged, as is asserted. */
  ghost predicate Asserted(cfg: Controls, s: State, steps: seq<Step>, g: nat)
    requires Invariant(cfg, s) && CanRun(cfg, s, steps) && g < R.Count(Groups(cfg))
    decreases |steps|
  {
    steps == [] ||
    ((Issues(cfg, s, steps[0], g) ==> Flagged(cfg, s, g)) &&
     (TakeKeeps(cfg, s, steps[0]); Asserted(cfg, Take(cfg, s, steps[0]), steps[1..], g)))
  }

  /** A refresh is only queued for the group when none waits. */
  ghost predicate OneAtATime(cfg: Controls, s: State, steps: seq<Step>, g: nat)
    requires Invariant(cfg, s) && CanRun(cfg, s, steps) && g < R.Count(Groups(cfg))
    decreases |steps|
  {
    steps == [] ||
    ((Serves(cfg, s, steps[0], g) ==> Waiting(cfg, s, g) == 0) &&
     (TakeKeeps(cfg, s, steps[0]); OneAtATime(cfg, Take(cfg, s, steps[0]), steps[1..], g)))
  }

  /** At all times the group is flagged while a refresh waits. */
  ghost predicate Shielded(cfg: Controls, s: State, steps: seq<Step>, g: nat)
    requires Invariant(cfg, s) && CanRun(cfg, s, steps) && g < R.Count(Groups(cfg))
    decreases |steps|
  {
    (Waiting(cfg, s, g) > 0 ==> Flagged(cfg, s, g)) &&
    (steps == [] || (TakeKeeps(cfg, s, steps[0]); Shielded(cfg, Take(cfg, s, steps[0]), steps[1..], g)))
  }

  /** At most one refresh waits, and the group is flagged for it. */
  ghost predicate AtMostOne(cfg: Controls, s: State, g: nat)
    requires Sound(cfg) && Shaped(cfg, s) && g < R.Count(Groups(cfg))
  {
    Waiting(cfg, s, g) <= if Flagged(cfg, s, g) then 1 else 0
  }

  lemma {:induction false} OneIsSafe(cfg: Controls, s: State, steps: seq<Step>, g: nat)
    requires Invariant(cfg, s) && CanRun(cfg, s, steps) && Arranged(cfg, s) && g < R.Count(Groups(cfg))
    requires AtMostOne(cfg, s, g) && OneAtATime(cfg, s, steps, g)
    ensures Asserted(cfg, s, steps, g) && Shielded(cfg, s, steps, g)
    ensures Arranged(cfg, Run(cfg, s, steps)) && AtMostOne(cfg, Run(cfg, s, steps), g)
    decreases |steps|
  {
    if steps != [] {
      TakeKeeps(cfg, s, steps[0]);
      TakeTurns(cfg, s, steps[0], g);
      OneIsSafe(cfg, Take(cfg, s, steps[0]), steps[1..], g);
    }
  }

  /** Each refresh that is issued uses up the flags, so those waiting must have been queued one at a time. */
  lemma {:induction false} SafeIsOne(cfg: Controls, s: State, steps: seq<Step>, g: nat, end: State)
    requires Invariant(cfg, s) && CanRun(cfg, s, steps) && Arranged(cfg, s) && g < R.Count(Groups(cfg))
    requires Asserted(cfg, s, steps, g)
    requires end == Run(cfg, s, steps) && Shaped(cfg, end) && Waiting(cfg, end, g) == 0
    ensures AtMostOne(cfg, s, g) && OneAtATime(cfg, s, steps, g)
    decreases |steps|
  {
    if steps != [] {
      TakeKeeps(cfg, s, steps[0]);
      TakeTurns(cfg, s, steps[0], g);
      SafeIsOne(cfg, Take(cfg, s, steps[0]), steps[1..], g, end);
    }
  }

  lemma {:induction false} ShieldedAsserts(cfg: Controls, s: State, steps: seq<Step>, g: nat)
    requires Invariant(cfg, s) && CanRun(cfg, s, steps) && Arranged(cfg, s) && g < R.Count(Groups(cfg))
    requires Shielded(cfg, s, steps, g)
    ensures Asserted(cfg, s, steps, g)
    decreases |steps|
  {
    if steps != [] {
      TakeKeeps(cfg, s, steps[0]);
      TakeTurns(cfg, s, steps[0], g);
      ShieldedAsserts(cfg, Take(cfg, s, steps[0]), steps[1..], g);
    }
  }

  /** From the start, every refresh of the group that is issued finds the group flagged. */
  ghost predicate AssertionHolds(cfg: Controls, steps: seq<Step>, g: nat)
    requires Sound(cfg) && cfg.usePrecharge && IsRun(cfg, steps) && g < R.Count(Groups(cfg))
  {
    InitialInvariant(cfg);
    Asserted(cfg, Initial(cfg), steps, g)
  }

  ghost predicate QueuedSingly(cfg: Controls, steps: seq<Step>, g: nat)
    requires Sound(cfg) && cfg.usePrecharge && IsRun(cfg, steps) && g < R.Count(Groups(cfg))
  {
    InitialInvariant(cfg);
    OneAtATime(cfg, Initial(cfg), steps, g)
  }

  ghost predicate AlwaysShielded(cfg: Controls, steps: seq<Step>, g: nat)
    requires Sound(cfg) && cfg.usePrecharge && IsRun(cfg, steps) && g < R.Count(Groups(cfg))
  {
    InitialInvariant(cfg);
    Shielded(cfg, Initial(cfg), steps, g)
  }

  /** In every run that leaves no refresh of the group waiting: the assertion holds whenever one is issued
      exactly when each was queued while none waited, and that is exactly when the group was flagged all
      the time that one waited. */
  lemma AssertsHoldIff(cfg: Controls, steps: seq<Step>, g: nat)
    requires Sound(cfg) && cfg.usePrecharge && IsRun(cfg, steps) && g < R.Count(Groups(cfg))
    requires Waiting(cfg, After(cfg, steps), g) == 0
    ensures AssertionHolds(cfg, steps, g) <==> QueuedSingly(cfg, steps, g)
    ensures AlwaysShielded(cfg, steps, g) <==> QueuedSingly(cfg, steps, g)
  {
    var s := Initial(cfg);
    InitialInvariant(cfg);
    InitialArranged(cfg);
    if QueuedSingly(cfg, steps, g) { OneIsSafe(cfg, s, steps, g); }
    if AlwaysShielded(cfg, steps, g) { ShieldedAsserts(cfg, s, steps, g); }
    if AssertionHolds(cfg, steps, g) { SafeIsOne(cfg, s, steps, g, After(cfg, steps)); }
  }

  /** The step chooses no transaction for a group whose refresh waits, and issues no refresh of a group that
      is not flagged. */
  ghost predicate Isolates(cfg: Controls, s: State, step: Step, g: nat)
    requires Invariant(cfg, s) && Enabled(cfg, s, step) && g < R.Count(Groups(cfg))
  {
    && (step.TransactStep? && GroupOf(cfg, Home(cfg, step.t.address)) == g ==> Waiting(cfg, s, g) == 0)
    && (Issues(cfg, s, step, g) ==> GroupFlagged(cfg, s.banks, g))
  }

  lemma OneIsolates(cfg: Controls, s: State, step: Step, g: nat)
    requires Invariant(cfg, s) && Enabled(cfg, s, step) && g < R.Count(Groups(cfg))
    requires Arranged(cfg, s) && AtMostOne(cfg, s, g)
    ensures Isolates(cfg, s, step, g)
  {
    TakeTurns(cfg, s, step, g);
    if step.TransactStep? { HomeFits(cfg, step.t.address); }
  }

  /** If refreshes of the group have so far only been queued when none waited: from the moment one is queued
      until it is issued, no transaction is chosen for any bank of the group, and the assertion made when it
      is issued holds. */
  lemma RefreshesAreIsolated(cfg: Controls, steps: seq<Step>, step: Step, g: nat)
    requires Sound(cfg) && cfg.usePrecharge && IsRun(cfg, steps) && Enabled(cfg, After(cfg, steps), step)
    requires g < R.Count(Groups(cfg)) && QueuedSingly(cfg, steps, g)
    ensures Isolates(cfg, After(cfg, steps), step, g)
  {
    InitialInvariant(cfg);
    InitialArranged(cfg);
    OneIsSafe(cfg, Initial(cfg), steps, g);
    OneIsolates(cfg, After(cfg, steps), step, g);
  }

  // ----- a run in which it fails -----

  function Repeated(n: nat): (cs: seq<Command>)
    ensures |cs| == n && forall i :: 0 <= i < n ==> cs[i] == Ref
    ensures Refs(cs) == n
  {
    if n == 0 then [] else [Ref] + Repeated(n - 1)
  }

  /** Nothing has been sent but refreshes of group 0, `n` of which wait, and none is owed. */
  ghost predicate Stacked(cfg: Controls, s: State, n: nat) {
    && Sound(cfg) && Shaped(cfg, s) && 0 < R.Count(Groups(cfg))
    && (forall x :: 0 <= x < |s.banks| ==>
          !s.banks[x].activateQueued && Pending(s, x) == if x == HeadOf(cfg, 0) then Repeated(n) else [])
    && (forall g :: 0 <= g < |s.r.counters| ==> s.r.counters[g] == 0)
  }

  /** Each pulse is followed by a refresh at once, whether or not one waits already. */
  lemma PulseServes(cfg: Controls, s: State, n: nat)
    requires Invariant(cfg, s) && cfg.threshold == 1 && Stacked(cfg, s, n)
    ensures Enabled(cfg, s, PulseStep(0))
    ensures var t := Take(cfg, s, PulseStep(0));
      && Invariant(cfg, t) && Enabled(cfg, t, ServeStep) && Serves(cfg, t, ServeStep, 0)
      && Stacked(cfg, Take(cfg, t, ServeStep), n + 1)
  {
    TakeKeeps(cfg, s, PulseStep(0));
    var t := Take(cfg, s, PulseStep(0));
    assert R.Needs(Groups(cfg), t.r.counters, 0);
    R.SearchIff(Groups(cfg), t.r);
    PulsedStays(cfg, s, n);
    ServedStacks(cfg, t, n);
  }

  /** After a pulse for group 0, which now owes a refresh. */
  ghost predicate Owing(cfg: Controls, t: State, n: nat) {
    && t.r.counters != [] && t.r.counters[0] == 1 && Stacked(cfg, t.(r := t.r.(counters := t.r.counters[0 := 0])), n)
  }

  lemma PulsedStays(cfg: Controls, s: State, n: nat)
    requires Invariant(cfg, s) && cfg.threshold == 1 && Stacked(cfg, s, n)
    ensures Owing(cfg, Pulse(cfg, s, 0), n)
  {
    var t := Pulse(cfg, s, 0);
    SetGroupFlags(cfg, s.banks, 0, NeedRefresh, true, cfg.banksPerRefresh);
    assert t.r.counters[0 := 0] == s.r.counters;
  }

  lemma ServedBank(cfg: Controls, t: State, n: nat, x: nat)
    requires Tracks(cfg, t) && cfg.threshold == 1 && Owing(cfg, t, n) && x < |t.banks|
    ensures R.Needs(Groups(cfg), t.r.counters, 0)
    ensures var u := QueueRefresh(cfg, t, 0);
      && x < |u.banks| && |u.q.queues| == |t.q.queues| && !u.banks[x].activateQueued
      && Pending(u, x) == if x == HeadOf(cfg, 0) then Repeated(n + 1) else []
  {
    RefreshedBank(cfg, t, 0, x);
    RefreshPending(cfg, t, 0, x);
    var s := t.(r := t.r.(counters := t.r.counters[0 := 0]));
    assert !s.banks[x].activateQueued && Pending(s, x) == Pending(t, x);
    RepeatedMore(n);
  }

  lemma {:induction false} RepeatedMore(n: nat)
    ensures Repeated(n) + [Ref] == Repeated(n + 1)
  {
  }

  lemma ServedStacks(cfg: Controls, t: State, n: nat)
    requires Tracks(cfg, t) && cfg.threshold == 1 && Owing(cfg, t, n)
    ensures R.Needs(Groups(cfg), t.r.counters, 0) && Stacked(cfg, QueueRefresh(cfg, t, 0), n + 1)
  {
    var u := QueueRefresh(cfg, t, 0);
    R.PositionMoves(Groups(cfg), t.r, 0);
    forall x | 0 <= x < |u.banks|
      ensures !u.banks[x].activateQueued && Pending(u, x) == if x == HeadOf(cfg, 0) then Repeated(n + 1) else []
    {
      ServedBank(cfg, t, n, x);
    }
    var s := t.(r := t.r.(counters := t.r.counters[0 := 0]));
    assert u.r.counters == s.r.counters;
  }

  /** Issues a waiting refresh of group 0: its flags are then clear. */
  lemma OneIssued(cfg: Controls, s: State, n: nat)
    requires Invariant(cfg, s) && Arranged(cfg, s) && Stacked(cfg, s, n) && n > 0 && s.q.lastIssue != s.q.now
    ensures var step := CycleStep(AllReady(cfg));
      && Enabled(cfg, s, step) && Issues(cfg, s, step, 0)
      && (var t := Take(cfg, s, step);
          Shaped(cfg, t) && Stacked(cfg, t, n - 1) && Arranged(cfg, t) && !Flagged(cfg, t, 0))
  {
    var step := CycleStep(AllReady(cfg));
    var h := HeadOf(cfg, 0);
    OnlyOneIssues(cfg, s, step.ready, h);
    TakeKeeps(cfg, s, step);
    TakeTurns(cfg, s, step, 0);
    var t := Take(cfg, s, step);
    SetGroupFlags(cfg, s.banks, 0, RefreshQueued, false, cfg.banksPerRefresh);
    assert Repeated(n)[1..] == Repeated(n - 1);
  }

  lemma TickStacks(cfg: Controls, s: State, n: nat)
    requires Invariant(cfg, s) && Stacked(cfg, s, n)
    ensures Stacked(cfg, Take(cfg, s, TickStep), n)
    ensures Take(cfg, s, TickStep).q.lastIssue != Take(cfg, s, TickStep).q.now
  {
    Q.TickDisciplined(s.q);
  }

  ghost predicate Reaches(cfg: Controls, steps: seq<Step>, n: nat)
    requires Sound(cfg) && cfg.usePrecharge
  {
    IsRun(cfg, steps) && Stacked(cfg, After(cfg, steps), n) && Arranged(cfg, After(cfg, steps))
  }

  lemma ReachesMore(cfg: Controls, steps: seq<Step>, n: nat)
    requires Sound(cfg) && cfg.usePrecharge && cfg.threshold == 1 && Reaches(cfg, steps, n)
    ensures Reaches(cfg, steps + [PulseStep(0)] + [ServeStep], n + 1)
  {
    var s := After(cfg, steps);
    PulseServes(cfg, s, n);
    AfterStep(cfg, steps, PulseStep(0));
    AfterStep(cfg, steps + [PulseStep(0)], ServeStep);
    TakeTurns(cfg, s, PulseStep(0), 0);
    TakeTurns(cfg, Take(cfg, s, PulseStep(0)), ServeStep, 0);
  }

  lemma ReachesTick(cfg: Controls, steps: seq<Step>, n: nat)
    requires Sound(cfg) && cfg.usePrecharge && Reaches(cfg, steps, n)
    ensures Reaches(cfg, steps + [TickStep], n)
    ensures var q := After(cfg, steps + [TickStep]).q; q.lastIssue != q.now
    ensures var s := After(cfg, steps); Flagged(cfg, After(cfg, steps + [TickStep]), 0) <==> Flagged(cfg, s, 0)
  {
    var s := After(cfg, steps);
    AfterStep(cfg, steps, TickStep);
    TickStacks(cfg, s, n);
    TakeTurns(cfg, s, TickStep, 0);
  }

  lemma InitialReaches(cfg: Controls)
    requires Sound(cfg) && cfg.usePrecharge
    ensures Reaches(cfg, [], 0)
  {
    InitialInvariant(cfg);
    InitialArranged(cfg);
    MemberOfGroup(cfg, 0);
  }

  lemma ReachesIssue(cfg: Controls, steps: seq<Step>, n: nat)
    requires Sound(cfg) && cfg.usePrecharge && Reaches(cfg, steps, n) && n > 0
    requires var q := After(cfg, steps).q; q.lastIssue != q.now
    ensures Enabled(cfg, After(cfg, steps), CycleStep(AllReady(cfg)))
    ensures Issues(cfg, After(cfg, steps), CycleStep(AllReady(cfg)), 0)
    ensures var more := steps + [CycleStep(AllReady(cfg))];
      Reaches(cfg, more, n - 1) && !Flagged(cfg, After(cfg, more), 0)
  {
    OneIssued(cfg, After(cfg, steps), n);
    AfterStep(cfg, steps, CycleStep(AllReady(cfg)));
  }

  lemma BothWait(cfg: Controls) returns (steps: seq<Step>)
    requires Sound(cfg) && cfg.usePrecharge && cfg.threshold == 1
    ensures steps == [PulseStep(0), ServeStep, PulseStep(0), ServeStep] && Reaches(cfg, steps, 2)
  {
    InitialReaches(cfg);
    steps := [] + [PulseStep(0)] + [ServeStep];
    ReachesMore(cfg, [], 0);
    ReachesMore(cfg, steps, 1);
    steps := steps + [PulseStep(0)] + [ServeStep];
  }

  /** A run after which all devices being ready lets a refresh of group 0 be issued that is not flagged. */
  ghost predicate FailsNext(cfg: Controls, steps: seq<Step>)
    requires Sound(cfg) && cfg.usePrecharge
  {
    var cycle := CycleStep(AllReady(cfg));
    && IsRun(cfg, steps) && 0 < R.Count(Groups(cfg))
    && Enabled(cfg, After(cfg, steps), cycle) && Issues(cfg, After(cfg, steps), cycle, 0)
    && !GroupFlagged(cfg, After(cfg, steps).banks, 0)
  }

  lemma SecondFails(cfg: Controls, steps: seq<Step>)
    requires Sound(cfg) && cfg.usePrecharge && Reaches(cfg, steps, 2)
    ensures FailsNext(cfg, steps + [TickStep] + [CycleStep(AllReady(cfg))] + [TickStep])
  {
    var a := steps + [TickStep];
    var b := a + [CycleStep(AllReady(cfg))];
    ReachesTick(cfg, steps, 2);
    ReachesIssue(cfg, a, 2);
    ReachesTick(cfg, b, 1);
    ReachesIssue(cfg, b + [TickStep], 1);
  }

  /** With a threshold of one, in every configuration: two pulses for group 0 queue two refreshes before the
      first is issued, and when the second is issued the group is not flagged any more. */
  lemma SecondUnflagged(cfg: Controls) returns (steps: seq<Step>)
    requires Sound(cfg) && cfg.usePrecharge && cfg.threshold == 1
    ensures steps ==
      [PulseStep(0), ServeStep, PulseStep(0), ServeStep, TickStep, CycleStep(AllReady(cfg)), TickStep]
    ensures FailsNext(cfg, steps)
  {
    var both := BothWait(cfg);
    SecondFails(cfg, both);
    steps := both + [TickStep] + [CycleStep(AllReady(cfg))] + [TickStep];
  }
}
