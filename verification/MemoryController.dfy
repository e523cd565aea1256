/** The memory controller as it is updated in place. */
module MemoryControllers {
  import opened BankShadows
  import opened Controllers
  import opened QueueIds
  import Q = CommandQueues
  import R = Refreshes
  import Runs = ControllerRuns
  import opened Arithmetic

  // ----- where the banks of a group are -----

  /** Group `g` is in the given rank, and its head is the given bank. */
  ghost predicate HeadAt(cfg: Controls, g: nat, rank: nat, bank: nat) {
    && Sound(cfg) && rank < cfg.ranks && g < R.Count(Groups(cfg))
    && PlaceOf(g, cfg.groups).row == rank && bank == Times(PlaceOf(g, cfg.groups).column, cfg.banksPerRefresh)
  }

  lemma HeadFits(cfg: Controls, g: nat, rank: nat, bank: nat, i: nat)
    requires HeadAt(cfg, g, rank, bank) && i < cfg.banksPerRefresh
    ensures bank + i < cfg.banks && QueueOf(cfg, rank, bank + i) == Member(cfg, g, i)
  {
    var p := PlaceOf(g, cfg.groups);
    PlaceFits(g, cfg.groups, cfg.ranks);
    NumberFits(Place(p.column, i), cfg.banksPerRefresh, cfg.groups);
  }

  /** Position `k` of a search that starts at group `next` of a rank. */
  lemma ScannedBank(cfg: Controls, next: nat, k: nat)
    requires Sound(cfg) && next < cfg.groups && k < cfg.groups
    ensures (Times(next, cfg.banksPerRefresh) + k * cfg.banksPerRefresh) % cfg.banks
      == Times(Wrap(next + k, cfg.groups), cfg.banksPerRefresh)
    ensures Wrap(next + k, cfg.groups) < cfg.groups
  {
    var n, m, b := cfg.banksPerRefresh, cfg.groups, cfg.banks;
    var w := Wrap(next + k, m);
    TimesIs(next, n);
    TimesIs(k, n);
    TimesIs(next + k, n);
    TimesIs(w, n);
    TimesIs(m, n);
    TimesOrder(w, m, n);
    Distribute(n, next, k);
    if next + k < m {
      Remainder(Times(next + k, n), 0, b);
    } else {
      Distribute(n, w, m);
      Remainder(Times(w, n), 1, b);
    }
  }

  lemma Remainder(r: nat, q: nat, b: nat)
    requires r < b
    ensures (q * b + r) % b == r
  {
    QuotientIs(q * b + r, b, q, r);
  }

  lemma WrappedRank(next: nat, i: nat, n: nat)
    requires next < n && i < n
    ensures (next + i) % n == Wrap(next + i, n) < n
  {
  }

  lemma GroupHead(cfg: Controls, rank: nat, group: nat)
    requires Sound(cfg) && rank < cfg.ranks && group < cfg.groups
    ensures HeadAt(cfg, R.GroupNumber(Groups(cfg), rank, group), rank, Times(group, cfg.banksPerRefresh))
  {
    PlaceOfNumber(Place(rank, group), cfg.groups);
    NumberFits(Place(rank, group), cfg.groups, cfg.ranks);
  }

  method Modulo(r: nat, b: nat) returns (m: nat)
    requires r < b
    ensures m == r
  {
    m := r % b;
    Remainder(r, 0, b);
  }

  /** The queue of bank `i` of a group, counted from its head. */
  method MemberQueue(cfg: Controls, ghost g: nat, rank: nat, bank: nat, i: nat) returns (x: nat)
    requires HeadAt(cfg, g, rank, bank) && i < cfg.banksPerRefresh
    ensures x == Member(cfg, g, i) && x < BankCount(cfg)
  {
    HeadFits(cfg, g, rank, bank, i);
    var refBank := Modulo(i + bank, cfg.banks);
    MemberIs(cfg, g, i);
    x := GetCommandQueueId(Queues(cfg), BankId(rank, refBank, 0));
  }

  /** The group of a bank. */
  method GroupOfBank(cfg: Controls, rank: nat, bank: nat) returns (g: nat, head: nat)
    requires Sound(cfg) && rank < cfg.ranks && bank < cfg.banks
    ensures g == GroupOf(cfg, QueueOf(cfg, rank, bank)) && HeadAt(cfg, g, rank, head)
  {
    var group := bank / cfg.banksPerRefresh;
    PlaceIs(bank, cfg.banksPerRefresh);
    PlaceFits(bank, cfg.banksPerRefresh, cfg.groups);
    BankOfQueue(Queues(cfg), BankId(rank, bank, 0));
    TimesIs(group, cfg.banksPerRefresh);
    TimesIs(rank, cfg.groups);
    GroupHead(cfg, rank, group);
    g := rank * cfg.groups + group;
    head := group * cfg.banksPerRefresh;
  }

  // ----- sequences of refreshes -----

  /** One refresh, of the group the search finds first. */
  ghost predicate RefreshedTo(cfg: Controls, s: State, t: State)
    requires Sound(cfg) && Shaped(cfg, s)
  {
    var f := R.Search(Groups(cfg), s.r, 0, 0);
    f.Found? && R.Needs(Groups(cfg), s.r.counters, f.group) && t == QueueRefresh(cfg, s, f.group)
  }

  /** `states` are reached one after the other, by one refresh each. */
  ghost predicate Refreshes(cfg: Controls, states: seq<State>) {
    && states != [] && (forall i :: 0 <= i < |states| ==> Sound(cfg) && Shaped(cfg, states[i]))
    && forall i :: 0 <= i < |states| - 1 ==> RefreshedTo(cfg, states[i], states[i + 1])
  }

  ghost predicate Path(cfg: Controls, states: seq<State>, s: State, t: State) {
    Refreshes(cfg, states) && states[0] == s && states[|states| - 1] == t
  }

  lemma JoinPaths(cfg: Controls, a: seq<State>, b: seq<State>, s: State, t: State, u: State)
    requires Path(cfg, a, s, t) && Path(cfg, b, t, u)
    ensures Path(cfg, a + b[1..], s, u)
  {
  }

  /** Refreshes queued along the way are steps of a run, so they keep what every run keeps. */
  lemma {:induction false} PathKeeps(cfg: Controls, path: seq<State>, s: State, t: State)
    requires Path(cfg, path, s, t) && Runs.Invariant(cfg, s)
    ensures Runs.Invariant(cfg, t)
    decreases |path|
  {
    if |path| > 1 {
      assert RefreshedTo(cfg, path[0], path[1]);
      Runs.TakeKeeps(cfg, s, Runs.ServeStep);
      forall i | 0 <= i < |path[1..]| - 1 ensures RefreshedTo(cfg, path[1..][i], path[1..][i + 1]) {
        assert RefreshedTo(cfg, path[i + 1], path[i + 2]);
      }
      PathKeeps(cfg, path[1..], path[1], t);
    }
  }

  lemma OneRefresh(cfg: Controls, s: State, t: State)
    requires Sound(cfg) && Shaped(cfg, s) && Shaped(cfg, t) && RefreshedTo(cfg, s, t)
    ensures Path(cfg, [s, t], s, t)
  {
  }

  lemma RefreshShaped(cfg: Controls, s: State, g: nat)
    requires Sound(cfg) && Shaped(cfg, s) && R.Needs(Groups(cfg), s.r.counters, g)
    ensures Shaped(cfg, QueueRefresh(cfg, s, g))
    ensures SubarraysFit(cfg, s) ==> SubarraysFit(cfg, QueueRefresh(cfg, s, g))
  {
    R.PositionMoves(Groups(cfg), s.r, g);
    if SubarraysFit(cfg, s) { SubarraysStay(cfg, s, g); }
  }

  lemma SubarraysStay(cfg: Controls, s: State, g: nat)
    requires Sound(cfg) && Shaped(cfg, s) && R.Needs(Groups(cfg), s.r.counters, g) && SubarraysFit(cfg, s)
    ensures SubarraysFit(cfg, QueueRefresh(cfg, s, g))
  {
    var n := cfg.banksPerRefresh;
    var closed := PrechargeGroup(cfg, s, g, n);
    PrechargedSubarrays(cfg, s, g, n);
    var flagged := SetGroup(cfg, closed.banks, g, RefreshQueued, true, n);
    SetGroupFlags(cfg, closed.banks, g, RefreshQueued, true, n);
    SetGroupFlags(cfg, flagged, g, Flag.NeedRefresh, false, n);
  }

  lemma {:induction false} PrechargedSubarrays(cfg: Controls, s: State, g: nat, k: nat)
    requires Sound(cfg) && Shaped(cfg, s) && g < R.Count(Groups(cfg)) && k <= cfg.banksPerRefresh
    requires SubarraysFit(cfg, s)
    ensures SubarraysFit(cfg, PrechargeGroup(cfg, s, g, k))
  {
    if k > 0 {
      PrechargedSubarrays(cfg, s, g, k - 1);
      MemberIs(cfg, g, k - 1);
    }
  }

  /** The commands at the head of the queues stay there. */
  ghost predicate HeadsStay(a: seq<seq<Q.Entry>>, b: seq<seq<Q.Entry>>) {
    |a| == |b| && forall x :: 0 <= x < |a| && a[x] != [] ==> b[x] != [] && b[x][0] == a[x][0]
  }

  lemma {:induction false} PushAllHeads(s: Q.Queues, q: nat, cs: seq<Command>)
    requires q < |s.queues| == |s.pushed|
    ensures HeadsStay(s.queues, Q.PushAll(s, q, cs).queues)
    decreases |cs|
  {
    if cs != [] { PushAllHeads(s, q, cs[..|cs| - 1]); }
  }

  lemma {:induction false} PrechargeHeads(cfg: Controls, s: State, g: nat, k: nat)
    requires Sound(cfg) && Shaped(cfg, s) && g < R.Count(Groups(cfg)) && k <= cfg.banksPerRefresh
    ensures HeadsStay(s.q.queues, PrechargeGroup(cfg, s, g, k).q.queues)
  {
    if k > 0 {
      PrechargeHeads(cfg, s, g, k - 1);
      MemberIs(cfg, g, k - 1);
      var t, x := PrechargeGroup(cfg, s, g, k - 1), Member(cfg, g, k - 1);
      PushAllHeads(t.q, x, PrechargeCommands(cfg, t.banks[x]));
    }
  }

  lemma RefreshHeads(cfg: Controls, s: State, t: State)
    requires Sound(cfg) && Shaped(cfg, s) && RefreshedTo(cfg, s, t)
    ensures HeadsStay(s.q.queues, t.q.queues)
  {
    var g := R.Search(Groups(cfg), s.r, 0, 0).group;
    MemberIs(cfg, g, 0);
    PrechargeHeads(cfg, s, g, cfg.banksPerRefresh);
    PushAllHeads(PrechargeGroup(cfg, s, g, cfg.banksPerRefresh).q, Member(cfg, g, 0), [Ref]);
  }

  lemma {:induction false} PathHeads(cfg: Controls, path: seq<State>, s: State, t: State)
    requires Path(cfg, path, s, t)
    ensures HeadsStay(s.q.queues, t.q.queues)
    decreases |path|
  {
    if |path| > 1 {
      assert RefreshedTo(cfg, path[0], path[1]);
      RefreshHeads(cfg, path[0], path[1]);
      forall i | 0 <= i < |path[1..]| - 1 ensures RefreshedTo(cfg, path[1..][i], path[1..][i + 1]) {
        assert RefreshedTo(cfg, path[i + 1], path[i + 2]);
      }
      PathHeads(cfg, path[1..], path[1], t);
    }
  }

  // ----- the controller -----

  datatype Outcome = NothingIssued | Issued(queue: nat) | AssertionFailed

  class MemoryController {
    const cfg: Controls

    var banks: seq<Bank>
    var commandQueues: seq<seq<Q.Entry>>
    var curQueue: nat
    var lastIssueCycle: nat
    var delayedRefreshCounter: seq<nat>
    var nextRefreshRank: nat
    var nextRefreshBank: nat

    /** The current cycle, and the controller's own events in the event queue: whether issued commands are
        removed in the next cycle, and when the command queues are looked at again. */
    var now: nat
    var cleanupScheduled: bool
    var wakeups: set<nat>

    /** The interval of the refresh pulses, and when the next pulse of each group comes. */
    const tREFI: nat
    var nextPulse: map<nat, nat>

    /** The last cycle a refresh was queued in, or -1. */
    var handledRefresh: int

    ghost var nextRefreshGroup: nat
    ghost var pushed: seq<seq<Command>>
    ghost var log: seq<Q.Issue>
    ghost var pulsed: seq<nat>
    ghost var served: seq<nat>
    ghost var device: seq<seq<RowState>>

    ghost function QueueState(): (r: Q.Queues)
      reads `commandQueues, `curQueue, `lastIssueCycle, `now, `cleanupScheduled, `pushed, `log
    {
      Q.Queues(commandQueues, curQueue, lastIssueCycle, now, cleanupScheduled, pushed, log)
    }

    ghost function RefreshState(): (r: R.Refresher)
      reads `delayedRefreshCounter, `nextRefreshRank, `nextRefreshGroup, `pulsed, `served
    {
      R.Refresher(delayedRefreshCounter, nextRefreshRank, nextRefreshGroup, pulsed, served)
    }

    ghost function State(): (r: State)
      reads `commandQueues, `curQueue, `lastIssueCycle, `now, `cleanupScheduled, `pushed, `log
      reads `delayedRefreshCounter, `nextRefreshRank, `nextRefreshGroup, `pulsed, `served
      reads `banks, `device
    {
      Controllers.State(QueueState(), banks, RefreshState(), device)
    }

    ghost predicate Valid()
      reads this
    {
      && Sound(cfg) && Shaped(cfg, State()) && SubarraysFit(cfg, State())
      && nextRefreshBank == Times(nextRefreshGroup, cfg.banksPerRefresh)
    }

    /** The first pulses are those that `RefreshTimers.FirstPulses` computes. */
    constructor (cfg: Controls, tREFI: nat, pulses: seq<nat>)
      requires Sound(cfg)
      ensures Valid() && this.cfg == cfg && State() == Initial(cfg) && wakeups == {}
      ensures this.tREFI == tREFI && nextPulse == map g | 0 <= g < |pulses| :: pulses[g]
    {
      this.cfg, this.tREFI := cfg, tREFI;
      nextPulse := map g | 0 <= g < |pulses| :: pulses[g];
      var s := Initial(cfg);
      banks, commandQueues := s.banks, s.q.queues;
      curQueue, lastIssueCycle, now, cleanupScheduled, wakeups := 0, 0, 0, false, {};
      handledRefresh := -1;
      delayedRefreshCounter, nextRefreshRank, nextRefreshBank := s.r.counters, 0, 0;
      nextRefreshGroup, pushed, log, pulsed, served, device := 0, s.q.pushed, [], [], [], s.device;
    }

    // ----- command queues -----

    method Push(x: nat, c: Command)
      requires x < |commandQueues| == |pushed|
      modifies `commandQueues, `pushed
      ensures QueueState() == Q.Push(old(QueueState()), x, c)
    {
      commandQueues := commandQueues[x := commandQueues[x] + [Q.Entry(c, false)]];
      pushed := pushed[x := pushed[x] + [c]];
    }

    method EffectivelyEmpty(x: nat) returns (r: bool)
      requires x < |commandQueues|
      ensures r == Q.EffectivelyEmpty(commandQueues[x])
    {
      r := commandQueues[x] == [] || (|commandQueues[x]| == 1 && commandQueues[x][0].issued);
    }

    method MoveCurrentQueue()
      requires |commandQueues| > 0
      modifies `curQueue
      ensures curQueue == Q.Moved(old(curQueue), |commandQueues|)
    {
      curQueue := curQueue + 1;
      if curQueue > |commandQueues| { curQueue := 0; }
    }

    // ----- refresh flags and counters -----

    method NeedRefresh(g: nat) returns (r: bool)
      requires g < |delayedRefreshCounter|
      ensures r == R.Needs(Groups(cfg), delayedRefreshCounter, g)
    {
      r := delayedRefreshCounter[g] >= cfg.threshold;
    }

    /** Sets a flag of all banks of a group. */
    method SetGroupFlag(ghost g: nat, rank: nat, bank: nat, f: Flag, v: bool)
      requires HeadAt(cfg, g, rank, bank) && |banks| == BankCount(cfg)
      modifies `banks
      ensures banks == SetGroup(cfg, old(banks), g, f, v, cfg.banksPerRefresh)
    {
      for i := 0 to cfg.banksPerRefresh
        invariant |banks| == BankCount(cfg) && banks == SetGroup(cfg, old(banks), g, f, v, i)
      {
        var x := MemberQueue(cfg, g, rank, bank, i);
        banks := banks[x := SetFlag(banks[x], f, v)];
      }
    }

    /** A refresh pulse for the group of a bank. The next one is inserted an interval later. */
    method ProcessRefreshPulse(rank: nat, bank: nat)
      requires Valid() && rank < cfg.ranks && bank < cfg.banks
      modifies `banks, `delayedRefreshCounter, `pulsed, `nextPulse
      ensures GroupOf(cfg, QueueOf(cfg, rank, bank)) < R.Count(Groups(cfg))
      ensures nextPulse == old(nextPulse)[GroupOf(cfg, QueueOf(cfg, rank, bank)) := now + tREFI]
      ensures State() == Pulse(cfg, old(State()), GroupOf(cfg, QueueOf(cfg, rank, bank)))
    {
      var g, head := GroupOfBank(cfg, rank, bank);
      PulseGroup(g, rank, head);
      nextPulse := nextPulse[g := now + tREFI];
      assert QueueState() == old(QueueState());
    }

    method PulseGroup(g: nat, rank: nat, head: nat)
      requires HeadAt(cfg, g, rank, head) && |banks| == BankCount(cfg)
      requires R.Sized(Groups(cfg), RefreshState())
      modifies `banks, `delayedRefreshCounter, `pulsed
      ensures RefreshState() == R.Pulse(old(RefreshState()), g)
      ensures banks == if R.Needs(Groups(cfg), delayedRefreshCounter, g)
                       then SetGroup(cfg, old(banks), g, Flag.NeedRefresh, true, cfg.banksPerRefresh) else old(banks)
    {
      delayedRefreshCounter := delayedRefreshCounter[g := delayedRefreshCounter[g] + 1];
      pulsed := pulsed + [g];
      var needed := NeedRefresh(g);
      if needed { SetGroupFlag(g, rank, head, Flag.NeedRefresh, true); }
    }

    // ----- serving transactions -----

    method SubarrayActive(subarrays: seq<Sub>) returns (r: bool)
      ensures r == SomeActive(subarrays)
    {
      for i := 0 to |subarrays|
        invariant forall j :: 0 <= j < i ==> !subarrays[j].active
      {
        if subarrays[i].active { return true; }
      }
      r := false;
    }

    method OpenBank(x: nat, t: Transaction)
      requires Valid() && x < |banks| && t.address.subarray < cfg.subarrays
      modifies `banks, `commandQueues, `pushed
      ensures banks == old(banks)[x := Served(cfg, old(banks[x]), Case.OpenBank, t)]
      ensures QueueState() == Q.PushAll(old(QueueState()), x, Commands(cfg, old(banks[x]), Case.OpenBank, t))
    {
      var a := t.address;
      ghost var q := QueueState();
      var s := Sub(true, a.row, a.col / cfg.rbSize, 0);
      var active := true;
      Push(x, Act(a.subarray, a.row));
      if t.last && cfg.usePrecharge {
        Push(x, Access(a.subarray, a.row, true, t.id));
        s := s.(active := false, row := cfg.rows, muxed := cfg.rows);
        active := false;
      } else {
        Push(x, Access(a.subarray, a.row, false, t.id));
      }
      PushTwo(q, x, Act(a.subarray, a.row), Access(a.subarray, a.row, Closing(cfg, t), t.id));
      banks := banks[x := banks[x].(activateQueued := active, subarrays := banks[x].subarrays[a.subarray := s])];
    }

    method OpenAnother(x: nat, t: Transaction)
      requires Valid() && x < |banks| && t.address.subarray < cfg.subarrays && banks[x].activateQueued
      modifies `banks, `commandQueues, `pushed
      ensures banks == old(banks)[x := Served(cfg, old(banks[x]), Miss, t)]
      ensures QueueState() == Q.PushAll(old(QueueState()), x, Commands(cfg, old(banks[x]), Miss, t))
    {
      var a := t.address;
      ghost var q, first := QueueState(), [];
      if banks[x].subarrays[a.subarray].active && cfg.usePrecharge {
        Push(x, Pre(a.subarray));
        first := [Pre(a.subarray)];
        PushOne(q, x, Pre(a.subarray));
      }
      Push(x, Act(a.subarray, a.row));
      Push(x, Access(a.subarray, a.row, false, t.id));
      PushTwoMore(q, x, first, Act(a.subarray, a.row), Access(a.subarray, a.row, false, t.id));
      var s := Sub(true, a.row, a.col / cfg.rbSize, 0);
      banks := banks[x := banks[x].(subarrays := banks[x].subarrays[a.subarray := s])];
    }

    method UseOpen(x: nat, t: Transaction)
      requires Valid() && x < |banks| && t.address.subarray < cfg.subarrays
      modifies `banks, `commandQueues, `pushed
      ensures banks == old(banks)[x := Served(cfg, old(banks[x]), RowHit, t)]
      ensures QueueState() == Q.PushAll(old(QueueState()), x, Commands(cfg, old(banks[x]), RowHit, t))
    {
      var a, b := t.address, banks[x];
      var s := b.subarrays[a.subarray];
      s := s.(starvation := s.starvation + 1);
      PushOne(QueueState(), x, Access(a.subarray, a.row, Closing(cfg, t), t.id));
      if t.last && cfg.usePrecharge {
        Push(x, Access(a.subarray, a.row, true, t.id));
        s := s.(active := false, row := cfg.rows, muxed := cfg.rows);
        b := b.(subarrays := b.subarrays[a.subarray := s]);
        var active := SubarrayActive(b.subarrays);
        b := b.(activateQueued := active);
      } else {
        Push(x, Access(a.subarray, a.row, false, t.id));
        b := b.(subarrays := b.subarrays[a.subarray := s]);
      }
      banks := banks[x := b];
    }

    /** Queues the commands for a transaction, unless it has to wait. */
    method QueueTransaction(t: Transaction) returns (rv: bool)
      requires Valid() && Fits(cfg, t.address)
      modifies `banks, `commandQueues, `pushed
      ensures State() == Transact(cfg, old(State()), t)
      ensures Home(cfg, t.address) < old(|banks|)
      ensures var x := Home(cfg, t.address);
        rv == !CaseOf(cfg, old(banks[x]), old(commandQueues[x]) == [], t.address).Refused?
    {
      var a := t.address;
      HomeFits(cfg, a);
      var x := GetCommandQueueId(Queues(cfg), BankId(a.rank, a.bank, 0));
      var b, empty := banks[x], commandQueues[x] == [];
      var s := b.subarrays[a.subarray];
      var hit := s.active && s.row == a.row && s.muxed == a.col / cfg.rbSize;
      rv := true;
      if !b.activateQueued && empty {
        OpenBank(x, t);
      } else if b.activateQueued && !hit && empty {
        OpenAnother(x, t);
      } else if b.activateQueued && hit {
        UseOpen(x, t);
      } else {
        rv := false;
      }
    }

    // ----- refreshes -----

    /** Searches for a group that needs a refresh, from the round-robin position on. */
    method FindGroup() returns (f: R.Found, rank: nat, bank: nat)
      requires Valid()
      ensures f == R.Search(Groups(cfg), RefreshState(), 0, 0)
      ensures f.Found? ==> HeadAt(cfg, f.group, rank, bank)
    {
      ghost var r := RefreshState();
      rank, bank := 0, 0;
      for i := 0 to cfg.ranks
        invariant R.Search(Groups(cfg), r, 0, 0) == R.Search(Groups(cfg), r, i, 0)
      {
        rank := ScanRank(i);
        for k := 0 to cfg.groups
          invariant R.Search(Groups(cfg), r, 0, 0) == R.Search(Groups(cfg), r, i, k)
        {
          var g;
          bank, g := ScanBank(i, k, rank);
          var needed := NeedRefresh(g);
          if needed { return R.Found.Found(g), rank, bank; }
        }
      }
      f := R.NotFound;
    }

    method ScanRank(i: nat) returns (rank: nat)
      requires Valid() && i < cfg.ranks
      ensures rank == Wrap(nextRefreshRank + i, cfg.ranks) < cfg.ranks
    {
      rank := (nextRefreshRank + i) % cfg.ranks;
      WrappedRank(nextRefreshRank, i, cfg.ranks);
    }

    method ScanBank(ghost i: nat, k: nat, rank: nat) returns (bank: nat, g: nat)
      requires Valid() && i < cfg.ranks && k < cfg.groups && rank == Wrap(nextRefreshRank + i, cfg.ranks) < cfg.ranks
      ensures g == R.Visit(Groups(cfg), nextRefreshRank, nextRefreshGroup, i, k) < |delayedRefreshCounter|
      ensures HeadAt(cfg, g, rank, bank)
    {
      ScannedBank(cfg, nextRefreshGroup, k);
      bank := (nextRefreshBank + k * cfg.banksPerRefresh) % cfg.banks;
      GroupHead(cfg, rank, Wrap(nextRefreshGroup + k, cfg.groups));
      g := HeadNumber(R.Visit(Groups(cfg), nextRefreshRank, nextRefreshGroup, i, k), rank, bank);
    }

    method HeadNumber(ghost g: nat, rank: nat, bank: nat) returns (r: nat)
      requires HeadAt(cfg, g, rank, bank)
      ensures r == g
    {
      var p := PlaceOf(g, cfg.groups);
      NumberOfPlace(g, cfg.groups);
      TimesIs(p.column, cfg.banksPerRefresh);
      QuotientIs(bank, cfg.banksPerRefresh, p.column, 0);
      TimesIs(rank, cfg.groups);
      r := rank * cfg.groups + bank / cfg.banksPerRefresh;
    }

    /** Closes a bank in front of a refresh. */
    method PrechargeBank(x: nat)
      requires x < |banks| == |commandQueues| == |pushed|
      modifies `banks, `commandQueues, `pushed
      ensures State() == PrechargeOne(cfg, old(State()), x)
    {
      if banks[x].activateQueued && cfg.usePrecharge {
        PushOne(QueueState(), x, PreAll);
        Push(x, PreAll);
        var subs := CloseAll(banks[x].subarrays);
        banks := banks[x := banks[x].(activateQueued := false, subarrays := subs)];
      } else {
        assert banks[x := banks[x]] == banks;
      }
    }

    method CloseAll(subarrays: seq<Sub>) returns (r: seq<Sub>)
      ensures r == AllClosed(cfg, subarrays)
    {
      r := subarrays;
      for i := 0 to |subarrays|
        invariant |r| == |subarrays|
        invariant forall j :: 0 <= j < i ==> r[j] == Closed(cfg, subarrays[j])
        invariant forall j :: i <= j < |r| ==> r[j] == subarrays[j]
      {
        r := r[i := r[i].(active := false, row := cfg.rows, muxed := cfg.rows)];
      }
    }

    method PrechargeBanks(ghost g: nat, rank: nat, bank: nat)
      requires Valid() && HeadAt(cfg, g, rank, bank)
      modifies `banks, `commandQueues, `pushed
      ensures State() == PrechargeGroup(cfg, old(State()), g, cfg.banksPerRefresh)
    {
      ghost var s := State();
      for i := 0 to cfg.banksPerRefresh
        invariant State() == PrechargeGroup(cfg, s, g, i)
      {
        var x := MemberQueue(cfg, g, rank, bank, i);
        PrechargeBank(x);
      }
    }

    /** The search position moves on by one group. */
    method MoveRefreshPosition()
      requires Sound(cfg) && nextRefreshRank < cfg.ranks && nextRefreshGroup < cfg.groups
      requires nextRefreshBank == Times(nextRefreshGroup, cfg.banksPerRefresh)
      modifies `nextRefreshBank, `nextRefreshRank, `nextRefreshGroup
      ensures nextRefreshBank == Times(nextRefreshGroup, cfg.banksPerRefresh)
      ensures var wrapped := old(nextRefreshGroup) + 1 >= cfg.groups;
        && nextRefreshGroup == (if wrapped then 0 else old(nextRefreshGroup) + 1)
        && nextRefreshRank == if wrapped then R.Next(old(nextRefreshRank), cfg.ranks) else old(nextRefreshRank)
    {
      var n := nextRefreshGroup + 1;
      assert Times(n, cfg.banksPerRefresh) == nextRefreshBank + cfg.banksPerRefresh;
      if n < cfg.groups { TimesOrder(n, cfg.groups, cfg.banksPerRefresh); }
      nextRefreshBank := nextRefreshBank + cfg.banksPerRefresh;
      nextRefreshGroup := n;
      if nextRefreshBank >= cfg.banks {
        nextRefreshBank, nextRefreshGroup := 0, 0;
        nextRefreshRank := nextRefreshRank + 1;
        if nextRefreshRank == cfg.ranks { nextRefreshRank := 0; }
      }
    }

    /** Counts a refresh that has been queued. */
    method CountRefresh(g: nat)
      requires Sound(cfg) && R.Sized(Groups(cfg), RefreshState())
      requires nextRefreshBank == Times(nextRefreshGroup, cfg.banksPerRefresh)
      requires R.Needs(Groups(cfg), delayedRefreshCounter, g)
      modifies `delayedRefreshCounter, `served, `nextRefreshBank, `nextRefreshRank, `nextRefreshGroup
      ensures RefreshState() == R.Serve(Groups(cfg), old(RefreshState()), g)
      ensures nextRefreshBank == Times(nextRefreshGroup, cfg.banksPerRefresh)
    {
      delayedRefreshCounter := delayedRefreshCounter[g := delayedRefreshCounter[g] - 1];
      served := served + [g];
      MoveRefreshPosition();
    }

    /** The marks of a group go when it owes no more refreshes. */
    method UpdateMarks(g: nat, rank: nat, bank: nat)
      requires HeadAt(cfg, g, rank, bank) && |banks| == BankCount(cfg) && g < |delayedRefreshCounter|
      modifies `banks
      ensures banks == if R.Needs(Groups(cfg), delayedRefreshCounter, g) then old(banks)
                       else SetGroup(cfg, old(banks), g, Flag.NeedRefresh, false, cfg.banksPerRefresh)
    {
      var needed := NeedRefresh(g);
      if !needed { SetGroupFlag(g, rank, bank, Flag.NeedRefresh, false); }
    }

    /** Closes a group and queues its refresh. */
    method PushRefresh(ghost g: nat, rank: nat, bank: nat)
      requires Valid() && HeadAt(cfg, g, rank, bank)
      modifies `banks, `commandQueues, `pushed
      ensures State() == RefreshPushed(cfg, old(State()), g)
    {
      PrechargeBanks(g, rank, bank);
      var x := MemberQueue(cfg, g, rank, bank, 0);
      PushOne(QueueState(), x, Ref);
      Push(x, Ref);
    }

    /** Queues a refresh of a group. */
    method RefreshGroup(g: nat, rank: nat, bank: nat)
      requires Valid() && HeadAt(cfg, g, rank, bank) && R.Needs(Groups(cfg), delayedRefreshCounter, g)
      modifies `banks, `commandQueues, `pushed
      modifies `delayedRefreshCounter, `served, `nextRefreshBank, `nextRefreshRank, `nextRefreshGroup
      ensures Valid() && State() == QueueRefresh(cfg, old(State()), g)
    {
      ghost var s := State();
      PushRefresh(g, rank, bank);
      SetGroupFlag(g, rank, bank, RefreshQueued, true);
      CountRefresh(g);
      UpdateMarks(g, rank, bank);
      assert QueueState() == RefreshPushed(cfg, s, g).q;
      RefreshShaped(cfg, s, g);
      assert State() == QueueRefresh(cfg, s, g);
    }

    // ----- waking up -----

    ghost predicate GroupEmpty(g: nat)
      requires Sound(cfg) && |commandQueues| == BankCount(cfg) && g < R.Count(Groups(cfg))
      reads `commandQueues
    {
      forall i | 0 <= i < cfg.banksPerRefresh ::
        (MemberIs(cfg, g, i); Q.EffectivelyEmpty(commandQueues[Member(cfg, g, i)]))
    }

    /** A group that needs a refresh, and has nothing else left to do. */
    ghost predicate GroupReady(g: nat)
      requires Sound(cfg) && |commandQueues| == BankCount(cfg) && g < R.Count(Groups(cfg))
      reads `commandQueues, `delayedRefreshCounter
    {
      R.Needs(Groups(cfg), delayedRefreshCounter, g) && GroupEmpty(g)
    }

    ghost predicate NoneReady()
      requires Sound(cfg) && |commandQueues| == BankCount(cfg)
      reads `commandQueues, `delayedRefreshCounter
    {
      forall g :: 0 <= g < R.Count(Groups(cfg)) ==> !GroupReady(g)
    }

    method IsRefreshBankQueueEmpty(ghost g: nat, rank: nat, head: nat) returns (r: bool)
      requires HeadAt(cfg, g, rank, head) && |commandQueues| == BankCount(cfg)
      ensures r == GroupEmpty(g)
    {
      for i := 0 to cfg.banksPerRefresh
        invariant forall k | 0 <= k < i :: (MemberIs(cfg, g, k); Q.EffectivelyEmpty(commandQueues[Member(cfg, g, k)]))
      {
        var x := MemberQueue(cfg, g, rank, head, i);
        var empty := EffectivelyEmpty(x);
        if !empty { return false; }
      }
      r := true;
    }

    /** A wakeup at `t` comes no later than the head of queue `x` can be issued, or in the next cycle. */
    ghost predicate InTime(x: nat, t: nat, due: (nat, Command) -> nat)
      requires x < |commandQueues| && commandQueues[x] != []
      reads `commandQueues, `now
    {
      t <= now + 1 || t <= due(x, commandQueues[x][0].command)
    }

    /** The head of queue `x` is not forgotten: a wakeup is scheduled in time, or `next` is one. */
    ghost predicate Covered(x: nat, next: nat, due: (nat, Command) -> nat)
      requires x < |commandQueues|
      reads `commandQueues, `now, `wakeups
    {
      commandQueues[x] == [] || InTime(x, next, due) || exists t :: t in wakeups && now < t && InTime(x, t, due)
    }

    ghost predicate Scheduled(x: nat, due: (nat, Command) -> nat)
      requires x < |commandQueues|
      reads `commandQueues, `now, `wakeups
    {
      commandQueues[x] == [] || exists t :: t in wakeups && now < t && InTime(x, t, due)
    }

    ghost predicate AllScheduled(due: (nat, Command) -> nat)
      reads `commandQueues, `now, `wakeups
    {
      forall x :: 0 <= x < |commandQueues| ==> Scheduled(x, due)
    }

    /** There is a reason to look at the queues at `t`: some head can be issued then, or it is the next
        cycle; the largest cycle number stands for none. */
    ghost predicate Reasoned(t: nat, due: (nat, Command) -> nat)
      reads `commandQueues, `now
    {
      t == MAX_UINT64 || t == now + 1
      || exists x :: 0 <= x < |commandQueues| && commandQueues[x] != [] && t == due(x, commandQueues[x][0].command)
    }

    /** `t` is in time for the head of the bank's queue. */
    ghost predicate HeadInTime(r: nat, b: nat, t: nat, due: (nat, Command) -> nat)
      requires Sound(cfg) && |commandQueues| == BankCount(cfg) && r < cfg.ranks && b < cfg.banks
      reads `commandQueues, `now
    {
      BankOfQueue(Queues(cfg), BankId(r, b, 0));
      commandQueues[QueueOf(cfg, r, b)] == [] || InTime(QueueOf(cfg, r, b), t, due)
    }

    /** `t` is in time for the first `n` banks of a rank. */
    ghost predicate RankInTime(r: nat, n: nat, t: nat, due: (nat, Command) -> nat)
      requires Sound(cfg) && |commandQueues| == BankCount(cfg) && r < cfg.ranks && n <= cfg.banks
      reads `commandQueues, `now
    {
      forall b: nat :: b < n ==> HeadInTime(r, b, t, due)
    }

    /** `t` is in time for the first `n` ranks. */
    ghost predicate RanksInTime(n: nat, t: nat, due: (nat, Command) -> nat)
      requires Sound(cfg) && |commandQueues| == BankCount(cfg) && n <= cfg.ranks
      reads `commandQueues, `now
    {
      forall r: nat :: r < n ==> RankInTime(r, cfg.banks, t, due)
    }

    /** Looks for a group to refresh; if there is one, queues the refresh and schedules a wakeup. */
    method HandleRefresh(due: (nat, Command) -> nat) returns (rv: bool, ghost path: seq<State>)
      requires Valid()
      modifies `banks, `commandQueues, `pushed, `wakeups, `handledRefresh
      modifies `delayedRefreshCounter, `served, `nextRefreshBank, `nextRefreshRank, `nextRefreshGroup
      ensures Valid() && Path(cfg, path, old(State()), State()) && old(wakeups) <= wakeups
      ensures rv <==> exists g :: 0 <= g < old(|delayedRefreshCounter|)
                                  && R.Needs(Groups(cfg), old(delayedRefreshCounter), g)
      ensures rv <==> |path| > 1
      ensures !rv ==> wakeups == old(wakeups)
      ensures rv ==> AllScheduled(due) && (lastIssueCycle != now ==> NoneReady())
      ensures R.Total(delayedRefreshCounter) <= old(R.Total(delayedRefreshCounter))
      decreases R.Total(delayedRefreshCounter), 0
    {
      ghost var s := State();
      var f, rank, bank := FindGroup();
      R.SearchIff(Groups(cfg), s.r);
      path := [s];
      rv := f.Found?;
      if rv {
        RefreshGroup(f.group, rank, bank);
        R.ServeLowers(Groups(cfg), s.r, f.group);
        handledRefresh := now;
        ghost var t := State();
        ghost var more := ScheduleCommandWake(due);
        OneRefresh(cfg, s, t);
        JoinPaths(cfg, [s, t], more, s, t, State());
        path := [s, t] + more[1..];
      }
    }

    method ScheduleCommandWake(due: (nat, Command) -> nat) returns (ghost path: seq<State>)
      requires Valid()
      modifies `banks, `commandQueues, `pushed, `wakeups, `handledRefresh
      modifies `delayedRefreshCounter, `served, `nextRefreshBank, `nextRefreshRank, `nextRefreshGroup
      ensures Valid() && Path(cfg, path, old(State()), State()) && old(wakeups) <= wakeups
      ensures AllScheduled(due) && (lastIssueCycle != now ==> NoneReady())
      ensures R.Total(delayedRefreshCounter) <= old(R.Total(delayedRefreshCounter))
      decreases R.Total(delayedRefreshCounter), 4
    {
      var next;
      next, path := NextIssuable(due);
      Wake(next, due);
    }

    /** Schedules a wakeup, unless there is one. */
    method Wake(next: nat, due: (nat, Command) -> nat)
      requires now < next && forall x :: 0 <= x < |commandQueues| ==> Covered(x, next, due)
      modifies `wakeups
      ensures AllScheduled(due) && wakeups == old(wakeups) + {next}
    {
      ghost var before := wakeups;
      wakeups := wakeups + {next};
      forall x | 0 <= x < |commandQueues| ensures Scheduled(x, due) {
        assert old(Covered(x, next, due));
        if commandQueues[x] != [] && !InTime(x, next, due) {
          ghost var t :| t in before && now < t && old(InTime(x, t, due));
          assert t in wakeups && InTime(x, t, due);
        } else if commandQueues[x] != [] {
          assert next in wakeups && InTime(x, next, due);
        }
      }
    }

    /** Everything known of a bank once it has been visited. */
    ghost predicate Visited(r: nat, b: nat, next: nat, due: (nat, Command) -> nat)
      requires Sound(cfg) && |commandQueues| == BankCount(cfg) && r < cfg.ranks && b < cfg.banks
      reads `commandQueues, `delayedRefreshCounter, `now, `wakeups, `lastIssueCycle
    {
      BankOfQueue(Queues(cfg), BankId(r, b, 0));
      MemberOfGroup(cfg, QueueOf(cfg, r, b));
      && Covered(QueueOf(cfg, r, b), next, due)
      && (lastIssueCycle != now ==> !GroupReady(GroupOf(cfg, QueueOf(cfg, r, b))))
    }

    ghost predicate RankVisited(r: nat, n: nat, next: nat, due: (nat, Command) -> nat)
      requires Sound(cfg) && |commandQueues| == BankCount(cfg) && r < cfg.ranks && n <= cfg.banks
      reads `commandQueues, `delayedRefreshCounter, `now, `wakeups, `lastIssueCycle
    {
      forall b: nat :: b < n ==> Visited(r, b, next, due)
    }

    ghost predicate RanksVisited(n: nat, next: nat, due: (nat, Command) -> nat)
      requires Sound(cfg) && |commandQueues| == BankCount(cfg) && n <= cfg.ranks
      reads `commandQueues, `delayedRefreshCounter, `now, `wakeups, `lastIssueCycle
    {
      forall r: nat :: r < n ==> RankVisited(r, cfg.banks, next, due)
    }

    /** The next time to look at the command queues. Banks that can be refreshed are seen to on the way. */
    method NextIssuable(due: (nat, Command) -> nat) returns (next: nat, ghost path: seq<State>)
      requires Valid()
      modifies `banks, `commandQueues, `pushed, `wakeups, `handledRefresh
      modifies `delayedRefreshCounter, `served, `nextRefreshBank, `nextRefreshRank, `nextRefreshGroup
      ensures Valid() && Path(cfg, path, old(State()), State()) && old(wakeups) <= wakeups && now < next
      ensures forall x :: 0 <= x < |commandQueues| ==> Covered(x, next, due)
      ensures Reasoned(next, due)
      ensures |path| == 1 ==> forall x :: 0 <= x < |commandQueues| && commandQueues[x] != [] ==> InTime(x, next, due)
      ensures lastIssueCycle != now ==> NoneReady()
      ensures R.Total(delayedRefreshCounter) <= old(R.Total(delayedRefreshCounter))
      decreases R.Total(delayedRefreshCounter), 3
    {
      next, path := VisitRanks(due);
      AllVisited(next, due);
      if |path| == 1 { AllInTime(next, due); }
      next := NotBefore(next, due);
    }

    method VisitRanks(due: (nat, Command) -> nat) returns (next: nat, ghost path: seq<State>)
      requires Valid()
      modifies `banks, `commandQueues, `pushed, `wakeups, `handledRefresh
      modifies `delayedRefreshCounter, `served, `nextRefreshBank, `nextRefreshRank, `nextRefreshGroup
      ensures Valid() && Path(cfg, path, old(State()), State()) && old(wakeups) <= wakeups
      ensures R.Total(delayedRefreshCounter) <= old(R.Total(delayedRefreshCounter))
      ensures RanksVisited(cfg.ranks, next, due)
      ensures Reasoned(next, due)
      ensures |path| == 1 ==> RanksInTime(cfg.ranks, next, due)
      decreases R.Total(delayedRefreshCounter), 2, 4
    {
      next := MAX_UINT64;
      path := [State()];
      for rank := 0 to cfg.ranks
        invariant Valid() && Path(cfg, path, old(State()), State()) && old(wakeups) <= wakeups
        invariant R.Total(delayedRefreshCounter) <= old(R.Total(delayedRefreshCounter))
        invariant RanksVisited(rank, next, due)
        invariant Reasoned(next, due)
        invariant |path| == 1 ==> RanksInTime(rank, next, due)
      {
        next, path := VisitNextRank(rank, next, due, old(State()), path);
      }
    }

    method VisitNextRank(rank: nat, next: nat, due: (nat, Command) -> nat,
                         ghost start: State, ghost before: seq<State>)
      returns (earlier: nat, ghost path: seq<State>)
      requires Valid() && rank < cfg.ranks && Path(cfg, before, start, State())
      modifies `banks, `commandQueues, `pushed, `wakeups, `handledRefresh
      modifies `delayedRefreshCounter, `served, `nextRefreshBank, `nextRefreshRank, `nextRefreshGroup
      ensures Valid() && Path(cfg, path, start, State()) && old(wakeups) <= wakeups
      ensures R.Total(delayedRefreshCounter) <= old(R.Total(delayedRefreshCounter))
      ensures old(RanksVisited(rank, next, due)) ==> RanksVisited(rank + 1, earlier, due)
      ensures old(Reasoned(next, due)) ==> Reasoned(earlier, due)
      ensures |path| == 1 ==> |before| == 1
      ensures |path| == 1 && old(RanksInTime(rank, next, due)) ==> RanksInTime(rank + 1, earlier, due)
      decreases R.Total(delayedRefreshCounter), 2, 3
    {
      ghost var more, s := [], State();
      earlier, more := VisitRank(rank, next, due);
      JoinPaths(cfg, before, more, start, s, State());
      path := before + more[1..];
      if |more| == 1 && old(RanksInTime(rank, next, due)) { RanksStayInTime(rank, next, earlier, due); }
    }

    lemma AllInTime(next: nat, due: (nat, Command) -> nat)
      requires Valid()
      requires RanksInTime(cfg.ranks, next, due)
      ensures forall x :: 0 <= x < |commandQueues| && commandQueues[x] != [] ==> InTime(x, next, due)
    {
      forall x | 0 <= x < |commandQueues| && commandQueues[x] != [] ensures InTime(x, next, due) {
        QueueOfBank(Queues(cfg), x);
        var b := BankOf(Queues(cfg), x);
        assert RankInTime(b.rank, cfg.banks, next, due) && HeadInTime(b.rank, b.bank, next, due);
      }
    }

    /** A wakeup in the past is one in the next cycle. */
    method NotBefore(next: nat, ghost due: (nat, Command) -> nat) returns (later: nat)
      requires forall x :: 0 <= x < |commandQueues| ==> Covered(x, next, due)
      ensures now < later && forall x :: 0 <= x < |commandQueues| ==> Covered(x, later, due)
      ensures later == if next <= now then now + 1 else next
    {
      later := next;
      if next <= now {
        later := now + 1;
        forall x | 0 <= x < |commandQueues| ensures Covered(x, later, due) {
          assert commandQueues[x] != [] ==> InTime(x, later, due);
        }
      }
    }

    method VisitRank(rank: nat, next: nat, due: (nat, Command) -> nat) returns (earlier: nat, ghost path: seq<State>)
      requires Valid() && rank < cfg.ranks
      modifies `banks, `commandQueues, `pushed, `wakeups, `handledRefresh
      modifies `delayedRefreshCounter, `served, `nextRefreshBank, `nextRefreshRank, `nextRefreshGroup
      ensures Valid() && Path(cfg, path, old(State()), State()) && old(wakeups) <= wakeups
      ensures R.Total(delayedRefreshCounter) <= old(R.Total(delayedRefreshCounter))
      ensures RankVisited(rank, cfg.banks, earlier, due)
      ensures old(RanksVisited(rank, next, due)) ==> RanksVisited(rank, earlier, due)
      ensures (earlier <= next || earlier <= now + 1) && (old(Reasoned(next, due)) ==> Reasoned(earlier, due))
      ensures |path| == 1 ==> State() == old(State()) && RankInTime(rank, cfg.banks, earlier, due)
      decreases R.Total(delayedRefreshCounter), 2, 2
    {
      earlier := next;
      path := [State()];
      for bank := 0 to cfg.banks
        invariant Valid() && Path(cfg, path, old(State()), State()) && old(wakeups) <= wakeups
        invariant R.Total(delayedRefreshCounter) <= old(R.Total(delayedRefreshCounter))
        invariant earlier <= next || earlier <= now + 1
        invariant old(Reasoned(next, due)) ==> Reasoned(earlier, due)
        invariant |path| == 1 ==> RankInTime(rank, bank, earlier, due)
        invariant RankVisited(rank, bank, earlier, due)
        invariant old(RanksVisited(rank, next, due)) ==> RanksVisited(rank, earlier, due)
      {
        earlier, path := VisitNext(rank, bank, earlier, due, old(State()), path);
      }
    }

    method VisitNext(rank: nat, bank: nat, next: nat, due: (nat, Command) -> nat,
                     ghost start: State, ghost before: seq<State>)
      returns (earlier: nat, ghost path: seq<State>)
      requires Valid() && rank < cfg.ranks && bank < cfg.banks && Path(cfg, before, start, State())
      modifies `banks, `commandQueues, `pushed, `wakeups, `handledRefresh
      modifies `delayedRefreshCounter, `served, `nextRefreshBank, `nextRefreshRank, `nextRefreshGroup
      ensures Valid() && Path(cfg, path, start, State()) && old(wakeups) <= wakeups
      ensures R.Total(delayedRefreshCounter) <= old(R.Total(delayedRefreshCounter))
      ensures old(RankVisited(rank, bank, next, due)) ==> RankVisited(rank, bank + 1, earlier, due)
      ensures old(RanksVisited(rank, next, due)) ==> RanksVisited(rank, earlier, due)
      ensures (earlier <= next || earlier <= now + 1) && (old(Reasoned(next, due)) ==> Reasoned(earlier, due))
      ensures |path| == 1 ==> |before| == 1
      ensures |path| == 1 && old(RankInTime(rank, bank, next, due)) ==> RankInTime(rank, bank + 1, earlier, due)
      decreases R.Total(delayedRefreshCounter), 2, 1
    {
      ghost var more, s := [], State();
      earlier, more := VisitBank(rank, bank, next, due);
      JoinPaths(cfg, before, more, start, s, State());
      path := before + more[1..];
      forall r: nat | r < rank && old(RankVisited(r, cfg.banks, next, due))
        ensures RankVisited(r, cfg.banks, earlier, due)
      {
        forall b: nat | b < cfg.banks ensures Visited(r, b, earlier, due) {
          assert old(Visited(r, b, next, due));
        }
      }
      if |more| == 1 && old(RankInTime(rank, bank, next, due)) { RankStaysInTime(rank, bank, next, earlier, due); }
    }

    lemma AllVisited(next: nat, due: (nat, Command) -> nat)
      requires Valid()
      requires RanksVisited(cfg.ranks, next, due)
      ensures forall x :: 0 <= x < |commandQueues| ==> Covered(x, next, due)
      ensures lastIssueCycle != now ==> NoneReady()
    {
      forall x | 0 <= x < |commandQueues|
        ensures Covered(x, next, due)
      {
        QueueOfBank(Queues(cfg), x);
        var b := BankOf(Queues(cfg), x);
        assert RankVisited(b.rank, cfg.banks, next, due) && Visited(b.rank, b.bank, next, due);
      }
      forall g | 0 <= g < R.Count(Groups(cfg)) && lastIssueCycle != now
        ensures !GroupReady(g)
      {
        MemberIs(cfg, g, 0);
        QueueOfBank(Queues(cfg), Member(cfg, g, 0));
        var b := BankOf(Queues(cfg), Member(cfg, g, 0));
        assert RankVisited(b.rank, cfg.banks, next, due) && Visited(b.rank, b.bank, next, due);
      }
    }

    method VisitBank(rank: nat, bank: nat, next: nat, due: (nat, Command) -> nat)
      returns (earlier: nat, ghost path: seq<State>)
      requires Valid() && rank < cfg.ranks && bank < cfg.banks
      modifies `banks, `commandQueues, `pushed, `wakeups, `handledRefresh
      modifies `delayedRefreshCounter, `served, `nextRefreshBank, `nextRefreshRank, `nextRefreshGroup
      ensures Valid() && Path(cfg, path, old(State()), State()) && old(wakeups) <= wakeups
      ensures R.Total(delayedRefreshCounter) <= old(R.Total(delayedRefreshCounter))
      ensures Visited(rank, bank, earlier, due)
      ensures forall r: nat, b: nat :: r < cfg.ranks && b < cfg.banks && old(Visited(r, b, next, due)) ==>
        Visited(r, b, earlier, due)
      ensures (earlier <= next || earlier <= now + 1) && (old(Reasoned(next, due)) ==> Reasoned(earlier, due))
      ensures HeadInTime(rank, bank, earlier, due)
      decreases R.Total(delayedRefreshCounter), 2, 0
    {
      var x := GetCommandQueueId(Queues(cfg), BankId(rank, bank, 0));
      MemberOfGroup(cfg, x);
      var g, head := GroupOfBank(cfg, rank, bank);
      earlier, path := SeeToRefresh(g, rank, head, next, due);
      forall r: nat, b: nat | r < cfg.ranks && b < cfg.banks && old(Visited(r, b, next, due))
        ensures Visited(r, b, earlier, due)
      {
        BankOfQueue(Queues(cfg), BankId(r, b, 0));
        MemberOfGroup(cfg, QueueOf(cfg, r, b));
        assert old(Covered(QueueOf(cfg, r, b), next, due));
      }
      earlier := SeeToHead(x, earlier, due);
    }

    lemma RankStaysInTime(r: nat, n: nat, next: nat, earlier: nat, due: (nat, Command) -> nat)
      requires Valid() && (earlier <= next || earlier <= now + 1) && r < cfg.ranks && n <= cfg.banks
      requires RankInTime(r, n, next, due)
      ensures RankInTime(r, n, earlier, due)
    {
      forall b: nat | b < n ensures HeadInTime(r, b, earlier, due) {
        assert HeadInTime(r, b, next, due);
      }
    }

    lemma RanksStayInTime(n: nat, next: nat, earlier: nat, due: (nat, Command) -> nat)
      requires Valid() && (earlier <= next || earlier <= now + 1) && n <= cfg.ranks
      requires RanksInTime(n, next, due)
      ensures RanksInTime(n, earlier, due)
    {
      forall r: nat | r < n ensures RankInTime(r, cfg.banks, earlier, due) {
        RankStaysInTime(r, cfg.banks, next, earlier, due);
      }
    }

    /** Not later than the head of queue `x` can be issued. */
    method SeeToHead(x: nat, next: nat, due: (nat, Command) -> nat) returns (earlier: nat)
      requires Valid() && x < |commandQueues|
      ensures earlier <= next && (Reasoned(next, due) ==> Reasoned(earlier, due))
      ensures commandQueues[x] != [] ==> InTime(x, earlier, due)
      ensures forall r: nat, b: nat :: r < cfg.ranks && b < cfg.banks && Visited(r, b, next, due) ==>
        Visited(r, b, earlier, due)
    {
      earlier := next;
      if commandQueues[x] != [] {
        var d := due(x, commandQueues[x][0].command);
        if d < earlier {
          earlier := Sooner(earlier, d, due);
        }
      }
    }

    method Sooner(next: nat, d: nat, ghost due: (nat, Command) -> nat) returns (earlier: nat)
      requires d < next && Valid()
      ensures earlier == d
      ensures forall r: nat, b: nat :: r < cfg.ranks && b < cfg.banks && Visited(r, b, next, due) ==>
        Visited(r, b, earlier, due)
    {
      earlier := d;
      forall r: nat, b: nat | r < cfg.ranks && b < cfg.banks && Visited(r, b, next, due)
        ensures Visited(r, b, d, due)
      {
        var x := QueueOf(cfg, r, b);
        BankOfQueue(Queues(cfg), BankId(r, b, 0));
        if commandQueues[x] != [] && InTime(x, next, due) { assert InTime(x, d, due); }
      }
    }

    lemma StillReasoned(before: seq<seq<Q.Entry>>, t: nat, due: (nat, Command) -> nat)
      requires HeadsStay(before, commandQueues)
      requires t == MAX_UINT64 || t == now + 1
        || exists x :: 0 <= x < |before| && before[x] != [] && t == due(x, before[x][0].command)
      ensures Reasoned(t, due)
    {
    }

    /** Queues a refresh if this group can be refreshed, or asks to be woken in the next cycle for that. */
    method SeeToRefresh(g: nat, rank: nat, head: nat, next: nat, due: (nat, Command) -> nat)
      returns (earlier: nat, ghost path: seq<State>)
      requires Valid() && HeadAt(cfg, g, rank, head)
      modifies `banks, `commandQueues, `pushed, `wakeups, `handledRefresh
      modifies `delayedRefreshCounter, `served, `nextRefreshBank, `nextRefreshRank, `nextRefreshGroup
      ensures Valid() && Path(cfg, path, old(State()), State()) && old(wakeups) <= wakeups
      ensures R.Total(delayedRefreshCounter) <= old(R.Total(delayedRefreshCounter))
      ensures forall x :: 0 <= x < |commandQueues| && old(Covered(x, next, due)) ==> Covered(x, earlier, due)
      ensures (earlier <= next || earlier <= now + 1) && (old(Reasoned(next, due)) ==> Reasoned(earlier, due))
      ensures lastIssueCycle != now ==> !GroupReady(g)
      ensures lastIssueCycle != now ==>
        forall h :: 0 <= h < R.Count(Groups(cfg)) && old(!GroupReady(h)) ==> !GroupReady(h)
      decreases R.Total(delayedRefreshCounter), 1
    {
      earlier := next;
      path := [State()];
      var needed := NeedRefresh(g);
      var empty := IsRefreshBankQueueEmpty(g, rank, head);
      if needed && empty {
        if lastIssueCycle != now {
          var rv;
          rv, path := HandleRefresh(due);
          PathHeads(cfg, path, old(State()), State());
          if old(Reasoned(next, due)) { StillReasoned(old(commandQueues), next, due); }
          forall x | 0 <= x < |commandQueues| ensures Covered(x, earlier, due) {
            assert Scheduled(x, due);
          }
        } else {
          earlier := now + 1;
          forall x | 0 <= x < |commandQueues| ensures Covered(x, earlier, due) {
            assert commandQueues[x] != [] ==> InTime(x, earlier, due);
          }
        }
      }
    }

    // ----- scheduling transactions -----

    method IsLastRequest(transactions: seq<Transaction>, t: Transaction) returns (r: bool)
      ensures r == IsLast(cfg, transactions, t)
      ensures cfg.closePage == 0 ==> !r
      ensures cfg.closePage >= 2 ==> r
      ensures cfg.closePage == 1 ==> (r <==> forall u :: u in transactions ==>
        u.address.rank != t.address.rank || u.address.bank != t.address.bank || u.address.row != t.address.row
        || u.address.subarray != t.address.subarray)
    {
      if cfg.closePage == 0 { return false; }
      if cfg.closePage == 1 {
        for i := 0 to |transactions|
          invariant forall j :: 0 <= j < i ==> !SameRow(transactions[j], t)
        {
          var a, b := transactions[i].address, t.address;
          if a.rank == b.rank && a.bank == b.bank && a.row == b.row && a.subarray == b.subarray { return false; }
        }
      }
      r := true;
    }

    /** Whether a waiting transaction can be chosen now. */
    ghost predicate Choosable(sel: Selector, t: Transaction, pred: Transaction -> bool)
      requires Valid() && Fits(cfg, t.address)
      reads this
    {
      HomeFits(cfg, t.address);
      var x := Home(cfg, t.address);
      Selects(cfg, sel, banks[x], commandQueues[x] == [], t, now) && pred(t)
    }

    method CanChoose(sel: Selector, t: Transaction, pred: Transaction -> bool) returns (r: bool)
      requires Valid() && Fits(cfg, t.address)
      ensures r == Choosable(sel, t, pred)
    {
      var a := t.address;
      HomeFits(cfg, a);
      var x := GetCommandQueueId(Queues(cfg), BankId(a.rank, a.bank, 0));
      if commandQueues[x] != [] { return false; }
      var b := banks[x];
      var s := b.subarrays[a.subarray];
      var hit := s.active && s.row == a.row && s.muxed == a.col / cfg.rbSize;
      var wanted;
      match sel {
        case Starved => wanted := b.activateQueued && !hit && s.starvation >= cfg.starvation;
        case RowBufferHit => wanted := b.activateQueued && hit;
        case OldestReady => wanted := b.activateQueued;
        case ClosedBank => wanted := !b.activateQueued;
      }
      r := wanted && !b.needRefresh && !b.refreshQueued && t.arrival != now && pred(t);
    }

    /** Takes the first transaction that can be chosen out of the transaction queue, and marks it if no
        other one wants its row. */
    method Find(sel: Selector, transactions: seq<Transaction>, pred: Transaction -> bool)
      returns (found: bool, i: nat, t: Transaction, rest: seq<Transaction>)
      requires Valid() && forall t :: t in transactions ==> Fits(cfg, t.address)
      ensures found ==>
        && i < |transactions| && Choosable(sel, transactions[i], pred)
        && (forall j :: 0 <= j < i ==> !Choosable(sel, transactions[j], pred))
        && rest == transactions[..i] + transactions[i + 1..]
        && t == transactions[i].(last := transactions[i].last || IsLast(cfg, rest, transactions[i]))
      ensures !found ==> rest == transactions && forall t :: t in transactions ==> !Choosable(sel, t, pred)
    {
      i := 0;
      while i < |transactions|
        invariant i <= |transactions|
        invariant forall j :: 0 <= j < i ==> !Choosable(sel, transactions[j], pred)
      {
        t := transactions[i];
        var chosen := CanChoose(sel, t, pred);
        if chosen {
          rest := transactions[..i] + transactions[i + 1..];
          var last := IsLastRequest(rest, t);
          if last { t := t.(last := true); }
          return true, i, t, rest;
        }
        i := i + 1;
      }
      found, rest := false, transactions;
      t := Transaction(0, Address(0, 0, 0, 0, 0), 0, false);
    }

    /** Queues a transaction, and schedules a wakeup for it. Refreshes may be queued along with that. */
    method IssueMemoryCommands(t: Transaction, due: (nat, Command) -> nat) returns (rv: bool, ghost path: seq<State>)
      requires Valid() && Fits(cfg, t.address)
      modifies `banks, `commandQueues, `pushed, `wakeups, `handledRefresh
      modifies `delayedRefreshCounter, `served, `nextRefreshBank, `nextRefreshRank, `nextRefreshGroup
      ensures Valid() && Path(cfg, path, Transact(cfg, old(State()), t), State())
      ensures Home(cfg, t.address) < old(|banks|)
      ensures var x := Home(cfg, t.address);
        rv == !CaseOf(cfg, old(banks[x]), old(commandQueues[x]) == [], t.address).Refused?
      ensures rv ==> AllScheduled(due) && (lastIssueCycle != now ==> NoneReady())
    {
      rv := QueueTransaction(t);
      path := [State()];
      if rv { path := ScheduleCommandWake(due); }
    }

    /** What every scheduler does with a transaction it has found: it is never refused. */
    method ServeNext(sel: Selector, transactions: seq<Transaction>, pred: Transaction -> bool,
                     due: (nat, Command) -> nat)
      returns (found: bool, ghost i: nat, rest: seq<Transaction>, ghost path: seq<State>)
      requires Valid() && forall t :: t in transactions ==> Fits(cfg, t.address)
      modifies `banks, `commandQueues, `pushed, `wakeups, `handledRefresh
      modifies `delayedRefreshCounter, `served, `nextRefreshBank, `nextRefreshRank, `nextRefreshGroup
      ensures Valid()
      ensures !found ==> State() == old(State()) && rest == transactions
      ensures found ==>
        && i < |transactions| && rest == transactions[..i] + transactions[i + 1..]
        && Path(cfg, path, Transact(cfg, old(State()), transactions[i].(last :=
             transactions[i].last || IsLast(cfg, rest, transactions[i]))), State())
      ensures found ==> AllScheduled(due)
    {
      var t;
      found, i, t, rest := Find(sel, transactions, pred);
      path := [State()];
      if found {
        HomeFits(cfg, t.address);
        var x := Home(cfg, t.address);
        ChosenIsServed(cfg, sel, banks[x], t, now, t.id);
        var rv;
        rv, path := IssueMemoryCommands(t, due);
        assert rv;
      }
    }

    // ----- issuing commands -----

    method GroupIsFlagged(ghost g: nat, rank: nat, head: nat) returns (r: bool)
      requires HeadAt(cfg, g, rank, head) && |banks| == BankCount(cfg)
      ensures r == GroupFlagged(cfg, banks, g)
    {
      for i := 0 to cfg.banksPerRefresh
        invariant forall x :: 0 <= x < |banks| && GroupOf(cfg, x) == g && IndexOf(cfg, x) < i ==> banks[x].refreshQueued
      {
        var x := MemberQueue(cfg, g, rank, head, i);
        MemberIs(cfg, g, i);
        if !banks[x].refreshQueued { return false; }
        forall y | 0 <= y < |banks| && GroupOf(cfg, y) == g && IndexOf(cfg, y) == i ensures y == x {
          MemberOfGroup(cfg, y);
        }
      }
      forall y | 0 <= y < |banks| && GroupOf(cfg, y) == g ensures banks[y].refreshQueued {
        MemberOfGroup(cfg, y);
      }
      r := true;
    }

    /** Clears the flag of the group of bank `x`, which must be set for all its banks. */
    method ResetRefreshQueued(x: nat) returns (ok: bool)
      requires Valid() && x < |commandQueues|
      modifies `banks
      ensures var g := GroupOf(cfg, x);
        && g < R.Count(Groups(cfg)) && ok == GroupFlagged(cfg, old(banks), g)
        && banks == if ok then SetGroup(cfg, old(banks), g, RefreshQueued, false, cfg.banksPerRefresh) else old(banks)
    {
      MemberOfGroup(cfg, x);
      var b := BankOf(Queues(cfg), x);
      QueueOfBank(Queues(cfg), x);
      var g, head := GroupOfBank(cfg, b.rank, b.bank);
      ok := GroupIsFlagged(g, b.rank, head);
      if ok { SetGroupFlag(g, b.rank, head, RefreshQueued, false); }
    }

    /** Issues the head of a queue. For a refresh, its group must be flagged, and no longer is. */
    method IssueHead(x: nat) returns (ok: bool)
      requires Valid() && x < |commandQueues| && commandQueues[x] != []
      modifies `commandQueues, `curQueue, `lastIssueCycle, `cleanupScheduled, `log, `banks, `device
      ensures GroupOf(cfg, x) < R.Count(Groups(cfg))
      ensures ok == !(old(commandQueues[x][0].command.Ref?) && !GroupFlagged(cfg, old(banks), GroupOf(cfg, x)))
      ensures State() == if ok then IssueAt(cfg, old(State()), x) else old(State())
    {
      ghost var q, others := QueueState(), RefreshState();
      var c := commandQueues[x][0].command;
      MemberOfGroup(cfg, x);
      ok := true;
      if c.Ref? {
        ok := ResetRefreshQueued(x);
        if !ok { return; }
      }
      assert QueueState() == q;
      device := device[x := Controllers.Moved(cfg, device[x], c)];
      MarkIssued(x);
      assert QueueState() == Q.IssueFrom(q, x) && RefreshState() == others;
    }

    method MarkIssued(x: nat)
      requires x < |commandQueues| && commandQueues[x] != []
      modifies `commandQueues, `curQueue, `lastIssueCycle, `cleanupScheduled, `log
      ensures QueueState() == Q.IssueFrom(old(QueueState()), x)
    {
      var c := commandQueues[x][0].command;
      commandQueues := commandQueues[x := commandQueues[x][0 := Q.Entry(c, true)]];
      lastIssueCycle := now;
      cleanupScheduled := true;
      log := log + [Q.Issue(now, x, c)];
      MoveCurrentQueue();
    }

    method ScanQueue(i: nat) returns (x: nat)
      requires curQueue <= |commandQueues| && i < |commandQueues|
      ensures x == Q.Scan(curQueue, i, |commandQueues|)
    {
      var n := |commandQueues|;
      x := (curQueue + i) % n;
      if curQueue + i < n { Remainder(curQueue + i, 0, n); } else { Remainder(curQueue + i - n, 1, n); }
    }

    /** Issues at most one command: the first head, in the order of the scan, that the device accepts. */
    method CycleCommandQueues(ready: seq<bool>) returns (r: Outcome)
      requires Valid() && |ready| == |commandQueues|
      modifies `commandQueues, `curQueue, `lastIssueCycle, `cleanupScheduled, `log, `banks, `device
      ensures var k := Q.Pick(old(commandQueues), old(curQueue), ready, 0);
        match r
        case NothingIssued =>
          (handledRefresh == now || old(lastIssueCycle) == now || k == |ready|) && State() == old(State())
        case Issued(x) =>
          && handledRefresh != now && old(lastIssueCycle) != now && k < |ready|
          && x == Q.Scan(old(curQueue), k, |ready|)
          && State() == IssueAt(cfg, old(State()), x)
        case AssertionFailed =>
          && handledRefresh != now && old(lastIssueCycle) != now && k < |ready|
          && (var x := Q.Scan(old(curQueue), k, |ready|);
              old(commandQueues)[x][0].command.Ref? && GroupOf(cfg, x) < R.Count(Groups(cfg))
              && !GroupFlagged(cfg, old(banks), GroupOf(cfg, x)))
    {
      if handledRefresh == now { return NothingIssued; }
      for i := 0 to |commandQueues|
        invariant State() == old(State())
        invariant lastIssueCycle != now ==>
          Q.Pick(commandQueues, curQueue, ready, 0) == Q.Pick(commandQueues, curQueue, ready, i)
      {
        var x := ScanQueue(i);
        if commandQueues[x] != [] && lastIssueCycle != now && ready[x] {
          var ok := IssueHead(x);
          return if ok then Issued(x) else AssertionFailed;
        }
      }
      r := NothingIssued;
    }

    // ----- the next cycle -----

    method RemoveIssued(queue: seq<Q.Entry>) returns (r: seq<Q.Entry>)
      ensures r == Q.Unissued(queue)
    {
      r := [];
      var i: nat := |queue|;
      assert queue[i..] == [];
      while i > 0
        invariant i <= |queue| && r == Q.Unissued(queue[i..])
      {
        i := i - 1;
        assert queue[i..][1..] == queue[i + 1..];
        if !queue[i].issued { r := [queue[i]] + r; }
      }
    }

    method CleanupCallback()
      modifies `commandQueues
      ensures |commandQueues| == old(|commandQueues|)
      ensures forall q :: 0 <= q < |commandQueues| ==> commandQueues[q] == Q.Unissued(old(commandQueues[q]))
    {
      for i := 0 to |commandQueues|
        invariant |commandQueues| == old(|commandQueues|)
        invariant forall q :: 0 <= q < i ==> commandQueues[q] == Q.Unissued(old(commandQueues[q]))
        invariant forall q :: i <= q < |commandQueues| ==> commandQueues[q] == old(commandQueues[q])
      {
        var queue := RemoveIssued(commandQueues[i]);
        commandQueues := commandQueues[i := queue];
      }
    }

    /** Time goes on. Removing issued commands comes first in the new cycle. */
    method Tick()
      requires Valid()
      modifies `now, `commandQueues, `cleanupScheduled
      ensures State() == old(State()).(q := Q.Tick(old(QueueState())))
    {
      now := now + 1;
      if cleanupScheduled { CleanupCallback(); }
      cleanupScheduled := false;
      assert QueueState() == Q.Tick(old(QueueState()));
    }
  }

  lemma PushOne(q: Q.Queues, x: nat, c: Command)
    requires x < |q.queues| == |q.pushed|
    ensures Q.PushAll(q, x, [c]) == Q.Push(q, x, c)
  {
  }

  lemma PushTwo(q: Q.Queues, x: nat, c: Command, e: Command)
    requires x < |q.queues| == |q.pushed|
    ensures Q.PushAll(q, x, [c, e]) == Q.Push(Q.Push(q, x, c), x, e)
  {
    PushOne(q, x, c);
    Q.PushedOneByOne(q, x, [c], e);
  }

  lemma PushTwoMore(q: Q.Queues, x: nat, cs: seq<Command>, c: Command, e: Command)
    requires x < |q.queues| == |q.pushed|
    ensures Q.PushAll(q, x, cs + [c, e]) == Q.Push(Q.Push(Q.PushAll(q, x, cs), x, c), x, e)
  {
    Q.PushedOneByOne(q, x, cs, c);
    Q.PushedOneByOne(q, x, cs + [c], e);
    assert cs + [c] + [e] == cs + [c, e];
  }
}
