/** What the memory controller does for a transaction, over runs: which commands it queues, and which
    transactions each selector takes, in terms of the rows the device will have open and of the commands queued
    so far. */
module ServingRuns {
  import opened BankShadows
  import opened Controllers
  import opened ControllerRuns
  import Conservation
  import SubArrayTiming
  import Q = CommandQueues
  import R = Refreshes

  // ----- what has been queued for a subarray -----

  /** How often it has been activated. */
  function Acts(cs: seq<Command>, i: nat): (r: nat) {
    if cs == [] then 0
    else
      var c := cs[|cs| - 1];
      Acts(cs[..|cs| - 1], i) + if c.Act? && c.subarray == i then 1 else 0
  }

  /** How often it has been read or written since it was last activated. */
  function SinceAct(cs: seq<Command>, i: nat): (r: nat) {
    if cs == [] then 0
    else
      var c := cs[|cs| - 1];
      if c.Act? && c.subarray == i then 0
      else SinceAct(cs[..|cs| - 1], i) + if c.Access? && c.subarray == i then 1 else 0
  }

  lemma {:induction false} HistoryAppend(a: seq<Command>, b: seq<Command>, i: nat)
    ensures Acts(a + b, i) == Acts(a, i) + Acts(b, i)
    ensures SinceAct(a + b, i) == SinceAct(b, i) + if Acts(b, i) > 0 then 0 else SinceAct(a, i)
    decreases |b|
  {
    if b == [] {
      assert a + b == a;
    } else {
      assert (a + b)[..|a + b| - 1] == a + b[..|b| - 1];
      HistoryAppend(a, b[..|b| - 1], i);
    }
  }

  /** The counter of row hits is the number of accesses since the last activation, without the first. */
  ghost predicate Counted(b: Bank, cs: seq<Command>, i: nat)
    requires i < |b.subarrays|
  {
    && b.subarrays[i].starvation + (if Acts(cs, i) > 0 then 1 else 0) == SinceAct(cs, i)
    && (b.subarrays[i].active ==> Acts(cs, i) > 0)
  }

  ghost predicate AllCounted(b: Bank, cs: seq<Command>) {
    forall i :: 0 <= i < |b.subarrays| ==> Counted(b, cs, i)
  }

  lemma OneCommand(c: Command, i: nat)
    ensures Acts([c], i) == if c.Act? && c.subarray == i then 1 else 0
    ensures SinceAct([c], i) == if c.Access? && c.subarray == i then 1 else 0
  {
    assert [c][..0] == [];
  }

  lemma Opening(a: Address, auto: bool, id: nat, i: nat)
    ensures var cs := [Act(a.subarray, a.row), Access(a.subarray, a.row, auto, id)];
      && Acts(cs, i) == (if a.subarray == i then 1 else 0)
      && SinceAct(cs, i) == if a.subarray == i then 1 else 0
  {
    OneCommand(Act(a.subarray, a.row), i);
    OneCommand(Access(a.subarray, a.row, auto, id), i);
    HistoryAppend([Act(a.subarray, a.row)], [Access(a.subarray, a.row, auto, id)], i);
    assert [Act(a.subarray, a.row), Access(a.subarray, a.row, auto, id)]
      == [Act(a.subarray, a.row)] + [Access(a.subarray, a.row, auto, id)];
  }

  lemma ServedHistory(cfg: Config, b: Bank, k: Case, t: Transaction, i: nat)
    requires Proper(cfg) && t.address.subarray < |b.subarrays|
    ensures var cs, own := Commands(cfg, b, k, t), t.address.subarray == i;
      && Acts(cs, i) == (if own && (k.OpenBank? || k.Miss?) then 1 else 0)
      && SinceAct(cs, i) == if own && !k.Refused? then 1 else 0
  {
    var a := t.address;
    match k {
      case OpenBank => Opening(a, Closing(cfg, t), t.id, i);
      case Miss =>
        Opening(a, false, t.id, i);
        OneCommand(Pre(a.subarray), i);
        var first := if b.subarrays[a.subarray].active && cfg.usePrecharge then [Pre(a.subarray)] else [];
        HistoryAppend(first, [Act(a.subarray, a.row), Access(a.subarray, a.row, false, t.id)], i);
      case RowHit => OneCommand(Access(a.subarray, a.row, Closing(cfg, t), t.id), i);
      case Refused =>
    }
  }

  lemma ServedCounted(cfg: Config, b: Bank, empty: bool, t: Transaction, cs: seq<Command>)
    requires Proper(cfg) && t.address.subarray < |b.subarrays| && AllCounted(b, cs)
    ensures var k := CaseOf(cfg, b, empty, t.address);
      AllCounted(Served(cfg, b, k, t), cs + Commands(cfg, b, k, t))
  {
    var k := CaseOf(cfg, b, empty, t.address);
    var after := Served(cfg, b, k, t);
    forall i | 0 <= i < |after.subarrays| ensures Counted(after, cs + Commands(cfg, b, k, t), i) {
      assert Counted(b, cs, i);
      ServedHistory(cfg, b, k, t, i);
      HistoryAppend(cs, Commands(cfg, b, k, t), i);
    }
  }

  /** Commands that neither activate nor access anything. */
  lemma NoHistory(cs: seq<Command>, more: seq<Command>, i: nat)
    requires forall k :: 0 <= k < |more| ==> more[k].Pre? || more[k].PreAll? || more[k].Ref?
    ensures Acts(cs + more, i) == Acts(cs, i) && SinceAct(cs + more, i) == SinceAct(cs, i)
    decreases |more|
  {
    if more == [] {
      assert cs + more == cs;
    } else {
      assert (cs + more)[..|cs + more| - 1] == cs + more[..|more| - 1];
      NoHistory(cs, more[..|more| - 1], i);
    }
  }

  // ----- what a step queues -----

  /** What a step adds to the queue of bank `x`. */
  ghost function Added(cfg: Controls, s: State, step: Step, x: nat): (r: seq<Command>)
    requires Invariant(cfg, s) && Enabled(cfg, s, step) && x < |s.banks|
  {
    match step
    case TransactStep(_, t) =>
      HomeFits(cfg, t.address);
      if Home(cfg, t.address) == x
      then Commands(cfg, s.banks[x], CaseOf(cfg, s.banks[x], s.q.queues[x] == [], t.address), t) else []
    case ServeStep => RefreshCommands(cfg, s, R.Search(Groups(cfg), s.r, 0, 0).group, x)
    case _ => []
  }

  lemma RefreshPushes(cfg: Controls, s: State, g: nat, x: nat)
    requires Tracks(cfg, s) && R.Needs(Groups(cfg), s.r.counters, g) && x < |s.banks| && cfg.usePrecharge
    ensures Shaped(cfg, QueueRefresh(cfg, s, g))
    ensures QueueRefresh(cfg, s, g).q.pushed[x] == s.q.pushed[x] + RefreshCommands(cfg, s, g, x)
  {
    var t := QueueRefresh(cfg, s, g);
    RefreshTracks(cfg, s, g);
    RefreshPending(cfg, s, g, x);
    Conservation.SameLog(cfg, s, g);
    assert Q.Fifo(s.q, x) && Q.Fifo(t.q, x);
  }

  lemma TakePushes(cfg: Controls, s: State, step: Step, x: nat)
    requires Invariant(cfg, s) && Enabled(cfg, s, step) && x < |s.banks|
    ensures x < |Take(cfg, s, step).q.pushed|
    ensures Take(cfg, s, step).q.pushed[x] == s.q.pushed[x] + Added(cfg, s, step, x)
  {
    R.SearchIff(Groups(cfg), s.r);
    match step {
      case TransactStep(_, t) =>
        HomeFits(cfg, t.address);
        Q.PushAllDisciplined(s.q, Home(cfg, t.address), Added(cfg, s, step, Home(cfg, t.address)));
      case ServeStep => RefreshPushes(cfg, s, R.Search(Groups(cfg), s.r, 0, 0).group, x);
      case PulseStep(_) =>
      case CycleStep(_) =>
      case TickStep =>
    }
  }

  // ----- row hits are counted -----

  lemma SameSubarrays(b: Bank, c: Bank, cs: seq<Command>, more: seq<Command>)
    requires AllCounted(b, cs) && |c.subarrays| == |b.subarrays|
    requires forall i :: 0 <= i < |b.subarrays| ==>
      c.subarrays[i].starvation == b.subarrays[i].starvation && (c.subarrays[i].active ==> b.subarrays[i].active)
    requires forall k :: 0 <= k < |more| ==> more[k].Pre? || more[k].PreAll? || more[k].Ref?
    ensures AllCounted(c, cs + more)
  {
    forall i | 0 <= i < |c.subarrays| ensures Counted(c, cs + more, i) {
      assert Counted(b, cs, i);
      NoHistory(cs, more, i);
    }
  }

  lemma RefreshCounted(cfg: Controls, s: State, g: nat, x: nat)
    requires Tracks(cfg, s) && R.Needs(Groups(cfg), s.r.counters, g) && x < |s.banks| && cfg.usePrecharge
    requires AllCounted(s.banks[x], s.q.pushed[x])
    ensures Shaped(cfg, QueueRefresh(cfg, s, g))
    ensures AllCounted(QueueRefresh(cfg, s, g).banks[x], QueueRefresh(cfg, s, g).q.pushed[x])
  {
    RefreshPushes(cfg, s, g, x);
    RefreshedBank(cfg, s, g, x);
    SameSubarrays(s.banks[x], QueueRefresh(cfg, s, g).banks[x], s.q.pushed[x], RefreshCommands(cfg, s, g, x));
  }

  lemma TransactCounted(cfg: Controls, s: State, sel: Selector, t: Transaction, x: nat)
    requires Invariant(cfg, s) && Enabled(cfg, s, TransactStep(sel, t)) && x < |s.banks|
    requires AllCounted(s.banks[x], s.q.pushed[x])
    ensures x < |Transact(cfg, s, t).q.pushed| == |Transact(cfg, s, t).banks|
    ensures AllCounted(Transact(cfg, s, t).banks[x], Transact(cfg, s, t).q.pushed[x])
  {
    HomeFits(cfg, t.address);
    TakePushes(cfg, s, TransactStep(sel, t), x);
    if Home(cfg, t.address) == x {
      ServedCounted(cfg, s.banks[x], s.q.queues[x] == [], t, s.q.pushed[x]);
    } else {
      assert s.q.pushed[x] + [] == s.q.pushed[x];
    }
  }

  lemma QuietSubarrays(cfg: Controls, s: State, step: Step, x: nat)
    requires Invariant(cfg, s) && Enabled(cfg, s, step) && x < |s.banks|
    requires step.PulseStep? || step.CycleStep? || step.TickStep?
    ensures var t := Take(cfg, s, step); x < |t.banks| && t.banks[x].subarrays == s.banks[x].subarrays
  {
    match step {
      case PulseStep(g) => SetGroupFlags(cfg, s.banks, g, NeedRefresh, true, cfg.banksPerRefresh);
      case CycleStep(ready) =>
        var k := Issuing(s, ready);
        if k < |s.q.queues| {
          var y := Q.Scan(s.q.cur, k, |s.q.queues|);
          MemberOfGroup(cfg, y);
          SetGroupFlags(cfg, s.banks, GroupOf(cfg, y), RefreshQueued, false, cfg.banksPerRefresh);
        }
      case TickStep =>
    }
  }

  /** A step that leaves the subarrays and what has been queued. */
  lemma QuietCounted(cfg: Controls, s: State, step: Step, x: nat)
    requires Invariant(cfg, s) && Enabled(cfg, s, step) && x < |s.banks| && AllCounted(s.banks[x], s.q.pushed[x])
    requires step.PulseStep? || step.CycleStep? || step.TickStep?
    ensures var t := Take(cfg, s, step);
      x < |t.q.pushed| == |t.banks| && AllCounted(t.banks[x], t.q.pushed[x])
  {
    TakePushes(cfg, s, step, x);
    QuietSubarrays(cfg, s, step, x);
    SameSubarrays(s.banks[x], Take(cfg, s, step).banks[x], s.q.pushed[x], []);
  }

  lemma TakeCounted(cfg: Controls, s: State, step: Step, x: nat)
    requires Invariant(cfg, s) && Enabled(cfg, s, step) && x < |s.banks| && AllCounted(s.banks[x], s.q.pushed[x])
    ensures var t := Take(cfg, s, step);
      x < |t.q.pushed| == |t.banks| && AllCounted(t.banks[x], t.q.pushed[x])
  {
    R.SearchIff(Groups(cfg), s.r);
    match step {
      case TransactStep(sel, t) => TransactCounted(cfg, s, sel, t, x);
      case ServeStep => RefreshCounted(cfg, s, R.Search(Groups(cfg), s.r, 0, 0).group, x);
      case _ => QuietCounted(cfg, s, step, x);
    }
  }

  /** In every run, for every subarray: its counter, and one for the activation if there was any, is the number of
      accesses queued for it since the last activation queued for it. */
  lemma {:induction false} HitsCounted(cfg: Controls, steps: seq<Step>, x: nat)
    requires Sound(cfg) && cfg.usePrecharge && IsRun(cfg, steps) && x < BankCount(cfg)
    ensures AllCounted(After(cfg, steps).banks[x], After(cfg, steps).q.pushed[x])
    decreases |steps|
  {
    if steps != [] {
      AfterFront(cfg, steps);
      HitsCounted(cfg, steps[..|steps| - 1], x);
      TakeCounted(cfg, After(cfg, steps[..|steps| - 1]), steps[|steps| - 1], x);
    }
  }

  // ----- what is queued for a transaction -----

  /** The rows that a bank's subarrays will have open once its queue has drained. */
  ghost function EndRows(cfg: Controls, s: State, x: nat): (rows: seq<RowState>)
    requires Invariant(cfg, s) && x < |s.banks|
    ensures |rows| == |s.banks[x].subarrays| == cfg.subarrays
    ensures forall i :: 0 <= i < |rows| ==> rows[i] == RowOfSub(s.banks[x].subarrays[i])
    ensures NoneOpen(rows) <==> !s.banks[x].activateQueued
  {
    assert BankOk(cfg, s, x);
    Replay(cfg, s.device[x], Pending(s, x)).rows
  }

  /** The transaction finds its row open, and the part of it that it needs at the sense amplifiers. */
  ghost predicate FindsRow(cfg: Controls, s: State, t: Transaction)
    requires Invariant(cfg, s) && Fits(cfg, t.address)
  {
    HomeFits(cfg, t.address);
    var x, i := Home(cfg, t.address), t.address.subarray;
    EndRows(cfg, s, x)[i] == SubArrayTiming.Row(t.address.row)
    && s.banks[x].subarrays[i].muxed == t.address.col / cfg.rbSize
  }

  /** What is queued for a transaction in any reachable state. If its row is open, an access, which closes the row
      if the transaction is the last for it. Otherwise nothing, if commands still wait; if no row is open in the
      bank, an activation and such an access; and if some row is, the row of the subarray is closed if it has
      one, and the access closes nothing. */
  lemma QueuedFor(cfg: Controls, steps: seq<Step>, t: Transaction)
    requires Sound(cfg) && cfg.usePrecharge && IsRun(cfg, steps) && Fits(cfg, t.address)
    ensures var s := After(cfg, steps);
      var x, a := Home(cfg, t.address), t.address;
      && x < |s.banks| && x < |Transact(cfg, s, t).q.pushed|
      && (var rows, act := EndRows(cfg, s, x), Act(a.subarray, a.row);
          Transact(cfg, s, t).q.pushed[x] == s.q.pushed[x] +
            if FindsRow(cfg, s, t) then [Access(a.subarray, a.row, t.last, t.id)]
            else if s.q.queues[x] != [] then []
            else if NoneOpen(rows) then [act, Access(a.subarray, a.row, t.last, t.id)]
            else if rows[a.subarray] == SubArrayTiming.NoRow then [act, Access(a.subarray, a.row, false, t.id)]
            else [Pre(a.subarray), act, Access(a.subarray, a.row, false, t.id)])
      && forall y :: 0 <= y < |s.banks| && y != x ==> Transact(cfg, s, t).q.pushed[y] == s.q.pushed[y]
  {
    var s, a := After(cfg, steps), t.address;
    HomeFits(cfg, a);
    var x := Home(cfg, a);
    var b := s.banks[x];
    var rows, cs := EndRows(cfg, s, x), Commands(cfg, b, CaseOf(cfg, b, s.q.queues[x] == [], a), t);
    Q.PushAllDisciplined(s.q, x, cs);
    HitIff(cfg, s, t);
    if !Hit(cfg, b, a) && s.q.queues[x] == [] && b.activateQueued {
      assert [] + [Act(a.subarray, a.row), Access(a.subarray, a.row, false, t.id)]
        == [Act(a.subarray, a.row), Access(a.subarray, a.row, false, t.id)];
      assert [Pre(a.subarray)] + [Act(a.subarray, a.row), Access(a.subarray, a.row, false, t.id)]
        == [Pre(a.subarray), Act(a.subarray, a.row), Access(a.subarray, a.row, false, t.id)];
    }
  }

  lemma HitIff(cfg: Controls, s: State, t: Transaction)
    requires Invariant(cfg, s) && Fits(cfg, t.address)
    ensures Home(cfg, t.address) < |s.banks|
    ensures var b := s.banks[Home(cfg, t.address)];
      && t.address.subarray < |b.subarrays|
      && (Hit(cfg, b, t.address) <==> FindsRow(cfg, s, t)) && (Hit(cfg, b, t.address) ==> b.activateQueued)
  {
    HomeFits(cfg, t.address);
    assert BankOk(cfg, s, Home(cfg, t.address));
  }

  // ----- what each selector takes -----

  /** In every reachable state: what each selector takes, of transactions for a bank with an empty queue that owes
      no refresh and waits for none, and that did not arrive in this very cycle. `Starved` and `OldestReady` are
      for banks with a row open, `ClosedBank` for the others; `RowBufferHit` is for those that find their row,
      `Starved` for those that do not, once the subarray has had enough hits since it was activated. */
  lemma SelectsIff(cfg: Controls, steps: seq<Step>, sel: Selector, t: Transaction)
    requires Sound(cfg) && cfg.usePrecharge && IsRun(cfg, steps) && Fits(cfg, t.address)
    ensures var s := After(cfg, steps);
      var x, i := Home(cfg, t.address), t.address.subarray;
      && x < |s.banks| && GroupOf(cfg, x) < |s.r.counters| && i < |s.banks[x].subarrays|
      && (Selects(cfg, sel, s.banks[x], s.q.queues[x] == [], t, s.q.now) <==>
            && s.q.queues[x] == [] && s.r.counters[GroupOf(cfg, x)] < cfg.threshold && !s.banks[x].refreshQueued
            && t.arrival != s.q.now
            && match sel
               case Starved =>
                 && !NoneOpen(EndRows(cfg, s, x)) && !FindsRow(cfg, s, t)
                 && SinceAct(s.q.pushed[x], i) >= cfg.starvation + if Acts(s.q.pushed[x], i) > 0 then 1 else 0
               case RowBufferHit => FindsRow(cfg, s, t)
               case OldestReady => !NoneOpen(EndRows(cfg, s, x))
               case ClosedBank => NoneOpen(EndRows(cfg, s, x)))
  {
    var s := After(cfg, steps);
    HomeFits(cfg, t.address);
    var x := Home(cfg, t.address);
    Reachable(cfg, steps, x);
    HitIff(cfg, s, t);
    HitsCounted(cfg, steps, x);
    assert Counted(s.banks[x], s.q.pushed[x], t.address.subarray);
  }

  /** So after enough row hits, a request for another row of the subarray can go first. */
  lemma StarvedAfterHits(cfg: Controls, steps: seq<Step>, t: Transaction)
    requires Sound(cfg) && cfg.usePrecharge && IsRun(cfg, steps) && Fits(cfg, t.address)
    requires Home(cfg, t.address) < BankCount(cfg) && GroupOf(cfg, Home(cfg, t.address)) < R.Count(Groups(cfg))
    requires var s := After(cfg, steps);
      var x, i := Home(cfg, t.address), t.address.subarray;
      && s.q.queues[x] == [] && s.r.counters[GroupOf(cfg, x)] < cfg.threshold && !s.banks[x].refreshQueued
      && t.arrival != s.q.now && (cfg.closePage == 2 ==> t.last)
      && EndRows(cfg, s, x)[i] != SubArrayTiming.NoRow && EndRows(cfg, s, x)[i] != SubArrayTiming.Row(t.address.row)
      && SinceAct(s.q.pushed[x], i) >= cfg.starvation + 1
    ensures Enabled(cfg, After(cfg, steps), TransactStep(Starved, t))
  {
    SelectsIff(cfg, steps, Starved, t);
  }

  // ----- which part of a row is open -----

  datatype Opener = OpenedBy(t: Transaction) | Nobody

  /** The transaction that queued the last activation of a subarray. */
  ghost function LastOpener(cfg: Controls, steps: seq<Step>, x: nat, i: nat): (r: Opener)
    requires Sound(cfg) && cfg.usePrecharge && IsRun(cfg, steps) && x < BankCount(cfg)
    decreases |steps|
  {
    if steps == [] then Nobody
    else
      AfterFront(cfg, steps);
      var front, last := steps[..|steps| - 1], steps[|steps| - 1];
      if last.TransactStep? && Acts(Added(cfg, After(cfg, front), last, x), i) > 0 then OpenedBy(last.t)
      else LastOpener(cfg, front, x, i)
  }

  /** Subarray `i` is as transaction `t` opened it. */
  ghost predicate OpenFor(cfg: Controls, b: Bank, i: nat, t: Transaction)
    requires Sound(cfg) && i < |b.subarrays|
  {
    t.address.subarray == i && b.subarrays[i].row == t.address.row && b.subarrays[i].muxed == t.address.col / cfg.rbSize
  }

  /** Between two banks a subarray has not been opened, at most closed. */
  ghost predicate NotOpened(b: Bank, c: Bank, i: nat)
    requires i < |b.subarrays| == |c.subarrays|
  {
    c.subarrays[i].active ==>
      && b.subarrays[i].active
      && c.subarrays[i].row == b.subarrays[i].row && c.subarrays[i].muxed == b.subarrays[i].muxed
  }

  lemma ServedOpens(cfg: Controls, b: Bank, empty: bool, t: Transaction, i: nat)
    requires Sound(cfg) && t.address.subarray < |b.subarrays| && i < |b.subarrays|
    ensures var k := CaseOf(cfg, b, empty, t.address);
      var c := Served(cfg, b, k, t);
      && |c.subarrays| == |b.subarrays|
      && if Acts(Commands(cfg, b, k, t), i) > 0 then c.subarrays[i].active ==> OpenFor(cfg, c, i, t)
         else NotOpened(b, c, i)
  {
    ServedHistory(cfg, b, CaseOf(cfg, b, empty, t.address), t, i);
  }

  lemma TransactOpens(cfg: Controls, s: State, sel: Selector, t: Transaction, x: nat, i: nat)
    requires Invariant(cfg, s) && Enabled(cfg, s, TransactStep(sel, t)) && x < |s.banks| && i < cfg.subarrays
    ensures var c := Transact(cfg, s, t).banks;
      && x < |c| && |c[x].subarrays| == |s.banks[x].subarrays| == cfg.subarrays
      && if Acts(Added(cfg, s, TransactStep(sel, t), x), i) > 0
         then Home(cfg, t.address) == x && (c[x].subarrays[i].active ==> OpenFor(cfg, c[x], i, t))
         else NotOpened(s.banks[x], c[x], i)
  {
    HomeFits(cfg, t.address);
    if Home(cfg, t.address) == x { ServedOpens(cfg, s.banks[x], s.q.queues[x] == [], t, i); }
  }

  lemma OthersDontOpen(cfg: Controls, s: State, step: Step, x: nat, i: nat)
    requires Invariant(cfg, s) && Enabled(cfg, s, step) && x < |s.banks| && i < cfg.subarrays && !step.TransactStep?
    ensures var c := Take(cfg, s, step).banks;
      x < |c| && |c[x].subarrays| == |s.banks[x].subarrays| == cfg.subarrays && NotOpened(s.banks[x], c[x], i)
  {
    SubarraysAll(cfg, s);
    if step.ServeStep? {
      R.SearchIff(Groups(cfg), s.r);
      RefreshDoesntOpen(cfg, s, R.Search(Groups(cfg), s.r, 0, 0).group, x, i);
    } else {
      QuietSubarrays(cfg, s, step, x);
    }
  }

  lemma RefreshDoesntOpen(cfg: Controls, s: State, g: nat, x: nat, i: nat)
    requires Tracks(cfg, s) && R.Needs(Groups(cfg), s.r.counters, g) && x < |s.banks| && i < cfg.subarrays
    requires |s.banks[x].subarrays| == cfg.subarrays
    ensures var c := QueueRefresh(cfg, s, g).banks;
      x < |c| && |c[x].subarrays| == cfg.subarrays && NotOpened(s.banks[x], c[x], i)
  {
    RefreshedBank(cfg, s, g, x);
  }

  /** In every run, of every active subarray: the row and the part of it that are recorded are those of the
      transaction that queued its last activation. */
  lemma {:induction false} PartIsOpeners(cfg: Controls, steps: seq<Step>, x: nat, i: nat)
    requires Sound(cfg) && cfg.usePrecharge && IsRun(cfg, steps) && x < BankCount(cfg) && i < cfg.subarrays
    ensures var b := After(cfg, steps).banks[x];
      && |b.subarrays| == cfg.subarrays
      && (b.subarrays[i].active ==>
            LastOpener(cfg, steps, x, i).OpenedBy? && OpenFor(cfg, b, i, LastOpener(cfg, steps, x, i).t))
    decreases |steps|
  {
    if steps != [] {
      AfterFront(cfg, steps);
      var front, last := steps[..|steps| - 1], steps[|steps| - 1];
      PartIsOpeners(cfg, front, x, i);
      if last.TransactStep? {
        TransactOpens(cfg, After(cfg, front), last.sel, last.t, x, i);
      } else {
        OthersDontOpen(cfg, After(cfg, front), last, x, i);
      }
    }
  }

  // ----- what is queued for a refresh -----

  /** A refresh queues one command to close all subarrays for each bank of the group with a row open, and the refresh
      itself behind that for the head of the group; nothing for other banks. */
  lemma QueuedForRefresh(cfg: Controls, steps: seq<Step>, g: nat, x: nat)
    requires Sound(cfg) && cfg.usePrecharge && IsRun(cfg, steps) && x < BankCount(cfg)
    requires R.Needs(Groups(cfg), After(cfg, steps).r.counters, g)
    ensures var s := After(cfg, steps);
      && x < |s.banks| && x < |QueueRefresh(cfg, s, g).q.pushed|
      && QueueRefresh(cfg, s, g).q.pushed[x] == s.q.pushed[x]
           + (if GroupOf(cfg, x) == g && !NoneOpen(EndRows(cfg, s, x)) then [PreAll] else [])
           + (if x == Member(cfg, g, 0) then [Ref] else [])
  {
    var s := After(cfg, steps);
    RefreshPushes(cfg, s, g, x);
    Reassociate(s.q.pushed[x], if GroupOf(cfg, x) == g then PrechargeCommands(cfg, s.banks[x]) else [],
                if x == Member(cfg, g, 0) then [Ref] else []);
  }
}
