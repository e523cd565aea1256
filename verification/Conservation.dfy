/** Every transaction that is chosen is carried out exactly once, by one command in one queue. */
module Conservation {
  import opened BankShadows
  import opened Controllers
  import opened ControllerRuns
  import Q = CommandQueues
  import R = Refreshes

  lemma {:induction false} AccessesAppend(a: seq<Command>, b: seq<Command>, id: nat)
    ensures Accesses(a + b, id) == Accesses(a, id) + Accesses(b, id)
  {
    if a == [] {
      assert a + b == b;
    } else {
      assert (a + b)[1..] == a[1..] + b;
      AccessesAppend(a[1..], b, id);
    }
  }

  /** The accesses for a transaction in queue `x`: those issued, and those still waiting. */
  function Landed(s: State, x: nat, id: nat): (r: nat)
    requires x < |s.q.queues|
  {
    Accesses(Q.IssuedFrom(s.q.log, x), id) + Accesses(Pending(s, x), id)
  }

  /** Whether a step chooses transaction `id` for bank `x`. */
  function Chooses(cfg: Controls, step: Step, x: nat, id: nat): (r: nat) {
    if step.TransactStep? && step.t.id == id && Home(cfg, step.t.address) == x then 1 else 0
  }

  lemma TransactLands(cfg: Controls, s: State, sel: Selector, t: Transaction, x: nat, id: nat)
    requires Invariant(cfg, s) && Enabled(cfg, s, TransactStep(sel, t)) && x < |s.banks|
    ensures Landed(Transact(cfg, s, t), x, id) == Landed(s, x, id) + Chooses(cfg, TransactStep(sel, t), x, id)
  {
    HomeFits(cfg, t.address);
    var h := Home(cfg, t.address);
    var b := s.banks[h];
    var cs := Commands(cfg, b, CaseOf(cfg, b, true, t.address), t);
    Q.PushAllDisciplined(s.q, h, cs);
    ChosenIsServed(cfg, sel, b, t, s.q.now, id);
    AccessesAppend(Pending(s, h), cs, id);
  }

  lemma RefreshLands(cfg: Controls, s: State, g: nat, x: nat, id: nat)
    requires Tracks(cfg, s) && R.Needs(Groups(cfg), s.r.counters, g) && x < |s.banks|
    ensures Landed(QueueRefresh(cfg, s, g), x, id) == Landed(s, x, id)
  {
    RefreshPending(cfg, s, g, x);
    AccessesAppend(Pending(s, x), RefreshCommands(cfg, s, g, x), id);
    NoAccess(cfg, s, g, x, id);
    SameLog(cfg, s, g);
  }

  lemma NoAccess(cfg: Controls, s: State, g: nat, x: nat, id: nat)
    requires Sound(cfg) && x < |s.banks|
    ensures Accesses(RefreshCommands(cfg, s, g, x), id) == 0
  {
    AccessesAppend(if GroupOf(cfg, x) == g then PrechargeCommands(cfg, s.banks[x]) else [],
                   if x == Member(cfg, g, 0) then [Ref] else [], id);
  }

  lemma SameLog(cfg: Controls, s: State, g: nat)
    requires Tracks(cfg, s) && R.Needs(Groups(cfg), s.r.counters, g)
    ensures QueueRefresh(cfg, s, g).q.log == s.q.log
  {
    SameLogUpTo(cfg, s, g, cfg.banksPerRefresh);
  }

  lemma {:induction false} SameLogUpTo(cfg: Controls, s: State, g: nat, k: nat)
    requires Tracks(cfg, s) && g < R.Count(Groups(cfg)) && k <= cfg.banksPerRefresh
    ensures PrechargeGroup(cfg, s, g, k).q.log == s.q.log
  {
    if k > 0 {
      SameLogUpTo(cfg, s, g, k - 1);
      MemberIs(cfg, g, k - 1);
    }
  }

  lemma IssueLands(cfg: Controls, s: State, q: nat, x: nat, id: nat)
    requires Tracks(cfg, s) && q < |s.banks| && s.q.queues[q] != [] && s.q.lastIssue != s.q.now && x < |s.banks|
    ensures Landed(IssueAt(cfg, s, q), x, id) == Landed(s, x, id)
  {
    MemberOfGroup(cfg, q);
    var t, c := IssueAt(cfg, s, q), s.q.queues[q][0].command;
    Q.IssueDisciplined(s.q, q);
    assert t.q.log[..|s.q.log|] == s.q.log;
    assert Q.IssuedFrom(t.q.log, x) == Q.IssuedFrom(s.q.log, x) + if q == x then [c] else [];
    AccessesAppend(Q.IssuedFrom(s.q.log, x), if q == x then [c] else [], id);
    if q == x { AccessesAppend([c], Pending(t, x), id); }
  }

  lemma TakeLands(cfg: Controls, s: State, step: Step, x: nat, id: nat)
    requires Invariant(cfg, s) && Enabled(cfg, s, step) && x < |s.banks|
    ensures |Take(cfg, s, step).banks| == |s.banks| == |Take(cfg, s, step).q.queues|
    ensures Landed(Take(cfg, s, step), x, id) == Landed(s, x, id) + Chooses(cfg, step, x, id)
  {
    TakeTracks(cfg, s, step);
    R.SearchIff(Groups(cfg), s.r);
    match step {
      case TransactStep(sel, t) => TransactLands(cfg, s, sel, t, x, id);
      case ServeStep => RefreshLands(cfg, s, R.Search(Groups(cfg), s.r, 0, 0).group, x, id);
      case PulseStep(g) =>
      case CycleStep(ready) =>
        var k := Issuing(s, ready);
        if k < |s.q.queues| { IssueLands(cfg, s, Q.Scan(s.q.cur, k, |s.q.queues|), x, id); }
      case TickStep => Q.TickDisciplined(s.q);
    }
  }

  /** How often a run chooses transaction `id` for bank `x`. */
  function Chosen(cfg: Controls, steps: seq<Step>, x: nat, id: nat): (r: nat) {
    if steps == [] then 0 else Chooses(cfg, steps[0], x, id) + Chosen(cfg, steps[1..], x, id)
  }

  lemma {:induction false} RunLands(cfg: Controls, s: State, steps: seq<Step>, x: nat, id: nat)
    requires Invariant(cfg, s) && CanRun(cfg, s, steps) && x < |s.banks|
    ensures Invariant(cfg, Run(cfg, s, steps))
    ensures x < |Run(cfg, s, steps).q.queues|
    ensures Landed(Run(cfg, s, steps), x, id) == Landed(s, x, id) + Chosen(cfg, steps, x, id)
    decreases |steps|
  {
    if steps != [] {
      TakeKeeps(cfg, s, steps[0]);
      TakeLands(cfg, s, steps[0], x, id);
      RunLands(cfg, Take(cfg, s, steps[0]), steps[1..], x, id);
    }
  }

  /** In every run, the accesses for a transaction in a queue, issued or waiting, are as many as the times it
      was chosen for that queue's bank. All commands ever queued are those issued, in order, followed by those
      waiting, and no two commands were issued in the same cycle. */
  lemma CarriedOutOnce(cfg: Controls, steps: seq<Step>, x: nat, id: nat)
    requires Sound(cfg) && cfg.usePrecharge && IsRun(cfg, steps) && x < BankCount(cfg)
    ensures var s := After(cfg, steps);
      && Landed(s, x, id) == Chosen(cfg, steps, x, id)
      && s.q.pushed[x] == Q.IssuedFrom(s.q.log, x) + Pending(s, x)
      && forall i, j :: 0 <= i < j < |s.q.log| ==> s.q.log[i].at < s.q.log[j].at
  {
    InitialInvariant(cfg);
    RunLands(cfg, Initial(cfg), steps, x, id);
    var s := After(cfg, steps);
    assert Q.Fifo(s.q, x);
  }
}
