/** Which rows are left open: over runs, what a transaction marked as the last one for its row does to it. */
module PageRuns {
  import opened BankShadows
  import opened Controllers
  import opened ControllerRuns
  import SubArrayTiming
  import Q = CommandQueues

  /** Once its bank's queue has drained, the device has the row of the transaction open. */
  ghost predicate EndsOpen(cfg: Controls, s: State, t: Transaction) {
    var x, i := Home(cfg, t.address), t.address.subarray;
    && x < |s.q.queues| == |s.device|
    && (var r := Replay(cfg, s.device[x], Pending(s, x));
        r.Rows? && i < |r.rows| && r.rows[i] == SubArrayTiming.Row(t.address.row))
  }

  /** In every run, a chosen transaction that is to close its row leaves the device with that row open
      exactly when it was a row miss. */
  lemma LastLeavesOpenIff(cfg: Controls, steps: seq<Step>, sel: Selector, t: Transaction)
    requires Sound(cfg) && cfg.usePrecharge && IsRun(cfg, steps)
    requires Enabled(cfg, After(cfg, steps), TransactStep(sel, t)) && Closing(cfg, t)
    ensures var s := After(cfg, steps);
      && Home(cfg, t.address) < |s.banks| && t.address.subarray < |s.banks[Home(cfg, t.address)].subarrays|
      && (EndsOpen(cfg, Take(cfg, s, TransactStep(sel, t)), t) <==>
            s.banks[Home(cfg, t.address)].activateQueued && !Hit(cfg, s.banks[Home(cfg, t.address)], t.address))
  {
    var s := After(cfg, steps);
    HomeFits(cfg, t.address);
    TransactTracks(cfg, s, t);
    var x, u := Home(cfg, t.address), Transact(cfg, s, t);
    ChosenIsServed(cfg, sel, s.banks[x], t, s.q.now, t.id);
    LeftOpenIff(cfg, s.banks[x], true, t);
    assert BankOk(cfg, u, x);
  }

  // ----- draining a queue -----

  /** Only queue `x` has anything to issue, no refresh among it, and a command can be issued. */
  ghost predicate OnlyOne(cfg: Controls, s: State, x: nat) {
    && Invariant(cfg, s) && x < |s.q.queues| && s.q.lastIssue != s.q.now && Ref !in Pending(s, x)
    && forall y :: 0 <= y < |s.q.queues| && y != x ==> Pending(s, y) == []
  }

  lemma DrainOne(cfg: Controls, s: State, x: nat)
    requires OnlyOne(cfg, s, x) && Pending(s, x) != []
    ensures Enabled(cfg, s, CycleStep(AllReady(cfg)))
    ensures var t := Take(cfg, s, CycleStep(AllReady(cfg)));
      && Invariant(cfg, t)
      && (var u := Take(cfg, t, TickStep);
          OnlyOne(cfg, u, x) && u.banks == s.banks && Pending(u, x) == Pending(s, x)[1..] && u.q.now > s.q.now)
  {
    var step := CycleStep(AllReady(cfg));
    OnlyOneIssues(cfg, s, step.ready, x);
    TakeKeeps(cfg, s, step);
    var t := Take(cfg, s, step);
    TakeKeeps(cfg, t, TickStep);
    Q.TickDisciplined(t.q);
    var u := Take(cfg, t, TickStep);
    forall y | 0 <= y < |u.q.queues| ensures Pending(u, y) == Pending(t, y) {}
    assert Pending(s, x)[0] in Pending(s, x);
  }

  /** Cycle by cycle the queue is emptied, and the record stays as it is. */
  lemma {:induction false} Drain(cfg: Controls, steps: seq<Step>, x: nat) returns (more: seq<Step>)
    requires Sound(cfg) && cfg.usePrecharge && IsRun(cfg, steps) && OnlyOne(cfg, After(cfg, steps), x)
    ensures IsRun(cfg, more) && OnlyOne(cfg, After(cfg, more), x)
    ensures After(cfg, more).banks == After(cfg, steps).banks && After(cfg, more).q.now >= After(cfg, steps).q.now
    ensures Pending(After(cfg, more), x) == []
    decreases |Pending(After(cfg, steps), x)|
  {
    var s := After(cfg, steps);
    if Pending(s, x) == [] {
      more := steps;
    } else {
      DrainOne(cfg, s, x);
      AfterStep(cfg, steps, CycleStep(AllReady(cfg)));
      more := steps + [CycleStep(AllReady(cfg))];
      AfterStep(cfg, more, TickStep);
      more := Drain(cfg, more + [TickStep], x);
    }
  }

  // ----- a run in which it happens -----

  lemma FirstTick(cfg: Controls, x: nat)
    requires Sound(cfg) && cfg.usePrecharge && x < BankCount(cfg)
    ensures IsRun(cfg, [TickStep])
    ensures var s := After(cfg, [TickStep]);
      && OnlyOne(cfg, s, x) && Pending(s, x) == [] && s.banks == Initial(cfg).banks && s.q.now == 1
  {
    InitialInvariant(cfg);
    AfterStep(cfg, [], TickStep);
    assert [] + [TickStep] == [TickStep];
    Q.TickDisciplined(Initial(cfg).q);
    forall y | 0 <= y < BankCount(cfg) ensures Pending(Initial(cfg), y) == [] {}
  }

  /** Opening the row of a closed bank, with nothing else going on. */
  lemma Opened(cfg: Controls, s: State, t: Transaction)
    requires Sound(cfg) && Fits(cfg, t.address) && !t.last && t.arrival != s.q.now && cfg.closePage != 2
    requires OnlyOne(cfg, s, Home(cfg, t.address)) && s.q.queues[Home(cfg, t.address)] == []
    requires s.banks[Home(cfg, t.address)] == InitialBank(cfg)
    ensures Enabled(cfg, s, TransactStep(ClosedBank, t))
    ensures var u, x, i := Transact(cfg, s, t), Home(cfg, t.address), t.address.subarray;
      && OnlyOne(cfg, u, x) && u.q.now == s.q.now
      && |u.banks[x].subarrays| == cfg.subarrays
      && u.banks[x].activateQueued && !u.banks[x].needRefresh && !u.banks[x].refreshQueued
      && u.banks[x].subarrays[i].row == t.address.row
  {
    var x := Home(cfg, t.address);
    var u := Transact(cfg, s, t);
    TakeKeeps(cfg, s, TransactStep(ClosedBank, t));
    var cs := Commands(cfg, s.banks[x], OpenBank, t);
    Q.PushAllDisciplined(s.q, x, cs);
    assert Pending(s, x) == [];
    assert [] + cs == cs;
    forall y | 0 <= y < |u.q.queues| && y != x ensures Pending(u, y) == [] {
      assert Pending(s, y) == [];
    }
  }

  /** The policy that closes a row with its last transaction, and three transactions for one bank: `t`, then
      `u` for another row, with `v` for the row of `t` still waiting. So `t` is not the last one for its row
      and `u` is, but the row of `u` is left open. */
  lemma RowMissStaysOpen(cfg: Controls, t: Transaction, u: Transaction, v: Transaction) returns (steps: seq<Step>)
    requires Sound(cfg) && cfg.usePrecharge && cfg.closePage == 1
    requires Fits(cfg, t.address) && u.address == t.address.(row := u.address.row) && Fits(cfg, u.address)
    requires u.address.row != t.address.row && SameRow(v, t) && t.arrival == u.arrival == 0
    requires t.last == IsLast(cfg, [u, v], t) && u.last == IsLast(cfg, [v], u)
    ensures u.last && IsRun(cfg, steps) && Enabled(cfg, After(cfg, steps), TransactStep(OldestReady, u))
    ensures EndsOpen(cfg, Take(cfg, After(cfg, steps), TransactStep(OldestReady, u)), u)
  {
    HomeFits(cfg, t.address);
    var x := Home(cfg, t.address);
    FirstTick(cfg, x);
    steps := [TickStep];
    var s := After(cfg, steps);
    Q.NoHeadIssued(s.q, x);
    assert [u, v][1] == v;
    Opened(cfg, s, t);
    AfterStep(cfg, steps, TransactStep(ClosedBank, t));
    steps := Drain(cfg, steps + [TransactStep(ClosedBank, t)], x);
    Q.NoHeadIssued(After(cfg, steps).q, x);
    LastLeavesOpenIff(cfg, steps, OldestReady, u);
  }
}
