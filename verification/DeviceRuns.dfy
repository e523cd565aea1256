/** The controller together with its devices: every subarray of every bank follows its own timing rules, and
    a command is issued when those it concerns accept it. */
module DeviceRuns {
  import opened BankShadows
  import opened Controllers
  import opened ControllerRuns
  import D = SubArrayTiming
  import Q = CommandQueues

  datatype Machine = Machine(s: State, devices: seq<seq<D.Device>>)

  /** The controller acts, or it issues a command, sent to each subarray it concerns; a subarray completes
      something; a cycle ends. */
  datatype Move =
    | Control(step: Step)
    | Send(ready: seq<bool>, sent: seq<D.Command>)
    | Complete(x: nat, i: nat, k: nat)
    | EndCycle

  predicate Accepts(p: D.Params, bank: seq<D.Device>, c: Command, sent: seq<D.Command>) {
    && |sent| == |bank|
    && forall i :: 0 <= i < |bank| && Concerns(c, i) ==>
         Carries(c, sent[i]) && D.Enabled(p, bank[i], D.Issue(sent[i]))
  }

  function Sent(p: D.Params, bank: seq<D.Device>, c: Command, sent: seq<D.Command>): (r: seq<D.Device>)
    requires D.Sane(p) && Accepts(p, bank, c, sent)
  {
    seq(|bank|, i requires 0 <= i < |bank| =>
          if Concerns(c, i) then D.Take(p, bank[i], D.Issue(sent[i])) else bank[i])
  }

  /** Each subarray has the row open that the controller's device state says. */
  ghost predicate BankAgrees(p: D.Params, bank: seq<D.Device>, rows: seq<RowState>) {
    && |bank| == |rows|
    && forall i :: 0 <= i < |bank| ==> D.LifeCycle(p, bank[i]) && rows[i] == D.RowOf(bank[i])
  }

  ghost predicate Agrees(cfg: Controls, p: D.Params, m: Machine) {
    && D.Sane(p) && p.usePrecharge && Invariant(cfg, m.s) && |m.devices| == |m.s.device|
    && forall x :: 0 <= x < |m.devices| ==> BankAgrees(p, m.devices[x], m.s.device[x])
  }

  ghost predicate Possible(cfg: Controls, p: D.Params, m: Machine, move: Move)
    requires Agrees(cfg, p, m)
  {
    match move
    case Control(step) => !step.CycleStep? && !step.TickStep? && Enabled(cfg, m.s, step)
    case Send(ready, sent) =>
      |ready| == |m.s.q.queues| &&
      (var k := Issuing(m.s, ready);
       k < |ready| ==>
         var x := Q.Scan(m.s.q.cur, k, |ready|);
         Accepts(p, m.devices[x], m.s.q.queues[x][0].command, sent))
    case Complete(x, i, k) =>
      x < |m.devices| && i < |m.devices[x]| && D.Enabled(p, m.devices[x][i], D.Deliver(k))
    case EndCycle =>
      forall x, i :: 0 <= x < |m.devices| && 0 <= i < |m.devices[x]| ==> D.Enabled(p, m.devices[x][i], D.Tick)
  }

  ghost function Moved(cfg: Controls, p: D.Params, m: Machine, move: Move): (r: Machine)
    requires Agrees(cfg, p, m) && Possible(cfg, p, m, move)
  {
    match move
    case Control(step) => m.(s := Take(cfg, m.s, step))
    case Send(ready, sent) =>
      var k := Issuing(m.s, ready);
      var t := m.(s := Take(cfg, m.s, CycleStep(ready)));
      if k == |ready| then t else
        var x := Q.Scan(m.s.q.cur, k, |ready|);
        t.(devices := m.devices[x := Sent(p, m.devices[x], m.s.q.queues[x][0].command, sent)])
    case Complete(x, i, k) =>
      m.(devices := m.devices[x := m.devices[x][i := D.Take(p, m.devices[x][i], D.Deliver(k))]])
    case EndCycle =>
      Machine(Take(cfg, m.s, TickStep),
              seq(|m.devices|, x requires 0 <= x < |m.devices| => Ticked(p, m.devices[x])))
  }

  function Ticked(p: D.Params, bank: seq<D.Device>): (r: seq<D.Device>) {
    seq(|bank|, i requires 0 <= i < |bank| => bank[i].(now := bank[i].now + 1))
  }

  // ----- what each move keeps -----

  lemma SentAgrees(
    cfg: Controls, p: D.Params, bank: seq<D.Device>, rows: seq<RowState>, c: Command, sent: seq<D.Command>)
    requires D.Sane(p) && p.usePrecharge && cfg.usePrecharge
    requires BankAgrees(p, bank, rows) && Accepts(p, bank, c, sent)
    requires BankShadows.Step(cfg, rows, c).Rows?
    ensures BankAgrees(p, Sent(p, bank, c, sent), BankShadows.Step(cfg, rows, c).rows)
  {
    var after, r := Sent(p, bank, c, sent), BankShadows.Step(cfg, rows, c).rows;
    forall i | 0 <= i < |after| ensures D.LifeCycle(p, after[i]) && r[i] == D.RowOf(after[i]) {
      if Concerns(c, i) {
        D.TakeLifeCycle(p, bank[i], D.Issue(sent[i]));
        DeviceAgrees(cfg, p, bank[i], sent[i], c, rows, i);
      }
    }
  }

  lemma SendAgrees(cfg: Controls, p: D.Params, m: Machine, ready: seq<bool>, sent: seq<D.Command>)
    requires Agrees(cfg, p, m) && Possible(cfg, p, m, Send(ready, sent))
    ensures Agrees(cfg, p, Moved(cfg, p, m, Send(ready, sent)))
  {
    TakeKeeps(cfg, m.s, CycleStep(ready));
    var k := Issuing(m.s, ready);
    if k < |ready| {
      var x := Q.Scan(m.s.q.cur, k, |ready|);
      IssueTracks(cfg, m.s, x);
      SentAgrees(cfg, p, m.devices[x], m.s.device[x], m.s.q.queues[x][0].command, sent);
    }
  }

  /** Transactions, refreshes, pulses and the end of a cycle leave the rows of the devices alone. */
  lemma SameDevice(cfg: Controls, s: State, step: Step)
    requires Invariant(cfg, s) && Enabled(cfg, s, step) && !step.CycleStep?
    ensures Take(cfg, s, step).device == s.device
  {
  }

  lemma CompleteAgrees(cfg: Controls, p: D.Params, m: Machine, x: nat, i: nat, k: nat)
    requires Agrees(cfg, p, m) && Possible(cfg, p, m, Complete(x, i, k))
    ensures Agrees(cfg, p, Moved(cfg, p, m, Complete(x, i, k)))
  {
    D.TakeLifeCycle(p, m.devices[x][i], D.Deliver(k));
    D.TakeRow(p, m.devices[x][i], D.Deliver(k));
    assert BankAgrees(p, m.devices[x], m.s.device[x]);
  }

  lemma EndAgrees(cfg: Controls, p: D.Params, m: Machine)
    requires Agrees(cfg, p, m) && Possible(cfg, p, m, EndCycle)
    ensures Agrees(cfg, p, Moved(cfg, p, m, EndCycle))
  {
    var n := Moved(cfg, p, m, EndCycle);
    TakeKeeps(cfg, m.s, TickStep);
    SameDevice(cfg, m.s, TickStep);
    forall x | 0 <= x < |n.devices| ensures BankAgrees(p, n.devices[x], n.s.device[x]) {
      assert BankAgrees(p, m.devices[x], m.s.device[x]);
      forall i | 0 <= i < |n.devices[x]|
        ensures D.LifeCycle(p, n.devices[x][i]) && D.RowOf(n.devices[x][i]) == D.RowOf(m.devices[x][i])
      {
        D.TakeLifeCycle(p, m.devices[x][i], D.Tick);
      }
    }
  }

  lemma MovedAgrees(cfg: Controls, p: D.Params, m: Machine, move: Move)
    requires Agrees(cfg, p, m) && Possible(cfg, p, m, move)
    ensures Agrees(cfg, p, Moved(cfg, p, m, move))
  {
    match move {
      case Control(step) =>
        TakeKeeps(cfg, m.s, step);
        SameDevice(cfg, m.s, step);
      case Send(ready, sent) => SendAgrees(cfg, p, m, ready, sent);
      case Complete(x, i, k) => CompleteAgrees(cfg, p, m, x, i, k);
      case EndCycle => EndAgrees(cfg, p, m);
    }
  }

  // ----- runs -----

  ghost function Start(cfg: Controls, p: D.Params): (m: Machine)
    requires Sound(cfg) && cfg.usePrecharge && D.Sane(p) && p.usePrecharge
    ensures Agrees(cfg, p, m)
  {
    InitialInvariant(cfg);
    Machine(Initial(cfg), seq(BankCount(cfg), _ => seq(cfg.subarrays, _ => D.Initial(p))))
  }

  ghost predicate CanMove(cfg: Controls, p: D.Params, m: Machine, moves: seq<Move>)
    requires Agrees(cfg, p, m)
    decreases |moves|
  {
    moves == [] ||
    (Possible(cfg, p, m, moves[0]) &&
     (MovedAgrees(cfg, p, m, moves[0]); CanMove(cfg, p, Moved(cfg, p, m, moves[0]), moves[1..])))
  }

  ghost function AfterMoves(cfg: Controls, p: D.Params, m: Machine, moves: seq<Move>): (n: Machine)
    requires Agrees(cfg, p, m) && CanMove(cfg, p, m, moves)
    ensures Agrees(cfg, p, n)
    decreases |moves|
  {
    if moves == [] then m else
      MovedAgrees(cfg, p, m, moves[0]);
      AfterMoves(cfg, p, Moved(cfg, p, m, moves[0]), moves[1..])
  }

  /** The rows that the subarrays of a bank really have open. */
  function OpenRows(bank: seq<D.Device>): (rows: seq<RowState>) {
    seq(|bank|, i requires 0 <= i < |bank| => D.RowOf(bank[i]))
  }

  /** In every run of controller and devices together: replaying a bank's queue on the rows its subarrays
      really have open meets no illegal command, and ends in the rows that the controller has recorded. */
  lemma DevicesReachable(cfg: Controls, p: D.Params, moves: seq<Move>, x: nat)
    requires Sound(cfg) && cfg.usePrecharge && D.Sane(p) && p.usePrecharge && x < BankCount(cfg)
    requires CanMove(cfg, p, Start(cfg, p), moves)
    ensures var m := AfterMoves(cfg, p, Start(cfg, p), moves);
      && x < |m.devices|
      && Coherent(cfg, m.s.banks[x], Pending(m.s, x), OpenRows(m.devices[x]))
  {
    var m := AfterMoves(cfg, p, Start(cfg, p), moves);
    assert BankOk(cfg, m.s, x) && BankAgrees(p, m.devices[x], m.s.device[x]);
    assert OpenRows(m.devices[x]) == m.s.device[x];
  }
}
