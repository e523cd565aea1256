/** Whole runs of several queues: their clients insert and remove events, the global clock advances. */
module GlobalRuns {
  import opened EventQueues
  import opened GlobalEventQueues
  import EventOrder

  /** Between two calls: a client of a queue acts on it, or the system advances by some global cycles. */
  datatype Move = Act(queue: nat, op: Op) | Cycle(cycles: nat)

  ghost predicate Moves(net: Net, s: System, m: Move, r: System) {
    && Shaped(net, s)
    && match m
       case Act(i, op) => Allowed(net, s, i, op) && r == Acted(net, s, i, op)
       case Cycle(n) => s.now + n < MAX_CYCLE && CycleDone(net, s, n, r)
  }

  /** The systems met while performing `moves`, one after each. */
  ghost predicate IsGlobalRun(net: Net, moves: seq<Move>, states: seq<System>) {
    && |states| == |moves| + 1 && states[0] == Start(net)
    && forall k :: 0 <= k < |moves| ==> Moves(net, states[k], moves[k], states[k + 1])
  }

  /** No insertion belongs before what has been dispatched by then. */
  ghost predicate NoneLate(net: Net, moves: seq<Move>, states: seq<System>, k: nat)
    requires IsGlobalRun(net, moves, states) && k <= |moves|
  {
    forall j {:trigger moves[j]} :: 0 <= j < k && moves[j].Act? ==> Punctual(net, states[j], moves[j])
  }

  ghost predicate Punctual(net: Net, s: System, m: Move) {
    Shaped(net, s) && m.Act? && m.queue < |s.queues| && InOrder(net, s, m.queue, m.op)
  }

  /** In every state of every run the local clocks are in step and the log is an interleaving of what the
      queues have dispatched. If no insertion was late, the log is in global order, and nothing pending
      belongs before its end. */
  lemma {:induction false} RunOrdered(net: Net, moves: seq<Move>, states: seq<System>, k: nat)
    requires Proper(net) && IsGlobalRun(net, moves, states) && k <= |moves|
    ensures Sound(net, states[k])
    ensures NoneLate(net, moves, states, k) ==> Ordered(net, states[k])
  {
    if k == 0 {
      StartSound(net);
    } else {
      RunOrdered(net, moves, states, k - 1);
      var s, m := states[k - 1], moves[k - 1];
      assert Moves(net, s, m, states[k]);
      match m {
        case Act(i, op) =>
          ActedKeeps(net, s, i, op);
          assert NoneLate(net, moves, states, k) ==> Punctual(net, s, m);
        case Cycle(n) =>
      }
      assert NoneLate(net, moves, states, k) ==> NoneLate(net, moves, states, k - 1);
    }
  }

  // ----- what a run looks like to one queue -----

  /** The step that queue `i`, going from `q` to `r`, sees of a move, if it sees any. */
  ghost function Seen(m: Move, i: nat, q: Queue, r: Queue): (steps: seq<Step>) {
    match m
    case Act(j, op) => if i == j then [External(op)] else []
    case Cycle(_) => if r == q || r.now < q.now then [] else [Advance(r.now - q.now)]
  }

  lemma MoveSeen(net: Net, s: System, m: Move, r: System, i: nat)
    requires Moves(net, s, m, r) && i < |s.queues|
    ensures |r.queues| == |s.queues|
    ensures var q, h, seen := s.queues[i], net.handlers[i], Seen(m, i, s.queues[i], r.queues[i]);
      if seen == [] then r.queues[i] == q
      else |seen| == 1 && Possible(q, seen[0]) && r.queues[i] == Take(q, h, seen[0])
  {
    if m.Cycle? {
      assert SkipsTo(s.queues[i], net.handlers[i], r.queues[i]);
    }
  }

  /** Every queue goes through a run of its own, with the operations of its clients and stretches of
      skipping ahead in between: all that is known of such runs holds for it. */
  lemma {:induction false} RunOfQueue(net: Net, moves: seq<Move>, states: seq<System>, k: nat, i: nat)
    returns (steps: seq<Step>, queues: seq<Queue>)
    requires Proper(net) && IsGlobalRun(net, moves, states) && k <= |moves| && i < |net.locals|
    ensures |states[k].queues| == |net.locals|
    ensures IsRun(EMPTY, net.handlers[i], steps, queues) && queues[|steps|] == states[k].queues[i]
    ensures forall j :: 0 <= j < |steps| && steps[j].External? ==> Act(i, steps[j].op) in moves[..k]
  {
    if k == 0 {
      steps, queues := [], [EMPTY];
    } else {
      steps, queues := RunOfQueue(net, moves, states, k - 1, i);
      var s, m, r := states[k - 1], moves[k - 1], states[k];
      assert Moves(net, s, m, r);
      MoveSeen(net, s, m, r, i);
      assert moves[..k] == moves[..k - 1] + [m];
      var seen := Seen(m, i, s.queues[i], r.queues[i]);
      if seen != [] {
        RunGrows(net.handlers[i], steps, queues, seen[0], r.queues[i]);
        steps, queues := steps + seen, queues + [r.queues[i]];
      }
    }
  }

  lemma RunGrows(h: Handler, steps: seq<Step>, queues: seq<Queue>, step: Step, r: Queue)
    requires FutureOnly(h) && IsRun(EMPTY, h, steps, queues) && WellFormed(queues[|steps|])
    requires Possible(queues[|steps|], step) && r == Take(queues[|steps|], h, step)
    ensures IsRun(EMPTY, h, steps + [step], queues + [r])
  {
    var more, after := steps + [step], queues + [r];
    forall j | 0 <= j < |more|
      ensures WellFormed(after[j]) && Possible(after[j], more[j]) && after[j + 1] == Take(after[j], h, more[j])
    {
      if j < |steps| {
        assert after[j] == queues[j] && after[j + 1] == queues[j + 1] && more[j] == steps[j];
      }
    }
  }

  /** Clients insert events into queue `i` with the priority stored in them. */
  ghost predicate ActsFaithfully(moves: seq<Move>, k: nat, i: nat)
    requires k <= |moves|
  {
    forall op :: Act(i, op) in moves[..k] ==> EventOrder.Faithful(op)
  }

  /** In every state of every run no queue has lost an event or handed one over twice; and if priorities
      are inserted as stored, every queue is first in, first out within a cycle and priority. */
  lemma RunConserves(net: Net, moves: seq<Move>, states: seq<System>, k: nat, i: nat, c: nat, p: int)
    requires Proper(net) && IsGlobalRun(net, moves, states) && k <= |moves| && i < |net.locals|
    ensures |states[k].queues| == |net.locals| && Accounted(states[k].queues[i])
    ensures Matching(net.handlers[i]) && ActsFaithfully(moves, k, i) ==>
      EventOrder.InLine(states[k].queues[i], c, p)
  {
    var steps, queues := RunOfQueue(net, moves, states, k, i);
    RunIntegrity(net.handlers[i], steps, queues, |steps|);
    if Matching(net.handlers[i]) && ActsFaithfully(moves, k, i) {
      EventOrder.RunFirstInFirstOut(net.handlers[i], steps, queues, |steps|, c, p);
    }
  }

  // ----- a late insertion that breaks the order -----

  /** The last dispatch of the log is the last of its queue's trace. */
  lemma LastLogged(net: Net, s: System)
    requires Sound(net, s) && s.log != []
    ensures var st := s.log[|s.log| - 1];
      && st.queue < |s.queues|
      && var t := s.queues[st.queue].trace; t != [] && t[|t| - 1] == st.dispatch
  {
  }

  ghost predicate HalfSpeed(net: Net) {
    Proper(net) && net.frequency == 2 && net.locals == [1, 2]
  }

  /** Advancing by one global cycle dispatches an event pending at cycle 1 of the fast queue, while the slow
      one stays in its cycle 0. */
  lemma FastQueueFirst(net: Net, e: Event, s: System, r: System)
    requires HalfSpeed(net) && s == Acted(net, Start(net), 1, Insert(e, 1, e.priority))
    requires CycleDone(net, s, 1, r)
    ensures r.queues[0].now == 0 && LastTime(net, r.log) == 1
  {
    var slow, fast := s.queues[0], s.queues[1];
    assert ClockInStep(net, r, 0) && ClockInStep(net, r, 1);
    assert r.queues[0].now == 0 && r.queues[1].now == 1;
    assert SkipsTo(slow, net.handlers[0], r.queues[0]) && SkipsTo(fast, net.handlers[1], r.queues[1]);
    SkipNone(slow, net.handlers[0]);
    assert r.queues[0].trace == [];
    SkipTrace(fast, net.handlers[1], 1);
    RunToExtends(fast, net.handlers[1], 1);
    assert r.queues[1].trace != [] && CyclesWithin(r.queues[1].trace, 1, 1) by {
      assert r.queues[1].trace[|fast.trace|..] == r.queues[1].trace;
    }
    assert Projected(r.log, 1) == r.queues[1].trace;
    LastLogged(net, r);
  }

  /** A queue at half the speed of another is behind it when the fast one dispatches in global cycle 1: an
      event inserted then at the slow queue's current cycle belongs to global cycle 0, comes first, and
      whatever the next round dispatches is out of order. */
  lemma LateInsertion(net: Net, e: Event, f: Event, s: System, r: System, j: nat, t: nat)
    requires HalfSpeed(net) && s == Acted(net, Start(net), 1, Insert(e, 1, e.priority))
    requires CycleDone(net, s, 1, r)
    ensures Sound(net, r) && Ordered(net, r)
    ensures var late := Insert(f, r.queues[0].now, f.priority);
      && Allowed(net, r, 0, late) && !InOrder(net, r, 0, late) && First(net, Acted(net, r, 0, late), 0, 0)
      && (First(net, Acted(net, r, 0, late), j, t) ==>
            !Chronological(net, Picked(net, Acted(net, r, 0, late), j, t).log))
  {
    StartSound(net);
    ActedKeeps(net, Start(net), 1, Insert(e, 1, e.priority));
    FastQueueFirst(net, e, s, r);
    TooLate(net, r, Insert(f, r.queues[0].now, f.priority), j, t);
  }

  lemma TooLate(net: Net, s: System, late: Op, j: nat, t: nat)
    requires HalfSpeed(net) && Sound(net, s) && Ordered(net, s) && s.queues[0].now == 0 && LastTime(net, s.log) == 1
    requires late.Insert? && late.when == 0
    ensures Allowed(net, s, 0, late) && !InOrder(net, s, 0, late) && First(net, Acted(net, s, 0, late), 0, 0)
    ensures First(net, Acted(net, s, 0, late), j, t) ==>
      !Chronological(net, Picked(net, Acted(net, s, 0, late), j, t).log)
  {
    ZeroBegins(2, 1);
    ApplyNext(s.queues[0], late);
    if First(net, Acted(net, s, 0, late), j, t) { InsertKeepsOrderIff(net, s, 0, late, j, t); }
  }

  // ----- clients and objects -----

  /** What the client of a queue does to the whole system. */
  method InsertInto(system: GlobalEventQueue, i: nat, event: Event, when: nat, priority: int)
    requires system.Valid() && Sound(system.Fixed(), system.State())
    requires Allowed(system.Fixed(), system.State(), i, Insert(event, when, priority))
    modifies system.eventQueues[i]
    ensures system.Valid() && Sound(system.Fixed(), system.State())
    ensures system.State() == Acted(system.Fixed(), old(system.State()), i, Insert(event, when, priority))
  {
    ghost var net, s := system.Fixed(), system.State();
    assert s.queues[i] == system.eventQueues[i].State() && net.handlers[i] == system.eventQueues[i].handler;
    system.eventQueues[i].InsertEvent(event, when, priority);
    assert system.State() == Acted(net, s, i, Insert(event, when, priority));
    ActedKeeps(net, s, i, Insert(event, when, priority));
  }
}
