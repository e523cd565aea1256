/** The execution-driven clock divider: called once per CPU cycle, it lets the memory system run at its
    own, slower frequency. The accumulated fraction is kept exactly, as a numerator over `cpuFreq`. */
module ClockDivider {
  import opened Arithmetic
  import opened Clocks
  import opened EventQueues
  import opened GlobalEventQueues
  import opened GlobalRuns

  /** The fraction after one more call, and whether the memory system runs. */
  function Accumulate(sync: nat, busFreq: nat, cpuFreq: nat): (r: (nat, bool)) {
    if sync + busFreq >= cpuFreq then (sync + busFreq - cpuFreq, true) else (sync + busFreq, false)
  }

  /** The fraction and the number of memory cycles after `n` calls. */
  function After(n: nat, busFreq: nat, cpuFreq: nat): (r: (nat, nat)) {
    if n == 0 then (0, 0) else
      var (sync, cycles) := After(n - 1, busFreq, cpuFreq);
      var (sync', runs) := Accumulate(sync, busFreq, cpuFreq);
      (sync', if runs then cycles + 1 else cycles)
  }

  lemma {:induction false} NothingLost(n: nat, busFreq: nat, cpuFreq: nat)
    requires 0 < cpuFreq
    ensures var (sync, cycles) := After(n, busFreq, cpuFreq);
      && sync + cycles * cpuFreq == n * busFreq
      && (busFreq <= cpuFreq ==> sync < cpuFreq)
      && (cpuFreq < busFreq ==> cycles == n)
  {
    if n > 0 {
      NothingLost(n - 1, busFreq, cpuFreq);
      var (sync, cycles) := After(n - 1, busFreq, cpuFreq);
      Increment(cycles, cpuFreq);
      Increment(n - 1, busFreq);
    }
  }

  /** `n` calls make exactly the memory cycles that fit into `n` CPU cycles, as long as the memory is not
      the faster of the two; a faster memory is held down to one cycle per call. */
  lemma CyclesExact(n: nat, busFreq: nat, cpuFreq: nat)
    requires 0 < cpuFreq
    ensures After(n, busFreq, cpuFreq).1 == if busFreq <= cpuFreq then ToLocal(cpuFreq, busFreq, n) else n
  {
    NothingLost(n, busFreq, cpuFreq);
    var (sync, cycles) := After(n, busFreq, cpuFreq);
    if busFreq <= cpuFreq {
      Increment(cycles, cpuFreq);
      Floor(n * busFreq, cpuFreq, cycles);
    }
  }

  lemma StepsWithin(n: nat, busFreq: nat, cpuFreq: nat, local: nat)
    requires 0 < busFreq <= cpuFreq
    requires ToLocal(cpuFreq, busFreq, n) <= local && ToGlobal(cpuFreq, busFreq, local) <= n
    ensures After(n, busFreq, cpuFreq).1 <= local <= After(n, busFreq, cpuFreq).1 + 1
  {
    CyclesExact(n, busFreq, cpuFreq);
    var c := ToLocal(cpuFreq, busFreq, n);
    Floor(n * busFreq, cpuFreq, c);
    Floor(local * cpuFreq, busFreq, n);
    Increment(n, busFreq);
    Increment(c, cpuFreq);
    Increment(c + 1, cpuFreq);
    if local >= c + 2 { Scale(c + 2, local, cpuFreq); }
  }

  /** The two ways of slowing the memory down agree: after any run of the global event queue, each of its
      queues is at most one cycle ahead of a divider called once per global cycle, and never behind it. */
  lemma SchemesAgree(net: Net, moves: seq<Move>, states: seq<System>, k: nat, i: nat)
    requires Proper(net) && IsGlobalRun(net, moves, states) && k <= |moves| && i < |net.locals|
    ensures |states[k].queues| == |net.locals|
    ensures var s := states[k];
      var divided := After(s.now, net.locals[i], net.frequency).1;
      divided <= s.queues[i].now <= divided + 1
  {
    RunOrdered(net, moves, states, k);
    assert ClockInStep(net, states[k], i);
    StepsWithin(states[k].now, net.locals[i], net.frequency, states[k].queues[i].now);
  }

  class MemorySystem {
    const busFreq: nat
    const cpuFreq: nat
    const eventQueue: EventQueue
    var syncValue: nat
    /** How often this has been called, and how often the memory system has run. */
    ghost var calls: nat
    ghost var cycles: nat

    ghost predicate Valid()
      reads this
    {
      0 < cpuFreq && (syncValue, cycles) == After(calls, busFreq, cpuFreq)
    }

    constructor (busFreq: nat, cpuFreq: nat, eventQueue: EventQueue)
      requires 0 < cpuFreq
      ensures Valid() && calls == 0
      ensures this.busFreq == busFreq && this.cpuFreq == cpuFreq && this.eventQueue == eventQueue
    {
      this.busFreq, this.cpuFreq, this.eventQueue := busFreq, cpuFreq, eventQueue;
      syncValue, calls, cycles := 0, 0, 0;
    }

    method Cycle(steps: nat)
      requires Valid() && eventQueue.Valid() && eventQueue.currentCycle + steps < MAX_CYCLE
      modifies this, eventQueue
      ensures Valid() && eventQueue.Valid() && calls == old(calls) + 1
      ensures cycles == if busFreq <= cpuFreq then ToLocal(cpuFreq, busFreq, calls) else calls
      ensures eventQueue.State() ==
        if cycles > old(cycles) then Skip(old(eventQueue.State()), eventQueue.handler, steps)
        else old(eventQueue.State())
    {
      calls := calls + 1;
      CyclesExact(calls, busFreq, cpuFreq);
      syncValue := syncValue + busFreq;
      if syncValue >= cpuFreq {
        syncValue := syncValue - cpuFreq;
      } else {
        return;
      }
      cycles := cycles + 1;
      eventQueue.LoopSteps(steps);
    }
  }
}
