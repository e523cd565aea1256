/** The command queues: how commands wait, are issued one per cycle in round-robin order, and are removed. */
module CommandQueues {
  import opened Arithmetic
  import opened BankShadows

  /** A queued command, flagged once it has been issued. */
  datatype Entry = Entry(command: Command, issued: bool)

  datatype Issue = Issue(at: nat, queue: nat, command: Command)

  /** `cleanup` tells whether removing the issued commands is scheduled for the next cycle. `pushed` and
      `log` are the history: all commands ever queued, and all issued ones. */
  datatype Queues = Queues(
    queues: seq<seq<Entry>>, cur: nat, lastIssue: nat, now: nat, cleanup: bool,
    pushed: seq<seq<Command>>, log: seq<Issue>)

  function Initial(n: nat): (r: Queues) {
    Queues(seq(n, _ => []), 0, 0, 0, false, seq(n, _ => []), [])
  }

  // ----- choosing a queue -----

  /** The queue at position `i` of a scan. */
  function Scan(cur: nat, i: nat, n: nat): (q: nat)
    requires cur <= n && i < n
    ensures q < n
  {
    Wrap(cur + i, n)
  }

  predicate Ready(queues: seq<seq<Entry>>, ready: seq<bool>, q: nat)
    requires |ready| == |queues|
  {
    q < |queues| && queues[q] != [] && ready[q]
  }

  /** How far the scan goes, from `k` on, until it meets a queue whose head can be issued. */
  function Pick(queues: seq<seq<Entry>>, cur: nat, ready: seq<bool>, k: nat): (r: nat)
    requires |ready| == |queues| && k <= |queues| && cur <= |queues|
    ensures k <= r <= |queues|
    ensures r < |queues| ==> Ready(queues, ready, Scan(cur, r, |queues|))
    ensures forall i :: k <= i < r ==> !Ready(queues, ready, Scan(cur, i, |queues|))
    decreases |queues| - k
  {
    if k == |queues| || Ready(queues, ready, Scan(cur, k, |queues|)) then k else Pick(queues, cur, ready, k + 1)
  }

  /** The position for the next scan. It may reach the number of queues. */
  function Moved(cur: nat, n: nat): (r: nat) {
    if cur + 1 > n then 0 else cur + 1
  }

  /** Queue 0 comes first in two positions out of the `n + 1` that the scan runs through, every other queue in
      one. */
  lemma TwoTurns(n: nat, cur: nat, q: nat)
    requires 0 < n && cur <= n && q < n
    ensures Scan(cur, 0, n) == q <==> cur == q || (q == 0 && cur == n)
    ensures Moved(n - 1, n) == n && Moved(n, n) == 0
  {
  }

  // ----- steps -----

  function Push(s: Queues, q: nat, c: Command): (r: Queues)
    requires q < |s.queues| == |s.pushed|
  {
    s.(queues := s.queues[q := s.queues[q] + [Entry(c, false)]], pushed := s.pushed[q := s.pushed[q] + [c]])
  }

  function IssueFrom(s: Queues, q: nat): (r: Queues)
    requires q < |s.queues| && s.queues[q] != []
  {
    var c := s.queues[q][0].command;
    s.(queues := s.queues[q := s.queues[q][0 := Entry(c, true)]], lastIssue := s.now, cleanup := true,
       cur := Moved(s.cur, |s.queues|), log := s.log + [Issue(s.now, q, c)])
  }

  /** At most one command per cycle, from the first queue in the scan whose head can be issued. */
  function Cycle(s: Queues, ready: seq<bool>): (r: Queues)
    requires |ready| == |s.queues| && s.cur <= |s.queues|
  {
    var k := Pick(s.queues, s.cur, ready, 0);
    if s.lastIssue == s.now || k == |s.queues| then s else IssueFrom(s, Scan(s.cur, k, |s.queues|))
  }

  /** The commands not issued yet. */
  function Unissued(queue: seq<Entry>): (r: seq<Entry>) {
    if queue == [] then []
    else if queue[0].issued then Unissued(queue[1..]) else [queue[0]] + Unissued(queue[1..])
  }

  /** Time goes on; what was issued is removed before anything else happens. */
  function Tick(s: Queues): (r: Queues) {
    s.(now := s.now + 1, cleanup := false,
       queues :=
         if s.cleanup then seq(|s.queues|, q requires 0 <= q < |s.queues| => Unissued(s.queues[q])) else s.queues)
  }

  predicate EffectivelyEmpty(queue: seq<Entry>) {
    queue == [] || (|queue| == 1 && queue[0].issued)
  }

  // ----- what every run keeps -----

  function Pending(queue: seq<Entry>): (r: seq<Command>) {
    if queue == [] then []
    else if queue[0].issued then Pending(queue[1..]) else [queue[0].command] + Pending(queue[1..])
  }

  /** The commands issued from a queue, in order. */
  function IssuedFrom(log: seq<Issue>, q: nat): (r: seq<Command>) {
    if log == [] then []
    else
      var e := log[|log| - 1];
      IssuedFrom(log[..|log| - 1], q) + if e.queue == q then [e.command] else []
  }

  /** Only the head of a queue is ever flagged, and only until the cycle it was issued in is over. */
  ghost predicate HeadOnly(s: Queues, queue: seq<Entry>) {
    && (forall i :: 1 <= i < |queue| ==> !queue[i].issued)
    && (queue != [] && queue[0].issued ==> s.lastIssue == s.now && s.cleanup)
  }

  predicate HeadIssued(queue: seq<Entry>) {
    queue != [] && queue[0].issued
  }

  /** At most one command is issued per cycle. */
  ghost predicate OnePerCycle(s: Queues) {
    && (forall i, j :: 0 <= i < j < |s.log| ==> s.log[i].at < s.log[j].at)
    && (s.log != [] ==> s.log[|s.log| - 1].at == s.lastIssue)
    && (forall i :: 0 <= i < |s.log| ==> s.log[i].at <= s.lastIssue)
  }

  /** Commands leave a queue once each, in the order they came. */
  ghost predicate Fifo(s: Queues, q: nat)
    requires q < |s.queues| == |s.pushed|
  {
    s.pushed[q] == IssuedFrom(s.log, q) + Pending(s.queues[q])
  }

  ghost predicate Disciplined(s: Queues) {
    && |s.queues| == |s.pushed| && s.cur <= |s.queues| && s.lastIssue <= s.now
    && (forall q :: 0 <= q < |s.queues| ==> HeadOnly(s, s.queues[q]) && Fifo(s, q))
    && (forall q, r | 0 <= q < |s.queues| && 0 <= r < |s.queues| ::
          HeadIssued(s.queues[q]) && HeadIssued(s.queues[r]) ==> q == r)
    && OnePerCycle(s)
  }

  lemma InitialDisciplined(n: nat)
    ensures Disciplined(Initial(n))
  {
  }

  lemma {:induction false} PendingAppend(queue: seq<Entry>, c: Command)
    ensures Pending(queue + [Entry(c, false)]) == Pending(queue) + [c]
  {
    if queue == [] {
      assert [Entry(c, false)][1..] == [];
    } else {
      assert (queue + [Entry(c, false)])[1..] == queue[1..] + [Entry(c, false)];
      PendingAppend(queue[1..], c);
    }
  }

  lemma PushDisciplined(s: Queues, q: nat, c: Command)
    requires Disciplined(s) && q < |s.queues|
    ensures Disciplined(Push(s, q, c))
  {
    var t := Push(s, q, c);
    PendingAppend(s.queues[q], c);
    assert Fifo(s, q);
    forall r | 0 <= r < |t.queues| ensures HeadOnly(t, t.queues[r]) && Fifo(t, r) {
      assert HeadOnly(s, s.queues[r]) && Fifo(s, r);
    }
    forall r | 0 <= r < |t.queues| && HeadIssued(t.queues[r]) ensures HeadIssued(s.queues[r]) {}
  }

  function PushAll(s: Queues, q: nat, cs: seq<Command>): (t: Queues)
    requires q < |s.queues| == |s.pushed|
    ensures |t.queues| == |t.pushed| == |s.queues|
    ensures t == s.(queues := t.queues, pushed := t.pushed)
    ensures forall r :: 0 <= r < |s.queues| && r != q ==> t.queues[r] == s.queues[r] && t.pushed[r] == s.pushed[r]
    decreases |cs|
  {
    if cs == [] then s else Push(PushAll(s, q, cs[..|cs| - 1]), q, cs[|cs| - 1])
  }

  lemma PushedOneByOne(s: Queues, q: nat, cs: seq<Command>, c: Command)
    requires q < |s.queues| == |s.pushed|
    ensures PushAll(s, q, cs + [c]) == Push(PushAll(s, q, cs), q, c)
  {
  }

  lemma {:induction false} PushAllDisciplined(s: Queues, q: nat, cs: seq<Command>)
    requires Disciplined(s) && q < |s.queues|
    ensures var t := PushAll(s, q, cs);
      && Disciplined(t) && t.pushed[q] == s.pushed[q] + cs
      && Pending(t.queues[q]) == Pending(s.queues[q]) + cs
    decreases |cs|
  {
    if cs != [] {
      var n := |cs| - 1;
      PushAllDisciplined(s, q, cs[..n]);
      var t := PushAll(s, q, cs[..n]);
      PushDisciplined(t, q, cs[n]);
      PendingAppend(t.queues[q], cs[n]);
      assert cs == cs[..n] + [cs[n]];
    }
  }

  lemma {:induction false} NoneIssued(queue: seq<Entry>)
    requires forall i :: 0 <= i < |queue| ==> !queue[i].issued
    ensures Unissued(queue) == queue
  {
    if queue != [] { NoneIssued(queue[1..]); }
  }

  lemma UnissuedIs(s: Queues, queue: seq<Entry>)
    requires HeadOnly(s, queue)
    ensures Unissued(queue) == if HeadIssued(queue) then queue[1..] else queue
  {
  }

  lemma IssueFifo(s: Queues, q: nat, r: nat)
    requires Disciplined(s) && q < |s.queues| && s.queues[q] != [] && !s.queues[q][0].issued && r < |s.queues|
    ensures Fifo(IssueFrom(s, q), r)
  {
  }

  lemma HeadLeaves(queue: seq<Entry>, after: seq<Entry>)
    requires queue != [] && !queue[0].issued && after == queue[0 := Entry(queue[0].command, true)]
    ensures Pending(queue) == [queue[0].command] + Pending(after)
  {
  }

  lemma NoHeadIssued(s: Queues, q: nat)
    requires Disciplined(s) && s.lastIssue != s.now && q < |s.queues|
    ensures !HeadIssued(s.queues[q])
  {
  }

  lemma IssueDisciplined(s: Queues, q: nat)
    requires Disciplined(s) && s.lastIssue != s.now && q < |s.queues| && s.queues[q] != []
    ensures Disciplined(IssueFrom(s, q)) && !HeadIssued(s.queues[q])
    ensures Pending(s.queues[q]) == [s.queues[q][0].command] + Pending(IssueFrom(s, q).queues[q])
  {
    var t := IssueFrom(s, q);
    NoHeadIssued(s, q);
    HeadLeaves(s.queues[q], t.queues[q]);
    forall r | 0 <= r < |t.queues|
      ensures HeadOnly(t, t.queues[r]) && Fifo(t, r) && (HeadIssued(t.queues[r]) ==> r == q)
    {
      NoHeadIssued(s, r);
      assert HeadOnly(s, s.queues[r]);
      IssueFifo(s, q, r);
    }
  }

  lemma TickDisciplined(s: Queues)
    requires Disciplined(s)
    ensures Disciplined(Tick(s))
    ensures forall q :: 0 <= q < |s.queues| ==> Pending(Tick(s).queues[q]) == Pending(s.queues[q])
  {
    var t := Tick(s);
    forall q | 0 <= q < |t.queues|
      ensures HeadOnly(t, t.queues[q]) && Fifo(t, q) && !HeadIssued(t.queues[q])
      ensures Pending(t.queues[q]) == Pending(s.queues[q])
    {
      assert HeadOnly(s, s.queues[q]) && Fifo(s, q);
      UnissuedIs(s, s.queues[q]);
      if s.cleanup && HeadIssued(s.queues[q]) {
        NoneIssuedPending(s.queues[q]);
      }
    }
  }

  lemma NoneIssuedPending(queue: seq<Entry>)
    requires HeadIssued(queue)
    ensures Pending(queue) == Pending(queue[1..])
  {
  }

  /** Whether a queue is effectively empty is whether nothing in it is still to be issued. */
  lemma EffectivelyEmptyIff(s: Queues, queue: seq<Entry>)
    requires HeadOnly(s, queue)
    ensures EffectivelyEmpty(queue) <==> Pending(queue) == []
  {
  }

  /** Nothing is issued in cycle 0, whatever is ready: the cycle of the last issue starts out as 0, and is
      never ahead. */
  lemma NothingAtZero(s: Queues, ready: seq<bool>)
    requires Disciplined(s) && |ready| == |s.queues| && s.now == 0
    ensures Cycle(s, ready) == s
  {
  }

  // ----- runs -----

  datatype Step = PushStep(q: nat, command: Command) | CycleStep(ready: seq<bool>) | TickStep

  predicate Enabled(s: Queues, step: Step) {
    match step
    case PushStep(q, _) => q < |s.queues|
    case CycleStep(ready) => |ready| == |s.queues|
    case TickStep => true
  }

  function Take(s: Queues, step: Step): (r: Queues)
    requires |s.queues| == |s.pushed| && s.cur <= |s.queues| && Enabled(s, step)
  {
    match step
    case PushStep(q, c) => Push(s, q, c)
    case CycleStep(ready) => Cycle(s, ready)
    case TickStep => Tick(s)
  }

  lemma TakeDisciplined(s: Queues, step: Step)
    requires Disciplined(s) && Enabled(s, step)
    ensures Disciplined(Take(s, step)) && |Take(s, step).queues| == |s.queues|
  {
    match step {
      case PushStep(q, c) => PushDisciplined(s, q, c);
      case CycleStep(ready) =>
        var k := Pick(s.queues, s.cur, ready, 0);
        if s.lastIssue != s.now && k < |s.queues| { IssueDisciplined(s, Scan(s.cur, k, |s.queues|)); }
      case TickStep => TickDisciplined(s);
    }
  }

  ghost predicate CanRun(s: Queues, steps: seq<Step>)
    requires Disciplined(s)
    decreases |steps|
  {
    steps == [] || (Enabled(s, steps[0]) && (TakeDisciplined(s, steps[0]); CanRun(Take(s, steps[0]), steps[1..])))
  }

  ghost function Run(s: Queues, steps: seq<Step>): (t: Queues)
    requires Disciplined(s) && CanRun(s, steps)
    ensures Disciplined(t) && |t.queues| == |s.queues|
    decreases |steps|
  {
    if steps == [] then s else
      TakeDisciplined(s, steps[0]);
      Run(Take(s, steps[0]), steps[1..])
  }

  /** Removing issued commands is scheduled just when there is one. */
  ghost predicate CleanupDue(s: Queues) {
    s.cleanup <==> exists q :: 0 <= q < |s.queues| && HeadIssued(s.queues[q])
  }

  lemma TakeCleanup(s: Queues, step: Step)
    requires Disciplined(s) && CleanupDue(s) && Enabled(s, step)
    ensures CleanupDue(Take(s, step))
  {
    TakeDisciplined(s, step);
    var t := Take(s, step);
    if q: nat :| q < |s.queues| && HeadIssued(s.queues[q]) {
      assert step.PushStep? ==> HeadIssued(t.queues[q]);
    }
    match step {
      case PushStep(_, _) =>
      case CycleStep(ready) =>
        var k := Pick(s.queues, s.cur, ready, 0);
        if s.lastIssue != s.now && k < |s.queues| { assert HeadIssued(t.queues[Scan(s.cur, k, |s.queues|)]); }
      case TickStep => NoneLeft(s);
    }
  }

  lemma NoneLeft(s: Queues)
    requires Disciplined(s)
    ensures forall q :: 0 <= q < |s.queues| ==> !HeadIssued(Tick(s).queues[q])
  {
    TickDisciplined(s);
    forall q | 0 <= q < |s.queues| ensures !HeadIssued(Tick(s).queues[q]) {
      assert HeadOnly(Tick(s), Tick(s).queues[q]);
    }
  }

  /** In every run it is scheduled just when an issued command is still at the head of a queue. */
  lemma {:induction false} RunCleanup(s: Queues, steps: seq<Step>)
    requires Disciplined(s) && CleanupDue(s) && CanRun(s, steps)
    ensures CleanupDue(Run(s, steps))
    decreases |steps|
  {
    if steps != [] {
      TakeDisciplined(s, steps[0]);
      TakeCleanup(s, steps[0]);
      RunCleanup(Take(s, steps[0]), steps[1..]);
    }
  }

  // ----- bounded waiting -----

  /** How many issues at most go by before the scan starts at `q`. */
  function Distance(cur: nat, q: nat, n: nat): (r: nat)
    requires cur <= n
  {
    if cur <= q then q - cur else n + 1 - cur + q
  }

  /** The head of queue `q` waits. */
  predicate Waits(s: Queues, q: nat) {
    q < |s.queues| && s.queues[q] != [] && !s.queues[q][0].issued
  }

  /** The device would accept the head of queue `q` whenever it is asked. */
  predicate Willing(steps: seq<Step>, q: nat) {
    forall i :: 0 <= i < |steps| && steps[i].CycleStep? ==> q < |steps[i].ready| && steps[i].ready[q]
  }

  /** A cycle without an issue so far either serves the queue or brings its turn closer. */
  lemma CycleCloser(s: Queues, ready: seq<bool>, q: nat)
    requires Disciplined(s) && |ready| == |s.queues| && Waits(s, q) && ready[q] && s.lastIssue != s.now
    ensures var t := Cycle(s, ready);
      && |t.log| == |s.log| + 1
      && (t.log[|s.log|].queue == q ||
          (Waits(t, q) && 0 < Distance(s.cur, q, |s.queues|) && t.cur <= |s.queues|
           && Distance(t.cur, q, |s.queues|) == Distance(s.cur, q, |s.queues|) - 1))
  {
    var n := |s.queues|;
    var k := Pick(s.queues, s.cur, ready, 0);
    var i := if s.cur <= q then q - s.cur else n - s.cur + q;
    assert Scan(s.cur, i, n) == q && Ready(s.queues, ready, q);
    assert k <= i;
  }

  lemma {:induction false} LogGrows(s: Queues, steps: seq<Step>)
    requires Disciplined(s) && CanRun(s, steps)
    ensures |s.log| <= |Run(s, steps).log| && Run(s, steps).log[..|s.log|] == s.log
    decreases |steps|
  {
    if steps != [] {
      TakeDisciplined(s, steps[0]);
      var t := Take(s, steps[0]);
      assert |s.log| <= |t.log| && t.log[..|s.log|] == s.log;
      LogGrows(t, steps[1..]);
      var u := Run(t, steps[1..]);
      assert u.log[..|s.log|] == u.log[..|t.log|][..|s.log|];
    }
  }

  lemma StaysWaiting(s: Queues, step: Step, q: nat)
    requires Disciplined(s) && Enabled(s, step) && Waits(s, q)
    requires step.CycleStep? ==> s.lastIssue == s.now
    ensures var t := Take(s, step); Waits(t, q) && t.cur == s.cur && t.log == s.log
  {
  }

  /** A queue whose head stays issuable is served within one more issue than there are queues, although the
      position of the scan runs through one value more than there are queues. */
  lemma {:induction false} ServedSoon(s: Queues, steps: seq<Step>, q: nat) returns (i: nat)
    requires Disciplined(s) && CanRun(s, steps) && Waits(s, q) && Willing(steps, q)
    requires |Run(s, steps).log| > |s.log| + Distance(s.cur, q, |s.queues|)
    ensures |s.log| <= i <= |s.log| + Distance(s.cur, q, |s.queues|) <= |s.log| + |s.queues|
    ensures i < |Run(s, steps).log| && Run(s, steps).log[i].queue == q
    decreases |steps|
  {
    var step := steps[0];
    TakeDisciplined(s, step);
    var t := Take(s, step);
    if step.CycleStep? && s.lastIssue != s.now {
      CycleCloser(s, step.ready, q);
      if t.log[|s.log|].queue == q {
        LogGrows(t, steps[1..]);
        i := |s.log|;
        assert Run(t, steps[1..]).log[..|t.log|][i] == t.log[i];
        return;
      }
    } else {
      StaysWaiting(s, step, q);
    }
    assert forall j :: 0 <= j < |steps[1..]| ==> steps[1..][j] == steps[j + 1];
    i := ServedSoon(t, steps[1..], q);
  }
}
