/** First in, first out: among the events of one cycle and priority, an event queue behaves like a plain line
    of waiting events, over whole runs. */
module EventOrder {
  import opened EventQueues

  // ----- a plain line -----

  /** The events of one cycle and priority: those dispatched, and those waiting in the order they came. */
  datatype Line = Line(gone: seq<Event>, waiting: seq<Event>)

  predicate Concerns(n: Note, c: nat, p: int) {
    n.cycle == c && n.event.priority == p
  }

  /** A new event goes to the end, a removed one leaves the line, and dispatching takes the first. */
  function Move(l: Line, n: Note): (r: Line) {
    match n
    case Came(e, _) => l.(waiting := l.waiting + [e])
    case Left(e, _) => l.(waiting := Erase(l.waiting, e))
    case Gone(_, _) => if l.waiting == [] then l else Line(l.gone + [l.waiting[0]], l.waiting[1..])
  }

  /** The line that a journal leads to. */
  function LineOf(journal: seq<Note>, c: nat, p: int): (l: Line) {
    if journal == [] then Line([], [])
    else
      var l, n := LineOf(journal[..|journal| - 1], c, p), journal[|journal| - 1];
      if Concerns(n, c, p) then Move(l, n) else l
  }

  /** The events dispatched at cycle `c` with priority `p`, in order. */
  function DispatchedAt(trace: seq<Dispatch>, c: nat, p: int): (r: seq<Event>) {
    if trace == [] then []
    else
      var d := trace[|trace| - 1];
      DispatchedAt(trace[..|trace| - 1], c, p) + if d.cycle == c then Pick(d.event, p) else []
  }

  // ----- an event queue behaves like that -----

  /** The journal, as a line, agrees with what has been dispatched and with the waiting events `rest`. */
  ghost predicate Agrees(q: Queue, c: nat, p: int, rest: seq<Event>) {
    LineOf(q.journal, c, p) == Line(DispatchedAt(q.trace, c, p), OfPriority(rest, p)) && Valid(q.journal, c, p)
  }

  /** Only waiting events were removed. */
  ghost predicate Valid(journal: seq<Note>, c: nat, p: int) {
    journal == [] ||
    (var before, n := journal[..|journal| - 1], journal[|journal| - 1];
     Valid(before, c, p) && (Concerns(n, c, p) && n.Left? ==> n.event in LineOf(before, c, p).waiting))
  }

  lemma LineStep(journal: seq<Note>, n: Note, c: nat, p: int)
    ensures LineOf(journal + [n], c, p) ==
      if Concerns(n, c, p) then Move(LineOf(journal, c, p), n) else LineOf(journal, c, p)
    ensures Valid(journal + [n], c, p) <==>
      Valid(journal, c, p) && (Concerns(n, c, p) && n.Left? ==> n.event in LineOf(journal, c, p).waiting)
  {
  }

  lemma {:induction false} InOfPriority(list: seq<Event>, e: Event, p: int)
    ensures e in OfPriority(list, p) <==> e in list && e.priority == p
  {
    if list != [] {
      InOfPriority(list[1..], e, p);
      assert list == [list[0]] + list[1..];
    }
  }

  lemma {:induction false} IndexBehind(a: seq<Event>, e: Event, b: seq<Event>)
    requires e !in a
    ensures IndexOf(a + [e] + b, e) == |a|
  {
    if a != [] {
      assert (a + [e] + b)[1..] == a[1..] + [e] + b;
      IndexBehind(a[1..], e, b);
    }
  }

  lemma EraseIs(a: seq<Event>, e: Event, b: seq<Event>)
    requires e !in a
    ensures Erase(a + [e] + b, e) == a + b
  {
    IndexBehind(a, e, b);
    assert (a + [e] + b)[..|a|] == a && (a + [e] + b)[|a| + 1..] == b;
  }

  lemma SplitOfPriority(a: seq<Event>, e: Event, b: seq<Event>, p: int)
    ensures OfPriority(a + [e] + b, p) == OfPriority(a, p) + Pick(e, p) + OfPriority(b, p)
    ensures OfPriority(a + b, p) == OfPriority(a, p) + OfPriority(b, p)
  {
    OfPriorityConcat(a + [e], b, p);
    OfPriorityConcat(a, [e], p);
    OfPriorityConcat(a, b, p);
    assert OfPriority([e], p) == Pick(e, p);
  }

  lemma EraseSplit(a: seq<Event>, e: Event, b: seq<Event>, p: int)
    requires e !in a
    ensures OfPriority(Erase(a + [e] + b, e), p) ==
      if e.priority == p then Erase(OfPriority(a + [e] + b, p), e) else OfPriority(a + [e] + b, p)
  {
    EraseIs(a, e, b);
    SplitOfPriority(a, e, b, p);
    if e.priority == p {
      InOfPriority(a, e, p);
      EraseIs(OfPriority(a, p), e, OfPriority(b, p));
    }
  }

  /** Removing an event from a list removes it from the line of its priority, and from no other. */
  lemma EraseOfPriority(list: seq<Event>, e: Event, p: int)
    requires e in list
    ensures OfPriority(Erase(list, e), p) ==
      if e.priority == p then Erase(OfPriority(list, p), e) else OfPriority(list, p)
  {
    EraseCounts(list, e, e);
    var k := IndexOf(list, e);
    assert list == list[..k] + [e] + list[k + 1..];
    EraseSplit(list[..k], e, list[k + 1..], p);
  }

  lemma InsertAgrees(q: Queue, e: Event, when: nat, c: nat, p: int)
    requires AllSorted(q) && Agrees(q, c, p, ListAt(q.pending, c))
    ensures var r := Inserted(q, e, when, e.priority); Agrees(r, c, p, ListAt(r.pending, c))
  {
    LineStep(q.journal, Came(e, when), c, p);
    PlaceFifo(ListAt(q.pending, when), e, p);
  }

  lemma RemoveAgrees(q: Queue, e: Event, when: nat, c: nat, p: int)
    requires Agrees(q, c, p, ListAt(q.pending, c))
    ensures var r := Removed(q, e, when); Agrees(r, c, p, ListAt(r.pending, c))
  {
    assert q.journal + [] == q.journal;
    if when in q.pending {
      var r := Removed(q, e, when);
      EraseCounts(q.pending[when], e, e);
      assert ListAt(r.pending, when) == Erase(q.pending[when], e);
      if c != when { assert ListAt(r.pending, c) == ListAt(q.pending, c); }
      if e in q.pending[when] {
        LineStep(q.journal, Left(e, when), c, p);
        EraseOfPriority(q.pending[when], e, p);
        InOfPriority(q.pending[when], e, p);
      }
    }
  }

  /** Every event inserted is inserted with the priority it stores. */
  predicate Faithful(op: Op) {
    op.Insert? ==> op.priority == op.event.priority
  }

  lemma ApplyAgrees(q: Queue, op: Op, c: nat, p: int)
    requires AllSorted(q) && Faithful(op) && Agrees(q, c, p, ListAt(q.pending, c))
    ensures AllSorted(Apply(q, op)) && Agrees(Apply(q, op), c, p, ListAt(Apply(q, op).pending, c))
  {
    ApplySorted(q, op);
    match op {
      case Insert(e, when, priority) => InsertAgrees(q, e, when, c, p);
      case Remove(e, when) => RemoveAgrees(q, e, when, c, p);
    }
  }

  lemma ApplyElsewhere(q: Queue, op: Op, c: nat, p: int, rest: seq<Event>)
    requires Agrees(q, c, p, rest) && op.when != c
    ensures Agrees(Apply(q, op), c, p, rest)
  {
    assert q.journal + [] == q.journal;
    LineStep(q.journal, Came(op.event, op.when), c, p);
    LineStep(q.journal, Left(op.event, op.when), c, p);
  }

  /** While a cycle is being processed, the events still to be dispatched are the ones waiting there. */
  function Waiting(q: Queue, c: nat, rest: seq<Event>): (list: seq<Event>) {
    if c == q.next then rest else ListAt(q.pending, c)
  }

  lemma ApplyAllAgrees(q: Queue, ops: seq<Op>, c: nat, p: int, rest: seq<Event>)
    requires WellFormed(q) && q.next in q.pending && AllSorted(q) && Agrees(q, c, p, Waiting(q, c, rest))
    requires forall i :: 0 <= i < |ops| ==> q.next < ops[i].when <= MAX_CYCLE && Faithful(ops[i])
    ensures var r := ApplyAll(q, ops); AllSorted(r) && r.next == q.next && Agrees(r, c, p, Waiting(r, c, rest))
    decreases |ops|
  {
    if ops != [] {
      ApplyFrame(q, ops[0]);
      ApplySorted(q, ops[0]);
      if c == q.next { ApplyElsewhere(q, ops[0], c, p, rest); } else { ApplyAgrees(q, ops[0], c, p); }
      forall i | 0 <= i < |ops[1..]| ensures q.next < ops[1..][i].when <= MAX_CYCLE && Faithful(ops[1..][i]) {
        assert ops[1..][i] == ops[i + 1];
      }
      ApplyAllAgrees(Apply(q, ops[0]), ops[1..], c, p, rest);
    }
  }

  lemma RecordAgrees(q: Queue, e: Event, c: nat, p: int, rest: seq<Event>)
    requires Agrees(q, c, p, Waiting(q, c, [e] + rest))
    ensures Agrees(Record(q, e), c, p, Waiting(q, c, rest))
  {
    var r := Record(q, e);
    LineStep(q.journal, Gone(e, q.next), c, p);
    assert r.trace[..|q.trace|] == q.trace;
    assert ([e] + rest)[1..] == rest;
    if c == q.next {
      assert OfPriority([e] + rest, p) == Pick(e, p) + OfPriority(rest, p);
    }
  }

  lemma DeliverAgrees(q: Queue, list: seq<Event>, h: Handler, c: nat, p: int)
    requires WellFormed(q) && q.next in q.pending && FutureOnly(h) && Matching(h) && AllSorted(q)
    requires Agrees(q, c, p, Waiting(q, c, list))
    ensures var r := Deliver(q, list, h); r.next == q.next && AllSorted(r) && Agrees(r, c, p, Waiting(r, c, []))
    decreases |list|
  {
    if list != [] {
      var e, r := list[0], Record(q, list[0]);
      assert list == [e] + list[1..];
      RecordAgrees(q, e, c, p, list[1..]);
      ApplyAllAgrees(r, Reaction(h, e, r.trace), c, p, list[1..]);
      DeliverOneFrame(q, e, h);
      DeliverAgrees(DeliverOne(q, e, h), list[1..], h, c, p);
    }
  }

  /** The state of a queue between two operations. */
  ghost predicate InLine(q: Queue, c: nat, p: int) {
    AllSorted(q) && Agrees(q, c, p, ListAt(q.pending, c))
  }

  lemma ProcessedInLine(q: Queue, h: Handler, c: nat, p: int)
    requires WellFormed(q) && q.next in q.pending && FutureOnly(h) && Matching(h) && InLine(q, c, p)
    ensures InLine(Processed(q, h), c, p)
  {
    var list := q.pending[q.next];
    DeliverAgrees(q, list, h, c, p);
    var d, r := Deliver(q, list, h), Processed(q, h);
    assert c != q.next ==> ListAt(r.pending, c) == ListAt(d.pending, c);
  }

  lemma {:induction false} RunToInLine(q: Queue, h: Handler, target: nat, c: nat, p: int)
    requires WellFormed(q) && target < MAX_CYCLE && FutureOnly(h) && Matching(h) && InLine(q, c, p)
    ensures InLine(RunTo(q, h, target), c, p)
    decreases target + 1 - q.next
  {
    if q.next <= target {
      var at := q.(now := q.next);
      ProcessedNext(at, h);
      ProcessedInLine(at, h, c, p);
      RunToInLine(Processed(at, h), h, target, c, p);
    }
  }

  lemma TakeInLine(q: Queue, h: Handler, s: Step, c: nat, p: int)
    requires WellFormed(q) && FutureOnly(h) && Possible(q, s) && Matching(h) && InLine(q, c, p)
    requires s.External? ==> Faithful(s.op)
    ensures InLine(Take(q, h, s), c, p)
  {
    match s {
      case External(op) => ApplyAgrees(q, op, c, p);
      case Advance(n) =>
        if n > 0 {
          RunToInLine(q, h, q.now + n, c, p);
        } else if q.next == q.now {
          ProcessedInLine(q, h, c, p);
        }
      case TickOnce => if q.next == q.now { ProcessedInLine(q, h, c, p); }
    }
  }

  /** In every run in which priorities are inserted as stored, for every cycle and priority: the events
      dispatched, and those still pending, are the ones that have left the head of a plain line and those
      still waiting in it. */
  lemma {:induction false} RunFirstInFirstOut(
    h: Handler, steps: seq<Step>, states: seq<Queue>, k: nat, c: nat, p: int)
    requires FutureOnly(h) && Matching(h) && IsRun(EMPTY, h, steps, states) && k <= |steps|
    requires forall i :: 0 <= i < k && steps[i].External? ==> Faithful(steps[i].op)
    ensures InLine(states[k], c, p)
    ensures LineOf(states[k].journal, c, p) ==
      Line(DispatchedAt(states[k].trace, c, p), OfPriority(ListAt(states[k].pending, c), p))
  {
    if k > 0 {
      RunFirstInFirstOut(h, steps, states, k - 1, c, p);
      TakeInLine(states[k - 1], h, steps[k - 1], c, p);
    }
  }

  // ----- in terms of arrivals -----

  /** The events that came for the cycle and priority, in order, without those removed. */
  function Arrivals(journal: seq<Note>, c: nat, p: int): (r: seq<Event>) {
    if journal == [] then []
    else
      var before, n := Arrivals(journal[..|journal| - 1], c, p), journal[|journal| - 1];
      if !Concerns(n, c, p) || n.Gone? then before else if n.Came? then before + [n.event] else Erase(before, n.event)
  }

  /** No event comes twice for the same cycle. */
  ghost predicate Once(journal: seq<Note>, c: nat, p: int) {
    forall i, j :: 0 <= i < j < |journal| && journal[i].Came? && Concerns(journal[i], c, p) ==> journal[i] != journal[j]
  }

  lemma {:induction false} LineCame(journal: seq<Note>, c: nat, p: int, e: Event)
    requires e in LineOf(journal, c, p).gone || e in LineOf(journal, c, p).waiting
    ensures e.priority == p && Came(e, c) in journal
  {
    var before, n := journal[..|journal| - 1], journal[|journal| - 1];
    assert journal == before + [n];
    var l := LineOf(before, c, p);
    if Concerns(n, c, p) {
      match n {
        case Came(f, _) => if e != f { LineCame(before, c, p, e); }
        case Left(f, _) => LineCame(before, c, p, e);
        case Gone(_, _) =>
          assert l.waiting != [] ==> l.waiting[0] in l.waiting;
          LineCame(before, c, p, e);
      }
    } else {
      LineCame(before, c, p, e);
    }
  }

  ghost predicate Unique(s: seq<Event>) {
    forall i, j :: 0 <= i < j < |s| ==> s[i] != s[j]
  }

  lemma EraseBehind(a: seq<Event>, b: seq<Event>, e: Event)
    requires e !in a && e in b
    ensures Erase(a + b, e) == a + Erase(b, e)
  {
    EraseCounts(b, e, e);
    var k := IndexOf(b, e);
    var b1, b2 := b[..k], b[k + 1..];
    assert b == b1 + [e] + b2;
    EraseIs(b1, e, b2);
    EraseIs(a + b1, e, b2);
    Regroup(a, b1, [e], b2);
  }

  lemma Regroup(a: seq<Event>, b: seq<Event>, c: seq<Event>, d: seq<Event>)
    ensures (a + b) + c + d == a + (b + c + d) && (a + b) + d == a + (b + d)
  {
  }

  /** If no event comes twice for the same cycle, the dispatched events followed by the waiting ones are the
      arrivals in order, without those removed. */
  lemma {:induction false} LineIsArrivals(journal: seq<Note>, c: nat, p: int)
    requires Valid(journal, c, p) && Once(journal, c, p)
    ensures var l := LineOf(journal, c, p); l.gone + l.waiting == Arrivals(journal, c, p) && Unique(l.gone + l.waiting)
  {
    if journal != [] {
      var before, n := journal[..|journal| - 1], journal[|journal| - 1];
      assert journal == before + [n];
      LineIsArrivals(before, c, p);
      if Concerns(n, c, p) { MoveArrivals(before, n, c, p); }
    }
  }

  lemma MoveArrivals(before: seq<Note>, n: Note, c: nat, p: int)
    requires Concerns(n, c, p) && Valid(before + [n], c, p) && Once(before + [n], c, p)
    requires var l := LineOf(before, c, p); l.gone + l.waiting == Arrivals(before, c, p) && Unique(l.gone + l.waiting)
    ensures var l := LineOf(before + [n], c, p);
      l.gone + l.waiting == Arrivals(before + [n], c, p) && Unique(l.gone + l.waiting)
  {
    LineStep(before, n, c, p);
    var l, m := LineOf(before, c, p), LineOf(before + [n], c, p);
    assert (before + [n])[..|before|] == before;
    match n {
      case Came(e, _) =>
        assert l.gone + (l.waiting + [e]) == (l.gone + l.waiting) + [e];
        forall i | 0 <= i < |l.gone + l.waiting| ensures (l.gone + l.waiting)[i] != e {
          var f := (l.gone + l.waiting)[i];
          assert f in l.gone || f in l.waiting;
          LineCame(before, c, p, f);
          var j: nat :| j < |before| && before[j] == Came(f, c);
          assert (before + [n])[j] != (before + [n])[|before|];
        }
      case Left(e, _) =>
        var j: nat :| j < |l.waiting| && l.waiting[j] == e;
        forall i | 0 <= i < |l.gone| ensures l.gone[i] != e {
          assert (l.gone + l.waiting)[i] != (l.gone + l.waiting)[|l.gone| + j];
        }
        EraseBehind(l.gone, l.waiting, e);
        UniqueErase(l.gone + l.waiting, e);
      case Gone(_, _) =>
        if l.waiting != [] {
          assert (l.gone + [l.waiting[0]]) + l.waiting[1..] == l.gone + l.waiting;
        }
    }
  }

  lemma UniqueErase(s: seq<Event>, e: Event)
    requires Unique(s)
    ensures Unique(Erase(s, e))
  {
  }

  /** So in every such run the events dispatched for a cycle and priority, followed by those pending, are the
      insertions in arrival order, without those removed. */
  lemma RunKeepsArrivalOrder(h: Handler, steps: seq<Step>, states: seq<Queue>, k: nat, c: nat, p: int)
    requires FutureOnly(h) && Matching(h) && IsRun(EMPTY, h, steps, states) && k <= |steps|
    requires forall i :: 0 <= i < k && steps[i].External? ==> Faithful(steps[i].op)
    requires Once(states[k].journal, c, p)
    ensures DispatchedAt(states[k].trace, c, p) + OfPriority(ListAt(states[k].pending, c), p)
      == Arrivals(states[k].journal, c, p)
  {
    RunFirstInFirstOut(h, steps, states, k, c, p);
    LineIsArrivals(states[k].journal, c, p);
  }
}
