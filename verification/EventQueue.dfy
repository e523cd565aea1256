/** The discrete-event engine: a map from cycle to a list of events, the cached cycle of the
    earliest event, and two ways of advancing time: one cycle at a time, or from event to event.

    A queue is described by a value of type `Queue`; class `EventQueue` at the end of the file
    updates its fields in place and is proved against the functions on that value. */
module EventQueues {
  import opened Arithmetic

  /** The largest cycle number; it also stands for "no event". */
  const MAX_CYCLE: nat := MAX_UINT64

  datatype EventType = EventUnknown | EventCycle | EventIdle | EventRequest | EventResponse | EventCallback

  /** `id` is the identity of the event object, `priority` the priority stored in it. */
  datatype Event = Event(
    id: nat,
    kind: EventType,
    recipient: nat,
    request: nat,
    data: nat,
    callback: nat,
    priority: int)

  /** One event handed to its recipient: when, and how many cycles after the previous batch. */
  datatype Dispatch = Dispatch(event: Event, cycle: nat, elapsed: nat)

  /** What a recipient may do to the queue while it handles an event. */
  datatype Op = Insert(event: Event, when: nat, priority: int) | Remove(event: Event, when: nat)

  /** The recipients, seen from the queue: the operations they perform on it, given everything it has
      dispatched so far, the event being handled last. */
  type Handler = seq<Dispatch> -> seq<Op>

  /** Recipients only touch cycles after the one being processed. */
  ghost predicate FutureOnly(h: Handler) {
    forall t: seq<Dispatch>, i: nat | t != [] && i < |h(t)| ::
      t[|t| - 1].cycle < h(t)[i].when <= MAX_CYCLE
  }

  /** An entry of a queue's journal: an event was inserted, was removed again, or was dispatched. */
  datatype Note = Came(event: Event, cycle: nat) | Left(event: Event, cycle: nat) | Gone(event: Event, cycle: nat)

  /** `trace` and `journal` record what has happened; no operation reads the journal. */
  datatype Queue = Queue(
    pending: map<nat, seq<Event>>,
    next: nat,
    last: nat,
    now: nat,
    trace: seq<Dispatch>,
    journal: seq<Note>)

  const EMPTY: Queue := Queue(map[], MAX_CYCLE, 0, 0, [], [])

  function ListAt(m: map<nat, seq<Event>>, c: nat): (r: seq<Event>) {
    if c in m then m[c] else []
  }

  /** `n` is the least pending cycle, or the largest cycle number when nothing is pending. */
  ghost predicate IsNext(m: map<nat, seq<Event>>, n: nat) {
    if m == map[] then n == MAX_CYCLE else n in m && forall c :: c in m ==> n <= c
  }

  ghost predicate WellFormed(q: Queue) {
    && (forall c :: c in q.pending ==> q.pending[c] != [] && c <= MAX_CYCLE)
    && IsNext(q.pending, q.next)
  }

  ghost function Least(s: set<nat>): (k: nat)
    requires s != {}
    ensures k in s && forall j :: j in s ==> k <= j
    decreases s
  {
    var x :| x in s;
    if s == {x} then x else
      assert s == (s - {x}) + {x};
      var y := Least(s - {x});
      if x < y then x else y
  }

  ghost function NextOf(m: map<nat, seq<Event>>): (n: nat)
    ensures IsNext(m, n)
  {
    if m == map[] then MAX_CYCLE else
      assert m.Keys != {};
      Least(m.Keys)
  }

  // ----- insertion and removal -----

  /** Where an event inserted with `priority` goes: before the first event stored with a larger one. */
  function PlaceIndex(list: seq<Event>, priority: int): (k: nat)
    ensures k <= |list|
    ensures forall i :: 0 <= i < k ==> list[i].priority <= priority
    ensures k < |list| ==> list[k].priority > priority
  {
    if list == [] || list[0].priority > priority then 0 else 1 + PlaceIndex(list[1..], priority)
  }

  function Place(list: seq<Event>, e: Event, priority: int): (r: seq<Event>) {
    var k := PlaceIndex(list, priority);
    list[..k] + [e] + list[k..]
  }

  ghost function Inserted(q: Queue, e: Event, when: nat, priority: int): (r: Queue) {
    q.(pending := q.pending[when := Place(ListAt(q.pending, when), e, priority)],
       next := if when < q.next then when else q.next,
       journal := q.journal + [Came(e, when)])
  }

  function IndexOf(list: seq<Event>, e: Event): (k: nat)
    ensures k <= |list|
    ensures e !in list[..k]
    ensures k < |list| ==> list[k] == e
  {
    if list == [] || list[0] == e then 0 else
      var k := 1 + IndexOf(list[1..], e);
      assert list[..k] == [list[0]] + list[1..][..k - 1];
      k
  }

  function Erase(list: seq<Event>, e: Event): (r: seq<Event>) {
    var k := IndexOf(list, e);
    if k == |list| then list else list[..k] + list[k + 1..]
  }

  function WithList(m: map<nat, seq<Event>>, c: nat, list: seq<Event>): (r: map<nat, seq<Event>>) {
    if list == [] then m - {c} else m[c := list]
  }

  ghost function Removed(q: Queue, e: Event, when: nat): (r: Queue) {
    if when !in q.pending then q else
      var list := q.pending[when];
      var pending := WithList(q.pending, when, Erase(list, e));
      q.(pending := pending,
         next := NextOf(pending),
         journal := q.journal + if e in list then [Left(e, when)] else [])
  }

  ghost function Apply(q: Queue, op: Op): (r: Queue) {
    match op
    case Insert(e, when, priority) => Inserted(q, e, when, priority)
    case Remove(e, when) => Removed(q, e, when)
  }

  ghost function ApplyAll(q: Queue, ops: seq<Op>): (r: Queue)
    decreases |ops|
  {
    if ops == [] then q else ApplyAll(Apply(q, ops[0]), ops[1..])
  }

  // ----- processing one cycle -----

  /** Only these kinds of events reach their recipient. */
  predicate Handled(kind: EventType) {
    kind == EventCycle || kind == EventResponse || kind == EventCallback
  }

  function Record(q: Queue, e: Event): (r: Queue) {
    q.(trace := q.trace + [Dispatch(e, q.next, Sub64(q.next, q.last))], journal := q.journal + [Gone(e, q.next)])
  }

  function Reaction(h: Handler, e: Event, trace: seq<Dispatch>): (r: seq<Op>) {
    if Handled(e.kind) then h(trace) else []
  }

  ghost function DeliverOne(q: Queue, e: Event, h: Handler): (r: Queue) {
    ApplyAll(Record(q, e), Reaction(h, e, Record(q, e).trace))
  }

  ghost function Deliver(q: Queue, list: seq<Event>, h: Handler): (r: Queue)
    decreases |list|
  {
    if list == [] then q else Deliver(DeliverOne(q, list[0], h), list[1..], h)
  }

  ghost function Finish(q: Queue): (r: Queue) {
    var pending := q.pending - {q.next};
    q.(pending := pending, last := q.next, next := NextOf(pending))
  }

  ghost function Processed(q: Queue, h: Handler): (r: Queue)
    requires q.next in q.pending
  {
    Finish(Deliver(q, q.pending[q.next], h))
  }

  // ----- the two ways of advancing time -----

  /** One cycle of the slow form. */
  ghost function Tick(q: Queue, h: Handler): (r: Queue)
    requires WellFormed(q) && q.now < MAX_CYCLE
  {
    var r := if q.next == q.now then Processed(q, h) else q;
    r.(now := q.now + 1)
  }

  ghost function Ticks(q: Queue, h: Handler, n: nat): (r: Queue)
    requires WellFormed(q) && q.now + n <= MAX_CYCLE && FutureOnly(h)
    ensures WellFormed(r) && r.now == q.now + n
    decreases n
  {
    if n == 0 then q else
      TickValid(q, h);
      Ticks(Tick(q, h), h, n - 1)
  }

  /** The fast form: jump from event to event up to and including cycle `target`. */
  ghost function RunTo(q: Queue, h: Handler, target: nat): (r: Queue)
    requires WellFormed(q) && target < MAX_CYCLE && FutureOnly(h)
    ensures WellFormed(r) && r.now == target && target < r.next
    decreases target + 1 - q.next
  {
    if q.next > target then q.(now := target) else
      var at := q.(now := q.next);
      ProcessedNext(at, h);
      RunTo(Processed(at, h), h, target)
  }

  /** The skip-ahead loop over `n` cycles. Zero cycles means: process what is due now, if anything. */
  ghost function Skip(q: Queue, h: Handler, n: nat): (r: Queue)
    requires WellFormed(q) && q.now + n < MAX_CYCLE && FutureOnly(h)
    ensures WellFormed(r) && r.now == q.now + n && (q.now <= q.next ==> r.now < r.next)
  {
    if n > 0 then RunTo(q, h, q.now + n)
    else if q.next == q.now then
      ProcessedNext(q, h);
      Processed(q, h)
    else q
  }

  // ----- what the operations keep -----

  lemma InsertedValid(q: Queue, e: Event, when: nat, priority: int)
    requires WellFormed(q) && when <= MAX_CYCLE
    ensures WellFormed(Inserted(q, e, when, priority))
  {
  }

  lemma RemovedValid(q: Queue, e: Event, when: nat)
    requires WellFormed(q)
    ensures WellFormed(Removed(q, e, when))
  {
  }

  lemma ApplyValid(q: Queue, op: Op)
    requires WellFormed(q) && op.when <= MAX_CYCLE
    ensures WellFormed(Apply(q, op))
  {
  }

  lemma NextUnique(m: map<nat, seq<Event>>, a: nat, b: nat)
    requires IsNext(m, a) && IsNext(m, b)
    ensures a == b
  {
  }

  /** An operation on a later cycle leaves the cycle being processed alone. */
  lemma ApplyFrame(q: Queue, op: Op)
    requires WellFormed(q) && q.next in q.pending && q.next < op.when <= MAX_CYCLE
    ensures Untouched(q, Apply(q, op))
  {
    match op {
      case Insert(e, when, priority) => InsertedValid(q, e, when, priority);
      case Remove(e, when) =>
        RemovedValid(q, e, when);
        if when in q.pending {
          var r := Removed(q, e, when);
          assert q.next in r.pending;
          assert forall c :: c in r.pending ==> c in q.pending;
          NextUnique(r.pending, r.next, q.next);
        }
    }
  }

  ghost predicate Untouched(q: Queue, r: Queue) {
    && WellFormed(r) && r.next == q.next
    && ListAt(r.pending, q.next) == ListAt(q.pending, q.next)
    && (r.next in r.pending <==> q.next in q.pending)
    && r.last == q.last && r.now == q.now && r.trace == q.trace
  }

  lemma ApplyAllFrame(q: Queue, ops: seq<Op>)
    requires WellFormed(q) && q.next in q.pending
    requires forall i :: 0 <= i < |ops| ==> q.next < ops[i].when <= MAX_CYCLE
    ensures Untouched(q, ApplyAll(q, ops))
    decreases |ops|
  {
    if ops != [] {
      ApplyFrame(q, ops[0]);
      forall i | 0 <= i < |ops[1..]| ensures q.next < ops[1..][i].when <= MAX_CYCLE {
        assert ops[1..][i] == ops[i + 1];
      }
      ApplyAllFrame(Apply(q, ops[0]), ops[1..]);
    }
  }

  lemma DeliverOneFrame(q: Queue, e: Event, h: Handler)
    requires WellFormed(q) && q.next in q.pending && FutureOnly(h)
    ensures Untouched(Record(q, e), DeliverOne(q, e, h))
  {
    ApplyAllFrame(Record(q, e), Reaction(h, e, Record(q, e).trace));
  }

  ghost function Records(q: Queue, list: seq<Event>): (r: seq<Dispatch>) {
    seq(|list|, i requires 0 <= i < |list| => Dispatch(list[i], q.next, Sub64(q.next, q.last)))
  }

  lemma {:induction false} DeliverFrame(q: Queue, list: seq<Event>, h: Handler)
    requires WellFormed(q) && q.next in q.pending && FutureOnly(h)
    ensures Untouched(q.(trace := q.trace + Records(q, list)), Deliver(q, list, h))
    decreases |list|
  {
    if list == [] {
      assert q.trace + Records(q, list) == q.trace;
    } else {
      var r := DeliverOne(q, list[0], h);
      DeliverOneFrame(q, list[0], h);
      DeliverFrame(r, list[1..], h);
      assert q.trace + Records(q, list) == r.trace + Records(r, list[1..]);
    }
  }

  /** Processing hands over exactly the events of the earliest cycle, in list order, each stamped with
      that cycle, and makes the earliest pending cycle strictly later. */
  lemma ProcessedNext(q: Queue, h: Handler)
    requires WellFormed(q) && q.next in q.pending && FutureOnly(h)
    ensures var r := Processed(q, h);
      && WellFormed(r) && r.last == q.next && r.now == q.now
      && (q.next < MAX_CYCLE ==> q.next < r.next)
      && r.trace == q.trace + Records(q, q.pending[q.next]) && q.trace < r.trace
  {
    DeliverFrame(q, q.pending[q.next], h);
  }

  /** Only cycles, responses and callbacks reach their recipients; other events are dropped. */
  lemma OnlyThreeKinds(q: Queue, e: Event, h: Handler)
    ensures e.kind in {EventUnknown, EventIdle, EventRequest} ==> DeliverOne(q, e, h) == Record(q, e)
    ensures e.kind in {EventCycle, EventResponse, EventCallback} ==>
      DeliverOne(q, e, h) == ApplyAll(Record(q, e), h(Record(q, e).trace))
  {
  }

  /** The cycle of the last dispatch, or 0. */
  function LastCycle(t: seq<Dispatch>): (c: nat) {
    if t == [] then 0 else t[|t| - 1].cycle
  }

  /** All events of a batch are told how many cycles have gone by since the batch before. */
  lemma ProcessedElapsed(q: Queue, h: Handler, k: nat)
    requires WellFormed(q) && q.next in q.pending && FutureOnly(h)
    requires q.last == LastCycle(q.trace) <= q.next
    requires |q.trace| <= k < |Processed(q, h).trace|
    ensures Processed(q, h).trace[k].elapsed == q.next - LastCycle(q.trace)
    ensures Processed(q, h).last == LastCycle(Processed(q, h).trace)
  {
    ProcessedNext(q, h);
  }

  lemma TickValid(q: Queue, h: Handler)
    requires WellFormed(q) && q.now < MAX_CYCLE && FutureOnly(h)
    ensures WellFormed(Tick(q, h)) && Tick(q, h).now == q.now + 1
    ensures q.now <= q.next ==> q.now + 1 <= Tick(q, h).next
  {
    if q.next == q.now {
      ProcessedNext(q, h);
    }
  }

  // ----- skip-ahead refines ticking -----

  /** The current cycle on entry does not matter to the fast form. */
  lemma RunToIgnoresNow(q: Queue, h: Handler, target: nat, now: nat)
    requires WellFormed(q) && target < MAX_CYCLE && FutureOnly(h)
    ensures RunTo(q.(now := now), h, target) == RunTo(q, h, target)
  {
  }

  lemma RunToStep(q: Queue, h: Handler, target: nat)
    requires WellFormed(q) && q.next <= target < MAX_CYCLE && FutureOnly(h)
    ensures var r := Processed(q.(now := q.next), h);
      WellFormed(r) && q.next < r.next && r.now == q.next && RunTo(r, h, target) == RunTo(q, h, target)
  {
    ProcessedNext(q.(now := q.next), h);
  }

  lemma RunToDone(q: Queue, h: Handler, target: nat)
    requires WellFormed(q) && target < q.next && target < MAX_CYCLE && FutureOnly(h)
    ensures RunTo(q, h, target) == q.(now := target)
  {
  }

  lemma {:induction false} RunToSplits(q: Queue, h: Handler, a: nat, b: nat)
    requires WellFormed(q) && a <= b < MAX_CYCLE && FutureOnly(h)
    ensures RunTo(RunTo(q, h, a), h, b) == RunTo(q, h, b)
    decreases a + 1 - q.next
  {
    if q.next > a {
      RunToIgnoresNow(q, h, b, a);
    } else {
      var at := q.(now := q.next);
      ProcessedNext(at, h);
      RunToSplits(Processed(at, h), h, a, b);
    }
  }

  lemma ProcessDue(q: Queue, h: Handler)
    requires WellFormed(q) && FutureOnly(h) && q.next == q.now < MAX_CYCLE
    ensures RunTo(q, h, q.now) == Processed(q, h)
  {
    ProcessedNext(q, h);
    assert q == q.(now := q.next);
  }

  lemma TickIsRunTo(q: Queue, h: Handler)
    requires WellFormed(q) && FutureOnly(h) && q.now <= q.next && q.now < MAX_CYCLE
    ensures Tick(q, h) == RunTo(q, h, q.now).(now := q.now + 1)
  {
    if q.next == q.now { ProcessDue(q, h); }
  }

  /** Reaching cycle `target` by jumping equals ticking through every cycle up to it. */
  lemma {:induction false} RunToIsTicks(q: Queue, h: Handler, target: nat)
    requires WellFormed(q) && FutureOnly(h) && q.now <= q.next && q.now <= target < MAX_CYCLE
    ensures Ticks(q, h, target - q.now + 1) == RunTo(q, h, target).(now := target + 1)
    decreases target - q.now
  {
    TickValid(q, h);
    TickIsRunTo(q, h);
    if q.now == target {
      assert Ticks(Tick(q, h), h, 0) == Tick(q, h);
    } else {
      var r := RunTo(q, h, q.now);
      RunToSplits(q, h, q.now, target);
      RunToIgnoresNow(r, h, target, q.now + 1);
      RunToIsTicks(Tick(q, h), h, target);
    }
  }

  lemma SkipReaches(q: Queue, h: Handler, n: nat, target: nat)
    requires WellFormed(q) && FutureOnly(h) && q.now + n == target < MAX_CYCLE
    requires n > 0 || q.now == q.next
    ensures Skip(q, h, n) == RunTo(q, h, target)
  {
  }

  /** Skipping `n` cycles dispatches what `n + 1` single cycles dispatch, and leaves the same queue,
      one cycle behind. */
  lemma SkipRefinesTicks(q: Queue, h: Handler, n: nat)
    requires WellFormed(q) && FutureOnly(h) && q.now <= q.next && q.now + n < MAX_CYCLE
    ensures Ticks(q, h, n + 1) == Skip(q, h, n).(now := q.now + n + 1)
  {
    RunToIsTicks(q, h, q.now + n);
    if n == 0 && q.now < q.next {
      RunToDone(q, h, q.now);
    } else {
      SkipReaches(q, h, n, q.now + n);
    }
  }

  lemma SkipNone(q: Queue, h: Handler)
    requires WellFormed(q) && FutureOnly(h) && q.now < MAX_CYCLE && q.now < q.next
    ensures Skip(q, h, 0) == q
  {
  }

  lemma SkipTwice(q: Queue, h: Handler, a: nat, b: nat, mid: nat, end: nat)
    requires WellFormed(q) && FutureOnly(h) && q.now + a == mid && mid + b == end < MAX_CYCLE
    requires b > 0 && (a > 0 || q.now == q.next)
    ensures Skip(Skip(q, h, a), h, b) == RunTo(q, h, end)
  {
    var r := RunTo(q, h, mid);
    SkipReaches(q, h, a, mid);
    SkipReaches(r, h, b, end);
    RunToSplits(q, h, mid, end);
  }

  /** Splitting a skip changes nothing, whatever the two lengths. */
  lemma SkipSplits(q: Queue, h: Handler, a: nat, b: nat)
    requires WellFormed(q) && FutureOnly(h) && q.now <= q.next && q.now + a + b < MAX_CYCLE
    ensures Skip(Skip(q, h, a), h, b) == Skip(q, h, a + b)
  {
    if b == 0 {
      SkipNone(Skip(q, h, a), h);
    } else if a == 0 && q.now < q.next {
      SkipNone(q, h);
    } else {
      SkipTwice(q, h, a, b, q.now + a, q.now + a + b);
      SkipReaches(q, h, a + b, q.now + a + b);
    }
  }

  lemma {:induction false} TicksStall(q: Queue, h: Handler, n: nat)
    requires WellFormed(q) && FutureOnly(h) && q.next < q.now && q.now + n <= MAX_CYCLE
    ensures Ticks(q, h, n) == q.(now := q.now + n)
    decreases n
  {
    if n > 0 { TicksStall(Tick(q, h), h, n - 1); }
  }

  lemma {:induction false} RunToExtends(q: Queue, h: Handler, target: nat)
    requires WellFormed(q) && target < MAX_CYCLE && FutureOnly(h)
    ensures q.trace <= RunTo(q, h, target).trace
    ensures q.next <= target ==> q.trace < RunTo(q, h, target).trace
    decreases target + 1 - q.next
  {
    if q.next <= target {
      var at := q.(now := q.next);
      ProcessedNext(at, h);
      RunToExtends(Processed(at, h), h, target);
    }
  }

  /** The two forms agree exactly when nothing is pending in the past: a late event blocks ticking for
      good, while the skip-ahead loop turns the clock back and dispatches it. */
  lemma AgreeIffNothingLate(q: Queue, h: Handler, n: nat)
    requires WellFormed(q) && FutureOnly(h) && 0 < n && q.now + n < MAX_CYCLE
    ensures Ticks(q, h, n + 1).trace == Skip(q, h, n).trace <==> q.now <= q.next
  {
    if q.now <= q.next {
      SkipRefinesTicks(q, h, n);
    } else {
      TicksStall(q, h, n + 1);
      RunToExtends(q, h, q.now + n);
    }
  }

  /** That is reachable: skip to cycle 5 with nothing pending, then insert at cycle 2. Skipping on dispatches
      the event, ticking never does. */
  lemma LateQueue(h: Handler, e: Event, n: nat) returns (q: Queue)
    requires FutureOnly(h) && 0 < n && 5 + n < MAX_CYCLE
    ensures q == Inserted(Skip(EMPTY, h, 5), e, 2, 0) && WellFormed(q) && q.now == 5 && q.next == 2
    ensures Ticks(q, h, n + 1).trace == [] && Skip(q, h, n).trace != []
  {
    RunToDone(EMPTY, h, 5);
    q := Inserted(Skip(EMPTY, h, 5), e, 2, 0);
    InsertedValid(Skip(EMPTY, h, 5), e, 2, 0);
    TicksStall(q, h, n + 1);
    RunToExtends(q, h, q.now + n);
  }

  // ----- conservation of events -----

  function Dispatched(t: seq<Dispatch>): (r: multiset<(Event, nat)>) {
    if t == [] then multiset{} else Dispatched(t[..|t| - 1]) + multiset{(t[|t| - 1].event, t[|t| - 1].cycle)}
  }

  function Count(list: seq<Event>, e: Event): (r: nat) {
    if list == [] then 0 else (if list[0] == e then 1 else 0) + Count(list[1..], e)
  }

  function Notes(journal: seq<Note>, n: Note): (r: nat) {
    if journal == [] then 0 else Notes(journal[..|journal| - 1], n) + if journal[|journal| - 1] == n then 1 else 0
  }

  lemma NotesAppend(journal: seq<Note>, m: Note, n: Note)
    ensures Notes(journal + [m], n) == Notes(journal, n) + if m == n then 1 else 0
  {
  }

  /** Of the insertions of `e` at cycle `c`, each has been dispatched at that cycle, has been removed, or
      is still pending there. While a cycle is being processed, `owed` of the dispatched ones are still
      in its list. */
  ghost predicate Balanced(q: Queue, e: Event, c: nat, owed: nat) {
    Notes(q.journal, Came(e, c)) + owed ==
      Notes(q.journal, Left(e, c)) + Dispatched(q.trace)[(e, c)] + Count(ListAt(q.pending, c), e)
  }

  ghost predicate Accounted(q: Queue) {
    forall e: Event, c: nat :: Balanced(q, e, c, 0)
  }

  lemma {:induction false} CountConcat(a: seq<Event>, b: seq<Event>, e: Event)
    ensures Count(a + b, e) == Count(a, e) + Count(b, e)
  {
    if a == [] {
      assert a + b == b;
    } else {
      assert (a + b)[1..] == a[1..] + b;
      CountConcat(a[1..], b, e);
    }
  }

  lemma PlaceCounts(list: seq<Event>, f: Event, priority: int, e: Event)
    ensures Count(Place(list, f, priority), e) == Count(list, e) + if e == f then 1 else 0
  {
    var k := PlaceIndex(list, priority);
    assert list == list[..k] + list[k..];
    CountConcat(list[..k], list[k..], e);
    CountConcat(list[..k] + [f], list[k..], e);
    CountConcat(list[..k], [f], e);
  }

  lemma EraseCounts(list: seq<Event>, f: Event, e: Event)
    ensures f in list <==> IndexOf(list, f) < |list|
    ensures Count(Erase(list, f), e) + (if e == f && f in list then 1 else 0) == Count(list, e)
  {
    var k := IndexOf(list, f);
    assert list == list[..k] + list[k..];
    if k < |list| {
      assert list[k..] == [f] + list[k + 1..];
      CountConcat(list[..k], list[k..], e);
      CountConcat(list[..k], list[k + 1..], e);
      CountConcat([f], list[k + 1..], e);
    }
  }

  lemma ApplyBalanced(q: Queue, op: Op, e: Event, c: nat, owed: nat)
    requires Balanced(q, e, c, owed)
    ensures Balanced(Apply(q, op), e, c, owed)
  {
    match op {
      case Insert(f, when, priority) =>
        PlaceCounts(ListAt(q.pending, when), f, priority, e);
        NotesAppend(q.journal, Came(f, when), Came(e, c));
        NotesAppend(q.journal, Came(f, when), Left(e, c));
      case Remove(f, when) =>
        NotesAppend(q.journal, Left(f, when), Came(e, c));
        NotesAppend(q.journal, Left(f, when), Left(e, c));
        assert q.journal + [] == q.journal;
        if when in q.pending {
          EraseCounts(q.pending[when], f, e);
          var r := Removed(q, f, when);
          assert ListAt(r.pending, when) == Erase(q.pending[when], f);
          if c != when { assert ListAt(r.pending, c) == ListAt(q.pending, c); }
        }
    }
  }

  lemma ApplyAllBalanced(q: Queue, ops: seq<Op>, e: Event, c: nat, owed: nat)
    requires Balanced(q, e, c, owed)
    ensures Balanced(ApplyAll(q, ops), e, c, owed)
    decreases |ops|
  {
    if ops != [] {
      ApplyBalanced(q, ops[0], e, c, owed);
      ApplyAllBalanced(Apply(q, ops[0]), ops[1..], e, c, owed);
    }
  }

  lemma RecordBalanced(q: Queue, f: Event, e: Event, c: nat, owed: nat)
    requires Balanced(q, e, c, owed)
    ensures Balanced(Record(q, f), e, c, owed + if e == f && c == q.next then 1 else 0)
  {
  }

  lemma DeliverBalanced(q: Queue, list: seq<Event>, h: Handler, e: Event, c: nat, owed: nat)
    requires WellFormed(q) && q.next in q.pending && FutureOnly(h)
    requires Balanced(q, e, c, owed)
    ensures Balanced(Deliver(q, list, h), e, c, owed + if c == q.next then Count(list, e) else 0)
    decreases |list|
  {
    if list != [] {
      var r := Record(q, list[0]);
      var owed' := owed + if e == list[0] && c == q.next then 1 else 0;
      RecordBalanced(q, list[0], e, c, owed);
      ApplyAllBalanced(r, Reaction(h, list[0], r.trace), e, c, owed');
      DeliverOneFrame(q, list[0], h);
      DeliverBalanced(DeliverOne(q, list[0], h), list[1..], h, e, c, owed');
    }
  }

  lemma ProcessedBalanced(q: Queue, h: Handler, e: Event, c: nat)
    requires WellFormed(q) && q.next in q.pending && FutureOnly(h) && Balanced(q, e, c, 0)
    ensures Balanced(Processed(q, h), e, c, 0)
  {
    var list := q.pending[q.next];
    DeliverBalanced(q, list, h, e, c, 0);
    DeliverFrame(q, list, h);
    var d, r := Deliver(q, list, h), Processed(q, h);
    assert c != q.next ==> ListAt(r.pending, c) == ListAt(d.pending, c);
  }

  /** Conservation over any stretch of time: what was inserted equals what was dispatched at its own
      cycle, plus what was removed, plus what is pending. */
  lemma {:induction false} RunToAccounted(q: Queue, h: Handler, target: nat)
    requires WellFormed(q) && target < MAX_CYCLE && FutureOnly(h) && Accounted(q)
    ensures Accounted(RunTo(q, h, target))
    decreases target + 1 - q.next
  {
    if q.next > target {
      forall e: Event, c: nat ensures Balanced(q.(now := target), e, c, 0) {
        assert Balanced(q, e, c, 0);
      }
    } else {
      var at := q.(now := q.next);
      ProcessedNext(at, h);
      forall e: Event, c: nat ensures Balanced(Processed(at, h), e, c, 0) {
        assert Balanced(q, e, c, 0);
        ProcessedBalanced(at, h, e, c);
      }
      RunToAccounted(Processed(at, h), h, target);
    }
  }

  // ----- order within a cycle -----

  ghost predicate Sorted(list: seq<Event>) {
    forall i, j :: 0 <= i < j < |list| ==> list[i].priority <= list[j].priority
  }

  ghost predicate Between(x: int, a: int, b: int) {
    a < x <= b || b < x < a
  }

  lemma PlaceAt(list: seq<Event>, e: Event, priority: int, i: nat)
    requires i < |list|
    ensures var k, r := PlaceIndex(list, priority), Place(list, e, priority);
      |r| == |list| + 1 && r[k] == e && r[if i < k then i else i + 1] == list[i]
  {
  }

  lemma PlaceSortedOnlyIf(list: seq<Event>, e: Event, priority: int, i: nat)
    requires Sorted(list) && Sorted(Place(list, e, priority)) && i < |list|
    ensures !Between(list[i].priority, e.priority, priority)
  {
    var k := PlaceIndex(list, priority);
    PlaceAt(list, e, priority, i);
    if i >= k { assert list[k].priority <= list[i].priority; }
  }

  lemma PlaceSortedIf(list: seq<Event>, e: Event, priority: int)
    requires Sorted(list) && forall i :: 0 <= i < |list| ==> !Between(list[i].priority, e.priority, priority)
    ensures Sorted(Place(list, e, priority))
  {
  }

  /** A sorted list stays sorted exactly when no stored priority lies between the inserted event's own
      stored priority and the priority it is inserted with. */
  lemma PlaceSortedIff(list: seq<Event>, e: Event, priority: int)
    requires Sorted(list)
    ensures Sorted(Place(list, e, priority)) <==>
      forall i :: 0 <= i < |list| ==> !Between(list[i].priority, e.priority, priority)
  {
    if Sorted(Place(list, e, priority)) {
      forall i | 0 <= i < |list| ensures !Between(list[i].priority, e.priority, priority) {
        PlaceSortedOnlyIf(list, e, priority, i);
      }
    } else if forall i :: 0 <= i < |list| ==> !Between(list[i].priority, e.priority, priority) {
      PlaceSortedIf(list, e, priority);
    }
  }

  /** An event built by the `InsertEvent` overloads stores priority zero, whatever it is inserted with. Its
      list stays sorted exactly when no pending priority lies between the two. */
  lemma ZeroSortedIff(list: seq<Event>, e: Event, priority: int)
    requires Sorted(list) && e.priority == 0
    ensures Sorted(Place(list, e, priority)) <==>
      forall i :: 0 <= i < |list| ==> !(0 < list[i].priority <= priority) && !(priority < list[i].priority < 0)
  {
    PlaceSortedIff(list, e, priority);
  }

  /** The memory controller runs into this: a wakeup of the transaction queues, inserted with priority 30
      between a refresh at 20 and the command queues at 40, is stored with priority 0. */
  lemma WakeupUnsorts(refresh: Event, wakeup: Event, commands: Event)
    requires refresh.priority == 20 && wakeup.priority == 0 && commands.priority == 40
    ensures Sorted([refresh, commands])
    ensures Place([refresh, commands], wakeup, 30) == [refresh, wakeup, commands]
    ensures !Sorted([refresh, wakeup, commands])
  {
    assert [refresh, commands][1..] == [commands];
    assert PlaceIndex([refresh, commands], 30) == 1;
    var list := [refresh, wakeup, commands];
    assert list[0].priority > list[1].priority;
  }

  /** An event inserted into the very cycle that is being processed, while the event at `k` is handled, is
      still dispatched exactly when nothing handled so far has a larger priority: otherwise it is placed
      behind the position reached, and goes with the cycle's list. */
  lemma SameCycleInsertion(list: seq<Event>, k: nat, e: Event, priority: int)
    requires k < |list|
    ensures var j := PlaceIndex(list, priority);
      var ahead := if j <= k then list[k + 1..] else Place(list, e, priority)[k + 1..];
      Count(ahead, e) == Count(list[k + 1..], e) +
        if forall i :: 0 <= i <= k ==> list[i].priority <= priority then 1 else 0
  {
    var j := PlaceIndex(list, priority);
    if j > k {
      assert Place(list, e, priority)[k + 1..] == list[k + 1..j] + [e] + list[j..];
      assert list[k + 1..] == list[k + 1..j] + list[j..];
      OneMore(list[k + 1..j], list[j..], e);
    }
  }

  lemma OneMore(a: seq<Event>, b: seq<Event>, e: Event)
    ensures Count(a + [e] + b, e) == Count(a + b, e) + 1
  {
    CountConcat(a, b, e);
    CountConcat(a + [e], b, e);
    CountConcat(a, [e], e);
  }

  function Pick(e: Event, p: int): (r: seq<Event>) {
    if e.priority == p then [e] else []
  }

  function OfPriority(list: seq<Event>, p: int): (r: seq<Event>) {
    if list == [] then [] else Pick(list[0], p) + OfPriority(list[1..], p)
  }

  lemma {:induction false} OfPriorityConcat(a: seq<Event>, b: seq<Event>, p: int)
    ensures OfPriority(a + b, p) == OfPriority(a, p) + OfPriority(b, p)
  {
    if a == [] {
      assert a + b == b;
    } else {
      calc {
        OfPriority(a + b, p);
        { assert (a + b)[1..] == a[1..] + b; }
        Pick(a[0], p) + OfPriority(a[1..] + b, p);
        { OfPriorityConcat(a[1..], b, p); }
        Pick(a[0], p) + (OfPriority(a[1..], p) + OfPriority(b, p));
        OfPriority(a, p) + OfPriority(b, p);
      }
    }
  }

  lemma NoneOfPriority(list: seq<Event>, p: int)
    requires forall x :: x in list ==> x.priority != p
    ensures OfPriority(list, p) == []
  {
  }

  lemma PlaceSplits(list: seq<Event>, e: Event, priority: int, p: int)
    ensures var k := PlaceIndex(list, priority);
      && OfPriority(list, p) == OfPriority(list[..k], p) + OfPriority(list[k..], p)
      && OfPriority(Place(list, e, priority), p)
          == OfPriority(list[..k], p) + Pick(e, p) + OfPriority(list[k..], p)
  {
    var k := PlaceIndex(list, priority);
    assert OfPriority([e], p) == Pick(e, p);
    assert list == list[..k] + list[k..];
    OfPriorityConcat(list[..k], list[k..], p);
    OfPriorityConcat(list[..k] + [e], list[k..], p);
    OfPriorityConcat(list[..k], [e], p);
  }

  lemma BehindEqualPriority(list: seq<Event>, p: int)
    requires Sorted(list)
    ensures OfPriority(list[PlaceIndex(list, p)..], p) == []
  {
    var k := PlaceIndex(list, p);
    forall x | x in list[k..] ensures x.priority != p {
      var i :| 0 <= i < |list[k..]| && list[k..][i] == x;
      assert list[k..][i] == list[k + i] && list[k].priority <= list[k + i].priority;
    }
    NoneOfPriority(list[k..], p);
  }

  /** Inserted with its own stored priority, an event goes behind all pending events of that priority. */
  lemma PlaceFifo(list: seq<Event>, e: Event, p: int)
    requires Sorted(list)
    ensures OfPriority(Place(list, e, e.priority), p) == OfPriority(list, p) + Pick(e, p)
  {
    PlaceSplits(list, e, e.priority, p);
    BehindEqualPriority(list, e.priority);
  }

  /** What every operation of a run keeps when stored priorities are the ones used for insertion. */
  ghost predicate AllSorted(q: Queue) {
    forall c :: c in q.pending ==> Sorted(q.pending[c])
  }

  ghost predicate Matching(h: Handler) {
    forall t: seq<Dispatch>, i: nat | i < |h(t)| && h(t)[i].Insert? :: h(t)[i].priority == h(t)[i].event.priority
  }

  lemma ApplySorted(q: Queue, op: Op)
    requires AllSorted(q) && (op.Insert? ==> op.priority == op.event.priority)
    ensures AllSorted(Apply(q, op))
  {
    match op {
      case Insert(e, when, priority) =>
        PlaceSortedIff(ListAt(q.pending, when), e, priority);
      case Remove(e, when) =>
        if when in q.pending {
          var k := IndexOf(q.pending[when], e);
          assert Sorted(Erase(q.pending[when], e));
        }
    }
  }

  lemma ApplyAllSorted(q: Queue, ops: seq<Op>)
    requires AllSorted(q)
    requires forall i :: 0 <= i < |ops| && ops[i].Insert? ==> ops[i].priority == ops[i].event.priority
    ensures AllSorted(ApplyAll(q, ops))
    decreases |ops|
  {
    if ops != [] {
      ApplySorted(q, ops[0]);
      ApplyAllSorted(Apply(q, ops[0]), ops[1..]);
    }
  }

  lemma DeliverSorted(q: Queue, list: seq<Event>, h: Handler)
    requires AllSorted(q) && Matching(h)
    ensures AllSorted(Deliver(q, list, h))
    decreases |list|
  {
    if list != [] {
      var r := Record(q, list[0]);
      var ops := Reaction(h, list[0], r.trace);
      ApplyAllSorted(r, ops);
      DeliverSorted(DeliverOne(q, list[0], h), list[1..], h);
    }
  }

  lemma {:induction false} RunToSorted(q: Queue, h: Handler, target: nat)
    requires WellFormed(q) && target < MAX_CYCLE && FutureOnly(h) && Matching(h) && AllSorted(q)
    ensures AllSorted(RunTo(q, h, target))
    decreases target + 1 - q.next
  {
    if q.next <= target {
      var at := q.(now := q.next);
      ProcessedNext(at, h);
      DeliverSorted(at, at.pending[at.next], h);
      RunToSorted(Processed(at, h), h, target);
    }
  }

  // ----- whole runs -----

  /** What the rest of the simulator does to a queue: insert, remove, skip ahead, run one cycle. */
  datatype Step = External(op: Op) | Advance(steps: nat) | TickOnce

  ghost predicate Possible(q: Queue, s: Step) {
    match s
    case External(op) => op.when <= MAX_CYCLE
    case Advance(n) => q.now + n < MAX_CYCLE
    case TickOnce => q.now < MAX_CYCLE
  }

  ghost function Take(q: Queue, h: Handler, s: Step): (r: Queue)
    requires WellFormed(q) && FutureOnly(h) && Possible(q, s)
    ensures WellFormed(r)
  {
    match s
    case External(op) => (ApplyValid(q, op); Apply(q, op))
    case Advance(n) => Skip(q, h, n)
    case TickOnce => (TickValid(q, h); Tick(q, h))
  }

  /** The queues met while performing `steps`, one after each step. */
  ghost predicate IsRun(q: Queue, h: Handler, steps: seq<Step>, states: seq<Queue>)
    requires FutureOnly(h)
  {
    && |states| == |steps| + 1 && states[0] == q
    && forall i :: 0 <= i < |steps| ==>
         WellFormed(states[i]) && Possible(states[i], steps[i]) && states[i + 1] == Take(states[i], h, steps[i])
  }

  lemma TakeAccounted(q: Queue, h: Handler, s: Step)
    requires WellFormed(q) && FutureOnly(h) && Possible(q, s) && Accounted(q)
    ensures Accounted(Take(q, h, s))
  {
    match s {
      case External(op) =>
        forall e: Event, c: nat ensures Balanced(Apply(q, op), e, c, 0) {
          assert Balanced(q, e, c, 0);
          ApplyBalanced(q, op, e, c, 0);
        }
      case Advance(n) =>
        if n > 0 {
          RunToAccounted(q, h, q.now + n);
        } else if q.next == q.now {
          ProcessDue(q, h);
          RunToAccounted(q, h, q.now);
        }
      case TickOnce =>
        forall e: Event, c: nat ensures Balanced(Tick(q, h), e, c, 0) {
          assert Balanced(q, e, c, 0);
          if q.next == q.now { ProcessedBalanced(q, h, e, c); }
        }
    }
  }

  lemma TakeSorted(q: Queue, h: Handler, s: Step)
    requires WellFormed(q) && FutureOnly(h) && Possible(q, s) && Matching(h) && AllSorted(q)
    requires s.External? && s.op.Insert? ==> s.op.priority == s.op.event.priority
    ensures AllSorted(Take(q, h, s))
  {
    match s {
      case External(op) => ApplySorted(q, op);
      case Advance(n) =>
        if n > 0 {
          RunToSorted(q, h, q.now + n);
        } else if q.next == q.now {
          ProcessDue(q, h);
          RunToSorted(q, h, q.now);
        }
      case TickOnce => if q.next == q.now { DeliverSorted(q, q.pending[q.next], h); }
    }
  }

  lemma {:induction false} RunToLast(q: Queue, h: Handler, target: nat)
    requires WellFormed(q) && target < MAX_CYCLE && FutureOnly(h) && q.last == LastCycle(q.trace)
    ensures var r := RunTo(q, h, target); r.last == LastCycle(r.trace)
    decreases target + 1 - q.next
  {
    if q.next <= target {
      var at := q.(now := q.next);
      ProcessedNext(at, h);
      RunToLast(Processed(at, h), h, target);
    }
  }

  lemma SkipLast(q: Queue, h: Handler, n: nat)
    requires WellFormed(q) && q.now + n < MAX_CYCLE && FutureOnly(h) && q.last == LastCycle(q.trace)
    ensures Skip(q, h, n).last == LastCycle(Skip(q, h, n).trace)
  {
    if n > 0 {
      RunToLast(q, h, q.now + n);
    } else if q.next == q.now {
      ProcessedNext(q, h);
    }
  }

  lemma TickLast(q: Queue, h: Handler)
    requires WellFormed(q) && q.now < MAX_CYCLE && FutureOnly(h) && q.last == LastCycle(q.trace)
    ensures Tick(q, h).last == LastCycle(Tick(q, h).trace)
  {
    if q.next == q.now { ProcessedNext(q, h); }
  }

  /** In every run the cycle of the last batch, from which the next one counts, is that of the last dispatch. */
  lemma {:induction false} RunLast(h: Handler, steps: seq<Step>, states: seq<Queue>, k: nat)
    requires FutureOnly(h) && IsRun(EMPTY, h, steps, states) && k <= |steps|
    ensures states[k].last == LastCycle(states[k].trace)
  {
    if k > 0 {
      RunLast(h, steps, states, k - 1);
      match steps[k - 1] {
        case External(_) =>
        case Advance(n) => SkipLast(states[k - 1], h, n);
        case TickOnce => TickLast(states[k - 1], h);
      }
    }
  }

  /** In every state of every run the cached cycle is the least pending one, no event is lost or handed
      over twice, and, if priorities are inserted as stored, every list is in priority order. */
  lemma {:induction false} RunIntegrity(h: Handler, steps: seq<Step>, states: seq<Queue>, k: nat)
    requires FutureOnly(h) && IsRun(EMPTY, h, steps, states) && k <= |steps|
    ensures WellFormed(states[k]) && Accounted(states[k])
    ensures Matching(h) && (forall i :: 0 <= i < k && steps[i].External? && steps[i].op.Insert? ==>
                              steps[i].op.priority == steps[i].op.event.priority)
      ==> AllSorted(states[k])
  {
    if k == 0 {
      forall e: Event, c: nat ensures Balanced(EMPTY, e, c, 0) {}
    } else {
      RunIntegrity(h, steps, states, k - 1);
      TakeAccounted(states[k - 1], h, steps[k - 1]);
      if Matching(h) && forall i :: 0 <= i < k && steps[i].External? && steps[i].op.Insert? ==>
                          steps[i].op.priority == steps[i].op.event.priority {
        TakeSorted(states[k - 1], h, steps[k - 1]);
      }
    }
  }

  // ----- the queue as an object -----

  /** Stepping by the wrapped distance to `next` lands on `next` and keeps the end of the skip fixed,
      even when `next` lies behind. */
  lemma WrappedStep(cur: nat, next: nat, steps: nat)
    requires cur + steps <= MAX_CYCLE && next <= cur + steps
    ensures Add64(cur, Sub64(next, cur)) == next
    ensures Sub64(steps, Sub64(next, cur)) == cur + steps - next
  {
    var m := MAX_CYCLE + 1;
    if next < cur {
      assert Sub64(next, cur) == next - cur + m;
      assert (next + m) % m == next;
      assert (steps - (next - cur) - m) % m == steps + cur - next;
    }
  }

  class EventQueue {
    var eventMap: map<nat, seq<Event>>
    var nextEventCycle: nat
    var lastEventCycle: nat
    var currentCycle: nat
    var trace: seq<Dispatch>
    const handler: Handler
    ghost var journal: seq<Note>

    ghost function State(): (r: Queue)
      reads this
    {
      Queue(eventMap, nextEventCycle, lastEventCycle, currentCycle, trace, journal)
    }

    ghost predicate Valid()
      reads this
    {
      WellFormed(State()) && FutureOnly(handler)
    }

    constructor (handler: Handler)
      requires FutureOnly(handler)
      ensures Valid() && State() == EMPTY && this.handler == handler && Accounted(State())
    {
      this.handler := handler;
      eventMap, nextEventCycle, lastEventCycle, currentCycle := map[], MAX_CYCLE, 0, 0;
      trace, journal := [], [];
    }

    /** The least key of the map. */
    method FirstCycle() returns (c: nat)
      requires eventMap != map[]
      ensures IsNext(eventMap, c)
    {
      var keys := eventMap.Keys;
      assert keys != {};
      c :| c in keys;
      keys := keys - {c};
      while keys != {}
        invariant keys <= eventMap.Keys && c in eventMap
        invariant forall k :: k in eventMap ==> k in keys || c <= k
        decreases keys
      {
        var k :| k in keys;
        if k < c { c := k; }
        keys := keys - {k};
      }
    }

    method InsertEvent(event: Event, when: nat, priority: int)
      requires Valid() && when <= MAX_CYCLE
      modifies this
      ensures Valid() && State() == Inserted(old(State()), event, when, priority)
    {
      InsertedValid(State(), event, when, priority);
      if when < nextEventCycle {
        nextEventCycle := when;
      }
      if when !in eventMap {
        assert Place([], event, priority) == [event];
        eventMap := eventMap[when := [event]];
      } else {
        var list := eventMap[when];
        var i := 0;
        while i < |list| && list[i].priority <= priority
          invariant i <= PlaceIndex(list, priority)
        {
          i := i + 1;
        }
        assert i == PlaceIndex(list, priority);
        eventMap := eventMap[when := list[..i] + [event] + list[i..]];
      }
      journal := journal + [Came(event, when)];
    }

    /** A new event for a request. The priority it is inserted with is not stored in it. */
    method InsertRequest(id: nat, kind: EventType, recipient: nat, request: nat, when: nat, data: nat, priority: int)
      requires Valid() && when <= MAX_CYCLE
      modifies this
      ensures Valid()
      ensures State() == Inserted(old(State()), Event(id, kind, recipient, request, data, 0, 0), when, priority)
    {
      InsertEvent(Event(id, kind, recipient, request, data, 0, 0), when, priority);
    }

    /** Callbacks carry the priority they are inserted with, so they never disturb a sorted list. */
    method InsertCallback(id: nat, recipient: nat, callback: nat, when: nat, data: nat, priority: int)
      requires Valid() && when <= MAX_CYCLE
      modifies this
      ensures Valid()
      ensures var event := Event(id, EventCallback, recipient, 0, data, callback, priority);
        State() == Inserted(old(State()), event, when, priority)
      ensures old(AllSorted(State())) ==> AllSorted(State())
    {
      var event := Event(id, EventCallback, recipient, 0, data, callback, priority);
      if AllSorted(State()) {
        ApplySorted(State(), Insert(event, when, priority));
      }
      InsertEvent(event, when, priority);
    }

    method RemoveEvent(event: Event, when: nat) returns (found: bool)
      requires Valid()
      modifies this
      ensures Valid() && State() == Removed(old(State()), event, when)
      ensures found <==> event in ListAt(old(eventMap), when)
    {
      RemovedValid(State(), event, when);
      found := false;
      if when in eventMap {
        var list := eventMap[when];
        var i := 0;
        while i < |list| && list[i] != event
          invariant i <= IndexOf(list, event)
        {
          i := i + 1;
        }
        assert i == IndexOf(list, event);
        EraseCounts(list, event, event);
        if i < |list| {
          list := list[..i] + list[i + 1..];
          found := true;
          journal := journal + [Left(event, when)];
          eventMap := eventMap[when := list];
          if list == [] {
            eventMap := eventMap - {when};
          }
        }
        assert eventMap == WithList(old(eventMap), when, Erase(old(eventMap)[when], event));
        if eventMap == map[] {
          nextEventCycle := MAX_CYCLE;
        } else {
          nextEventCycle := FirstCycle();
        }
        NextUnique(eventMap, nextEventCycle, NextOf(eventMap));
        assert old(journal) + [] == old(journal);
      }
    }

    /** The last event at `when` of the given type, recipient and request. */
    method FindEvent(kind: EventType, recipient: nat, request: nat, when: nat) returns (i: int)
      ensures var list := ListAt(eventMap, when);
        && -1 <= i < |list|
        && (0 <= i ==> list[i].kind == kind && list[i].recipient == recipient && list[i].request == request)
        && (forall j :: i < j < |list| ==>
              !(list[j].kind == kind && list[j].recipient == recipient && list[j].request == request))
    {
      i := -1;
      if when in eventMap {
        var list := eventMap[when];
        for k := 0 to |list|
          invariant -1 <= i < k
          invariant 0 <= i ==> list[i].kind == kind && list[i].recipient == recipient && list[i].request == request
          invariant forall j :: i < j < k ==>
            !(list[j].kind == kind && list[j].recipient == recipient && list[j].request == request)
        {
          if list[k].kind == kind && list[k].recipient == recipient && list[k].request == request {
            i := k;
          }
        }
      }
    }

    method ApplyOps(ops: seq<Op>)
      requires Valid()
      requires forall i :: 0 <= i < |ops| ==> ops[i].when <= MAX_CYCLE
      modifies this
      ensures Valid() && State() == ApplyAll(old(State()), ops)
    {
      var j := 0;
      while j < |ops|
        invariant j <= |ops| && Valid()
        invariant ApplyAll(State(), ops[j..]) == ApplyAll(old(State()), ops)
      {
        assert ops[j..][0] == ops[j] && ops[j..][1..] == ops[j + 1..];
        match ops[j] {
          case Insert(e, when, priority) => InsertEvent(e, when, priority);
          case Remove(e, when) => var _ := RemoveEvent(e, when);
        }
        j := j + 1;
      }
    }

    /** Hands one event of the cycle being processed to its recipient. */
    method DispatchEvent(event: Event)
      requires Valid() && nextEventCycle in eventMap
      modifies this
      ensures Valid() && State() == DeliverOne(old(State()), event, handler)
      ensures Untouched(Record(old(State()), event), State())
    {
      DeliverOneFrame(State(), event, handler);
      trace := trace + [Dispatch(event, nextEventCycle, Sub64(nextEventCycle, lastEventCycle))];
      journal := journal + [Gone(event, nextEventCycle)];
      var ops := if Handled(event.kind) then handler(trace) else [];
      assert State() == Record(old(State()), event);
      ApplyOps(ops);
    }

    /** Dispatches the events of the earliest cycle and finds the next one. */
    method Process()
      requires Valid() && nextEventCycle in eventMap
      modifies this
      ensures Valid() && State() == Processed(old(State()), handler)
    {
      ghost var list := eventMap[nextEventCycle];
      var i := 0;
      while i < |eventMap[nextEventCycle]|
        invariant Valid() && nextEventCycle in eventMap && eventMap[nextEventCycle] == list
        invariant i <= |list|
        invariant Deliver(State(), list[i..], handler) == Deliver(old(State()), list, handler)
        decreases |list| - i
      {
        assert list[i..][0] == list[i] && list[i..][1..] == list[i + 1..];
        DispatchEvent(eventMap[nextEventCycle][i]);
        i := i + 1;
      }
      assert list[i..] == [];
      EndCycle();
    }

    method EndCycle()
      requires Valid()
      modifies this
      ensures Valid() && State() == Finish(old(State()))
    {
      eventMap := eventMap - {nextEventCycle};
      lastEventCycle := nextEventCycle;
      if eventMap == map[] {
        nextEventCycle := MAX_CYCLE;
      } else {
        nextEventCycle := FirstCycle();
      }
      NextUnique(eventMap, nextEventCycle, NextOf(eventMap));
    }

    /** One cycle. */
    method Loop()
      requires Valid() && currentCycle < MAX_CYCLE
      modifies this
      ensures Valid() && State() == Tick(old(State()), handler)
    {
      TickValid(State(), handler);
      if nextEventCycle == currentCycle {
        ProcessedNext(State(), handler);
        Process();
      }
      currentCycle := currentCycle + 1;
      assert State() == Tick(old(State()), handler);
    }

    /** Skips ahead. */
    method LoopSteps(steps: nat)
      requires Valid() && currentCycle + steps < MAX_CYCLE
      modifies this
      ensures Valid() && State() == Skip(old(State()), handler, steps)
    {
      if steps == 0 && nextEventCycle == currentCycle {
        Process();
        assert State() == Skip(old(State()), handler, 0);
        return;
      }
      if steps > 0 {
        SkipAhead(steps, currentCycle + steps, RunTo(State(), handler, currentCycle + steps));
      }
    }

    method SkipAhead(steps: nat, ghost target: nat, ghost goal: Queue)
      requires Valid() && currentCycle + steps == target < MAX_CYCLE && steps > 0
      requires Heading(target, goal)
      modifies this
      ensures Valid() && State() == goal
    {
      var stepCycles := steps;
      while stepCycles > 0
        invariant Valid() && currentCycle + stepCycles == target
        invariant Heading(target, goal)
        invariant stepCycles == 0 ==> target < nextEventCycle
        decreases target + 1 - nextEventCycle, stepCycles
      {
        var idle := NothingWithin(stepCycles);
        if idle {
          Coast(stepCycles, target, goal);
          break;
        }
        stepCycles := Jump(stepCycles, target, goal);
      }
      Arrive(target, goal);
    }

    method NothingWithin(stepCycles: nat) returns (idle: bool)
      requires currentCycle + stepCycles < MAX_CYCLE
      ensures idle == (nextEventCycle > currentCycle + stepCycles)
    {
      idle := nextEventCycle > Add64(currentCycle, stepCycles);
    }

    /** No event within the remaining cycles: just move the clock. */
    method Coast(stepCycles: nat, ghost target: nat, ghost goal: Queue)
      requires Valid() && currentCycle + stepCycles == target < MAX_CYCLE && target < nextEventCycle
      requires Heading(target, goal)
      modifies this`currentCycle
      ensures Valid() && Heading(target, goal) && currentCycle == target
    {
      RunToIgnoresNow(State(), handler, target, target);
      currentCycle := currentCycle + stepCycles;
      assert State() == old(State()).(now := target);
    }

    lemma Arrive(target: nat, goal: Queue)
      requires Valid() && currentCycle == target < MAX_CYCLE && target < nextEventCycle
      requires Heading(target, goal)
      ensures State() == goal
    {
      RunToDone(State(), handler, target);
      assert State() == State().(now := target);
    }

    ghost predicate Heading(target: nat, goal: Queue)
      requires Valid() && target < MAX_CYCLE
      reads this
    {
      RunTo(State(), handler, target) == goal
    }

    /** One round of the skip: moves to the next event, even a late one, and processes its cycle. */
    method Jump(stepCycles: nat, ghost target: nat, ghost goal: Queue) returns (rest: nat)
      requires Valid() && nextEventCycle <= currentCycle + stepCycles == target < MAX_CYCLE
      requires Heading(target, goal)
      modifies this
      ensures Valid() && old(nextEventCycle) < nextEventCycle
      ensures currentCycle == old(nextEventCycle) && currentCycle + rest == target
      ensures Heading(target, goal) && (rest == 0 ==> target < nextEventCycle)
    {
      WrappedStep(currentCycle, nextEventCycle, stepCycles);
      var currentSteps := Sub64(nextEventCycle, currentCycle);
      currentCycle := Add64(currentCycle, currentSteps);
      rest := Sub64(stepCycles, currentSteps);
      RunToStep(old(State()), handler, target);
      assert State() == old(State()).(now := old(nextEventCycle));
      Process();
    }
  }
}
