/** Pausing and cancelling a write in progress so that a more urgent command can go first. */
module WritePausing {
  import opened Arithmetic
  import opened SubArrayTiming

  /** A write is paused if more than `num / den` of it is done, and cancelled otherwise; after
      `maxCancellations` cancellations it must be let through. In the `optimal` mode it resumes exactly
      where it stopped, otherwise at the start of the interrupted iteration. */
  datatype Policy = Policy(enabled: bool, optimal: bool, num: nat, den: nat, maxCancellations: nat)

  ghost predicate ProperPolicy(pol: Policy) {
    pol.num < pol.den
  }

  /** What a write request remembers: its flags, the cycles it still needs, its cancellations so far. */
  datatype Info = Info(paused: bool, cancelled: bool, forced: bool, progress: nat, cancellations: nat)

  const NEW: Info := Info(false, false, false, 0, 0)

  /** The write in progress: its request, its first and last cycle, when it reports back, the starts of its
      programming iterations in ascending order, and the registers just before it. */
  datatype Writing = Writing(
    active: bool, request: nat, start: nat, end: nat, eventTime: nat, starts: seq<nat>, saved: Registers)

  /** The report of a write request: it is complete, or it comes back to be tried again. */
  datatype Report = Report(request: nat, at: nat)

  /** `interruptions` counts, per request; `lastIssue` is the cycle of the last command, if any. */
  datatype Memory = Memory(
    device: Device, writing: Writing, infos: map<nat, Info>, reports: seq<Report>,
    lastIssue: int, interruptions: map<nat, nat>)

  /** A command as the controller sends it. For a write, `id` is the request and `extra` the latency added
      by the encoder and the endurance model. */
  datatype Request = Request(command: Command, id: nat, priority: bool, extra: nat, starts: seq<nat>)

  function InfoOf(m: Memory, id: nat): (r: Info) {
    if id in m.infos then m.infos[id] else NEW
  }

  function Interrupts(pol: Policy, m: Memory, c: Command): (r: bool) {
    pol.enabled && m.writing.active && (c.Activate? || c.Read?)
  }

  predicate Accepted(p: Params, pol: Policy, m: Memory, q: Request) {
    && Issuable(p, m.device.regs, m.device.now, q.command)
    && (Interrupts(pol, m, q.command) ==>
          !InfoOf(m, m.writing.request).forced && (q.command.Activate? ==> q.priority))
  }

  // ----- interrupting -----

  /** The last iteration start that is not in the future. */
  function IterationStart(starts: seq<nat>, now: nat, start: nat): (r: nat) {
    if starts == [] || starts[0] > now then start else IterationStart(starts[1..], now, starts[0])
  }

  /** The cycles an interrupted write will still need. The subtraction wraps around. */
  function Remaining(pol: Policy, w: Writing, now: nat): (r: nat) {
    Sub64(w.end, if pol.optimal then now else IterationStart(w.starts, now, w.start))
  }

  /** Whether the part done, `1 - remaining / (end - start)`, exceeds the threshold. */
  predicate Pauses(pol: Policy, w: Writing, now: nat)
    requires ProperPolicy(pol) && w.start <= w.end
  {
    Remaining(pol, w, now) * pol.den < (pol.den - pol.num) * (w.end - w.start)
  }

  function InterruptedInfo(pol: Policy, i: Info, w: Writing, now: nat): (r: Info)
    requires ProperPolicy(pol) && w.start <= w.end
  {
    var remaining := Remaining(pol, w, now);
    if Pauses(pol, w, now) then
      i.(progress := remaining, paused := i.paused || remaining != w.end)
    else
      i.(progress := remaining, cancelled := true, cancellations := i.cancellations + 1,
         forced := i.forced || i.cancellations + 1 >= pol.maxCancellations)
  }

  function Restored(r: Registers, saved: Registers): (result: Registers) {
    r.(nextActivate := saved.nextActivate, nextPrecharge := saved.nextPrecharge, nextRead := saved.nextRead,
       nextWrite := saved.nextWrite, nextPowerDown := saved.nextPowerDown)
  }

  function Without(reports: seq<Report>, r: Report): (result: seq<Report>) {
    if reports == [] then [] else if reports[0] == r then reports[1..] else [reports[0]] + Without(reports[1..], r)
  }

  function Count(m: Memory, id: nat): (r: nat) {
    if id in m.interruptions then m.interruptions[id] else 0
  }

  function Interrupted(pol: Policy, m: Memory): (r: Memory)
    requires ProperPolicy(pol) && m.writing.start <= m.writing.end
  {
    var w, now := m.writing, m.device.now;
    m.(infos := m.infos[w.request := InterruptedInfo(pol, InfoOf(m, w.request), w, now)],
       reports := Without(m.reports, Report(w.request, w.eventTime)) + [Report(w.request, now + 1)],
       device := m.device.(regs := Restored(m.device.regs, w.saved)),
       interruptions := m.interruptions[w.request := Count(m, w.request) + 1])
  }

  // ----- starting -----

  /** A paused write only needs what is left of it. */
  function WriteTime(i: Info, q: Request): (r: nat)
    requires q.command.Write?
  {
    if i.paused then i.progress else q.command.latency
  }

  function StartWrite(p: Params, m: Memory, q: Request): (r: Memory)
    requires Sane(p) && WellFormed(q.command) && q.command.Write?
    requires Issuable(p, m.device.regs, m.device.now, q.command)
  {
    var i, now := InfoOf(m, q.id), m.device.now;
    var time := WriteTime(i, q);
    var total := time + q.extra;
    var eventTime := now + p.tCWD + Bursts(p, q.command.bursts) + total;
    m.(device := SubArrayTiming.Take(p, m.device, Issue(Write(q.command.row, q.command.auto, q.command.bursts, total))),
       writing := Writing(true, q.id, now, now + total, eventTime, q.starts, m.device.regs),
       infos := m.infos[q.id := i.(paused := false, cancelled := false, progress := time)],
       reports := m.reports + [Report(q.id, eventTime)],
       lastIssue := now)
  }

  // ----- runs -----

  datatype Action =
    | Send(request: Request)
    | Complete(i: nat)
    | Inform(i: nat)
    | Wait

  /** Reports and completions that are due come before commands, and there is one command per cycle. A
      write is sent when it is new or has come back. */
  predicate Allowed(p: Params, pol: Policy, m: Memory, a: Action) {
    var now := m.device.now;
    match a
    case Send(q) =>
      && WellFormed(q.command) && Accepted(p, pol, m, q) && m.lastIssue < now
      && (forall i :: 0 <= i < |m.reports| ==> m.reports[i].at > now)
      && (q.command.Write? ==>
            && (q.id in m.infos ==> m.infos[q.id].paused || m.infos[q.id].cancelled)
            && (forall i :: 0 <= i < |m.reports| ==> m.reports[i].request != q.id))
    case Complete(i) => Enabled(p, m.device, Deliver(i))
    case Inform(i) => i < |m.reports| && m.reports[i].at == now
    case Wait => Enabled(p, m.device, Tick) && forall i :: 0 <= i < |m.reports| ==> m.reports[i].at > now
  }

  ghost function Sent(p: Params, pol: Policy, m: Memory, q: Request): (r: Memory)
    requires Sane(p) && ProperPolicy(pol) && WellFormed(q.command) && Accepted(p, pol, m, q)
    requires m.writing.start <= m.writing.end && NotAhead(m)
  {
    if q.command.Write? then StartWrite(p, m, q)
    else
      var n := if Interrupts(pol, m, q.command) then Interrupted(pol, m) else m;
      n.(device := SubArrayTiming.Take(p, n.device, Issue(q.command)), lastIssue := m.device.now)
  }

  /** The registers before the last write are not ahead of the present ones, so a command that was
      issuable stays so when they are restored. */
  ghost predicate NotAhead(m: Memory) {
    var s, r := m.writing.saved, m.device.regs;
    s.nextActivate <= r.nextActivate && s.nextRead <= r.nextRead && s.nextWrite <= r.nextWrite
  }

  ghost function Next(p: Params, pol: Policy, m: Memory, a: Action): (r: Memory)
    requires Sane(p) && ProperPolicy(pol) && Allowed(p, pol, m, a)
    requires m.writing.start <= m.writing.end && NotAhead(m)
  {
    match a
    case Send(q) => Sent(p, pol, m, q)
    case Complete(i) => m.(device := SubArrayTiming.Take(p, m.device, Deliver(i)))
    case Inform(i) =>
      m.(reports := m.reports[..i] + m.reports[i + 1..],
         writing := if m.writing.request == m.reports[i].request then m.writing.(active := false) else m.writing)
    case Wait => m.(device := SubArrayTiming.Take(p, m.device, Tick))
  }

  // ----- what a run keeps -----

  /** A write that has been interrupted reports back in the very next cycle. */
  ghost predicate ReportsBack(m: Memory) {
    var w := m.writing;
    w.active && w.request in m.infos && (m.infos[w.request].paused || m.infos[w.request].cancelled) ==>
      m.device.now <= m.lastIssue + 1
      && exists i :: 0 <= i < |m.reports| && m.reports[i].request == w.request && m.reports[i].at == m.lastIssue + 1
  }

  function Limit(pol: Policy): (r: nat) {
    Max(1, pol.maxCancellations)
  }

  /** Cancellations never exceed their limit, and at the limit the write is forced through. */
  ghost predicate Limited(pol: Policy, i: Info) {
    !(i.paused && i.cancelled) && i.cancellations <= Limit(pol) && (i.cancellations == Limit(pol) ==> i.forced)
  }

  ghost predicate Ok(pol: Policy, m: Memory) {
    var w := m.writing;
    && w.start <= w.end && NotAhead(m) && ReportsBack(m)
    && (w.active ==> w.request in m.infos)
    && (w.active && !m.infos[w.request].paused && !m.infos[w.request].cancelled ==>
          m.infos[w.request].progress <= w.end - w.start)
    && (forall id :: id in m.infos ==> Limited(pol, m.infos[id]))
    && m.lastIssue <= m.device.now
  }

  lemma FreshWhenInterrupted(p: Params, pol: Policy, m: Memory, q: Request)
    requires Ok(pol, m) && Allowed(p, pol, m, Send(q)) && m.writing.active
    ensures !m.infos[m.writing.request].paused && !m.infos[m.writing.request].cancelled
  {
  }

  /** A write is only paused when its remaining time shrinks, and then it is always marked as paused. */
  lemma PauseShrinks(pol: Policy, i: Info, w: Writing, now: nat)
    requires ProperPolicy(pol) && w.start <= w.end && Pauses(pol, w, now)
    ensures Remaining(pol, w, now) < w.end - w.start
    ensures InterruptedInfo(pol, i, w, now) == i.(progress := Remaining(pol, w, now), paused := true)
  {
    var rem, total := Remaining(pol, w, now), w.end - w.start;
    if rem >= total {
      Scale(total, rem, pol.den);
      Scale(pol.den - pol.num, pol.den, total);
    }
  }

  lemma WithoutKeeps(reports: seq<Report>, r: Report, k: nat)
    requires k < |reports| && reports[k] != r
    ensures reports[k] in Without(reports, r)
  {
    if reports[0] != r && k > 0 {
      WithoutKeeps(reports[1..], r, k - 1);
    }
  }

  lemma InterruptedOk(p: Params, pol: Policy, m: Memory, q: Request)
    requires Sane(p) && ProperPolicy(pol) && Ok(pol, m) && Allowed(p, pol, m, Send(q)) && Interrupts(pol, m, q.command)
    ensures var n := Interrupted(pol, m);
      && NotAhead(n) && Issuable(p, n.device.regs, n.device.now, q.command)
      && (forall id :: id in n.infos ==> Limited(pol, n.infos[id]))
      && n.reports != [] && n.reports[|n.reports| - 1] == Report(m.writing.request, m.device.now + 1)
      && n.writing == m.writing && n.writing.request in n.infos
      && (n.infos[n.writing.request].paused || n.infos[n.writing.request].cancelled)
  {
    var w, i := m.writing, m.infos[m.writing.request];
    FreshWhenInterrupted(p, pol, m, q);
    if Pauses(pol, w, m.device.now) { PauseShrinks(pol, i, w, m.device.now); }
  }

  lemma AcceptRaises(p: Params, r: Registers, now: nat, c: Command)
    requires Sane(p) && WellFormed(c)
    ensures var s := Accept(p, r, now, c);
      r.nextActivate <= s.nextActivate && r.nextRead <= s.nextRead && r.nextWrite <= s.nextWrite
  {
  }

  lemma StartOk(p: Params, pol: Policy, m: Memory, q: Request)
    requires Sane(p) && ProperPolicy(pol) && Ok(pol, m) && Allowed(p, pol, m, Send(q)) && q.command.Write?
    ensures Ok(pol, StartWrite(p, m, q))
  {
    var t := WriteTime(InfoOf(m, q.id), q);
    AcceptRaises(p, m.device.regs, m.device.now, Write(q.command.row, q.command.auto, q.command.bursts, t + q.extra));
  }

  lemma SentOk(p: Params, pol: Policy, m: Memory, q: Request)
    requires Sane(p) && ProperPolicy(pol) && Ok(pol, m) && Allowed(p, pol, m, Send(q))
    ensures Ok(pol, Sent(p, pol, m, q))
  {
    if q.command.Write? {
      StartOk(p, pol, m, q);
    } else if Interrupts(pol, m, q.command) {
      InterruptedOk(p, pol, m, q);
      AcceptRaises(p, Interrupted(pol, m).device.regs, m.device.now, q.command);
      var n := Sent(p, pol, m, q);
      assert n.reports[|n.reports| - 1].request == n.writing.request;
    } else {
      AcceptRaises(p, m.device.regs, m.device.now, q.command);
      if m.writing.active { FreshWhenInterrupted(p, pol, m, q); }
    }
  }

  lemma NextOk(p: Params, pol: Policy, m: Memory, a: Action)
    requires Sane(p) && ProperPolicy(pol) && Ok(pol, m) && Allowed(p, pol, m, a)
    ensures Ok(pol, Next(p, pol, m, a))
  {
    match a {
      case Send(q) => SentOk(p, pol, m, q);
      case Complete(i) =>
      case Inform(i) => InformOk(p, pol, m, i);
      case Wait =>
    }
  }

  lemma InformOk(p: Params, pol: Policy, m: Memory, i: nat)
    requires Sane(p) && ProperPolicy(pol) && Ok(pol, m) && Allowed(p, pol, m, Inform(i))
    ensures Ok(pol, Next(p, pol, m, Inform(i)))
  {
    var n, w := Next(p, pol, m, Inform(i)), m.writing;
    if n.writing.active && (m.infos[w.request].paused || m.infos[w.request].cancelled) {
      var k :| 0 <= k < |m.reports| && m.reports[k].request == w.request && m.reports[k].at == m.lastIssue + 1;
      assert n.reports[if k < i then k else k - 1] == m.reports[k];
    }
  }

  // ----- every write is interrupted finitely often -----

  /** The most cycles a write can still need: all of them if it has to start over. */
  ghost function Need(m: Memory, id: nat, full: nat): (r: nat) {
    if id !in m.infos || m.infos[id].cancelled then full else m.infos[id].progress
  }

  /** How many interruptions of a request are still possible. */
  ghost function Left(pol: Policy, m: Memory, id: nat, full: nat): (r: int) {
    Rounds(Limit(pol) - InfoOf(m, id).cancellations, full) + Need(m, id, full)
  }

  /** `n` times `full + 1`. */
  ghost function Rounds(n: int, full: nat): (r: nat)
    decreases if n < 0 then 0 else n
  {
    if n <= 0 then 0 else full + 1 + Rounds(n - 1, full)
  }

  lemma {:induction false} RoundsIsProduct(n: nat, full: nat)
    ensures Rounds(n, full) == n * (full + 1)
  {
    if n > 0 {
      RoundsIsProduct(n - 1, full);
      Increment(n - 1, full + 1);
    }
  }

  ghost predicate Budgeted(pol: Policy, m: Memory, full: nat) {
    && (forall id :: Need(m, id, full) <= full)
    && (forall id :: Count(m, id) + Left(pol, m, id, full) <= Rounds(Limit(pol), full) + full)
    && (m.writing.active && m.writing.request in m.infos
        && !m.infos[m.writing.request].paused && !m.infos[m.writing.request].cancelled ==>
          m.infos[m.writing.request].progress == m.writing.end - m.writing.start)
  }

  /** No write takes longer than `full` cycles, and `extra` cycles are added to each. */
  predicate Adds(a: Action, full: nat, extra: nat) {
    a.Send? && a.request.command.Write? ==> a.request.command.latency <= full && a.request.extra == extra
  }

  lemma InterruptedBudget(p: Params, pol: Policy, m: Memory, q: Request, full: nat)
    requires Sane(p) && ProperPolicy(pol) && Ok(pol, m) && Allowed(p, pol, m, Send(q)) && Interrupts(pol, m, q.command)
    requires Budgeted(pol, m, full)
    ensures Budgeted(pol, Interrupted(pol, m), full)
  {
    var n, w := Interrupted(pol, m), m.writing;
    var i := m.infos[w.request];
    FreshWhenInterrupted(p, pol, m, q);
    InterruptedOk(p, pol, m, q);
    if Pauses(pol, w, m.device.now) {
      PauseShrinks(pol, i, w, m.device.now);
    }
    assert Count(n, w.request) + Left(pol, n, w.request, full) <= Count(m, w.request) + Left(pol, m, w.request, full);
    forall id
      ensures Need(n, id, full) <= full && Count(n, id) + Left(pol, n, id, full) <= Rounds(Limit(pol), full) + full
    {
      if id != w.request {
        assert Need(n, id, full) == Need(m, id, full) && Count(n, id) == Count(m, id);
      }
    }
  }

  lemma StartBudget(p: Params, pol: Policy, m: Memory, q: Request, full: nat)
    requires Sane(p) && ProperPolicy(pol) && Ok(pol, m) && Allowed(p, pol, m, Send(q)) && q.command.Write?
    requires Budgeted(pol, m, full) && Adds(Send(q), full, 0)
    ensures Budgeted(pol, Sent(p, pol, m, q), full)
  {
    var n := Sent(p, pol, m, q);
    assert Need(n, q.id, full) == WriteTime(InfoOf(m, q.id), q);
    assert Need(n, q.id, full) <= Need(m, q.id, full);
    forall id
      ensures Need(n, id, full) <= full && Count(n, id) + Left(pol, n, id, full) <= Rounds(Limit(pol), full) + full
    {
      assert Need(m, id, full) <= full;
      assert Count(m, id) + Left(pol, m, id, full) <= Rounds(Limit(pol), full) + full;
    }
  }

  lemma NextBudget(p: Params, pol: Policy, m: Memory, a: Action, full: nat)
    requires Sane(p) && ProperPolicy(pol) && Ok(pol, m) && Allowed(p, pol, m, a)
    requires Budgeted(pol, m, full) && Adds(a, full, 0)
    ensures Budgeted(pol, Next(p, pol, m, a), full)
  {
    if a.Send? && a.request.command.Write? {
      StartBudget(p, pol, m, a.request, full);
    } else {
      var base := m;
      if a.Send? && Interrupts(pol, m, a.request.command) {
        InterruptedBudget(p, pol, m, a.request, full);
        base := Interrupted(pol, m);
      }
      SameBudget(pol, base, Next(p, pol, m, a), full);
    }
  }

  lemma SameBudget(pol: Policy, m: Memory, n: Memory, full: nat)
    requires Budgeted(pol, m, full) && n.infos == m.infos && n.interruptions == m.interruptions
    requires n.writing == m.writing || n.writing == m.writing.(active := false)
    ensures Budgeted(pol, n, full)
  {
    forall id
      ensures Need(n, id, full) <= full && Count(n, id) + Left(pol, n, id, full) <= Rounds(Limit(pol), full) + full
    {
      assert Need(n, id, full) == Need(m, id, full) && Count(n, id) == Count(m, id);
    }
  }

  predicate StartingPoint(m: Memory) {
    m.infos == map[] && m.interruptions == map[] && m.reports == [] && m.lastIssue == -1
    && !m.writing.active && m.writing.start <= m.writing.end && m.writing.saved == m.device.regs
  }

  ghost predicate CanAct(p: Params, pol: Policy, m: Memory, actions: seq<Action>)
    requires Sane(p) && ProperPolicy(pol) && Ok(pol, m)
    decreases |actions|
  {
    actions == [] ||
    (Allowed(p, pol, m, actions[0]) &&
     (NextOk(p, pol, m, actions[0]);
      CanAct(p, pol, Next(p, pol, m, actions[0]), actions[1..])))
  }

  ghost function After(p: Params, pol: Policy, m: Memory, actions: seq<Action>): (n: Memory)
    requires Sane(p) && ProperPolicy(pol) && Ok(pol, m) && CanAct(p, pol, m, actions)
    ensures Ok(pol, n)
    decreases |actions|
  {
    if actions == [] then m else
      NextOk(p, pol, m, actions[0]);
      After(p, pol, Next(p, pol, m, actions[0]), actions[1..])
  }

  lemma {:induction false} AfterBudget(p: Params, pol: Policy, m: Memory, actions: seq<Action>, full: nat)
    requires Sane(p) && ProperPolicy(pol) && Ok(pol, m) && CanAct(p, pol, m, actions) && Budgeted(pol, m, full)
    requires forall i :: 0 <= i < |actions| ==> Adds(actions[i], full, 0)
    ensures Budgeted(pol, After(p, pol, m, actions), full)
    decreases |actions|
  {
    if actions != [] {
      NextOk(p, pol, m, actions[0]);
      NextBudget(p, pol, m, actions[0], full);
      assert forall i :: 0 <= i < |actions[1..]| ==> actions[1..][i] == actions[i + 1];
      AfterBudget(p, pol, Next(p, pol, m, actions[0]), actions[1..], full);
    }
  }

  /** However a run goes in which no latency is added to writes, none is cancelled more often than allowed,
      and none is interrupted more than a fixed number of times. */
  lemma FinitelyInterrupted(p: Params, pol: Policy, m: Memory, actions: seq<Action>, full: nat, id: nat)
    requires Sane(p) && ProperPolicy(pol) && Ok(pol, m) && StartingPoint(m) && CanAct(p, pol, m, actions)
    requires forall i :: 0 <= i < |actions| ==> Adds(actions[i], full, 0)
    ensures var n := After(p, pol, m, actions);
      && InfoOf(n, id).cancellations <= Limit(pol)
      && Count(n, id) <= Limit(pol) * (full + 1) + full
  {
    assert Budgeted(pol, m, full) by {
      forall id ensures Count(m, id) + Left(pol, m, id, full) <= Rounds(Limit(pol), full) + full {}
    }
    AfterBudget(p, pol, m, actions, full);
    var n := After(p, pol, m, actions);
    assert Limited(pol, InfoOf(n, id));
    assert Count(n, id) + Left(pol, n, id, full) <= Rounds(Limit(pol), full) + full;
    RoundsIsProduct(Limit(pol), full);
  }

  // ----- one interruption -----

  /** The registers are rolled back to what they were just before the write, and then the interrupting
      command takes effect. */
  lemma InterruptRollsBack(p: Params, pol: Policy, m: Memory, q: Request)
    requires Sane(p) && ProperPolicy(pol) && Ok(pol, m) && Allowed(p, pol, m, Send(q)) && Interrupts(pol, m, q.command)
    ensures Sent(p, pol, m, q).device.regs ==
      Accept(p, Restored(m.device.regs, m.writing.saved), m.device.now, q.command)
    ensures m.writing.request in m.infos && !m.infos[m.writing.request].forced
    ensures q.command.Activate? ==> q.priority
  {
  }
}
