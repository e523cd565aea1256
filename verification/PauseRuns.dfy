/** Runs in which writes are interrupted: when that can happen at all, and how often. */
module PauseRuns {
  import opened Arithmetic
  import opened SubArrayTiming
  import opened WritePausing
  import W = WriteTimes

  // ----- when a write can be interrupted -----

  /** A write is in progress and has not been interrupted. */
  ghost predicate Fresh(m: Memory) {
    var w := m.writing;
    w.active && w.request in m.infos && !m.infos[w.request].paused && !m.infos[w.request].cancelled
  }

  /** Reads are held back until the write is over. */
  ghost predicate ReadsWait(p: Params, m: Memory) {
    Fresh(m) ==> m.writing.end + p.tCWD + p.tBURST <= m.device.regs.nextRead
  }

  /** With precharging on, the row stays open until the write is over. */
  ghost predicate StaysOpen(p: Params, m: Memory) {
    var d := m.device;
    LifeCycle(p, d) &&
    (Fresh(m) ==>
       && m.writing.end <= d.regs.nextPrecharge
       && (forall i :: 0 <= i < |d.pending| ==> m.writing.end <= d.pending[i].at)
       && (d.now < m.writing.end ==> d.regs.state == OPEN))
  }

  lemma NextReadsWait(p: Params, pol: Policy, m: Memory, a: Action)
    requires Sane(p) && ProperPolicy(pol) && Ok(pol, m) && Allowed(p, pol, m, a) && ReadsWait(p, m)
    ensures ReadsWait(p, Next(p, pol, m, a))
  {
    if a.Send? && !a.request.command.Write? {
      var q := a.request;
      if Interrupts(pol, m, q.command) {
        InterruptedOk(p, pol, m, q);
      } else {
        AcceptRaises(p, m.device.regs, m.device.now, q.command);
      }
    }
  }

  lemma NextStaysOpen(p: Params, pol: Policy, m: Memory, a: Action)
    requires Sane(p) && ProperPolicy(pol) && Ok(pol, m) && Allowed(p, pol, m, a)
    requires p.usePrecharge && StaysOpen(p, m) && ReadsWait(p, m)
    ensures StaysOpen(p, Next(p, pol, m, a))
  {
    match a {
      case Send(q) =>
        if q.command.Write? { StartStaysOpen(p, pol, m, q); } else { SentStaysOpen(p, pol, m, q); }
      case Complete(i) => TakeLifeCycle(p, m.device, Deliver(i));
      case Inform(i) =>
      case Wait => TakeLifeCycle(p, m.device, Tick);
    }
  }

  lemma StartStaysOpen(p: Params, pol: Policy, m: Memory, q: Request)
    requires Sane(p) && ProperPolicy(pol) && Ok(pol, m) && Allowed(p, pol, m, Send(q)) && q.command.Write?
    requires p.usePrecharge && StaysOpen(p, m)
    ensures StaysOpen(p, Sent(p, pol, m, q))
  {
    if m.device.pending != [] { BusyRejects(p, m.device, q.command); }
    var total := WriteTime(InfoOf(m, q.id), q) + q.extra;
    TakeLifeCycle(p, m.device, Issue(Write(q.command.row, q.command.auto, q.command.bursts, total)));
  }

  lemma Over(p: Params, m: Memory, c: Command)
    requires Sane(p) && p.usePrecharge && StaysOpen(p, m) && ReadsWait(p, m) && Fresh(m)
    requires Issuable(p, m.device.regs, m.device.now, c) && !c.Write?
    ensures m.writing.end <= m.device.now
  {
  }

  lemma ScheduledLater(p: Params, now: nat, c: Command)
    requires Sane(p) && WellFormed(c)
    ensures forall i :: 0 <= i < |Scheduled(p, now, c)| ==> now <= Scheduled(p, now, c)[i].at
  {
  }

  lemma SentStaysOpen(p: Params, pol: Policy, m: Memory, q: Request)
    requires Sane(p) && ProperPolicy(pol) && Ok(pol, m) && Allowed(p, pol, m, Send(q)) && !q.command.Write?
    requires p.usePrecharge && StaysOpen(p, m) && ReadsWait(p, m)
    ensures StaysOpen(p, Sent(p, pol, m, q))
  {
    if m.device.pending != [] { BusyRejects(p, m.device, q.command); }
    if Interrupts(pol, m, q.command) {
      InterruptedOk(p, pol, m, q);
      TakeLifeCycle(p, Interrupted(pol, m).device, Issue(q.command));
    } else {
      TakeLifeCycle(p, m.device, Issue(q.command));
      if Fresh(m) {
        Over(p, m, q.command);
        ScheduledLater(p, m.device.now, q.command);
        PrechargeRaises(p, m.device.regs, m.device.now, q.command);
      }
    }
  }

  lemma PrechargeRaises(p: Params, r: Registers, now: nat, c: Command)
    requires Sane(p) && WellFormed(c)
    ensures r.nextPrecharge <= Accept(p, r, now, c).nextPrecharge
  {
  }

  lemma {:induction false} RunStaysOpen(p: Params, pol: Policy, m: Memory, actions: seq<Action>)
    requires Sane(p) && ProperPolicy(pol) && Ok(pol, m) && CanAct(p, pol, m, actions)
    requires ReadsWait(p, m) && (p.usePrecharge ==> StaysOpen(p, m))
    ensures var n := After(p, pol, m, actions); ReadsWait(p, n) && (p.usePrecharge ==> StaysOpen(p, n))
    decreases |actions|
  {
    if actions != [] {
      NextOk(p, pol, m, actions[0]);
      NextReadsWait(p, pol, m, actions[0]);
      if p.usePrecharge { NextStaysOpen(p, pol, m, actions[0]); }
      RunStaysOpen(p, pol, Next(p, pol, m, actions[0]), actions[1..]);
    }
  }

  /** In every run, only a priority activation with precharging off interrupts a write before its end. A read
      comes after the end, by the write latency and a burst at least. */
  lemma OnlyActivationsInterrupt(p: Params, pol: Policy, m: Memory, actions: seq<Action>, q: Request)
    requires Sane(p) && ProperPolicy(pol) && Ok(pol, m) && StartingPoint(m) && CanAct(p, pol, m, actions)
    requires p.usePrecharge ==> LifeCycle(p, m.device)
    requires var n := After(p, pol, m, actions); Allowed(p, pol, n, Send(q)) && Interrupts(pol, n, q.command)
    ensures var n := After(p, pol, m, actions);
      && (n.device.now < n.writing.end ==> q.command.Activate? && q.priority && !p.usePrecharge)
      && (q.command.Read? ==> n.writing.end + p.tCWD + p.tBURST <= n.device.now)
  {
    RunStaysOpen(p, pol, m, actions);
    FreshWhenInterrupted(p, pol, After(p, pol, m, actions), q);
  }

  /** The write in progress takes what it needs and the added latency. */
  ghost predicate Spans(m: Memory, extra: nat) {
    Fresh(m) ==> m.writing.start + m.infos[m.writing.request].progress + extra == m.writing.end
  }

  lemma NextSpans(p: Params, pol: Policy, m: Memory, a: Action, full: nat, extra: nat)
    requires Sane(p) && ProperPolicy(pol) && Ok(pol, m) && Allowed(p, pol, m, a)
    requires Adds(a, full, extra) && Spans(m, extra)
    ensures Spans(Next(p, pol, m, a), extra)
  {
    if a.Send? && Interrupts(pol, m, a.request.command) { InterruptedOk(p, pol, m, a.request); }
  }

  lemma {:induction false} RunSpans(p: Params, pol: Policy, m: Memory, actions: seq<Action>, full: nat, extra: nat)
    requires Sane(p) && ProperPolicy(pol) && Ok(pol, m) && CanAct(p, pol, m, actions) && Spans(m, extra)
    requires forall i :: 0 <= i < |actions| ==> Adds(actions[i], full, extra)
    ensures Spans(After(p, pol, m, actions), extra)
    decreases |actions|
  {
    if actions != [] {
      NextOk(p, pol, m, actions[0]);
      NextSpans(p, pol, m, actions[0], full, extra);
      assert forall i :: 0 <= i < |actions[1..]| ==> actions[1..][i] == actions[i + 1];
      RunSpans(p, pol, Next(p, pol, m, actions[0]), actions[1..], full, extra);
    }
  }

  lemma GainsIff(pol: Policy, i: Info, w: Writing, now: nat, extra: nat)
    requires ProperPolicy(pol) && w.start + i.progress + extra == w.end <= MAX_UINT64 && Pauses(pol, w, now)
    ensures var point := if pol.optimal then now else IterationStart(w.starts, now, w.start);
      w.start <= point <= w.end ==>
        (InterruptedInfo(pol, i, w, now).progress < i.progress <==> extra < point - w.start)
  {
  }

  /** In every run that adds the same latency to all writes, a pause brings its write forward exactly when
      more of it has run, up to where it will resume, than was added. */
  lemma PauseGainsIff(
    p: Params, pol: Policy, m: Memory, actions: seq<Action>, full: nat, extra: nat, q: Request)
    requires Sane(p) && ProperPolicy(pol) && Ok(pol, m) && StartingPoint(m) && CanAct(p, pol, m, actions)
    requires forall i :: 0 <= i < |actions| ==> Adds(actions[i], full, extra)
    requires var n := After(p, pol, m, actions);
      && Allowed(p, pol, n, Send(q)) && Interrupts(pol, n, q.command)
      && Pauses(pol, n.writing, n.device.now) && n.writing.end <= MAX_UINT64
    ensures var n := After(p, pol, m, actions);
      var w, i := n.writing, InfoOf(n, n.writing.request);
      var point := if pol.optimal then n.device.now else IterationStart(w.starts, n.device.now, w.start);
      w.start <= point <= w.end ==>
        (InterruptedInfo(pol, i, w, n.device.now).progress < i.progress <==> extra < point - w.start)
  {
    var n := After(p, pol, m, actions);
    RunSpans(p, pol, m, actions, full, extra);
    FreshWhenInterrupted(p, pol, n, q);
    GainsIff(pol, n.infos[n.writing.request], n.writing, n.device.now, extra);
  }

  /** In every run, whatever latency is added, no write is cancelled more often than allowed. */
  lemma CancelledWithin(p: Params, pol: Policy, m: Memory, actions: seq<Action>, id: nat)
    requires Sane(p) && ProperPolicy(pol) && Ok(pol, m) && CanAct(p, pol, m, actions)
    ensures InfoOf(After(p, pol, m, actions), id).cancellations <= Limit(pol)
  {
    assert Limited(pol, InfoOf(After(p, pol, m, actions), id));
  }

  // ----- what an interruption does -----

  /** Programming iterations are listed in ascending order, none before the write. */
  ghost predicate InOrder(starts: seq<nat>, begin: nat) {
    W.Ascending(starts) && forall i :: 0 <= i < |starts| ==> begin <= starts[i]
  }

  /** Every write is sent with its iterations in order. */
  ghost predicate StartsFit(p: Params, pol: Policy, m: Memory, actions: seq<Action>)
    requires Sane(p) && ProperPolicy(pol) && Ok(pol, m) && CanAct(p, pol, m, actions)
    decreases |actions|
  {
    actions == [] ||
    ((actions[0].Send? && actions[0].request.command.Write? ==> InOrder(actions[0].request.starts, m.device.now)) &&
     (NextOk(p, pol, m, actions[0]);
      StartsFit(p, pol, Next(p, pol, m, actions[0]), actions[1..])))
  }

  ghost predicate WritingInOrder(m: Memory) {
    m.writing.active ==> InOrder(m.writing.starts, m.writing.start)
  }

  lemma {:induction false} RunInOrder(p: Params, pol: Policy, m: Memory, actions: seq<Action>)
    requires Sane(p) && ProperPolicy(pol) && Ok(pol, m) && CanAct(p, pol, m, actions)
    requires StartsFit(p, pol, m, actions) && WritingInOrder(m)
    ensures WritingInOrder(After(p, pol, m, actions))
    decreases |actions|
  {
    if actions != [] {
      NextOk(p, pol, m, actions[0]);
      RunInOrder(p, pol, Next(p, pol, m, actions[0]), actions[1..]);
    }
  }

  /** Where an interrupted write is to resume: here and now in optimal mode, otherwise at the latest start of an
      iteration, which is the start of the write if none has been reached. */
  ghost predicate ResumesAt(pol: Policy, w: Writing, now: nat, point: nat) {
    if pol.optimal then point == now
    else
      && point <= now && (point == w.start || point in w.starts)
      && forall s :: s in w.starts && s <= now ==> s <= point
  }

  /** In every run: a write interrupted before it is over is paused exactly when the part done at the point
      where it is to resume exceeds the threshold, and needs what is left from there. Otherwise it is cancelled,
      and counted, and the count reaching the limit forces it through. */
  lemma PausedIff(p: Params, pol: Policy, m: Memory, actions: seq<Action>, q: Request, point: nat)
    requires Sane(p) && ProperPolicy(pol) && Ok(pol, m) && StartingPoint(m) && CanAct(p, pol, m, actions)
    requires StartsFit(p, pol, m, actions)
    requires var n := After(p, pol, m, actions);
      && Allowed(p, pol, n, Send(q)) && (q.command.Activate? || q.command.Read?) && pol.enabled && n.writing.active
      && n.writing.start <= n.device.now <= n.writing.end <= MAX_UINT64
      && ResumesAt(pol, n.writing, n.device.now, point)
    ensures var n := After(p, pol, m, actions);
      var w, before, i := n.writing, InfoOf(n, n.writing.request), InfoOf(Next(p, pol, n, Send(q)), n.writing.request);
      && w.start <= point <= w.end
      && if (w.end - point) * pol.den < (pol.den - pol.num) * (w.end - w.start)
         then i == before.(paused := true, progress := w.end - point) && !i.cancelled
         else
           && i.cancelled && !i.paused && i.cancellations == before.cancellations + 1
           && (i.forced <==> i.cancellations >= pol.maxCancellations)
  {
    var n := After(p, pol, m, actions);
    RunInOrder(p, pol, m, actions);
    FreshWhenInterrupted(p, pol, n, q);
    PointIs(pol, n.writing, n.device.now, point);
    InterruptionIs(pol, n.infos[n.writing.request], n.writing, n.device.now, point);
  }

  lemma PointIs(pol: Policy, w: Writing, now: nat, point: nat)
    requires InOrder(w.starts, w.start) && w.start <= now && ResumesAt(pol, w, now, point)
    ensures w.start <= point <= now
    ensures !pol.optimal ==> IterationStart(w.starts, now, w.start) == point
  {
    if !pol.optimal {
      W.ResumePoint(w.starts, now, w.start);
      IterationIs(w.starts, now, w.start);
    }
  }

  lemma {:induction false} IterationIs(starts: seq<nat>, now: nat, start: nat)
    ensures IterationStart(starts, now, start) == start || IterationStart(starts, now, start) in starts
  {
    if starts != [] && starts[0] <= now { IterationIs(starts[1..], now, starts[0]); }
  }

  lemma InterruptionIs(pol: Policy, i: Info, w: Writing, now: nat, point: nat)
    requires ProperPolicy(pol) && w.start <= point <= now <= w.end <= MAX_UINT64
    requires !i.paused && !i.cancelled && !i.forced
    requires point == if pol.optimal then now else IterationStart(w.starts, now, w.start)
    ensures InterruptedInfo(pol, i, w, now) ==
      if (w.end - point) * pol.den < (pol.den - pol.num) * (w.end - w.start)
      then i.(paused := true, progress := w.end - point)
      else i.(cancelled := true, progress := w.end - point, cancellations := i.cancellations + 1,
              forced := i.cancellations + 1 >= pol.maxCancellations)
  {
    assert Remaining(pol, w, now) == w.end - point;
    if Pauses(pol, w, now) { PauseShrinks(pol, i, w, now); }
  }

  /** Nothing writes request `id`. */
  ghost predicate Untouched(actions: seq<Action>, id: nat) {
    forall k :: 0 <= k < |actions| && actions[k].Send? && actions[k].request.command.Write? ==>
      actions[k].request.id != id
  }

  lemma {:induction false} InfoStays(p: Params, pol: Policy, m: Memory, actions: seq<Action>, id: nat)
    requires Sane(p) && ProperPolicy(pol) && Ok(pol, m) && CanAct(p, pol, m, actions) && Untouched(actions, id)
    requires id in m.infos && (m.infos[id].paused || m.infos[id].cancelled)
    ensures id in After(p, pol, m, actions).infos && After(p, pol, m, actions).infos[id] == m.infos[id]
    decreases |actions|
  {
    if actions != [] {
      var a := actions[0];
      NextOk(p, pol, m, a);
      if a.Send? && Interrupts(pol, m, a.request.command) { FreshWhenInterrupted(p, pol, m, a.request); }
      assert forall k :: 0 <= k < |actions[1..]| ==> actions[1..][k] == actions[k + 1];
      InfoStays(p, pol, Next(p, pol, m, a), actions[1..], id);
    }
  }

  /** A write that was interrupted, when it is sent again after whatever else: takes what it still needed if it
      was paused, and all of its time if it was cancelled. */
  lemma SentAgain(p: Params, pol: Policy, m: Memory, actions: seq<Action>, q: Request)
    requires Sane(p) && ProperPolicy(pol) && Ok(pol, m) && CanAct(p, pol, m, actions) && Untouched(actions, q.id)
    requires q.id in m.infos && (m.infos[q.id].paused || m.infos[q.id].cancelled)
    requires q.command.Write? && Allowed(p, pol, After(p, pol, m, actions), Send(q))
    ensures var n := After(p, pol, m, actions);
      var w := Next(p, pol, n, Send(q)).writing;
      && w.active && w.request == q.id && w.start == n.device.now
      && w.end == w.start + (if m.infos[q.id].paused then m.infos[q.id].progress else q.command.latency) + q.extra
  {
    InfoStays(p, pol, m, actions, q.id);
  }

  /** The actions do not send a write. */
  ghost predicate NoWrites(actions: seq<Action>) {
    forall k :: 0 <= k < |actions| && actions[k].Send? ==> !actions[k].request.command.Write?
  }

  lemma {:induction false} SavedStay(p: Params, pol: Policy, m: Memory, actions: seq<Action>)
    requires Sane(p) && ProperPolicy(pol) && Ok(pol, m) && CanAct(p, pol, m, actions) && NoWrites(actions)
    ensures After(p, pol, m, actions).writing.saved == m.writing.saved
    decreases |actions|
  {
    if actions != [] {
      NextOk(p, pol, m, actions[0]);
      assert forall k :: 0 <= k < |actions[1..]| ==> actions[1..][k] == actions[k + 1];
      SavedStay(p, pol, Next(p, pol, m, actions[0]), actions[1..]);
    }
  }

  /** When a write is interrupted, whatever came in between, the interrupting command finds all earliest times as
      they were before the write was sent. */
  lemma RollsBack(p: Params, pol: Policy, m: Memory, write: Request, actions: seq<Action>, q: Request)
    requires Sane(p) && ProperPolicy(pol) && Ok(pol, m) && write.command.Write? && Allowed(p, pol, m, Send(write))
    requires Ok(pol, Next(p, pol, m, Send(write))) && CanAct(p, pol, Next(p, pol, m, Send(write)), actions)
    requires NoWrites(actions)
    requires var n := After(p, pol, Next(p, pol, m, Send(write)), actions);
      && Allowed(p, pol, n, Send(q)) && (q.command.Activate? || q.command.Read?) && pol.enabled && n.writing.active
    ensures var n := After(p, pol, Next(p, pol, m, Send(write)), actions);
      var r, s := n.device.regs, m.device.regs;
      Next(p, pol, n, Send(q)).device.regs == Accept(p,
        Registers(r.state, r.openRow, s.nextActivate, s.nextPrecharge, s.nextRead, s.nextWrite, s.nextPowerDown),
        n.device.now, q.command)
  {
    SavedStay(p, pol, Next(p, pol, m, Send(write)), actions);
  }

  /** A new write takes all of its time; it reports when it has also been on the bus. */
  lemma SentFirst(p: Params, pol: Policy, m: Memory, q: Request)
    requires Sane(p) && ProperPolicy(pol) && Ok(pol, m) && q.command.Write? && Allowed(p, pol, m, Send(q))
    requires q.id !in m.infos
    ensures var n := Next(p, pol, m, Send(q));
      && n.writing.active && n.writing.request == q.id && n.writing.start == m.device.now
      && n.writing.end == n.writing.start + q.command.latency + q.extra
      && Report(q.id, n.writing.end + p.tCWD + Max(p.tBURST, p.tCCD) * q.command.bursts) in n.reports
  {
    BurstsIsProduct(p, q.command.bursts);
    var n := Next(p, pol, m, Send(q));
    assert n.reports[|n.reports| - 1] == Report(q.id, n.writing.eventTime);
  }

  /** With pausing on, a write in progress keeps out the reads and activations that could interrupt it if it is forced,
      and activations without priority; everything else is accepted as if there were none. */
  lemma AcceptedWhileWriting(p: Params, pol: Policy, m: Memory, q: Request)
    requires pol.enabled && m.writing.active && m.writing.request in m.infos
    ensures Accepted(p, pol, m, q) <==>
      && Issuable(p, m.device.regs, m.device.now, q.command)
      && (m.infos[m.writing.request].forced ==> q.command.Write? || q.command.Precharge? || q.command.Refresh?)
      && (q.command.Activate? ==> q.priority)
  {
  }

  // ----- one report per write -----

  ghost predicate Distinct(reports: seq<Report>) {
    forall i, j :: 0 <= i < j < |reports| ==> reports[i].request != reports[j].request
  }

  /** No request has two reports to come, and the write in progress has its own. */
  ghost predicate OneReport(m: Memory) {
    && Distinct(m.reports)
    && (Fresh(m) ==> Report(m.writing.request, m.writing.eventTime) in m.reports)
  }

  lemma {:induction false} WithoutIs(reports: seq<Report>, r: Report)
    requires Distinct(reports) && r in reports
    ensures var rest := Without(reports, r);
      && Distinct(rest)
      && forall x :: x in rest <==> x in reports && x.request != r.request
  {
    if reports[0] != r {
      assert r in reports[1..];
      WithoutIs(reports[1..], r);
      var rest := Without(reports[1..], r);
      assert reports == [reports[0]] + reports[1..];
      assert forall x :: x in rest ==> x in reports[1..];
    } else {
      assert forall x :: x in reports[1..] ==> x.request != r.request;
    }
  }

  lemma NextOneReport(p: Params, pol: Policy, m: Memory, a: Action)
    requires Sane(p) && ProperPolicy(pol) && Ok(pol, m) && Allowed(p, pol, m, a) && OneReport(m)
    ensures OneReport(Next(p, pol, m, a))
  {
    match a {
      case Send(q) =>
        if q.command.Write? { StartOneReport(p, pol, m, q); } else { SentOneReport(p, pol, m, q); }
      case Complete(_) =>
      case Inform(i) => InformedReports(p, pol, m, i);
      case Wait =>
    }
  }

  lemma StartOneReport(p: Params, pol: Policy, m: Memory, q: Request)
    requires Sane(p) && ProperPolicy(pol) && Ok(pol, m) && Allowed(p, pol, m, Send(q)) && OneReport(m)
    requires q.command.Write?
    ensures OneReport(StartWrite(p, m, q))
  {
    var n := StartWrite(p, m, q);
    assert n.reports[|m.reports|] == Report(q.id, n.writing.eventTime);
  }

  lemma SentOneReport(p: Params, pol: Policy, m: Memory, q: Request)
    requires Sane(p) && ProperPolicy(pol) && Ok(pol, m) && Allowed(p, pol, m, Send(q)) && OneReport(m)
    requires !q.command.Write?
    ensures OneReport(Sent(p, pol, m, q))
  {
    if Interrupts(pol, m, q.command) {
      FreshWhenInterrupted(p, pol, m, q);
      InterruptedReports(pol, m);
      InterruptedOk(p, pol, m, q);
    }
  }

  lemma InterruptedReports(pol: Policy, m: Memory)
    requires ProperPolicy(pol) && m.writing.start <= m.writing.end && OneReport(m) && Fresh(m)
    ensures Distinct(Interrupted(pol, m).reports)
    ensures forall x :: x in Interrupted(pol, m).reports && x.request == m.writing.request ==> x.at == m.device.now + 1
  {
    var w := m.writing;
    var rest := Without(m.reports, Report(w.request, w.eventTime));
    WithoutIs(m.reports, Report(w.request, w.eventTime));
    assert forall i :: 0 <= i < |rest| ==> rest[i] in rest;
  }

  lemma InformedReports(p: Params, pol: Policy, m: Memory, i: nat)
    requires Sane(p) && ProperPolicy(pol) && Ok(pol, m) && Allowed(p, pol, m, Inform(i)) && OneReport(m)
    ensures OneReport(Next(p, pol, m, Inform(i)))
  {
    var n, w := Next(p, pol, m, Inform(i)), m.writing;
    if Fresh(n) {
      var k :| 0 <= k < |m.reports| && m.reports[k] == Report(w.request, w.eventTime);
      assert n.reports[if k < i then k else k - 1] == m.reports[k];
    }
  }

  /** A write in progress ends with its own report, and with no other. */
  lemma EndsWithOwnReport(p: Params, pol: Policy, m: Memory, a: Action)
    requires Sane(p) && ProperPolicy(pol) && Ok(pol, m) && Allowed(p, pol, m, a)
    requires m.writing.active && !(a.Send? && a.request.command.Write?)
    ensures var n := Next(p, pol, m, a);
      && n.writing.request == m.writing.request
      && (n.writing.active <==> !(a.Inform? && m.reports[a.i].request == m.writing.request))
  {
  }

  /** In every run, no request is reported on twice: the report of an interrupted write replaces the one that was
      scheduled, and comes in the next cycle. */
  lemma {:induction false} RunOneReport(p: Params, pol: Policy, m: Memory, actions: seq<Action>)
    requires Sane(p) && ProperPolicy(pol) && Ok(pol, m) && CanAct(p, pol, m, actions) && OneReport(m)
    ensures OneReport(After(p, pol, m, actions))
    decreases |actions|
  {
    if actions != [] {
      NextOk(p, pol, m, actions[0]);
      NextOneReport(p, pol, m, actions[0]);
      RunOneReport(p, pol, Next(p, pol, m, actions[0]), actions[1..]);
    }
  }

  // ----- pausing the same write again and again -----

  /** `actions` lead from `m` to `n`, and every write among them takes up to `full` cycles and `extra` more. */
  ghost predicate Leads(
    p: Params, pol: Policy, m: Memory, actions: seq<Action>, n: Memory, full: nat, extra: nat)
    requires Sane(p) && ProperPolicy(pol) && Ok(pol, m)
  {
    && CanAct(p, pol, m, actions) && After(p, pol, m, actions) == n
    && forall i :: 0 <= i < |actions| ==> Adds(actions[i], full, extra)
  }

  lemma {:induction false} LeadsMore(
    p: Params, pol: Policy, m: Memory, actions: seq<Action>, n: Memory, full: nat, extra: nat, a: Action)
    requires Sane(p) && ProperPolicy(pol) && Ok(pol, m) && Ok(pol, n) && Leads(p, pol, m, actions, n, full, extra)
    requires Allowed(p, pol, n, a) && Adds(a, full, extra)
    ensures Ok(pol, Next(p, pol, n, a)) && Leads(p, pol, m, actions + [a], Next(p, pol, n, a), full, extra)
    decreases |actions|
  {
    NextOk(p, pol, n, a);
    if actions == [] {
      assert actions + [a] == [a] && [a][1..] == [];
    } else {
      NextOk(p, pol, m, actions[0]);
      assert (actions + [a])[1..] == actions[1..] + [a];
      LeadsMore(p, pol, Next(p, pol, m, actions[0]), actions[1..], n, full, extra, a);
    }
  }

  /** Nothing is due before `k` cycles have gone by. */
  predicate Calm(m: Memory, k: nat) {
    m.device.pending == [] && forall i :: 0 <= i < |m.reports| ==> m.device.now + k <= m.reports[i].at
  }

  function Later(m: Memory, k: nat): (r: Memory) {
    m.(device := m.device.(now := m.device.now + k))
  }

  lemma {:induction false} LeadsLater(
    p: Params, pol: Policy, m: Memory, actions: seq<Action>, n: Memory, full: nat, extra: nat, k: nat)
    returns (more: seq<Action>)
    requires Sane(p) && ProperPolicy(pol) && Ok(pol, m) && Ok(pol, n) && Leads(p, pol, m, actions, n, full, extra)
    requires Calm(n, k)
    ensures Ok(pol, Later(n, k)) && Leads(p, pol, m, more, Later(n, k), full, extra)
    decreases k
  {
    if k == 0 {
      more := actions;
    } else {
      LeadsMore(p, pol, m, actions, n, full, extra, Wait);
      more := LeadsLater(p, pol, m, actions + [Wait], Later(n, 1), full, extra, k - 1);
    }
  }

  /** The write `id` to the open row `row` waits to be sent: for the first time, or with `time` cycles left
      after `count` pauses. */
  ghost predicate Resting(m: Memory, row: nat, id: nat, time: nat, count: nat) {
    var r := m.device.regs;
    && r.state == OPEN && r.openRow == row && r.nextActivate <= m.device.now && m.device.pending == []
    && m.reports == [] && m.lastIssue < m.device.now && Count(m, id) == count
    && if id in m.infos then m.infos[id] == Info(true, false, false, time, 0) else count == 0
  }

  function WriteOf(row: nat, id: nat, time: nat, extra: nat): (r: Request) {
    Request(Write(row, false, 1, time), id, false, extra, [])
  }

  function Urgent(row: nat): (r: Request) {
    Request(Activate(row), 0, true, 0, [])
  }

  /** The write is in progress since `begin`, and needs `time` cycles and `extra` more. */
  ghost predicate Running(m: Memory, row: nat, id: nat, time: nat, extra: nat, count: nat, begin: nat) {
    var r, w := m.device.regs, m.writing;
    && r.state == OPEN && r.openRow == row && r.nextActivate <= begin <= m.device.now && m.device.pending == []
    && w.active && w.request == id && w.start == begin && w.end == begin + time + extra
    && w.saved.nextActivate <= begin
    && |m.reports| == 1 && m.reports[0] == Report(id, w.eventTime)
    && m.lastIssue == begin && Count(m, id) == count
    && id in m.infos && m.infos[id] == Info(false, false, false, time, 0)
  }

  lemma Sends(p: Params, pol: Policy, m: Memory, row: nat, id: nat, time: nat, extra: nat, count: nat)
    requires Sane(p) && ProperPolicy(pol) && Ok(pol, m) && Resting(m, row, id, time, count)
    requires m.device.regs.nextWrite <= m.device.now
    ensures Allowed(p, pol, m, Send(WriteOf(row, id, time, extra)))
    ensures var n := Next(p, pol, m, Send(WriteOf(row, id, time, extra)));
      && Running(n, row, id, time, extra, count, m.device.now) && n.device.now == m.device.now
      && n.writing.eventTime == n.writing.end + p.tCWD + Bursts(p, 1)
  {
  }

  /** The activation finds a part done that is worth keeping: the write is paused, and what it still needs is
      what was left, with the latency added to it. */
  lemma Interrupting(
    p: Params, pol: Policy, m: Memory, row: nat, id: nat, time: nat, extra: nat, count: nat, begin: nat)
    requires Sane(p) && ProperPolicy(pol) && Ok(pol, m) && Running(m, row, id, time, extra, count, begin)
    requires pol.enabled && pol.optimal && !p.usePrecharge
    requires begin < m.device.now <= m.writing.end && m.device.now < m.writing.eventTime
    requires Pauses(pol, m.writing, m.device.now) && time + extra <= MAX_UINT64
    ensures Allowed(p, pol, m, Send(Urgent(row)))
    ensures var n := Next(p, pol, m, Send(Urgent(row)));
      && n.infos == m.infos[id := Info(true, false, false, m.writing.end - m.device.now, 0)]
      && n.reports == [Report(id, m.device.now + 1)] && n.device.pending == [] && n.device.now == m.device.now
      && n.device.regs.state == OPEN && n.device.regs.openRow == row && n.device.regs.nextActivate <= begin
      && n.lastIssue == m.device.now && Count(n, id) == count + 1
  {
    PauseShrinks(pol, m.infos[id], m.writing, m.device.now);
  }

  /** After `e` of `total` cycles, the part done exceeds the threshold. */
  ghost predicate DoneEnough(pol: Policy, total: nat, e: nat)
    requires ProperPolicy(pol)
  {
    e <= total && (total - e) * pol.den < (pol.den - pol.num) * total
  }

  /** In which settings the following runs happen: writes resume exactly where they stopped, activations are
      not held back by open rows, and a write takes longer on the bus than in its cells. */
  ghost predicate Setting(p: Params, pol: Policy) {
    Sane(p) && ProperPolicy(pol) && pol.enabled && pol.optimal && !p.usePrecharge && p.tCWD + Bursts(p, 1) > 0
  }

  lemma Started(
    p: Params, pol: Policy, m: Memory, actions: seq<Action>, n: Memory, full: nat, extra: nat,
    row: nat, id: nat, time: nat, count: nat) returns (more: seq<Action>, r: Memory)
    requires Setting(p, pol) && Ok(pol, m) && Ok(pol, n) && Leads(p, pol, m, actions, n, full, extra)
    requires Resting(n, row, id, time, count) && time <= full
    ensures Ok(pol, r) && Leads(p, pol, m, more, r, full, extra)
    ensures Running(r, row, id, time, extra, count, r.device.now)
    ensures r.writing.end < r.writing.eventTime
  {
    var k := if n.device.regs.nextWrite > n.device.now then n.device.regs.nextWrite - n.device.now else 0;
    more := LeadsLater(p, pol, m, actions, n, full, extra, k);
    var l := Later(n, k);
    var a := Send(WriteOf(row, id, time, extra));
    Sends(p, pol, l, row, id, time, extra, count);
    LeadsMore(p, pol, m, more, l, full, extra, a);
    more, r := more + [a], Next(p, pol, l, a);
  }

  lemma Reported(
    p: Params, pol: Policy, m: Memory, actions: seq<Action>, n: Memory, full: nat, extra: nat,
    row: nat, id: nat, time: nat, count: nat) returns (more: seq<Action>, r: Memory)
    requires Setting(p, pol) && Ok(pol, m) && Ok(pol, n) && Leads(p, pol, m, actions, n, full, extra)
    requires n.reports == [Report(id, n.device.now + 1)] && n.device.pending == [] && n.lastIssue == n.device.now
    requires n.device.regs.state == OPEN && n.device.regs.openRow == row && n.device.regs.nextActivate <= n.device.now
    requires id in n.infos && n.infos[id] == Info(true, false, false, time, 0) && Count(n, id) == count
    ensures Ok(pol, r) && Leads(p, pol, m, more, r, full, extra) && Resting(r, row, id, time, count)
  {
    more := LeadsLater(p, pol, m, actions, n, full, extra, 1);
    LeadsMore(p, pol, m, more, Later(n, 1), full, extra, Inform(0));
    more, r := more + [Inform(0)], Next(p, pol, Later(n, 1), Inform(0));
  }

  lemma Stopped(
    p: Params, pol: Policy, m: Memory, actions: seq<Action>, n: Memory, full: nat, extra: nat,
    row: nat, id: nat, time: nat, count: nat, e: nat) returns (more: seq<Action>, r: Memory)
    requires Setting(p, pol) && Ok(pol, m) && Ok(pol, n) && Leads(p, pol, m, actions, n, full, extra)
    requires Running(n, row, id, time, extra, count, n.device.now) && n.writing.end < n.writing.eventTime
    requires 0 < e && DoneEnough(pol, time + extra, e) && time + extra <= MAX_UINT64
    ensures Ok(pol, r) && Leads(p, pol, m, more, r, full, extra)
    ensures r.reports == [Report(id, r.device.now + 1)] && r.device.pending == [] && r.lastIssue == r.device.now
    ensures r.device.regs.state == OPEN && r.device.regs.openRow == row && r.device.regs.nextActivate <= r.device.now
    ensures id in r.infos && r.infos[id] == Info(true, false, false, time + extra - e, 0) && Count(r, id) == count + 1
  {
    more := LeadsLater(p, pol, m, actions, n, full, extra, e);
    var l := Later(n, e);
    assert Remaining(pol, l.writing, l.device.now) == time + extra - e;
    Interrupting(p, pol, l, row, id, time, extra, count, n.device.now);
    LeadsMore(p, pol, m, more, l, full, extra, Send(Urgent(row)));
    more, r := more + [Send(Urgent(row))], Next(p, pol, l, Send(Urgent(row)));
  }

  /** A write is sent, runs for `e` cycles, and is paused: it still needs its time and the added latency, less
      what has run. */
  lemma PausedOnce(
    p: Params, pol: Policy, m: Memory, actions: seq<Action>, n: Memory, full: nat, extra: nat,
    row: nat, id: nat, time: nat, count: nat, e: nat) returns (more: seq<Action>, r: Memory)
    requires Setting(p, pol) && Ok(pol, m) && Ok(pol, n) && Leads(p, pol, m, actions, n, full, extra)
    requires Resting(n, row, id, time, count) && time <= full
    requires 0 < e && DoneEnough(pol, time + extra, e) && time + extra <= MAX_UINT64
    ensures Ok(pol, r) && Leads(p, pol, m, more, r, full, extra)
    ensures Resting(r, row, id, time + extra - e, count + 1) && id in r.infos
  {
    more, r := Started(p, pol, m, actions, n, full, extra, row, id, time, count);
    more, r := Stopped(p, pol, m, more, r, full, extra, row, id, time, count, e);
    more, r := Reported(p, pol, m, more, r, full, extra, row, id, time + extra - e, count + 1);
  }

  /** Nothing has happened yet. */
  ghost predicate Unused(p: Params, m: Memory) {
    StartingPoint(m) && m.device == SubArrayTiming.Initial(p)
  }

  lemma OpensRow(p: Params, pol: Policy, m: Memory, full: nat, extra: nat, row: nat, id: nat, time: nat)
    returns (actions: seq<Action>, n: Memory)
    requires Setting(p, pol) && Ok(pol, m) && Unused(p, m)
    ensures Ok(pol, n) && Leads(p, pol, m, actions, n, full, extra) && Resting(n, row, id, time, 0)
  {
    assert Leads(p, pol, m, [], m, full, extra);
    LeadsMore(p, pol, m, [], m, full, extra, Send(Urgent(row)));
    n := Next(p, pol, m, Send(Urgent(row)));
    actions := LeadsLater(p, pol, m, [] + [Send(Urgent(row))], n, full, extra, 1);
    n := Later(n, 1);
  }

  /** Pausing can set a write back: interrupted after `e` cycles, fewer than were added to it but enough for
      the threshold, it needs more than its whole time. */
  lemma SetBack(p: Params, pol: Policy, m: Memory, id: nat, time: nat, extra: nat, e: nat)
    returns (actions: seq<Action>, n: Memory)
    requires Setting(p, pol) && Ok(pol, m) && Unused(p, m) && time + extra <= MAX_UINT64
    requires 0 < e < extra && DoneEnough(pol, time + extra, e)
    ensures Ok(pol, n) && Leads(p, pol, m, actions, n, time, extra)
    ensures id in n.infos && n.infos[id].paused && n.infos[id].progress == time + extra - e > time
  {
    actions, n := OpensRow(p, pol, m, time, extra, 0, id, time);
    actions, n := PausedOnce(p, pol, m, actions, n, time, extra, 0, id, time, 0, e);
  }

  /** With latency added, one write can be paused any number of times, and is never cancelled. */
  lemma {:induction false} PausedForever(
    p: Params, pol: Policy, m: Memory, id: nat, full: nat, extra: nat, count: nat)
    returns (actions: seq<Action>, n: Memory, time: nat)
    requires Setting(p, pol) && Ok(pol, m) && Unused(p, m) && full + extra <= MAX_UINT64 && 0 < extra
    ensures Ok(pol, n) && Leads(p, pol, m, actions, n, full, extra)
    ensures Resting(n, 0, id, time, count) && time <= full
  {
    if count == 0 {
      time := full;
      actions, n := OpensRow(p, pol, m, full, extra, 0, id, time);
    } else {
      actions, n, time := PausedForever(p, pol, m, id, full, extra, count - 1);
      var total := time + extra;
      Scale(1, pol.den - pol.num, total);
      actions, n := PausedOnce(p, pol, m, actions, n, full, extra, 0, id, time, count - 1, total);
      time := 0;
    }
  }

  /** In all runs whose writes take up to `full` cycles and `extra` more, no write is interrupted more than
      `bound` times. */
  ghost predicate Bounded(p: Params, pol: Policy, m: Memory, full: nat, extra: nat, bound: nat)
    requires Sane(p) && ProperPolicy(pol) && Ok(pol, m)
  {
    forall actions: seq<Action>, n: Memory, id: nat ::
      Leads(p, pol, m, actions, n, full, extra) ==> Count(n, id) <= bound
  }

  /** The number of interruptions is bounded exactly when no latency is added to writes. */
  lemma BoundedIff(p: Params, pol: Policy, m: Memory, full: nat, extra: nat)
    requires Setting(p, pol) && Ok(pol, m) && Unused(p, m) && full + extra <= MAX_UINT64
    ensures (exists bound: nat :: Bounded(p, pol, m, full, extra, bound)) <==> extra == 0
  {
    if extra == 0 {
      var bound := Limit(pol) * (full + 1) + full;
      forall actions: seq<Action>, n: Memory, id: nat | Leads(p, pol, m, actions, n, full, extra)
        ensures Count(n, id) <= bound
      {
        FinitelyInterrupted(p, pol, m, actions, full, id);
      }
      assert Bounded(p, pol, m, full, extra, bound);
    } else {
      forall bound: nat ensures !Bounded(p, pol, m, full, extra, bound) {
        var actions, n, time := PausedForever(p, pol, m, 0, full, extra, bound + 1);
      }
    }
  }
}
