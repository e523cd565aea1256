/** The subarray as it is updated in place, command by command. */
module SubArrays {
  import opened SubArrayTiming
  import opened WritePausing
  import opened WriteTimes
  import Arithmetic

  ghost function Checked(pol: Policy, m: Memory): (r: Memory)
    requires ProperPolicy(pol) && m.writing.start <= m.writing.end
  {
    if pol.enabled && m.writing.active then Interrupted(pol, m) else m
  }

  ghost predicate Issuing(p: Params, m: Memory, c: Command) {
    Sane(p) && WellFormed(c) && Issuable(p, m.device.regs, m.device.now, c)
  }

  ghost function IssuedTo(p: Params, m: Memory, c: Command): (r: Memory)
    requires Issuing(p, m, c)
  {
    m.(device := Take(p, m.device, Issue(c)), lastIssue := m.device.now)
  }

  /** A write with all of its programming time. */
  function Programming(c: Command, total: nat): (r: Command)
    requires c.Write?
  {
    Write(c.row, c.auto, c.bursts, total)
  }

  lemma StillIssuable(p: Params, pol: Policy, m: Memory, q: Request)
    requires Sane(p) && ProperPolicy(pol) && m.writing.start <= m.writing.end && NotAhead(m)
    requires WellFormed(q.command) && Accepted(p, pol, m, q)
    ensures Issuing(p, m, q.command)
    ensures q.command.Activate? || q.command.Read? ==>
      Issuing(p, Checked(pol, m), q.command) && Sent(p, pol, m, q) == IssuedTo(p, Checked(pol, m), q.command)
    ensures q.command.Precharge? || q.command.Refresh? ==> Sent(p, pol, m, q) == IssuedTo(p, m, q.command)
  {
  }

  datatype Result = Issued | Rejected | Failed

  class SubArray {
    const p: Params
    const policy: Policy
    const cells: CellModel

    var state: State
    var openRow: nat
    var nextActivate: nat
    var nextPrecharge: nat
    var nextRead: nat
    var nextWrite: nat
    var nextPowerDown: nat

    var isWriting: bool
    var writeRequest: nat
    var writeStart: nat
    var writeEnd: nat
    var writeEventTime: nat
    var writeIterationStarts: seq<nat>
    var nextActivatePreWrite: nat
    var nextPrechargePreWrite: nat
    var nextReadPreWrite: nat
    var nextWritePreWrite: nat
    var nextPowerDownPreWrite: nat

    /** The part of the write requests that the subarray writes to. */
    var infos: map<nat, Info>

    /** The current cycle, and the subarray's own events in the event queue. */
    var now: nat
    var pending: seq<Completion>
    var reports: seq<Report>

    ghost var log: seq<Entry>
    ghost var lastIssue: int
    ghost var interruptions: map<nat, nat>
    ghost var savedState: State
    ghost var savedRow: nat

    ghost function Registers(): (r: Registers)
      reads `state, `openRow, `nextActivate, `nextPrecharge, `nextRead, `nextWrite, `nextPowerDown
    {
      SubArrayTiming.Registers(state, openRow, nextActivate, nextPrecharge, nextRead, nextWrite, nextPowerDown)
    }

    ghost function Device(): (r: Device)
      reads `state, `openRow, `nextActivate, `nextPrecharge, `nextRead, `nextWrite, `nextPowerDown
      reads `now, `pending, `log
    {
      SubArrayTiming.Device(Registers(), now, pending, log)
    }

    ghost function Saved(): (r: Registers)
      reads `savedState, `savedRow, `nextActivatePreWrite, `nextPrechargePreWrite
      reads `nextReadPreWrite, `nextWritePreWrite, `nextPowerDownPreWrite
    {
      SubArrayTiming.Registers(savedState, savedRow, nextActivatePreWrite, nextPrechargePreWrite,
                               nextReadPreWrite, nextWritePreWrite, nextPowerDownPreWrite)
    }

    ghost function Writing(): (r: Writing)
      reads `isWriting, `writeRequest, `writeStart, `writeEnd, `writeEventTime, `writeIterationStarts
      reads `savedState, `savedRow, `nextActivatePreWrite, `nextPrechargePreWrite
      reads `nextReadPreWrite, `nextWritePreWrite, `nextPowerDownPreWrite
    {
      WritePausing.Writing(isWriting, writeRequest, writeStart, writeEnd, writeEventTime, writeIterationStarts, Saved())
    }

    ghost function Memory(): (r: Memory)
      reads this
    {
      WritePausing.Memory(Device(), Writing(), infos, reports, lastIssue, interruptions)
    }

    ghost predicate Valid()
      reads this
    {
      Sane(p) && ProperPolicy(policy) && writeStart <= writeEnd && NotAhead(Memory())
    }

    constructor (p: Params, policy: Policy, cells: CellModel)
      requires Sane(p) && ProperPolicy(policy)
      ensures Valid() && Device() == Initial(p) && StartingPoint(Memory())
      ensures this.p == p && this.policy == policy && this.cells == cells
    {
      this.p, this.policy, this.cells := p, policy, cells;
      state, openRow := CLOSED, 0;
      nextActivate, nextPrecharge, nextRead, nextWrite, nextPowerDown := 0, 0, 0, 0, 0;
      isWriting, writeRequest, writeStart, writeEnd, writeEventTime := false, 0, 0, 0, 0;
      writeIterationStarts := [];
      nextActivatePreWrite, nextPrechargePreWrite, nextReadPreWrite := 0, 0, 0;
      nextWritePreWrite, nextPowerDownPreWrite := 0, 0;
      infos, now, pending, reports := map[], 0, [], [];
      log, lastIssue, interruptions := [], -1, map[];
      savedState, savedRow := CLOSED, 0;
    }

    method IsIssuable(q: Request) returns (rv: bool)
      requires Valid()
      ensures rv == Accepted(p, policy, Memory(), q)
    {
      var forced := policy.enabled && isWriting && writeRequest in infos && infos[writeRequest].forced;
      match q.command {
        case Activate(_) =>
          rv := !(nextActivate > now || (p.usePrecharge && state != CLOSED) || forced
                  || (policy.enabled && isWriting && !q.priority));
        case Read(row, _, _, _) =>
          rv := !(nextRead > now || state != OPEN || row != openRow || forced);
        case Write(row, _, _, _) =>
          rv := !(nextWrite > now || state != OPEN || row != openRow);
        case Precharge(_) =>
          rv := !(nextPrecharge > now || (state != OPEN && state != CLOSED));
        case Refresh =>
          rv := !(nextActivate > now || state != CLOSED);
      }
    }

    /** What an interruption writes to the request. */
    method Interruption() returns (info: Info)
      requires ProperPolicy(policy) && writeStart <= writeEnd
      ensures info ==
        InterruptedInfo(policy, if writeRequest in infos then infos[writeRequest] else NEW, Writing(), now)
    {
      var progress := if policy.optimal then now else IterationStart(writeIterationStarts, now, writeStart);
      var remaining := Arithmetic.Sub64(writeEnd, progress);
      info := if writeRequest in infos then infos[writeRequest] else NEW;
      info := info.(progress := remaining);
      if remaining * policy.den < (policy.den - policy.num) * (writeEnd - writeStart) {
        if remaining != writeEnd { info := info.(paused := true); }
      } else {
        info := info.(cancelled := true, cancellations := info.cancellations + 1);
        if info.cancellations >= policy.maxCancellations { info := info.(forced := true); }
      }
    }

    method Restore()
      modifies `nextActivate, `nextPrecharge, `nextRead, `nextWrite, `nextPowerDown
      ensures Registers() == Restored(old(Registers()), Saved())
    {
      nextActivate, nextPrecharge := nextActivatePreWrite, nextPrechargePreWrite;
      nextWrite, nextRead, nextPowerDown := nextWritePreWrite, nextReadPreWrite, nextPowerDownPreWrite;
    }

    method CheckWritePausing()
      requires ProperPolicy(policy) && writeStart <= writeEnd
      modifies `infos, `reports, `interruptions, `lastIssue
      modifies `nextActivate, `nextPrecharge, `nextRead, `nextWrite, `nextPowerDown
      ensures Memory() == Checked(policy, old(Memory()))
    {
      if policy.enabled && isWriting {
        var info := Interruption();
        Interrupt(Memory(), info);
      }
    }

    method Interrupt(ghost m: Memory, info: Info)
      requires ProperPolicy(policy) && m == Memory() && m.writing.start <= m.writing.end
      requires info == InterruptedInfo(policy, InfoOf(m, m.writing.request), m.writing, m.device.now)
      modifies `infos, `reports, `interruptions, `lastIssue
      modifies `nextActivate, `nextPrecharge, `nextRead, `nextWrite, `nextPowerDown
      ensures Memory() == Interrupted(policy, m)
    {
      Restore();
      interruptions := interruptions[writeRequest := Count(m, writeRequest) + 1];
      reports := Without(reports, WritePausing.Report(writeRequest, writeEventTime));
      Note(Interrupted(policy, m), writeRequest, info, now + 1);
    }

    /** Schedules the completion of a command once the registers are updated. */
    method Conclude(ghost m: Memory, ghost c: Command, completions: seq<Completion>)
      requires Issuing(p, m, c) && completions == Scheduled(p, now, c)
      requires Device() == m.device.(regs := Accept(p, m.device.regs, m.device.now, c)) && Writing() == m.writing
      requires infos == m.infos && reports == m.reports && interruptions == m.interruptions
      modifies `pending, `log, `lastIssue
      ensures Memory() == IssuedTo(p, m, c)
    {
      pending := pending + completions;
      log, lastIssue := log + [Entry(c, now)], now;
    }

    method Activate(q: Request)
      requires Valid() && q.command.Activate? && Accepted(p, policy, Memory(), q)
      modifies this
      ensures Memory() == Sent(p, policy, old(Memory()), q)
    {
      StillIssuable(p, policy, Memory(), q);
      CheckWritePausing();
      ghost var m := Memory();
      OpenRow(m.device.regs, q.command, q.command.row);
      Conclude(m, q.command, []);
    }

    method OpenRow(ghost r: Registers, ghost c: Command, row: nat)
      requires Sane(p) && r == Registers() && c == SubArrayTiming.Activate(row)
      modifies `state, `openRow, `nextPrecharge, `nextRead, `nextWrite, `nextPowerDown
      ensures Registers() == Accept(p, r, now, c)
    {
      nextPrecharge := Max(nextPrecharge, now + Max(p.tRCD, p.tRAS));
      nextRead := Max(nextRead, now + p.tRCD - p.tAL);
      nextWrite := Max(nextWrite, now + p.tRCD - p.tAL);
      nextPowerDown := Max(nextPowerDown, now + Max(p.tRCD, p.tRAS));
      openRow := row;
      state := OPEN;
    }

    method Read(q: Request)
      requires Valid() && q.command.Read? && WellFormed(q.command) && Accepted(p, policy, Memory(), q)
      modifies this
      ensures Memory() == Sent(p, policy, old(Memory()), q)
    {
      StillIssuable(p, policy, Memory(), q);
      CheckWritePausing();
      if q.command.auto {
        LastRead(Memory(), q.command);
      } else {
        PlainRead(Memory(), q.command);
      }
    }

    method BurstTime(n: nat) returns (time: nat)
      ensures time == Bursts(p, n)
    {
      time := Max(p.tBURST, p.tCCD) * n;
      BurstsIsProduct(p, n);
    }

    method LastRead(ghost m: Memory, c: Command)
      requires m == Memory() && c.Read? && c.auto && Issuing(p, m, c)
      modifies `nextActivate, `nextPrecharge, `nextRead, `nextWrite, `nextPowerDown, `pending, `log, `lastIssue
      ensures Memory() == IssuedTo(p, m, c)
    {
      var more := BurstTime(c.bursts - 1);
      ReadAndClose(m.device.regs, c, more, c.latency);
      assert Writing() == m.writing;
      Conclude(m, c, [BeginPrecharge(now + p.tAL + p.tRTP + c.latency + more)]);
    }

    method PlainRead(ghost m: Memory, c: Command)
      requires m == Memory() && c.Read? && !c.auto && Issuing(p, m, c)
      modifies `nextActivate, `nextPrecharge, `nextRead, `nextWrite, `nextPowerDown, `pending, `log, `lastIssue
      ensures Memory() == IssuedTo(p, m, c)
    {
      var more := BurstTime(c.bursts - 1);
      var all := BurstTime(c.bursts);
      ReadRow(m.device.regs, c, more, all, c.latency);
      Conclude(m, c, []);
    }

    method ReadAndClose(ghost r: Registers, ghost c: Command, more: nat, latency: nat)
      requires Sane(p) && r == Registers()
      requires c.Read? && c.auto && c.latency == latency && c.bursts >= 1 && more == Bursts(p, c.bursts - 1)
      modifies `nextActivate, `nextPrecharge, `nextRead, `nextWrite, `nextPowerDown
      ensures Registers() == Accept(p, r, now, c)
    {
      nextActivate := Max(nextActivate, now + more + p.tAL + p.tRTP + p.tRP + latency);
      nextPrecharge := Max(nextPrecharge, nextActivate);
      nextRead := Max(nextRead, nextActivate);
      nextWrite := Max(nextWrite, nextActivate);
      nextPowerDown := Max(nextPowerDown, now + more + p.tCAS + p.tAL + p.tBURST + 1 + latency);
    }

    method ReadRow(ghost r: Registers, ghost c: Command, more: nat, all: nat, latency: nat)
      requires Sane(p) && r == Registers() && c.Read? && !c.auto && c.latency == latency && c.bursts >= 1
      requires more == Bursts(p, c.bursts - 1) && all == Bursts(p, c.bursts)
      modifies `nextActivate, `nextPrecharge, `nextRead, `nextWrite, `nextPowerDown
      ensures Registers() == Accept(p, r, now, c)
    {
      nextPrecharge := Max(nextPrecharge, now + more + p.tAL + p.tBURST + p.tRTP - p.tCCD + latency);
      nextRead := Max(nextRead, now + all);
      nextWrite := Max(nextWrite, now + more + p.tCAS + p.tBURST + p.tRTRS - p.tCWD + latency);
      nextPowerDown := Max(nextPowerDown, now + more + p.tCAS + p.tAL + p.tBURST + 1 + latency);
    }

    method Write(q: Request)
      requires Valid() && q.command.Write? && WellFormed(q.command) && Accepted(p, policy, Memory(), q)
      modifies this
      ensures Memory() == Sent(p, policy, old(Memory()), q)
    {
      ghost var m := Memory();
      var info := if q.id in infos then infos[q.id] else NEW;
      var time := if info.paused then info.progress else q.command.latency;
      info := info.(paused := false, cancelled := false, progress := time);
      StillIssuable(p, policy, m, q);
      var bus := BurstTime(q.command.bursts);
      var at := now + p.tCWD + bus + time + q.extra;
      Begin(StartWrite(p, m, q), Programming(q.command, time + q.extra), q.id, info, at, q.starts);
    }

    /** Starts programming; `n` is what the memory becomes. */
    method Begin(ghost n: Memory, c: Command, request: nat, info: Info, at: nat, starts: seq<nat>)
      requires Sane(p) && c.Write? && WellFormed(c) && Issuable(p, Registers(), now, c)
      requires n.device == Take(p, Device(), Issue(c)) && n.interruptions == interruptions
      requires n.writing == WritePausing.Writing(true, request, now, now + c.latency, at, starts, Registers())
      requires n.reports == reports + [WritePausing.Report(request, at)] && n.infos == infos[request := info]
      modifies this
      ensures Memory() == n
    {
      Mark(request, c.latency, at, starts);
      Continue(n, c, request, info, at);
    }

    method Continue(ghost n: Memory, c: Command, request: nat, info: Info, at: nat)
      requires Sane(p) && c.Write? && WellFormed(c) && Issuable(p, Registers(), now, c)
      requires n.device == Take(p, Device(), Issue(c)) && n.interruptions == interruptions && n.writing == Writing()
      requires n.reports == reports + [WritePausing.Report(request, at)] && n.infos == infos[request := info]
      modifies `nextActivate, `nextPrecharge, `nextRead, `nextWrite, `nextPowerDown, `pending, `log
      modifies `infos, `reports, `lastIssue
      ensures Memory() == n
    {
      ProgramRow(Device(), c);
      assert Writing() == n.writing;
      Note(n, request, info, at);
    }

    method ProgramRow(ghost d: Device, c: Command)
      requires d == Device() && Sane(p) && c.Write? && WellFormed(c) && Issuable(p, d.regs, d.now, c)
      modifies `nextActivate, `nextPrecharge, `nextRead, `nextWrite, `nextPowerDown, `pending, `log
      ensures Device() == Take(p, d, Issue(c))
    {
      if c.auto { LastWrite(d, c); } else { PlainWrite(d, c); }
    }

    /** Keeps the registers in case the write is interrupted. */
    method Save()
      modifies `savedState, `savedRow, `nextActivatePreWrite, `nextPrechargePreWrite
      modifies `nextReadPreWrite, `nextWritePreWrite, `nextPowerDownPreWrite
      ensures Saved() == Registers()
    {
      nextActivatePreWrite, nextPrechargePreWrite := nextActivate, nextPrecharge;
      nextReadPreWrite, nextWritePreWrite, nextPowerDownPreWrite := nextRead, nextWrite, nextPowerDown;
      savedState, savedRow := state, openRow;
    }

    method WriteAndClose(ghost r: Registers, ghost c: Command, more: nat, time: nat)
      requires Sane(p) && r == Registers()
      requires c.Write? && c.auto && c.latency == time && c.bursts >= 1 && more == Bursts(p, c.bursts - 1)
      modifies `nextActivate, `nextPrecharge, `nextRead, `nextWrite, `nextPowerDown
      ensures Registers() == Accept(p, r, now, c)
    {
      nextActivate := Max(nextActivate, now + more + p.tAL + p.tCWD + p.tBURST + time + p.tWR + p.tRP);
      nextPrecharge := Max(nextPrecharge, nextActivate);
      nextRead := Max(nextRead, nextActivate);
      nextWrite := Max(nextWrite, nextActivate);
      nextPowerDown := Max(nextPowerDown, nextPrecharge);
    }

    method WriteRow(ghost r: Registers, ghost c: Command, more: nat, all: nat, time: nat)
      requires Sane(p) && r == Registers() && c.Write? && !c.auto && c.latency == time && c.bursts >= 1
      requires more == Bursts(p, c.bursts - 1) && all == Bursts(p, c.bursts)
      modifies `nextActivate, `nextPrecharge, `nextRead, `nextWrite, `nextPowerDown
      ensures Registers() == Accept(p, r, now, c)
    {
      nextPrecharge := Max(nextPrecharge, now + more + p.tAL + p.tCWD + p.tBURST + time + p.tWR);
      nextRead := Max(nextRead, now + more + p.tCWD + p.tBURST + p.tWTR + time);
      nextWrite := Max(nextWrite, now + all + time);
      nextPowerDown := Max(nextPowerDown, nextPrecharge);
    }

    method LastWrite(ghost d: Device, c: Command)
      requires d == Device() && Sane(p) && c.Write? && c.auto && WellFormed(c) && Issuable(p, d.regs, d.now, c)
      modifies `nextActivate, `nextPrecharge, `nextRead, `nextWrite, `nextPowerDown, `pending, `log
      ensures Device() == Take(p, d, Issue(c))
    {
      var more := BurstTime(c.bursts - 1);
      WriteAndClose(d.regs, c, more, c.latency);
      pending := pending + [BeginPrecharge(now + more + p.tAL + p.tCWD + p.tBURST + c.latency + p.tWR)];
      log := log + [Entry(c, now)];
    }

    method PlainWrite(ghost d: Device, c: Command)
      requires d == Device() && Sane(p) && c.Write? && !c.auto && WellFormed(c) && Issuable(p, d.regs, d.now, c)
      modifies `nextActivate, `nextPrecharge, `nextRead, `nextWrite, `nextPowerDown, `log
      ensures Device() == Take(p, d, Issue(c))
    {
      var more := BurstTime(c.bursts - 1);
      var all := BurstTime(c.bursts);
      WriteRow(d.regs, c, more, all, c.latency);
      assert pending + [] == pending;
      log := log + [Entry(c, now)];
    }

    /** Marks a write as in progress. */
    method Mark(request: nat, time: nat, eventTime: nat, starts: seq<nat>)
      modifies `savedState, `savedRow, `nextActivatePreWrite, `nextPrechargePreWrite
      modifies `nextReadPreWrite, `nextWritePreWrite, `nextPowerDownPreWrite
      modifies `isWriting, `writeRequest, `writeStart, `writeEnd, `writeEventTime, `writeIterationStarts
      ensures Writing() == WritePausing.Writing(true, request, now, now + time, eventTime, starts, Registers())
    {
      Save();
      isWriting, writeRequest, writeStart, writeEnd := true, request, now, now + time;
      writeEventTime, writeIterationStarts := eventTime, starts;
    }

    /** Updates a request, and has it reported later; `m` is what the memory becomes. */
    method Note(ghost m: Memory, request: nat, info: Info, at: nat)
      requires Device() == m.device && Writing() == m.writing && interruptions == m.interruptions
      requires m.infos == infos[request := info] && m.reports == reports + [WritePausing.Report(request, at)]
      modifies `infos, `reports, `lastIssue
      ensures Memory() == m
    {
      infos := infos[request := info];
      reports := reports + [WritePausing.Report(request, at)];
      lastIssue := m.lastIssue;
    }

    method Precharge(q: Request)
      requires Valid() && q.command.Precharge? && Accepted(p, policy, Memory(), q)
      modifies `state, `nextActivate, `pending, `log, `lastIssue
      ensures Memory() == Sent(p, policy, old(Memory()), q)
    {
      StillIssuable(p, policy, Memory(), q);
      var timer := Max(1, p.tRP + q.command.hold);
      nextActivate := Max(nextActivate, now + timer);
      state := PRECHARGING;
      Conclude(old(Memory()), q.command, [EndPrecharge(now + timer)]);
    }

    method Refresh(q: Request)
      requires Valid() && q.command.Refresh? && Accepted(p, policy, Memory(), q)
      modifies `state, `nextActivate, `pending, `log, `lastIssue
      ensures Memory() == Sent(p, policy, old(Memory()), q)
    {
      StillIssuable(p, policy, Memory(), q);
      nextActivate := Max(nextActivate, now + p.tRFC);
      state := REFRESHING;
      Conclude(old(Memory()), q.command, [EndRefresh(now + p.tRFC)]);
    }

    /** The time of a write is computed from its data and a random sample. */
    function Timed(q: Request, t: Outcome): (r: Request)
      requires t.Time?
    {
      if q.command.Write? then
        var write := SubArrayTiming.Write(q.command.row, q.command.auto, q.command.bursts, t.cycles);
        q.(command := write, starts := t.starts)
      else q
    }

    /** The write in progress was begun now, and takes what is left of it if it was paused, its computed time
        otherwise, and the added latency. */
    ghost predicate InProgress(q: Request, before: Info, t: Outcome)
      requires t.Time?
      reads this
    {
      && isWriting && writeRequest == q.id && writeIterationStarts == t.starts && writeStart == now
      && writeEnd == now + (if before.paused then before.progress else t.cycles) + q.extra
    }

    method WriteTimed(q: Request, sample: nat, data: array?<bv32>) returns (r: Result)
      requires Valid() && q.command.Write? && WellFormed(q.command) && Accepted(p, policy, Memory(), q)
      requires data != null ==> data.Length == cells.bits / 32
      modifies this
      ensures Valid()
      ensures var t := ProgramTime(cells, old(now), sample, if data == null then NoData else Words(old(data[..])));
        && r == (if t.Aborted? then Failed else Issued)
        && Memory() == if t.Aborted? then old(Memory()) else Sent(p, policy, old(Memory()), Timed(q, t))
      ensures r.Issued? ==>
        var t := ProgramTime(cells, old(now), sample, if data == null then NoData else Words(old(data[..])));
        t.Time? && InProgress(q, old(InfoOf(Memory(), q.id)), t)
    {
      var t := WriteCellData(cells, now, sample, data);
      if t.Aborted? { return Failed; }
      Write(Timed(q, t));
      r := Issued;
    }

    method IssueCommand(q: Request, sample: nat, data: array?<bv32>) returns (r: Result)
      requires Valid() && WellFormed(q.command) && (data != null ==> data.Length == cells.bits / 32)
      modifies this
      ensures Valid()
      ensures r.Rejected? <==> !old(Accepted(p, policy, Memory(), q))
      ensures r != Issued ==> Memory() == old(Memory())
      ensures var t := ProgramTime(cells, old(now), sample, if data == null then NoData else Words(old(data[..])));
        && (r.Failed? <==> old(Accepted(p, policy, Memory(), q)) && q.command.Write? && t.Aborted?)
        && (r.Issued? && t.Time? ==> Memory() == Sent(p, policy, old(Memory()), Timed(q, t)))
        && (r.Issued? && t.Aborted? ==> Memory() == Sent(p, policy, old(Memory()), q))
        && (r.Issued? && q.command.Write? ==> t.Time? && InProgress(q, old(InfoOf(Memory(), q.id)), t))
    {
      var ok := IsIssuable(q);
      if !ok { return Rejected; }
      r := Issued;
      match q.command {
        case Activate(_) => Activate(q);
        case Read(_, _, _, _) => Read(q);
        case Write(_, _, _, _) => r := WriteTimed(q, sample, data);
        case Precharge(_) => Precharge(q);
        case Refresh => Refresh(q);
      }
    }

    /** A report of a write is due. */
    method Report(i: nat)
      requires i < |reports|
      modifies `isWriting, `reports
      ensures reports == old(reports[..i] + reports[i + 1..])
      ensures Writing() ==
        if writeRequest == old(reports[i].request) then old(Writing()).(active := false) else old(Writing())
    {
      if writeRequest == reports[i].request { isWriting := false; }
      reports := reports[..i] + reports[i + 1..];
    }

    /** One of the subarray's own completions is due. */
    method Finish(i: nat)
      requires Sane(p) && Enabled(p, Device(), Deliver(i))
      modifies `state, `openRow, `pending
      ensures Device() == Take(p, old(Device()), Deliver(i))
    {
      var c := pending[i];
      pending := pending[..i] + pending[i + 1..];
      if c.BeginPrecharge? {
        state := PRECHARGING;
        pending := pending + [EndPrecharge(now + p.tRP)];
      } else {
        state, openRow := CLOSED, p.rows;
        assert pending + [] == pending;
      }
    }

    /** An event of the subarray is due. */
    method RequestComplete(due: Action)
      requires Valid() && (due.Complete? || due.Inform?) && Allowed(p, policy, Memory(), due)
      modifies this
      ensures Valid() && Memory() == Next(p, policy, old(Memory()), due)
    {
      if due.Inform? { Report(due.i); } else { Finish(due.i); }
    }
  }
}
