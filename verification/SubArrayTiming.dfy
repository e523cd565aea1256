/** The timing rules of one subarray: when a command is accepted, and how it moves the earliest times of
    later commands. Write pausing is off here; it is the subject of another module. */
module SubArrayTiming {

  datatype State = OPEN | CLOSED | PRECHARGING | REFRESHING

  /** All times are in cycles. `rows` is the row number that stands for "no row". */
  datatype Params = Params(
    tRCD: nat, tRAS: nat, tRP: nat, tRFC: nat, tAL: nat, tRTP: nat, tBURST: nat, tCCD: nat,
    tCAS: nat, tCWD: nat, tRTRS: nat, tWR: nat, tWTR: nat, rows: nat, usePrecharge: bool)

  /** The differences the unsigned arithmetic takes do not wrap around, and precharging takes time. */
  predicate Sane(p: Params) {
    p.tAL <= p.tRCD && p.tCCD <= p.tAL + p.tBURST + p.tRTP && p.tCWD <= p.tCAS + p.tBURST + p.tRTRS && 1 <= p.tRP
  }

  function Max(a: nat, b: nat): (r: nat) {
    if a > b then a else b
  }

  /** The time `n` bursts take on the bus. */
  function Bursts(p: Params, n: nat): (r: nat) {
    if n == 0 then 0 else Max(p.tBURST, p.tCCD) + Bursts(p, n - 1)
  }

  lemma {:induction false} BurstsIsProduct(p: Params, n: nat)
    ensures Bursts(p, n) == Max(p.tBURST, p.tCCD) * n
  {
    if n > 0 { BurstsIsProduct(p, n - 1); }
  }

  /** Commands as the subarray sees them. `auto` marks the forms with an implicit precharge; `latency` is
      the decoding time of a read, or the whole cell programming time of a write; `hold` is how long an
      explicit precharge takes beyond its usual time. A burst count is at least one. */
  datatype Command =
    | Activate(row: nat)
    | Read(row: nat, auto: bool, bursts: nat, latency: nat)
    | Write(row: nat, auto: bool, bursts: nat, latency: nat)
    | Precharge(hold: nat)
    | Refresh

  predicate WellFormed(c: Command) {
    c.Read? || c.Write? ==> c.bursts >= 1
  }

  datatype Registers = Registers(
    state: State, openRow: nat,
    nextActivate: nat, nextPrecharge: nat, nextRead: nat, nextWrite: nat, nextPowerDown: nat)

  predicate Issuable(p: Params, r: Registers, now: nat, c: Command) {
    match c
    case Activate(_) => r.nextActivate <= now && (p.usePrecharge ==> r.state == CLOSED)
    case Read(row, _, _, _) => r.nextRead <= now && r.state == OPEN && row == r.openRow
    case Write(row, _, _, _) => r.nextWrite <= now && r.state == OPEN && row == r.openRow
    case Precharge(_) => r.nextPrecharge <= now && (r.state == OPEN || r.state == CLOSED)
    case Refresh => r.nextActivate <= now && r.state == CLOSED
  }

  /** The time from a command with an implicit precharge to the moment that precharge begins. */
  function PrechargeDelay(p: Params, c: Command): (r: nat)
    requires WellFormed(c) && (c.Read? || c.Write?)
  {
    var more := Bursts(p, c.bursts - 1);
    if c.Read? then more + p.tAL + p.tRTP + c.latency
    else more + p.tAL + p.tCWD + p.tBURST + c.latency + p.tWR
  }

  function PrechargeTime(p: Params, c: Command): (r: nat)
    requires c.Precharge?
  {
    Max(1, p.tRP + c.hold)
  }

  function ReadToWrite(p: Params): (r: nat)
    requires Sane(p)
  {
    p.tCAS + p.tBURST + p.tRTRS - p.tCWD
  }

  /** The registers after an accepted command. */
  function Accept(p: Params, r: Registers, now: nat, c: Command): (result: Registers)
    requires Sane(p) && WellFormed(c)
  {
    match c
    case Activate(row) =>
      r.(nextPrecharge := Max(r.nextPrecharge, now + Max(p.tRCD, p.tRAS)),
         nextRead := Max(r.nextRead, now + p.tRCD - p.tAL),
         nextWrite := Max(r.nextWrite, now + p.tRCD - p.tAL),
         nextPowerDown := Max(r.nextPowerDown, now + Max(p.tRCD, p.tRAS)),
         openRow := row, state := OPEN)
    case Read(_, auto, bursts, latency) =>
      var more := Bursts(p, bursts - 1);
      var powerDown := Max(r.nextPowerDown, now + more + p.tCAS + p.tAL + p.tBURST + 1 + latency);
      if auto then
        var activate := Max(r.nextActivate, now + PrechargeDelay(p, c) + p.tRP);
        r.(nextActivate := activate, nextPrecharge := Max(r.nextPrecharge, activate),
           nextRead := Max(r.nextRead, activate), nextWrite := Max(r.nextWrite, activate),
           nextPowerDown := powerDown)
      else
        r.(nextPrecharge := Max(r.nextPrecharge, now + more + (p.tAL + p.tBURST + p.tRTP - p.tCCD) + latency),
           nextRead := Max(r.nextRead, now + Bursts(p, bursts)),
           nextWrite := Max(r.nextWrite, now + more + ReadToWrite(p) + latency),
           nextPowerDown := powerDown)
    case Write(_, auto, bursts, latency) =>
      var more := Bursts(p, bursts - 1);
      var s :=
        if auto then
          var activate := Max(r.nextActivate, now + PrechargeDelay(p, c) + p.tRP);
          r.(nextActivate := activate, nextPrecharge := Max(r.nextPrecharge, activate),
             nextRead := Max(r.nextRead, activate), nextWrite := Max(r.nextWrite, activate))
        else
          r.(nextPrecharge := Max(r.nextPrecharge, now + PrechargeDelay(p, c)),
             nextRead := Max(r.nextRead, now + more + p.tCWD + p.tBURST + p.tWTR + latency),
             nextWrite := Max(r.nextWrite, now + Bursts(p, bursts) + latency));
      s.(nextPowerDown := Max(s.nextPowerDown, s.nextPrecharge))
    case Precharge(_) =>
      r.(nextActivate := Max(r.nextActivate, now + PrechargeTime(p, c)), state := PRECHARGING)
    case Refresh =>
      r.(nextActivate := Max(r.nextActivate, now + p.tRFC), state := REFRESHING)
  }

  // ----- delayed completions -----

  /** What the subarray has scheduled for itself: the start of an implicit precharge, and the end of a
      precharge or refresh. */
  datatype Completion = BeginPrecharge(at: nat) | EndPrecharge(at: nat) | EndRefresh(at: nat)

  function Scheduled(p: Params, now: nat, c: Command): (r: seq<Completion>)
    requires Sane(p) && WellFormed(c)
  {
    match c
    case Activate(_) => []
    case Read(_, auto, _, _) => if auto then [BeginPrecharge(now + PrechargeDelay(p, c))] else []
    case Write(_, auto, _, _) => if auto then [BeginPrecharge(now + PrechargeDelay(p, c))] else []
    case Precharge(_) => [EndPrecharge(now + PrechargeTime(p, c))]
    case Refresh => [EndRefresh(now + p.tRFC)]
  }

  function Complete(p: Params, r: Registers, c: Completion): (result: Registers) {
    match c
    case BeginPrecharge(_) => r.(state := PRECHARGING)
    case _ => r.(state := CLOSED, openRow := p.rows)
  }

  function FollowUp(p: Params, now: nat, c: Completion): (r: seq<Completion>) {
    if c.BeginPrecharge? then [EndPrecharge(now + p.tRP)] else []
  }

  // ----- runs -----

  datatype Entry = Entry(command: Command, time: nat)

  datatype Device = Device(regs: Registers, now: nat, pending: seq<Completion>, log: seq<Entry>)

  function Initial(p: Params): (r: Device) {
    Device(Registers(CLOSED, 0, 0, 0, 0, 0, 0), 0, [], [])
  }

  /** A command is issued, a completion that is due is delivered, or a cycle ends with none due. */
  datatype Step = Issue(command: Command) | Deliver(i: nat) | Tick

  predicate Enabled(p: Params, d: Device, s: Step) {
    match s
    case Issue(c) => WellFormed(c) && Issuable(p, d.regs, d.now, c)
    case Deliver(i) => i < |d.pending| && d.pending[i].at == d.now
    case Tick => forall i :: 0 <= i < |d.pending| ==> d.pending[i].at > d.now
  }

  function Take(p: Params, d: Device, s: Step): (r: Device)
    requires Sane(p) && Enabled(p, d, s)
  {
    match s
    case Issue(c) =>
      d.(regs := Accept(p, d.regs, d.now, c), pending := d.pending + Scheduled(p, d.now, c),
         log := d.log + [Entry(c, d.now)])
    case Deliver(i) =>
      d.(regs := Complete(p, d.regs, d.pending[i]),
         pending := d.pending[..i] + d.pending[i + 1..] + FollowUp(p, d.now, d.pending[i]))
    case Tick => d.(now := d.now + 1)
  }

  predicate CanRun(p: Params, d: Device, steps: seq<Step>)
    requires Sane(p)
    decreases |steps|
  {
    steps == [] || (Enabled(p, d, steps[0]) && CanRun(p, Take(p, d, steps[0]), steps[1..]))
  }

  /** The device after any number of steps. */
  function Run(p: Params, d: Device, steps: seq<Step>): (r: Device)
    requires Sane(p) && CanRun(p, d, steps)
    decreases |steps|
  {
    if steps == [] then d else Run(p, Take(p, d, steps[0]), steps[1..])
  }

  // ----- life cycle -----

  /** In every state at most one completion is pending, and exactly one while the subarray is not usable;
      until it arrives, every register is beyond it. */
  ghost predicate LifeCycle(p: Params, d: Device) {
    var r := d.regs;
    match r.state
    case CLOSED => d.pending == []
    case OPEN =>
      d.pending == [] ||
      (|d.pending| == 1 && d.pending[0].BeginPrecharge? && d.now <= d.pending[0].at
       && d.pending[0].at + p.tRP <= r.nextActivate
       && r.nextActivate <= r.nextRead && r.nextActivate <= r.nextWrite && r.nextActivate <= r.nextPrecharge)
    case PRECHARGING =>
      |d.pending| == 1 && d.pending[0].EndPrecharge? && d.now <= d.pending[0].at <= r.nextActivate
    case REFRESHING =>
      |d.pending| == 1 && d.pending[0].EndRefresh? && d.now <= d.pending[0].at <= r.nextActivate
  }

  /** Nothing is accepted while a completion is pending. */
  lemma BusyRejects(p: Params, d: Device, c: Command)
    requires Sane(p) && p.usePrecharge && LifeCycle(p, d) && d.pending != []
    ensures !Issuable(p, d.regs, d.now, c)
  {
  }

  lemma TakeLifeCycle(p: Params, d: Device, s: Step)
    requires Sane(p) && p.usePrecharge && LifeCycle(p, d) && Enabled(p, d, s)
    ensures LifeCycle(p, Take(p, d, s))
  {
    match s {
      case Issue(c) => if d.pending != [] { BusyRejects(p, d, c); }
      case Deliver(i) => assert i == 0;
      case Tick =>
    }
  }

  // ----- spacing of commands -----

  /** The register a command waits for. */
  function Ready(r: Registers, c: Command): (result: nat) {
    match c
    case Activate(_) => r.nextActivate
    case Read(_, _, _, _) => r.nextRead
    case Write(_, _, _, _) => r.nextWrite
    case Precharge(_) => r.nextPrecharge
    case Refresh => r.nextActivate
  }

  /** The least number of cycles from an earlier command `a` to a later command `b`. */
  function MinGap(p: Params, a: Command, b: Command): (r: nat)
    requires Sane(p) && WellFormed(a)
  {
    match a
    case Activate(_) =>
      if b.Read? || b.Write? then p.tRCD - p.tAL
      else if b.Precharge? then Max(p.tRCD, p.tRAS)
      else 0
    case Read(_, auto, bursts, latency) =>
      if auto then PrechargeDelay(p, a) + p.tRP
      else if b.Read? then Bursts(p, bursts)
      else if b.Write? then Bursts(p, bursts - 1) + ReadToWrite(p) + latency
      else if b.Precharge? then Bursts(p, bursts - 1) + (p.tAL + p.tBURST + p.tRTP - p.tCCD) + latency
      else 0
    case Write(_, auto, bursts, latency) =>
      if auto then PrechargeDelay(p, a) + p.tRP
      else if b.Read? then Bursts(p, bursts - 1) + p.tCWD + p.tBURST + p.tWTR + latency
      else if b.Write? then Bursts(p, bursts) + latency
      else if b.Precharge? then PrechargeDelay(p, a)
      else 0
    case Precharge(_) => if b.Activate? || b.Refresh? then PrechargeTime(p, a) else 0
    case Refresh => if b.Activate? || b.Refresh? then p.tRFC else 0
  }

  /** The registers hold `b` back for as long as `a`, issued at `time`, requires. */
  predicate Waits(p: Params, a: Command, time: nat, b: Command, r: Registers)
    requires Sane(p) && WellFormed(a)
  {
    MinGap(p, a, b) == 0 || time + MinGap(p, a, b) <= Ready(r, b)
  }

  lemma AcceptWaits(p: Params, r: Registers, now: nat, a: Command, b: Command)
    requires Sane(p) && WellFormed(a)
    ensures Waits(p, a, now, b, Accept(p, r, now, a))
    ensures Ready(r, b) <= Ready(Accept(p, r, now, a), b)
  {
  }

  /** And no longer: a later command is ready as soon as the registers before and its gap allow. Behind an
      implicit precharge everything also waits for a pending activation time. */
  lemma AcceptExact(p: Params, r: Registers, now: nat, a: Command, b: Command)
    requires Sane(p) && WellFormed(a)
    ensures var before := if (a.Read? || a.Write?) && a.auto then Max(r.nextActivate, Ready(r, b)) else Ready(r, b);
      Max(now, Ready(Accept(p, r, now, a), b)) == Max(now, Max(before, now + MinGap(p, a, b)))
  {
    match a {
      case Activate(_) =>
      case Read(_, _, _, _) =>
      case Write(_, _, _, _) =>
      case Precharge(_) =>
      case Refresh =>
    }
  }

  /** The least numbers of cycles in full, from each command to each later one. */
  lemma MinGapIs(p: Params, a: Command, b: Command)
    requires Sane(p) && WellFormed(a)
    ensures var slot := Max(p.tBURST, p.tCCD);
      var access := b.Read? || b.Write?;
      MinGap(p, a, b) ==
        match a
        case Activate(_) =>
          if access then p.tRCD - p.tAL else if b.Precharge? then Max(p.tRCD, p.tRAS) else 0
        case Read(_, auto, n, latency) =>
          if auto then slot * (n - 1) + p.tAL + p.tRTP + latency + p.tRP
          else if b.Read? then slot * n
          else if b.Write? then slot * (n - 1) + p.tCAS + p.tBURST + p.tRTRS - p.tCWD + latency
          else if b.Precharge? then slot * (n - 1) + p.tAL + p.tBURST + p.tRTP - p.tCCD + latency
          else 0
        case Write(_, auto, n, latency) =>
          if auto then slot * (n - 1) + p.tAL + p.tCWD + p.tBURST + latency + p.tWR + p.tRP
          else if b.Read? then slot * (n - 1) + p.tCWD + p.tBURST + p.tWTR + latency
          else if b.Write? then slot * n + latency
          else if b.Precharge? then slot * (n - 1) + p.tAL + p.tCWD + p.tBURST + latency + p.tWR
          else 0
        case Precharge(hold) => if b.Activate? || b.Refresh? then Max(1, p.tRP + hold) else 0
        case Refresh => if b.Activate? || b.Refresh? then p.tRFC else 0
  {
    if a.Read? || a.Write? {
      BurstsIsProduct(p, a.bursts);
      BurstsIsProduct(p, a.bursts - 1);
    }
  }

  /** Powering down waits until the data of an access has been transferred and written, or the row may be closed;
      precharging and refreshing do not move it. */
  lemma PowerDownIs(p: Params, r: Registers, now: nat, c: Command)
    requires Sane(p) && WellFormed(c)
    ensures Accept(p, r, now, c).nextPowerDown ==
      match c
      case Activate(_) => Max(r.nextPowerDown, now + Max(p.tRCD, p.tRAS))
      case Read(_, _, n, latency) =>
        Max(r.nextPowerDown, now + Bursts(p, n - 1) + p.tCAS + p.tAL + p.tBURST + 1 + latency)
      case Write(_, auto, n, latency) =>
        var end := now + Bursts(p, n - 1) + p.tAL + p.tCWD + p.tBURST + latency + p.tWR;
        Max(r.nextPowerDown, Max(r.nextPrecharge, if auto then Max(r.nextActivate, end + p.tRP) else end))
      case _ => r.nextPowerDown
  {
  }

  /** With precharging on, a command is accepted exactly when nothing is under way, its time has come, and the row
      is as it needs it: open for an access, not open for an activation or a refresh. */
  lemma AcceptedIff(p: Params, d: Device, c: Command)
    requires Sane(p) && p.usePrecharge && LifeCycle(p, d)
    ensures Issuable(p, d.regs, d.now, c) <==>
      && d.pending == [] && Ready(d.regs, c) <= d.now
      && match c
         case Activate(_) => RowOf(d) == NoRow
         case Read(row, _, _, _) => RowOf(d) == Row(row)
         case Write(row, _, _, _) => RowOf(d) == Row(row)
         case Precharge(_) => true
         case Refresh => RowOf(d) == NoRow
  {
  }

  /** When what an accepted command leaves under way is due: a precharge begins once an access has ended, and takes
      `tRP`; an explicit one may take longer, and a cycle at least. */
  lemma UnderWay(p: Params, d: Device, c: Command)
    requires Sane(p) && p.usePrecharge && LifeCycle(p, d) && Enabled(p, d, Issue(c))
    ensures Take(p, d, Issue(c)).pending ==
      match c
      case Activate(_) => []
      case Read(_, auto, n, latency) =>
        if auto then [BeginPrecharge(d.now + Bursts(p, n - 1) + p.tAL + p.tRTP + latency)] else []
      case Write(_, auto, n, latency) =>
        if auto then [BeginPrecharge(d.now + Bursts(p, n - 1) + p.tAL + p.tCWD + p.tBURST + latency + p.tWR)] else []
      case Precharge(hold) => [EndPrecharge(d.now + Max(1, p.tRP + hold))]
      case Refresh => [EndRefresh(d.now + p.tRFC)]
  {
    if d.pending != [] { BusyRejects(p, d, c); }
  }

  /** Every command so far holds back later ones for as long as it has to. */
  ghost predicate HoldsBack(p: Params, d: Device)
    requires Sane(p)
  {
    forall k :: 0 <= k < |d.log| ==>
      && WellFormed(d.log[k].command) && d.log[k].time <= d.now
      && forall b: Command :: Waits(p, d.log[k].command, d.log[k].time, b, d.regs)
  }

  ghost predicate Spaced(p: Params, log: seq<Entry>)
    requires Sane(p)
  {
    && (forall k :: 0 <= k < |log| ==> WellFormed(log[k].command))
    && (forall i, j :: 0 <= i < j < |log| ==>
          log[i].time + MinGap(p, log[i].command, log[j].command) <= log[j].time)
  }

  lemma TakeSpaced(p: Params, d: Device, s: Step)
    requires Sane(p) && HoldsBack(p, d) && Spaced(p, d.log) && Enabled(p, d, s)
    ensures HoldsBack(p, Take(p, d, s)) && Spaced(p, Take(p, d, s).log)
  {
    var e := Take(p, d, s);
    match s {
      case Issue(c) =>
        forall k | 0 <= k < |e.log|
          ensures WellFormed(e.log[k].command) && e.log[k].time <= e.now
          ensures forall b: Command :: Waits(p, e.log[k].command, e.log[k].time, b, e.regs)
        {
          forall b: Command ensures Waits(p, e.log[k].command, e.log[k].time, b, e.regs) {
            AcceptWaits(p, d.regs, d.now, c, b);
            if k < |d.log| { assert Waits(p, d.log[k].command, d.log[k].time, b, d.regs); }
          }
        }
        forall i | 0 <= i < |d.log| ensures d.log[i].time + MinGap(p, d.log[i].command, c) <= d.now {
          assert Waits(p, d.log[i].command, d.log[i].time, c, d.regs);
        }
      case Deliver(i) =>
        forall k, b: Command | 0 <= k < |e.log| ensures Waits(p, e.log[k].command, e.log[k].time, b, e.regs) {
          assert Waits(p, d.log[k].command, d.log[k].time, b, d.regs);
        }
      case Tick =>
        forall k, b: Command | 0 <= k < |e.log| ensures Waits(p, e.log[k].command, e.log[k].time, b, e.regs) {
          assert Waits(p, d.log[k].command, d.log[k].time, b, d.regs);
        }
    }
  }

  // ----- which commands close a row -----

  predicate Closes(c: Command) {
    c.Precharge? || (c.Read? && c.auto) || (c.Write? && c.auto)
  }

  /** Whether the log ends with a row open. */
  predicate RowOpen(log: seq<Entry>) {
    log != [] &&
    (var c := log[|log| - 1].command;
     c.Activate? || (!Closes(c) && RowOpen(log[..|log| - 1])))
  }

  ghost predicate RowKnown(d: Device) {
    RowOpen(d.log) <==> d.regs.state == OPEN && d.pending == []
  }

  lemma TakeRowKnown(p: Params, d: Device, s: Step)
    requires Sane(p) && p.usePrecharge && LifeCycle(p, d) && RowKnown(d) && Enabled(p, d, s)
    ensures RowKnown(Take(p, d, s))
  {
  }

  /** Every activation finds the row closed. */
  ghost predicate Alternates(log: seq<Entry>) {
    forall j :: 0 <= j < |log| && log[j].command.Activate? ==> !RowOpen(log[..j])
  }

  lemma TakeAlternates(p: Params, d: Device, s: Step)
    requires Sane(p) && p.usePrecharge && RowKnown(d) && Alternates(d.log) && Enabled(p, d, s)
    ensures Alternates(Take(p, d, s).log)
  {
    var log := Take(p, d, s).log;
    forall j | 0 <= j < |log| && log[j].command.Activate? ensures !RowOpen(log[..j]) {
      if s.Issue? {
        assert j < |d.log| ==> log[..j] == d.log[..j] && log[j] == d.log[j];
        assert log[..|d.log|] == d.log;
      }
    }
  }

  /** A row opened at `i` and found closed at `j` has been closed in between. */
  lemma {:induction false} ClosedBetween(log: seq<Entry>, i: nat, j: nat) returns (k: nat)
    requires i < j <= |log| && log[i].command.Activate? && !RowOpen(log[..j])
    ensures i < k < j && Closes(log[k].command)
    decreases j
  {
    assert log[..j][..j - 1] == log[..j - 1];
    if Closes(log[j - 1].command) {
      k := j - 1;
    } else {
      k := ClosedBetween(log, i, j - 1);
    }
  }

  // ----- the theorems -----

  ghost predicate Invariant(p: Params, d: Device)
    requires Sane(p)
  {
    LifeCycle(p, d) && HoldsBack(p, d) && Spaced(p, d.log) && RowKnown(d) && Alternates(d.log)
  }

  lemma {:induction false} RunKeeps(p: Params, d: Device, steps: seq<Step>)
    requires Sane(p) && p.usePrecharge && Invariant(p, d) && CanRun(p, d, steps)
    ensures Invariant(p, Run(p, d, steps))
    decreases |steps|
  {
    if steps != [] {
      TakeLifeCycle(p, d, steps[0]);
      TakeSpaced(p, d, steps[0]);
      TakeRowKnown(p, d, steps[0]);
      TakeAlternates(p, d, steps[0]);
      RunKeeps(p, Take(p, d, steps[0]), steps[1..]);
    }
  }

  /** In every reachable state the life cycle holds and all commands so far are spaced as required. */
  lemma Reachable(p: Params, steps: seq<Step>)
    requires Sane(p) && p.usePrecharge && CanRun(p, Initial(p), steps)
    ensures Invariant(p, Run(p, Initial(p), steps))
  {
    RunKeeps(p, Initial(p), steps);
  }

  /** Two activations are separated by a command that closes the row, and by the time it imposes. */
  lemma RowCycle(p: Params, steps: seq<Step>, i: nat, j: nat) returns (k: nat)
    requires Sane(p) && p.usePrecharge && CanRun(p, Initial(p), steps)
    requires var log := Run(p, Initial(p), steps).log;
      i < j < |log| && log[i].command.Activate? && log[j].command.Activate?
    ensures var log := Run(p, Initial(p), steps).log;
      && i < k < j && Closes(log[k].command)
      && (var c := log[k].command;
          log[j].time - log[i].time >=
            if c.Precharge? then Max(p.tRCD, p.tRAS) + Max(1, p.tRP)
            else if c.Read? then p.tRCD + p.tRTP + p.tRP
            else p.tRCD + p.tCWD + p.tBURST + c.latency + p.tWR + p.tRP)
  {
    Reachable(p, steps);
    var log := Run(p, Initial(p), steps).log;
    k := ClosedBetween(log, i, j);
    var a, c := log[i], log[k];
    assert a.time + MinGap(p, a.command, c.command) <= c.time;
    assert c.time + MinGap(p, c.command, log[j].command) <= log[j].time;
  }

  // ----- an implicit precharge does not wait for tRAS -----

  /** All runs keep the full row cycle on the path through a read with an implicit precharge. */
  ghost predicate RowCycleKept(p: Params)
    requires Sane(p)
  {
    forall steps: seq<Step>, i: nat, k: nat, j: nat :: CanRun(p, Initial(p), steps) ==>
      var log := Run(p, Initial(p), steps).log;
      i < k < j < |log| && log[i].command.Activate? && log[j].command.Activate?
        && log[k].command.Read? && log[k].command.auto
      ==> log[j].time - log[i].time >= p.tRAS + p.tRP
  }

  function Ticks(n: nat): (r: seq<Step>) {
    if n == 0 then [] else [Tick] + Ticks(n - 1)
  }

  lemma {:induction false} TicksRun(p: Params, d: Device, n: nat)
    requires Sane(p) && forall i :: 0 <= i < |d.pending| ==> d.pending[i].at >= d.now + n
    ensures CanRun(p, d, Ticks(n)) && Run(p, d, Ticks(n)) == d.(now := d.now + n)
    decreases n
  {
    if n > 0 {
      TicksRun(p, d.(now := d.now + 1), n - 1);
      assert Ticks(n)[1..] == Ticks(n - 1);
    }
  }

  lemma {:induction false} RunAppend(p: Params, d: Device, a: seq<Step>, b: seq<Step>)
    requires Sane(p) && CanRun(p, d, a) && CanRun(p, Run(p, d, a), b)
    ensures CanRun(p, d, a + b) && Run(p, d, a + b) == Run(p, Run(p, d, a), b)
    decreases |a|
  {
    if a == [] {
      assert a + b == b;
    } else {
      assert (a + b)[1..] == a[1..] + b;
      RunAppend(p, Take(p, d, a[0]), a[1..], b);
    }
  }

  /** The fastest way through: open, read with implicit precharge, open again. */
  lemma FastestRowCycle(p: Params) returns (steps: seq<Step>)
    requires Sane(p)
    ensures CanRun(p, Initial(p), steps)
    ensures var log := Run(p, Initial(p), steps).log;
      && |log| == 3 && log[0] == Entry(Activate(0), 0)
      && log[1].command == Read(0, true, 1, 0)
      && log[2] == Entry(Activate(0), p.tRCD + p.tRTP + p.tRP)
  {
    var d0 := Initial(p);
    var read := Read(0, true, 1, 0);
    var d1 := Take(p, d0, Issue(Activate(0)));
    steps := One(p, d0, Issue(Activate(0)));
    steps := Wait(p, d0, steps, d1, p.tRCD - p.tAL);
    var d2 := d1.(now := p.tRCD - p.tAL);
    steps := Extend(p, d0, steps, d2, Issue(read));
    var d3 := Take(p, d2, Issue(read));
    steps := Precharged(p, d0, steps, d3);
    var d4 := Run(p, d0, steps);
    steps := Extend(p, d0, steps, d4, Issue(Activate(0)));
  }

  /** Waiting out an implicit precharge. */
  lemma Precharged(p: Params, d: Device, steps: seq<Step>, e: Device) returns (more: seq<Step>)
    requires Sane(p) && CanRun(p, d, steps) && Run(p, d, steps) == e
    requires |e.pending| == 1 && e.pending[0].BeginPrecharge? && e.pending[0].at >= e.now
    ensures CanRun(p, d, more)
    ensures Run(p, d, more) ==
      e.(regs := e.regs.(state := CLOSED, openRow := p.rows), now := e.pending[0].at + p.tRP, pending := [])
  {
    var begin := e.pending[0].at;
    more := Wait(p, d, steps, e, begin - e.now);
    var f := e.(now := begin);
    more := Extend(p, d, more, f, Deliver(0));
    var g := Take(p, f, Deliver(0));
    assert g.pending == [EndPrecharge(begin + p.tRP)];
    more := Wait(p, d, more, g, p.tRP);
    var h := g.(now := begin + p.tRP);
    more := Extend(p, d, more, h, Deliver(0));
    assert Take(p, h, Deliver(0)).pending == [];
  }

  lemma One(p: Params, d: Device, s: Step) returns (steps: seq<Step>)
    requires Sane(p) && Enabled(p, d, s)
    ensures CanRun(p, d, steps) && Run(p, d, steps) == Take(p, d, s)
  {
    steps := [s];
    assert CanRun(p, Take(p, d, s), []);
  }

  lemma Extend(p: Params, d: Device, steps: seq<Step>, e: Device, s: Step) returns (more: seq<Step>)
    requires Sane(p) && CanRun(p, d, steps) && Run(p, d, steps) == e && Enabled(p, e, s)
    ensures CanRun(p, d, more) && Run(p, d, more) == Take(p, e, s)
  {
    var last := One(p, e, s);
    RunAppend(p, d, steps, last);
    more := steps + last;
  }

  lemma Wait(p: Params, d: Device, steps: seq<Step>, e: Device, n: nat) returns (more: seq<Step>)
    requires Sane(p) && CanRun(p, d, steps) && Run(p, d, steps) == e
    requires forall i :: 0 <= i < |e.pending| ==> e.pending[i].at >= e.now + n
    ensures CanRun(p, d, more) && Run(p, d, more) == e.(now := e.now + n)
  {
    TicksRun(p, e, n);
    RunAppend(p, d, steps, Ticks(n));
    more := steps + Ticks(n);
  }

  /** That path keeps the row cycle of an explicit precharge in every run exactly when reading cannot end
      before the row may be closed. */
  lemma RowCycleKeptIff(p: Params)
    requires Sane(p) && p.usePrecharge
    ensures RowCycleKept(p) <==> p.tRAS <= p.tRCD + p.tRTP
  {
    if p.tRAS <= p.tRCD + p.tRTP {
      forall steps: seq<Step>, i: nat, k: nat, j: nat | CanRun(p, Initial(p), steps)
        ensures var log := Run(p, Initial(p), steps).log;
          i < k < j < |log| && log[i].command.Activate? && log[j].command.Activate?
            && log[k].command.Read? && log[k].command.auto
          ==> log[j].time - log[i].time >= p.tRAS + p.tRP
      {
        Reachable(p, steps);
        var log := Run(p, Initial(p), steps).log;
        if i < k < j < |log| && log[i].command.Activate? && log[j].command.Activate?
          && log[k].command.Read? && log[k].command.auto {
          assert log[i].time + MinGap(p, log[i].command, log[k].command) <= log[k].time;
          assert log[k].time + MinGap(p, log[k].command, log[j].command) <= log[j].time;
        }
      }
    } else {
      var steps := FastestRowCycle(p);
      assert 0 < 1 < 2 < |Run(p, Initial(p), steps).log|;
    }
  }

  // ----- the row as the memory controller sees it -----

  datatype RowState = NoRow | Row(row: nat)

  /** The row that can be read or written, now or once timing allows. */
  function RowOf(d: Device): (r: RowState) {
    if d.regs.state == OPEN && d.pending == [] then Row(d.regs.openRow) else NoRow
  }

  /** An accepted command is legal for the row it finds and changes the row as its type says; nothing
      else changes it. */
  lemma TakeRow(p: Params, d: Device, s: Step)
    requires Sane(p) && p.usePrecharge && LifeCycle(p, d) && Enabled(p, d, s)
    ensures var r := RowOf(Take(p, d, s));
      if s.Issue? then
        match s.command
        case Activate(row) => RowOf(d) == NoRow && r == Row(row)
        case Read(row, auto, _, _) => RowOf(d) == Row(row) && r == if auto then NoRow else Row(row)
        case Write(row, auto, _, _) => RowOf(d) == Row(row) && r == if auto then NoRow else Row(row)
        case Precharge(_) => r == NoRow
        case Refresh => RowOf(d) == NoRow && r == NoRow
      else r == RowOf(d)
  {
  }
}
