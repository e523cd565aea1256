/** What the memory controller remembers of a bank, and how it turns a transaction or a refresh into
    commands. The record anticipates the commands still waiting in the bank's queue. */
module BankShadows {
  import opened SubArrayTiming

  /** There are `groups` groups of `banksPerRefresh` banks in a rank. `threshold` is the number of refresh
      pulses that have to be owed before a group is refreshed, and `starvation` the number of row hits
      after which another row may be served. */
  datatype Config = Config(
    ranks: nat, banks: nat, subarrays: nat, rows: nat, rbSize: nat, groups: nat, banksPerRefresh: nat,
    threshold: nat, starvation: nat, closePage: nat, scheme: nat, usePrecharge: bool)

  datatype Address = Address(rank: nat, bank: nat, row: nat, col: nat, subarray: nat)

  /** A transaction; `last` marks it as the last one to use its row for now. */
  datatype Transaction = Transaction(id: nat, address: Address, arrival: nat, last: bool)

  /** The commands to one bank. An `Access` reads or writes for a transaction. */
  datatype Command =
    | Act(subarray: nat, row: nat)
    | Pre(subarray: nat)
    | PreAll
    | Access(subarray: nat, row: nat, auto: bool, id: nat)
    | Ref

  /** What is known of a subarray: whether it is active, its effective row and the part of that row at the
      sense amplifiers, and the row hits it has served. */
  datatype Sub = Sub(active: bool, row: nat, muxed: nat, starvation: nat)

  datatype Bank = Bank(activateQueued: bool, needRefresh: bool, refreshQueued: bool, subarrays: seq<Sub>)

  predicate Proper(cfg: Config) {
    cfg.rbSize > 0
  }

  predicate Fits(cfg: Config, a: Address) {
    a.rank < cfg.ranks && a.bank < cfg.banks && a.subarray < cfg.subarrays && a.row < cfg.rows
  }

  function Mux(cfg: Config, a: Address): (r: nat)
    requires Proper(cfg)
  {
    a.col / cfg.rbSize
  }

  // ----- serving a transaction -----

  /** Whether the transaction finds its row in the row buffer. */
  predicate Hit(cfg: Config, b: Bank, a: Address)
    requires Proper(cfg) && a.subarray < |b.subarrays|
  {
    var s := b.subarrays[a.subarray];
    s.active && s.row == a.row && s.muxed == Mux(cfg, a)
  }

  datatype Case = OpenBank | Miss | RowHit | Refused

  function CaseOf(cfg: Config, b: Bank, empty: bool, a: Address): (r: Case)
    requires Proper(cfg) && a.subarray < |b.subarrays|
  {
    if !b.activateQueued && empty then OpenBank
    else if b.activateQueued && !Hit(cfg, b, a) && empty then Miss
    else if b.activateQueued && Hit(cfg, b, a) then RowHit
    else Refused
  }

  /** Whether the row is closed along with the access. */
  predicate Closing(cfg: Config, t: Transaction) {
    t.last && cfg.usePrecharge
  }

  /** The commands queued for a transaction. On a row miss the mark of the last transaction is ignored. */
  function Commands(cfg: Config, b: Bank, k: Case, t: Transaction): (r: seq<Command>)
    requires Proper(cfg) && t.address.subarray < |b.subarrays|
  {
    var a := t.address;
    match k
    case OpenBank => [Act(a.subarray, a.row), Access(a.subarray, a.row, Closing(cfg, t), t.id)]
    case Miss =>
      (if b.subarrays[a.subarray].active && cfg.usePrecharge then [Pre(a.subarray)] else [])
      + [Act(a.subarray, a.row), Access(a.subarray, a.row, false, t.id)]
    case RowHit => [Access(a.subarray, a.row, Closing(cfg, t), t.id)]
    case Refused => []
  }

  function Closed(cfg: Config, s: Sub): (r: Sub) {
    s.(active := false, row := cfg.rows, muxed := cfg.rows)
  }

  predicate SomeActive(subarrays: seq<Sub>) {
    exists i :: 0 <= i < |subarrays| && subarrays[i].active
  }

  function Served(cfg: Config, b: Bank, k: Case, t: Transaction): (r: Bank)
    requires Proper(cfg) && t.address.subarray < |b.subarrays|
  {
    var a := t.address;
    var s := b.subarrays[a.subarray];
    var open := Sub(true, a.row, Mux(cfg, a), 0);
    match k
    case OpenBank =>
      var n := if Closing(cfg, t) then Closed(cfg, open) else open;
      b.(activateQueued := !Closing(cfg, t), subarrays := b.subarrays[a.subarray := n])
    case Miss => b.(subarrays := b.subarrays[a.subarray := open])
    case RowHit =>
      var h := s.(starvation := s.starvation + 1);
      if Closing(cfg, t) then
        var subs := b.subarrays[a.subarray := Closed(cfg, h)];
        b.(subarrays := subs, activateQueued := SomeActive(subs))
      else b.(subarrays := b.subarrays[a.subarray := h])
    case Refused => b
  }

  // ----- choosing a transaction -----

  /** The ways to choose the next transaction. */
  datatype Selector = Starved | RowBufferHit | OldestReady | ClosedBank

  /** Whether a transaction can be chosen: its queue is empty, its bank is not about to be refreshed, it did
      not arrive in this very cycle, and the bank's state is what is looked for. */
  predicate Selects(cfg: Config, sel: Selector, b: Bank, empty: bool, t: Transaction, now: nat)
    requires Proper(cfg) && t.address.subarray < |b.subarrays|
  {
    && empty && !b.needRefresh && !b.refreshQueued && t.arrival != now
    && match sel
       case Starved =>
         b.activateQueued && !Hit(cfg, b, t.address)
         && b.subarrays[t.address.subarray].starvation >= cfg.starvation
       case RowBufferHit => b.activateQueued && Hit(cfg, b, t.address)
       case OldestReady => b.activateQueued
       case ClosedBank => !b.activateQueued
  }

  predicate SameRow(t: Transaction, u: Transaction) {
    var a, b := t.address, u.address;
    a.rank == b.rank && a.bank == b.bank && a.row == b.row && a.subarray == b.subarray
  }

  /** Whether a transaction is the last one for its row, going by the page policy and what else waits. */
  predicate IsLast(cfg: Config, waiting: seq<Transaction>, t: Transaction) {
    if cfg.closePage == 0 then false
    else cfg.closePage == 1 ==> forall i :: 0 <= i < |waiting| ==> !SameRow(waiting[i], t)
  }

  function Accesses(cs: seq<Command>, id: nat): (r: nat) {
    if cs == [] then 0 else (if cs[0].Access? && cs[0].id == id then 1 else 0) + Accesses(cs[1..], id)
  }

  lemma TwoAccesses(c: Command, e: Command, id: nat)
    ensures Accesses([c, e], id) == Accesses([c], id) + Accesses([e], id)
  {
  }

  /** A chosen transaction is never refused: exactly one access is queued for it, as the last command, and
      none for any other transaction. */
  lemma ChosenIsServed(cfg: Config, sel: Selector, b: Bank, t: Transaction, now: nat, id: nat)
    requires Proper(cfg) && t.address.subarray < |b.subarrays| && Selects(cfg, sel, b, true, t, now)
    ensures var k := CaseOf(cfg, b, true, t.address);
      var cs := Commands(cfg, b, k, t);
      && !k.Refused? && cs != [] && cs[|cs| - 1].Access? && cs[|cs| - 1].id == t.id
      && Accesses(cs, id) == if id == t.id then 1 else 0
  {
    var k := CaseOf(cfg, b, true, t.address);
    var cs := Commands(cfg, b, k, t);
    match k {
      case OpenBank => TwoAccesses(cs[0], cs[1], id);
      case Miss =>
        if |cs| == 3 {
          assert cs[1..] == [cs[1], cs[2]];
          TwoAccesses(cs[1], cs[2], id);
        } else {
          assert cs == [cs[0], cs[1]];
          TwoAccesses(cs[0], cs[1], id);
        }
      case RowHit => assert cs[1..] == [];
      case Refused =>
    }
  }

  // ----- preparing a refresh -----

  /** The command that closes all subarrays before a refresh, if any is active. */
  function PrechargeCommands(cfg: Config, b: Bank): (r: seq<Command>) {
    if b.activateQueued && cfg.usePrecharge then [PreAll] else []
  }

  function AllClosed(cfg: Config, subarrays: seq<Sub>): (r: seq<Sub>)
    ensures |r| == |subarrays|
    ensures forall i :: 0 <= i < |r| ==> r[i] == Closed(cfg, subarrays[i])
  {
    if subarrays == [] then []
    else AllClosed(cfg, subarrays[..|subarrays| - 1]) + [Closed(cfg, subarrays[|subarrays| - 1])]
  }

  function Precharged(cfg: Config, b: Bank): (r: Bank) {
    if b.activateQueued && cfg.usePrecharge
    then b.(activateQueued := false, subarrays := AllClosed(cfg, b.subarrays)) else b
  }

  // ----- the device -----

  /** The rows of a bank's subarrays after a command, if the device can take it. */
  datatype Rows = Rows(rows: seq<RowState>) | Illegal

  predicate NoneOpen(rows: seq<RowState>) {
    forall i :: 0 <= i < |rows| ==> rows[i] == NoRow
  }

  function Step(cfg: Config, d: seq<RowState>, c: Command): (r: Rows) {
    match c
    case Act(s, row) =>
      if s < |d| && (cfg.usePrecharge ==> d[s] == NoRow) then Rows(d[s := Row(row)]) else Illegal
    case Pre(s) => if s < |d| then Rows(d[s := NoRow]) else Illegal
    case PreAll => Rows(seq(|d|, i => NoRow))
    case Access(s, row, auto, _) =>
      if s < |d| && d[s] == Row(row) then Rows(if auto then d[s := NoRow] else d) else Illegal
    case Ref => if NoneOpen(d) then Rows(d) else Illegal
  }

  /** The rows once the queue has drained. */
  function Replay(cfg: Config, d: seq<RowState>, queue: seq<Command>): (r: Rows)
    decreases |queue|
  {
    if queue == [] then Rows(d)
    else
      match Step(cfg, d, queue[0])
      case Rows(e) => Replay(cfg, e, queue[1..])
      case Illegal => Illegal
  }

  lemma {:induction false} ReplayAppend(cfg: Config, d: seq<RowState>, queue: seq<Command>, more: seq<Command>)
    requires Replay(cfg, d, queue).Rows?
    ensures Replay(cfg, d, queue + more) == Replay(cfg, Replay(cfg, d, queue).rows, more)
    decreases |queue|
  {
    if queue == [] {
      assert queue + more == more;
    } else {
      assert (queue + more)[1..] == queue[1..] + more;
      ReplayAppend(cfg, Step(cfg, d, queue[0]).rows, queue[1..], more);
    }
  }

  // ----- coherence -----

  function RowOfSub(s: Sub): (r: RowState) {
    if s.active then Row(s.row) else NoRow
  }

  /** The record agrees with what the device will be in once the queue has drained, and the queue meets no
      illegal command on the way. */
  ghost predicate Coherent(cfg: Config, b: Bank, queue: seq<Command>, d: seq<RowState>) {
    && |b.subarrays| == |d|
    && (var r := Replay(cfg, d, queue);
        r.Rows? && |r.rows| == |d| && forall i :: 0 <= i < |d| ==> r.rows[i] == RowOfSub(b.subarrays[i]))
  }

  /** The flags agree with one another; "no row" is recorded exactly for inactive subarrays. */
  ghost predicate Consistent(cfg: Config, b: Bank) {
    && |b.subarrays| == cfg.subarrays
    && (b.activateQueued <==> SomeActive(b.subarrays))
    && (forall i :: 0 <= i < |b.subarrays| ==> (b.subarrays[i].row == cfg.rows <==> !b.subarrays[i].active))
  }

  lemma ServedConsistent(cfg: Config, b: Bank, empty: bool, t: Transaction)
    requires Proper(cfg) && Consistent(cfg, b) && Fits(cfg, t.address)
    ensures Consistent(cfg, Served(cfg, b, CaseOf(cfg, b, empty, t.address), t))
  {
    var k, s := CaseOf(cfg, b, empty, t.address), t.address.subarray;
    var c := Served(cfg, b, k, t);
    if c.activateQueued && !k.Refused? {
      if k.RowHit? && Closing(cfg, t) {} else { assert c.subarrays[s].active; }
    }
  }

  /** Serving a transaction keeps the record coherent, in each of the three cases. */
  lemma ServedCoherent(cfg: Config, b: Bank, empty: bool, t: Transaction, queue: seq<Command>, d: seq<RowState>)
    requires Proper(cfg) && Consistent(cfg, b) && Fits(cfg, t.address) && Coherent(cfg, b, queue, d)
    ensures var k := CaseOf(cfg, b, empty, t.address);
      Coherent(cfg, Served(cfg, b, k, t), queue + Commands(cfg, b, k, t), d)
  {
    var k := CaseOf(cfg, b, empty, t.address);
    var more := Commands(cfg, b, k, t);
    ReplayAppend(cfg, d, queue, more);
    ServedReplay(cfg, b, empty, t, Replay(cfg, d, queue).rows);
  }

  lemma ServedReplay(cfg: Config, b: Bank, empty: bool, t: Transaction, e: seq<RowState>)
    requires Proper(cfg) && Consistent(cfg, b) && Fits(cfg, t.address) && Coherent(cfg, b, [], e)
    ensures var k := CaseOf(cfg, b, empty, t.address);
      Coherent(cfg, Served(cfg, b, k, t), Commands(cfg, b, k, t), e)
  {
    var k, a := CaseOf(cfg, b, empty, t.address), t.address;
    var more := Commands(cfg, b, k, t);
    match k {
      case OpenBank =>
        assert !b.subarrays[a.subarray].active;
        ReplayTwo(cfg, e, more[0], more[1]);
        assert more == [more[0], more[1]];
      case Miss =>
        if b.subarrays[a.subarray].active && cfg.usePrecharge {
          var f := e[a.subarray := NoRow];
          ReplayTwo(cfg, f, more[1], more[2]);
          assert more[1..] == [more[1], more[2]];
        } else {
          ReplayTwo(cfg, e, more[0], more[1]);
          assert more == [more[0], more[1]];
        }
      case RowHit =>
        ReplayOne(cfg, e, more[0]);
        assert more == [more[0]];
      case Refused =>
    }
  }

  lemma ReplayOne(cfg: Config, d: seq<RowState>, c: Command)
    ensures Replay(cfg, d, [c]) == Step(cfg, d, c)
  {
  }

  lemma ReplayTwo(cfg: Config, d: seq<RowState>, c: Command, e: Command)
    requires Step(cfg, d, c).Rows?
    ensures Replay(cfg, d, [c, e]) == Step(cfg, Step(cfg, d, c).rows, e)
  {
    assert [c, e][1..] == [e];
    ReplayOne(cfg, Step(cfg, d, c).rows, e);
  }

  lemma PrechargedConsistent(cfg: Config, b: Bank)
    requires Consistent(cfg, b)
    ensures Consistent(cfg, Precharged(cfg, b))
    ensures cfg.usePrecharge ==> !Precharged(cfg, b).activateQueued
  {
  }

  lemma PrechargedCoherent(cfg: Config, b: Bank, queue: seq<Command>, d: seq<RowState>)
    requires Coherent(cfg, b, queue, d)
    ensures Coherent(cfg, Precharged(cfg, b), queue + PrechargeCommands(cfg, b), d)
  {
    var cs := PrechargeCommands(cfg, b);
    ReplayAppend(cfg, d, queue, cs);
    if cs != [] { ReplayOne(cfg, Replay(cfg, d, queue).rows, PreAll); }
  }

  /** A refresh queued behind everything else finds the bank closed if the record says so. */
  lemma RefreshCoherent(cfg: Config, b: Bank, queue: seq<Command>, d: seq<RowState>)
    requires Consistent(cfg, b) && !b.activateQueued && Coherent(cfg, b, queue, d)
    ensures Coherent(cfg, b, queue + [Ref], d)
  {
    ReplayAppend(cfg, d, queue, [Ref]);
    assert NoneOpen(Replay(cfg, d, queue).rows);
    ReplayOne(cfg, Replay(cfg, d, queue).rows, Ref);
  }

  /** When the head of the queue is issued, the device takes it, and coherence is with the rest. */
  lemma IssuedCoherent(cfg: Config, b: Bank, queue: seq<Command>, d: seq<RowState>)
    requires Coherent(cfg, b, queue, d) && queue != []
    ensures Step(cfg, d, queue[0]).Rows?
    ensures |Step(cfg, d, queue[0]).rows| == |d| && Coherent(cfg, b, queue[1..], Step(cfg, d, queue[0]).rows)
  {
  }

  // ----- closed-page management -----

  /** With the restricted closed-page policy every transaction is the last one for its row. */
  lemma ClosedPageStaysClosed(cfg: Config, b: Bank, empty: bool, t: Transaction)
    requires Proper(cfg) && Consistent(cfg, b) && Fits(cfg, t.address)
    requires cfg.usePrecharge && t.last && !b.activateQueued
    ensures var k := CaseOf(cfg, b, empty, t.address); !k.RowHit? && !Served(cfg, b, k, t).activateQueued
  {
  }

  /** A transaction that is to close its row leaves it open exactly when it found another row in an active
      bank: on that path the access is queued without closing. */
  lemma LeftOpenIff(cfg: Config, b: Bank, empty: bool, t: Transaction)
    requires Proper(cfg) && t.address.subarray < |b.subarrays| && Closing(cfg, t)
    requires !CaseOf(cfg, b, empty, t.address).Refused?
    ensures var s := Served(cfg, b, CaseOf(cfg, b, empty, t.address), t).subarrays[t.address.subarray];
      && (s.active <==> b.activateQueued && !Hit(cfg, b, t.address))
      && (s.active ==> s.row == t.address.row)
  {
  }

  // ----- the subarray device -----

  /** A command of the controller, as a subarray receives it. */
  predicate Carries(c: Command, dc: SubArrayTiming.Command) {
    match c
    case Act(_, row) => dc == Activate(row)
    case Pre(_) => dc.Precharge?
    case PreAll => dc.Precharge?
    case Access(_, row, auto, _) => (dc.Read? || dc.Write?) && dc.row == row && dc.auto == auto
    case Ref => dc.Refresh?
  }

  predicate Concerns(c: Command, s: nat) {
    c.PreAll? || c.Ref? || c.subarray == s
  }

  /** What a subarray accepts is legal in the replay, and has the same effect on its row. */
  lemma DeviceAgrees(cfg: Config, p: Params, d: Device, dc: SubArrayTiming.Command, c: Command,
                     rows: seq<RowState>, s: nat)
    requires Sane(p) && p.usePrecharge && cfg.usePrecharge && LifeCycle(p, d)
    requires SubArrayTiming.Enabled(p, d, Issue(dc)) && Carries(c, dc) && Concerns(c, s)
    requires s < |rows| && rows[s] == RowOf(d)
    ensures if c.Ref? then rows[s] == NoRow else Step(cfg, rows, c).Rows?
    ensures var r := Step(cfg, rows, c); r.Rows? ==> s < |r.rows| && r.rows[s] == RowOf(Take(p, d, Issue(dc)))
  {
  }
}
