/** The memory controller as a whole: its record of all banks, its command queues, its refresh counters, and
    the rows the device has open. What every run keeps. */
module Controllers {
  import SubArrayTiming
  import opened BankShadows
  import Q = CommandQueues
  import R = Refreshes
  import opened Arithmetic
  import opened QueueIds

  type Controls = BankShadows.Config
  type RowState = SubArrayTiming.RowState

  predicate Sound(cfg: Controls) {
    && cfg.ranks > 0 && cfg.banks > 0 && cfg.subarrays > 0 && cfg.rbSize > 0
    && cfg.groups > 0 && cfg.banksPerRefresh > 0 && cfg.banks == Times(cfg.groups, cfg.banksPerRefresh)
    && cfg.threshold > 0 && (cfg.scheme == 1 || cfg.scheme == 2)
  }

  function Queues(cfg: Controls): (r: Layout) {
    Layout(cfg.ranks, cfg.banks, cfg.subarrays, PerBank, cfg.scheme)
  }

  function Groups(cfg: Controls): (r: R.Groups) {
    R.Groups(cfg.ranks, cfg.groups, cfg.threshold)
  }

  function BankCount(cfg: Controls): (r: nat) {
    QueueCount(Queues(cfg))
  }

  // ----- banks and groups -----

  /** The number of the queue of a bank. Records and queues are both numbered this way. */
  function QueueOf(cfg: Controls, rank: nat, bank: nat): (r: nat) {
    QueueId(Queues(cfg), BankId(rank, bank, 0))
  }

  function GroupOf(cfg: Controls, x: nat): (r: nat)
    requires Sound(cfg)
  {
    var b := BankOf(Queues(cfg), x);
    R.GroupNumber(Groups(cfg), b.rank, PlaceOf(b.bank, cfg.banksPerRefresh).row)
  }

  /** Bank `i` of a group; its head is bank 0. */
  function Member(cfg: Controls, g: nat, i: nat): (r: nat)
    requires Sound(cfg)
  {
    var p := PlaceOf(g, cfg.groups);
    QueueOf(cfg, p.row, Number(Place(p.column, i), cfg.banksPerRefresh))
  }

  lemma MemberIs(cfg: Controls, g: nat, i: nat)
    requires Sound(cfg) && g < R.Count(Groups(cfg)) && i < cfg.banksPerRefresh
    ensures Member(cfg, g, i) < BankCount(cfg) && GroupOf(cfg, Member(cfg, g, i)) == g
  {
    var p := PlaceOf(g, cfg.groups);
    PlaceFits(g, cfg.groups, cfg.ranks);
    NumberOfPlace(g, cfg.groups);
    var b := Place(p.column, i);
    NumberFits(b, cfg.banksPerRefresh, cfg.groups);
    PlaceOfNumber(b, cfg.banksPerRefresh);
    BankOfQueue(Queues(cfg), BankId(p.row, Number(b, cfg.banksPerRefresh), 0));
  }

  /** Where a bank is in its group. */
  function IndexOf(cfg: Controls, x: nat): (r: nat)
    requires Sound(cfg)
  {
    PlaceOf(BankOf(Queues(cfg), x).bank, cfg.banksPerRefresh).column
  }

  lemma MemberOfGroup(cfg: Controls, x: nat)
    requires Sound(cfg) && x < BankCount(cfg)
    ensures GroupOf(cfg, x) < R.Count(Groups(cfg)) && IndexOf(cfg, x) < cfg.banksPerRefresh
    ensures Member(cfg, GroupOf(cfg, x), IndexOf(cfg, x)) == x
  {
    QueueOfBank(Queues(cfg), x);
    var b := BankOf(Queues(cfg), x);
    PlaceFits(b.bank, cfg.banksPerRefresh, cfg.groups);
    NumberOfPlace(b.bank, cfg.banksPerRefresh);
    var g := Place(b.rank, PlaceOf(b.bank, cfg.banksPerRefresh).row);
    NumberFits(g, cfg.groups, cfg.ranks);
    PlaceOfNumber(g, cfg.groups);
  }

  lemma IndexOfMember(cfg: Controls, g: nat, i: nat)
    requires Sound(cfg) && g < R.Count(Groups(cfg)) && i < cfg.banksPerRefresh
    ensures IndexOf(cfg, Member(cfg, g, i)) == i
  {
    var p := PlaceOf(g, cfg.groups);
    PlaceFits(g, cfg.groups, cfg.ranks);
    var b := Place(p.column, i);
    NumberFits(b, cfg.banksPerRefresh, cfg.groups);
    PlaceOfNumber(b, cfg.banksPerRefresh);
    BankOfQueue(Queues(cfg), BankId(p.row, Number(b, cfg.banksPerRefresh), 0));
  }

  lemma MemberIff(cfg: Controls, g: nat, i: nat, x: nat)
    requires Sound(cfg) && g < R.Count(Groups(cfg)) && i < cfg.banksPerRefresh && x < BankCount(cfg)
    ensures Member(cfg, g, i) < BankCount(cfg)
    ensures x == Member(cfg, g, i) <==> GroupOf(cfg, x) == g && IndexOf(cfg, x) == i
  {
    MemberIs(cfg, g, i);
    IndexOfMember(cfg, g, i);
    MemberOfGroup(cfg, x);
  }

  // ----- the state -----

  datatype State = State(q: Q.Queues, banks: seq<Bank>, r: R.Refresher, device: seq<seq<RowState>>)

  ghost predicate Shaped(cfg: Controls, s: State) {
    && |s.q.queues| == |s.q.pushed| == |s.banks| == |s.device| == BankCount(cfg)
    && s.q.cur <= |s.q.queues| && R.Sized(Groups(cfg), s.r)
  }

  function InitialBank(cfg: Controls): (r: Bank) {
    BankShadows.Bank(false, false, false, seq(cfg.subarrays, _ => Sub(false, cfg.rows, cfg.rows, 0)))
  }

  function Initial(cfg: Controls): (r: State) {
    State(Q.Initial(BankCount(cfg)), seq(BankCount(cfg), _ => InitialBank(cfg)), R.Initial(Groups(cfg)),
          seq(BankCount(cfg), _ => seq(cfg.subarrays, _ => SubArrayTiming.NoRow)))
  }

  /** The commands a bank's queue has still to issue. */
  function Pending(s: State, x: nat): (r: seq<Command>)
    requires x < |s.q.queues|
  {
    Q.Pending(s.q.queues[x])
  }

  // ----- flags of a group -----

  datatype Flag = NeedRefresh | RefreshQueued

  function SetFlag(b: Bank, f: Flag, v: bool): (r: Bank) {
    if f.NeedRefresh? then b.(needRefresh := v) else b.(refreshQueued := v)
  }

  /** The first `k` banks of a group get the flag. */
  function SetGroup(cfg: Controls, banks: seq<Bank>, g: nat, f: Flag, v: bool, k: nat): (r: seq<Bank>)
    requires Sound(cfg) && |banks| == BankCount(cfg) && g < R.Count(Groups(cfg)) && k <= cfg.banksPerRefresh
    ensures |r| == |banks|
  {
    if k == 0 then banks
    else
      MemberIs(cfg, g, k - 1);
      var r := SetGroup(cfg, banks, g, f, v, k - 1);
      var x := Member(cfg, g, k - 1);
      r[x := SetFlag(r[x], f, v)]
  }

  lemma {:induction false} SetGroupAt(cfg: Controls, banks: seq<Bank>, g: nat, f: Flag, v: bool, k: nat, x: nat)
    requires Sound(cfg) && |banks| == BankCount(cfg) && g < R.Count(Groups(cfg)) && k <= cfg.banksPerRefresh
    requires x < |banks|
    ensures SetGroup(cfg, banks, g, f, v, k)[x] ==
      if GroupOf(cfg, x) == g && IndexOf(cfg, x) < k then SetFlag(banks[x], f, v) else banks[x]
  {
    if k > 0 {
      MemberIs(cfg, g, k - 1);
      IndexOfMember(cfg, g, k - 1);
      MemberOfGroup(cfg, x);
      SetGroupAt(cfg, banks, g, f, v, k - 1, x);
    }
  }

  /** All of the group, and nothing else, gets the flag. */
  lemma SetGroupAll(cfg: Controls, banks: seq<Bank>, g: nat, f: Flag, v: bool, x: nat)
    requires Sound(cfg) && |banks| == BankCount(cfg) && g < R.Count(Groups(cfg)) && x < |banks|
    ensures SetGroup(cfg, banks, g, f, v, cfg.banksPerRefresh)[x] ==
      if GroupOf(cfg, x) == g then SetFlag(banks[x], f, v) else banks[x]
  {
    SetGroupAt(cfg, banks, g, f, v, cfg.banksPerRefresh, x);
    MemberOfGroup(cfg, x);
  }

  // ----- transactions -----

  function Home(cfg: Controls, a: Address): (r: nat) {
    QueueOf(cfg, a.rank, a.bank)
  }

  lemma HomeFits(cfg: Controls, a: Address)
    requires Sound(cfg) && Fits(cfg, a)
    ensures Home(cfg, a) < BankCount(cfg)
  {
    BankOfQueue(Queues(cfg), BankId(a.rank, a.bank, 0));
  }

  ghost function Transact(cfg: Controls, s: State, t: Transaction): (r: State)
    requires Sound(cfg) && Shaped(cfg, s) && Fits(cfg, t.address)
    requires forall x :: 0 <= x < |s.banks| ==> |s.banks[x].subarrays| == cfg.subarrays
  {
    HomeFits(cfg, t.address);
    var x := Home(cfg, t.address);
    var k := CaseOf(cfg, s.banks[x], s.q.queues[x] == [], t.address);
    s.(banks := s.banks[x := Served(cfg, s.banks[x], k, t)],
       q := Q.PushAll(s.q, x, Commands(cfg, s.banks[x], k, t)))
  }

  // ----- refreshes -----

  function PrechargeOne(cfg: Controls, s: State, x: nat): (r: State)
    requires x < |s.banks| == |s.q.queues| == |s.q.pushed|
  {
    s.(banks := s.banks[x := Precharged(cfg, s.banks[x])],
       q := Q.PushAll(s.q, x, PrechargeCommands(cfg, s.banks[x])))
  }

  /** The first `k` banks of a group are closed. */
  function PrechargeGroup(cfg: Controls, s: State, g: nat, k: nat): (t: State)
    requires Sound(cfg) && Shaped(cfg, s) && g < R.Count(Groups(cfg)) && k <= cfg.banksPerRefresh
    ensures Shaped(cfg, t) && t == s.(banks := t.banks, q := t.q)
  {
    if k == 0 then s else
      MemberIs(cfg, g, k - 1);
      PrechargeOne(cfg, PrechargeGroup(cfg, s, g, k - 1), Member(cfg, g, k - 1))
  }

  /** Group `g` is refreshed: its banks are closed, the refresh is queued behind that in the head's queue,
      and the flags and counters are brought up to date. */
  function QueueRefresh(cfg: Controls, s: State, g: nat): (r: State)
    requires Sound(cfg) && Shaped(cfg, s) && R.Needs(Groups(cfg), s.r.counters, g)
  {
    MemberIs(cfg, g, 0);
    var n := cfg.banksPerRefresh;
    var closed := PrechargeGroup(cfg, s, g, n);
    var flagged := SetGroup(cfg, closed.banks, g, RefreshQueued, true, n);
    var r := R.Serve(Groups(cfg), s.r, g);
    closed.(q := Q.PushAll(closed.q, Member(cfg, g, 0), [Ref]), r := r,
            banks := if R.Needs(Groups(cfg), r.counters, g) then flagged
                     else SetGroup(cfg, flagged, g, NeedRefresh, false, n))
  }

  function Pulse(cfg: Controls, s: State, g: nat): (r: State)
    requires Sound(cfg) && Shaped(cfg, s) && g < R.Count(Groups(cfg))
  {
    var r := R.Pulse(s.r, g);
    s.(r := r, banks := if R.Needs(Groups(cfg), r.counters, g)
                        then SetGroup(cfg, s.banks, g, NeedRefresh, true, cfg.banksPerRefresh) else s.banks)
  }

  // ----- issuing -----

  /** All banks of a group have a refresh queued, as asserted when that refresh is issued. */
  ghost predicate GroupFlagged(cfg: Controls, banks: seq<Bank>, g: nat)
    requires Sound(cfg) && |banks| == BankCount(cfg)
  {
    forall x :: 0 <= x < |banks| && GroupOf(cfg, x) == g ==> banks[x].refreshQueued
  }

  ghost function Moved(cfg: Controls, d: seq<RowState>, c: Command): (r: seq<RowState>) {
    var e := Step(cfg, d, c);
    if e.Rows? then e.rows else d
  }

  ghost function IssueAt(cfg: Controls, s: State, x: nat): (r: State)
    requires Sound(cfg) && Shaped(cfg, s) && x < |s.q.queues| && s.q.queues[x] != []
  {
    MemberOfGroup(cfg, x);
    var c := s.q.queues[x][0].command;
    s.(q := Q.IssueFrom(s.q, x), device := s.device[x := Moved(cfg, s.device[x], c)],
       banks := if c.Ref? then SetGroup(cfg, s.banks, GroupOf(cfg, x), RefreshQueued, false, cfg.banksPerRefresh)
                else s.banks)
  }

  // ----- the record and the device -----

  /** The record of a bank is coherent with its queue and the device. */
  ghost predicate BankOk(cfg: Controls, s: State, x: nat)
    requires x < |s.banks| == |s.device| == |s.q.queues|
  {
    Consistent(cfg, s.banks[x]) && Coherent(cfg, s.banks[x], Pending(s, x), s.device[x])
  }

  ghost predicate Tracks(cfg: Controls, s: State) {
    Sound(cfg) && Shaped(cfg, s) && Q.Disciplined(s.q) && forall x :: 0 <= x < |s.banks| ==> BankOk(cfg, s, x)
  }

  /** What a step that only touches one bank leaves of the others. */
  ghost predicate SameBut(s: State, t: State, x: nat)
    requires |s.banks| == |s.device| == |s.q.queues| == |t.banks| == |t.device| == |t.q.queues|
  {
    forall y :: 0 <= y < |s.banks| && y != x ==>
      t.banks[y] == s.banks[y] && t.device[y] == s.device[y] && t.q.queues[y] == s.q.queues[y]
  }

  lemma OthersTrack(cfg: Controls, s: State, t: State, x: nat)
    requires Tracks(cfg, s) && Shaped(cfg, t) && x < |s.banks| && SameBut(s, t, x)
    requires Q.Disciplined(t.q) && BankOk(cfg, t, x)
    ensures Tracks(cfg, t)
  {
    forall y | 0 <= y < |t.banks| ensures BankOk(cfg, t, y) {
      assert BankOk(cfg, s, y);
    }
  }

  lemma TransactTracks(cfg: Controls, s: State, t: Transaction)
    requires Tracks(cfg, s) && Fits(cfg, t.address)
    ensures SubarraysFit(cfg, s) && Tracks(cfg, Transact(cfg, s, t))
  {
    SubarraysAll(cfg, s);
    HomeFits(cfg, t.address);
    var x := Home(cfg, t.address);
    var b, empty := s.banks[x], s.q.queues[x] == [];
    var cs := Commands(cfg, b, CaseOf(cfg, b, empty, t.address), t);
    assert BankOk(cfg, s, x);
    Q.PushAllDisciplined(s.q, x, cs);
    ServedConsistent(cfg, b, empty, t);
    ServedCoherent(cfg, b, empty, t, Pending(s, x), s.device[x]);
    OthersTrack(cfg, s, Transact(cfg, s, t), x);
  }

  ghost predicate SubarraysFit(cfg: Controls, s: State) {
    forall x :: 0 <= x < |s.banks| ==> |s.banks[x].subarrays| == cfg.subarrays
  }

  lemma SubarraysAll(cfg: Controls, s: State)
    requires Tracks(cfg, s)
    ensures SubarraysFit(cfg, s)
  {
    forall x | 0 <= x < |s.banks| ensures |s.banks[x].subarrays| == cfg.subarrays {
      assert BankOk(cfg, s, x);
    }
  }

  lemma PrechargeOneTracks(cfg: Controls, s: State, x: nat)
    requires Tracks(cfg, s) && x < |s.banks|
    ensures Tracks(cfg, PrechargeOne(cfg, s, x))
    ensures Pending(PrechargeOne(cfg, s, x), x) == Pending(s, x) + PrechargeCommands(cfg, s.banks[x])
  {
    var b := s.banks[x];
    assert BankOk(cfg, s, x);
    Q.PushAllDisciplined(s.q, x, PrechargeCommands(cfg, b));
    PrechargedConsistent(cfg, b);
    PrechargedCoherent(cfg, b, Pending(s, x), s.device[x]);
    OthersTrack(cfg, s, PrechargeOne(cfg, s, x), x);
  }

  lemma NextTracks(cfg: Controls, s: State, x: nat, t: State)
    requires Tracks(cfg, s) && x < |s.banks| && t == PrechargeOne(cfg, s, x)
    ensures Tracks(cfg, t)
  {
    PrechargeOneTracks(cfg, s, x);
  }

  lemma {:induction false} PrechargeGroupTracks(cfg: Controls, s: State, g: nat, k: nat)
    requires Tracks(cfg, s) && g < R.Count(Groups(cfg)) && k <= cfg.banksPerRefresh
    ensures Tracks(cfg, PrechargeGroup(cfg, s, g, k))
  {
    if k > 0 {
      PrechargeGroupTracks(cfg, s, g, k - 1);
      MemberIs(cfg, g, k - 1);
      NextTracks(cfg, PrechargeGroup(cfg, s, g, k - 1), Member(cfg, g, k - 1), PrechargeGroup(cfg, s, g, k));
    }
  }

  lemma PrechargeOneAt(cfg: Controls, s: State, y: nat, x: nat)
    requires Tracks(cfg, s) && x < |s.banks| && y < |s.banks|
    ensures var t := PrechargeOne(cfg, s, y);
      if x == y
      then t.banks[x] == Precharged(cfg, s.banks[x])
           && Pending(t, x) == Pending(s, x) + PrechargeCommands(cfg, s.banks[x])
      else t.banks[x] == s.banks[x] && Pending(t, x) == Pending(s, x)
  {
    PrechargeOneTracks(cfg, s, y);
  }

  /** From `s` to `t` bank `x` has been closed, or left alone. */
  ghost predicate ClosedIf(cfg: Controls, s: State, t: State, x: nat, closed: bool)
    requires x < |s.banks| && x < |s.q.queues|
  {
    && x < |t.banks| && x < |t.q.queues|
    && if closed
       then t.banks[x] == Precharged(cfg, s.banks[x])
            && Pending(t, x) == Pending(s, x) + PrechargeCommands(cfg, s.banks[x])
       else t.banks[x] == s.banks[x] && Pending(t, x) == Pending(s, x)
  }

  lemma ClosedNext(cfg: Controls, s: State, t: State, y: nat, x: nat, closed: bool)
    requires x < |s.banks| && x < |s.q.queues| && ClosedIf(cfg, s, t, x, closed)
    requires Tracks(cfg, t) && y < |t.banks| && (closed ==> x != y)
    ensures ClosedIf(cfg, s, PrechargeOne(cfg, t, y), x, closed || x == y)
  {
    PrechargeOneAt(cfg, t, y, x);
  }

  lemma {:induction false} ClosedUpTo(cfg: Controls, s: State, g: nat, k: nat, x: nat, index: int)
    requires Tracks(cfg, s) && g < R.Count(Groups(cfg)) && k <= cfg.banksPerRefresh && x < |s.banks|
    requires forall i :: 0 <= i < cfg.banksPerRefresh ==> (Member(cfg, g, i) == x <==> i == index)
    ensures ClosedIf(cfg, s, PrechargeGroup(cfg, s, g, k), x, 0 <= index < k)
  {
    if k > 0 {
      ClosedUpTo(cfg, s, g, k - 1, x, index);
      PrechargeGroupTracks(cfg, s, g, k - 1);
      MemberIs(cfg, g, k - 1);
      ClosedNext(cfg, s, PrechargeGroup(cfg, s, g, k - 1), Member(cfg, g, k - 1), x, 0 <= index < k - 1);
    }
  }

  lemma PrechargeGroupAt(cfg: Controls, s: State, g: nat, k: nat, x: nat)
    requires Tracks(cfg, s) && g < R.Count(Groups(cfg)) && k <= cfg.banksPerRefresh && x < |s.banks|
    ensures ClosedIf(cfg, s, PrechargeGroup(cfg, s, g, k), x, GroupOf(cfg, x) == g && IndexOf(cfg, x) < k)
  {
    var index: int := if GroupOf(cfg, x) == g then IndexOf(cfg, x) else -1;
    forall i | 0 <= i < cfg.banksPerRefresh ensures Member(cfg, g, i) == x <==> i == index {
      MemberIff(cfg, g, i, x);
    }
    ClosedUpTo(cfg, s, g, k, x, index);
  }

  /** Flags of a refresh do not concern the record of open rows. */
  lemma FlagsDontMatter(cfg: Controls, s: State, t: State)
    requires Tracks(cfg, s) && Shaped(cfg, t) && t.q == s.q && t.device == s.device
    requires forall x :: 0 <= x < |s.banks| ==>
      t.banks[x] == s.banks[x].(needRefresh := t.banks[x].needRefresh, refreshQueued := t.banks[x].refreshQueued)
    ensures Tracks(cfg, t)
  {
    forall x | 0 <= x < |t.banks| ensures BankOk(cfg, t, x) {
      assert BankOk(cfg, s, x);
    }
  }

  lemma SetGroupFlags(cfg: Controls, banks: seq<Bank>, g: nat, f: Flag, v: bool, k: nat)
    requires Sound(cfg) && |banks| == BankCount(cfg) && g < R.Count(Groups(cfg)) && k <= cfg.banksPerRefresh
    ensures var r := SetGroup(cfg, banks, g, f, v, k);
      forall x :: 0 <= x < |banks| ==>
        r[x] == banks[x].(needRefresh := r[x].needRefresh, refreshQueued := r[x].refreshQueued)
  {
  }

  /** The state in the middle of a refresh: all banks of the group are closed and the refresh is queued. */
  function RefreshPushed(cfg: Controls, s: State, g: nat): (r: State)
    requires Sound(cfg) && Shaped(cfg, s) && g < R.Count(Groups(cfg))
  {
    MemberIs(cfg, g, 0);
    var closed := PrechargeGroup(cfg, s, g, cfg.banksPerRefresh);
    closed.(q := Q.PushAll(closed.q, Member(cfg, g, 0), [Ref]))
  }

  lemma RefreshPushedTracks(cfg: Controls, s: State, g: nat)
    requires Tracks(cfg, s) && cfg.usePrecharge && g < R.Count(Groups(cfg))
    ensures Tracks(cfg, RefreshPushed(cfg, s, g))
  {
    var n := cfg.banksPerRefresh;
    MemberIs(cfg, g, 0);
    IndexOfMember(cfg, g, 0);
    var closed, x := PrechargeGroup(cfg, s, g, n), Member(cfg, g, 0);
    PrechargeGroupTracks(cfg, s, g, n);
    PrechargeGroupAt(cfg, s, g, n, x);
    assert BankOk(cfg, s, x) && BankOk(cfg, closed, x);
    PrechargedConsistent(cfg, s.banks[x]);
    Q.PushAllDisciplined(closed.q, x, [Ref]);
    RefreshCoherent(cfg, closed.banks[x], Pending(closed, x), s.device[x]);
    OthersTrack(cfg, closed, RefreshPushed(cfg, s, g), x);
  }

  lemma RefreshTracks(cfg: Controls, s: State, g: nat)
    requires Tracks(cfg, s) && cfg.usePrecharge && R.Needs(Groups(cfg), s.r.counters, g)
    ensures Tracks(cfg, QueueRefresh(cfg, s, g))
  {
    var n := cfg.banksPerRefresh;
    var pushed, t := RefreshPushed(cfg, s, g), QueueRefresh(cfg, s, g);
    RefreshPushedTracks(cfg, s, g);
    R.PositionMoves(Groups(cfg), s.r, g);
    SetGroupFlags(cfg, pushed.banks, g, RefreshQueued, true, n);
    SetGroupFlags(cfg, SetGroup(cfg, pushed.banks, g, RefreshQueued, true, n), g, NeedRefresh, false, n);
    FlagsDontMatter(cfg, pushed, t);
  }

  lemma PulseTracks(cfg: Controls, s: State, g: nat)
    requires Tracks(cfg, s) && g < R.Count(Groups(cfg))
    ensures Tracks(cfg, Pulse(cfg, s, g))
  {
    SetGroupFlags(cfg, s.banks, g, NeedRefresh, true, cfg.banksPerRefresh);
    FlagsDontMatter(cfg, s, Pulse(cfg, s, g));
  }

  /** The device can take the command, and moves to where coherence expects it. */
  lemma IssueTracks(cfg: Controls, s: State, x: nat)
    requires Tracks(cfg, s) && x < |s.q.queues| && s.q.queues[x] != [] && s.q.lastIssue != s.q.now
    ensures Step(cfg, s.device[x], s.q.queues[x][0].command).Rows?
    ensures Tracks(cfg, IssueAt(cfg, s, x))
  {
    MemberOfGroup(cfg, x);
    var c := s.q.queues[x][0].command;
    var t := IssueAt(cfg, s, x);
    Q.IssueDisciplined(s.q, x);
    assert BankOk(cfg, s, x);
    assert Pending(s, x)[0] == c && Pending(s, x)[1..] == Pending(t, x);
    IssuedCoherent(cfg, s.banks[x], Pending(s, x), s.device[x]);
    var u := t.(banks := s.banks);
    OthersTrack(cfg, s, u, x);
    SetGroupFlags(cfg, s.banks, GroupOf(cfg, x), RefreshQueued, false, cfg.banksPerRefresh);
    FlagsDontMatter(cfg, u, t);
  }

  lemma TickTracks(cfg: Controls, s: State)
    requires Tracks(cfg, s)
    ensures Tracks(cfg, s.(q := Q.Tick(s.q)))
  {
    Q.TickDisciplined(s.q);
    var t := s.(q := Q.Tick(s.q));
    forall x | 0 <= x < |t.banks| ensures BankOk(cfg, t, x) {
      assert BankOk(cfg, s, x);
    }
  }

  lemma InitialTracks(cfg: Controls)
    requires Sound(cfg)
    ensures Tracks(cfg, Initial(cfg))
  {
    Q.InitialDisciplined(BankCount(cfg));
    var s := Initial(cfg);
    forall x | 0 <= x < |s.banks| ensures BankOk(cfg, s, x) {
      assert Pending(s, x) == [];
    }
  }
}
