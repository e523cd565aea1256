/** The order of the address fields and how a mapping scheme sets it. Fields are numbered as in the
    arrays that hold their widths and positions. */
module TranslationMethods {

  const MEM_ROW := 0
  const MEM_COL := 1
  const MEM_BANK := 2
  const MEM_RANK := 3
  const MEM_CHANNEL := 4
  const MEM_SUBARRAY := 5
  const FIELDS := 6
  /** Not a field. */
  const MEM_UNKNOWN: nat := 6

  type Field = p: nat | p < FIELDS

  ghost predicate IsPermutation(order: seq<int>) {
    && |order| == FIELDS
    && (forall p :: 0 <= p < FIELDS ==> 0 <= order[p] < FIELDS)
    && (forall p, q :: 0 <= p < q < FIELDS ==> order[p] != order[q])
  }

  function PartitionOf(token: string): (p: nat)
    ensures p <= FIELDS
  {
    if token == "R" then MEM_ROW
    else if token == "C" then MEM_COL
    else if token == "BK" then MEM_BANK
    else if token == "RK" then MEM_RANK
    else if token == "CH" then MEM_CHANNEL
    else if token == "SA" then MEM_SUBARRAY
    else MEM_UNKNOWN
  }

  /** The length of the text before the first separator. */
  function TokenLength(s: string): (n: nat)
    ensures n <= |s| && ':' !in s[..n] && (n < |s| ==> s[n] == ':')
  {
    if s == "" || s[0] == ':' then 0 else
      var n := 1 + TokenLength(s[1..]);
      assert s[..n] == [s[0]] + s[1..][..n - 1];
      n
  }

  /** The non-empty pieces between separators. */
  function Tokens(s: string): (r: seq<string>) {
    if s == "" then []
    else if s[0] == ':' then Tokens(s[1..])
    else [s[..TokenLength(s)]] + Tokens(s[TokenLength(s)..])
  }

  // ----- assigning positions, highest first -----

  /** Positions assigned so far (0: none yet), and the next position to hand out. */
  datatype Assignment = Assignment(position: seq<int>, current: int)

  const START := Assignment([0, 0, 0, 0, 0, 0], FIELDS)

  function Assign(a: Assignment, token: string): (r: Assignment) {
    var p := PartitionOf(token);
    Assignment(if p < |a.position| then a.position[p := a.current] else a.position, a.current - 1)
  }

  function AssignAll(a: Assignment, tokens: seq<string>): (r: Assignment)
    decreases |tokens|
  {
    if tokens == [] then a else AssignAll(Assign(a, tokens[0]), tokens[1..])
  }

  function Fill(a: Assignment, p: Field): (b: Assignment)
    requires |a.position| == FIELDS
    ensures |b.position| == FIELDS
  {
    if a.position[p] == 0 then Assignment(a.position[p := a.current], a.current - 1) else a
  }

  function FillIn(a: Assignment, ps: seq<Field>): (b: Assignment)
    requires |a.position| == FIELDS
    ensures |b.position| == FIELDS
    decreases |ps|
  {
    if ps == [] then a else FillIn(Fill(a, ps[0]), ps[1..])
  }

  /** The order in which fields without a token get the remaining positions. */
  const FILL_ORDER: seq<Field> := [MEM_SUBARRAY, MEM_CHANNEL, MEM_RANK, MEM_BANK, MEM_ROW, MEM_COL]

  /** The order a scheme leads to: positions count from one, orders from zero. */
  function SchemeOrder(tokens: seq<string>): (r: seq<int>) {
    AssignAllSize(START, tokens);
    var a := FillIn(AssignAll(START, tokens), FILL_ORDER);
    seq(FIELDS, p requires 0 <= p < FIELDS => a.position[p] - 1)
  }

  lemma AssignAllSize(a: Assignment, tokens: seq<string>)
    requires |a.position| == FIELDS
    ensures |AssignAll(a, tokens).position| == FIELDS
    decreases |tokens|
  {
  }

  /** The names of the fields in a scheme. */
  const NAMES: set<string> := {"R", "C", "BK", "RK", "CH", "SA"}

  /** The first six tokens are different field names, and any further ones are not field names at all. */
  ghost predicate Clean(tokens: seq<string>) {
    && (forall i :: 0 <= i < |tokens| ==> (tokens[i] in NAMES <==> i < FIELDS))
    && (forall i, j :: 0 <= i < j < |tokens| && j < FIELDS ==> tokens[i] != tokens[j])
  }

  lemma CleanIff(tokens: seq<string>)
    ensures Clean(tokens) <==> Assignable(tokens)
  {
  }

  /** The same in terms of the fields named. */
  ghost predicate Assignable(tokens: seq<string>) {
    && (forall i :: 0 <= i < |tokens| && i < FIELDS ==> PartitionOf(tokens[i]) < FIELDS)
    && (forall i, j :: 0 <= i < j < |tokens| && j < FIELDS ==> PartitionOf(tokens[i]) != PartitionOf(tokens[j]))
    && (forall i :: FIELDS <= i < |tokens| ==> PartitionOf(tokens[i]) == MEM_UNKNOWN)
  }

  function Unset(position: seq<int>): (r: nat) {
    if position == [] then 0 else (if position[0] == 0 then 1 else 0) + Unset(position[1..])
  }

  /** Everything handed out so far is still in use, once. */
  ghost predicate Tidy(a: Assignment) {
    && |a.position| == FIELDS && 0 <= a.current <= FIELDS && Unset(a.position) == a.current
    && (forall p :: 0 <= p < FIELDS ==> a.position[p] == 0 || a.current < a.position[p] <= FIELDS)
    && (forall p, q :: 0 <= p < q < FIELDS && a.position[p] != 0 ==> a.position[p] != a.position[q])
  }

  /** Position `v` has been handed out and is no longer in use. */
  ghost predicate Lost(a: Assignment, v: nat) {
    |a.position| == FIELDS && a.current < v && 1 <= v <= FIELDS && v !in a.position
  }

  lemma {:induction false} UnsetUpdate(position: seq<int>, p: nat, v: int)
    requires p < |position| && v != 0
    ensures position[p] == 0 ==> Unset(position[p := v]) + 1 == Unset(position)
    ensures position[p] != 0 ==> Unset(position[p := v]) == Unset(position)
  {
    if p > 0 {
      assert position[p := v][1..] == position[1..][p - 1 := v];
      UnsetUpdate(position[1..], p - 1, v);
    } else {
      assert position[p := v][1..] == position[1..];
    }
  }

  lemma {:induction false} UnsetZero(position: seq<int>)
    ensures Unset(position) == 0 <==> forall p :: 0 <= p < |position| ==> position[p] != 0
  {
    if position != [] {
      UnsetZero(position[1..]);
      assert forall p :: 0 < p < |position| ==> position[p] == position[1..][p - 1];
    }
  }

  lemma TidySet(a: Assignment, p: nat)
    requires Tidy(a) && p < FIELDS && a.position[p] == 0
    ensures Tidy(Assignment(a.position[p := a.current], a.current - 1))
  {
    UnsetZero(a.position);
    UnsetUpdate(a.position, p, a.current);
  }

  lemma {:induction false} FillTidy(a: Assignment, ps: seq<Field>)
    requires Tidy(a)
    ensures var b := FillIn(a, ps);
      && Tidy(b)
      && (forall p: Field :: p in ps || a.position[p] != 0 ==> b.position[p] != 0)
    decreases |ps|
  {
    if ps != [] {
      var p := ps[0];
      if a.position[p] == 0 {
        UnsetZero(a.position);
        TidySet(a, p);
      }
      FillTidy(Fill(a, p), ps[1..]);
    }
  }

  lemma FillComplete(a: Assignment)
    requires Tidy(a) || Complete(a)
    ensures Complete(FillIn(a, FILL_ORDER))
  {
    var t := if Tidy(a) then a else a.(current := 0);
    FillTidy(t, FILL_ORDER);
    assert forall p: Field :: p in FILL_ORDER;
    UnsetZero(FillIn(t, FILL_ORDER).position);
    if !Tidy(a) {
      UnsetZero(a.position);
      FillNothing(a, FILL_ORDER);
    }
  }

  lemma {:induction false} FillNothing(a: Assignment, ps: seq<Field>)
    requires |a.position| == FIELDS && forall p :: 0 <= p < FIELDS ==> a.position[p] != 0
    ensures FillIn(a, ps) == a
    decreases |ps|
  {
    if ps != [] { FillNothing(a, ps[1..]); }
  }

  /** All six positions are in use; unknown tokens after that change nothing. */
  ghost predicate Complete(a: Assignment) {
    a.current <= 0 && Tidy(a.(current := 0))
  }

  // ----- one token at a time -----

  /** Whether the next token keeps things tidy, given the positions handed out before. */
  predicate Fits(a: Assignment, token: string)
    requires |a.position| == FIELDS
  {
    var p := PartitionOf(token);
    if a.current > 0 then p < FIELDS && a.position[p] == 0 else p == MEM_UNKNOWN
  }

  lemma AssignFits(a: Assignment, token: string)
    requires (Tidy(a) || Complete(a)) && Fits(a, token)
    ensures Tidy(Assign(a, token)) || Complete(Assign(a, token))
  {
    if a.current > 0 { TidySet(a, PartitionOf(token)); }
  }

  lemma AssignMisfits(a: Assignment, token: string) returns (v: nat)
    requires (Tidy(a) || Complete(a)) && !Fits(a, token)
    ensures Lost(Assign(a, token), v)
  {
    var p := PartitionOf(token);
    UnsetZero(a.position);
    v := if p == MEM_UNKNOWN then a.current else a.position[p];
  }

  lemma {:induction false} LostForever(a: Assignment, tokens: seq<string>, v: nat)
    requires Lost(a, v)
    ensures Lost(AssignAll(a, tokens), v)
    decreases |tokens|
  {
    if tokens != [] { LostForever(Assign(a, tokens[0]), tokens[1..], v); }
  }

  lemma {:induction false} LostFill(a: Assignment, ps: seq<Field>, v: nat)
    requires Lost(a, v)
    ensures Lost(FillIn(a, ps), v)
    decreases |ps|
  {
    if ps != [] { LostFill(Fill(a, ps[0]), ps[1..], v); }
  }

  ghost predicate AllFit(a: Assignment, tokens: seq<string>)
    requires |a.position| == FIELDS
    decreases |tokens|
  {
    tokens == [] || (Fits(a, tokens[0]) && AllFit(Assign(a, tokens[0]), tokens[1..]))
  }

  lemma {:induction false} AllFitOutcome(a: Assignment, tokens: seq<string>)
    requires (Tidy(a) || Complete(a)) && AllFit(a, tokens)
    ensures Tidy(AssignAll(a, tokens)) || Complete(AssignAll(a, tokens))
    decreases |tokens|
  {
    if tokens != [] {
      AssignFits(a, tokens[0]);
      AllFitOutcome(Assign(a, tokens[0]), tokens[1..]);
    }
  }

  lemma {:induction false} MisfitOutcome(a: Assignment, tokens: seq<string>) returns (v: nat)
    requires (Tidy(a) || Complete(a)) && !AllFit(a, tokens)
    ensures Lost(AssignAll(a, tokens), v)
    decreases |tokens|
  {
    if Fits(a, tokens[0]) {
      AssignFits(a, tokens[0]);
      v := MisfitOutcome(Assign(a, tokens[0]), tokens[1..]);
    } else {
      v := AssignMisfits(a, tokens[0]);
      LostForever(Assign(a, tokens[0]), tokens[1..], v);
    }
  }

  /** The positions handed out so far are those of the tokens read so far. */
  ghost predicate Reads(a: Assignment, seen: seq<string>) {
    && |a.position| == FIELDS && a.current == FIELDS - |seen|
    && (forall p :: 0 <= p < FIELDS ==>
          (a.position[p] != 0 <==> exists i :: 0 <= i < |seen| && PartitionOf(seen[i]) == p))
  }

  lemma {:induction false} AllFitIsClean(a: Assignment, seen: seq<string>, tokens: seq<string>)
    requires Reads(a, seen) && (Tidy(a) || Complete(a)) && Assignable(seen)
    ensures AllFit(a, tokens) <==> Assignable(seen + tokens)
    decreases |tokens|
  {
    if tokens == [] {
      assert seen + tokens == seen;
    } else {
      var t, more := tokens[0], seen + [tokens[0]];
      assert more + tokens[1..] == seen + tokens;
      assert (seen + tokens)[|seen|] == t;
      if Fits(a, t) {
        AssignFits(a, t);
        ReadsMore(a, seen, t);
        AllFitIsClean(Assign(a, t), more, tokens[1..]);
      } else {
        MisfitIsNotClean(a, seen, tokens);
      }
    }
  }

  lemma MisfitIsNotClean(a: Assignment, seen: seq<string>, tokens: seq<string>)
    requires Reads(a, seen) && (Tidy(a) || Complete(a)) && tokens != [] && !Fits(a, tokens[0])
    ensures !Assignable(seen + tokens)
  {
    var all, p := seen + tokens, PartitionOf(tokens[0]);
    assert all[|seen|] == tokens[0];
    if p < FIELDS && a.current > 0 {
      var i :| 0 <= i < |seen| && PartitionOf(seen[i]) == p;
      assert all[i] == seen[i];
    }
  }

  lemma ReadsMore(a: Assignment, seen: seq<string>, t: string)
    requires Reads(a, seen) && (Tidy(a) || Complete(a)) && Assignable(seen) && Fits(a, t)
    ensures Reads(Assign(a, t), seen + [t]) && Assignable(seen + [t])
  {
    var p, more, b := PartitionOf(t), seen + [t], Assign(a, t);
    forall q | 0 <= q < FIELDS
      ensures b.position[q] != 0 <==> exists i :: 0 <= i < |more| && PartitionOf(more[i]) == q
    {
      if q == p { assert more[|seen|] == t; }
      if exists i :: 0 <= i < |seen| && PartitionOf(seen[i]) == q {
        var i :| 0 <= i < |seen| && PartitionOf(seen[i]) == q;
        assert more[i] == seen[i];
      }
    }
  }

  /** A scheme leads to a permutation of the six fields exactly when it is clean, even if it is partial. */
  lemma SchemeIsPermutationIff(tokens: seq<string>)
    ensures IsPermutation(SchemeOrder(tokens)) <==> Clean(tokens)
  {
    CleanIff(tokens);
    StartTidy();
    AssignAllSize(START, tokens);
    AllFitIsClean(START, [], tokens);
    assert [] + tokens == tokens;
    var a := AssignAll(START, tokens);
    var b := FillIn(a, FILL_ORDER);
    if Assignable(tokens) {
      AllFitOutcome(START, tokens);
      FillComplete(a);
      CompleteIsPermutation(b);
    } else {
      var v := MisfitOutcome(START, tokens);
      LostFill(a, FILL_ORDER, v);
      LostIsNone(b, v);
    }
  }

  lemma StartTidy()
    ensures Tidy(START)
  {
  }

  lemma CompleteIsPermutation(a: Assignment)
    requires Complete(a)
    ensures IsPermutation(seq(FIELDS, p requires 0 <= p < FIELDS => a.position[p] - 1))
  {
    UnsetZero(a.position);
  }

  lemma LostIsNone(a: Assignment, v: nat)
    requires Lost(a, v)
    ensures !IsPermutation(seq(FIELDS, p requires 0 <= p < FIELDS => a.position[p] - 1))
  {
    var o := seq(FIELDS, p requires 0 <= p < FIELDS => a.position[p] - 1);
    assert forall p :: 0 <= p < FIELDS ==> o[p] == a.position[p] - 1 && a.position[p] in a.position;
    if IsPermutation(o) { Onto(o, v - 1); }
  }

  ghost function Image(order: seq<int>, k: nat): (r: set<nat>)
    requires IsPermutation(order) && k <= FIELDS
  {
    if k == 0 then {} else Image(order, k - 1) + {order[k - 1]}
  }

  lemma {:induction false} ImageSize(order: seq<int>, k: nat)
    requires IsPermutation(order) && k <= FIELDS
    ensures |Image(order, k)| == k
    ensures forall x :: x in Image(order, k) <==> exists p :: 0 <= p < k && order[p] == x
  {
    if k > 0 { ImageSize(order, k - 1); }
  }

  lemma {:induction false} SubsetSize(s: set<nat>, t: set<nat>)
    requires s <= t
    ensures |s| <= |t|
    decreases |s|
  {
    if s == {} {
    } else {
      var x :| x in s;
      SubsetSize(s - {x}, t - {x});
    }
  }

  ghost function UpTo(n: nat): (s: set<nat>)
    ensures forall x: nat :: x in s <==> x < n
    ensures |s| == n
  {
    if n == 0 then {} else UpTo(n - 1) + {n - 1}
  }

  lemma AvoidingOne(s: set<nat>, n: nat, v: nat)
    requires v < n && forall x :: x in s ==> x < n && x != v
    ensures |s| < n
  {
    SubsetSize(s + {v}, UpTo(n));
  }

  /** Six different numbers below six leave none out. */
  lemma Onto(order: seq<int>, v: nat)
    requires IsPermutation(order) && v < FIELDS
    ensures exists p :: 0 <= p < FIELDS && order[p] == v
  {
    ImageSize(order, FIELDS);
    if v !in Image(order, FIELDS) {
      AvoidingOne(Image(order, FIELDS), FIELDS, v);
      assert false;
    }
  }

  // ----- which field gets which place -----

  /** The token at `i` has given its field the position counted down from the highest; other fields have none. */
  ghost predicate Placed(a: Assignment, seen: seq<string>) {
    && |a.position| == FIELDS && a.current == FIELDS - |seen|
    && (forall i :: 0 <= i < |seen| && PartitionOf(seen[i]) < FIELDS ==> a.position[PartitionOf(seen[i])] == FIELDS - i)
    && (forall p :: 0 <= p < FIELDS && !Named(seen, p) ==> a.position[p] == 0)
  }

  ghost predicate Named(tokens: seq<string>, p: nat) {
    exists i :: 0 <= i < |tokens| && PartitionOf(tokens[i]) == p
  }

  lemma PlacedMore(a: Assignment, seen: seq<string>, t: string)
    requires Placed(a, seen) && Assignable(seen + [t])
    ensures Placed(Assign(a, t), seen + [t])
  {
    var more, b := seen + [t], Assign(a, t);
    assert more[|seen|] == t;
    forall i | 0 <= i < |more| && PartitionOf(more[i]) < FIELDS ensures b.position[PartitionOf(more[i])] == FIELDS - i {
      if i < |seen| { assert more[i] == seen[i]; }
    }
    forall p | 0 <= p < FIELDS && !Named(more, p) ensures b.position[p] == 0 {
      forall i | 0 <= i < |seen| ensures PartitionOf(seen[i]) != p { assert more[i] == seen[i]; }
      assert PartitionOf(more[|seen|]) != p;
    }
  }

  lemma {:induction false} AllPlaced(a: Assignment, seen: seq<string>, tokens: seq<string>)
    requires Placed(a, seen) && Assignable(seen + tokens)
    ensures Placed(AssignAll(a, tokens), seen + tokens)
    decreases |tokens|
  {
    if tokens == [] {
      assert seen + tokens == seen;
    } else {
      var more := seen + [tokens[0]];
      assert more + tokens[1..] == seen + tokens;
      AssignablePrefix(more, tokens[1..]);
      PlacedMore(a, seen, tokens[0]);
      AllPlaced(Assign(a, tokens[0]), more, tokens[1..]);
    }
  }

  lemma AssignablePrefix(tokens: seq<string>, more: seq<string>)
    requires Assignable(tokens + more)
    ensures Assignable(tokens)
  {
    assert forall i :: 0 <= i < |tokens| ==> (tokens + more)[i] == tokens[i];
  }

  /** Free fields get positions downwards in the order in which they are looked at; the others keep theirs. */
  lemma {:induction false} FillDescends(a: Assignment, ps: seq<Field>)
    requires |a.position| == FIELDS && forall j, k :: 0 <= j < k < |ps| ==> ps[j] != ps[k]
    ensures var b := FillIn(a, ps);
      && b.current <= a.current
      && (forall p :: 0 <= p < FIELDS && (p !in ps || a.position[p] != 0) ==> b.position[p] == a.position[p])
      && (forall j :: 0 <= j < |ps| && a.position[ps[j]] == 0 ==> b.current < b.position[ps[j]] <= a.current)
      && (forall j, k :: 0 <= j < k < |ps| && a.position[ps[j]] == 0 && a.position[ps[k]] == 0 ==>
            b.position[ps[j]] > b.position[ps[k]])
    decreases |ps|
  {
    if ps != [] {
      var c, rest := Fill(a, ps[0]), ps[1..];
      assert forall j :: 0 <= j < |rest| ==> rest[j] == ps[j + 1];
      FillDescends(c, rest);
    }
  }

  /** Tokens have given their fields places downwards from 5; the other fields have the rest, downwards in the
      order of `ps`. */
  ghost predicate PlacedBy(tokens: seq<string>, ps: seq<Field>, order: seq<int>) {
    && |order| == FIELDS
    && (forall i :: 0 <= i < |tokens| && PartitionOf(tokens[i]) < FIELDS ==> order[PartitionOf(tokens[i])] == 5 - i)
    && (forall j :: 0 <= j < |ps| && !Named(tokens, ps[j]) ==> order[ps[j]] < FIELDS - |tokens|)
    && (forall j, k :: 0 <= j < k < |ps| && !Named(tokens, ps[j]) && !Named(tokens, ps[k]) ==>
          order[ps[j]] > order[ps[k]])
  }

  lemma FilledPlaces(tokens: seq<string>, a: Assignment, ps: seq<Field>, order: seq<int>)
    requires Placed(a, tokens) && forall j, k :: 0 <= j < k < |ps| ==> ps[j] != ps[k]
    requires order == seq(FIELDS, p requires 0 <= p < FIELDS => FillIn(a, ps).position[p] - 1)
    requires Assignable(tokens)
    ensures PlacedBy(tokens, ps, order)
  {
    FillDescends(a, ps);
    assert forall j :: 0 <= j < |ps| && !Named(tokens, ps[j]) ==> a.position[ps[j]] == 0;
  }

  lemma TokensPlaced(tokens: seq<string>)
    requires Assignable(tokens)
    ensures Placed(AssignAll(START, tokens), tokens)
  {
    AllPlaced(START, [], tokens);
    assert [] + tokens == tokens;
  }

  lemma SchemeFilled(tokens: seq<string>)
    ensures |AssignAll(START, tokens).position| == FIELDS
    ensures var a := AssignAll(START, tokens);
      SchemeOrder(tokens) == seq(FIELDS, p requires 0 <= p < FIELDS => FillIn(a, FILL_ORDER).position[p] - 1)
  {
    AssignAllSize(START, tokens);
  }

  lemma PlacesOfTokens(tokens: seq<string>)
    requires Clean(tokens)
    ensures PlacedBy(tokens, FILL_ORDER, SchemeOrder(tokens))
  {
    CleanIff(tokens);
    TokensPlaced(tokens);
    SchemeFilled(tokens);
    FilledPlaces(tokens, AssignAll(START, tokens), FILL_ORDER, SchemeOrder(tokens));
  }

  lemma NamedIff(tokens: seq<string>, name: string)
    requires name in NAMES
    ensures Named(tokens, PartitionOf(name)) <==> name in tokens
  {
    if name in tokens {
      var i :| 0 <= i < |tokens| && tokens[i] == name;
      assert PartitionOf(tokens[i]) == PartitionOf(name);
    }
  }

  /** In a clean scheme the fields get places downwards from 5 in the order in which they are named. */
  lemma NamedPlaces(tokens: seq<string>, i: nat)
    requires Clean(tokens) && i < |tokens|
    ensures var order := SchemeOrder(tokens);
      && (tokens[i] == "R" ==> order[MEM_ROW] == 5 - i)
      && (tokens[i] == "C" ==> order[MEM_COL] == 5 - i)
      && (tokens[i] == "BK" ==> order[MEM_BANK] == 5 - i)
      && (tokens[i] == "RK" ==> order[MEM_RANK] == 5 - i)
      && (tokens[i] == "CH" ==> order[MEM_CHANNEL] == 5 - i)
      && (tokens[i] == "SA" ==> order[MEM_SUBARRAY] == 5 - i)
  {
    PlacesOfTokens(tokens);
  }

  /** The fields not named get the places left over, downwards as subarray, channel, rank, bank, row, column. */
  lemma OtherPlaces(tokens: seq<string>, j: nat, k: nat)
    requires Clean(tokens) && j < 6 && k < 6
    ensures var fields := [MEM_SUBARRAY, MEM_CHANNEL, MEM_RANK, MEM_BANK, MEM_ROW, MEM_COL];
      var names, order := ["SA", "CH", "RK", "BK", "R", "C"], SchemeOrder(tokens);
      names[j] !in tokens ==>
        && 0 <= order[fields[j]] < 6 - |tokens|
        && (j < k && names[k] !in tokens ==> order[fields[j]] > order[fields[k]])
  {
    var names := ["SA", "CH", "RK", "BK", "R", "C"];
    PlacesOfTokens(tokens);
    SchemeIsPermutationIff(tokens);
    NamedIff(tokens, names[j]);
    NamedIff(tokens, names[k]);
    assert PartitionOf(names[j]) == FILL_ORDER[j] && PartitionOf(names[k]) == FILL_ORDER[k];
  }

  // ----- the text of a scheme -----

  function SchemeText(tokens: seq<string>): (s: string) {
    if tokens == [] then "" else tokens[0] + (if |tokens| == 1 then "" else ":") + SchemeText(tokens[1..])
  }

  /** The tokens of a scheme are what stands between its colons. */
  lemma {:induction false} TokensJoined(tokens: seq<string>)
    requires forall i :: 0 <= i < |tokens| ==> tokens[i] != "" && ':' !in tokens[i]
    ensures Tokens(SchemeText(tokens)) == tokens
  {
    if tokens != [] {
      var rest := (if |tokens| == 1 then "" else ":") + SchemeText(tokens[1..]);
      assert SchemeText(tokens) == tokens[0] + rest;
      LengthOf(tokens[0], rest);
      TokensJoined(tokens[1..]);
      assert forall i :: 0 <= i < |tokens[1..]| ==> tokens[1..][i] == tokens[i + 1];
      if |tokens| > 1 { assert rest[1..] == SchemeText(tokens[1..]); }
    }
  }

  lemma {:induction false} LengthOf(token: string, rest: string)
    requires ':' !in token && (rest == "" || rest[0] == ':')
    ensures TokenLength(token + rest) == |token|
    ensures (token + rest)[..|token|] == token && (token + rest)[|token|..] == rest
  {
    if token == "" {
      assert token + rest == rest;
    } else {
      assert (token + rest)[1..] == token[1..] + rest;
      LengthOf(token[1..], rest);
    }
  }

  lemma AssignFirst(a: Assignment, token: string, tokens: seq<string>)
    ensures AssignAll(a, [token] + tokens) == AssignAll(Assign(a, token), tokens)
  {
  }

  // ----- the translation method as an object -----

  class TranslationMethod {
    const bitWidths: array<nat>
    const order: array<int>

    ghost predicate Valid()
      reads this
    {
      bitWidths.Length == order.Length == FIELDS && (bitWidths as object) != order
    }

    constructor ()
      ensures Valid() && fresh(bitWidths) && fresh(order)
      ensures bitWidths[..] == [10, 8, 3, 1, 1, 6] && IsPermutation(order[..])
    {
      bitWidths := new nat[FIELDS];
      order := new int[FIELDS];
      new;
      SetBitWidths(10, 8, 3, 1, 1, 6);
      SetOrder(4, 1, 3, 5, 6, 2);
      assert order[..] == [3, 0, 2, 4, 5, 1];
    }

    method SetBitWidths(rowBits: nat, colBits: nat, bankBits: nat, rankBits: nat, channelBits: nat, subarrayBits: nat)
      requires Valid()
      modifies bitWidths
      ensures bitWidths[..] == [rowBits, colBits, bankBits, rankBits, channelBits, subarrayBits]
    {
      bitWidths[MEM_ROW] := rowBits;
      bitWidths[MEM_COL] := colBits;
      bitWidths[MEM_BANK] := bankBits;
      bitWidths[MEM_RANK] := rankBits;
      bitWidths[MEM_CHANNEL] := channelBits;
      bitWidths[MEM_SUBARRAY] := subarrayBits;
    }

    /** Positions count from one; repeated positions are only warned about. */
    method SetOrder(row: int, col: int, bank: int, rank: int, channel: int, subarray: int)
      requires Valid()
      modifies order
      ensures order[..] == [row - 1, col - 1, bank - 1, rank - 1, channel - 1, subarray - 1]
    {
      order[MEM_ROW] := row - 1;
      order[MEM_COL] := col - 1;
      order[MEM_BANK] := bank - 1;
      order[MEM_RANK] := rank - 1;
      order[MEM_CHANNEL] := channel - 1;
      order[MEM_SUBARRAY] := subarray - 1;
    }

    /** Sets the order from a scheme such as "R:RK:BK:CH:C", highest field first. The scheme has to fit
        the parser's buffer of sixteen characters. */
    method SetAddressMappingScheme(scheme: string)
      requires Valid() && |scheme| < 16
      modifies order
      ensures order[..] == SchemeOrder(Tokens(scheme))
      ensures IsPermutation(order[..]) <==> Clean(Tokens(scheme))
    {
      SchemeIsPermutationIff(Tokens(scheme));
      var position := [0, 0, 0, 0, 0, 0];
      var currentOrder := 6;
      var rest := scheme;
      ghost var goal := AssignAll(START, Tokens(scheme));
      while rest != ""
        invariant |position| == FIELDS
        invariant AssignAll(Assignment(position, currentOrder), Tokens(rest)) == goal
        decreases |rest|
      {
        if rest[0] == ':' {
          rest := rest[1..];
        } else {
          var token := rest[..TokenLength(rest)];
          rest := rest[TokenLength(rest)..];
          AssignFirst(Assignment(position, currentOrder), token, Tokens(rest));
          position := Place(position, token, currentOrder);
          currentOrder := currentOrder - 1;
        }
      }
      position := FillUnset(position, currentOrder);
      SetOrder(position[MEM_ROW], position[MEM_COL], position[MEM_BANK], position[MEM_RANK],
               position[MEM_CHANNEL], position[MEM_SUBARRAY]);
    }

    method Place(position0: seq<int>, token: string, currentOrder: int) returns (position: seq<int>)
      requires |position0| == FIELDS
      ensures |position| == FIELDS
      ensures Assignment(position, currentOrder - 1) == Assign(Assignment(position0, currentOrder), token)
    {
      position := position0;
      if token == "R" {
        position := position[MEM_ROW := currentOrder];
      } else if token == "C" {
        position := position[MEM_COL := currentOrder];
      } else if token == "BK" {
        position := position[MEM_BANK := currentOrder];
      } else if token == "RK" {
        position := position[MEM_RANK := currentOrder];
      } else if token == "CH" {
        position := position[MEM_CHANNEL := currentOrder];
      } else if token == "SA" {
        position := position[MEM_SUBARRAY := currentOrder];
      }
    }

    /** Fields without a token are assumed unused and get the remaining positions. */
    method FillUnset(position0: seq<int>, current: int) returns (position: seq<int>)
      requires |position0| == FIELDS
      ensures |position| == FIELDS && position == FillIn(Assignment(position0, current), FILL_ORDER).position
    {
      position := position0;
      var currentOrder := current;
      var ps := FILL_ORDER;
      while ps != []
        invariant |position| == FIELDS
        invariant FillIn(Assignment(position, currentOrder), ps) == FillIn(Assignment(position0, current), FILL_ORDER)
        decreases |ps|
      {
        if position[ps[0]] == 0 {
          position := position[ps[0] := currentOrder];
          currentOrder := currentOrder - 1;
        }
        ps := ps[1..];
      }
    }
  }
}
