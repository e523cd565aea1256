/** How ranks, banks and subarrays are numbered through, for command queues and for refresh groups. */
module QueueIds {
  import opened Arithmetic

  datatype Place = Place(row: nat, column: nat)

  /** Row-major numbering, and its inverse. */
  function Number(p: Place, width: nat): (r: nat) {
    Times(p.row, width) + p.column
  }

  function PlaceOf(x: nat, width: nat): (p: Place)
    requires width > 0
  {
    if x < width then Place(0, x) else var p := PlaceOf(x - width, width); Place(p.row + 1, p.column)
  }

  lemma {:induction false} PlaceIs(x: nat, width: nat)
    requires width > 0
    ensures PlaceOf(x, width) == Place(x / width, x % width)
  {
    var p := PlaceOf(x, width);
    NumberOfPlace(x, width);
    TimesIs(p.row, width);
    QuotientIs(x, width, p.row, p.column);
  }

  lemma {:induction false} NumberOfPlace(x: nat, width: nat)
    requires width > 0
    ensures PlaceOf(x, width).column < width && Number(PlaceOf(x, width), width) == x
  {
    if x >= width { NumberOfPlace(x - width, width); }
  }

  lemma {:induction false} PlaceOfNumber(p: Place, width: nat)
    requires p.column < width
    ensures PlaceOf(Number(p, width), width) == p
    decreases p.row
  {
    if p.row > 0 { PlaceOfNumber(Place(p.row - 1, p.column), width); }
  }

  lemma NumberFits(p: Place, width: nat, height: nat)
    requires p.column < width && p.row < height
    ensures Number(p, width) < Times(height, width)
  {
  }

  lemma {:induction false} PlaceFits(x: nat, width: nat, height: nat)
    requires width > 0 && x < Times(height, width)
    ensures PlaceOf(x, width).row < height && PlaceOf(x, width).column < width
    decreases height
  {
    NumberOfPlace(x, width);
    var p := PlaceOf(x, width);
    if height < p.row { TimesOrder(height, p.row, width); }
  }

  // ----- command queues -----

  datatype Model = PerRank | PerBank | PerSubArray

  datatype Layout = Layout(ranks: nat, banks: nat, subarrays: nat, model: Model, scheme: nat)

  datatype BankId = BankId(rank: nat, bank: nat, subarray: nat)

  /** Per-bank queues need a round-robin scheme. */
  predicate SoundLayout(l: Layout) {
    l.ranks > 0 && l.banks > 0 && l.subarrays > 0 && (l.model.PerBank? ==> l.scheme == 1 || l.scheme == 2)
  }

  /** What has a queue of its own. */
  predicate HasQueue(l: Layout, b: BankId) {
    && b.rank < l.ranks && b.bank < l.banks && b.subarray < l.subarrays
    && (l.model.PerRank? ==> b.bank == 0 && b.subarray == 0)
    && (l.model.PerBank? ==> b.subarray == 0)
  }

  function QueueCount(l: Layout): (r: nat) {
    match l.model
    case PerRank => l.ranks
    case PerBank => if l.scheme == 1 then Times(l.banks, l.ranks) else Times(l.ranks, l.banks)
    case PerSubArray => Times(Times(l.ranks, l.banks), l.subarrays)
  }

  function QueueId(l: Layout, b: BankId): (r: nat) {
    match l.model
    case PerRank => b.rank
    case PerBank =>
      if l.scheme == 1 then Number(Place(b.bank, b.rank), l.ranks) else Number(Place(b.rank, b.bank), l.banks)
    case PerSubArray => Number(Place(Number(Place(b.rank, b.bank), l.banks), b.subarray), l.subarrays)
  }

  function BankOf(l: Layout, q: nat): (r: BankId)
    requires SoundLayout(l)
  {
    match l.model
    case PerRank => BankId(q, 0, 0)
    case PerBank =>
      if l.scheme == 1 then var p := PlaceOf(q, l.ranks); BankId(p.column, p.row, 0)
      else var p := PlaceOf(q, l.banks); BankId(p.row, p.column, 0)
    case PerSubArray =>
      var s := PlaceOf(q, l.subarrays);
      var p := PlaceOf(s.row, l.banks);
      BankId(p.row, p.column, s.column)
  }

  /** Every queue belongs to one bank (or rank, or subarray), ... */
  lemma BankOfQueue(l: Layout, b: BankId)
    requires SoundLayout(l) && HasQueue(l, b)
    ensures QueueId(l, b) < QueueCount(l) && BankOf(l, QueueId(l, b)) == b
  {
    match l.model {
      case PerRank =>
      case PerBank =>
        if l.scheme == 1 {
          PlaceOfNumber(Place(b.bank, b.rank), l.ranks);
          NumberFits(Place(b.bank, b.rank), l.ranks, l.banks);
        } else {
          PlaceOfNumber(Place(b.rank, b.bank), l.banks);
          NumberFits(Place(b.rank, b.bank), l.banks, l.ranks);
        }
      case PerSubArray =>
        var p := Place(b.rank, b.bank);
        PlaceOfNumber(p, l.banks);
        NumberFits(p, l.banks, l.ranks);
        PlaceOfNumber(Place(Number(p, l.banks), b.subarray), l.subarrays);
        NumberFits(Place(Number(p, l.banks), b.subarray), l.subarrays, Times(l.ranks, l.banks));
    }
  }

  /** ... and every bank has one queue. */
  lemma QueueOfBank(l: Layout, q: nat)
    requires SoundLayout(l) && q < QueueCount(l)
    ensures HasQueue(l, BankOf(l, q)) && QueueId(l, BankOf(l, q)) == q
  {
    match l.model {
      case PerRank =>
      case PerBank =>
        if l.scheme == 1 {
          PlaceFits(q, l.ranks, l.banks);
          NumberOfPlace(q, l.ranks);
        } else {
          PlaceFits(q, l.banks, l.ranks);
          NumberOfPlace(q, l.banks);
        }
      case PerSubArray =>
        PlaceFits(q, l.subarrays, Times(l.ranks, l.banks));
        NumberOfPlace(q, l.subarrays);
        var s := PlaceOf(q, l.subarrays);
        PlaceFits(s.row, l.banks, l.ranks);
        NumberOfPlace(s.row, l.banks);
    }
  }

  /** The number of queues is the product of what they are for. */
  lemma QueueCountIs(l: Layout)
    requires SoundLayout(l)
    ensures QueueCount(l) ==
      match l.model
      case PerRank => l.ranks
      case PerBank => l.ranks * l.banks
      case PerSubArray => l.ranks * l.banks * l.subarrays
  {
    TimesIs(l.banks, l.ranks);
    TimesIs(l.ranks, l.banks);
    TimesIs(Times(l.ranks, l.banks), l.subarrays);
  }

  /** Per-bank queues are numbered bank by bank with scheme 1, and rank by rank with scheme 2. */
  lemma QueueIdIs(l: Layout, b: BankId)
    ensures l.model.PerRank? ==> QueueId(l, b) == b.rank
    ensures l.model.PerBank? && l.scheme == 1 ==> QueueId(l, b) == b.bank * l.ranks + b.rank
    ensures l.model.PerBank? && l.scheme == 2 ==> QueueId(l, b) == b.rank * l.banks + b.bank
    ensures l.model.PerSubArray? ==> QueueId(l, b) == (b.rank * l.banks + b.bank) * l.subarrays + b.subarray
  {
    TimesIs(b.bank, l.ranks);
    TimesIs(b.rank, l.banks);
    TimesIs(b.rank * l.banks + b.bank, l.subarrays);
  }

  lemma ThreeFields(rank: nat, banks: nat, bank: nat, subarrays: nat)
    ensures rank * banks * subarrays + bank * subarrays == Times(Number(Place(rank, bank), banks), subarrays)
  {
    var r := rank * banks;
    TimesIs(rank, banks);
    TimesIs(r + bank, subarrays);
    Distribute(subarrays, r, bank);
  }

  method GetCommandQueueId(l: Layout, b: BankId) returns (id: nat)
    requires SoundLayout(l) && b.rank < l.ranks && b.bank < l.banks && b.subarray < l.subarrays
    ensures id == QueueId(l, b)
    ensures id < QueueCount(l)
  {
    match l.model {
      case PerRank =>
        id := b.rank;
      case PerBank =>
        id := if l.scheme == 1 then b.bank * l.ranks + b.rank else b.rank * l.banks + b.bank;
        TimesIs(b.bank, l.ranks);
        TimesIs(b.rank, l.banks);
        BankOfQueue(l, b.(subarray := 0));
      case PerSubArray =>
        id := b.rank * l.banks * l.subarrays + b.bank * l.subarrays + b.subarray;
        ThreeFields(b.rank, l.banks, b.bank, l.subarrays);
        BankOfQueue(l, b);
    }
  }
}
