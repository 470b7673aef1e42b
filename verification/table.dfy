/** The stock table of the home page: `sortStockData` (a sorted copy under the column's
    comparator), the removal of error records before display, and the direction
    toggle of `handleSort`. */
module Table {
  import opened Wrappers
  import opened Records
  import Text

  /** The sortable columns. */
  datatype SortField = MonthChangeField | DividendYieldField | MarketCapField

  datatype Direction = Asc | Desc

  /** A sort key: a number, or `-Infinity` for a record without one. */
  datatype Key = NegInf | Finite(v: real)

  /** The column's value; for the market-cap column the net assets stand in for a
      missing market cap (a `null` there compares as 0), and `-Infinity` for neither. */
  function KeyOf(d: StockData, field: SortField): Key
  {
    match field
    case MonthChangeField => if d.monthChange.Some? then Finite(d.monthChange.value) else NegInf
    case DividendYieldField => Finite(d.dividendYield)
    case MarketCapField =>
      if d.marketCap.Some? then Finite(d.marketCap.value)
      else match d.totalNetAssets
        case Undefined => NegInf
        case Null => Finite(0.0)
        case Amount(v) => Finite(v)
  }

  predicate KeyLess(a: Key, b: Key)
  {
    match (a, b)
    case (NegInf, Finite(_)) => true
    case (Finite(x), Finite(y)) => x < y
    case _ => false
  }

  /** `a.localeCompare(b)`, with code-point order standing in for the locale's collation. */
  function SymbolCompare(a: string, b: string): (c: int)
    ensures c == 0 <==> a == b
    ensures c < 0 <==> a != b && Text.LexLeq(a, b)
  {
    if a == b then 0
    else if Text.LexLeq(a, b) then -1
    else 1
  }

  /** The comparator of `sortStockData`. */
  function Compare(a: StockData, b: StockData, field: SortField, dir: Direction): int
  {
    var ka, kb := KeyOf(a, field), KeyOf(b, field);
    if ka == NegInf && kb == NegInf then SymbolCompare(a.symbol, b.symbol)
    else if dir == Asc then (if KeyLess(ka, kb) then -1 else if KeyLess(kb, ka) then 1 else 0)
    else (if KeyLess(kb, ka) then -1 else if KeyLess(ka, kb) then 1 else 0)
  }

  /** `a` may stay in front of `b`: the comparator does not put it after. */
  predicate Before(a: StockData, b: StockData, field: SortField, dir: Direction)
  {
    Compare(a, b, field, dir) <= 0
  }

  predicate SortedBy(s: seq<StockData>, field: SortField, dir: Direction)
  {
    forall i, j :: 0 <= i < j < |s| ==> Before(s[i], s[j], field, dir)
  }

  // ---------------------------------------------------------------------------
  // The comparator is a total preorder

  lemma BeforeTotal(a: StockData, b: StockData, field: SortField, dir: Direction)
    ensures Before(a, b, field, dir) || Before(b, a, field, dir)
  {
    Text.LexLeqTotal(a.symbol, b.symbol);
  }

  lemma BeforeTransitive(a: StockData, b: StockData, c: StockData, field: SortField, dir: Direction)
    requires Before(a, b, field, dir) && Before(b, c, field, dir)
    ensures Before(a, c, field, dir)
  {
    var ka, kb, kc := KeyOf(a, field), KeyOf(b, field), KeyOf(c, field);
    if ka == NegInf && kb == NegInf && kc == NegInf {
      if a.symbol != b.symbol && b.symbol != c.symbol {
        Text.LexLeqTransitive(a.symbol, b.symbol, c.symbol);
        if a.symbol == c.symbol {
          Text.LexLeqAntisymmetric(a.symbol, b.symbol);
        }
      }
    }
  }

  // ---------------------------------------------------------------------------
  // What the comparator promises

  /** Records without a key are ordered by symbol, in either direction. */
  lemma MissingKeysBySymbol(a: StockData, b: StockData, field: SortField, dir: Direction)
    requires KeyOf(a, field) == NegInf && KeyOf(b, field) == NegInf
    ensures Before(a, b, field, dir) <==> Text.LexLeq(a.symbol, b.symbol)
  {
    if a.symbol == b.symbol {
      assert Text.LexLeq(a.symbol, a.symbol) by {
        Text.LexLeqTotal(a.symbol, a.symbol);
      }
    }
  }

  /** Descending puts the larger key strictly first, ascending the smaller; equal keys
      compare as 0 (and keep their order in a stable sort). */
  lemma DirectionOrders(a: StockData, b: StockData, field: SortField)
    ensures KeyLess(KeyOf(b, field), KeyOf(a, field)) ==>
      Before(a, b, field, Desc) && !Before(b, a, field, Desc) &&
      Before(b, a, field, Asc) && !Before(a, b, field, Asc)
    ensures KeyOf(a, field) == KeyOf(b, field) && KeyOf(a, field).Finite? ==>
      Compare(a, b, field, Asc) == 0 && Compare(a, b, field, Desc) == 0
  {
  }

  /** For the market-cap column a record with net assets (even `null`) ranks above one
      with neither figure, in descending order. */
  lemma NetAssetsStandIn(a: StockData, b: StockData)
    requires a.marketCap.None? && !a.totalNetAssets.Undefined?
    requires b.marketCap.None? && b.totalNetAssets.Undefined?
    ensures KeyOf(a, MarketCapField).Finite? && KeyOf(b, MarketCapField) == NegInf
    ensures Before(a, b, MarketCapField, Desc) && !Before(b, a, MarketCapField, Desc)
  {
  }

  // ---------------------------------------------------------------------------
  // Sorting

  /** Sorts the array in place under the comparator, by insertion. */
  method SortInPlace(a: array<StockData>, field: SortField, dir: Direction)
    modifies a
    ensures SortedBy(a[..], field, dir)
    ensures multiset(a[..]) == multiset(old(a[..]))
  {
    var i := 0;
    while i < a.Length
      invariant 0 <= i <= a.Length
      invariant forall k, l :: 0 <= k < l < i ==> Before(a[k], a[l], field, dir)
      invariant multiset(a[..]) == multiset(old(a[..]))
    {
      SiftDown(a, i, field, dir);
      i := i + 1;
    }
  }

  /** Every pair of `s[..i + 1]` is in order, except possibly those involving `j`. */
  predicate OrderedExcept(s: seq<StockData>, j: int, i: int, field: SortField, dir: Direction)
    requires i < |s|
  {
    forall k, l :: 0 <= k < l <= i && k != j && l != j ==> Before(s[k], s[l], field, dir)
  }

  /** `s[j]` may stay in front of everything after it up to `i`. */
  predicate BeforeRest(s: seq<StockData>, j: int, i: int, field: SortField, dir: Direction)
    requires 0 <= j && i < |s|
  {
    forall l :: j < l <= i ==> Before(s[j], s[l], field, dir)
  }

  /** Swapping the moving record with the one in front of it keeps both facts. */
  lemma SwapKeeps(s: seq<StockData>, j: int, i: int, field: SortField, dir: Direction)
    requires 0 < j <= i < |s|
    requires OrderedExcept(s, j, i, field, dir) && BeforeRest(s, j, i, field, dir)
    requires !Before(s[j - 1], s[j], field, dir)
    ensures var t := s[j - 1 := s[j]][j := s[j - 1]];
      OrderedExcept(t, j - 1, i, field, dir) && BeforeRest(t, j - 1, i, field, dir)
  {
    BeforeTotal(s[j - 1], s[j], field, dir);
  }

  /** Once the moving record is not after the one in front of it, the prefix is ordered. */
  lemma SiftDone(s: seq<StockData>, j: int, i: int, field: SortField, dir: Direction)
    requires 0 <= j <= i < |s|
    requires OrderedExcept(s, j, i, field, dir) && BeforeRest(s, j, i, field, dir)
    requires j > 0 ==> Before(s[j - 1], s[j], field, dir)
    ensures forall k, l :: 0 <= k < l <= i ==> Before(s[k], s[l], field, dir)
  {
    forall k | 0 <= k < j - 1
      ensures Before(s[k], s[j], field, dir)
    {
      BeforeTransitive(s[k], s[j - 1], s[j], field, dir);
    }
  }

  /** Moves `a[i]` down into the ordered prefix `a[..i]`, leaving `a[..i + 1]` ordered. */
  method SiftDown(a: array<StockData>, i: int, field: SortField, dir: Direction)
    requires 0 <= i < a.Length
    requires forall k, l :: 0 <= k < l < i ==> Before(a[k], a[l], field, dir)
    modifies a
    ensures forall k, l :: 0 <= k < l <= i ==> Before(a[k], a[l], field, dir)
    ensures multiset(a[..]) == multiset(old(a[..]))
  {
    var j := i;
    while j > 0 && !Before(a[j - 1], a[j], field, dir)
      invariant 0 <= j <= i
      invariant OrderedExcept(a[..], j, i, field, dir) && BeforeRest(a[..], j, i, field, dir)
      invariant multiset(a[..]) == multiset(old(a[..]))
    {
      ghost var s := a[..];
      SwapKeeps(s, j, i, field, dir);
      a[j - 1], a[j] := a[j], a[j - 1];
      assert a[..] == s[j - 1 := s[j]][j := s[j - 1]];
      j := j - 1;
    }
    SiftDone(a[..], j, i, field, dir);
  }

  /** `sortStockData`: an empty list gives an empty list; otherwise a fresh copy of the
      records, sorted; the argument is left as it was. */
  method SortStockData(data: array<StockData>, field: SortField, dir: Direction)
    returns (sorted: array<StockData>)
    ensures fresh(sorted)
    ensures data[..] == old(data[..])
    ensures SortedBy(sorted[..], field, dir)
    ensures multiset(sorted[..]) == multiset(data[..])
  {
    if data.Length == 0 {
      sorted := new StockData[0];
      return;
    }
    sorted := new StockData[data.Length](i reads data requires 0 <= i < data.Length => data[i]);
    assert sorted[..] == data[..];
    SortInPlace(sorted, field, dir);
  }

  /** The records without the error flag, in their order. */
  function WithoutErrors(stocks: seq<StockData>): (r: seq<StockData>)
    ensures |r| <= |stocks|
    ensures forall d :: d in r <==> d in stocks && !d.error
  {
    if stocks == [] then []
    else if stocks[0].error then WithoutErrors(stocks[1..])
    else [stocks[0]] + WithoutErrors(stocks[1..])
  }

  /** The records kept keep their order and their repeats. */
  lemma {:induction false} WithoutErrorsConcat(a: seq<StockData>, b: seq<StockData>)
    ensures WithoutErrors(a + b) == WithoutErrors(a) + WithoutErrors(b)
  {
    if a == [] {
      assert a + b == b;
    } else {
      assert (a + b)[0] == a[0] && (a + b)[1..] == a[1..] + b;
      WithoutErrorsConcat(a[1..], b);
    }
  }

  /** The error-free records of a list as a multiset: each one with its own count. */
  lemma {:induction false} WithoutErrorsCounts(stocks: seq<StockData>, d: StockData)
    ensures multiset(WithoutErrors(stocks))[d] == if d.error then 0 else multiset(stocks)[d]
  {
    if stocks != [] {
      WithoutErrorsCounts(stocks[1..], d);
      assert stocks == [stocks[0]] + stocks[1..];
    }
  }

  /** The rows the page shows: the records without errors, sorted. */
  method DisplayedStocks(stocks: seq<StockData>, field: SortField, dir: Direction)
    returns (shown: array<StockData>)
    ensures fresh(shown)
    ensures SortedBy(shown[..], field, dir)
    ensures multiset(shown[..]) == multiset(WithoutErrors(stocks))
    ensures forall i :: 0 <= i < shown.Length ==> !shown[i].error
  {
    var validStocks := WithoutErrors(stocks);
    var copy := new StockData[|validStocks|](i requires 0 <= i < |validStocks| => validStocks[i]);
    assert copy[..] == validStocks;
    shown := SortStockData(copy, field, dir);
    forall i | 0 <= i < shown.Length
      ensures !shown[i].error
    {
      assert shown[i] in multiset(shown[..]);
    }
  }

  // ---------------------------------------------------------------------------
  // The direction toggle

  datatype SortState = SortState(field: SortField, direction: Direction)

  /** `handleSort`: the same column again flips the direction; another column starts
      descending. */
  function HandleSort(s: SortState, clicked: SortField): (t: SortState)
    ensures t.field == clicked
    ensures clicked != s.field ==> t.direction == Desc
    ensures clicked == s.field ==> t.direction != s.direction
  {
    if clicked == s.field then SortState(clicked, if s.direction == Desc then Asc else Desc)
    else SortState(clicked, Desc)
  }

  /** Clicking the same column twice restores the order; a new column is descending
      first and ascending on the second click. */
  lemma HandleSortCycle(s: SortState, clicked: SortField)
    ensures clicked == s.field ==> HandleSort(HandleSort(s, clicked), clicked) == s
    ensures clicked != s.field ==> HandleSort(HandleSort(s, clicked), clicked) == SortState(clicked, Asc)
  {
  }
}
