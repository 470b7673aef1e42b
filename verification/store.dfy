/** The stock-list hook (`useMultipleStocks`): the active symbols, the displayed
    records and the record cache, and the operations that fetch, add, remove and reset
    them. A fetch of `/api/stocks/<symbol>` is an input (`Response`); the hook's
    loading flag, error banner and local storage are not part of this model. */
module Store {
  import opened Wrappers
  import opened Records
  import Text
  import Sorting

  /** A fetch of `/api/stocks/<symbol>`: it threw (message), answered with a status
      that is not ok, or answered a record. */
  datatype Response = ResponseThrew(message: string) | ResponseNotOk | ResponseOk(data: StockData)

  /** What `fetchAllStocks` resolves to (the outer `catch` is never reached: nothing
      in its body throws past the per-symbol handler). */
  datatype FetchResult = NothingToFetch | Tally(success: bool, failedSymbols: seq<string>)

  // ---------------------------------------------------------------------------
  // List updaters

  /** `Array.prototype.filter`. */
  function Filter<T(!new)>(s: seq<T>, keep: T -> bool): (r: seq<T>)
    ensures |r| <= |s|
    ensures forall x :: x in r <==> x in s && keep(x)
  {
    if s == [] then []
    else if keep(s[0]) then [s[0]] + Filter(s[1..], keep)
    else Filter(s[1..], keep)
  }

  /** Filtering keeps the relative order: it distributes over concatenation. */
  lemma {:induction false} FilterConcat<T(!new)>(a: seq<T>, b: seq<T>, keep: T -> bool)
    ensures Filter(a + b, keep) == Filter(a, keep) + Filter(b, keep)
  {
    if a != [] {
      var ab := a + b;
      assert ab != [] && ab[0] == a[0] && ab[1..] == a[1..] + b;
      FilterConcat(a[1..], b, keep);
      if keep(a[0]) {
        assert Filter(ab, keep) == [a[0]] + Filter(a[1..] + b, keep);
        assert Filter(a, keep) == [a[0]] + Filter(a[1..], keep);
      } else {
        assert Filter(ab, keep) == Filter(a[1..] + b, keep);
        assert Filter(a, keep) == Filter(a[1..], keep);
      }
    } else {
      assert a + b == b;
    }
  }

  /** Filtering away nothing leaves the list as it was. */
  lemma {:induction false} FilterKeepsAll<T(!new)>(s: seq<T>, keep: T -> bool)
    requires forall x :: x in s ==> keep(x)
    ensures Filter(s, keep) == s
  {
    if s != [] {
      FilterKeepsAll(s[1..], keep);
    }
  }

  /** Filtering away everything leaves nothing. */
  lemma {:induction false} FilterKeepsNone<T(!new)>(s: seq<T>, keep: T -> bool)
    requires forall x :: x in s ==> !keep(x)
    ensures Filter(s, keep) == []
  {
    if s != [] {
      FilterKeepsNone(s[1..], keep);
    }
  }

  /** No element occurs twice. */
  predicate NoRepeats<T(==)>(s: seq<T>)
  {
    forall i, j :: 0 <= i < j < |s| ==> s[i] != s[j]
  }

  predicate HasSymbol(s: seq<StockData>, key: string)
  {
    exists i :: 0 <= i < |s| && s[i].symbol == key
  }

  /** `findIndex(s => s.symbol === key)`, with `|s|` for -1. */
  function FindIndex(s: seq<StockData>, key: string): (i: nat)
    ensures i <= |s|
    ensures i < |s| ==> s[i].symbol == key
    ensures forall j :: 0 <= j < i ==> s[j].symbol != key
  {
    if s == [] then 0
    else if s[0].symbol == key then 0
    else 1 + FindIndex(s[1..], key)
  }

  /** The `setStocksData` updater of a fetch: the first record with the key is replaced
      in place, or the record is appended. */
  function Upsert(current: seq<StockData>, data: StockData, key: string): (r: seq<StockData>)
    ensures HasSymbol(current, key) ==> |r| == |current|
    ensures !HasSymbol(current, key) ==> r == current + [data]
    ensures data in r
    ensures forall j :: 0 <= j < |current| && current[j].symbol != key ==> r[j] == current[j]
    ensures forall j :: 0 <= j < |current| ==> r[j] == current[j] || r[j] == data
    ensures HasSymbol(current, key) ==>
      FindIndex(current, key) < |current| && r[FindIndex(current, key)] == data &&
      forall j :: 0 <= j < |current| && j != FindIndex(current, key) ==> r[j] == current[j]
  {
    var existing := FindIndex(current, key);
    if existing < |current| then
      assert current[existing := data][existing] == data;
      current[existing := data]
    else current + [data]
  }

  /** Upserting the same record under its own symbol twice changes nothing more. */
  lemma UpsertIdempotent(current: seq<StockData>, data: StockData)
    ensures Upsert(Upsert(current, data, data.symbol), data, data.symbol) == Upsert(current, data, data.symbol)
  {
    var key := data.symbol;
    var once := Upsert(current, data, key);
    var i := FindIndex(current, key);
    if i < |current| {
      assert forall j :: 0 <= j < i ==> once[j] == current[j];
      assert FindIndex(once, key) == i by {
        FindIndexIs(once, key, i);
      }
    } else {
      assert FindIndex(once, key) == |current| by {
        FindIndexIs(once, key, |current|);
      }
    }
  }

  /** The first index holding the key is the one `FindIndex` reports. */
  lemma {:induction false} FindIndexIs(s: seq<StockData>, key: string, i: nat)
    requires i < |s| && s[i].symbol == key
    requires forall j :: 0 <= j < i ==> s[j].symbol != key
    ensures FindIndex(s, key) == i
  {
    if i > 0 {
      FindIndexIs(s[1..], key, i - 1);
    }
  }

  function OtherSymbol(symbol: string): string -> bool
  {
    (s: string) => s != symbol
  }

  function OtherRecord(symbol: string): StockData -> bool
  {
    (d: StockData) => d.symbol != symbol
  }

  /** `list.filter(s => s !== symbol)`. */
  function WithoutSymbol(symbols: seq<string>, symbol: string): (r: seq<string>)
    ensures forall s :: s in r <==> s in symbols && s != symbol
  {
    Filter(symbols, OtherSymbol(symbol))
  }

  /** `current.filter(stock => stock.symbol !== symbol)`. */
  function WithoutRecord(stocks: seq<StockData>, symbol: string): (r: seq<StockData>)
    ensures forall d :: d in r <==> d in stocks && d.symbol != symbol
  {
    Filter(stocks, OtherRecord(symbol))
  }

  /** Removal touches only the removed symbol: the lists around it keep their order,
      and a symbol that is not there leaves the list as it was. */
  lemma RemovalKeepsOthers(a: seq<StockData>, b: seq<StockData>, symbol: string)
    ensures WithoutRecord(a + b, symbol) == WithoutRecord(a, symbol) + WithoutRecord(b, symbol)
    ensures !HasSymbol(a, symbol) ==> WithoutRecord(a, symbol) == a
  {
    FilterConcat(a, b, OtherRecord(symbol));
    if !HasSymbol(a, symbol) {
      FilterKeepsAll(a, OtherRecord(symbol));
    }
  }

  lemma SymbolRemovalKeepsOthers(a: seq<string>, b: seq<string>, symbol: string)
    ensures WithoutSymbol(a + b, symbol) == WithoutSymbol(a, symbol) + WithoutSymbol(b, symbol)
    ensures symbol !in a ==> WithoutSymbol(a, symbol) == a
  {
    FilterConcat(a, b, OtherSymbol(symbol));
    if symbol !in a {
      FilterKeepsAll(a, OtherSymbol(symbol));
    }
  }

  // ---------------------------------------------------------------------------
  // Symbol normalisation

  function NormalizeSymbol(s: string): string
  {
    Text.ToUpper(Text.Trim(s))
  }

  /** `symbols.map(s => s.trim().toUpperCase()).filter(s => s.length > 0)`. */
  function Normalize(symbols: seq<string>): (r: seq<string>)
    ensures |r| <= |symbols|
    ensures forall s :: s in r <==> s != [] && exists x :: x in symbols && s == NormalizeSymbol(x)
  {
    if symbols == [] then []
    else
      var head := NormalizeSymbol(symbols[0]);
      var rest := Normalize(symbols[1..]);
      assert forall x :: x in symbols <==> x == symbols[0] || x in symbols[1..];
      if head != [] then [head] + rest else rest
  }

  /** Normalising distributes over concatenation: one entry per input, in order. */
  lemma {:induction false} NormalizeConcat(a: seq<string>, b: seq<string>)
    ensures Normalize(a + b) == Normalize(a) + Normalize(b)
  {
    if a == [] {
      assert a + b == b;
    } else {
      assert (a + b)[0] == a[0] && (a + b)[1..] == a[1..] + b;
      NormalizeConcat(a[1..], b);
    }
  }

  /** Repeats are kept: when no input normalises to the empty string, there are as
      many outputs as inputs. */
  lemma NormalizeHead(symbols: seq<string>)
    requires symbols != [] && NormalizeSymbol(symbols[0]) != []
    ensures Normalize(symbols) == [NormalizeSymbol(symbols[0])] + Normalize(symbols[1..])
  {
  }

  /** A list whose head is `f` of the first input and whose tail maps the rest by `f`
      maps every input by `f`. */
  lemma {:induction false} ConsEach<T, U>(r: seq<U>, t: seq<U>, xs: seq<T>, f: T -> U)
    requires xs != [] && r == [f(xs[0])] + t
    requires |t| == |xs| - 1
    requires forall i :: 0 <= i < |t| ==> t[i] == f(xs[1..][i])
    ensures |r| == |xs|
    ensures forall i :: 0 <= i < |xs| ==> r[i] == f(xs[i])
  {
    forall i | 1 <= i < |xs|
      ensures r[i] == f(xs[i])
    {
      assert r[i] == t[i - 1] && xs[1..][i - 1] == xs[i];
    }
  }

  lemma {:induction false} NormalizeKeepsEach(symbols: seq<string>)
    requires forall i :: 0 <= i < |symbols| ==> NormalizeSymbol(symbols[i]) != []
    ensures |Normalize(symbols)| == |symbols|
    ensures forall i :: 0 <= i < |symbols| ==> Normalize(symbols)[i] == NormalizeSymbol(symbols[i])
  {
    if symbols != [] {
      NormalizeKeepsEach(symbols[1..]);
      NormalizeHead(symbols);
      ConsEach(Normalize(symbols), Normalize(symbols[1..]), symbols, NormalizeSymbol);
    }
  }

  lemma UpperIdempotent(s: string)
    ensures Text.ToUpper(Text.ToUpper(s)) == Text.ToUpper(s)
  {
  }

  /** A normalised symbol is its own normal form. */
  lemma {:induction false} NormalizeSymbolIdempotent(s: string)
    ensures NormalizeSymbol(NormalizeSymbol(s)) == NormalizeSymbol(s)
  {
    var t := Text.Trim(s);
    var u := Text.ToUpper(t);
    UpperIdempotent(t);
    if u != [] {
      assert !Text.IsSpace(u[0]) && !Text.IsSpace(u[|u| - 1]) by {
        UpperKeepsSpace(t[0]);
        UpperKeepsSpace(t[|t| - 1]);
      }
      TrimUnspaced(u);
    }
  }

  /** Upper-casing neither makes nor unmakes whitespace. */
  lemma UpperKeepsSpace(c: char)
    ensures Text.IsSpace(Text.UpperChar(c)) == Text.IsSpace(c)
  {
  }

  /** Text with no whitespace at either end is its own trim. */
  lemma {:induction false} TrimUnspaced(u: string)
    requires u != [] && !Text.IsSpace(u[0]) && !Text.IsSpace(u[|u| - 1])
    ensures Text.Trim(u) == u
  {
    assert Text.TrimEnd(u) == u;
    assert Text.TrimStart(u) == u;
  }

  /** Normalising a normalised list changes nothing. */
  lemma {:induction false} NormalizeIdempotent(symbols: seq<string>)
    ensures Normalize(Normalize(symbols)) == Normalize(symbols)
  {
    if symbols != [] {
      NormalizeIdempotent(symbols[1..]);
      var head := NormalizeSymbol(symbols[0]);
      NormalizeSymbolIdempotent(symbols[0]);
      if head != [] {
        var n := Normalize(symbols);
        assert n[1..] == Normalize(symbols[1..]);
      }
    }
  }

  /** The reset list: normalised, then sorted in place by the default ordering (the
      same array becomes the active list, so the active list is the sorted one). */
  function ResetList(symbols: seq<string>): seq<string>
  {
    Sorting.Sort(Normalize(symbols), Text.LexLeq)
  }

  /** The default ordering is a total preorder. */
  lemma DefaultOrderPreorder()
    ensures Sorting.Total(Text.LexLeq) && Sorting.Transitive(Text.LexLeq)
  {
    forall a, b
      ensures Text.LexLeq(a, b) || Text.LexLeq(b, a)
    {
      Text.LexLeqTotal(a, b);
    }
    forall a, b, c | Text.LexLeq(a, b) && Text.LexLeq(b, c)
      ensures Text.LexLeq(a, c)
    {
      Text.LexLeqTransitive(a, b, c);
    }
  }

  /** The reset list is in order, holds the normalised symbols, and each of them is
      non-empty and in normal form. */
  lemma ResetListOrdered(symbols: seq<string>)
    ensures Sorting.Sorted(ResetList(symbols), Text.LexLeq)
    ensures multiset(ResetList(symbols)) == multiset(Normalize(symbols))
  {
    DefaultOrderPreorder();
    Sorting.SortSorted(Normalize(symbols), Text.LexLeq);
  }

  lemma ResetListNormal(symbols: seq<string>)
    ensures forall s :: s in ResetList(symbols) ==> s != [] && NormalizeSymbol(s) == s
  {
    forall s | s in ResetList(symbols)
      ensures s != [] && NormalizeSymbol(s) == s
    {
      assert s in multiset(ResetList(symbols));
      NormalizedMember(symbols, s);
    }
  }

  lemma NormalizedMember(symbols: seq<string>, s: string)
    requires s in Normalize(symbols)
    ensures s != [] && NormalizeSymbol(s) == s
  {
    var x :| x in symbols && s == NormalizeSymbol(x);
    NormalizeSymbolIdempotent(x);
  }

  // ---------------------------------------------------------------------------
  // Single fetches

  /** The message of a failed fetch. */
  function FailureMessage(symbol: string, response: Response): string
  {
    if response.ResponseThrew? then response.message else "Failed to fetch " + symbol
  }

  /** The record the hook makes for a failed fetch. */
  function HookErrorRecord(symbol: string, message: string): (d: StockData)
    ensures d.symbol == symbol && d.error && d.errorMessage == Some(message)
    ensures d.dividendHistory == [] && d.yieldRate == 0.0 && d.dividendYield == 0.0
    ensures d.payFrequency == "" && d.recommendationKey == "" && d.source == ""
    ensures !d.isEtf && d.totalNetAssets == Null
  {
    StockData(
      symbol := symbol, name := "", longName := None, regularMarketPrice := None,
      dayChange := None, dividendHistory := [], yieldRate := 0.0, dividendYield := 0.0,
      marketCap := None, monthChange := None, fiftyDayAverageChangePercent := None,
      payFrequency := "", recommendationKey := "", isEtf := false,
      totalNetAssets := Null, source := "", error := true,
      errorMessage := Some(message), opinion := None, priceHistory := [])
  }

  /** What `fetchSingleStock` resolves to: the answered record, or an error record. */
  function FetchedRecord(symbol: string, response: Response): (d: StockData)
    ensures response.ResponseOk? ==> d == response.data
    ensures !response.ResponseOk? ==> d.error && d.symbol == symbol
  {
    if response.ResponseOk? then response.data
    else HookErrorRecord(symbol, FailureMessage(symbol, response))
  }

  // ---------------------------------------------------------------------------
  // Batch fetches

  /** The records a batch keeps, in order: the answers whose symbol was requested. */
  function LoadedOf(symbols: seq<string>, responses: seq<Response>): (r: seq<StockData>)
    ensures |r| <= |responses|
    ensures forall d :: d in r <==> d.symbol in symbols && ResponseOk(d) in responses
  {
    if responses == [] then []
    else
      var init := responses[..|responses| - 1];
      var last := responses[|responses| - 1];
      assert responses == init + [last];
      LoadedOf(symbols, init) +
        (if last.ResponseOk? && last.data.symbol in symbols then [last.data] else [])
  }

  /** The batch's `completedCount`: one for a failure, one for a kept answer, none
      for an answer about a symbol that was not requested. */
  function CompletedOf(symbols: seq<string>, responses: seq<Response>): (n: nat)
    ensures n <= |responses|
  {
    if responses == [] then 0
    else
      var last := responses[|responses| - 1];
      CompletedOf(symbols, responses[..|responses| - 1]) +
        (if last.ResponseOk? && last.data.symbol !in symbols then 0 else 1)
  }

  /** One more answer extends the batch's records and count. */
  lemma BatchStep(symbols: seq<string>, responses: seq<Response>, i: nat)
    requires i < |responses|
    ensures var r := responses[i];
      LoadedOf(symbols, responses[..i + 1]) ==
        LoadedOf(symbols, responses[..i]) + (if r.ResponseOk? && r.data.symbol in symbols then [r.data] else [])
    ensures var r := responses[i];
      CompletedOf(symbols, responses[..i + 1]) ==
        CompletedOf(symbols, responses[..i]) + (if r.ResponseOk? && r.data.symbol !in symbols then 0 else 1)
  {
    assert responses[..i + 1][..i] == responses[..i];
  }

  /** One more kept record extends the cache and the displayed list. */
  lemma KeepStep(cache: map<string, StockData>, stocks: seq<StockData>, loaded: seq<StockData>, d: StockData)
    ensures CacheWith(cache, loaded + [d]) == CacheWith(cache, loaded)[d.symbol := d]
    ensures UpsertAll(stocks, loaded + [d]) == Upsert(UpsertAll(stocks, loaded), d, d.symbol)
  {
    assert (loaded + [d])[..|loaded|] == loaded;
  }

  /** The requested symbols with no loaded record. */
  function FailedOf(symbols: seq<string>, loaded: seq<StockData>): seq<string>
  {
    Filter(symbols, Unloaded(loaded))
  }

  function Unloaded(loaded: seq<StockData>): string -> bool
  {
    (s: string) => !HasSymbol(loaded, s)
  }

  /** The result of a batch over a non-empty list. */
  function TallyOf(symbols: seq<string>, loaded: seq<StockData>): FetchResult
  {
    if |loaded| == 0 then Tally(false, symbols)
    else Tally(|loaded| == |symbols|, FailedOf(symbols, loaded))
  }

  /** Record i is the last one in the list with its symbol. */
  predicate LastOfSymbol(loaded: seq<StockData>, i: int)
  {
    0 <= i < |loaded| && forall j :: i < j < |loaded| ==> loaded[j].symbol != loaded[i].symbol
  }

  lemma LastOfSymbolInit(loaded: seq<StockData>)
    requires loaded != []
    ensures LastOfSymbol(loaded, |loaded| - 1)
    ensures forall i :: 0 <= i < |loaded| - 1 && LastOfSymbol(loaded, i) ==>
      LastOfSymbol(loaded[..|loaded| - 1], i) && loaded[i].symbol != loaded[|loaded| - 1].symbol
  {
  }

  lemma HasSymbolInit(loaded: seq<StockData>)
    requires loaded != []
    ensures forall s :: HasSymbol(loaded, s) <==>
      HasSymbol(loaded[..|loaded| - 1], s) || loaded[|loaded| - 1].symbol == s
  {
    var init := loaded[..|loaded| - 1];
    forall s | HasSymbol(loaded, s)
      ensures HasSymbol(init, s) || loaded[|loaded| - 1].symbol == s
    {
      var i :| 0 <= i < |loaded| && loaded[i].symbol == s;
      if i < |init| {
        assert init[i].symbol == s;
      }
    }
    forall s | HasSymbol(init, s)
      ensures HasSymbol(loaded, s)
    {
      var i :| 0 <= i < |init| && init[i].symbol == s;
      assert loaded[i].symbol == s;
    }
  }

  /** The cache after the batch: each kept record under its own symbol, later ones
      winning. */
  function CacheWith(cache: map<string, StockData>, loaded: seq<StockData>): (c: map<string, StockData>)
    ensures forall d :: d in loaded ==> d.symbol in c
    ensures forall s :: s in cache ==> s in c
  {
    if loaded == [] then cache
    else
      var last := loaded[|loaded| - 1];
      CacheWith(cache, loaded[..|loaded| - 1])[last.symbol := last]
  }

  /** The cache holds exactly the old keys and the loaded symbols; each loaded symbol
      maps to its last loaded record, and every other entry stays. */
  lemma {:induction false} CacheWithEntries(cache: map<string, StockData>, loaded: seq<StockData>)
    ensures var c := CacheWith(cache, loaded);
      forall s :: s in c <==> s in cache || HasSymbol(loaded, s)
    ensures var c := CacheWith(cache, loaded);
      forall i :: LastOfSymbol(loaded, i) ==> loaded[i].symbol in c && c[loaded[i].symbol] == loaded[i]
    ensures var c := CacheWith(cache, loaded);
      forall s :: s in cache && !HasSymbol(loaded, s) ==> c[s] == cache[s]
  {
    if loaded != [] {
      CacheWithEntries(cache, loaded[..|loaded| - 1]);
      LastOfSymbolInit(loaded);
      HasSymbolInit(loaded);
    }
  }

  /** The displayed list after the batch: each kept record upserted in turn. */
  function UpsertAll(stocks: seq<StockData>, loaded: seq<StockData>): (r: seq<StockData>)
    ensures forall d :: d in loaded ==> HasSymbol(r, d.symbol)
  {
    if loaded == [] then stocks
    else
      var last := loaded[|loaded| - 1];
      var before := UpsertAll(stocks, loaded[..|loaded| - 1]);
      var r := Upsert(before, last, last.symbol);
      forall d | d in loaded
        ensures HasSymbol(r, d.symbol)
      {
        if d != last {
          assert d in loaded[..|loaded| - 1];
          var i :| 0 <= i < |before| && before[i].symbol == d.symbol;
          assert r[i].symbol == d.symbol;
        } else {
          var i :| 0 <= i < |r| && r[i] == last;
        }
      }
      r
  }

  /** The last loaded record of each symbol is displayed, the list never shrinks, and
      a record whose symbol did not load keeps its place. */
  lemma {:induction false} UpsertAllKeeps(stocks: seq<StockData>, loaded: seq<StockData>)
    ensures forall i :: LastOfSymbol(loaded, i) ==> loaded[i] in UpsertAll(stocks, loaded)
    ensures |stocks| <= |UpsertAll(stocks, loaded)|
    ensures forall j :: 0 <= j < |stocks| && !HasSymbol(loaded, stocks[j].symbol) ==>
      UpsertAll(stocks, loaded)[j] == stocks[j]
  {
    if loaded != [] {
      var last := loaded[|loaded| - 1];
      var before := UpsertAll(stocks, loaded[..|loaded| - 1]);
      var r := UpsertAll(stocks, loaded);
      assert r == Upsert(before, last, last.symbol);
      UpsertAllKeeps(stocks, loaded[..|loaded| - 1]);
      LastOfSymbolInit(loaded);
      HasSymbolInit(loaded);
      forall i | LastOfSymbol(loaded, i)
        ensures loaded[i] in r
      {
        if i < |loaded| - 1 {
          var k :| 0 <= k < |before| && before[k] == loaded[i];
          assert r[k] == before[k];
        } else {
          var k :| 0 <= k < |r| && r[k] == last;
        }
      }
    }
  }

  /** `failedSymbols` is exactly the requested symbols without a loaded record, in
      both branches; when nothing loaded the batch fails with every symbol. */
  lemma TallyFailedExactly(symbols: seq<string>, loaded: seq<StockData>)
    requires symbols != []
    ensures TallyOf(symbols, loaded).Tally?
    ensures forall s :: s in TallyOf(symbols, loaded).failedSymbols <==> s in symbols && !HasSymbol(loaded, s)
    ensures |loaded| == 0 ==> TallyOf(symbols, loaded) == Tally(false, symbols)
  {
  }

  /** With every loaded record accounted for by its symbol, success means every
      requested symbol loaded. */
  lemma FullLoadSucceeds(symbols: seq<string>, responses: seq<Response>)
    requires symbols != [] && |responses| == |symbols|
    requires forall i :: 0 <= i < |responses| ==>
      (responses[i].ResponseOk? && responses[i].data.symbol == symbols[i])
    ensures TallyOf(symbols, LoadedOf(symbols, responses)) == Tally(true, [])
  {
    var loaded := LoadedOf(symbols, responses);
    AllAnsweredLoaded(symbols, responses);
    forall s | s in symbols
      ensures HasSymbol(loaded, s)
    {
      var i :| 0 <= i < |symbols| && symbols[i] == s;
      assert loaded[i].symbol == s;
    }
    FilterKeepsNone(symbols, Unloaded(loaded));
  }

  lemma {:induction false} AllAnsweredLoaded(symbols: seq<string>, responses: seq<Response>)
    requires forall i :: 0 <= i < |responses| ==> responses[i].ResponseOk? && responses[i].data.symbol in symbols
    ensures |LoadedOf(symbols, responses)| == |responses|
    ensures forall i :: 0 <= i < |responses| ==> LoadedOf(symbols, responses)[i] == responses[i].data
  {
    if responses != [] {
      var init := responses[..|responses| - 1];
      var last := responses[|responses| - 1];
      AllAnsweredLoaded(symbols, init);
      assert LoadedOf(symbols, responses) == LoadedOf(symbols, init) + [last.data] by {
        assert last.ResponseOk? && last.data.symbol in symbols;
      }
      assert forall i :: 0 <= i < |init| ==> init[i] == responses[i];
    }
  }

  /** When an answer carries the symbol it was asked for and no symbol is requested
      twice, `success` holds exactly when `failedSymbols` is empty. */
  lemma {:induction false} EchoedSuccess(symbols: seq<string>, responses: seq<Response>)
    requires symbols != [] && |responses| == |symbols|
    requires NoRepeats(symbols)
    requires forall i :: 0 <= i < |responses| && responses[i].ResponseOk? ==> responses[i].data.symbol == symbols[i]
    ensures var t := TallyOf(symbols, LoadedOf(symbols, responses));
      t.success <==> t.failedSymbols == []
  {
    var loaded := LoadedOf(symbols, responses);
    var t := TallyOf(symbols, loaded);
    if t.failedSymbols == [] {
      forall i | 0 <= i < |responses|
        ensures responses[i].ResponseOk?
      {
        assert symbols[i] !in t.failedSymbols;
        var k :| 0 <= k < |loaded| && loaded[k].symbol == symbols[i];
        var j := LoadedFrom(symbols, responses, loaded[k]);
        assert symbols[j] == symbols[i];
      }
      FullLoadSucceeds(symbols, responses);
    } else if t.success {
      assert |loaded| == |responses|;
      AllLoadedAnswered(symbols, responses);
      FullLoadSucceeds(symbols, responses);
    }
  }

  /** Every loaded record is the answer to some request. */
  lemma {:induction false} LoadedFrom(symbols: seq<string>, responses: seq<Response>, d: StockData)
    returns (j: nat)
    requires d in LoadedOf(symbols, responses)
    ensures j < |responses| && responses[j] == ResponseOk(d)
  {
    var front := responses[..|responses| - 1];
    if d in LoadedOf(symbols, front) {
      j := LoadedFrom(symbols, front, d);
    } else {
      j := |responses| - 1;
    }
  }

  /** As many loaded records as requests means every request was answered. */
  lemma {:induction false} AllLoadedAnswered(symbols: seq<string>, responses: seq<Response>)
    requires |LoadedOf(symbols, responses)| == |responses|
    ensures forall i :: 0 <= i < |responses| ==>
      (responses[i].ResponseOk? && responses[i].data.symbol in symbols)
  {
    if responses != [] {
      var front := responses[..|responses| - 1];
      AllLoadedAnswered(symbols, front);
      assert forall i :: 0 <= i < |front| ==> front[i] == responses[i];
    }
  }

  // ---------------------------------------------------------------------------
  // The hook's state

  class StockStore {
    var activeSymbols: seq<string>
    var stocksData: seq<StockData>
    var cache: map<string, StockData>
    /** `progress.current`. */
    var progressCurrent: int

    /** The initial state: the saved or configured symbols, nothing loaded. */
    constructor (initialSymbols: seq<string>)
      ensures activeSymbols == initialSymbols && stocksData == [] && cache == map[]
      ensures progressCurrent == 0
    {
      activeSymbols := initialSymbols;
      stocksData := [];
      cache := map[];
      progressCurrent := 0;
    }

    /** No symbol is active twice. */
    predicate Distinct()
      reads this
    {
      NoRepeats(activeSymbols)
    }

    /** `fetchSingleStock`: an answered record goes into the cache under the requested
        symbol and is upserted into the list; a failure changes nothing and gives an
        error record. */
    method FetchSingleStock(symbol: string, response: Response) returns (data: StockData)
      modifies this
      ensures data == FetchedRecord(symbol, response)
      ensures response.ResponseOk? ==>
        cache == old(cache)[symbol := data] && stocksData == Upsert(old(stocksData), data, symbol)
      ensures !response.ResponseOk? ==> cache == old(cache) && stocksData == old(stocksData)
      ensures activeSymbols == old(activeSymbols) && progressCurrent == old(progressCurrent)
    {
      match response
      case ResponseOk(d) =>
        data := d;
        cache := cache[symbol := data];
        stocksData := Upsert(stocksData, data, symbol);
      case ResponseNotOk =>
        data := HookErrorRecord(symbol, "Failed to fetch " + symbol);
      case ResponseThrew(message) =>
        data := HookErrorRecord(symbol, message);
    }

    /** `addStock`: an empty symbol gives nothing; an active one gives its cached
        record without a fetch; otherwise the fetched record, with the symbol appended
        to the active list only when the record has no error (and dropped from the
        cache when it has). */
    method AddStock(symbol: string, response: Response) returns (r: Option<StockData>)
      modifies this
      ensures symbol == [] ==> r == None && unchanged(this)
      ensures var key := Text.ToUpper(symbol);
        symbol != [] && key in old(activeSymbols) ==>
          unchanged(this) && r == (if key in old(cache) then Some(old(cache)[key]) else None)
      ensures var key := Text.ToUpper(symbol);
        var data := FetchedRecord(key, response);
        symbol != [] && key !in old(activeSymbols) ==>
          r == Some(data) &&
          activeSymbols == old(activeSymbols) + (if data.error then [] else [key]) &&
          cache == (if data.error then old(cache) - {key} else old(cache)[key := data]) &&
          stocksData == (if response.ResponseOk? then Upsert(old(stocksData), data, key) else old(stocksData))
      ensures old(Distinct()) ==> Distinct()
      ensures progressCurrent == old(progressCurrent)
    {
      if symbol == [] {
        return None;
      }
      var normalizedSymbol := Text.ToUpper(symbol);
      if normalizedSymbol in activeSymbols {
        return if normalizedSymbol in cache then Some(cache[normalizedSymbol]) else None;
      }
      var stockData := FetchSingleStock(normalizedSymbol, response);
      if !stockData.error {
        activeSymbols := activeSymbols + [normalizedSymbol];
      } else if normalizedSymbol in cache {
        cache := cache - {normalizedSymbol};
      }
      r := Some(stockData);
    }

    /** `removeStock`: the symbol leaves the active list; when it is cached it also
        leaves the cache and the displayed list. */
    method RemoveStock(symbol: string)
      modifies this
      ensures activeSymbols == WithoutSymbol(old(activeSymbols), symbol)
      ensures symbol in old(cache) ==>
        cache == old(cache) - {symbol} && stocksData == WithoutRecord(old(stocksData), symbol)
      ensures symbol !in old(cache) ==> cache == old(cache) && stocksData == old(stocksData)
      ensures symbol !in activeSymbols
      ensures old(Distinct()) ==> Distinct()
      ensures progressCurrent == old(progressCurrent)
    {
      ghost var before := activeSymbols;
      activeSymbols := WithoutSymbol(activeSymbols, symbol);
      if symbol in cache {
        cache := cache - {symbol};
        stocksData := WithoutRecord(stocksData, symbol);
      }
      if NoRepeats(before) {
        FilterDistinct(before, OtherSymbol(symbol));
        assert activeSymbols == Filter(before, OtherSymbol(symbol));
      }
    }

    /** The loop of `fetchAllStocks`: each request in turn; an answer about a
        requested symbol is cached and upserted. `progress.current` moves to the index
        before each request and to the completed count after each counted one. */
    method FetchEach(symbols: seq<string>, responses: seq<Response>) returns (newStockData: seq<StockData>)
      requires |responses| == |symbols| && symbols != []
      modifies this
      ensures newStockData == LoadedOf(symbols, responses)
      ensures cache == CacheWith(old(cache), newStockData)
      ensures stocksData == UpsertAll(old(stocksData), newStockData)
      ensures 0 <= progressCurrent <= |symbols|
      ensures activeSymbols == old(activeSymbols)
    {
      var completedCount := 0;
      newStockData := [];
      for i := 0 to |symbols|
        invariant newStockData == LoadedOf(symbols, responses[..i])
        invariant completedCount == CompletedOf(symbols, responses[..i])
        invariant cache == CacheWith(old(cache), newStockData)
        invariant stocksData == UpsertAll(old(stocksData), newStockData)
        invariant i > 0 ==> 0 <= progressCurrent <= i
        invariant activeSymbols == old(activeSymbols)
      {
        BatchStep(symbols, responses, i);
        progressCurrent := i;
        match responses[i]
        case ResponseOk(data) =>
          if data.symbol in symbols {
            KeepStep(old(cache), old(stocksData), newStockData, data);
            cache := cache[data.symbol := data];
            newStockData := newStockData + [data];
            stocksData := Upsert(stocksData, data, data.symbol);
            completedCount := completedCount + 1;
            progressCurrent := completedCount;
          }
        case _ =>
          completedCount := completedCount + 1;
          progressCurrent := completedCount;
      }
      assert responses[..|symbols|] == responses;
    }

    /** `fetchAllStocks`: the given list (the active one when none is given) is
        fetched in order, starting from an empty list of records when none is given;
        the result tallies what loaded. */
    method FetchAllStocks(symbolsToFetch: Option<seq<string>>, responses: seq<Response>)
      returns (result: FetchResult)
      requires |responses| == |if symbolsToFetch.Some? then symbolsToFetch.value else activeSymbols|
      modifies this
      ensures activeSymbols == old(activeSymbols)
      ensures var symbols := if symbolsToFetch.Some? then symbolsToFetch.value else old(activeSymbols);
        symbols == [] ==> result == NothingToFetch && cache == old(cache) && stocksData == old(stocksData)
      ensures var symbols := if symbolsToFetch.Some? then symbolsToFetch.value else old(activeSymbols);
        var loaded := LoadedOf(symbols, responses);
        symbols != [] ==>
          result == TallyOf(symbols, loaded) &&
          cache == CacheWith(old(cache), loaded) &&
          stocksData == UpsertAll(if symbolsToFetch.Some? then old(stocksData) else [], loaded) &&
          0 <= progressCurrent <= |symbols|
    {
      var symbols := if symbolsToFetch.Some? then symbolsToFetch.value else activeSymbols;
      if symbols == [] {
        return NothingToFetch;
      }
      if symbolsToFetch.None? {
        stocksData := [];
      }
      var newStockData := FetchEach(symbols, responses);
      if |newStockData| == 0 {
        return Tally(false, symbols);
      }
      return Tally(|newStockData| == |symbols|, FailedOf(symbols, newStockData));
    }

    /** `resetToSymbols`: the list is normalised and sorted, cache and records are
        cleared, the sorted list becomes the active one and is fetched. */
    method ResetToSymbols(symbols: seq<string>, responses: seq<Response>) returns (normalized: seq<string>)
      requires |responses| == |Normalize(symbols)|
      modifies this
      ensures normalized == ResetList(symbols) && activeSymbols == normalized
      ensures normalized == [] ==> cache == map[] && stocksData == []
      ensures var loaded := LoadedOf(normalized, responses);
        normalized != [] ==> cache == CacheWith(map[], loaded) && stocksData == UpsertAll([], loaded)
    {
      normalized := Normalize(symbols);
      progressCurrent := 0;
      cache := map[];
      stocksData := [];
      normalized := Sorting.Sort(normalized, Text.LexLeq);
      activeSymbols := normalized;
      var _ := FetchAllStocks(Some(normalized), responses);
    }
  }

  /** Filtering a list without repeats gives a list without repeats. */
  lemma {:induction false} FilterDistinct<T(!new)>(s: seq<T>, keep: T -> bool)
    requires NoRepeats(s)
    ensures NoRepeats(Filter(s, keep))
  {
    if s != [] {
      FilterDistinct(s[1..], keep);
      var r := Filter(s, keep);
      var t := Filter(s[1..], keep);
      if !keep(s[0]) {
        assert r == t;
      } else {
        assert r == [s[0]] + t;
        assert s[0] !in s[1..];
        assert s[0] !in t;
        forall i, j | 0 <= i < j < |r|
          ensures r[i] != r[j]
        {
          assert r[j] == t[j - 1] && r[j] in t;
          if i > 0 {
            assert r[i] == t[i - 1];
          } else {
            assert r[i] == s[0];
          }
        }
      }
    }
  }
}
