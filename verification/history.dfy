/** `getDividendHistory`: the dividend events of a symbol, from the chart query or,
    when that fails, from the historical query, newest first. The provider answers are
    inputs; the calendar month of a day comes from `monthOf`. */
module History {
  import opened Wrappers
  import opened Dividends
  import Sorting

  const MsPerDay: int := 86400000

  /** The largest distance from the epoch, in milliseconds, that a `Date` can hold;
      `toISOString` throws beyond it. */
  const MaxDateMs: int := 8640000000000000

  /** The date of a chart dividend: a `Date` object (its milliseconds), a number, or a
      string (what `new Date(s).getTime()` makes of it: `None` for NaN). */
  datatype RawDate = DateObject(ms: int) | EpochNumber(n: int) | DateString(parsedMs: Option<int>)

  datatype RawDividend = RawDividend(date: RawDate, amount: real)

  /** The chart query threw, or answered with or without a dividends list. */
  datatype Chart = ChartThrew | ChartOk(dividends: Option<seq<RawDividend>>)

  /** One row of the historical query: its date and its `dividends` column. */
  datatype HistoricalRow = HistoricalRow(ms: int, dividends: Option<real>)

  datatype Historical = HistoricalThrew | HistoricalOk(rows: seq<HistoricalRow>)

  /** The rule for numeric dates: a number below 10,000,000 counts days and becomes
      seconds; anything larger already counts seconds. */
  function NumericSeconds(n: int): int
  {
    if n < 10000000 then n * 86400 else n
  }

  /** The milliseconds of a chart date, with a `Date` object read as the instant it
      holds. */
  function EventMs(d: RawDate): Option<int>
  {
    match d
    case DateObject(ms) => Some(ms)
    case EpochNumber(n) => Some(NumericSeconds(n) * 1000)
    case DateString(p) => p
  }

  /** The calendar day of an instant, as `toISOString().split('T')[0]` names it;
      `None` where `toISOString` throws. */
  function DayOf(ms: Option<int>): (d: Option<int>)
    ensures d.Some? <==> ms.Some? && -MaxDateMs <= ms.value <= MaxDateMs
    ensures d.Some? ==> d.value * MsPerDay <= ms.value < (d.value + 1) * MsPerDay
  {
    if ms.Some? && -MaxDateMs <= ms.value <= MaxDateMs then Some(ms.value / MsPerDay) else None
  }

  /** The chart dividends as events, or `None` when one of them has a date that makes
      the conversion throw. */
  function ChartEvents(raws: seq<RawDividend>, monthOf: int -> Month): (r: Option<seq<DividendEvent>>)
    ensures r.Some? ==> (|r.value| == |raws| &&
      forall i :: 0 <= i < |raws| ==> r.value[i].amount == raws[i].amount)
    ensures r.Some? ==> forall i :: 0 <= i < |raws| ==>
      DayOf(EventMs(raws[i].date)) == Some(r.value[i].day) && r.value[i].month == monthOf(r.value[i].day)
    ensures r.None? <==> exists i :: 0 <= i < |raws| && DayOf(EventMs(raws[i].date)).None?
  {
    if raws == [] then Some([])
    else
      var front := ChartEvents(raws[..|raws| - 1], monthOf);
      var last := raws[|raws| - 1];
      var day := DayOf(EventMs(last.date));
      assert forall i :: 0 <= i < |raws| - 1 ==> raws[..|raws| - 1][i] == raws[i];
      if front.None? || day.None? then None
      else Some(front.value + [DividendEvent(day.value, monthOf(day.value), last.amount)])
  }

  /** The historical rows that paid a dividend (a positive `dividends` column). */
  predicate Paid(row: HistoricalRow)
  {
    row.dividends.Some? && row.dividends.value > 0.0
  }

  function PaidRows(rows: seq<HistoricalRow>): (r: seq<HistoricalRow>)
    ensures |r| <= |rows|
    ensures forall x :: x in r <==> x in rows && Paid(x)
  {
    if rows == [] then []
    else if Paid(rows[0]) then [rows[0]] + PaidRows(rows[1..])
    else PaidRows(rows[1..])
  }

  /** The paid rows keep their order and their repeats. */
  lemma {:induction false} PaidRowsConcat(a: seq<HistoricalRow>, b: seq<HistoricalRow>)
    ensures PaidRows(a + b) == PaidRows(a) + PaidRows(b)
  {
    if a == [] {
      assert a + b == b;
    } else {
      assert (a + b)[0] == a[0] && (a + b)[1..] == a[1..] + b;
      PaidRowsConcat(a[1..], b);
    }
  }

  /** `item.dividends || 0`. */
  function AmountOf(row: HistoricalRow): real
  {
    if row.dividends.Some? then row.dividends.value else 0.0
  }

  /** The rows as events, or `None` when a date makes the conversion throw. */
  function RowEvents(rows: seq<HistoricalRow>, monthOf: int -> Month): (r: Option<seq<DividendEvent>>)
    ensures r.Some? ==> (|r.value| == |rows| &&
      forall i :: 0 <= i < |rows| ==> r.value[i].amount == AmountOf(rows[i]))
    ensures r.Some? ==> forall i :: 0 <= i < |rows| ==>
      DayOf(Some(rows[i].ms)) == Some(r.value[i].day) && r.value[i].month == monthOf(r.value[i].day)
    ensures r.None? <==> exists i :: 0 <= i < |rows| && DayOf(Some(rows[i].ms)).None?
  {
    if rows == [] then Some([])
    else
      var rest := RowEvents(rows[1..], monthOf);
      var day := DayOf(Some(rows[0].ms));
      assert forall i :: 1 <= i < |rows| ==> rows[1..][i - 1] == rows[i];
      if rest.None? || day.None? then None
      else Some([DividendEvent(day.value, monthOf(day.value), AmountOf(rows[0]))] + rest.value)
  }

  /** The fallback: the paid rows of the historical query, newest first, or nothing
      when that query throws too. */
  function FallbackOf(historical: Historical, monthOf: int -> Month): seq<DividendEvent>
  {
    if historical.HistoricalThrew? then []
    else
      var paid := PaidRows(historical.rows);
      match RowEvents(paid, monthOf)
      case None => []
      case Some(events) => SortNewestFirst(events)
  }

  /** What `getDividendHistory` returns. */
  function DividendHistoryOf(symbol: string, chart: Chart, historical: Historical, monthOf: int -> Month)
    : seq<DividendEvent>
  {
    if symbol == [] then []
    else match chart
      case ChartThrew => FallbackOf(historical, monthOf)
      case ChartOk(None) => []
      case ChartOk(Some(raws)) =>
        match ChartEvents(raws, monthOf)
        case None => FallbackOf(historical, monthOf)
        case Some(events) => SortNewestFirst(events)
  }

  /** `getDividendHistory`: converts the chart dividends one by one, pushing each, then
      sorts them newest first; a conversion that throws sends it to the fallback. */
  method GetDividendHistory(symbol: string, chart: Chart, historical: Historical, monthOf: int -> Month)
    returns (dividends: seq<DividendEvent>)
    ensures dividends == DividendHistoryOf(symbol, chart, historical, monthOf)
  {
    if symbol == [] {
      return [];
    }
    if chart.ChartThrew? {
      return FallbackOf(historical, monthOf);
    }
    dividends := [];
    if chart.dividends.None? {
      return;
    }
    var raws := chart.dividends.value;
    for i := 0 to |raws|
      invariant ChartEvents(raws[..i], monthOf) == Some(dividends)
    {
      assert raws[..i + 1][..i] == raws[..i];
      var day := DayOf(EventMs(raws[i].date));
      if day.None? {
        assert ChartEvents(raws, monthOf).None?;
        return FallbackOf(historical, monthOf);
      }
      dividends := dividends + [DividendEvent(day.value, monthOf(day.value), raws[i].amount)];
    }
    assert raws[..|raws|] == raws;
    dividends := SortNewestFirst(dividends);
  }

  // ---------------------------------------------------------------------------
  // Properties

  /** An answer from the chart is final, even with no dividends in it. */
  lemma ChartAnswerIsFinal(symbol: string, raws: seq<RawDividend>, h1: Historical, h2: Historical,
                           monthOf: int -> Month)
    requires symbol != [] && ChartEvents(raws, monthOf).Some?
    ensures DividendHistoryOf(symbol, ChartOk(Some(raws)), h1, monthOf) ==
            DividendHistoryOf(symbol, ChartOk(Some(raws)), h2, monthOf)
    ensures DividendHistoryOf(symbol, ChartOk(None), h1, monthOf) == []
    ensures DividendHistoryOf(symbol, ChartOk(Some([])), h1, monthOf) == []
  {
  }

  /** The chart's events come back newest first, every one of them and nothing else. */
  lemma ChartEventsSorted(symbol: string, raws: seq<RawDividend>, historical: Historical,
                          monthOf: int -> Month)
    requires symbol != [] && ChartEvents(raws, monthOf).Some?
    ensures var r := DividendHistoryOf(symbol, ChartOk(Some(raws)), historical, monthOf);
      multiset(r) == multiset(ChartEvents(raws, monthOf).value) &&
      Sorting.Sorted(r, NewerOrSame)
  {
  }

  /** After a chart failure the events are the paid historical rows, newest first:
      as many as there are paid rows, each paying a positive amount. */
  lemma FallbackPaysPositive(symbol: string, historical: Historical, monthOf: int -> Month)
    requires symbol != [] && historical.HistoricalOk?
    requires RowEvents(PaidRows(historical.rows), monthOf).Some?
    ensures var r := DividendHistoryOf(symbol, ChartThrew, historical, monthOf);
      |r| == |PaidRows(historical.rows)| &&
      Sorting.Sorted(r, NewerOrSame) &&
      forall e :: e in r ==> e.amount > 0.0
  {
    var paid := PaidRows(historical.rows);
    var events := RowEvents(paid, monthOf).value;
    var r := SortNewestFirst(events);
    forall e | e in r
      ensures e.amount > 0.0
    {
      assert e in multiset(events);
      var i :| 0 <= i < |events| && events[i] == e;
      assert paid[i] in historical.rows;
    }
  }

  /** A failed fallback gives an empty history. */
  lemma BothFail(symbol: string, monthOf: int -> Month)
    ensures DividendHistoryOf(symbol, ChartThrew, HistoricalThrew, monthOf) == []
  {
  }

  /** Small numbers count days: the event falls on day n. Larger ones count seconds. */
  lemma NumericDates(n: int)
    ensures 0 <= n < 10000000 ==> DayOf(EventMs(EpochNumber(n))) == Some(n)
    ensures 10000000 <= n <= MaxDateMs / 1000 ==> DayOf(EventMs(EpochNumber(n))) == Some(n / 86400)
  {
    if 0 <= n < 10000000 {
      assert n * 86400 * 1000 == n * MsPerDay;
    } else if 10000000 <= n <= MaxDateMs / 1000 {
      assert (n * 1000) / MsPerDay == n / 86400;
    }
  }

  /** The event pays the dividend's amount on the calendar day of its `Date`. */
  predicate OnDayOf(e: DividendEvent, raw: RawDividend, monthOf: int -> Month)
    requires raw.date.DateObject?
  {
    e.day == raw.date.ms / MsPerDay && e.month == monthOf(e.day) && e.amount == raw.amount
  }

  /** With the corrected reading, chart dates given as `Date` objects within range
      never send the service to the fallback, and every event returned falls on the
      calendar day of its `Date`, with its amount. */
  lemma DateObjectDays(symbol: string, raws: seq<RawDividend>, historical: Historical,
                       monthOf: int -> Month)
    requires symbol != []
    requires forall i :: 0 <= i < |raws| ==>
      raws[i].date.DateObject? && -MaxDateMs <= raws[i].date.ms <= MaxDateMs
    ensures var r := DividendHistoryOf(symbol, ChartOk(Some(raws)), historical, monthOf);
      |r| == |raws| &&
      forall e :: e in r ==> exists i :: 0 <= i < |raws| && OnDayOf(e, raws[i], monthOf)
  {
    var events := ChartEvents(raws, monthOf);
    assert events.Some?;
    var r := SortNewestFirst(events.value);
    forall e | e in r
      ensures exists i :: 0 <= i < |raws| && OnDayOf(e, raws[i], monthOf)
    {
      assert e in multiset(events.value);
      var i :| 0 <= i < |events.value| && events.value[i] == e;
      assert DayOf(EventMs(raws[i].date)) == Some(e.day);
    }
  }

  // ---------------------------------------------------------------------------
  // The chart date of a `Date` object, as written

  /** The source turns a `Date` object into `getTime()` milliseconds and then feeds
      that number to the numeric rule, which reads it as seconds. */
  function AsWrittenEventMs(d: RawDate): Option<int>
  {
    match d
    case DateObject(ms) => Some(NumericSeconds(ms) * 1000)
    case EpochNumber(n) => Some(NumericSeconds(n) * 1000)
    case DateString(p) => p
  }

  /** A dividend paid on 14 November 2023 (1,700,000,000,000 ms) is filed on day
      19,675,925, about 54,000 years later, instead of on day 19,675. */
  lemma DateObjectMisread()
    ensures DayOf(AsWrittenEventMs(DateObject(1700000000000))) == Some(19675925)
    ensures DayOf(EventMs(DateObject(1700000000000))) == Some(19675)
  {
  }

  /** For every `Date` after the first 10,000,000 ms of 1970 the as-written day is
      (about) 1000 times the true one. */
  lemma DateObjectScaledByThousand(ms: int)
    requires 10000000 <= ms <= MaxDateMs / 1000
    ensures DayOf(AsWrittenEventMs(DateObject(ms))) == Some((ms * 1000) / MsPerDay)
    ensures DayOf(EventMs(DateObject(ms))) == Some(ms / MsPerDay)
  {
  }
}
