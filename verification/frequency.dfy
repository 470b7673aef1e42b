/** The pay-frequency classifier: sort the events newest first, average the day gaps
    between consecutive events, and map the mean gap to a label, with the
    "three or four distinct months" rule that forces Quarterly. */
module Frequency {
  import opened Dividends
  import Sorting

  /** The day gaps between consecutive events, newer minus older for a newest-first list. */
  function Gaps(s: seq<DividendEvent>): (g: seq<int>)
    ensures |g| == if |s| < 2 then 0 else |s| - 1
    ensures forall k :: 0 <= k < |g| ==> g[k] == s[k].day - s[k + 1].day
  {
    if |s| < 2 then []
    else
      var p := s[..|s| - 1];
      var g := Gaps(p);
      assert forall k :: 0 <= k < |p| ==> p[k] == s[k];
      g + [s[|s| - 2].day - s[|s| - 1].day]
  }

  /** `reduce((sum, days) => sum + days, 0)`. */
  function Total(xs: seq<int>): int
  {
    if xs == [] then 0 else Total(xs[..|xs| - 1]) + xs[|xs| - 1]
  }

  /** The gaps of a list telescope: they add up to its first day minus its last day. */
  lemma {:induction false} GapsTelescope(s: seq<DividendEvent>)
    requires s != []
    ensures Total(Gaps(s)) == s[0].day - s[|s| - 1].day
  {
    if |s| >= 2 {
      var p := s[..|s| - 1];
      GapsTelescope(p);
      var g := Gaps(s);
      assert g[..|g| - 1] == Gaps(p);
    }
  }

  lemma {:induction false} TotalOfEqual(xs: seq<int>, d: int)
    requires forall k :: 0 <= k < |xs| ==> xs[k] == d
    ensures Total(xs) == |xs| * d
  {
    if xs != [] {
      TotalOfEqual(xs[..|xs| - 1], d);
    }
  }

  /** The arithmetic mean of `count` numbers adding up to `total`. */
  function Mean(total: int, count: int): real
    requires count > 0
  {
    total as real / count as real
  }

  lemma MeanOfEqual(d: int, count: int)
    requires count > 0
    ensures Mean(count * d, count) == d as real
  {
    assert (count * d) as real == count as real * d as real;
  }

  /** The mean day gap of a list of at least two events. */
  function MeanGap(s: seq<DividendEvent>): real
    requires |s| >= 2
  {
    Mean(Total(Gaps(s)), |s| - 1)
  }

  /** One row of the threshold cascade: a mean gap up to `upTo` days (inclusive). */
  datatype Band = Band(upTo: real, frequency: PayFrequency)

  const Bands: seq<Band> := [
    Band(35.0, Monthly),
    Band(70.0, BiMonthly),
    Band(100.0, Quarterly),
    Band(190.0, SemiAnnual),
    Band(370.0, Annual)
  ]

  /** The frequency of the first band whose bound the mean gap meets, else Irregular. */
  function FirstBand(bands: seq<Band>, mean: real): PayFrequency
  {
    if bands == [] then Irregular
    else if mean <= bands[0].upTo then bands[0].frequency
    else FirstBand(bands[1..], mean)
  }

  /** The cascade, read as the disjoint intervals it carves the mean gap into. */
  function ByMeanGap(mean: real): (f: PayFrequency)
    ensures f == Monthly <==> mean <= 35.0
    ensures f == BiMonthly <==> 35.0 < mean <= 70.0
    ensures f == Quarterly <==> 70.0 < mean <= 100.0
    ensures f == SemiAnnual <==> 100.0 < mean <= 190.0
    ensures f == Annual <==> 190.0 < mean <= 370.0
    ensures f == Irregular <==> 370.0 < mean
  {
    var b1 := Bands[1..];
    var b2 := b1[1..];
    var b3 := b2[1..];
    var b4 := b3[1..];
    assert b4[1..] == [];
    assert FirstBand(b4, mean) == if mean <= 370.0 then Annual else FirstBand(b4[1..], mean);
    assert FirstBand(b3, mean) == if mean <= 190.0 then SemiAnnual else FirstBand(b4, mean);
    assert FirstBand(b2, mean) == if mean <= 100.0 then Quarterly else FirstBand(b3, mean);
    assert FirstBand(b1, mean) == if mean <= 70.0 then BiMonthly else FirstBand(b2, mean);
    FirstBand(Bands, mean)
  }

  /** The rule for funds that skip a quarter: three or more events in exactly three or
      four distinct months, with a mean gap between 70 and 120 days. */
  predicate QuarterlyPattern(eventCount: nat, months: set<int>, mean: real)
  {
    eventCount >= 3 && (|months| == 3 || |months| == 4) && 70.0 <= mean <= 120.0
  }

  /** The classification the service computes for a dividend history. */
  function PayFrequencyOf(history: seq<DividendEvent>): PayFrequency
  {
    if |history| == 0 then NoRecords
    else if |history| == 1 then Annual
    else
      var sorted := SortNewestFirst(history);
      var mean := MeanGap(sorted);
      if QuarterlyPattern(|sorted|, MonthsTouched(sorted), mean) then Quarterly
      else ByMeanGap(mean)
  }

  /** The `if (avgInterval <= bound) return label` chain of `calculatePayFrequency`. */
  method ThresholdCascade(avgInterval: real) returns (f: PayFrequency)
    ensures f == ByMeanGap(avgInterval)
  {
    if avgInterval <= 35.0 {
      f := Monthly;
    } else if avgInterval <= 70.0 {
      f := BiMonthly;
    } else if avgInterval <= 100.0 {
      f := Quarterly;
    } else if avgInterval <= 190.0 {
      f := SemiAnnual;
    } else if avgInterval <= 370.0 {
      f := Annual;
    } else {
      f := Irregular;
    }
  }

  /** The first loop of `calculatePayFrequency`: the day gap from each event to the next. */
  method CollectIntervals(sorted: seq<DividendEvent>) returns (intervals: seq<int>)
    requires |sorted| >= 1
    ensures intervals == Gaps(sorted)
  {
    intervals := [];
    var i := 1;
    while i < |sorted|
      invariant 1 <= i <= |sorted|
      invariant intervals == Gaps(sorted[..i])
    {
      assert sorted[..i + 1][..i] == sorted[..i];
      intervals := intervals + [sorted[i - 1].day - sorted[i].day];
      i := i + 1;
    }
    assert sorted[..|sorted|] == sorted;
  }

  /** `intervals.reduce((sum, days) => sum + days, 0)`. */
  method SumIntervals(intervals: seq<int>) returns (sum: int)
    ensures sum == Total(intervals)
  {
    sum := 0;
    for k := 0 to |intervals|
      invariant sum == Total(intervals[..k])
    {
      assert intervals[..k + 1][..k] == intervals[..k];
      sum := sum + intervals[k];
    }
    assert intervals[..|intervals|] == intervals;
  }

  /** The `forEach` that adds every event's month to a set. */
  method CollectMonths(sorted: seq<DividendEvent>) returns (months: set<int>)
    ensures months == MonthsTouched(sorted)
  {
    months := {};
    for k := 0 to |sorted|
      invariant months == MonthsTouched(sorted[..k])
    {
      assert sorted[..k + 1] == sorted[..k] + [sorted[k]];
      MonthsTouchedAppend(sorted[..k], sorted[k]);
      months := months + {sorted[k].month};
    }
    assert sorted[..|sorted|] == sorted;
  }

  /** `calculatePayFrequency`: sorts a copy newest first, collects the gaps and the months
      in loops, averages the gaps and runs the cascade. */
  method CalculatePayFrequency(history: seq<DividendEvent>) returns (f: PayFrequency)
    ensures f == PayFrequencyOf(history)
  {
    if |history| == 0 {
      return NoRecords;
    }
    if |history| == 1 {
      return Annual;
    }
    var sorted := SortNewestFirst(history);
    var intervals := CollectIntervals(sorted);
    var sum := SumIntervals(intervals);
    var avgInterval := Mean(sum, |intervals|);
    assert avgInterval == MeanGap(sorted);
    if |sorted| >= 3 {
      var months := CollectMonths(sorted);
      if (|months| == 3 || |months| == 4) && avgInterval >= 70.0 && avgInterval <= 120.0 {
        return Quarterly;
      }
    }
    f := ThresholdCascade(avgInterval);
  }

  lemma MonthsTouchedAppend(s: seq<DividendEvent>, e: DividendEvent)
    ensures MonthsTouched(s + [e]) == MonthsTouched(s) + {e.month}
  {
    var t := s + [e];
    assert forall j :: 0 <= j < |s| ==> t[j] == s[j];
    assert t[|s|] == e;
  }

  /** The mean gap is the span from the earliest to the latest event divided by the
      number of gaps, whatever order the history came in. */
  lemma MeanGapIsSpan(history: seq<DividendEvent>)
    requires |history| >= 2
    ensures MeanGap(SortNewestFirst(history)) == MeanSpan(history)
  {
    var sorted := SortNewestFirst(history);
    GapsTelescope(sorted);
    SortedEnds(history);
  }

  /** The days from the earliest to the latest event, spread over the gaps between them. */
  function MeanSpan(history: seq<DividendEvent>): real
    requires |history| >= 2
  {
    Mean(MaxDay(history) - MinDay(history), |history| - 1)
  }

  /** A reference classification that never sorts: it reads only the latest and the
      earliest day, the number of events and the months touched. */
  function ClassifyBySpan(history: seq<DividendEvent>): PayFrequency
  {
    if |history| == 0 then NoRecords
    else if |history| == 1 then Annual
    else
      var mean := MeanSpan(history);
      if QuarterlyPattern(|history|, MonthsTouched(history), mean) then Quarterly
      else ByMeanGap(mean)
  }

  lemma PayFrequencyBySpan(history: seq<DividendEvent>)
    ensures PayFrequencyOf(history) == ClassifyBySpan(history)
  {
    if |history| >= 2 {
      MeanGapIsSpan(history);
      SameEventsSameSummary(history, SortNewestFirst(history));
    }
  }

  /** The classification depends only on the events, not on the order they come in. */
  lemma PayFrequencyPermutationInvariant(a: seq<DividendEvent>, b: seq<DividendEvent>)
    requires multiset(a) == multiset(b)
    ensures PayFrequencyOf(a) == PayFrequencyOf(b)
  {
    PayFrequencyBySpan(a);
    PayFrequencyBySpan(b);
    assert |a| == |multiset(a)| == |multiset(b)| == |b|;
    if |a| >= 2 {
      SameEventsSameSummary(a, b);
      MeanSpanOfSameSummary(a, b);
    }
  }

  lemma MeanOfSame(t1: int, t2: int, c1: int, c2: int)
    requires t1 == t2 && c1 == c2 && c1 > 0
    ensures Mean(t1, c1) == Mean(t2, c2)
  {
  }

  lemma {:induction false} MeanSpanOfSameSummary(a: seq<DividendEvent>, b: seq<DividendEvent>)
    requires |a| >= 2 && |a| == |b|
    requires MaxDay(a) == MaxDay(b) && MinDay(a) == MinDay(b)
    ensures MeanSpan(a) == MeanSpan(b)
  {
    MeanOfSame(MaxDay(a) - MinDay(a), MaxDay(b) - MinDay(b), |a| - 1, |b| - 1);
  }

  /** The fixed outcomes: no events, one event, and the precedence of the quarterly rule
      over the cascade. */
  lemma PayFrequencyCases(history: seq<DividendEvent>)
    ensures |history| == 0 ==> PayFrequencyOf(history) == NoRecords
    ensures |history| == 1 ==> PayFrequencyOf(history) == Annual
    ensures |history| >= 2 ==>
      var mean := MeanSpan(history);
      PayFrequencyOf(history) ==
        if QuarterlyPattern(|history|, MonthsTouched(history), mean) then Quarterly
        else ByMeanGap(mean)
  {
    PayFrequencyBySpan(history);
  }

  /** Consecutive events are exactly d days apart, newest first. */
  predicate SpacedBy(s: seq<DividendEvent>, d: int)
  {
    forall i :: 0 <= i < |s| - 1 ==> s[i].day - s[i + 1].day == d
  }

  /** Events d days apart span (count - 1) * d days. */
  lemma SpacedSpan(s: seq<DividendEvent>, d: int)
    requires s != [] && SpacedBy(s, d)
    ensures s[0].day - s[|s| - 1].day == (|s| - 1) * d
  {
    var g := Gaps(s);
    forall k | 0 <= k < |g|
      ensures g[k] == d
    {
      assert g[k] == s[k].day - s[k + 1].day;
    }
    GapsTelescope(s);
    TotalOfEqual(g, d);
  }

  lemma MeanSpanIs(history: seq<DividendEvent>, span: int)
    requires |history| >= 2 && MaxDay(history) - MinDay(history) == span
    ensures MeanSpan(history) == Mean(span, |history| - 1)
  {
  }

  /** With a non-negative spacing a later event is never newer. */
  lemma {:induction false} SpacedNotNewer(s: seq<DividendEvent>, d: nat, i: nat, j: nat)
    requires i <= j < |s| && SpacedBy(s, d)
    ensures s[j].day <= s[i].day
    decreases j - i
  {
    if i < j {
      SpacedNotNewer(s, d, i + 1, j);
      assert s[i].day - s[i + 1].day == d;
    }
  }

  /** Events listed newest first exactly d days apart have mean gap d. */
  lemma EvenlySpacedMean(history: seq<DividendEvent>, d: nat)
    requires |history| >= 2 && SpacedBy(history, d)
    ensures MaxDay(history) == history[0].day && MinDay(history) == history[|history| - 1].day
    ensures MeanSpan(history) == d as real
  {
    var n := |history|;
    forall i | 0 <= i < n
      ensures history[i].day <= history[0].day && history[n - 1].day <= history[i].day
    {
      SpacedNotNewer(history, d, 0, i);
      SpacedNotNewer(history, d, i, n - 1);
    }
    SpacedSpan(history, d);
    MeanSpanIs(history, (n - 1) * d);
    MeanOfEqual(d, n - 1);
  }

  /** Payments every 30 days classify as Monthly; every 91 days as Quarterly. */
  lemma EvenlySpacedExamples(history: seq<DividendEvent>, d: nat)
    requires |history| >= 2 && SpacedBy(history, d)
    ensures d == 30 ==> PayFrequencyOf(history) == Monthly
    ensures d == 91 ==> PayFrequencyOf(history) == Quarterly
  {
    EvenlySpacedMean(history, d);
    PayFrequencyBySpan(history);
  }
}
