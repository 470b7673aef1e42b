/** Dividend events and the payment-frequency labels of the dividend service. */
module Dividends {
  import Sorting

  /** Month of the year, January = 0 (as `Date.prototype.getMonth` numbers them). */
  type Month = m: int | 0 <= m < 12

  /** One recorded payout: its calendar day (days since 1970-01-01, UTC), the month
      that day falls in, and the amount paid per share. */
  datatype DividendEvent = DividendEvent(day: int, month: Month, amount: real)

  datatype PayFrequency =
    | NoRecords
    | Annual
    | Monthly
    | BiMonthly
    | Quarterly
    | SemiAnnual
    | Irregular

  /** The label the service stores in a record's `payFrequency` field. */
  function Label(f: PayFrequency): (s: string)
    ensures s in FrequencyLabels
  {
    match f
    case NoRecords => "No Records"
    case Annual => "Annual"
    case Monthly => "Monthly"
    case BiMonthly => "Bi-Monthly"
    case Quarterly => "Quarterly"
    case SemiAnnual => "Semi-Annual"
    case Irregular => "Irregular"
  }

  const FrequencyLabels: set<string> :=
    {"No Records", "Annual", "Monthly", "Bi-Monthly", "Quarterly", "Semi-Annual", "Irregular"}

  /** Different frequencies get different labels, so a label names exactly one frequency. */
  lemma LabelInjective(f: PayFrequency, g: PayFrequency)
    ensures Label(f) == Label(g) <==> f == g
  {
  }

  /** The comparator `(a, b) => date(b) - date(a)`: a may stay in front of b when it is
      at least as recent. */
  predicate NewerOrSame(a: DividendEvent, b: DividendEvent)
  {
    a.day >= b.day
  }

  /** `[...events].sort(newest first)`; ties keep their input order. */
  function SortNewestFirst(events: seq<DividendEvent>): (r: seq<DividendEvent>)
    ensures |r| == |events| && multiset(r) == multiset(events)
    ensures Sorting.Sorted(r, NewerOrSame)
  {
    Sorting.SortSorted(events, NewerOrSame);
    Sorting.Sort(events, NewerOrSame)
  }

  /** The latest day among the events. */
  function MaxDay(events: seq<DividendEvent>): (d: int)
    requires events != []
    ensures forall i :: 0 <= i < |events| ==> events[i].day <= d
    ensures exists i :: 0 <= i < |events| && events[i].day == d
  {
    if |events| == 1 then events[0].day
    else
      var m := MaxDay(events[1..]);
      assert forall i :: 1 <= i < |events| ==> events[i] == events[1..][i - 1];
      if events[0].day >= m then events[0].day else m
  }

  /** The earliest day among the events. */
  function MinDay(events: seq<DividendEvent>): (d: int)
    requires events != []
    ensures forall i :: 0 <= i < |events| ==> d <= events[i].day
    ensures exists i :: 0 <= i < |events| && events[i].day == d
  {
    if |events| == 1 then events[0].day
    else
      var m := MinDay(events[1..]);
      assert forall i :: 1 <= i < |events| ==> events[i] == events[1..][i - 1];
      if events[0].day <= m then events[0].day else m
  }

  /** The distinct months the events fall in. */
  function MonthsTouched(events: seq<DividendEvent>): set<int>
  {
    set i | 0 <= i < |events| :: events[i].month
  }

  /** Two arrangements of the same events hold the same elements. */
  lemma SameElements(a: seq<DividendEvent>, b: seq<DividendEvent>)
    requires multiset(a) == multiset(b)
    ensures forall x :: x in a <==> x in b
  {
    forall x
      ensures x in a <==> x in b
    {
      assert x in a <==> x in multiset(a);
      assert x in b <==> x in multiset(b);
    }
  }

  /** The latest day of `a` is no later than that of any arrangement of its elements. */
  lemma MaxDayBelow(a: seq<DividendEvent>, b: seq<DividendEvent>)
    requires a != [] && b != [] && forall x :: x in a ==> x in b
    ensures MaxDay(a) <= MaxDay(b) && MinDay(b) <= MinDay(a)
  {
    var i :| 0 <= i < |a| && a[i].day == MaxDay(a);
    assert a[i] in b;
    var j :| 0 <= j < |a| && a[j].day == MinDay(a);
    assert a[j] in b;
  }

  lemma MonthsBelow(a: seq<DividendEvent>, b: seq<DividendEvent>)
    requires forall x :: x in a ==> x in b
    ensures MonthsTouched(a) <= MonthsTouched(b)
  {
    forall m | m in MonthsTouched(a)
      ensures m in MonthsTouched(b)
    {
      var i :| 0 <= i < |a| && a[i].month == m;
      assert a[i] in b;
      var k :| 0 <= k < |b| && b[k] == a[i];
    }
  }

  /** Rearranging the events changes neither their latest day, their earliest day
      nor the months they touch. */
  lemma {:induction false} SameEventsSameSummary(a: seq<DividendEvent>, b: seq<DividendEvent>)
    requires multiset(a) == multiset(b) && a != []
    ensures b != [] && MaxDay(a) == MaxDay(b) && MinDay(a) == MinDay(b)
    ensures MonthsTouched(a) == MonthsTouched(b)
  {
    SameElements(a, b);
    assert a[0] in b;
    MaxDayBelow(a, b);
    MaxDayBelow(b, a);
    MonthsBelow(a, b);
    MonthsBelow(b, a);
  }

  /** The newest-first copy starts with a latest event and ends with an earliest one. */
  lemma SortedEnds(events: seq<DividendEvent>)
    requires events != []
    ensures var r := SortNewestFirst(events);
            r[0].day == MaxDay(events) && r[|r| - 1].day == MinDay(events)
  {
    var r := SortNewestFirst(events);
    SameEventsSameSummary(events, r);
    var last := |r| - 1;
    var i :| 0 <= i < |r| && r[i].day == MaxDay(r);
    assert i == 0 || NewerOrSame(r[0], r[i]);
    assert r[0].day == MaxDay(r);
    var j :| 0 <= j < |r| && r[j].day == MinDay(r);
    assert j == last || NewerOrSame(r[j], r[last]);
    assert r[last].day == MinDay(r);
  }
}
