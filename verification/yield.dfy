/** The dividend yield of `calculateDividendYield`: an annual dividend estimated from
    the trailing year of payouts and the payment frequency, divided by the price. */
module Yield {
  import opened Wrappers
  import opened Dividends
  import opened Frequency
  import Sorting

  /** Milliseconds in a day, so day numbers compare with `Date.now()` readings. */
  const MsPerDay: int := 86400000

  /** The event's date is at or after one year (365 days) before `nowMs`. */
  predicate IsRecent(nowMs: int, e: DividendEvent)
  {
    e.day * MsPerDay >= nowMs - 365 * MsPerDay
  }

  /** `filter(isRecent)`: the recent events, in their original order. */
  function Recent(nowMs: int, events: seq<DividendEvent>): (r: seq<DividendEvent>)
    ensures |r| <= |events|
    ensures forall e :: e in r <==> e in events && IsRecent(nowMs, e)
  {
    if events == [] then []
    else if IsRecent(nowMs, events[0]) then [events[0]] + Recent(nowMs, events[1..])
    else Recent(nowMs, events[1..])
  }

  /** `reduce((sum, div) => sum + div.amount, 0)`. */
  function SumAmounts(events: seq<DividendEvent>): real
  {
    if events == [] then 0.0 else events[0].amount + SumAmounts(events[1..])
  }

  /** How many payments a year the frequency stands for, for the four regular cadences. */
  function ExpectedPayments(f: PayFrequency): (k: Option<nat>)
    ensures k.Some? <==> f in {Monthly, BiMonthly, Quarterly, SemiAnnual}
    ensures k.Some? ==> k.value in {12, 6, 4, 2}
  {
    match f
    case Monthly => Some(12)
    case BiMonthly => Some(6)
    case Quarterly => Some(4)
    case SemiAnnual => Some(2)
    case _ => None
  }

  /** The payouts received plus the average payout for each payment still missing;
      the average divides by at least 1 (`Math.max(1, count)`). */
  function Extrapolate(sum: real, count: nat, expected: nat): real
  {
    var average := sum / (if count >= 1 then count else 1) as real;
    sum + average * (expected as real - count as real)
  }

  /** The annual dividend the service estimates (the history must be non-empty): the
      frequency comes from the whole history, the payouts from the trailing year. */
  function AnnualDividend(history: seq<DividendEvent>, nowMs: int): real
    requires history != []
  {
    var sorted := SortNewestFirst(history);
    ByFrequency(PayFrequencyOf(history), sorted[0].amount, Recent(nowMs, sorted))
  }

  /** The branch on the frequency: the newest payout for an annual payer, the newest
      `expected` recent payouts (or the extrapolated partial year) for a regular
      cadence, the recent payouts otherwise. */
  function ByFrequency(f: PayFrequency, newest: real, recent: seq<DividendEvent>): real
  {
    if f == Annual then newest
    else match ExpectedPayments(f)
      case Some(k) =>
        if |recent| >= k then SumAmounts(recent[..k])
        else Extrapolate(SumAmounts(recent), |recent|, k)
      case None => SumAmounts(recent)
  }

  /** `calculateDividendYield`: 0 for an empty history or a missing or zero price,
      otherwise the annual dividend as a percentage of the price. */
  function DividendYield(history: seq<DividendEvent>, price: Option<real>, nowMs: int): (y: real)
    ensures history == [] || price.None? || price == Some(0.0) ==> y == 0.0
    ensures history != [] && price.Some? && price.value != 0.0 ==>
      y * price.value == AnnualDividend(history, nowMs) * 100.0
  {
    if history == [] || price.None? || price.value == 0.0 then 0.0
    else PercentOf(AnnualDividend(history, nowMs), price.value)
  }

  /** `(amount / price) * 100`. */
  function PercentOf(amount: real, price: real): (p: real)
    requires price != 0.0
    ensures p * price == amount * 100.0
  {
    assert amount / price * price == amount;
    amount / price * 100.0
  }

  // ---------------------------------------------------------------------------
  // The extrapolation

  /** Padding the partial year with the average payout is scaling the sum by
      expected / count; with no recent payout it gives 0. */
  lemma ExtrapolateIsProportional(sum: real, count: nat, expected: nat)
    ensures count >= 1 ==> Extrapolate(sum, count, expected) == sum * expected as real / count as real
    ensures count == 0 && sum == 0.0 ==> Extrapolate(sum, count, expected) == 0.0
  {
    if count >= 1 {
      var c := count as real;
      var a := sum / c;
      assert a * c == sum;
      calc {
        Extrapolate(sum, count, expected);
        sum + a * (expected as real - c);
        a * c + a * expected as real - a * c;
        a * expected as real;
        sum * expected as real / c;
      }
    }
  }

  // ---------------------------------------------------------------------------
  // Sums

  lemma {:induction false} SumAmountsConcat(a: seq<DividendEvent>, b: seq<DividendEvent>)
    ensures SumAmounts(a + b) == SumAmounts(a) + SumAmounts(b)
  {
    if a == [] {
      assert a + b == b;
    } else {
      assert (a + b)[0] == a[0] && (a + b)[1..] == a[1..] + b;
      SumAmountsConcat(a[1..], b);
    }
  }

  /** Taking one event out of a list takes its amount out of the sum. */
  lemma {:induction false} SumAmountsWithout(b: seq<DividendEvent>, i: int)
    requires 0 <= i < |b|
    ensures SumAmounts(b) == SumAmounts([b[i]]) + SumAmounts(b[..i] + b[i + 1..])
    ensures multiset(b[..i] + b[i + 1..]) == multiset(b) - multiset{b[i]}
  {
    assert b == b[..i] + ([b[i]] + b[i + 1..]);
    SumAmountsConcat(b[..i], [b[i]] + b[i + 1..]);
    SumAmountsConcat([b[i]], b[i + 1..]);
    SumAmountsConcat(b[..i], b[i + 1..]);
    assert multiset(b) == multiset(b[..i]) + multiset{b[i]} + multiset(b[i + 1..]);
  }

  /** The sum does not depend on the order of the events. */
  lemma {:induction false} SumAmountsPermutation(a: seq<DividendEvent>, b: seq<DividendEvent>)
    requires multiset(a) == multiset(b)
    ensures SumAmounts(a) == SumAmounts(b)
  {
    if a != [] {
      assert a[0] in multiset(b);
      var i :| 0 <= i < |b| && b[i] == a[0];
      SumAmountsWithout(b, i);
      assert a == [a[0]] + a[1..];
      SumAmountsConcat([a[0]], a[1..]);
      assert multiset(a[1..]) == multiset(a) - multiset{a[0]};
      SumAmountsPermutation(a[1..], b[..i] + b[i + 1..]);
    }
  }

  /** Every one of the events pays `amount`. */
  predicate UniformAmount(events: seq<DividendEvent>, amount: real)
  {
    forall i :: 0 <= i < |events| ==> events[i].amount == amount
  }

  lemma {:induction false} SumAmountsUniform(events: seq<DividendEvent>, amount: real)
    requires UniformAmount(events, amount)
    ensures SumAmounts(events) == |events| as real * amount
  {
    if events != [] {
      SumAmountsUniform(events[1..], amount);
    }
  }

  // ---------------------------------------------------------------------------
  // The recent window

  lemma {:induction false} RecentMultiset(nowMs: int, s: seq<DividendEvent>, e: DividendEvent)
    ensures multiset(Recent(nowMs, s))[e] == if IsRecent(nowMs, e) then multiset(s)[e] else 0
  {
    if s != [] {
      RecentMultiset(nowMs, s[1..], e);
      assert s == [s[0]] + s[1..];
    }
  }

  /** Filtering two arrangements of the same events keeps the same events. */
  lemma RecentPermutation(nowMs: int, a: seq<DividendEvent>, b: seq<DividendEvent>)
    requires multiset(a) == multiset(b)
    ensures multiset(Recent(nowMs, a)) == multiset(Recent(nowMs, b))
  {
    forall e
      ensures multiset(Recent(nowMs, a))[e] == multiset(Recent(nowMs, b))[e]
    {
      RecentMultiset(nowMs, a, e);
      RecentMultiset(nowMs, b, e);
    }
  }

  /** Filtering keeps the newest-first order of the sorted copy. */
  lemma {:induction false} RecentSorted(nowMs: int, s: seq<DividendEvent>)
    requires Sorting.Sorted(s, NewerOrSame)
    ensures Sorting.Sorted(Recent(nowMs, s), NewerOrSame)
  {
    if s != [] {
      assert Sorting.Sorted(s[1..], NewerOrSame);
      RecentSorted(nowMs, s[1..]);
      var r := Recent(nowMs, s);
      if IsRecent(nowMs, s[0]) {
        forall j | 1 <= j < |r|
          ensures NewerOrSame(r[0], r[j])
        {
          assert r[j] in Recent(nowMs, s[1..]);
        }
      }
    }
  }

  /** Every event the fixed-cadence branch leaves out of `recent[..k]` is no newer than
      every event it sums: it sums the newest k of the trailing year. */
  lemma NewestKept(history: seq<DividendEvent>, nowMs: int, k: nat)
    ensures var recent := Recent(nowMs, SortNewestFirst(history));
      forall i, j :: 0 <= i < k <= j < |recent| ==> recent[i].day >= recent[j].day
  {
    RecentSorted(nowMs, SortNewestFirst(history));
  }

  // ---------------------------------------------------------------------------
  // The branches

  /** An annual payer's dividend is the newest payout, whether or not it falls in the
      trailing year: the clock does not matter. */
  lemma AnnualUsesNewest(history: seq<DividendEvent>, nowMs: int, laterMs: int)
    requires history != [] && PayFrequencyOf(history) == Annual
    ensures AnnualDividend(history, nowMs) == AnnualDividend(history, laterMs)
    ensures AnnualDividend(history, nowMs) == SortNewestFirst(history)[0].amount
    ensures SortNewestFirst(history)[0].day == MaxDay(history)
  {
    SortedEnds(history);
  }

  /** Without a regular cadence (Irregular, or a span of more than 370 days per gap),
      the annual dividend is the sum of the trailing year's payouts, in whatever order
      the history came. */
  lemma IrregularSumsRecent(history: seq<DividendEvent>, nowMs: int)
    requires history != []
    requires ExpectedPayments(PayFrequencyOf(history)).None? && PayFrequencyOf(history) != Annual
    ensures AnnualDividend(history, nowMs) == SumAmounts(Recent(nowMs, history))
  {
    var sorted := SortNewestFirst(history);
    RecentPermutation(nowMs, sorted, history);
    SumAmountsPermutation(Recent(nowMs, sorted), Recent(nowMs, history));
  }

  /** The recent events of the sorted copy are as many, and pay the same, as the recent
      events of the history. */
  lemma RecentOfSorted(history: seq<DividendEvent>, nowMs: int, amount: real)
    requires UniformAmount(history, amount)
    ensures |Recent(nowMs, SortNewestFirst(history))| == |Recent(nowMs, history)|
    ensures UniformAmount(Recent(nowMs, SortNewestFirst(history)), amount)
  {
    var sorted := SortNewestFirst(history);
    var recent := Recent(nowMs, sorted);
    RecentPermutation(nowMs, sorted, history);
    assert |recent| == |multiset(recent)| == |multiset(Recent(nowMs, history))|;
    forall i | 0 <= i < |recent|
      ensures recent[i].amount == amount
    {
      assert recent[i] in sorted;
      assert recent[i] in multiset(history);
    }
  }

  /** `count` payouts of `amount`, extrapolated to `expected`, are `expected` payouts. */
  lemma ExtrapolateUniform(sum: real, count: nat, expected: nat, amount: real)
    requires count >= 1 && sum == count as real * amount
    ensures Extrapolate(sum, count, expected) == expected as real * amount
  {
    ExtrapolateIsProportional(sum, count, expected);
    var c := count as real;
    assert c * amount * expected as real / c == expected as real * amount;
  }

  /** A payer of a regular cadence paying the same amount every time is credited with
      `expected` payouts of that amount, whether its trailing year is complete or not
      (as long as at least one payout is recent). */
  lemma UniformPayer(history: seq<DividendEvent>, nowMs: int, amount: real, k: nat)
    requires history != [] && UniformAmount(history, amount)
    requires ExpectedPayments(PayFrequencyOf(history)) == Some(k)
    requires Recent(nowMs, history) != []
    ensures AnnualDividend(history, nowMs) == k as real * amount
  {
    var sorted := SortNewestFirst(history);
    RecentOfSorted(history, nowMs, amount);
    UniformCadence(PayFrequencyOf(history), sorted[0].amount, Recent(nowMs, sorted), amount, k);
  }

  lemma {:induction false} UniformCadence(f: PayFrequency, newest: real, recent: seq<DividendEvent>, amount: real, k: nat)
    requires ExpectedPayments(f) == Some(k) && recent != [] && UniformAmount(recent, amount)
    ensures ByFrequency(f, newest, recent) == k as real * amount
  {
    assert f != Annual;
    if |recent| >= k {
      assert UniformAmount(recent[..k], amount);
      SumAmountsUniform(recent[..k], amount);
    } else {
      assert ByFrequency(f, newest, recent) == Extrapolate(SumAmounts(recent), |recent|, k);
      SumAmountsUniform(recent, amount);
      ExtrapolateUniform(SumAmounts(recent), |recent|, k, amount);
    }
  }

  /** Five recent monthly payouts of 1.00 on a price of 100 are a 12% yield: the seven
      missing months are filled in at the average. */
  lemma MonthlyExample(history: seq<DividendEvent>, nowMs: int)
    requires |history| == 5 && SpacedBy(history, 30) && UniformAmount(history, 1.0)
    requires forall i :: 0 <= i < |history| ==> IsRecent(nowMs, history[i])
    ensures DividendYield(history, Some(100.0), nowMs) == 12.0
  {
    EvenlySpacedExamples(history, 30);
    assert history[0] in Recent(nowMs, history);
    UniformPayer(history, nowMs, 1.0, 12);
  }
}
