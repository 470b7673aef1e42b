/** `generateAlgorithmicInsight`: up to four remarks on a stock (yield, momentum against
    the 50-day average, size, analyst recommendation), in that order, joined by spaces.
    Number rendering (`toFixed(2)`) is the parameter `fmt`. */
module Insight {
  import opened Wrappers
  import opened Records
  import Text

  /** The fields the generator reads. `yieldRate` is `None` when the property is absent. */
  datatype InsightFacts = InsightFacts(
    yieldRate: Option<real>,
    fiftyDayChange: Option<real>,
    marketCap: Option<real>,
    totalNetAssets: NetAssets,
    recommendationKey: string)

  /** The facts of a stock record; its yield rate is always present. */
  function FactsOf(d: StockData): InsightFacts
  {
    InsightFacts(Some(d.yieldRate), d.fiftyDayAverageChangePercent, d.marketCap,
                 d.totalNetAssets, d.recommendationKey)
  }

  datatype YieldBand = HighYield | AboveAverageYield | ModerateYield | LowYield | NoDividend

  datatype MomentumBand =
    | GoodPositive | SlightPositive | StrongNegative | ConcerningNegative | SlightNegative

  datatype SizeBand =
    | MegaCap | LargeCap | MidCap | SmallCap | MicroCap
    | LargeEtf | MidSizeEtf | SmallerEtf | VerySmallEtf

  /** One remark: the yield with its value, the momentum with the absolute change in
      percent, the size class, or the recommendation text. */
  datatype Fragment =
    | YieldNote(yieldBand: YieldBand, yieldValue: real)
    | MomentumNote(momentumBand: MomentumBand, absChange: real)
    | SizeNote(sizeBand: SizeBand)
    | RecommendationNote(text: string)

  /** The position of each kind of remark in the text. */
  function Rank(f: Fragment): nat
  {
    match f
    case YieldNote(_, _) => 0
    case MomentumNote(_, _) => 1
    case SizeNote(_) => 2
    case RecommendationNote(_) => 3
  }

  // ---------------------------------------------------------------------------
  // Bands

  function YieldBandOf(v: real): (b: YieldBand)
    ensures b == HighYield <==> v > 8.0
    ensures b == AboveAverageYield <==> 5.0 < v <= 8.0
    ensures b == ModerateYield <==> 3.0 < v <= 5.0
    ensures b == LowYield <==> 0.0 < v <= 3.0
    ensures b == NoDividend <==> v <= 0.0
  {
    if v > 8.0 then HighYield
    else if v > 5.0 then AboveAverageYield
    else if v > 3.0 then ModerateYield
    else if v > 0.0 then LowYield
    else NoDividend
  }

  /** The momentum band of a change of `percent` percent; none within 2% either way. */
  function MomentumBandOf(percent: real): (b: Option<MomentumBand>)
    ensures b.None? <==> -2.0 <= percent <= 2.0
    ensures b == Some(GoodPositive) <==> percent > 8.0
    ensures b == Some(SlightPositive) <==> 2.0 < percent <= 8.0
    ensures b == Some(StrongNegative) <==> percent < -8.0
    ensures b == Some(ConcerningNegative) <==> -8.0 <= percent < -5.0
    ensures b == Some(SlightNegative) <==> -5.0 <= percent < -2.0
  {
    if percent > 8.0 then Some(GoodPositive)
    else if percent > 2.0 then Some(SlightPositive)
    else if percent < -8.0 then Some(StrongNegative)
    else if percent < -5.0 then Some(ConcerningNegative)
    else if percent < -2.0 then Some(SlightNegative)
    else None
  }

  function CapBandOf(cap: real): (b: SizeBand)
    ensures b == MegaCap <==> cap > 200000000000.0
    ensures b == LargeCap <==> 10000000000.0 < cap <= 200000000000.0
    ensures b == MidCap <==> 2000000000.0 < cap <= 10000000000.0
    ensures b == SmallCap <==> 300000000.0 < cap <= 2000000000.0
    ensures b == MicroCap <==> cap <= 300000000.0
  {
    if cap > 200000000000.0 then MegaCap
    else if cap > 10000000000.0 then LargeCap
    else if cap > 2000000000.0 then MidCap
    else if cap > 300000000.0 then SmallCap
    else MicroCap
  }

  function EtfBandOf(assets: real): (b: SizeBand)
    ensures b == LargeEtf <==> assets > 10000000000.0
    ensures b == MidSizeEtf <==> 1000000000.0 < assets <= 10000000000.0
    ensures b == SmallerEtf <==> 100000000.0 < assets <= 1000000000.0
    ensures b == VerySmallEtf <==> assets <= 100000000.0
  {
    if assets > 10000000000.0 then LargeEtf
    else if assets > 1000000000.0 then MidSizeEtf
    else if assets > 100000000.0 then SmallerEtf
    else VerySmallEtf
  }

  function Abs(x: real): real
  {
    if x < 0.0 then -x else x
  }

  // ---------------------------------------------------------------------------
  // The remarks

  function YieldPart(f: InsightFacts): (s: seq<Fragment>)
    ensures |s| <= 1 && (|s| == 1 <==> f.yieldRate.Some?)
    ensures s != [] ==> s[0] == YieldNote(YieldBandOf(f.yieldRate.value), f.yieldRate.value)
  {
    if f.yieldRate.Some? then [YieldNote(YieldBandOf(f.yieldRate.value), f.yieldRate.value)] else []
  }

  function MomentumPart(f: InsightFacts): (s: seq<Fragment>)
    ensures |s| <= 1
    ensures |s| == 1 <==> f.fiftyDayChange.Some? &&
                          (f.fiftyDayChange.value * 100.0 > 2.0 || f.fiftyDayChange.value * 100.0 < -2.0)
    ensures s != [] ==> s[0].MomentumNote? && s[0].absChange == Abs(f.fiftyDayChange.value * 100.0)
  {
    if Truthy(f.fiftyDayChange) then
      var percent := f.fiftyDayChange.value * 100.0;
      match MomentumBandOf(percent)
      case Some(b) => [MomentumNote(b, Abs(percent))]
      case None => []
    else []
  }

  /** A non-zero market cap decides the size remark; only without one do non-zero net
      assets give an ETF size remark. */
  function SizePart(f: InsightFacts): (s: seq<Fragment>)
    ensures |s| <= 1
    ensures |s| == 1 <==> Truthy(f.marketCap) || (f.totalNetAssets.Amount? && f.totalNetAssets.value != 0.0)
    ensures Truthy(f.marketCap) ==> s == [SizeNote(CapBandOf(f.marketCap.value))]
    ensures !Truthy(f.marketCap) && s != [] ==> s == [SizeNote(EtfBandOf(f.totalNetAssets.value))]
  {
    if Truthy(f.marketCap) then [SizeNote(CapBandOf(f.marketCap.value))]
    else if f.totalNetAssets.Amount? && f.totalNetAssets.value != 0.0 then
      [SizeNote(EtfBandOf(f.totalNetAssets.value))]
    else []
  }

  /** The placeholder keys that are not worth repeating. */
  predicate IsPlaceholderKey(key: string)
  {
    key == "" || key == "Unknown" || key == "No recommendations available"
  }

  function RecommendationPart(f: InsightFacts): (s: seq<Fragment>)
    ensures |s| <= 1 && (|s| == 1 <==> !IsPlaceholderKey(f.recommendationKey))
    ensures s != [] ==> s[0] == RecommendationNote(f.recommendationKey)
  {
    if IsPlaceholderKey(f.recommendationKey) then [] else [RecommendationNote(f.recommendationKey)]
  }

  /** The remarks, in their order. */
  function Fragments(f: InsightFacts): seq<Fragment>
  {
    YieldPart(f) + MomentumPart(f) + SizePart(f) + RecommendationPart(f)
  }

  /** At most one remark of each kind, in the fixed order yield, momentum, size,
      recommendation. */
  lemma FragmentsInOrder(f: InsightFacts)
    ensures |Fragments(f)| <= 4
    ensures forall i, j :: 0 <= i < j < |Fragments(f)| ==> Rank(Fragments(f)[i]) < Rank(Fragments(f)[j])
  {
    var y, m, s, r := YieldPart(f), MomentumPart(f), SizePart(f), RecommendationPart(f);
    var all := y + m + s + r;
    forall i | 0 <= i < |all|
      ensures Rank(all[i]) == if i < |y| then 0 else if i < |y| + |m| then 1
                              else if i < |y| + |m| + |s| then 2 else 3
    {
      if i < |y| {
        assert all[i] == y[i];
      } else if i < |y| + |m| {
        assert all[i] == m[i - |y|];
      } else if i < |y| + |m| + |s| {
        assert all[i] == s[i - |y| - |m|];
      } else {
        assert all[i] == r[i - |y| - |m| - |s|];
      }
    }
  }

  // ---------------------------------------------------------------------------
  // The text

  function YieldSentence(b: YieldBand, value: string): string
  {
    match b
    case HighYield => "High yield of " + value + "% may indicate elevated risk or potential dividend cut."
    case AboveAverageYield => "Above-average yield of " + value + "% offers attractive income potential."
    case ModerateYield => "Moderate yield of " + value + "% provides reasonable income."
    case LowYield => "Low yield of " + value + "% suggests focus on growth rather than income."
    case NoDividend => "This security currently pays no dividend."
  }

  function MomentumSentence(b: MomentumBand, change: string): string
  {
    match b
    case GoodPositive => "Good positive momentum with " + change + "% gain compared to 50-day average."
    case SlightPositive => "Slight positive momentum with " + change + "% gain compared to 50-day average."
    case StrongNegative => "Strong negative momentum with " + change + "% loss compared to 50-day average."
    case ConcerningNegative => "Concerning negative momentum with " + change + "% loss compared to 50-day average."
    case SlightNegative => "Slight negative momentum with " + change + "% loss compared to 50-day average."
  }

  function SizeSentence(b: SizeBand): string
  {
    match b
    case MegaCap => "This is a mega-cap stock with significant market presence."
    case LargeCap => "This is a large-cap stock with established market position."
    case MidCap => "This is a mid-cap stock with growth potential."
    case SmallCap => "This is a small-cap stock that may offer growth opportunities but with higher volatility."
    case MicroCap => "This is a micro-cap stock with higher risk and potentially higher reward."
    case LargeEtf => "This is a large ETF with substantial assets under management."
    case MidSizeEtf => "This is a mid-size ETF with reasonable liquidity."
    case SmallerEtf => "This is a smaller ETF that may have less liquidity."
    case VerySmallEtf => "This is a very small ETF which may have liquidity concerns."
  }

  function Render(f: Fragment, fmt: real -> string): string
  {
    match f
    case YieldNote(b, v) => YieldSentence(b, fmt(v))
    case MomentumNote(b, c) => MomentumSentence(b, fmt(c))
    case SizeNote(b) => SizeSentence(b)
    case RecommendationNote(t) => t
  }

  function RenderAll(fs: seq<Fragment>, fmt: real -> string): (r: seq<string>)
    ensures |r| == |fs|
  {
    if fs == [] then [] else [Render(fs[0], fmt)] + RenderAll(fs[1..], fmt)
  }

  const NoData: string := "Insufficient data for analysis"

  /** The insight text for a record, or for a missing one. */
  function InsightOf(data: Option<InsightFacts>, fmt: real -> string): string
  {
    match data
    case None => NoData
    case Some(f) => Text.Join(RenderAll(Fragments(f), fmt), " ")
  }

  // ---------------------------------------------------------------------------
  // The generator

  lemma {:induction false} RenderAllConcat(a: seq<Fragment>, b: seq<Fragment>, fmt: real -> string)
    ensures RenderAll(a + b, fmt) == RenderAll(a, fmt) + RenderAll(b, fmt)
  {
    if a == [] {
      assert a + b == b;
    } else {
      assert (a + b)[0] == a[0] && (a + b)[1..] == a[1..] + b;
      RenderAllConcat(a[1..], b, fmt);
    }
  }

  /** The generator, pushing each remark onto `opinions` as it goes. */
  method GenerateInsight(data: Option<InsightFacts>, fmt: real -> string) returns (text: string)
    ensures text == InsightOf(data, fmt)
  {
    if data.None? {
      return "Insufficient data for analysis";
    }
    var f := data.value;
    var opinions: seq<string> := [];
    var remark := YieldRemark(f, fmt);
    opinions := opinions + remark;
    assert opinions == RenderAll(YieldPart(f), fmt);
    remark := MomentumRemark(f, fmt);
    opinions := opinions + remark;
    RenderAllConcat(YieldPart(f), MomentumPart(f), fmt);
    assert opinions == RenderAll(YieldPart(f) + MomentumPart(f), fmt);
    remark := SizeRemark(f, fmt);
    opinions := opinions + remark;
    RenderAllConcat(YieldPart(f) + MomentumPart(f), SizePart(f), fmt);
    assert opinions == RenderAll(YieldPart(f) + MomentumPart(f) + SizePart(f), fmt);
    if f.recommendationKey != "" && f.recommendationKey != "Unknown" &&
       f.recommendationKey != "No recommendations available" {
      opinions := opinions + [f.recommendationKey];
    }
    assert RenderAll(RecommendationPart(f), fmt) == if IsPlaceholderKey(f.recommendationKey) then [] else [f.recommendationKey];
    RenderAllConcat(YieldPart(f) + MomentumPart(f) + SizePart(f), RecommendationPart(f), fmt);
    assert opinions == RenderAll(Fragments(f), fmt);
    text := Text.Join(opinions, " ");
  }

  /** The yield remark, when the record has a yield rate. */
  method YieldRemark(f: InsightFacts, fmt: real -> string) returns (opinions: seq<string>)
    ensures opinions == RenderAll(YieldPart(f), fmt)
  {
    opinions := [];
    if f.yieldRate.Some? {
      var yieldValue := f.yieldRate.value;
      if yieldValue > 8.0 {
        opinions := ["High yield of " + fmt(yieldValue) + "% may indicate elevated risk or potential dividend cut."];
      } else if yieldValue > 5.0 {
        opinions := ["Above-average yield of " + fmt(yieldValue) + "% offers attractive income potential."];
      } else if yieldValue > 3.0 {
        opinions := ["Moderate yield of " + fmt(yieldValue) + "% provides reasonable income."];
      } else if yieldValue > 0.0 {
        opinions := ["Low yield of " + fmt(yieldValue) + "% suggests focus on growth rather than income."];
      } else {
        opinions := ["This security currently pays no dividend."];
      }
    }
  }

  /** The momentum remark, when the 50-day change is non-zero and beyond 2%. */
  method MomentumRemark(f: InsightFacts, fmt: real -> string) returns (opinions: seq<string>)
    ensures opinions == RenderAll(MomentumPart(f), fmt)
  {
    opinions := [];
    if f.fiftyDayChange.Some? && f.fiftyDayChange.value != 0.0 {
      var changePercent := f.fiftyDayChange.value * 100.0;
      var absChange := fmt(Abs(changePercent));
      if changePercent > 8.0 {
        opinions := ["Good positive momentum with " + absChange + "% gain compared to 50-day average."];
      } else if changePercent > 2.0 {
        opinions := ["Slight positive momentum with " + absChange + "% gain compared to 50-day average."];
      } else if changePercent < -8.0 {
        opinions := ["Strong negative momentum with " + absChange + "% loss compared to 50-day average."];
      } else if changePercent < -5.0 {
        opinions := ["Concerning negative momentum with " + absChange + "% loss compared to 50-day average."];
      } else if changePercent < -2.0 {
        opinions := ["Slight negative momentum with " + absChange + "% loss compared to 50-day average."];
      }
    }
  }

  /** The market-cap remark, or else the net-assets remark. */
  method SizeRemark(f: InsightFacts, fmt: real -> string) returns (opinions: seq<string>)
    ensures opinions == RenderAll(SizePart(f), fmt)
  {
    opinions := [];
    if f.marketCap.Some? && f.marketCap.value != 0.0 {
      var sentence := CapRemark(f.marketCap.value);
      opinions := [sentence];
    } else if f.totalNetAssets.Amount? && f.totalNetAssets.value != 0.0 {
      var sentence := EtfRemark(f.totalNetAssets.value);
      opinions := [sentence];
    }
  }

  method CapRemark(marketCap: real) returns (sentence: string)
    ensures sentence == SizeSentence(CapBandOf(marketCap))
  {
    if marketCap > 200000000000.0 {
      sentence := "This is a mega-cap stock with significant market presence.";
    } else if marketCap > 10000000000.0 {
      sentence := "This is a large-cap stock with established market position.";
    } else if marketCap > 2000000000.0 {
      sentence := "This is a mid-cap stock with growth potential.";
    } else if marketCap > 300000000.0 {
      sentence := "This is a small-cap stock that may offer growth opportunities but with higher volatility.";
    } else {
      sentence := "This is a micro-cap stock with higher risk and potentially higher reward.";
    }
  }

  method EtfRemark(netAssets: real) returns (sentence: string)
    ensures sentence == SizeSentence(EtfBandOf(netAssets))
  {
    if netAssets > 10000000000.0 {
      sentence := "This is a large ETF with substantial assets under management.";
    } else if netAssets > 1000000000.0 {
      sentence := "This is a mid-size ETF with reasonable liquidity.";
    } else if netAssets > 100000000.0 {
      sentence := "This is a smaller ETF that may have less liquidity.";
    } else {
      sentence := "This is a very small ETF which may have liquidity concerns.";
    }
  }

  // ---------------------------------------------------------------------------
  // Consequences

  /** With a non-zero market cap no ETF remark appears, whatever the net assets. */
  lemma MarketCapPreemptsNetAssets(f: InsightFacts)
    requires Truthy(f.marketCap)
    ensures forall i :: 0 <= i < |Fragments(f)| ==>
      Fragments(f)[i].SizeNote? ==> Fragments(f)[i].sizeBand in {MegaCap, LargeCap, MidCap, SmallCap, MicroCap}
  {
    var y, m, s := YieldPart(f), MomentumPart(f), SizePart(f);
    forall i | 0 <= i < |Fragments(f)| && Fragments(f)[i].SizeNote?
      ensures Fragments(f)[i].sizeBand in {MegaCap, LargeCap, MidCap, SmallCap, MicroCap}
    {
      assert Fragments(f)[i] in y + m + s + RecommendationPart(f);
    }
  }

  /** A record with nothing to say beyond its yield gets just the yield sentence. */
  lemma OnlyYield(f: InsightFacts, fmt: real -> string)
    requires f.yieldRate.Some? && !Truthy(f.fiftyDayChange) && !Truthy(f.marketCap)
    requires !f.totalNetAssets.Amount? && IsPlaceholderKey(f.recommendationKey)
    ensures InsightOf(Some(f), fmt) == YieldSentence(YieldBandOf(f.yieldRate.value), fmt(f.yieldRate.value))
  {
    assert Fragments(f) == YieldPart(f);
  }
}
