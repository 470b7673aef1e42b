/** `getStockQuote`: assembles the stock record from the provider answers (quote,
    summary, two weeks of prices, dividend history, scraped net assets), and
    `cleanStockName`, which drops a trailing " ETF", " Fund" and " Trust". */
module Quote {
  import opened Wrappers
  import opened Dividends
  import opened Records
  import Text
  import Frequency
  import Yield
  import History
  import NetAssetsScrape
  import Insight

  // ---------------------------------------------------------------------------
  // Names

  /** `replace(/\sWORD$/i, '')`: one whitespace character and the word, in any case,
      at the very end. */
  function StripSuffix(s: string, word: string): (r: string)
    ensures |r| <= |s| && r == s[..|r|]
    ensures r != s ==> |r| == |s| - |word| - 1
  {
    if |s| > |word| && Text.IsSpace(s[|s| - |word| - 1]) && Text.EqualIgnoringCase(s[|s| - |word|..], word) then
      s[..|s| - |word| - 1]
    else s
  }

  predicate HasSuffix(s: string, word: string)
  {
    StripSuffix(s, word) != s
  }

  /** `cleanStockName`. */
  function CleanStockName(name: string): string
  {
    if name == [] then []
    else Text.Trim(StripSuffix(StripSuffix(StripSuffix(name, "ETF"), "Fund"), "Trust"))
  }

  /** The cleaned name is a trimmed prefix of the name; a name with none of the three
      suffixes is only trimmed. */
  lemma CleanStockNamePrefix(name: string)
    ensures exists k :: 0 <= k <= |name| && CleanStockName(name) == Text.Trim(name[..k])
    ensures !HasSuffix(name, "ETF") && !HasSuffix(name, "Fund") && !HasSuffix(name, "Trust") ==>
            CleanStockName(name) == Text.Trim(name)
  {
    if name != [] {
      var a := StripSuffix(name, "ETF");
      var b := StripSuffix(a, "Fund");
      var c := StripSuffix(b, "Trust");
      assert c == name[..|c|];
    } else {
      assert name[..0] == [] == Text.Trim([]);
    }
  }

  /** A word appended after one space is stripped again, leaving the stem. */
  lemma StripAppended(stem: string, word: string)
    ensures StripSuffix(stem + " " + word, word) == stem
  {
    var s := stem + " " + word;
    assert s[|s| - |word| - 1] == ' ';
    assert s[|s| - |word|..] == word;
    assert s[..|s| - |word| - 1] == stem;
  }

  /** The suffixes go in the order ETF, Fund, Trust, each at most once: " Fund ETF"
      loses both words, " ETF Trust" keeps its "ETF". */
  lemma CleanStockNameOrder(stem: string)
    ensures StripSuffix(stem + " Fund ETF", "ETF") == stem + " Fund"
    ensures StripSuffix(stem + " Fund", "Fund") == stem
    ensures StripSuffix(stem + " ETF Trust", "ETF") == stem + " ETF Trust"
    ensures StripSuffix(stem + " ETF Trust", "Fund") == stem + " ETF Trust"
    ensures StripSuffix(stem + " ETF Trust", "Trust") == stem + " ETF"
  {
    assert stem + " Fund ETF" == (stem + " Fund") + " " + "ETF";
    StripAppended(stem + " Fund", "ETF");
    assert stem + " Fund" == stem + " " + "Fund";
    StripAppended(stem, "Fund");
    var u := stem + " ETF Trust";
    assert u == (stem + " ETF") + " " + "Trust";
    StripAppended(stem + " ETF", "Trust");
    assert u[|u| - 3] == 'u' && u[|u| - 4] == 'r';
    assert !Text.EqualIgnoringCase(u[|u| - 3..], "ETF") by {
      assert u[|u| - 3..][0] == 'u';
    }
    assert !Text.EqualIgnoringCase(u[|u| - 4..], "Fund") by {
      assert u[|u| - 4..][0] == 'r';
    }
  }

  // ---------------------------------------------------------------------------
  // Provider answers

  datatype QuoteAnswer = QuoteAnswer(
    shortName: Option<string>,
    longName: Option<string>,
    regularMarketPrice: Option<real>,
    regularMarketChangePercent: Option<real>,
    marketCap: Option<real>,
    quoteType: Option<string>,
    fiftyDayAverageChangePercent: Option<real>)

  /** The first entry of the recommendation trend. */
  datatype Trend = Trend(strongBuy: int, buy: int, hold: int, sell: int, strongSell: int)

  /** The quote summary (a failed summary query is `None`). */
  datatype Summary = Summary(trend: Option<Trend>, dividendYield: Option<real>, totalAssets: Option<real>)

  /** A provider query that can fail with a message. */
  datatype Outcome<T> = Failed(message: string) | Answered(answer: T)

  /** Everything the providers answer for one symbol. */
  datatype Providers = Providers(
    quote: Outcome<QuoteAnswer>,
    summary: Option<Summary>,
    prices: Outcome<seq<PricePoint>>,
    chart: History.Chart,
    historical: History.Historical,
    quotePage: NetAssetsScrape.Page,
    tabPages: seq<NetAssetsScrape.Page>,
    fundProfile: NetAssetsScrape.FundProfile)

  /** What the record formatter needs from the outside: the clock, the calendar,
      `toFixed(2)` and the rendering of integers in the recommendation text. */
  datatype Environment = Environment(nowMs: int, monthOf: int -> Month, fmt: real -> string, numText: int -> string)

  // ---------------------------------------------------------------------------
  // Fields

  predicate NonEmpty(s: Option<string>)
  {
    s.Some? && s.value != []
  }

  /** `quote.quoteType === 'ETF'`, or "ETF" or "Fund" in either name. */
  predicate IsEtf(q: QuoteAnswer)
  {
    q.quoteType == Some("ETF") ||
    (q.shortName.Some? && (Text.Contains(q.shortName.value, "ETF") || Text.Contains(q.shortName.value, "Fund"))) ||
    (q.longName.Some? && (Text.Contains(q.longName.value, "ETF") || Text.Contains(q.longName.value, "Fund")))
  }

  /** The change over the price history in percent: 0 with fewer than two samples. */
  function MonthChange(prices: seq<PricePoint>): (c: real)
    requires |prices| >= 2 ==> prices[0].price != 0.0
    ensures |prices| < 2 ==> c == 0.0
    ensures |prices| >= 2 ==> c * prices[0].price == (prices[|prices| - 1].price - prices[0].price) * 100.0
  {
    if |prices| < 2 then 0.0
    else Yield.PercentOf(prices[|prices| - 1].price - prices[0].price, prices[0].price)
  }

  /** The provider's yield in percent, or 0 without a summary or a non-zero yield. */
  function ProviderYield(summary: Option<Summary>): real
  {
    if summary.Some? && Truthy(summary.value.dividendYield) then summary.value.dividendYield.value * 100.0
    else 0.0
  }

  /** The provider's yield, replaced by the computed one only when it is 0 and the
      computed one is positive. */
  function PreferredYield(provided: real, computed: real): (r: real)
    ensures r == computed || r == provided
    ensures r == computed <== provided == 0.0 && computed > 0.0
    ensures r == provided <== provided != 0.0 || computed <= 0.0
  {
    if provided == 0.0 && computed > 0.0 then computed else provided
  }

  function RecommendationKey(summary: Option<Summary>, numText: int -> string): string
  {
    if summary.Some? && summary.value.trend.Some? then
      var t := summary.value.trend.value;
      "Strong Buy: " + numText(t.strongBuy) + ", Buy: " + numText(t.buy) + ", Hold: " + numText(t.hold) +
      ", Sell: " + numText(t.sell) + ", Strong Sell: " + numText(t.strongSell)
    else "Unknown"
  }

  /** Net assets of an ETF: the summary's total assets when non-zero, otherwise the
      scrape (null when it finds nothing); `null` for anything else. */
  function NetAssetsField(isEtf: bool, summary: Option<Summary>, symbol: string, p: Providers): (r: NetAssets)
    ensures !isEtf ==> r == Null
    ensures isEtf && summary.Some? && Truthy(summary.value.totalAssets) ==>
      r == Amount(summary.value.totalAssets.value)
    ensures isEtf && !(summary.Some? && Truthy(summary.value.totalAssets)) ==>
      (r.Amount? <==> NetAssetsScrape.ScrapeOf(symbol, p.quotePage, p.tabPages, p.fundProfile).Some?) &&
      (r.Amount? ==> NetAssetsScrape.ScrapeOf(symbol, p.quotePage, p.tabPages, p.fundProfile) == Some(r.value)) &&
      !r.Undefined?
  {
    if !isEtf then Null
    else if summary.Some? && Truthy(summary.value.totalAssets) then Amount(summary.value.totalAssets.value)
    else match NetAssetsScrape.ScrapeOf(symbol, p.quotePage, p.tabPages, p.fundProfile)
      case Some(v) => Amount(v)
      case None => Null
  }

  /** The record for a symbol whose data could not be fetched. */
  function ErrorRecord(symbol: string, message: string): (d: StockData)
    ensures d.error && d.yieldRate == 0.0 && d.dividendYield == 0.0
    ensures d.payFrequency == "Unknown" && d.recommendationKey == "Unknown"
    ensures !d.isEtf && d.totalNetAssets == Null && d.symbol == symbol
  {
    StockData(
      symbol := symbol, name := symbol, longName := None, regularMarketPrice := None,
      dayChange := None, dividendHistory := [], yieldRate := 0.0, dividendYield := 0.0,
      marketCap := None, monthChange := None, fiftyDayAverageChangePercent := None,
      payFrequency := "Unknown", recommendationKey := "Unknown", isEtf := false,
      totalNetAssets := Null, source := "error", error := true,
      errorMessage := Some(if message != [] then message else "Failed to fetch stock data"),
      opinion := None, priceHistory := [])
  }

  /** The prices must allow the month change: a first close of 0 gives no finite
      percentage. */
  predicate PricesUsable(p: Providers)
  {
    p.prices.Answered? ==> (|p.prices.answer| >= 2 ==> p.prices.answer[0].price != 0.0)
  }

  /** The record for a normalized symbol once quote and prices are in. */
  function AssembleRecord(symbol: string, q: QuoteAnswer, prices: seq<PricePoint>, p: Providers, env: Environment)
    : (d: StockData)
    requires |prices| >= 2 ==> prices[0].price != 0.0
  {
    var history := History.DividendHistoryOf(symbol, p.chart, p.historical, env.monthOf);
    var computed := Yield.DividendYield(history, q.regularMarketPrice, env.nowMs);
    var isEtf := IsEtf(q);
    var bare := StockData(
      symbol := symbol,
      name := CleanStockName(if NonEmpty(q.shortName) then q.shortName.value
                             else if NonEmpty(q.longName) then q.longName.value else symbol),
      longName := if NonEmpty(q.longName) then Some(CleanStockName(q.longName.value)) else None,
      regularMarketPrice := Some(if Truthy(q.regularMarketPrice) then q.regularMarketPrice.value else 0.0),
      dayChange := q.regularMarketChangePercent,
      dividendHistory := history,
      yieldRate := PreferredYield(ProviderYield(p.summary), computed),
      dividendYield := computed,
      marketCap := q.marketCap,
      monthChange := Some(MonthChange(prices)),
      fiftyDayAverageChangePercent := q.fiftyDayAverageChangePercent,
      payFrequency := Label(Frequency.PayFrequencyOf(history)),
      recommendationKey := RecommendationKey(p.summary, env.numText),
      isEtf := isEtf,
      totalNetAssets := NetAssetsField(isEtf, p.summary, symbol, p),
      source := "yahoo",
      error := false,
      errorMessage := None,
      opinion := None,
      priceHistory := prices);
    bare.(opinion := Some(Insight.InsightOf(Some(Insight.FactsOf(bare)), env.fmt)))
  }

  /** `getStockQuote`: nothing for a missing or empty symbol; the error record when the
      quote or the price history fails; the assembled record otherwise. */
  function GetStockQuote(symbol: Option<string>, p: Providers, env: Environment): (r: Option<StockData>)
    requires PricesUsable(p)
    ensures r.None? <==> symbol.None? || symbol.value == []
    ensures r.Some? ==> r.value.symbol == Text.ToUpper(Text.Trim(symbol.value))
  {
    if symbol.None? || symbol.value == [] then None
    else
      var normalized := Text.ToUpper(Text.Trim(symbol.value));
      match p.quote
      case Failed(message) => Some(ErrorRecord(normalized, message))
      case Answered(q) =>
        match p.prices
        case Failed(message) => Some(ErrorRecord(normalized, message))
        case Answered(prices) => Some(AssembleRecord(normalized, q, prices, p, env))
  }

  // ---------------------------------------------------------------------------
  // Properties of the record

  /** The fields of a record built from answers: the ETF rule, the frequency and
      yields computed from the dividend history, the preference between the yields,
      the net assets only for an ETF. */
  lemma QuoteRecordFields(symbol: string, p: Providers, env: Environment)
    requires PricesUsable(p)
    requires symbol != [] && p.quote.Answered? && p.prices.Answered?
    ensures var d := GetStockQuote(Some(symbol), p, env).value;
      var history := History.DividendHistoryOf(d.symbol, p.chart, p.historical, env.monthOf);
      && !d.error
      && (d.isEtf <==> IsEtf(p.quote.answer))
      && d.dividendHistory == history
      && d.dividendYield == Yield.DividendYield(history, p.quote.answer.regularMarketPrice, env.nowMs)
      && d.payFrequency in FrequencyLabels
      && d.payFrequency == Label(Frequency.PayFrequencyOf(history))
      && d.yieldRate == PreferredYield(ProviderYield(p.summary), d.dividendYield)
      && (ProviderYield(p.summary) != 0.0 ==> d.yieldRate == ProviderYield(p.summary))
      && d.monthChange == Some(MonthChange(p.prices.answer))
      && d.totalNetAssets == NetAssetsField(d.isEtf, p.summary, d.symbol, p)
      && (!d.isEtf ==> d.totalNetAssets == Null)
      && d.opinion == Some(Insight.InsightOf(Some(Insight.FactsOf(d)), env.fmt))
  {
  }

  /** An ETF whose summary gives no total assets takes the scrape's figure, which is
      positive unless the API reported a negative one; with no figure it is `null`. */
  lemma EtfNetAssetsScraped(symbol: string, p: Providers, env: Environment)
    requires PricesUsable(p)
    requires symbol != [] && p.quote.Answered? && p.prices.Answered? && IsEtf(p.quote.answer)
    requires !(p.summary.Some? && Truthy(p.summary.value.totalAssets))
    requires NetAssetsScrape.ApiHit(p.fundProfile).None? || NetAssetsScrape.ApiHit(p.fundProfile).value > 0.0
    ensures var d := GetStockQuote(Some(symbol), p, env).value;
      && (d.totalNetAssets == Null || (d.totalNetAssets.Amount? && d.totalNetAssets.value > 0.0))
      && (d.totalNetAssets == Null <==>
          NetAssetsScrape.ScrapeOf(d.symbol, p.quotePage, p.tabPages, p.fundProfile).None?)
  {
    var d := GetStockQuote(Some(symbol), p, env).value;
    NetAssetsScrape.PageFiguresPositive(d.symbol, p.quotePage, p.tabPages, p.fundProfile);
  }

  /** A failed quote or price query gives the error record, never nothing. */
  lemma FailureGivesErrorRecord(symbol: string, p: Providers, env: Environment)
    requires PricesUsable(p)
    requires symbol != [] && (p.quote.Failed? || p.prices.Failed?)
    ensures var r := GetStockQuote(Some(symbol), p, env);
      r.Some? && r.value.error && r.value.yieldRate == 0.0 && r.value.dividendYield == 0.0 &&
      r.value.payFrequency == "Unknown"
  {
  }

  /** A rising price gives a positive month change, a falling one a negative change. */
  lemma MonthChangeSign(prices: seq<PricePoint>)
    requires |prices| >= 2 && prices[0].price > 0.0
    ensures prices[|prices| - 1].price > prices[0].price ==> MonthChange(prices) > 0.0
    ensures prices[|prices| - 1].price < prices[0].price ==> MonthChange(prices) < 0.0
  {
    var c := MonthChange(prices);
    var d := prices[|prices| - 1].price - prices[0].price;
    assert c * prices[0].price == d * 100.0;
  }
}
