# Dividend portfolio tracker: a Dafny model of its core

The application keeps a list of stock and ETF symbols. For each symbol it fetches
a quote record from market-data providers. The record holds the price, the
dividend history, the dividend yield, the pay frequency, the market cap or the
ETF's net assets, and a short plain-language "opinion". The home page shows the
records in a table that the user can sort.

This project models the decision logic of that core and proves properties of it:

- **Dividend history** (`History`). The chart query comes first. When it throws,
  or a date conversion throws, the historical query is the fallback. Events come
  back newest first.
- **Pay frequency** (`Dividends`, `Frequency`). The history is classified from the
  average gap between payments, with a special "quarterly" pattern rule.
- **Dividend yield** (`Yield`). The annual dividend is taken from the last year of
  payments and extrapolated by frequency, then divided by the price.
- **Opinion** (`Insight`). Fixed yield, momentum, size and analyst-rating bands
  turn a record into sentences.
- **ETF net assets** (`NetAssetsScrape`). Figures such as `25.3B` are parsed out
  of page text. The scrape tries the quote page, then four tabs, then an API query.
- **The quote record** (`Quote`). Name cleaning, symbol normalisation, month
  change, the yield preference, and the error record used when a provider fails.
- **The table** (`Table`). Error records are dropped. The rest are sorted by one of
  three columns, with the direction toggle of the column header.
- **The client store** (`Store`). This is the hook that holds the active symbols,
  the cache, the displayed records and the load progress. It covers adding a
  symbol, removing one, resetting to a list, and fetching every symbol with a
  tally of what failed.

Every network answer is an input: a datatype that says whether the call threw,
came back not ok, or answered with what data. Some things depend on locale or
on the calendar and are parameters of the functions that use them:

- the calendar month of a day (`monthOf`);
- the text of a number (`fmt`, `numText`);
- the current time (`nowMs`).

The pure parts of the service are functions. Where the source loops and pushes
to a list, the model is a `method` proved equal to the function that specifies
it. The store is a `class` whose methods change its fields. The sort works in
place on an `array`, as `Array.prototype.sort` does.

Two branches of the code behave differently from what they seem to offer:

- **The `T` suffix.** `extractNetAssetsFromHtml` has a branch that multiplies a
  figure ending in `T` by 10^12 (services/data-service.ts:711-712). Every capture
  pattern admits only `B`, `M` or `K` after the digits, in either case because the
  patterns carry the `i` flag (services/data-service.ts:682-692). So that branch
  never fires (`NetAssetsScrape.TeraSuffixUnreachable`).
- **A lower-case unit.** The `i` flag lets a pattern capture `25b`, but the unit
  tests use `endsWith('B')`, which is case-sensitive (services/data-service.ts:703-713).
  No multiplier applies, `parseFloat` stops at the letter, and `25b` reads as 25,
  not 25,000,000,000 (`NetAssetsScrape.LowerCaseUnitIgnored`). The model keeps this
  reading.
- **A chart with no dividends.** `getDividendHistory` falls back to the
  historical query only when the chart query throws. A chart query that answers
  without a `dividends` field returns an empty history without consulting the
  historical query (services/data-service.ts:118-145, `History.ChartAnswerIsFinal`).

## Model

| member | source | states |
|---|---|---|
| Wrappers.FirstSome | services/data-service.ts:612-657 | the first present value of a chain of attempts, or nothing when every attempt is empty |
| Wrappers.FirstSomeConcat | services/data-service.ts:598-670 | trying two lists of strategies in turn is trying their concatenation |
| Dividends.Label | services/data-service.ts:191-238 | every frequency is shown as one of the six labels ("Monthly" … "Irregular") or "No Records" |
| Dividends.LabelInjective | services/data-service.ts:191-238 | two frequencies share a label only when they are the same frequency |
| Dividends.SortNewestFirst | services/data-service.ts:197-200 | the events sorted newest first, as a permutation of the input |
| Dividends.SortedEnds | services/data-service.ts:197-200 | after sorting newest first, the first event is the latest payment and the last event the earliest |
| Dividends.SameEventsSameSummary | services/data-service.ts:197-225 | two orderings of the same events have the same newest day, oldest day and set of months |
| Frequency.Gaps | services/data-service.ts:203-209 | the intervals are the day differences between consecutive events of the sorted history, one fewer than the events |
| Frequency.GapsTelescope | services/data-service.ts:203-212 | the intervals add up to the span between the newest and the oldest event |
| Frequency.ByMeanGap | services/data-service.ts:231-237 | the threshold cascade: Monthly iff mean ≤ 35 days, Bi-Monthly iff 35 < mean ≤ 70, Quarterly iff ≤ 100, Semi-Annual iff ≤ 190, Annual iff ≤ 370, otherwise Irregular |
| Frequency.ThresholdCascade | services/data-service.ts:231-237 | the if-chain on the average interval gives exactly the band classification |
| Frequency.CollectIntervals | services/data-service.ts:203-209 | the interval loop produces exactly the gaps of the sorted history |
| Frequency.SumIntervals | services/data-service.ts:212 | the reduce loop gives the total of the intervals |
| Frequency.CollectMonths | services/data-service.ts:216-220 | the set built in the loop is exactly the set of months touched by the payments |
| Frequency.CalculatePayFrequency | services/data-service.ts:191-238 | `calculatePayFrequency` as a method, equal to the classification of its input |
| Frequency.MeanGapIsSpan | services/data-service.ts:203-212 | the average interval is the span between newest and oldest payment divided by the number of gaps |
| Frequency.PayFrequencyPermutationInvariant | services/data-service.ts:197-237 | the frequency does not depend on the order in which the provider listed the payments |
| Frequency.PayFrequencyCases | services/data-service.ts:191-237 | no events give "No Records", one event gives Annual; otherwise the quarterly pattern (≥ 3 events, 3 or 4 distinct months, mean gap in [70, 120]) wins, else the threshold cascade on the mean gap |
| Frequency.EvenlySpacedMean | services/data-service.ts:203-212 | for payments spaced exactly d days apart, the average interval is d |
| Frequency.EvenlySpacedExamples | services/data-service.ts:216-237 | payments every 30 days classify as Monthly, every 91 days as Quarterly |
| Yield.Recent | services/data-service.ts:257-260 | the payments kept are exactly those within the last year of the current time |
| Yield.ExpectedPayments | services/data-service.ts:270-325 | a count of expected payments exists only for Monthly, Bi-Monthly, Quarterly and Semi-Annual, and is 12, 6, 4 or 2 |
| Yield.DividendYield | services/data-service.ts:246-333 | `calculateDividendYield`: 0 for an empty history or a missing or zero price; otherwise yield × price = annual dividend × 100 |
| Yield.PercentOf | services/data-service.ts:332 | the percentage p of price satisfies p × price = amount × 100 |
| Yield.ExtrapolateIsProportional | services/data-service.ts:270-325 | extrapolation scales the recent sum by expected payments over recent payments, and gives 0 when there are no recent payments |
| Yield.SumAmountsPermutation | services/data-service.ts:326-328 | the sum of amounts does not depend on the order of the payments |
| Yield.RecentPermutation | services/data-service.ts:252-260 | filtering to the last year commutes with reordering |
| Yield.RecentSorted | services/data-service.ts:252-260 | filtering a newest-first history keeps it newest first |
| Yield.NewestKept | services/data-service.ts:252-299 | the first k recent payments taken are the newest ones |
| Yield.AnnualUsesNewest | services/data-service.ts:267-269 | for an Annual payer the annual dividend is the newest payment's amount, whatever the current time |
| Yield.IrregularSumsRecent | services/data-service.ts:326-328 | for an irregular payer the annual dividend is the sum of the payments of the last year |
| Yield.UniformPayer | services/data-service.ts:270-325 | a payer of a constant amount a with k expected payments a year has an annual dividend of k × a |
| Yield.MonthlyExample | services/data-service.ts:246-333 | five payments of 1.00 thirty days apart, at price 100, give a yield of 12% |
| Insight.YieldBandOf | services/data-service.ts:346-360 | yield bands: high iff > 8, above average iff in (5, 8], moderate iff in (3, 5], low iff in (0, 3], none otherwise |
| Insight.MomentumBandOf | services/data-service.ts:363-378 | no remark iff the 50-day change is within ±2%; bands at 8% and 2% upward, −2%, −5% and −8% downward |
| Insight.CapBandOf | services/data-service.ts:381-394 | market-cap bands: mega iff > 200B, large iff in (10B, 200B], mid iff in (2B, 10B], small iff in (300M, 2B], micro otherwise |
| Insight.EtfBandOf | services/data-service.ts:395-408 | net-assets bands: large iff > 10B, mid-size iff in (1B, 10B], smaller iff in (100M, 1B], very small otherwise |
| Insight.YieldPart | services/data-service.ts:346-360 | one yield sentence iff a yield is present, in the band of that yield |
| Insight.MomentumPart | services/data-service.ts:363-378 | one momentum sentence iff the change is present and its magnitude exceeds 2%, quoting the absolute change |
| Insight.SizePart | services/data-service.ts:381-408 | one size sentence iff the market cap is truthy or net assets are a non-zero amount; the market cap takes precedence |
| Insight.RecommendationPart | services/data-service.ts:411-414 | one rating sentence iff the key is not empty, "Unknown" or "No recommendations available"; the sentence is the key itself |
| Insight.FragmentsInOrder | services/data-service.ts:340-416 | at most four sentences, always in the order yield, momentum, size, rating |
| Insight.GenerateInsight | services/data-service.ts:340-417 | `generateAlgorithmicInsight`: the joined sentences, built by pushing remark after remark |
| Insight.YieldRemark | services/data-service.ts:346-360 | the yield block pushes exactly the yield sentence for the band |
| Insight.MomentumRemark | services/data-service.ts:363-378 | the momentum block pushes exactly the momentum sentence, if any |
| Insight.SizeRemark | services/data-service.ts:381-408 | the size block pushes exactly the size sentence, if any |
| Insight.CapRemark | services/data-service.ts:381-394 | the market-cap if-chain picks the sentence of the cap band |
| Insight.EtfRemark | services/data-service.ts:395-408 | the net-assets if-chain picks the sentence of the ETF band |
| Insight.MarketCapPreemptsNetAssets | services/data-service.ts:381-408 | with a truthy market cap, any size sentence is a market-cap sentence, never an ETF one |
| Insight.OnlyYield | services/data-service.ts:340-417 | with only a yield known, the opinion is exactly that yield's sentence |
| NetAssetsScrape.ParseFloat | services/data-service.ts:716 | `parseFloat` on a digits-and-point prefix: never negative, and NaN exactly when no digit starts the text |
| NetAssetsScrape.RemoveAll | services/data-service.ts:698 | no separator is left, and a character remains only if it was in the text and is not a separator |
| NetAssetsScrape.RemoveAllConcat | services/data-service.ts:698 | removing separators distributes over concatenation, so the other characters keep their order and their repeats |
| NetAssetsScrape.ReplaceFirst | services/data-service.ts:703-713 | removing the unit letter shortens the text by one when it is present and changes nothing otherwise |
| NetAssetsScrape.SuffixOf | services/data-service.ts:702-714 | the unit found is one of B, M, K, T and is the text's last character; none when the text ends in none of them |
| NetAssetsScrape.ParseCapture | services/data-service.ts:697-719 | a figure read from a capture is always positive |
| NetAssetsScrape.NetAssetsOf | services/data-service.ts:677-724 | `extractNetAssetsFromHtml`: nothing for empty text; for a non-empty page, nothing iff no capture parses to a positive figure, otherwise the figure of the first capture that does |
| NetAssetsScrape.ExtractNetAssets | services/data-service.ts:695-721 | the pattern loop returns the first capture that parses to a positive figure |
| NetAssetsScrape.ReadCapture | services/data-service.ts:697-719 | the body of the loop reads one capture the way the parsing function specifies |
| NetAssetsScrape.TeraSuffixUnreachable | services/data-service.ts:681-693 | a capture of the case-insensitive patterns (digits, commas and points, then at most one of B, M, K, b, m, k) never ends in T once commas are removed |
| NetAssetsScrape.DigitPrefixStops | services/data-service.ts:716 | `parseFloat` reads the digits up to the first non-digit |
| NetAssetsScrape.LowerCaseUnitIgnored | services/data-service.ts:681-719 | digits followed by b, m or k, which the patterns capture, are worth the bare digits: the case-sensitive unit tests apply no multiplier |
| NetAssetsScrape.ExampleLowerCaseBillions | services/data-service.ts:681-719 | "25b" reads as 25 |
| NetAssetsScrape.ReplaceFirstLast | services/data-service.ts:703-713 | dropping the unit letter of digits-plus-unit leaves the digits |
| NetAssetsScrape.ParseFloatDigits | services/data-service.ts:716 | a run of digits parses to its decimal value |
| NetAssetsScrape.WholeUnits | services/data-service.ts:697-719 | digits followed by B, M or K are worth the digits' value times 10^9, 10^6 or 10^3 |
| NetAssetsScrape.SeparatorsLeaveDigits | services/data-service.ts:698 | a figure of digits and separators is all digits once the separators go |
| NetAssetsScrape.SeparatedUnits | services/data-service.ts:697-719 | digits with thousands separators followed by B, M or K are worth the value of the digits left, in order, times the unit |
| NetAssetsScrape.CaptureValue | services/data-service.ts:697-719 | a capture whose separator-free text is digits then a unit is worth the digits' value times the unit |
| NetAssetsScrape.ExampleSeparators | services/data-service.ts:697-719 | "1,234M" reads as 1,234,000,000 |
| NetAssetsScrape.ExampleBillions | services/data-service.ts:697-719 | "25B" reads as 25,000,000,000 |
| NetAssetsScrape.ExampleMillions | services/data-service.ts:697-719 | "750M" reads as 750,000,000 |
| NetAssetsScrape.ExampleFraction | services/data-service.ts:716 | "2.5" parses to 2.5 |
| NetAssetsScrape.ExampleFractionalBillions | services/data-service.ts:697-719 | "2.5B" reads as 2,500,000,000 |
| NetAssetsScrape.ExamplesRejected | services/data-service.ts:716-719 | "0" and ",." give no figure |
| NetAssetsScrape.ScrapeEtfNetAssets | services/data-service.ts:598-670 | `scrapeETFNetAssets`: nothing for an empty symbol or a quote page that is not ok; otherwise the first figure among the quote page, the four tabs in order, and the API query |
| NetAssetsScrape.FirstTabFigure | services/data-service.ts:620-645 | the loop over the tabs gives the figure of the first tab page that is ok and holds one, and nothing when none does |
| NetAssetsScrape.QuotePageFirst | services/data-service.ts:612-619 | a figure on the quote page is the answer, whatever the tabs and the API say |
| NetAssetsScrape.ApiLast | services/data-service.ts:650-657 | when no page gives a figure, the answer is the API's non-zero figure times one million, or nothing |
| NetAssetsScrape.PageFiguresPositive | services/data-service.ts:598-670 | any figure returned is positive unless it came from a negative API figure |
| History.DayOf | services/data-service.ts:138 | there is a day iff the instant is within the range of a `Date` (where `toISOString` does not throw), and that day contains the instant |
| History.ChartEvents | services/data-service.ts:120-142 | one event per chart dividend, in order, with its amount, the day of its normalised timestamp and that day's month, with the corrected `Date` reading (see "## Findings"); the conversion fails iff some date gives no day |
| History.PaidRows | services/data-service.ts:161-162 | the rows kept are exactly those with a positive dividend |
| History.PaidRowsConcat | services/data-service.ts:161-162 | the filter distributes over concatenation, so the paid rows keep their order and their repeats |
| History.RowEvents | services/data-service.ts:160-166 | one event per row, in order, with its dividend amount, the ISO day of its date and that day's month; the conversion fails iff some date is out of range |
| History.GetDividendHistory | services/data-service.ts:90-184 | `getDividendHistory`: the chart events newest first; the historical paid rows when the chart or a date conversion throws; nothing when both fail or the symbol is empty |
| History.ChartAnswerIsFinal | services/data-service.ts:118-148 | once the chart answers and its dates convert, the historical query is never consulted; a chart without dividends gives an empty history |
| History.ChartEventsSorted | services/data-service.ts:142-145 | the chart path returns every converted event and nothing else, newest first |
| History.FallbackPaysPositive | services/data-service.ts:149-170 | the fallback returns one event per paid row, newest first, each paying a positive amount |
| History.BothFail | services/data-service.ts:173-177 | when both queries throw the history is empty |
| History.NumericDates | services/data-service.ts:131-135 | a numeric date below 10,000,000 counts days; a larger one counts seconds |
| History.DateObjectDays | services/data-service.ts:120-145 | with the corrected reading, chart dates given as in-range `Date` objects never trigger the fallback, and each event returned falls on its `Date`'s own day, with its amount and month |
| History.DateObjectMisread | services/data-service.ts:120-138 | as written, a `Date` of 14 Nov 2023 lands on day 19,675,925 instead of day 19,675 |
| History.DateObjectScaledByThousand | services/data-service.ts:120-138 | as written, every `Date` past the first 10,000,000 ms is read as 1000 times its instant |
| Quote.StripSuffix | services/data-service.ts:731-740 | stripping a trailing word leaves a prefix of the name, shorter by the word and its space when it was there |
| Quote.StripAppended | services/data-service.ts:731-740 | a name ending in a space and the word loses exactly that ending |
| Quote.CleanStockNamePrefix | services/data-service.ts:731-740 | the cleaned name is a trimmed prefix of the name, and just the trimmed name when it ends in none of ETF, Fund, Trust |
| Quote.CleanStockNameOrder | services/data-service.ts:731-740 | the suffixes are stripped in order ETF, Fund, Trust, one each, so "X Fund ETF" loses both words but "X ETF Trust" keeps "ETF" |
| Quote.MonthChange | services/data-service.ts:494-499 | 0 with fewer than two prices; otherwise change × first price = (last − first) × 100 |
| Quote.MonthChangeSign | services/data-service.ts:494-499 | a rising month gives a positive change and a falling month a negative one |
| Quote.PreferredYield | services/data-service.ts:522-524 | the computed yield replaces the provider's only when the provider's is 0 and the computed one is positive |
| Quote.ErrorRecord | services/data-service.ts:563-584 | the error record keeps the symbol, has zero yields, "Unknown" frequency and rating, no ETF flag and null net assets |
| Quote.GetStockQuote | services/data-service.ts:424-591 | `getStockQuote`: nothing iff the symbol is missing or empty; otherwise a record for the trimmed, upper-cased symbol, whose history uses the corrected `Date` reading (see "## Findings") |
| Quote.NetAssetsField | services/data-service.ts:479-491 | a non-ETF gets null; an ETF gets the summary's total assets when truthy, otherwise the scrape's figure, or null when the scrape finds none |
| Quote.QuoteRecordFields | services/data-service.ts:468-560 | a successful record carries the history, the yield computed from it, the label of its frequency, the preferred yield (the provider's, or the computed one when the provider's is 0), the month change of the prices, the net assets chosen as above, and the opinion generated from the record itself; the history, and so the frequency and yield, use the corrected `Date` reading (see "## Findings") |
| Quote.EtfNetAssetsScraped | services/data-service.ts:482-530 | an ETF without summary total assets gets null exactly when the scrape finds nothing, and otherwise a positive figure unless the API reported a negative one |
| Quote.FailureGivesErrorRecord | services/data-service.ts:563-584 | when the quote or the price query fails, the answer is an error record with zero yields and "Unknown" frequency |
| Text.LexLeqTotal | hooks/useStockData.ts:154 | the default string order of `.sort()` relates any two strings one way or the other |
| Sorting.SortSorted | hooks/useStockData.ts:154 | the stable sort yields an ordered permutation under any total preorder |
| Table.SymbolCompare | app/page.tsx:120-167 | the symbol tie-break is 0 iff the symbols are equal and negative iff the first precedes the second |
| Table.BeforeTotal | app/page.tsx:120-167 | the comparator orders every two records one way or the other |
| Table.BeforeTransitive | app/page.tsx:120-167 | the comparator is transitive, so sorting by it is well defined |
| Table.MissingKeysBySymbol | app/page.tsx:120-167 | records with no value in the column are ordered by symbol in either direction |
| Table.DirectionOrders | app/page.tsx:120-167 | descending puts the larger value strictly first and ascending the smaller; equal values compare as 0 |
| Table.NetAssetsStandIn | app/page.tsx:120-167 | in the market-cap column, a record with net assets (even null) ranks above one with neither figure |
| Table.SortInPlace | app/page.tsx:130-166 | the array ends ordered by the comparator and holds the same records |
| Table.SortStockData | app/page.tsx:120-167 | `sortStockData`: a fresh sorted copy holding the same records; the argument is unchanged |
| Table.WithoutErrors | app/page.tsx:78 | the records kept are exactly those without the error flag |
| Table.WithoutErrorsConcat | app/page.tsx:78 | the filter distributes over concatenation, so the kept records keep their order and their repeats |
| Table.WithoutErrorsCounts | app/page.tsx:78 | each error-free record is kept as many times as it occurs, and each error record is dropped |
| Table.DisplayedStocks | app/page.tsx:71-89 | the rows shown are the error-free records, sorted, and no error record is shown |
| Table.HandleSort | app/page.tsx:240-249 | clicking the sorted column flips its direction; clicking another column sorts it descending |
| Table.HandleSortCycle | app/page.tsx:240-249 | two clicks on the sorted column restore the state; a new column goes descending then ascending |
| Store.Filter | hooks/useStockData.ts:298 | an element is kept iff it is in the list and passes the test |
| Store.FilterConcat | hooks/useStockData.ts:354-365 | filtering distributes over concatenation |
| Store.FindIndex | hooks/useStockData.ts:90 | the first index whose symbol matches, or the length when none does |
| Store.Upsert | hooks/useStockData.ts:89-98 | for a known symbol, the first record with it, and only that one, becomes the new record and the length is kept; an unknown symbol's record is appended; every other record keeps its position |
| Store.UpsertIdempotent | hooks/useStockData.ts:89-98 | storing the same record twice is the same as storing it once |
| Store.WithoutSymbol | hooks/useStockData.ts:354 | the symbols kept are exactly those other than the removed one |
| Store.WithoutRecord | hooks/useStockData.ts:365 | the records kept are exactly those for other symbols |
| Store.RemovalKeepsOthers | hooks/useStockData.ts:365 | removing a symbol keeps the others in order, and removing an absent symbol changes nothing |
| Store.SymbolRemovalKeepsOthers | hooks/useStockData.ts:354 | removing a symbol from the list keeps the others in order, and removing an absent symbol changes nothing |
| Store.Normalize | hooks/useStockData.ts:131-133 | the list holds exactly the non-empty trimmed, upper-cased inputs |
| Store.NormalizeConcat | hooks/useStockData.ts:131-133 | normalising distributes over concatenation, so outputs keep the inputs' order and their repeats |
| Store.NormalizeKeepsEach | hooks/useStockData.ts:131-133 | when no input becomes empty, output i is input i trimmed and upper-cased, and repeats are not merged |
| Store.NormalizeSymbolIdempotent | hooks/useStockData.ts:132 | trimming and upper-casing a normalised symbol changes nothing |
| Store.NormalizeIdempotent | hooks/useStockData.ts:131-133 | normalising a normalised list changes nothing |
| Store.ResetListOrdered | hooks/useStockData.ts:131-154 | the list the reset installs is the normalised list sorted in place by `.sort()`: ordered, and the same symbols |
| Store.ResetListNormal | hooks/useStockData.ts:131-154 | every symbol the reset installs is non-empty and normalised |
| Store.HookErrorRecord | hooks/useStockData.ts:107-121 | the store's error record keeps the symbol and message, has an empty history, zero yields, empty frequency, rating and source, and null net assets |
| Store.FetchedRecord | hooks/useStockData.ts:77-125 | an ok answer gives its data; any other gives an error record for the symbol |
| Store.LoadedOf | hooks/useStockData.ts:229-262 | a record is loaded iff it is an ok answer for a requested symbol; at most one per answer |
| Store.CompletedOf | hooks/useStockData.ts:214-272 | the completed count never exceeds the number of answers |
| Store.CacheWith | hooks/useStockData.ts:240 | every loaded record's symbol is cached and nothing cached is dropped |
| Store.CacheWithEntries | hooks/useStockData.ts:240 | the cache's keys are exactly the old keys and the loaded symbols; each loaded symbol maps to the last record loaded for it; every other entry keeps its old value |
| Store.UpsertAll | hooks/useStockData.ts:244-253 | every loaded record's symbol ends up in the displayed list |
| Store.UpsertAllKeeps | hooks/useStockData.ts:244-253 | the last record loaded for each symbol is displayed; the list never shrinks; a record whose symbol did not load keeps its position |
| Store.TallyFailedExactly | hooks/useStockData.ts:275-299 | the failed symbols are exactly the requested symbols with no loaded record; with nothing loaded, the tally fails and lists every symbol |
| Store.FullLoadSucceeds | hooks/useStockData.ts:275-299 | when every answer is ok and echoes its symbol, the tally succeeds with no failed symbol |
| Store.EchoedSuccess | hooks/useStockData.ts:296-299 | for distinct symbols whose answers echo them, success holds iff no symbol failed |
| Store.StockStore.constructor | hooks/useStockData.ts:26-48 | the store starts with the given symbols, no records, an empty cache and progress 0 |
| Store.StockStore.FetchSingleStock | hooks/useStockData.ts:77-125 | an ok answer is cached and upserted; a failure changes neither; the fetched record is returned |
| Store.StockStore.AddStock | hooks/useStockData.ts:322-348 | an empty symbol does nothing; an active one returns its cached record and changes nothing; a new one is fetched, added to the active list iff it is not an error, and dropped from the cache if it is; the list stays free of repeats |
| Store.StockStore.RemoveStock | hooks/useStockData.ts:351-367 | the symbol leaves the active list; its cache entry and records go only when it was cached; the list stays free of repeats |
| Store.StockStore.FetchEach | hooks/useStockData.ts:214-272 | the loop loads, caches and upserts exactly the ok answers for requested symbols, with progress within the symbol count |
| Store.StockStore.FetchAllStocks | hooks/useStockData.ts:185-299 | `fetchAllStocks`: no symbols means nothing to fetch and no change; otherwise the tally of the loaded records, the cache extended and the records upserted onto the old list (or an emptied one when no list was passed) |
| Store.StockStore.ResetToSymbols | hooks/useStockData.ts:128-182 | the active list becomes the normalised, sorted list; cache and records are cleared and then filled from the fetch of that list |

## Left out

- Network, provider and `Promise` I/O: each answer is an input datatype. Timing, retries and the order in which answers arrive are not modelled.
- `localStorage` (reading the saved symbols, saving, and clearing when the defaults are restored): a browser side effect with no bearing on the returned values.
- Logging (`console.log`, `console.error`): it has no effect on results.
- React state scheduling: each `set…` call takes effect at once in the model. Stale closures over `activeSymbols` are not modelled.
- The recompute effect of `useStockData.ts:57-74`: it rebuilds the displayed list from the cache after renders. Only the explicit updates of the operations are modelled.
- `isLoading`, the error banner, and the progress `total`, `status` and `currentSymbol` fields: they are display state. Only `progress.current` is kept, and only its bound is stated.
- `fetchDate` and the other timestamp fields of a record: they depend on the clock.
- Number formatting (`toFixed`, `toLocaleString`) and integer-to-text conversion: they are parameters (`fmt`, `numText`).
- The regular-expression search of `extractNetAssetsFromHtml`: each pattern's capture is an input. What the model does with a capture is modelled.
- `parseFloat`: modelled on digits with an optional fraction. Signs, exponents and leading whitespace cannot occur in a capture of the patterns.
- Floating point: amounts and prices are exact reals. NaN and Infinity are not modelled.
- Quote.GetStockQuote: requires a non-zero first close when there are at least two prices, because otherwise the source's month change is Infinity or NaN.
- History.ChartEvents: reads a chart date that is a `Date` as its own instant, the corrected reading of "## Findings". The code as written scales it by 1000 a second time (`History.DateObjectMisread`).
- Quote.GetStockQuote: builds its record on the corrected dividend history, so for chart dates given as `Date`s its history, frequency and yield are those the code intends, not those it computes as written.
- Quote.QuoteRecordFields: states the fields of a record built on the corrected dividend history, as for `Quote.GetStockQuote`.
- Quote.MonthChange: requires a non-zero first price, for the same reason.
- Text.ToUpper: upper-cases the ASCII letters a-z only. JavaScript's `toUpperCase` maps all of Unicode and can change the length (for example "ß" becomes "SS").
- Store.ResetListOrdered: the model orders strings by code point. The in-place `.sort()` compares UTF-16 code units, which differs only for characters beyond the Basic Multilingual Plane.
- `localeCompare` in the symbol tie-break: it is taken to be code-point order, not the locale's collation.
- The calendar month of a day and the parsing of date strings: they are abstract (`monthOf`, `DateString`), not a calendar implementation.
- The outer `catch` blocks of `getStockQuote` and `fetchAllStocks`: nothing inside them can throw in the model, so they are unreachable here.
- Table.SortStockData: the stability of `Array.prototype.sort` is not stated. Sortedness and permutation are.
- Only the three columns the page sorts by are modelled (month change, dividend yield, market cap).
- `Math.round` of the day difference: it is the identity, because events are kept as whole days.
- Store.EchoedSuccess: requires distinct symbols and answers that echo their symbol. With a repeated symbol the source can report `success: false` with an empty `failedSymbols`, and the model computes exactly that.
- The date-range parameters of `getDividendHistory`: they only shape the provider queries, which are inputs.

## Findings

| source | as written | input that shows it | evidently intended | confidence | as-written member | corrected member |
|---|---|---|---|---|---|---|
| services/data-service.ts:120-138 | a chart date that is a `Date` is turned into milliseconds by `getTime()`, then the numeric rule treats that number as seconds and multiplies by 1000 again | a `Date` of 1,700,000,000,000 ms (14 Nov 2023) is filed on day 19,675,925 | the event falls on day 19,675 (its own calendar day) | medium, not executed | History.DateObjectMisread | History.GetDividendHistory |
