/** Net assets of a fund: reading a figure such as "1,234.5M" out of a page
    (`extractNetAssetsFromHtml`) and the page-then-tabs-then-API chain of
    `scrapeETFNetAssets`. The regular-expression search is an input: for each of the
    eleven patterns, in order, the text its group captured (or `None`). */
module NetAssetsScrape {
  import opened Wrappers

  // ---------------------------------------------------------------------------
  // Strings of digits

  predicate IsDigit(c: char)
  {
    '0' <= c <= '9'
  }

  predicate AllDigits(s: string)
  {
    forall i :: 0 <= i < |s| ==> IsDigit(s[i])
  }

  /** The number a string of decimal digits spells. */
  function DigitsValue(s: string): nat
    requires AllDigits(s)
  {
    if s == [] then 0 else DigitsValue(s[..|s| - 1]) * 10 + (s[|s| - 1] as int - '0' as int)
  }

  function Pow10(n: nat): (p: nat)
    ensures p >= 1
  {
    if n == 0 then 1 else 10 * Pow10(n - 1)
  }

  /** The longest prefix of digits. */
  function DigitPrefix(s: string): (d: string)
    ensures |d| <= |s| && d == s[..|d|] && AllDigits(d)
    ensures |d| < |s| ==> !IsDigit(s[|d|])
  {
    if s != [] && IsDigit(s[0]) then
      var rest := DigitPrefix(s[1..]);
      assert [s[0]] + rest == s[..|rest| + 1];
      [s[0]] + rest
    else []
  }

  /** `parseFloat` on the text a capture leaves: the longest prefix of the form
      digits, optionally a point and more digits; `None` (NaN) when that prefix holds
      no digit at all. */
  function ParseFloat(s: string): (r: Option<real>)
    ensures r.Some? ==> r.value >= 0.0
    ensures r.None? <==> DigitPrefix(s) == [] &&
                         (s == [] || s[0] != '.' || DigitPrefix(s[1..]) == [])
  {
    var whole := DigitPrefix(s);
    var rest := s[|whole|..];
    var fraction := if rest != [] && rest[0] == '.' then DigitPrefix(rest[1..]) else [];
    if whole == [] && fraction == [] then None
    else Some(DigitsValue(whole) as real + DigitsValue(fraction) as real / Pow10(|fraction|) as real)
  }

  // ---------------------------------------------------------------------------
  // Editing the capture

  /** `replace(/,/g, '')`. */
  function RemoveAll(s: string, c: char): (r: string)
    ensures |r| <= |s| && c !in r
    ensures forall x :: x in r <==> x in s && x != c
  {
    if s == [] then []
    else if s[0] == c then RemoveAll(s[1..], c)
    else [s[0]] + RemoveAll(s[1..], c)
  }

  /** `replace('B', '')` with a string pattern: only the first occurrence goes. */
  function ReplaceFirst(s: string, c: char): (r: string)
    ensures c in s ==> |r| == |s| - 1
    ensures c !in s ==> r == s
  {
    if s == [] then []
    else if s[0] == c then s[1..]
    else [s[0]] + ReplaceFirst(s[1..], c)
  }

  predicate EndsWith(s: string, c: char)
  {
    s != [] && s[|s| - 1] == c
  }

  /** The unit suffixes and what they multiply by. */
  function Multiplier(u: char): real
  {
    if u == 'B' then 1000000000.0
    else if u == 'M' then 1000000.0
    else if u == 'K' then 1000.0
    else if u == 'T' then 1000000000000.0
    else 1.0
  }

  /** The suffix the figure ends with, tested in the order B, M, K, T. */
  function SuffixOf(s: string): (u: Option<char>)
    ensures u.Some? ==> u.value in {'B', 'M', 'K', 'T'} && EndsWith(s, u.value)
    ensures u.None? ==> !EndsWith(s, 'B') && !EndsWith(s, 'M') && !EndsWith(s, 'K') && !EndsWith(s, 'T')
  {
    if EndsWith(s, 'B') then Some('B')
    else if EndsWith(s, 'M') then Some('M')
    else if EndsWith(s, 'K') then Some('K')
    else if EndsWith(s, 'T') then Some('T')
    else None
  }

  /** What one pattern's capture is worth: `None` when the pattern did not match, the
      capture is empty, the figure is not a number or it is not positive. */
  function ParseCapture(capture: Option<string>): (r: Option<real>)
    ensures r.Some? ==> r.value > 0.0
  {
    if capture.None? || capture.value == [] then None
    else
      var plain := RemoveAll(capture.value, ',');
      var (digits, multiplier) :=
        match SuffixOf(plain)
        case Some(u) => (ReplaceFirst(plain, u), Multiplier(u))
        case None => (plain, 1.0);
      match ParseFloat(digits)
      case None => None
      case Some(n) => if n * multiplier > 0.0 then Some(n * multiplier) else None
  }

  function ParseAll(captures: seq<Option<string>>): (r: seq<Option<real>>)
    ensures |r| == |captures| && forall i :: 0 <= i < |r| ==> r[i] == ParseCapture(captures[i])
  {
    seq(|captures|, i requires 0 <= i < |captures| => ParseCapture(captures[i]))
  }

  /** The figure a page yields: nothing for an empty page, otherwise the first
      pattern whose capture parses to a positive number. */
  function NetAssetsOf(html: string, captures: seq<Option<string>>): (r: Option<real>)
    ensures r.Some? ==> r.value > 0.0
    ensures html == [] ==> r.None?
    ensures r.Some? ==> exists i :: 0 <= i < |captures| && ParseCapture(captures[i]) == r &&
                         forall j :: 0 <= j < i ==> ParseCapture(captures[j]).None?
    ensures html != [] ==> (r.None? <==> forall i :: 0 <= i < |captures| ==> ParseCapture(captures[i]).None?)
  {
    if html == [] then None
    else
      var all := ParseAll(captures);
      var r := FirstSome(all);
      assert r.Some? ==> r.value > 0.0 by {
        if r.Some? {
          var i :| 0 <= i < |captures| && all[i] == r;
        }
      }
      assert forall i :: 0 <= i < |captures| ==> all[i] == ParseCapture(captures[i]);
      r
  }

  /** `extractNetAssetsFromHtml`: tries the patterns in order and returns the first
      positive figure. */
  method ExtractNetAssets(html: string, captures: seq<Option<string>>) returns (r: Option<real>)
    ensures r == NetAssetsOf(html, captures)
  {
    if html == [] {
      return None;
    }
    var i := 0;
    while i < |captures|
      invariant 0 <= i <= |captures|
      invariant FirstSome(ParseAll(captures)) == FirstSome(ParseAll(captures)[i..])
    {
      assert ParseAll(captures)[i..][0] == ParseCapture(captures[i]);
      assert ParseAll(captures)[i..][1..] == ParseAll(captures)[i + 1..];
      var numericValue := ReadCapture(captures[i]);
      if numericValue.Some? {
        return numericValue;
      }
      i := i + 1;
    }
    assert ParseAll(captures)[i..] == [];
    r := None;
  }

  /** The body of the pattern loop: strip the commas, trade a unit suffix for its
      multiplier, parse, and keep a positive product. */
  method ReadCapture(capture: Option<string>) returns (r: Option<real>)
    ensures r == ParseCapture(capture)
  {
    if capture.None? || capture.value == [] {
      return None;
    }
    var value := RemoveAll(capture.value, ',');
    var multiplier := 1.0;
    if EndsWith(value, 'B') {
      value := ReplaceFirst(value, 'B');
      multiplier := 1000000000.0;
    } else if EndsWith(value, 'M') {
      value := ReplaceFirst(value, 'M');
      multiplier := 1000000.0;
    } else if EndsWith(value, 'K') {
      value := ReplaceFirst(value, 'K');
      multiplier := 1000.0;
    } else if EndsWith(value, 'T') {
      value := ReplaceFirst(value, 'T');
      multiplier := 1000000000000.0;
    }
    var parsed := ParseFloat(value);
    if parsed.Some? && parsed.value * multiplier > 0.0 {
      return Some(parsed.value * multiplier);
    }
    return None;
  }

  // ---------------------------------------------------------------------------
  // Properties of the parse

  /** The capture group is `[\d,.]+[BMK]?` under the `i` flag: digits, commas and
      points, then at most one of the letters B, M, K in either case. */
  predicate InCaptureClass(s: string)
  {
    s != [] &&
    (forall i :: 0 <= i < |s| - 1 ==> IsDigit(s[i]) || s[i] == ',' || s[i] == '.') &&
    (IsDigit(s[|s| - 1]) || s[|s| - 1] in {',', '.', 'B', 'M', 'K', 'b', 'm', 'k'})
  }

  lemma {:induction false} RemoveAllKeepsLast(s: string, c: char)
    requires s != [] && s[|s| - 1] != c
    ensures RemoveAll(s, c) != [] && RemoveAll(s, c)[|RemoveAll(s, c)| - 1] == s[|s| - 1]
  {
    if |s| > 1 {
      assert s[1..][|s[1..]| - 1] == s[|s| - 1];
      RemoveAllKeepsLast(s[1..], c);
    }
  }

  /** The 'T' suffix branch is never taken: after the commas go, a figure from the
      capture group never ends in 'T'. */
  lemma TeraSuffixUnreachable(s: string)
    requires InCaptureClass(s)
    ensures !EndsWith(RemoveAll(s, ','), 'T')
  {
    var plain := RemoveAll(s, ',');
    if plain != [] {
      if s[|s| - 1] == ',' {
        assert plain[|plain| - 1] in plain;
        assert plain[|plain| - 1] in s;
        var k :| 0 <= k < |s| && s[k] == plain[|plain| - 1];
      } else {
        RemoveAllKeepsLast(s, ',');
      }
    }
  }

  /** Removing a character distributes over concatenation: what is left keeps its
      order and every occurrence of the other characters. */
  lemma {:induction false} RemoveAllConcat(a: string, b: string, c: char)
    ensures RemoveAll(a + b, c) == RemoveAll(a, c) + RemoveAll(b, c)
  {
    if a == [] {
      assert a + b == b;
    } else {
      assert (a + b)[0] == a[0] && (a + b)[1..] == a[1..] + b;
      RemoveAllConcat(a[1..], b, c);
    }
  }

  lemma {:induction false} RemoveAllNoop(s: string, c: char)
    requires c !in s
    ensures RemoveAll(s, c) == s
  {
    if s != [] {
      RemoveAllNoop(s[1..], c);
    }
  }

  lemma {:induction false} ReplaceFirstLast(s: string, u: char)
    requires u !in s
    ensures ReplaceFirst(s + [u], u) == s
  {
    if s != [] {
      assert (s + [u])[1..] == s[1..] + [u];
      ReplaceFirstLast(s[1..], u);
    } else {
      assert s + [u] == [u];
    }
  }

  lemma DigitPrefixAll(s: string)
    requires AllDigits(s)
    ensures DigitPrefix(s) == s
  {
    if |DigitPrefix(s)| < |s| {
      assert false;
    }
  }

  /** A string of digits parses to the number it spells. */
  lemma {:induction false} ParseFloatDigits(d: string)
    requires d != [] && AllDigits(d)
    ensures ParseFloat(d) == Some(DigitsValue(d) as real)
  {
    DigitPrefixAll(d);
    assert d[|d|..] == [];
  }

  lemma {:induction false} DigitsAndUnit(d: string, u: char)
    requires AllDigits(d) && u in {'B', 'M', 'K'}
    ensures RemoveAll(d + [u], ',') == d + [u]
    ensures u !in d
  {
    var s := d + [u];
    forall i | 0 <= i < |s|
      ensures s[i] != ','
    {
      if i < |d| {
        assert IsDigit(d[i]);
      }
    }
    RemoveAllNoop(s, ',');
    forall i | 0 <= i < |d|
      ensures d[i] != u
    {
      assert IsDigit(d[i]);
    }
  }

  /** A whole number of units: the digits, scaled by the suffix. */
  lemma {:induction false} WholeUnits(d: string, u: char)
    requires d != [] && AllDigits(d) && DigitsValue(d) > 0 && u in {'B', 'M', 'K'}
    ensures ParseCapture(Some(d + [u])) == Some(DigitsValue(d) as real * Multiplier(u))
  {
    DigitsAndUnit(d, u);
    ReplaceFirstLast(d, u);
    assert SuffixOf(d + [u]) == Some(u);
    ParseFloatDigits(d);
  }

  /** The digit run of a string that goes on with a non-digit. */
  lemma {:induction false} DigitPrefixStops(d: string, u: char)
    requires AllDigits(d) && !IsDigit(u)
    ensures DigitPrefix(d + [u]) == d
  {
    if d != [] {
      assert (d + [u])[0] == d[0] && (d + [u])[1..] == d[1..] + [u];
      DigitPrefixStops(d[1..], u);
    }
  }

  /** A lower-case unit, which the case-insensitive patterns capture, is not one of the
      case-sensitive suffixes: `parseFloat` stops at it and the figure is the bare
      digits, unscaled. */
  lemma {:induction false} LowerCaseUnitIgnored(d: string, u: char)
    requires d != [] && AllDigits(d) && DigitsValue(d) > 0 && u in {'b', 'm', 'k'}
    ensures ParseCapture(Some(d + [u])) == Some(DigitsValue(d) as real)
  {
    var s := d + [u];
    forall i | 0 <= i < |s|
      ensures s[i] != ','
    {
      if i < |d| {
        assert IsDigit(d[i]);
      }
    }
    RemoveAllNoop(s, ',');
    assert SuffixOf(s) == None;
    DigitPrefixStops(d, u);
    assert s[|d|..] == [u];
  }

  lemma ExampleLowerCaseBillions()
    ensures ParseCapture(Some("25b")) == Some(25.0)
  {
    assert DigitsValue("25") == 25 by {
      assert "25"[..1] == "2";
      assert "2"[..0] == "";
    }
    LowerCaseUnitIgnored("25", 'b');
    assert "25" + ['b'] == "25b";
  }

  /** Digits and thousands separators only. */
  predicate DigitsOrCommas(s: string)
  {
    forall i :: 0 <= i < |s| ==> IsDigit(s[i]) || s[i] == ','
  }

  /** A whole number of units written with thousands separators: the separators are
      dropped and the digits that remain, in order, are scaled by the suffix. */
  lemma {:induction false} SeparatedUnits(d: string, u: char)
    requires DigitsOrCommas(d) && u in {'B', 'M', 'K'}
    requires AllDigits(RemoveAll(d, ',')) && RemoveAll(d, ',') != [] && DigitsValue(RemoveAll(d, ',')) > 0
    ensures ParseCapture(Some(d + [u])) == Some(DigitsValue(RemoveAll(d, ',')) as real * Multiplier(u))
  {
    RemoveAllConcat(d, [u], ',');
    assert RemoveAll([u], ',') == [u];
    CaptureValue(d + [u], RemoveAll(d, ','), u);
  }

  /** A capture whose separator-free text is digits followed by a unit. */
  lemma {:induction false} CaptureValue(x: string, plain: string, u: char)
    requires x != [] && RemoveAll(x, ',') == plain + [u] && u in {'B', 'M', 'K'}
    requires plain != [] && AllDigits(plain) && DigitsValue(plain) > 0
    ensures ParseCapture(Some(x)) == Some(DigitsValue(plain) as real * Multiplier(u))
  {
    assert SuffixOf(plain + [u]) == Some(u);
    DigitsAndUnit(plain, u);
    ReplaceFirstLast(plain, u);
    ParseFloatDigits(plain);
  }

  /** The digits left once the separators go are exactly the digits of the figure. */
  lemma SeparatorsLeaveDigits(d: string)
    requires DigitsOrCommas(d)
    ensures AllDigits(RemoveAll(d, ','))
  {
    var plain := RemoveAll(d, ',');
    forall i | 0 <= i < |plain|
      ensures IsDigit(plain[i])
    {
      assert plain[i] in plain;
      var k :| 0 <= k < |d| && d[k] == plain[i];
    }
  }

  lemma SeparatorsOfExample()
    ensures RemoveAll("1,234", ',') == "1234"
  {
    assert "1,234" == "1," + "234";
    RemoveAllConcat("1,", "234", ',');
    assert RemoveAll("1,", ',') == "1";
    RemoveAllNoop("234", ',');
  }

  lemma DigitsOfExample()
    ensures DigitsValue("1234") == 1234
  {
    assert "1"[..0] == [] && DigitsValue("1") == 1;
    assert "12"[..1] == "1" && DigitsValue("12") == 12;
    assert "123"[..2] == "12" && DigitsValue("123") == 123;
    assert "1234"[..3] == "123";
  }

  lemma ExampleSeparators()
    ensures ParseCapture(Some("1,234M")) == Some(1234000000.0)
  {
    var d := "1,234";
    SeparatorsOfExample();
    DigitsOfExample();
    assert DigitsOrCommas(d);
    SeparatedUnits(d, 'M');
    assert d + ['M'] == "1,234M";
  }

  lemma ExampleBillions()
    ensures ParseCapture(Some("25B")) == Some(25000000000.0)
  {
    assert DigitsValue("25") == 25 by {
      assert "25"[..1] == "2";
      assert "2"[..0] == "";
    }
    WholeUnits("25", 'B');
    assert "25" + ['B'] == "25B";
  }

  lemma ExampleMillions()
    ensures ParseCapture(Some("750M")) == Some(750000000.0)
  {
    assert DigitsValue("750") == 750 by {
      assert "750"[..2] == "75";
      assert "75"[..1] == "7";
      assert "7"[..0] == "";
    }
    WholeUnits("750", 'M');
    assert "750" + ['M'] == "750M";
  }

  lemma ExampleFraction()
    ensures ParseFloat("2.5") == Some(2.5)
  {
    assert DigitPrefix("2.5") == "2";
    assert "2.5"[1..] == ".5" && ".5"[1..] == "5";
    assert DigitPrefix("5") == "5";
    assert DigitsValue("2") == 2 by { assert "2"[..0] == ""; }
    assert DigitsValue("5") == 5 by { assert "5"[..0] == ""; }
  }

  lemma ExampleFractionalBillions()
    ensures ParseCapture(Some("2.5B")) == Some(2500000000.0)
  {
    assert RemoveAll("2.5B", ',') == "2.5B";
    assert ReplaceFirst("2.5B", 'B') == "2.5";
    ExampleFraction();
  }

  /** Zero and a figure without digits are rejected. */
  lemma ExamplesRejected()
    ensures ParseCapture(Some("0")) == None
    ensures ParseCapture(Some(",.")) == None
  {
    assert RemoveAll("0", ',') == "0";
    assert DigitPrefix("0") == "0" && "0"[1..] == "";
    assert DigitsValue("0") == 0 by { assert "0"[..0] == ""; }
    assert RemoveAll(",.", ',') == ".";
    assert DigitPrefix(".") == [] && "."[1..] == [];
  }

  // ---------------------------------------------------------------------------
  // The scrape

  /** A page request: it threw (network or body error), came back not ok, or came
      back ok with its text and the patterns' captures on that text. */
  datatype Page = PageThrew | PageNotOk | PageOk(html: string, captures: seq<Option<string>>)

  /** The `fundProfile` query: it threw, or it answered with `totalNetAssets` in
      millions (or without it). */
  datatype FundProfile = ProfileThrew | ProfileOk(totalNetAssets: Option<real>)

  /** The tabs tried after the quote page, in order. */
  const Tabs: seq<string> := ["profile", "holdings", "performance", "risk"]

  function TabHit(page: Page): Option<real>
  {
    if page.PageOk? then NetAssetsOf(page.html, page.captures) else None
  }

  function TabHits(tabs: seq<Page>): (r: seq<Option<real>>)
    ensures |r| == |tabs| && forall i :: 0 <= i < |r| ==> r[i] == TabHit(tabs[i])
  {
    seq(|tabs|, i requires 0 <= i < |tabs| => TabHit(tabs[i]))
  }

  /** A non-zero API figure, scaled from millions to units. */
  function ApiHit(api: FundProfile): Option<real>
  {
    if api.ProfileOk? && api.totalNetAssets.Some? && api.totalNetAssets.value != 0.0 then
      Some(api.totalNetAssets.value * 1000000.0)
    else None
  }

  /** What the scrape returns: nothing for an empty symbol or a quote page that is not
      ok; otherwise the first hit among the quote page, the tabs and the API. */
  function ScrapeOf(symbol: string, quotePage: Page, tabs: seq<Page>, api: FundProfile): Option<real>
  {
    if symbol == [] || !quotePage.PageOk? then None
    else FirstSome([NetAssetsOf(quotePage.html, quotePage.captures)] + TabHits(tabs) + [ApiHit(api)])
  }

  /** `scrapeETFNetAssets`, one page per request outcome. */
  method ScrapeEtfNetAssets(symbol: string, quotePage: Page, tabs: seq<Page>, api: FundProfile)
    returns (r: Option<real>)
    requires |tabs| == |Tabs|
    ensures r == ScrapeOf(symbol, quotePage, tabs, api)
  {
    if symbol == [] {
      return None;
    }
    if !quotePage.PageOk? {
      return None;
    }
    var netAssets := ExtractNetAssets(quotePage.html, quotePage.captures);
    ghost var later := TabHits(tabs) + [ApiHit(api)];
    assert [netAssets] + TabHits(tabs) + [ApiHit(api)] == [netAssets] + later;
    FirstSomeConcat([netAssets], later);
    if netAssets.Some? {
      return netAssets;
    }
    netAssets := FirstTabFigure(tabs);
    FirstSomeConcat(TabHits(tabs), [ApiHit(api)]);
    if netAssets.Some? {
      return netAssets;
    }
    if api.ProfileOk? && api.totalNetAssets.Some? && api.totalNetAssets.value != 0.0 {
      return Some(api.totalNetAssets.value * 1000000.0);
    }
    return None;
  }

  /** The loop over the tabs of `scrapeETFNetAssets`: the figure of the first tab page
      that is ok and holds one. */
  method FirstTabFigure(tabs: seq<Page>) returns (r: Option<real>)
    ensures r == FirstSome(TabHits(tabs))
  {
    ghost var hits := TabHits(tabs);
    assert hits[0..] == hits;
    var i := 0;
    while i < |tabs|
      invariant 0 <= i <= |tabs|
      invariant FirstSome(hits) == FirstSome(hits[i..])
    {
      assert hits[i] == TabHit(tabs[i]);
      FirstSomeFrom(hits, i);
      var page := tabs[i];
      if page.PageOk? {
        r := ExtractNetAssets(page.html, page.captures);
        if r.Some? {
          return r;
        }
      }
      i := i + 1;
    }
    assert hits[i..] == [];
    r := None;
  }

  /** A hit on the quote page ends the chain: neither the tabs nor the API matter. */
  lemma QuotePageFirst(symbol: string, quotePage: Page, tabs: seq<Page>, api: FundProfile)
    requires symbol != [] && quotePage.PageOk? && NetAssetsOf(quotePage.html, quotePage.captures).Some?
    ensures ScrapeOf(symbol, quotePage, tabs, api) == NetAssetsOf(quotePage.html, quotePage.captures)
  {
  }

  /** The API figure counts only when the quote page is ok and no page gave a figure,
      and then it is the figure in millions. */
  lemma ApiLast(symbol: string, quotePage: Page, tabs: seq<Page>, api: FundProfile)
    requires symbol != [] && quotePage.PageOk? && NetAssetsOf(quotePage.html, quotePage.captures).None?
    requires forall i :: 0 <= i < |tabs| ==> TabHit(tabs[i]).None?
    ensures ScrapeOf(symbol, quotePage, tabs, api) == ApiHit(api)
  {
    var outcomes := [NetAssetsOf(quotePage.html, quotePage.captures)] + TabHits(tabs) + [ApiHit(api)];
    if ApiHit(api).Some? {
      FirstSomeAt(outcomes, |tabs| + 1);
    }
  }

  /** A page figure is always positive; only the API figure can be negative. */
  lemma PageFiguresPositive(symbol: string, quotePage: Page, tabs: seq<Page>, api: FundProfile)
    requires ApiHit(api).None? || ApiHit(api).value > 0.0
    ensures ScrapeOf(symbol, quotePage, tabs, api).Some? ==> ScrapeOf(symbol, quotePage, tabs, api).value > 0.0
  {
    var r := ScrapeOf(symbol, quotePage, tabs, api);
    if r.Some? {
      var outcomes := [NetAssetsOf(quotePage.html, quotePage.captures)] + TabHits(tabs) + [ApiHit(api)];
      var i :| 0 <= i < |outcomes| && outcomes[i] == r;
    }
  }
}
