/**
 * The pure parts of the shared utility module: resolving a ticker symbol from
 * a free-text query, the price and volume formatters, and the name and text of
 * a saved report.
 */
module PolygonUtil {
  import opened Wrappers
  import opened Ascii
  import opened Numerals
  import opened PyValues
  import opened TickerPatterns
  import opened Clock

  // ---------------------------------------------------------------------------
  // Ticker resolution

  /** Lower-case company names and their tickers, in the order they are tried. */
  const CompanyTickers: seq<(string, string)> := [
    ("apple", "AAPL"), ("microsoft", "MSFT"), ("google", "GOOGL"), ("alphabet", "GOOGL"),
    ("amazon", "AMZN"), ("tesla", "TSLA"), ("meta", "META"), ("facebook", "META"),
    ("nvidia", "NVDA"), ("netflix", "NFLX"), ("disney", "DIS"), ("walmart", "WMT"),
    ("coca cola", "KO"), ("pepsi", "PEP"), ("johnson", "JNJ"), ("visa", "V"),
    ("mastercard", "MA"), ("intel", "INTC"), ("amd", "AMD"), ("ibm", "IBM"),
    ("oracle", "ORCL"), ("salesforce", "CRM"), ("adobe", "ADBE"), ("zoom", "ZM"),
    ("uber", "UBER"), ("lyft", "LYFT"), ("airbnb", "ABNB"), ("spotify", "SPOT"),
    ("twitter", "TWTR"), ("snapchat", "SNAP"), ("pinterest", "PINS"), ("square", "SQ"),
    ("paypal", "PYPL"), ("coinbase", "COIN"), ("robinhood", "HOOD")
  ]

  /** The ticker patterns, in the order they are tried. */
  const PatternOrder: seq<Pattern> := [TypedWord, AfterKeyword, Dollar, Standalone(true)]

  /** A ticker symbol: one to five upper-case letters. */
  predicate IsTicker(t: string)
  {
    1 <= |t| <= 5 && forall k | 0 <= k < |t| :: IsUpper(t[k])
  }

  /** The ticker of the first table entry, from index `from` on, whose name occurs in `text`. */
  function FirstCompany(table: seq<(string, string)>, text: string, from: nat): (r: Option<string>)
    requires from <= |table|
    ensures r.None? <==> forall k | from <= k < |table| :: !Contains(text, table[k].0)
    ensures r.Some? ==> exists k | from <= k < |table| ::
              Contains(text, table[k].0) && r.value == table[k].1
              && forall j | from <= j < k :: !Contains(text, table[j].0)
    decreases |table| - from
  {
    if from == |table| then None
    else if Contains(text, table[from].0) then Some(table[from].1)
    else FirstCompany(table, text, from + 1)
  }

  /** The upper-cased group of the leftmost match of the first pattern, from index `from`
      on, that matches anywhere in `query`. The source then checks that the group has one
      to five characters before returning it; GroupIsLetters proves that check always
      passes, so the model returns the group at once. */
  function FirstPatternMatch(patterns: seq<Pattern>, query: string, from: nat): (r: Option<string>)
    requires from <= |patterns|
    ensures r.None? <==> forall k | from <= k < |patterns| :: Search(patterns[k], query, 0).None?
    ensures r.Some? ==> exists k | from <= k < |patterns| ::
              && Search(patterns[k], query, 0).Some?
              && r.value == Upper(query[Search(patterns[k], query, 0).value.start..Search(patterns[k], query, 0).value.end])
              && forall j | from <= j < k :: Search(patterns[j], query, 0).None?
    ensures r.Some? ==> IsTicker(r.value)
    decreases |patterns| - from
  {
    if from == |patterns| then None
    else match Search(patterns[from], query, 0)
      case Some(g) =>
        GroupIsLetters(patterns[from], query, g);
        Some(Upper(query[g.start..g.end]))
      case None => FirstPatternMatch(patterns, query, from + 1)
  }

  /** The group a scan returns is one to five letters, so it upper-cases to a ticker. */
  lemma GroupIsLetters(p: Pattern, s: string, g: Span)
    requires Search(p, s, 0) == Some(g)
    ensures g.start < g.end <= |s| && IsTicker(Upper(s[g.start..g.end]))
  {
    var i: nat :| MatchAt(p, s, i, g) && NoMatchIn(p, s, 0, i);
    MatchShape(p, s, i, g);
    var u := Upper(s[g.start..g.end]);
    forall k | 0 <= k < |u|
      ensures IsUpper(u[k])
    {
      assert InClass(s[g.start + k], !p.Standalone? || p.ignoreCase);
      UpperKeepsClasses(s[g.start + k]);
    }
  }

  /** `extract_ticker(query)`: a company name in the lower-cased query wins; otherwise the
      upper-cased first match of the first pattern that matches, ignoring case. */
  function ExtractTicker(query: string): (r: Option<string>)
    ensures FirstCompany(CompanyTickers, Lower(query), 0).Some? ==> r == FirstCompany(CompanyTickers, Lower(query), 0)
    ensures FirstCompany(CompanyTickers, Lower(query), 0).None? ==> r == FirstPatternMatch(PatternOrder, query, 0)
    ensures r.Some? ==> IsTicker(r.value)
  {
    TableTickers();
    match FirstCompany(CompanyTickers, Lower(query), 0)
    case Some(t) => Some(t)
    case None => FirstPatternMatch(PatternOrder, query, 0)
  }

  /** Every ticker in the company table is a ticker symbol. */
  lemma TableTickers()
    ensures forall k | 0 <= k < |CompanyTickers| :: IsTicker(CompanyTickers[k].1)
  {
  }

  /** Nothing is extracted exactly when no company name occurs in the lower-cased query and
      no pattern matches anywhere in the query. */
  lemma ExtractTickerNone(query: string)
    ensures ExtractTicker(query).None? <==>
              (forall k | 0 <= k < |CompanyTickers| :: !Contains(Lower(query), CompanyTickers[k].0))
              && (forall k, i: nat, g: Span | 0 <= k < |PatternOrder| :: !MatchAt(PatternOrder[k], query, i, g))
  {
    forall k | 0 <= k < |PatternOrder|
      ensures Search(PatternOrder[k], query, 0).None? <==> forall i: nat, g: Span :: !MatchAt(PatternOrder[k], query, i, g)
    {
      SearchIsLeftmost(PatternOrder[k], query);
    }
  }

  /** Without a company name, a `$` symbol or a keyword-marked symbol, a query that opens
      with an ordinary word of two to five letters resolves to that word, upper-cased,
      even when a real ticker follows ("Show me AAPL information" gives SHOW). */
  lemma LeadingWordWins(query: string, n: nat)
    requires FirstCompany(CompanyTickers, Lower(query), 0).None?
    requires forall k, i: nat, g: Span | 0 <= k < 3 :: !MatchAt(PatternOrder[k], query, i, g)
    requires 2 <= n <= 5 && n <= |query| && ClassRun(query, 0, n, true) && Boundary(query, n)
    ensures ExtractTicker(query) == Some(Upper(query[..n]))
  {
    SearchIsLeftmost(TypedWord, query);
    SearchIsLeftmost(AfterKeyword, query);
    SearchIsLeftmost(Dollar, query);
    LeadingWordMatches(query, n);
    assert FirstPatternMatch(PatternOrder, query, 3) == Some(Upper(query[0..n]));
    assert query[0..n] == query[..n];
  }

  // ---------------------------------------------------------------------------
  // Number formatters

  /** `format_price(price)` */
  function FormatPrice(price: Json): (r: string)
    ensures price == Null || price == Str("N/A") ==> r == "N/A"
    ensures price != Null && price != Str("N/A") && ToFloat(price).Raised? ==> r == PyStr(price)
  {
    if price == Null || price == Str("N/A") then "N/A"
    else match ToFloat(price)
      case Ok(v) => "$" + Fixed(v, 2, true, false)
      case Raised(_) => PyStr(price)
  }

  /** A price that `float` accepts prints as a dollar sign and the value rounded to cents,
      its whole part grouped by threes, with exactly two decimals. */
  lemma FormatPriceReadsBack(price: Json)
    requires price != Null && price != Str("N/A") && ToFloat(price).Ok?
    ensures var r := FormatPrice(price);
            && 4 <= |r| && r[0] == '$' && r[|r| - 3] == '.' && IsDigit(r[|r| - 2]) && IsDigit(r[|r| - 1])
            && SignedGrouped(r[1..|r| - 3])
            && ParseDecimal(WithoutCommas(r[1..])) == Some(RoundTo(ToFloat(price).value, 2))
  {
    var v := ToFloat(price).value;
    var r := FormatPrice(price);
    assert r == "$" + Fixed(v, 2, true, false);
    PriceCents(v, r);
    PriceGrouped(v, r);
  }

  /** A dollar amount ends in a point and two digits, and reads back as the value rounded
      to cents once its commas are removed. */
  lemma PriceCents(v: real, r: string)
    requires r == "$" + Fixed(v, 2, true, false)
    ensures && 4 <= |r| && r[0] == '$' && r[|r| - 3] == '.' && IsDigit(r[|r| - 2]) && IsDigit(r[|r| - 1])
            && ParseDecimal(WithoutCommas(r[1..])) == Some(RoundTo(v, 2))
  {
    var n := Scaled(v, 2);
    FixedDigits(v, 2, true, false);
    FixedGroupedReadsBack(v, 2, false);
    var f := Fixed(v, 2, true, false);
    var d := DecimalDigits(n, 2);
    assert f == SignText(v < 0.0, false) + GroupDigits(WholeDigits(n, 2)) + ("." + d);
    CentsAtEnd(SignText(v < 0.0, false) + GroupDigits(WholeDigits(n, 2)), d);
    assert r[1..] == f;
  }

  /** The dollar amount before the cents is a sign and a numeral grouped by threes. */
  lemma PriceGrouped(v: real, r: string)
    requires r == "$" + Fixed(v, 2, true, false)
    ensures 4 <= |r| && SignedGrouped(r[1..|r| - 3])
  {
    FixedGroupedWhole(v, 2);
    AfterDollar(Fixed(v, 2, true, false), r);
  }

  lemma AfterDollar(f: string, r: string)
    requires r == "$" + f && 3 < |f| && SignedGrouped(f[..|f| - 3])
    ensures 4 <= |r| && SignedGrouped(r[1..|r| - 3])
  {
    assert r[1..|r| - 3] == f[..|f| - 3];
  }

  /** Text ending in a point and two digits has them as its last three characters. */
  lemma CentsAtEnd(a: string, d: string)
    requires |d| == 2 && AllDigits(d)
    ensures var f := a + ("." + d);
            && 3 <= |f| && f[|f| - 3] == '.' && IsDigit(f[|f| - 2]) && IsDigit(f[|f| - 1])
  {
  }

  /** `format_volume(volume)` */
  function FormatVolume(volume: Json): (r: string)
    ensures volume == Null || volume == Str("N/A") ==> r == "N/A"
    ensures volume != Null && volume != Str("N/A") && ToInt(volume).Raised? ==> r == PyStr(volume)
    ensures volume != Null && volume != Str("N/A") && ToInt(volume).Ok? ==> r == VolumeText(ToInt(volume).value)
  {
    if volume == Null || volume == Str("N/A") then "N/A"
    else match ToInt(volume)
      case Ok(n) => VolumeText(n)
      case Raised(_) => PyStr(volume)
  }

  /** A whole number of shares: millions and thousands with one decimal and a suffix,
      smaller counts grouped by threes. */
  function VolumeText(n: int): (r: string)
    ensures 0 < |r|
    ensures r[|r| - 1] == 'M' <==> n >= 1_000_000
    ensures r[|r| - 1] == 'K' <==> 1_000 <= n < 1_000_000
    ensures n < 1_000 ==> IsDigit(r[|r| - 1])
  {
    if n >= 1_000_000 then Fixed(n as real / 1_000_000.0, 1, false, false) + "M"
    else if n >= 1_000 then Fixed(n as real / 1_000.0, 1, false, false) + "K"
    else IntGrouped(n)
  }

  /** The suffix names the scale, the number before it has one decimal, and it reads back
      as the count in that scale, rounded to one decimal. */
  lemma VolumeMillionsReadsBack(n: int)
    requires n >= 1_000_000
    ensures var r := VolumeText(n);
            && 0 < |r| && r[|r| - 1] == 'M' && UnsignedFixed(r[..|r| - 1], 1)
            && ParseDecimal(r[..|r| - 1]) == Some(RoundTo(n as real / 1_000_000.0, 1))
  {
    var scaled := n as real / 1_000_000.0;
    assert 0.0 <= scaled;
    assert VolumeText(n) == Fixed(scaled, 1, false, false) + "M";
    ScaledReadsBack(scaled, "M", VolumeText(n));
  }

  /** The same for thousands. */
  lemma VolumeThousandsReadsBack(n: int)
    requires 1_000 <= n < 1_000_000
    ensures var r := VolumeText(n);
            && 0 < |r| && r[|r| - 1] == 'K' && UnsignedFixed(r[..|r| - 1], 1)
            && ParseDecimal(r[..|r| - 1]) == Some(RoundTo(n as real / 1_000.0, 1))
  {
    var scaled := n as real / 1_000.0;
    assert 0.0 <= scaled;
    assert VolumeText(n) == Fixed(scaled, 1, false, false) + "K";
    ScaledReadsBack(scaled, "K", VolumeText(n));
  }

  /** Below a thousand the count itself is printed, grouped by threes. */
  lemma VolumeSmallReadsBack(n: int)
    requires n < 1_000
    ensures SignedGrouped(VolumeText(n))
    ensures ParseInteger(WithoutCommas(VolumeText(n))) == Some(n)
  {
    IntGroupedByThrees(n);
    IntGroupedReadsBack(n);
  }

  lemma ScaledReadsBack(x: real, suffix: string, r: string)
    requires 0.0 <= x && |suffix| == 1 && r == Fixed(x, 1, false, false) + suffix
    ensures 0 < |r| && r[|r| - 1] == suffix[0] && UnsignedFixed(r[..|r| - 1], 1)
    ensures ParseDecimal(r[..|r| - 1]) == Some(RoundTo(x, 1))
  {
    assert r[..|r| - 1] == Fixed(x, 1, false, false);
    FixedReadsBack(x, 1, false);
    FixedForm(x, 1, false);
  }

  // ---------------------------------------------------------------------------
  // Saved reports

  /** The path `save_analysis_report` writes to, for the time the clock read. */
  function ReportPath(ticker: string, stamp: DateTime): string
  {
    "reports/" + ticker + "_analysis_" + CompactStamp(stamp) + ".md"
  }

  /** The text `save_analysis_report` writes: a title, the time of the second clock reading,
      and the report. */
  function ReportText(ticker: string, generated: DateTime, content: string): string
  {
    "# " + ticker + " Stock Analysis Report\n\n" + "Generated on: " + ReadableStamp(generated) + "\n\n" + content
  }

  /** Different tickers or different seconds give different paths. */
  lemma ReportPathInjective(t1: string, d1: DateTime, t2: string, d2: DateTime)
    requires Valid(d1) && Valid(d2) && ReportPath(t1, d1) == ReportPath(t2, d2)
    ensures t1 == t2 && d1 == d2
  {
    CompactStampReadsBack(d1);
    CompactStampReadsBack(d2);
    FramedFieldsEqual("reports/", "_analysis_", ".md", t1, CompactStamp(d1), t2, CompactStamp(d2));
    CompactStampInjective(d1, d2);
  }

  /** The saved text ends with the report and starts with a title naming the ticker. */
  lemma ReportTextFrame(ticker: string, generated: DateTime, content: string)
    ensures var r := ReportText(ticker, generated, content);
            && |content| <= |r| && r[|r| - |content|..] == content
            && r[..2 + |ticker|] == "# " + ticker
  {
  }
}
