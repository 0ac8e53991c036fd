/**
 * The simplified demo app: its own `extract_ticker`, `analyze_query` and the file name
 * of `save_analysis_report`. The demo asks the same gateway for the same three
 * documents as the shared utility module, but prints them more plainly: no
 * upper-casing, raw prices, no daily change and raw publication dates.
 */
module SimpleDemo {
  import opened Wrappers
  import opened Ascii
  import opened PyValues
  import opened MarketData
  import opened Clock
  import opened TickerPatterns
  import PolygonUtil
  import PolygonReport

  // ---------------------------------------------------------------------------
  // Ticker resolution

  /** The demo's company table, in its iteration order: upper-case names and tickers. */
  const CompanyNames: seq<(string, string)> := [
    ("MICROSOFT", "MSFT"), ("APPLE", "AAPL"), ("GOOGLE", "GOOGL"), ("AMAZON", "AMZN"),
    ("TESLA", "TSLA"), ("META", "META"), ("NVIDIA", "NVDA")
  ]

  /** `extract_ticker(query)` of the demo: a company name in the upper-cased query wins;
      otherwise the first `\b[A-Z]{2,5}\b` word of the upper-cased query. */
  function ExtractTicker(query: string): (r: Option<string>)
    ensures PolygonUtil.FirstCompany(CompanyNames, Upper(query), 0).Some? ==>
              r == PolygonUtil.FirstCompany(CompanyNames, Upper(query), 0)
    ensures r.Some? ==> PolygonUtil.IsTicker(r.value)
  {
    var u := Upper(query);
    match PolygonUtil.FirstCompany(CompanyNames, u, 0)
    case Some(t) =>
      NamesTickers();
      Some(t)
    case None =>
      match Search(Standalone(false), u, 0)
      case Some(g) =>
        PolygonUtil.GroupIsLetters(Standalone(false), u, g);
        UpperOfUpper(query, g.start, g.end);
        Some(u[g.start..g.end])
      case None => None
  }

  /** Every ticker in the demo's table is a ticker symbol. */
  lemma NamesTickers()
    ensures forall k | 0 <= k < |CompanyNames| :: PolygonUtil.IsTicker(CompanyNames[k].1)
  {
    assert PolygonUtil.IsTicker("MSFT") && PolygonUtil.IsTicker("AAPL") && PolygonUtil.IsTicker("GOOGL");
    assert PolygonUtil.IsTicker("AMZN") && PolygonUtil.IsTicker("TSLA") && PolygonUtil.IsTicker("META");
    assert PolygonUtil.IsTicker("NVDA");
  }

  /** Upper-casing a slice of upper-cased text changes nothing. */
  lemma UpperOfUpper(query: string, a: nat, b: nat)
    requires a <= b <= |query|
    ensures Upper(Upper(query)[a..b]) == Upper(query)[a..b]
  {
    var s := Upper(query)[a..b];
    forall k | 0 <= k < |s|
      ensures Upper(s)[k] == s[k]
    {
      assert s[k] == ToUpper(query[a + k]);
    }
  }

  /** The upper-cased word the demo finds is the one the ignore-case standalone pattern of
      the utility module finds in the original query, upper-cased. */
  lemma MatchesIgnoringCase(query: string)
    requires PolygonUtil.FirstCompany(CompanyNames, Upper(query), 0).None?
    ensures ExtractTicker(query)
            == match Search(Standalone(true), query, 0)
               case Some(g) => Some(Upper(query[g.start..g.end]))
               case None => None
  {
    StandaloneIgnoresCase(query, 0);
    match Search(Standalone(true), query, 0)
    case Some(g) =>
      assert Upper(query)[g.start..g.end] == Upper(query[g.start..g.end]);
    case None =>
  }

  /** Nothing is extracted exactly when no company name occurs in the upper-cased query and
      it has no standalone word of two to five letters. */
  lemma ExtractTickerNone(query: string)
    ensures ExtractTicker(query).None? <==>
              (forall k | 0 <= k < |CompanyNames| :: !Contains(Upper(query), CompanyNames[k].0))
              && (forall i: nat, g: Span :: !MatchAt(Standalone(false), Upper(query), i, g))
  {
    SearchIsLeftmost(Standalone(false), Upper(query));
  }

  /** Without a company name, a query that opens with a word of two to five letters
      resolves to that word, upper-cased ("What's the latest on TSLA?" gives WHAT). */
  lemma LeadingWordWins(query: string, n: nat)
    requires PolygonUtil.FirstCompany(CompanyNames, Upper(query), 0).None?
    requires 2 <= n <= 5 && n <= |query| && ClassRun(query, 0, n, true) && Boundary(query, n)
    ensures ExtractTicker(query) == Some(Upper(query[..n]))
  {
    MatchesIgnoringCase(query);
    LeadingWordMatches(query, n);
    assert query[0..n] == query[..n];
  }

  // ---------------------------------------------------------------------------
  // The report

  function Header(ticker: string): string
  {
    "## Analysis for " + ticker + "\n\n"
  }

  const NewsTitle := "**Recent News:**\n"
  const QuoteTitle := "**Previous Close:**\n"

  /** The details section: the four fields as given, or the warning line. */
  function DetailsSection(details: Json): (r: Result<string>)
    ensures !details.Object? ==> r == Raised(AttributeError)
    ensures details.Object? && !Truthy(Member(details, "results", Null)) ==>
              r == PolygonReport.WarningLine(details, "ticker details")
    ensures details.Object? && Truthy(Member(details, "results", Null)) ==>
              (r.Ok? <==> Member(details, "results", Null).Object?)
  {
    match GetOr(details, "results", Null)
    case Raised(e) => Raised(e)
    case Ok(results) =>
      if Truthy(results) then CompanyFields(results) else PolygonReport.WarningLine(details, "ticker details")
  }

  /** With true `results`, the details section is the fields of that record. */
  lemma DetailsSectionOfResults(details: Json)
    requires details.Object? && Truthy(Member(details, "results", Null))
    ensures DetailsSection(details) == CompanyFields(Member(details, "results", Null))
  {
  }

  /** Name, market, type and currency, printed as `str` prints them, N/A when missing,
      and a blank line. */
  function CompanyFields(result: Json): (r: Result<string>)
    ensures r.Ok? <==> result.Object?
    ensures r.Raised? ==> r.error == AttributeError
  {
    if !result.Object? then Raised(AttributeError)
    else
      Ok(Field("**Company:** ", Member(result, "name", Str("N/A")))
         + Field("**Market:** ", Member(result, "market", Str("N/A")))
         + Field("**Type:** ", Member(result, "type", Str("N/A")))
         + Field("**Currency:** ", Member(result, "currency_name", Str("N/A")))
         + "\n")
  }

  /** One line of the details: the label and the value as `str` prints it. */
  function Field(name: string, value: Json): string
  {
    name + PyStr(value) + "\n"
  }

  /** The previous-close section: the first bar of a non-empty `results`, or the warning. */
  function QuoteSection(quote: Json): (r: Result<string>)
    ensures !quote.Object? ==> r == Raised(AttributeError)
    ensures quote.Object? && !Truthy(Member(quote, "results", Null)) ==>
              r == PolygonReport.WarningLine(quote, "latest quote")
    ensures quote.Object? && Truthy(Member(quote, "results", Null)) && r.Ok? ==> QuoteTitle <= r.value
  {
    match GetOr(quote, "results", Null)
    case Raised(e) => Raised(e)
    case Ok(results) =>
      if !Truthy(results) then PolygonReport.WarningLine(quote, "latest quote")
      else match NonEmpty(results)
        case Raised(e) => Raised(e)
        case Ok(nonEmpty) =>
          if !nonEmpty then PolygonReport.WarningLine(quote, "latest quote")
          else match First(results)
            case Raised(e) => Raised(e)
            case Ok(bar) => QuoteLines(bar)
  }

  /** With a non-empty `results` list, the previous-close section is the lines of its first bar. */
  lemma QuoteSectionOfBars(quote: Json, items: seq<Json>)
    requires quote.Object? && Member(quote, "results", Null) == List(items) && items != []
    ensures QuoteSection(quote) == QuoteLines(items[0])
  {
  }

  /** Close, high and low printed raw after a dollar sign, and the volume grouped by threes
      with `format(volume, ',')`, which raises for anything but a number. */
  function QuoteLines(bar: Json): (r: Result<string>)
    ensures !bar.Object? ==> r == Raised(AttributeError)
    ensures bar.Object? ==> (r.Ok? <==> IsNumber(Member(bar, "v", Str("N/A"))))
    ensures bar.Object? && r.Raised? ==> (r.error == ValueError <==> Member(bar, "v", Str("N/A")).Str?)
    ensures r.Ok? ==>
              r.value == QuoteTitle
                         + "- Close Price: $" + PyStr(Member(bar, "c", Str("N/A"))) + "\n"
                         + "- High: $" + PyStr(Member(bar, "h", Str("N/A"))) + "\n"
                         + "- Low: $" + PyStr(Member(bar, "l", Str("N/A"))) + "\n"
                         + "- Volume: " + FormatComma(Member(bar, "v", Str("N/A"))).value + " shares\n\n"
  {
    if !bar.Object? then Raised(AttributeError)
    else
      var close := Member(bar, "c", Str("N/A"));
      var high := Member(bar, "h", Str("N/A"));
      var low := Member(bar, "l", Str("N/A"));
      var volume := Member(bar, "v", Str("N/A"));
      match FormatComma(volume)
      case Raised(e) => Raised(e)
      case Ok(shares) =>
        Ok(QuoteTitle
           + "- Close Price: $" + PyStr(close) + "\n"
           + "- High: $" + PyStr(high) + "\n"
           + "- Low: $" + PyStr(low) + "\n"
           + "- Volume: " + shares + " shares\n\n")
  }

  /** The news section: one line per article of `results[:3]`, or the warning. */
  function NewsSection(news: Json): (r: Result<string>)
    ensures !news.Object? ==> r == Raised(AttributeError)
    ensures news.Object? && !Truthy(Member(news, "results", Null)) ==> r == PolygonReport.WarningLine(news, "news")
  {
    match GetOr(news, "results", Null)
    case Raised(e) => Raised(e)
    case Ok(results) =>
      if !Truthy(results) then PolygonReport.WarningLine(news, "news")
      else match FirstThree(results)
        case Raised(e) => Raised(e)
        case Ok(articles) =>
          match ArticleLines(articles)
          case Raised(e) => Raised(e)
          case Ok(lines) => Ok(NewsTitle + lines + "\n")
  }

  /** The lines of the articles, in order, or the error of the first that raises. */
  function ArticleLines(articles: seq<Json>): Result<string>
  {
    if articles == [] then Ok("")
    else match ArticleLines(articles[..|articles| - 1])
      case Raised(e) => Raised(e)
      case Ok(before) =>
        match ArticleLine(articles[|articles| - 1])
        case Raised(e) => Raised(e)
        case Ok(line) => Ok(before + line)
  }

  /** An article's title, link and publication date, all printed as given. */
  function ArticleLine(article: Json): (r: Result<string>)
    ensures r.Ok? <==> article.Object?
    ensures r.Raised? ==> r.error == AttributeError
    ensures article.Object? ==>
              r.value == "- [" + PyStr(Member(article, "title", Str("No title")))
                         + "](" + PyStr(Member(article, "article_url", Str("#")))
                         + ") - " + PyStr(Member(article, "published_utc", Str("Unknown date")))
                         + "\n"
  {
    if !article.Object? then Raised(AttributeError)
    else Ok(ArticleHead(article) + PyStr(Member(article, "published_utc", Str("Unknown date"))) + "\n")
  }

  /** The linked title that opens an article's line. */
  function ArticleHead(article: Json): string
    requires article.Object?
  {
    "- [" + PyStr(Member(article, "title", Str("No title"))) + "](" + PyStr(Member(article, "article_url", Str("#"))) + ") - "
  }

  /** `analyze_query(query, polygon_api)`, its gateway's answers given as a function. */
  function Analysis(query: string, answer: Call -> Json): (r: Result<string>)
    ensures ExtractTicker(query).None? ==> r == Ok(PolygonReport.Rejection)
    ensures ExtractTicker(query).Some? && r.Ok? ==>
              Header(ExtractTicker(query).value) <= r.value && PolygonReport.EndsWith(r.value, PolygonReport.Disclaimer)
    ensures ExtractTicker(query).Some? ==>
              var t := ExtractTicker(query).value;
              var details := DetailsSection(answer(TickerDetails(t)));
              var quote := QuoteSection(answer(PreviousClose(t)));
              var news := NewsSection(answer(News(t, 3)));
              && (details.Raised? ==> r == Raised(details.error))
              && (details.Ok? && quote.Raised? ==> r == Raised(quote.error))
              && (details.Ok? && quote.Ok? && news.Raised? ==> r == Raised(news.error))
              && (details.Ok? && quote.Ok? && news.Ok? ==>
                    r == Ok(Header(t) + details.value + quote.value + news.value + PolygonReport.Disclaimer))
  {
    match ExtractTicker(query)
    case None => Ok(PolygonReport.Rejection)
    case Some(t) =>
      Assemble(t, DetailsSection(answer(TickerDetails(t))), QuoteSection(answer(PreviousClose(t))),
               NewsSection(answer(News(t, 3))))
  }

  /** The report from its three sections, or the error of the first section that raises. */
  function Assemble(ticker: string, details: Result<string>, quote: Result<string>, news: Result<string>): (r: Result<string>)
    ensures r.Ok? ==> Header(ticker) <= r.value && PolygonReport.EndsWith(r.value, PolygonReport.Disclaimer)
    ensures r.Raised? <==> details.Raised? || quote.Raised? || news.Raised?
    ensures details.Raised? ==> r == Raised(details.error)
    ensures details.Ok? && quote.Raised? ==> r == Raised(quote.error)
    ensures details.Ok? && quote.Ok? && news.Raised? ==> r == Raised(news.error)
    ensures details.Ok? && quote.Ok? && news.Ok? ==>
              r == Ok(Header(ticker) + details.value + quote.value + news.value + PolygonReport.Disclaimer)
  {
    if details.Raised? then details
    else if quote.Raised? then quote
    else if news.Raised? then news
    else Ok(Header(ticker) + details.value + quote.value + news.value + PolygonReport.Disclaimer)
  }

  /** The requests `analyze_query` makes: none without a ticker, and each of the three in
      turn until a section raises. */
  function Calls(query: string, answer: Call -> Json): (r: seq<Call>)
    ensures r == [] <==> ExtractTicker(query).None?
    ensures ExtractTicker(query).Some? ==>
              var t := ExtractTicker(query).value;
              |r| <= 3 && r == [TickerDetails(t), PreviousClose(t), News(t, 3)][..|r|]
  {
    match ExtractTicker(query)
    case None => []
    case Some(t) =>
      PolygonReport.CallsMade(t, DetailsSection(answer(TickerDetails(t))), QuoteSection(answer(PreviousClose(t))))
  }

  lemma AnalysisOfTicker(query: string, answer: Call -> Json, t: string)
    requires ExtractTicker(query) == Some(t)
    ensures Analysis(query, answer)
            == Assemble(t, DetailsSection(answer(TickerDetails(t))), QuoteSection(answer(PreviousClose(t))),
                        NewsSection(answer(News(t, 3))))
    ensures Calls(query, answer)
            == PolygonReport.CallsMade(t, DetailsSection(answer(TickerDetails(t))), QuoteSection(answer(PreviousClose(t))))
  {
  }

  /** `analyze_query(query, polygon_api)`. */
  method AnalyzeQuery(query: string, gateway: Gateway) returns (r: Result<string>)
    modifies gateway
    ensures r == Analysis(query, gateway.answer)
    ensures gateway.log == old(gateway.log) + Calls(query, gateway.answer)
  {
    var ticker := ExtractTicker(query);
    if ticker.None? {
      return Ok(PolygonReport.Rejection);
    }
    AnalysisOfTicker(query, gateway.answer, ticker.value);
    r := BuildReport(ticker.value, gateway);
  }

  /** The report for a resolved ticker, building it section by section. */
  method BuildReport(t: string, gateway: Gateway) returns (r: Result<string>)
    modifies gateway
    ensures r == Assemble(t, DetailsSection(gateway.answer(TickerDetails(t))), QuoteSection(gateway.answer(PreviousClose(t))),
                          NewsSection(gateway.answer(News(t, 3))))
    ensures gateway.log
            == old(gateway.log)
               + PolygonReport.CallsMade(t, DetailsSection(gateway.answer(TickerDetails(t))), QuoteSection(gateway.answer(PreviousClose(t))))
  {
    var response := Header(t);

    var details := gateway.GetTickerDetails(t);
    var detailLines := DetailsSection(details);
    if detailLines.Raised? {
      return Raised(detailLines.error);
    }
    response := response + detailLines.value;

    var quote := gateway.GetPreviousClose(t);
    assert gateway.log == old(gateway.log) + [TickerDetails(t), PreviousClose(t)];
    var quoteLines := QuoteSection(quote);
    if quoteLines.Raised? {
      return Raised(quoteLines.error);
    }
    response := response + quoteLines.value;

    var news := gateway.GetNews(t, 3);
    assert gateway.log == old(gateway.log) + [TickerDetails(t), PreviousClose(t), News(t, 3)];
    var newsLines := AppendNews(news);
    if newsLines.Raised? {
      return Raised(newsLines.error);
    }
    response := response + newsLines.value;

    response := response + PolygonReport.Disclaimer;
    return Ok(response);
  }

  /** The news section, article by article. */
  method AppendNews(news: Json) returns (r: Result<string>)
    ensures r == NewsSection(news)
  {
    var results := GetOr(news, "results", Null);
    if results.Raised? {
      return Raised(results.error);
    }
    if !Truthy(results.value) {
      return PolygonReport.WarningLine(news, "news");
    }
    var articles := FirstThree(results.value);
    if articles.Raised? {
      return Raised(articles.error);
    }
    var lines := AppendArticles(articles.value);
    NewsSectionFromArticles(news, articles.value);
    if lines.Raised? {
      return Raised(lines.error);
    }
    return Ok(NewsTitle + lines.value + "\n");
  }

  /** The article lines, one article at a time. */
  method AppendArticles(items: seq<Json>) returns (r: Result<string>)
    ensures r == ArticleLines(items)
  {
    var lines := "";
    var k := 0;
    while k < |items|
      invariant k <= |items|
      invariant ArticleLines(items[..k]) == Ok(lines)
    {
      var line := ArticleLine(items[k]);
      ArticleLinesStep(items, k);
      if line.Raised? {
        ArticleErrorPropagates(items, k + 1);
        return Raised(line.error);
      }
      lines := lines + line.value;
      k := k + 1;
    }
    assert items[..k] == items;
    return Ok(lines);
  }

  /** The section once the article list is known: its lines under the title, or the
      error the first bad article raises. */
  lemma NewsSectionFromArticles(news: Json, items: seq<Json>)
    requires GetOr(news, "results", Null).Ok? && Truthy(GetOr(news, "results", Null).value)
    requires FirstThree(GetOr(news, "results", Null).value) == Ok(items)
    ensures NewsSection(news)
            == match ArticleLines(items)
               case Raised(e) => Raised(e)
               case Ok(lines) => Ok(NewsTitle + lines + "\n")
  {
  }

  /** One more article adds its line, or raises. */
  lemma ArticleLinesStep(items: seq<Json>, k: nat)
    requires k < |items| && ArticleLines(items[..k]).Ok?
    ensures ArticleLine(items[k]).Raised? ==> ArticleLines(items[..k + 1]) == Raised(ArticleLine(items[k]).error)
    ensures ArticleLine(items[k]).Ok? ==>
              ArticleLines(items[..k + 1]) == Ok(ArticleLines(items[..k]).value + ArticleLine(items[k]).value)
  {
    assert items[..k + 1][..k] == items[..k];
  }

  /** An article that raises makes the whole list raise, whatever follows it. */
  lemma {:induction false} ArticleErrorPropagates(items: seq<Json>, k: nat)
    requires 0 < k <= |items| && ArticleLines(items[..k]).Raised?
    ensures ArticleLines(items) == ArticleLines(items[..k])
    decreases |items| - k
  {
    if k < |items| {
      assert items[..k + 1][..k] == items[..k];
      ArticleErrorPropagates(items, k + 1);
    } else {
      assert items[..k] == items;
    }
  }

  // ---------------------------------------------------------------------------
  // Properties of the report

  /** A bar without a volume makes `format('N/A', ',')` raise ValueError, which escapes the
      report, and the news is then never requested. */
  lemma MissingVolumeEscapes(query: string, answer: Call -> Json, t: string, bar: Json)
    requires ExtractTicker(query) == Some(t)
    requires DetailsSection(answer(TickerDetails(t))).Ok?
    requires answer(PreviousClose(t)).Object?
    requires Member(answer(PreviousClose(t)), "results", Null).List?
    requires Member(answer(PreviousClose(t)), "results", Null).items != []
    requires Member(answer(PreviousClose(t)), "results", Null).items[0] == bar
    requires bar.Object? && Lookup(bar.fields, "v").None?
    ensures Analysis(query, answer) == Raised(ValueError)
    ensures Calls(query, answer) == [TickerDetails(t), PreviousClose(t)]
  {
    AnalysisOfTicker(query, answer, t);
    QuoteMissingVolume(answer(PreviousClose(t)), bar);
  }

  /** A first bar without a volume makes the quote section raise ValueError. */
  lemma QuoteMissingVolume(quote: Json, bar: Json)
    requires quote.Object? && Member(quote, "results", Null).List?
    requires Member(quote, "results", Null).items != [] && Member(quote, "results", Null).items[0] == bar
    requires bar.Object? && Lookup(bar.fields, "v").None?
    ensures QuoteSection(quote) == Raised(ValueError)
  {
    assert Member(bar, "v", Str("N/A")) == Str("N/A");
    assert QuoteLines(bar) == Raised(ValueError);
    var results := Member(quote, "results", Null);
    assert GetOr(quote, "results", Null) == Ok(results);
    assert NonEmpty(results) == Ok(true);
    assert First(results) == Ok(bar);
  }

  /** The news section shows the first three articles and no more: their lines under the
      title, or AttributeError when one of them is not a dict. */
  lemma NewsCap(news: Json, items: seq<Json>)
    requires news.Object? && Member(news, "results", Null) == List(items) && items != []
    ensures var shown := if |items| <= 3 then items else items[..3];
            NewsSection(news)
            == if PolygonReport.AllObjects(shown) then Ok(NewsTitle + PolygonReport.Concat(Lines(shown)) + "\n")
               else Raised(AttributeError)
  {
    var shown := if |items| <= 3 then items else items[..3];
    ArticleLinesConcat(shown);
  }

  /** The line of each article. */
  function Lines(articles: seq<Json>): (r: seq<string>)
    requires PolygonReport.AllObjects(articles)
    ensures |r| == |articles|
  {
    if articles == [] then []
    else
      PolygonReport.AllObjectsSnoc(articles);
      Lines(articles[..|articles| - 1]) + [ArticleLine(articles[|articles| - 1]).value]
  }

  /** The article lines are the line of each article, in order, when every article is a
      dict; otherwise the first one that is not raises AttributeError. */
  lemma {:induction false} ArticleLinesConcat(articles: seq<Json>)
    ensures ArticleLines(articles)
            == if PolygonReport.AllObjects(articles) then Ok(PolygonReport.Concat(Lines(articles)))
               else Raised(AttributeError)
  {
    if articles != [] {
      ArticleLinesConcat(articles[..|articles| - 1]);
      PolygonReport.AllObjectsSnoc(articles);
      if PolygonReport.AllObjects(articles) {
        LinesSnoc(articles);
      }
    }
  }
  /** The lines of a list of objects end with the line of the last one. */
  lemma LinesSnoc(articles: seq<Json>)
    requires articles != [] && PolygonReport.AllObjects(articles)
    ensures PolygonReport.AllObjects(articles[..|articles| - 1])
    ensures PolygonReport.Concat(Lines(articles))
            == PolygonReport.Concat(Lines(articles[..|articles| - 1])) + ArticleLine(articles[|articles| - 1]).value
  {
    var n := |articles|;
    PolygonReport.AllObjectsSnoc(articles);
    var init := Lines(articles[..n - 1]);
    assert Lines(articles) == init + [ArticleLine(articles[n - 1]).value];
  }

  /** The publication date is printed as the provider sent it, after the linked title. */
  lemma PublishedAsGiven(article: Json, published: string)
    requires article.Object? && Lookup(article.fields, "published_utc") == Some(Str(published))
    ensures ArticleLine(article) == Ok(ArticleHead(article) + published + "\n")
  {
    assert Member(article, "published_utc", Str("Unknown date")) == Str(published);
  }

  /** A company record without any of the members prints N/A for all four fields. */
  lemma CompanyDefaults()
    ensures CompanyFields(Object([]))
            == Ok("**Company:** " + "N/A" + "\n" + ("**Market:** " + "N/A" + "\n") + ("**Type:** " + "N/A" + "\n")
                  + ("**Currency:** " + "N/A" + "\n") + "\n")
  {
    var result := Object([]);
    assert Member(result, "name", Str("N/A")) == Str("N/A");
    assert Member(result, "market", Str("N/A")) == Str("N/A");
    assert Member(result, "type", Str("N/A")) == Str("N/A");
    assert Member(result, "currency_name", Str("N/A")) == Str("N/A");
  }

  /** A market is printed as given, not upper-cased: a lower-case market stays lower case. */
  lemma MarketAsGiven(result: Json, market: string)
    requires result.Object? && Lookup(result.fields, "market") == Some(Str(market))
    ensures CompanyFields(result)
            == Ok(Field("**Company:** ", Member(result, "name", Str("N/A")))
                  + ("**Market:** " + market + "\n")
                  + Field("**Type:** ", Member(result, "type", Str("N/A")))
                  + Field("**Currency:** ", Member(result, "currency_name", Str("N/A")))
                  + "\n")
  {
    assert Member(result, "market", Str("N/A")) == Str(market);
  }

  // ---------------------------------------------------------------------------
  // Saved reports

  /** `os.path.join(dir, name)`: a name that is an absolute path replaces the directory. */
  function PathJoin(dir: string, name: string): (r: string)
    ensures (name == [] || name[0] != '/') && dir != [] && dir[|dir| - 1] != '/' ==> r == dir + "/" + name
  {
    if name != [] && name[0] == '/' then name
    else if dir == [] || dir[|dir| - 1] == '/' then dir + name
    else dir + "/" + name
  }

  /** The path the demo's `save_analysis_report` writes the report to, unchanged. */
  function ReportPath(ticker: string, stamp: DateTime): string
  {
    PathJoin("reports", ReportName(ticker, stamp))
  }

  function ReportName(ticker: string, stamp: DateTime): string
  {
    "analysis_" + ticker + "_" + CompactStamp(stamp) + ".md"
  }

  /** Different tickers or different seconds give different paths. */
  lemma ReportPathInjective(t1: string, d1: DateTime, t2: string, d2: DateTime)
    requires Valid(d1) && Valid(d2) && ReportPath(t1, d1) == ReportPath(t2, d2)
    ensures t1 == t2 && d1 == d2
  {
    var n1, n2 := ReportName(t1, d1), ReportName(t2, d2);
    assert ReportPath(t1, d1)[8..] == n1;
    assert ReportPath(t2, d2)[8..] == n2;
    CompactStampReadsBack(d1);
    CompactStampReadsBack(d2);
    FramedFieldsEqual("analysis_", "_", ".md", t1, CompactStamp(d1), t2, CompactStamp(d2));
    CompactStampInjective(d1, d2);
  }
}
