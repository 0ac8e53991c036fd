/**
 * `analyze_stock_query` of the shared utility module: resolve a ticker, ask the
 * gateway for the company's details, its previous close and its news, and merge
 * the three replies into a Markdown report. A Python exception that escapes the
 * function is a `Raised` result.
 */
module PolygonReport {
  import opened Wrappers
  import opened Ascii
  import opened Numerals
  import opened PyValues
  import opened MarketData
  import opened Clock
  import opened PolygonUtil

  const Rejection := "❌ Please specify a stock ticker (e.g., AAPL, MSFT, GOOGL) in your query."
  const Disclaimer := "---\n*Not financial advice. For informational purposes only.*"
  const NewsTitle := "**📰 Recent News:**\n"
  const PriceTitle := "**📈 Previous Close Data:**\n"

  function Header(ticker: string): string
  {
    "## 📊 Analysis for " + ticker + "\n\n"
  }

  /** The line for a reply whose `results` is missing or false: a warning quoting its
      `error` when that is true, and nothing otherwise. */
  function WarningLine(reply: Json, what: string): (r: Result<string>)
    ensures reply.Object? ==> r.Ok?
    ensures reply.Object? && Truthy(Member(reply, "error", Null)) ==>
              r.value == "⚠️ Could not fetch " + what + ": " + PyStr(Member(reply, "error", Null)) + "\n\n"
    ensures reply.Object? && !Truthy(Member(reply, "error", Null)) ==> r.value == ""
  {
    match GetOr(reply, "error", Null)
    case Raised(e) => Raised(e)
    case Ok(error) =>
      Ok(if Truthy(error) then "⚠️ Could not fetch " + what + ": " + PyStr(error) + "\n\n" else "")
  }

  // ---------------------------------------------------------------------------
  // Company details

  /** The details section for the ticker-details reply. */
  function DetailsBlock(details: Json): (r: Result<string>)
    ensures !details.Object? ==> r == Raised(AttributeError)
    ensures details.Object? && !Truthy(Member(details, "results", Null)) ==> r == WarningLine(details, "ticker details")
    ensures details.Object? && Truthy(Member(details, "results", Null)) && r.Ok? ==> "**Company:** " <= r.value
  {
    match GetOr(details, "results", Null)
    case Raised(e) => Raised(e)
    case Ok(results) =>
      if Truthy(results) then CompanyLines(results) else WarningLine(details, "ticker details")
  }

  /** Name, market, type and currency of the company, its market cap when known, and a
      blank line. Market and currency must be strings, as they are upper-cased. */
  function CompanyLines(result: Json): (r: Result<string>)
    ensures !result.Object? ==> r == Raised(AttributeError)
    ensures result.Object? && !(Member(result, "market", Str("N/A")).Str? && Member(result, "currency_name", Str("USD")).Str?)
            ==> r == Raised(AttributeError)
    ensures r.Ok? ==> "**Company:** " <= r.value
  {
    if !result.Object? then Raised(AttributeError)
    else
      var name := Member(result, "name", Str("N/A"));
      var market := Member(result, "market", Str("N/A"));
      var kind := Member(result, "type", Str("N/A"));
      var currency := Member(result, "currency_name", Str("USD"));
      if !market.Str? || !currency.Str? then Raised(AttributeError)
      else match MarketCapLine(Member(result, "market_cap", Null))
        case Raised(e) => Raised(e)
        case Ok(cap) =>
          Ok("**Company:** " + PyStr(name) + "\n"
             + "**Market:** " + Upper(market.s) + "\n"
             + "**Type:** " + PyStr(kind) + "\n"
             + "**Currency:** " + Upper(currency.s) + "\n"
             + cap + "\n")
  }

  /** The market-cap line: billions or millions with one decimal, smaller values as
      whole dollars grouped by threes; nothing for a false value. */
  function MarketCapLine(cap: Json): (r: Result<string>)
    ensures !Truthy(cap) ==> r == Ok("")
    ensures Truthy(cap) ==> (r.Raised? <==> !IsNumber(cap))
    ensures r.Raised? ==> r.error == TypeError
    ensures Truthy(cap) && IsNumber(cap) ==> r == Ok(CapText(Number(cap)))
  {
    if !Truthy(cap) then Ok("")
    else match AtLeast(cap, 1_000_000_000.0)
      case Raised(e) => Raised(e)
      case Ok(_) => Ok(CapText(Number(cap)))
  }

  /** The market-cap line of a number: billions or millions with one decimal, smaller values
      in whole dollars grouped by threes. */
  function CapText(v: real): (r: string)
    ensures "**Market Cap:** $" <= r
  {
    if v >= 1_000_000_000.0 then "**Market Cap:** $" + Fixed(v / 1_000_000_000.0, 1, false, false) + "B\n"
    else if v >= 1_000_000.0 then "**Market Cap:** $" + Fixed(v / 1_000_000.0, 1, false, false) + "M\n"
    else "**Market Cap:** $" + Fixed(v, 0, true, false) + "\n"
  }

  // ---------------------------------------------------------------------------
  // Previous close

  /** The price section for the previous-close reply. */
  function PriceBlock(prev: Json): (r: Result<string>)
    ensures !prev.Object? ==> r == Raised(AttributeError)
    ensures prev.Object? && !Truthy(Member(prev, "results", Null)) ==> r == WarningLine(prev, "price data")
    ensures prev.Object? && Truthy(Member(prev, "results", Null)) && r.Ok? ==> PriceTitle <= r.value
  {
    match GetOr(prev, "results", Null)
    case Raised(e) => Raised(e)
    case Ok(results) =>
      if !Truthy(results) then WarningLine(prev, "price data")
      else match NonEmpty(results)
        case Raised(e) => Raised(e)
        case Ok(nonEmpty) =>
          if !nonEmpty then WarningLine(prev, "price data")
          else match First(results)
            case Raised(e) => Raised(e)
            case Ok(bar) => BarLines(bar)
  }

  /** Close, open, high, low and volume of the first bar, then the daily change. */
  function BarLines(bar: Json): (r: Result<string>)
    ensures !bar.Object? ==> r == Raised(AttributeError)
    ensures bar.Object? ==> (r.Raised? <==> DailyChange(Member(bar, "o", Null), Member(bar, "c", Null)).Raised?)
    ensures bar.Object? && r.Raised? ==> r.error == ZeroDivisionError
    ensures bar.Object? && r.Ok? ==>
              r.value == PriceTitle
                         + "- **Close:** " + FormatPrice(Member(bar, "c", Null)) + "\n"
                         + "- **Open:** " + FormatPrice(Member(bar, "o", Null)) + "\n"
                         + "- **High:** " + FormatPrice(Member(bar, "h", Null)) + "\n"
                         + "- **Low:** " + FormatPrice(Member(bar, "l", Null)) + "\n"
                         + "- **Volume:** " + FormatVolume(Member(bar, "v", Null)) + " shares\n\n"
                         + DailyChange(Member(bar, "o", Null), Member(bar, "c", Null)).value
  {
    if !bar.Object? then Raised(AttributeError)
    else
      var close := Member(bar, "c", Null);
      var high := Member(bar, "h", Null);
      var low := Member(bar, "l", Null);
      var open := Member(bar, "o", Null);
      var volume := Member(bar, "v", Null);
      match DailyChange(open, close)
      case Raised(e) => Raised(e)
      case Ok(change) =>
        Ok(PriceTitle
           + "- **Close:** " + FormatPrice(close) + "\n"
           + "- **Open:** " + FormatPrice(open) + "\n"
           + "- **High:** " + FormatPrice(high) + "\n"
           + "- **Low:** " + FormatPrice(low) + "\n"
           + "- **Volume:** " + FormatVolume(volume) + " shares\n\n"
           + change)
  }

  /** The daily-change line, when open and close are both true. A value `float` rejects
      drops the line; an open that `float` reads as zero divides by zero, which is not
      caught. */
  function DailyChange(open: Json, close: Json): (r: Result<string>)
    ensures !(Truthy(open) && Truthy(close)) ==> r == Ok("")
    ensures Truthy(open) && Truthy(close) && (ToFloat(close).Raised? || ToFloat(open).Raised?) ==> r == Ok("")
    ensures r.Raised? <==> Truthy(open) && Truthy(close) && ToFloat(close).Ok? && ToFloat(open) == Ok(0.0)
    ensures r.Raised? ==> r.error == ZeroDivisionError
  {
    if !(Truthy(open) && Truthy(close)) then Ok("")
    else if ToFloat(close).Raised? || ToFloat(open).Raised? then Ok("")
    else if ToFloat(open).value == 0.0 then Raised(ZeroDivisionError)
    else
      var c := ToFloat(close).value;
      var o := ToFloat(open).value;
      Ok(ChangeLine(c - o, (c - o) / o * 100.0))
  }

  /** The daily-change line: a rising arrow for a change of zero or more, a falling one
      below zero, then both numbers signed with two decimals. */
  function ChangeLine(change: real, percent: real): (r: string)
    ensures "**Daily Change:** " <= r && 18 < |r|
    ensures r[18] == '📈' <==> change >= 0.0
    ensures r[18] == '📉' <==> change < 0.0
  {
    "**Daily Change:** " + (if change >= 0.0 then "📈" else "📉") + " "
    + Fixed(change, 2, false, true) + " (" + Fixed(percent, 2, false, true) + "%)\n\n"
  }

  // ---------------------------------------------------------------------------
  // News

  /** The news section for the news reply: a line for each of the first three articles. */
  function NewsBlock(news: Json, parseIso: string -> Option<DateTime>): (r: Result<string>)
    ensures !news.Object? ==> r == Raised(AttributeError)
    ensures news.Object? && !Truthy(Member(news, "results", Null)) ==> r == WarningLine(news, "news")
    ensures news.Object? && Truthy(Member(news, "results", Null)) && r.Ok? ==> NewsTitle <= r.value
  {
    match GetOr(news, "results", Null)
    case Raised(e) => Raised(e)
    case Ok(results) =>
      if !Truthy(results) then WarningLine(news, "news")
      else match FirstThree(results)
        case Raised(e) => Raised(e)
        case Ok(articles) =>
          match ArticleLines(articles, parseIso)
          case Raised(e) => Raised(e)
          case Ok(lines) => Ok(NewsTitle + lines + "\n")
  }

  /** The lines of the articles, in order; the first article that is not a dict raises. */
  function ArticleLines(articles: seq<Json>, parseIso: string -> Option<DateTime>): Result<string>
  {
    if articles == [] then Ok("")
    else match ArticleLines(articles[..|articles| - 1], parseIso)
      case Raised(e) => Raised(e)
      case Ok(before) =>
        match ArticleLine(articles[|articles| - 1], parseIso)
        case Raised(e) => Raised(e)
        case Ok(line) => Ok(before + line)
  }

  /** `- [title](url) - date`, with the defaults for missing members. */
  function ArticleLine(article: Json, parseIso: string -> Option<DateTime>): (r: Result<string>)
    ensures r.Ok? <==> article.Object?
    ensures r.Raised? ==> r.error == AttributeError
    ensures article.Object? ==>
              r.value == "- [" + PyStr(Member(article, "title", Str("No title")))
                         + "](" + PyStr(Member(article, "article_url", Str("#")))
                         + ") - " + PublishedText(Member(article, "published_utc", Str("Unknown date")), parseIso)
                         + "\n"
  {
    if !article.Object? then Raised(AttributeError)
    else
      var title := Member(article, "title", Str("No title"));
      var published := Member(article, "published_utc", Str("Unknown date"));
      var url := Member(article, "article_url", Str("#"));
      Ok("- [" + PyStr(title) + "](" + PyStr(url) + ") - " + PublishedText(published, parseIso) + "\n")
  }

  /** The publication date as `%Y-%m-%d %H:%M` when `fromisoformat` (the oracle `parseIso`)
      reads it, with a trailing 'Z' spelled `+00:00`; the value itself otherwise. */
  function PublishedText(published: Json, parseIso: string -> Option<DateTime>): (r: string)
    ensures !published.Str? ==> r == PyStr(published)
    ensures published == Str("Unknown date") ==> r == "Unknown date"
    ensures published.Str? && published.s != "Unknown date" ==>
              var d := parseIso(ReplaceChar(published.s, 'Z', "+00:00"));
              && (d.None? ==> r == published.s)
              && (d.Some? ==> r == MinuteStamp(d.value))
  {
    if published.Str? && published.s != "Unknown date" then
      match parseIso(ReplaceChar(published.s, 'Z', "+00:00"))
      case Some(d) => MinuteStamp(d)
      case None => published.s
    else PyStr(published)
  }

  // ---------------------------------------------------------------------------
  // The whole report

  /** What `analyze_stock_query` returns, for the gateway answering `answer`. */
  function StockAnalysis(query: string, answer: Call -> Json, parseIso: string -> Option<DateTime>): (r: Result<string>)
    ensures ExtractTicker(query).None? ==> r == Ok(Rejection)
    ensures ExtractTicker(query).Some? && r.Ok? ==>
              Header(ExtractTicker(query).value) <= r.value && EndsWith(r.value, Disclaimer)
    ensures ExtractTicker(query).Some? ==>
              var t := ExtractTicker(query).value;
              var details := DetailsBlock(answer(TickerDetails(t)));
              var price := PriceBlock(answer(PreviousClose(t)));
              var news := NewsBlock(answer(News(t, 3)), parseIso);
              && (details.Raised? ==> r == Raised(details.error))
              && (details.Ok? && price.Raised? ==> r == Raised(price.error))
              && (details.Ok? && price.Ok? && news.Raised? ==> r == Raised(news.error))
              && (details.Ok? && price.Ok? && news.Ok? ==>
                    r == Ok(Header(t) + details.value + price.value + news.value + Disclaimer))
  {
    match ExtractTicker(query)
    case None => Ok(Rejection)
    case Some(t) =>
      Assemble(t, DetailsBlock(answer(TickerDetails(t))), PriceBlock(answer(PreviousClose(t))),
               NewsBlock(answer(News(t, 3)), parseIso))
  }

  /** `s` ends with `suffix`. */
  predicate EndsWith(s: string, suffix: string)
  {
    |suffix| <= |s| && s[|s| - |suffix|..] == suffix
  }

  /** The report from its three sections, or the error of the first section that raises. */
  function Assemble(ticker: string, details: Result<string>, price: Result<string>, news: Result<string>): (r: Result<string>)
    ensures r.Ok? ==> Header(ticker) <= r.value && EndsWith(r.value, Disclaimer)
    ensures r.Raised? <==> details.Raised? || price.Raised? || news.Raised?
    ensures details.Raised? ==> r == Raised(details.error)
    ensures details.Ok? && price.Raised? ==> r == Raised(price.error)
    ensures details.Ok? && price.Ok? && news.Raised? ==> r == Raised(news.error)
    ensures details.Ok? && price.Ok? && news.Ok? ==>
              r == Ok(Header(ticker) + details.value + price.value + news.value + Disclaimer)
  {
    if details.Raised? then details
    else if price.Raised? then price
    else if news.Raised? then news
    else Ok(Header(ticker) + details.value + price.value + news.value + Disclaimer)
  }

  /** The requests `analyze_stock_query` makes: none without a ticker, and each of the
      three in turn until a section raises. */
  function StockCalls(query: string, answer: Call -> Json): (r: seq<Call>)
    ensures r == [] <==> ExtractTicker(query).None?
    ensures ExtractTicker(query).Some? ==>
              var t := ExtractTicker(query).value;
              |r| <= 3 && r == [TickerDetails(t), PreviousClose(t), News(t, 3)][..|r|]
  {
    match ExtractTicker(query)
    case None => []
    case Some(t) => CallsMade(t, DetailsBlock(answer(TickerDetails(t))), PriceBlock(answer(PreviousClose(t))))
  }

  /** The requests made for a resolved ticker: the news is asked for only when neither
      earlier section raised, the previous close only when the details did not. */
  function CallsMade(ticker: string, details: Result<string>, price: Result<string>): (r: seq<Call>)
    ensures 1 <= |r| <= 3 && r == [TickerDetails(ticker), PreviousClose(ticker), News(ticker, 3)][..|r|]
    ensures |r| == 3 <==> details.Ok? && price.Ok?
  {
    if details.Raised? then [TickerDetails(ticker)]
    else if price.Raised? then [TickerDetails(ticker), PreviousClose(ticker)]
    else [TickerDetails(ticker), PreviousClose(ticker), News(ticker, 3)]
  }

  lemma StockAnalysisOfTicker(query: string, answer: Call -> Json, parseIso: string -> Option<DateTime>, t: string)
    requires ExtractTicker(query) == Some(t)
    ensures StockAnalysis(query, answer, parseIso)
            == Assemble(t, DetailsBlock(answer(TickerDetails(t))), PriceBlock(answer(PreviousClose(t))),
                        NewsBlock(answer(News(t, 3)), parseIso))
    ensures StockCalls(query, answer)
            == CallsMade(t, DetailsBlock(answer(TickerDetails(t))), PriceBlock(answer(PreviousClose(t))))
  {
  }

  /** `analyze_stock_query(query, gateway)`. */
  method AnalyzeStockQuery(query: string, gateway: Gateway, parseIso: string -> Option<DateTime>)
    returns (r: Result<string>)
    modifies gateway
    ensures r == StockAnalysis(query, gateway.answer, parseIso)
    ensures gateway.log == old(gateway.log) + StockCalls(query, gateway.answer)
  {
    var ticker := ExtractTicker(query);
    if ticker.None? {
      return Ok(Rejection);
    }
    StockAnalysisOfTicker(query, gateway.answer, parseIso, ticker.value);
    r := BuildReport(ticker.value, gateway, parseIso);
  }

  /** The report for a resolved ticker, building it section by section. */
  method BuildReport(t: string, gateway: Gateway, parseIso: string -> Option<DateTime>) returns (r: Result<string>)
    modifies gateway
    ensures r == Assemble(t, DetailsBlock(gateway.answer(TickerDetails(t))), PriceBlock(gateway.answer(PreviousClose(t))),
                          NewsBlock(gateway.answer(News(t, 3)), parseIso))
    ensures gateway.log
            == old(gateway.log) + CallsMade(t, DetailsBlock(gateway.answer(TickerDetails(t))), PriceBlock(gateway.answer(PreviousClose(t))))
  {
    var response := Header(t);

    var details := gateway.GetTickerDetails(t);
    var detailLines := DetailsBlock(details);
    if detailLines.Raised? {
      return Raised(detailLines.error);
    }
    response := response + detailLines.value;

    var prev := gateway.GetPreviousClose(t);
    assert gateway.log == old(gateway.log) + [TickerDetails(t), PreviousClose(t)];
    var priceLines := PriceBlock(prev);
    if priceLines.Raised? {
      return Raised(priceLines.error);
    }
    response := response + priceLines.value;

    var news := gateway.GetNews(t, 3);
    assert gateway.log == old(gateway.log) + [TickerDetails(t), PreviousClose(t), News(t, 3)];
    var newsLines := AppendNews(news, parseIso);
    if newsLines.Raised? {
      return Raised(newsLines.error);
    }
    response := response + newsLines.value;

    response := response + Disclaimer;
    return Ok(response);
  }

  /** The news section, article by article. */
  method AppendNews(news: Json, parseIso: string -> Option<DateTime>) returns (r: Result<string>)
    ensures r == NewsBlock(news, parseIso)
  {
    var results := GetOr(news, "results", Null);
    if results.Raised? {
      return Raised(results.error);
    }
    if !Truthy(results.value) {
      NewsBlockWithoutResults(news, parseIso);
      return WarningLine(news, "news");
    }
    var articles := FirstThree(results.value);
    if articles.Raised? {
      return Raised(articles.error);
    }
    var lines := AppendArticles(articles.value, parseIso);
    NewsBlockFromArticles(news, articles.value, parseIso);
    if lines.Raised? {
      return Raised(lines.error);
    }
    return Ok(NewsTitle + lines.value + "\n");
  }

  /** The article lines, one article at a time. */
  method AppendArticles(items: seq<Json>, parseIso: string -> Option<DateTime>) returns (r: Result<string>)
    ensures r == ArticleLines(items, parseIso)
  {
    var lines := "";
    var k := 0;
    while k < |items|
      invariant k <= |items|
      invariant ArticleLines(items[..k], parseIso) == Ok(lines)
    {
      var line := ArticleLine(items[k], parseIso);
      ArticleLinesStep(items, k, parseIso);
      if line.Raised? {
        ArticleErrorPropagates(items, k + 1, parseIso);
        return Raised(line.error);
      }
      lines := lines + line.value;
      k := k + 1;
    }
    assert items[..k] == items;
    return Ok(lines);
  }

  lemma NewsBlockWithoutResults(news: Json, parseIso: string -> Option<DateTime>)
    requires GetOr(news, "results", Null).Ok? && !Truthy(GetOr(news, "results", Null).value)
    ensures NewsBlock(news, parseIso) == WarningLine(news, "news")
  {
  }

  /** The section once the article list is known: its lines under the title, or the
      error the first bad article raises. */
  lemma NewsBlockFromArticles(news: Json, items: seq<Json>, parseIso: string -> Option<DateTime>)
    requires GetOr(news, "results", Null).Ok? && Truthy(GetOr(news, "results", Null).value)
    requires FirstThree(GetOr(news, "results", Null).value) == Ok(items)
    ensures NewsBlock(news, parseIso)
            == match ArticleLines(items, parseIso)
               case Raised(e) => Raised(e)
               case Ok(lines) => Ok(NewsTitle + lines + "\n")
  {
  }

  /** One more article adds its line, or raises. */
  lemma ArticleLinesStep(items: seq<Json>, k: nat, parseIso: string -> Option<DateTime>)
    requires k < |items| && ArticleLines(items[..k], parseIso).Ok?
    ensures ArticleLine(items[k], parseIso).Raised? ==>
              ArticleLines(items[..k + 1], parseIso) == Raised(ArticleLine(items[k], parseIso).error)
    ensures ArticleLine(items[k], parseIso).Ok? ==>
              ArticleLines(items[..k + 1], parseIso)
              == Ok(ArticleLines(items[..k], parseIso).value + ArticleLine(items[k], parseIso).value)
  {
    assert items[..k + 1][..k] == items[..k];
  }

  /** An article that raises makes the whole list raise, whatever follows it. */
  lemma {:induction false} ArticleErrorPropagates(items: seq<Json>, k: nat, parseIso: string -> Option<DateTime>)
    requires 0 < k <= |items| && ArticleLines(items[..k], parseIso).Raised?
    ensures ArticleLines(items, parseIso) == ArticleLines(items[..k], parseIso)
    decreases |items| - k
  {
    if k < |items| {
      assert items[..k + 1][..k] == items[..k];
      ArticleErrorPropagates(items, k + 1, parseIso);
    } else {
      assert items[..k] == items;
    }
  }

  // ---------------------------------------------------------------------------
  // Properties of the report

  /** A report, as opposed to the rejection or an exception, is only made after all three
      requests, in the order details, previous close, news. */
  lemma ReportFetchesAll(query: string, answer: Call -> Json, parseIso: string -> Option<DateTime>)
    requires ExtractTicker(query).Some? && StockAnalysis(query, answer, parseIso).Ok?
    ensures var t := ExtractTicker(query).value;
            StockCalls(query, answer) == [TickerDetails(t), PreviousClose(t), News(t, 3)]
  {
    var t := ExtractTicker(query).value;
    StockAnalysisOfTicker(query, answer, parseIso, t);
  }

  /** A market cap of a billion or more is shown in billions with one decimal. */
  lemma MarketCapBillions(v: real)
    requires v >= 1_000_000_000.0
    ensures CapShownAs(CapText(v), v / 1_000_000_000.0, 1, false, "B\n")
    ensures var line := CapText(v); 19 < |line| && UnsignedFixed(line[17..|line| - 2], 1)
  {
    var scaled := v / 1_000_000_000.0;
    assert 0.0 <= scaled;
    assert CapText(v) == "**Market Cap:** $" + Fixed(scaled, 1, false, false) + "B\n";
    ScaledCap(scaled, CapText(v), "B\n");
  }

  /** A market cap of a million up to a billion is shown in millions with one decimal. */
  lemma MarketCapMillions(v: real)
    requires 1_000_000.0 <= v < 1_000_000_000.0
    ensures CapShownAs(CapText(v), v / 1_000_000.0, 1, false, "M\n")
    ensures var line := CapText(v); 19 < |line| && UnsignedFixed(line[17..|line| - 2], 1)
  {
    var scaled := v / 1_000_000.0;
    assert 0.0 <= scaled;
    assert CapText(v) == "**Market Cap:** $" + Fixed(scaled, 1, false, false) + "M\n";
    ScaledCap(scaled, CapText(v), "M\n");
  }

  /** A market cap in billions or millions: the scaled value with one decimal, then the
      scale letter and the line end. */
  lemma ScaledCap(scaled: real, line: string, suffix: string)
    requires 0.0 <= scaled && |suffix| == 2
    requires line == "**Market Cap:** $" + Fixed(scaled, 1, false, false) + suffix
    ensures CapShownAs(line, scaled, 1, false, suffix)
    ensures 19 < |line| && UnsignedFixed(line[17..|line| - 2], 1)
  {
    CapShown(line, scaled, 1, false, suffix);
    FixedForm(scaled, 1, false);
    CapScaledDigits(Fixed(scaled, 1, false, false), line, suffix);
  }

  /** The number of a scaled market-cap line lies between the prefix and the scale letter. */
  lemma CapScaledDigits(f: string, line: string, suffix: string)
    requires line == "**Market Cap:** $" + f + suffix && |suffix| == 2 && UnsignedFixed(f, 1)
    ensures 19 < |line| && UnsignedFixed(line[17..|line| - 2], 1)
  {
    assert line[17..|line| - 2] == f;
  }

  /** A market cap below a million is shown in whole dollars, grouped by threes. */
  lemma MarketCapDollars(v: real)
    requires v < 1_000_000.0
    ensures CapShownAs(CapText(v), v, 0, true, "\n")
    ensures var line := CapText(v); 18 < |line| && SignedGrouped(line[17..|line| - 1])
  {
    CapShown(CapText(v), v, 0, true, "\n");
    FixedGroupedWhole(v, 0);
    CapDigits(Fixed(v, 0, true, false), CapText(v));
  }

  /** The number of a whole-dollar market-cap line lies between the prefix and the line end. */
  lemma CapDigits(f: string, line: string)
    requires line == "**Market Cap:** $" + f + "\n" && 0 < |f| && SignedGrouped(f[..|f|])
    ensures 18 < |line| && SignedGrouped(line[17..|line| - 1])
  {
    assert f[..|f|] == f;
    assert line[17..|line| - 1] == f;
  }

  /** Market and currency are shown upper-cased, the other members as Python prints them,
      each with its default when missing, and the market-cap line follows. */
  lemma CompanyLinesShown(result: Json, market: string, currency: string)
    requires result.Object?
    requires Member(result, "market", Str("N/A")) == Str(market)
    requires Member(result, "currency_name", Str("USD")) == Str(currency)
    ensures var cap := MarketCapLine(Member(result, "market_cap", Null));
            CompanyLines(result)
            == if cap.Raised? then Raised(TypeError)
               else Ok("**Company:** " + PyStr(Member(result, "name", Str("N/A"))) + "\n"
                       + "**Market:** " + Upper(market) + "\n"
                       + "**Type:** " + PyStr(Member(result, "type", Str("N/A"))) + "\n"
                       + "**Currency:** " + Upper(currency) + "\n"
                       + cap.value + "\n")
  {
  }

  /** With true `results`, the details section is the company lines of that record. */
  lemma DetailsBlockOfResults(details: Json)
    requires details.Object? && Truthy(Member(details, "results", Null))
    ensures DetailsBlock(details) == CompanyLines(Member(details, "results", Null))
  {
  }

  /** With a non-empty `results` list, the price section is the lines of its first bar;
      a daily change that raises escapes the section. */
  lemma PriceBlockOfBars(prev: Json, items: seq<Json>)
    requires prev.Object? && Member(prev, "results", Null) == List(items) && items != []
    ensures PriceBlock(prev) == BarLines(items[0])
  {
  }

  /** The market-cap line shows `scaled` followed by `suffix` (the scale letter and the line
      end), and the number (its commas removed when it is grouped) reads back as `scaled` rounded to `places` decimals. */
  ghost predicate CapShownAs(line: string, scaled: real, places: nat, grouping: bool, suffix: string)
  {
    exists x ::
      && line == "**Market Cap:** $" + x + suffix
      && ParseDecimal(if grouping then WithoutCommas(x) else x) == Some(RoundTo(scaled, places))
  }

  lemma CapShown(line: string, scaled: real, places: nat, grouping: bool, suffix: string)
    requires line == "**Market Cap:** $" + Fixed(scaled, places, grouping, false) + suffix
    ensures CapShownAs(line, scaled, places, grouping, suffix)
  {
    var x := Fixed(scaled, places, grouping, false);
    FixedGroupedReadsBack(scaled, places, false);
    FixedReadsBack(scaled, places, false);
    assert ParseDecimal(if grouping then WithoutCommas(x) else x) == Some(RoundTo(scaled, places));
  }

  /** The change line shows each number signed, with exactly two decimals, and read back
      as the value rounded to two decimals; each sign agrees with its value, and the arrow
      with the sign of the change. */
  lemma ChangeLineReadsBack(change: real, percent: real)
    ensures exists x, y ::
              && ChangeLine(change, percent)
                 == "**Daily Change:** " + (if change >= 0.0 then "📈" else "📉") + " " + x + " (" + y + "%)\n\n"
              && 1 < |x| && (x[0] == '+' <==> change >= 0.0) && (x[0] == '-' <==> change < 0.0)
              && 1 < |y| && (y[0] == '+' <==> percent >= 0.0) && (y[0] == '-' <==> percent < 0.0)
              && UnsignedFixed(x[1..], 2) && UnsignedFixed(y[1..], 2)
              && ParseDecimal(x) == Some(RoundTo(change, 2))
              && ParseDecimal(y) == Some(RoundTo(percent, 2))
  {
    var x := Fixed(change, 2, false, true);
    var y := Fixed(percent, 2, false, true);
    FixedSign(change, 2, false, true);
    FixedSign(percent, 2, false, true);
    FixedForm(change, 2, true);
    FixedForm(percent, 2, true);
    FixedReadsBack(change, 2, true);
    FixedReadsBack(percent, 2, true);
    assert ChangeLine(change, percent)
           == "**Daily Change:** " + (if change >= 0.0 then "📈" else "📉") + " " + x + " (" + y + "%)\n\n";
  }

  /** The daily-change line, when both prices are true, read as numbers and the open is not
      zero: the change is close minus open and the percentage is the change over the open. */
  lemma DailyChangeLine(open: Json, close: Json)
    requires Truthy(open) && Truthy(close) && ToFloat(close).Ok? && ToFloat(open).Ok?
    requires ToFloat(open).value != 0.0
    ensures var c := ToFloat(close).value;
            var o := ToFloat(open).value;
            DailyChange(open, close) == Ok(ChangeLine(c - o, (c - o) / o * 100.0))
            && (c - o >= 0.0 <==> c >= o)
  {
  }

  /** An open price given as the string "0" is true, but `float` reads it as zero, so the
      percentage divides by zero and the exception escapes the report. */
  lemma ZeroStringOpenRaises(close: Json)
    requires Truthy(close) && ToFloat(close).Ok?
    ensures DailyChange(Str("0"), close) == Raised(ZeroDivisionError)
  {
    StripUnpadded("0");
    NumeralSplitsAtPoint("0", "");
    assert SplitSign("0") == (false, "0");
    assert ParseDecimal("0") == Some(0.0);
  }

  /** The article lines are the line of each article, in order, when every article is a
      dict; otherwise the first one that is not raises AttributeError. */
  lemma {:induction false} ArticleLinesConcat(articles: seq<Json>, parseIso: string -> Option<DateTime>)
    ensures ArticleLines(articles, parseIso)
            == if AllObjects(articles) then Ok(Concat(Lines(articles, parseIso))) else Raised(AttributeError)
  {
    if articles != [] {
      ArticleLinesConcat(articles[..|articles| - 1], parseIso);
      AllObjectsSnoc(articles);
      if AllObjects(articles) {
        LinesSnoc(articles, parseIso);
      }
    }
  }
  /** The lines of a list of objects end with the line of the last one. */
  lemma LinesSnoc(articles: seq<Json>, parseIso: string -> Option<DateTime>)
    requires articles != [] && AllObjects(articles)
    ensures AllObjects(articles[..|articles| - 1])
    ensures Concat(Lines(articles, parseIso))
            == Concat(Lines(articles[..|articles| - 1], parseIso)) + ArticleLine(articles[|articles| - 1], parseIso).value
  {
    var n := |articles|;
    AllObjectsSnoc(articles);
    var init := Lines(articles[..n - 1], parseIso);
    assert Lines(articles, parseIso) == init + [ArticleLine(articles[n - 1], parseIso).value];
  }

  predicate AllObjects(articles: seq<Json>)
  {
    forall k | 0 <= k < |articles| :: articles[k].Object?
  }

  lemma AllObjectsSnoc(articles: seq<Json>)
    requires articles != []
    ensures AllObjects(articles) <==> AllObjects(articles[..|articles| - 1]) && articles[|articles| - 1].Object?
  {
    var init := articles[..|articles| - 1];
    assert forall k | 0 <= k < |init| :: init[k] == articles[k];
  }

  /** The line of each article. */
  function Lines(articles: seq<Json>, parseIso: string -> Option<DateTime>): (r: seq<string>)
    requires AllObjects(articles)
    ensures |r| == |articles|
  {
    if articles == [] then []
    else
      AllObjectsSnoc(articles);
      Lines(articles[..|articles| - 1], parseIso) + [ArticleLine(articles[|articles| - 1], parseIso).value]
  }

  /** The parts, in order. */
  function Concat(parts: seq<string>): string
  {
    if parts == [] then "" else Concat(parts[..|parts| - 1]) + parts[|parts| - 1]
  }

  /** The news section shows the first three articles and no more: their lines under the
      title, or AttributeError when one of them is not a dict. */
  lemma NewsCap(news: Json, parseIso: string -> Option<DateTime>, items: seq<Json>)
    requires news.Object? && Member(news, "results", Null) == List(items) && items != []
    ensures var shown := if |items| <= 3 then items else items[..3];
            NewsBlock(news, parseIso)
            == if AllObjects(shown) then Ok(NewsTitle + Concat(Lines(shown, parseIso)) + "\n")
               else Raised(AttributeError)
  {
    var shown := if |items| <= 3 then items else items[..3];
    NewsBlockFromArticles(news, shown, parseIso);
    ArticleLinesConcat(shown, parseIso);
  }

  /** An article without title, link or date prints the defaults. */
  lemma ArticleDefaults(parseIso: string -> Option<DateTime>)
    ensures ArticleLine(Object([]), parseIso) == Ok("- [" + "No title" + "](" + "#" + ") - " + "Unknown date" + "\n")
  {
    var article := Object([]);
    assert Member(article, "title", Str("No title")) == Str("No title");
    assert Member(article, "published_utc", Str("Unknown date")) == Str("Unknown date");
    assert Member(article, "article_url", Str("#")) == Str("#");
    assert PublishedText(Str("Unknown date"), parseIso) == "Unknown date";
  }

  /** A company record without any of the members prints the defaults: N/A for name,
      market and type, USD for the currency, and no market cap. */
  lemma CompanyDefaults()
    ensures CompanyLines(Object([]))
            == Ok("**Company:** " + "N/A" + "\n" + "**Market:** " + "N/A" + "\n" + "**Type:** " + "N/A" + "\n"
                  + "**Currency:** " + "USD" + "\n" + "\n")
  {
    var result := Object([]);
    assert Member(result, "name", Str("N/A")) == Str("N/A");
    assert Member(result, "market", Str("N/A")) == Str("N/A");
    assert Member(result, "type", Str("N/A")) == Str("N/A");
    assert Member(result, "currency_name", Str("USD")) == Str("USD");
    assert Member(result, "market_cap", Null) == Null;
    assert MarketCapLine(Null) == Ok("");
    assert Upper("N/A") == "N/A";
    assert Upper("USD") == "USD";
    var text := "**Company:** " + "N/A" + "\n" + "**Market:** " + "N/A" + "\n" + "**Type:** " + "N/A" + "\n"
                + "**Currency:** " + "USD" + "\n";
    assert CompanyLines(result) == Ok(text + "" + "\n");
    assert text + "" == text;
  }

  /** A market given as JSON null is not replaced by the default, and upper-casing it raises. */
  lemma NullMarketRaises(result: Json)
    requires result.Object? && Lookup(result.fields, "market") == Some(Null)
    ensures CompanyLines(result) == Raised(AttributeError)
  {
  }

  /** The shapes of a true `results` that are not a list of bars: a number has no length,
      a dict has no key 0, and a string's first character has no `get`. */
  lemma PriceResultsShapes(prev: Json, results: Json)
    requires prev.Object? && Member(prev, "results", Null) == results && Truthy(results)
    ensures IsNumber(results) ==> PriceBlock(prev) == Raised(TypeError)
    ensures results.Object? ==> PriceBlock(prev) == Raised(KeyError)
    ensures results.Str? ==> PriceBlock(prev) == Raised(AttributeError)
    ensures results.List? && !results.items[0].Object? ==> PriceBlock(prev) == Raised(AttributeError)
  {
  }
}
