# polygon-mcp stock analysis, modelled in Dafny

polygon-mcp answers questions in plain language about a stock, such as "What's the
latest on TSLA?". It resolves the question to a ticker symbol. It then asks the
Polygon.io market-data service for three documents: the ticker's details, the
previous day's bar and the three latest news articles. From these it writes a Markdown
report, which can be saved under `reports/`. This project models two variants of that
core:

- the shared utility module (`utils/polygon_mcp_util.py`), covering:
  - `extract_ticker`;
  - `format_price` and `format_volume`;
  - `analyze_stock_query`;
  - the path and text of `save_analysis_report`;
- the simplified demo (`simple_demo.py`), covering its own `extract_ticker`,
  `analyze_query`, and the path of its `save_analysis_report`.

Modules:

- `Wrappers`: `Option`.
- `Ascii`: character classes, `str.upper` and `str.lower`, the `in` operator on strings,
  and `\b`, all restricted to ASCII.
- `Numerals`: decimal numerals. Covers `str(int)`, `format(n, ',')`, the fixed-point
  formats `.1f`, `,.2f`, `,.0f` and `+.2f` with half-even rounding of the exact value,
  and `repr` of a float. It also has the readers `int(s)` and `float(s)` and proofs that
  each reader reads back what the formats print.
- `PyValues`: decoded JSON values and the Python operations the report code applies to
  them. These are `dict.get`, truthiness, `str`, `float`, `int`, `format(v, ',')`,
  `len(v) > 0`, `v[0]` and `v[:3]`, with the exceptions each one raises.
- `Clock`: date-times and the `strftime` layouts the program prints, plus proofs that
  the compact stamp reads back.
- `TickerPatterns`: the four ticker regular expressions as match predicates, a scanner,
  and proofs that the scanner finds exactly the leftmost match (`re.findall(...)[0]`).
- `MarketData`: the gateway class. Each request is answered by a fixed function, and a
  ghost log records the requests in order.
- `PolygonUtil`: ticker extraction, the price and volume formats, and the saved report's
  path and text for the utility module.
- `PolygonReport`: the report of `analyze_stock_query`. It is defined once as functions
  (`StockAnalysis`, `StockCalls`) and once as the step-by-step method
  (`AnalyzeStockQuery`) proved equal to them.
- `SimpleDemo`: the same for the demo (`Analysis`, `Calls`, `AnalyzeQuery`).

An exception that the source does not catch is part of the result. Each section of a
report is a `Result`: either the text, or the Python exception it raises
(`AttributeError`, `TypeError`, `KeyError`, `ValueError`, `ZeroDivisionError`,
`IndexError`). A raised section ends the report, and no further requests are made.

## Model

| member | source | states |
|---|---|---|
| MarketData.Gateway.GetTickerDetails | utils/polygon_mcp_util.py:28-39 | Returns the provider's document for the ticker-details request and appends exactly that request to the log. The demo's request, simple_demo.py:31-39, behaves the same way. |
| MarketData.Gateway.GetPreviousClose | utils/polygon_mcp_util.py:41-52 | Returns the document for the previous-close request and logs it. The demo's `get_latest_quote`, simple_demo.py:41-49, requests the same endpoint. |
| MarketData.Gateway.GetNews | utils/polygon_mcp_util.py:75-88 | Returns the document for the news request with its limit and logs it. |
| Ascii.Lower | utils/polygon_mcp_util.py:152 | Keeps the length and lower-cases each ASCII letter, leaving every other character unchanged. |
| Ascii.Upper | utils/polygon_mcp_util.py:163 | Keeps the length and upper-cases each ASCII letter, leaving every other character unchanged. |
| Ascii.UpperKeepsClasses | utils/polygon_mcp_util.py:163 | Upper-casing keeps letters letters and word characters word characters, and changes nothing that is not a letter. |
| Ascii.ContainsIff | utils/polygon_mcp_util.py:156 | The substring test `company in query_lower` holds exactly when the name occurs at some index of the query. |
| Ascii.ReplaceChar | utils/polygon_mcp_util.py:266 | `replace('Z', '+00:00')` leaves text without a 'Z' unchanged and turns a lone 'Z' into '+00:00'. When the replacement has no 'Z', none is left. |
| Ascii.ReplaceCharAppend | utils/polygon_mcp_util.py:266 | Replacing distributes over concatenation, so every occurrence is replaced wherever the text is cut. |
| TickerPatterns.LetterRunEnd | utils/polygon_mcp_util.py:107-110 | The greedy `[A-Z]+` run ends at the first character outside the class, and every character before that end is in the class. |
| TickerPatterns.SpaceRunEnd | utils/polygon_mcp_util.py:107-108 | The greedy `\s+` run ends at the first non-space, and everything before that end is whitespace. |
| TickerPatterns.GroupFromCorrect | utils/polygon_mcp_util.py:106-111 | At a given start, the group finder returns exactly the group `([A-Z]{min,5})\b` admits there. That group is unique. |
| TickerPatterns.TryAtCorrect | utils/polygon_mcp_util.py:106-111 | For each of the four patterns, one attempt returns a group exactly when the pattern matches at that position. Every match there has that group. |
| TickerPatterns.MatchShape | utils/polygon_mcp_util.py:106-111 | A match lies inside the query, and its group is one to five class characters. |
| TickerPatterns.Search | utils/polygon_mcp_util.py:161 | The scan returns the group of a match that starts no earlier than any other match. It returns nothing only when no position matches. |
| TickerPatterns.SearchIsLeftmost | utils/polygon_mcp_util.py:161-163 | `re.findall(p, q)[0]` is the group of the leftmost match. The match list is empty exactly when the pattern matches nowhere. |
| TickerPatterns.LeadingWordMatches | utils/polygon_mcp_util.py:110 | A query that opens with a word of two to five letters followed by a word boundary is matched by the standalone pattern at index 0. |
| TickerPatterns.StandaloneIgnoresCase | simple_demo.py:78-79 | `\b[A-Z]{2,5}\b` on the upper-cased query finds the same span as the same pattern with IGNORECASE on the original query. |
| TickerPatterns.TryAtIgnoresCase | simple_demo.py:78-79 | At each position, the standalone pattern on the upper-cased text returns the same group as the IGNORECASE pattern on the original text. |
| TickerPatterns.RunEndIgnoresCase | simple_demo.py:79 | A run of `[A-Z]` in the upper-cased text ends where a case-insensitive run ends in the original text. |
| PolygonUtil.FirstCompany | utils/polygon_mcp_util.py:152-157 | Returns the ticker of the first table entry, in table order, whose name occurs in the text. It returns nothing exactly when no name occurs. |
| PolygonUtil.FirstPatternMatch | utils/polygon_mcp_util.py:160-166 | Returns the upper-cased leftmost group of the first pattern that matches anywhere. It returns nothing exactly when no pattern matches. The result is always a ticker symbol. |
| PolygonUtil.GroupIsLetters | utils/polygon_mcp_util.py:163-165 | A group found by the scan is one to five letters, so its upper-cased form is a ticker symbol. The length check therefore always passes. |
| PolygonUtil.ExtractTicker | utils/polygon_mcp_util.py:103-168 | A company name in the lower-cased query decides the result. Without one, the result is the upper-cased leftmost match of the first of the four patterns that matches. Any result is one to five upper-case letters. |
| PolygonUtil.TableTickers | utils/polygon_mcp_util.py:114-150 | Every ticker in the company table is one to five upper-case letters. |
| PolygonUtil.ExtractTickerNone | utils/polygon_mcp_util.py:152-168 | No ticker is returned exactly when no company name occurs in the lower-cased query and none of the four patterns matches anywhere. |
| PolygonUtil.LeadingWordWins | utils/polygon_mcp_util.py:106-111 | With no company name and no match for the first three patterns, a query's leading word of two to five letters wins over a real ticker later in the query. |
| PolygonUtil.FormatPrice | utils/polygon_mcp_util.py:170-177 | None and 'N/A' print as N/A. A value that `float` rejects prints as its `str`. |
| PolygonUtil.FormatPriceReadsBack | utils/polygon_mcp_util.py:175 | An accepted price prints as '$', comma-grouped digits, a point and exactly two digits. With the commas removed, it reads back as the price rounded to cents. |
| PolygonUtil.FormatVolume | utils/polygon_mcp_util.py:179-192 | None and 'N/A' print as N/A. A value that `int` rejects prints as its `str`. A value `int` accepts prints as the volume text of that integer. |
| PolygonUtil.VolumeText | utils/polygon_mcp_util.py:183-190 | The text ends in 'M' exactly from a million up and in 'K' exactly from a thousand up to a million. Below a thousand it ends in a digit. |
| PolygonUtil.VolumeMillionsReadsBack | utils/polygon_mcp_util.py:185-186 | A volume of a million or more ends in 'M'. The number before the 'M' has the `.1f` form: whole digits with no leading zero (a lone "0" aside), a point and exactly one decimal. It reads back as volume/1,000,000 rounded to one decimal. |
| PolygonUtil.VolumeThousandsReadsBack | utils/polygon_mcp_util.py:187-188 | A volume from 1,000 up to a million ends in 'K'. The number before the 'K' has the `.1f` form: whole digits with no leading zero, a point and exactly one decimal. It reads back as volume/1,000 rounded to one decimal. |
| PolygonUtil.VolumeSmallReadsBack | utils/polygon_mcp_util.py:189-190 | A volume below 1,000, including a negative one, is printed as an optional sign and digits grouped by threes. With the commas removed it reads back as itself. |
| PolygonUtil.ReportPathInjective | utils/polygon_mcp_util.py:287-288 | Two saved-report paths are equal only for the same ticker and the same second. |
| PolygonUtil.ReportTextFrame | utils/polygon_mcp_util.py:290-293 | The saved text opens with `# ` and the ticker, and ends with the report unchanged. |
| PyValues.Lookup | utils/polygon_mcp_util.py:205 | A key is found exactly when some member has that name. The value found is that of the last such member, as JSON decoding keeps it. |
| PyValues.Get | utils/polygon_mcp_util.py:205 | `v.get(k)` raises exactly when v is not a dict, and the error is AttributeError. |
| PyValues.GetOr | utils/polygon_mcp_util.py:207 | `v.get(k, d)` raises exactly when v is not a dict. It gives d when the key is missing. |
| PyValues.Member | utils/polygon_mcp_util.py:207-210 | On a dict, `get` with a default cannot raise, and gives what `GetOr` gives. |
| PyValues.PyStr | utils/polygon_mcp_util.py:207 | An f-string inserts a string value unchanged. |
| PyValues.AtLeast | utils/polygon_mcp_util.py:215 | `market_cap >= bound` raises TypeError exactly when the value is not a number or boolean. Otherwise it compares the numeric value. |
| PyValues.ToFloat | utils/polygon_mcp_util.py:175 | `float` gives a number's value. When it raises, the error is ValueError exactly for a string. |
| PyValues.ToInt | utils/polygon_mcp_util.py:184 | `int` gives an integer unchanged. When it raises, the error is ValueError exactly for a string. |
| PyValues.Truncate | utils/polygon_mcp_util.py:184 | `int` of a float keeps the whole units of its magnitude, with its sign: it rounds toward zero. |
| PyValues.FormatComma | simple_demo.py:130 | `format(v, ',')` succeeds exactly for numbers. It raises ValueError exactly for a string and TypeError otherwise. An integer prints as an optional sign and digits grouped by threes. |
| PyValues.NonEmpty | utils/polygon_mcp_util.py:228 | `len(v) > 0` is defined exactly for strings, lists and dicts, and then agrees with truthiness. |
| PyValues.First | utils/polygon_mcp_util.py:229 | `v[0]` of a non-empty list is its first element. It raises IndexError exactly for an empty list or string. |
| PyValues.FirstThree | utils/polygon_mcp_util.py:259 | `v[:3]` is defined exactly for lists and strings. For a list it is the first three items, or all of them when there are fewer. |
| PyValues.StrReadsBackAsFloat | utils/polygon_mcp_util.py:175-177 | `float(str(v))` is v for every integer and float. |
| PyValues.StrReadsBackAsInt | utils/polygon_mcp_util.py:184 | `int(str(i))` is i. |
| Numerals.RoundHalfEven | utils/polygon_mcp_util.py:186 | The result is the integer nearest to the value. A tie goes to the even integer, and a non-negative value rounds to a non-negative integer. |
| Numerals.Scaled | utils/polygon_mcp_util.py:175 | The magnitude in units of the last decimal place, within half a unit. |
| Numerals.RoundTo | utils/polygon_mcp_util.py:175 | The value rounded to the given number of places lies within half a unit of the last place, and is a whole number of units of that place. |
| Numerals.FixedReadsBack | utils/polygon_mcp_util.py:186 | `float` reads what `.Nf` prints as the value rounded to N places. |
| Numerals.FixedGroupedReadsBack | utils/polygon_mcp_util.py:175 | `,.Nf` differs from `.Nf` only by commas, and reads back the same once they are removed. |
| Numerals.FixedSign | utils/polygon_mcp_util.py:249 | `+.2f` starts with '-' exactly for negative values and with '+' exactly for the others. |
| Numerals.FloatTextReadsBack | simple_demo.py:127 | `float` reads the repr of a float back as the float's value. |
| Numerals.IntTextReadsBack | simple_demo.py:127 | `int` reads back what `str(i)` prints. |
| Numerals.IntTextReadsBackAsDecimal | simple_demo.py:127 | `float` reads `str(i)` back as i. |
| Numerals.IntGroupedReadsBack | utils/polygon_mcp_util.py:190 | `format(i, ',')` with the commas removed reads back as i. |
| Numerals.GroupedReadsBack | utils/polygon_mcp_util.py:190 | Grouping a natural number only inserts commas into its digits. |
| Numerals.GroupDigitsWithoutCommas | utils/polygon_mcp_util.py:190 | Removing the commas from grouped digits gives back the digits. |
| Numerals.GroupDigitsByThrees | utils/polygon_mcp_util.py:190 | Grouped digits have a comma exactly every fourth place from the right, digits everywhere else, and one comma per three digits after the first group. |
| Numerals.IntGroupedByThrees | utils/polygon_mcp_util.py:190 | `format(i, ',')` is an optional minus sign followed by digits grouped by threes, with no leading zero unless the number is 0. |
| Numerals.FixedGroupedWhole | utils/polygon_mcp_util.py:175 | In `,.Nf` the whole part before the point is an optional sign and digits grouped by threes, with no leading zero unless the whole part is 0. |
| Numerals.DigitsLead | utils/polygon_mcp_util.py:190 | `str(n)` opens with '0' exactly when n is 0, and then it is the single digit "0". |
| Numerals.FixedForm | utils/polygon_mcp_util.py:186 | `.Nf` without grouping prints a sign when the value is negative or '+' is asked for, and no sign otherwise. After the sign come whole digits with no leading zero (a lone "0" aside), then, for N > 0, a point and exactly N decimals. |
| Clock.FieldReadsBack | utils/polygon_mcp_util.py:287 | A zero-padded `%Y`/`%m`/… field of a valid time has exactly its width and reads back as its value. |
| Clock.CompactStampReadsBack | utils/polygon_mcp_util.py:287 | `%Y%m%d_%H%M%S` of a valid time is 15 characters and parses back to that time. |
| Clock.CompactStampInjective | utils/polygon_mcp_util.py:287 | Two valid times with the same compact stamp are equal. |
| PolygonReport.WarningLine | utils/polygon_mcp_util.py:223-224 | For a reply with a true `error`, it is the warning quoting that error. Otherwise it is nothing. |
| PolygonReport.DetailsBlock | utils/polygon_mcp_util.py:204-224 | A non-dict reply raises AttributeError. Missing or false `results` gives the warning line. Otherwise the section opens with the company line. |
| PolygonReport.DetailsBlockOfResults | utils/polygon_mcp_util.py:205-207 | With true `results`, the section is exactly the company lines of the `results` record. |
| PolygonReport.CompanyLines | utils/polygon_mcp_util.py:207-210 | A record that is not a dict raises AttributeError. So does a market or currency that is not a string, because `upper` is called on it. Otherwise the lines open with the company line. |
| PolygonReport.CompanyLinesShown | utils/polygon_mcp_util.py:207-220 | For string market and currency, the lines are the name, the upper-cased market, the type and the upper-cased currency, each with its default when missing, then the market-cap line. A market cap that raises makes the lines raise TypeError. |
| PolygonReport.MarketCapLine | utils/polygon_mcp_util.py:213-220 | A false market cap adds nothing. A true non-number raises TypeError at the comparison. A number gives the market-cap line for its value. |
| PolygonReport.MarketCapBillions | utils/polygon_mcp_util.py:215-216 | From a billion up, the cap shows in billions and then 'B'. The number has the `.1f` form: whole digits with no leading zero, a point and exactly one decimal. It reads back as cap/1e9 rounded to one decimal. |
| PolygonReport.MarketCapMillions | utils/polygon_mcp_util.py:217-218 | From a million up to a billion, the cap shows in millions and then 'M'. The number has the `.1f` form, with exactly one decimal, and reads back as cap/1e6 rounded to one decimal. |
| PolygonReport.MarketCapDollars | utils/polygon_mcp_util.py:219-220 | Below a million, the cap shows as an optional sign and whole dollars grouped by threes. With the commas removed it reads back as the cap rounded to a whole dollar. |
| PolygonReport.PriceBlock | utils/polygon_mcp_util.py:227-253 | A non-dict reply raises AttributeError. Missing or false `results` gives the warning line. Otherwise the section opens with the price title. |
| PolygonReport.PriceBlockOfBars | utils/polygon_mcp_util.py:227-229 | With a non-empty `results` list, the section is the lines of its first bar. |
| PolygonReport.BarLines | utils/polygon_mcp_util.py:229-251 | A bar that is not a dict raises AttributeError. Otherwise the lines are the title, close, open, high and low through `format_price`, the volume through `format_volume`, then the daily change. They raise, with ZeroDivisionError, exactly when the daily change does. |
| PolygonReport.PriceResultsShapes | utils/polygon_mcp_util.py:228-229 | A true `results` that is a number raises TypeError. A dict raises KeyError. A string, or a list whose first bar is not a dict, raises AttributeError. |
| PolygonReport.DailyChange | utils/polygon_mcp_util.py:244-251 | No line unless open and close are both true. A value `float` rejects drops the line. The section raises, with ZeroDivisionError, exactly when the open reads as zero. |
| PolygonReport.DailyChangeLine | utils/polygon_mcp_util.py:246-249 | For a non-zero open, the change is close minus open and the percentage is the change over the open times 100. The arrow is up exactly when close >= open. |
| PolygonReport.ChangeLine | utils/polygon_mcp_util.py:248-249 | The line opens with the daily-change label. The arrow is rising exactly for a change of zero or more and falling exactly below zero. |
| PolygonReport.ChangeLineReadsBack | utils/polygon_mcp_util.py:248-249 | The change and the percentage each open with '+' exactly when their own value is zero or more and '-' exactly when it is negative. The arrow agrees with the change's sign. After the sign, each has whole digits with no leading zero, a point and exactly two decimals, and each reads back as its value rounded to two decimals. |
| PolygonReport.ZeroStringOpenRaises | utils/polygon_mcp_util.py:244-251 | An open of the string "0" is true but reads as zero, so the report raises ZeroDivisionError. |
| PolygonReport.NewsBlock | utils/polygon_mcp_util.py:256-276 | A non-dict reply raises AttributeError. Missing or false `results` gives the warning line. Otherwise the section opens with the news title. |
| PolygonReport.NewsBlockWithoutResults | utils/polygon_mcp_util.py:275-276 | A reply without true `results` gives the warning line. |
| PolygonReport.NewsBlockFromArticles | utils/polygon_mcp_util.py:257-274 | With true results, the section is the article lines under the title plus a blank line, or the first article's exception. |
| PolygonReport.NewsCap | utils/polygon_mcp_util.py:259 | Only the first three articles are shown. The section raises AttributeError when one of them is not a dict. |
| PolygonReport.ArticleLine | utils/polygon_mcp_util.py:260-273 | An article prints exactly when it is a dict. Otherwise it raises AttributeError. The line is `- [title](url) - date` and a line end, with the defaults No title, # and Unknown date, and the date as `PublishedText` prints it. |
| PolygonReport.PublishedText | utils/polygon_mcp_util.py:264-271 | 'Unknown date' passes through. Another string prints as `%Y-%m-%d %H:%M` when `fromisoformat` reads it with 'Z' spelled '+00:00', and as itself when it does not. A non-string prints as its `str`, since its `replace` raises and the bare except catches it. |
| PolygonReport.ArticleDefaults | utils/polygon_mcp_util.py:260-262 | An empty article prints No title, # and Unknown date. |
| PolygonReport.ArticleLinesConcat | utils/polygon_mcp_util.py:259-273 | The article lines are the lines of the articles in order when all are dicts. Otherwise the result is AttributeError. |
| PolygonReport.ArticleLinesStep | utils/polygon_mcp_util.py:259-273 | One more article appends its line, or raises its error. |
| PolygonReport.ArticleErrorPropagates | utils/polygon_mcp_util.py:259-273 | Once an article raises, the later articles do not change the outcome. |
| PolygonReport.CompanyDefaults | utils/polygon_mcp_util.py:207-210 | An empty record prints N/A for name, market and type, USD for the currency, and no market cap. |
| PolygonReport.NullMarketRaises | utils/polygon_mcp_util.py:208 | A market given as null is not replaced by the default, so upper-casing it raises AttributeError. |
| PolygonReport.StockAnalysis | utils/polygon_mcp_util.py:194-282 | Without a ticker, the result is the rejection message. With one, the report is the header, the details, price and news sections in that order, and the disclaimer. Otherwise it is the error of the first section that raises. |
| PolygonReport.Assemble | utils/polygon_mcp_util.py:201-280 | When no section raises, the report is the header, the three sections in order and the disclaimer. Otherwise it is the error of the first section that raises. |
| PolygonReport.StockCalls | utils/polygon_mcp_util.py:196-256 | No request is made exactly when there is no ticker. Otherwise the requests are a prefix of details, previous close and news (limit 3), in that order. |
| PolygonReport.CallsMade | utils/polygon_mcp_util.py:204-256 | One to three requests are made, in order. All three are made exactly when the first two sections do not raise. |
| PolygonReport.StockAnalysisOfTicker | utils/polygon_mcp_util.py:196-201 | For a resolved ticker, the report and the requests are those of the three sections for that ticker. |
| PolygonReport.ReportFetchesAll | utils/polygon_mcp_util.py:204-256 | A finished report was made after all three requests, in order. |
| PolygonReport.AnalyzeStockQuery | utils/polygon_mcp_util.py:194-282 | The step-by-step method returns exactly `StockAnalysis`. The gateway log grows by exactly `StockCalls`. |
| PolygonReport.BuildReport | utils/polygon_mcp_util.py:201-282 | For a resolved ticker, it returns the assembled sections and logs exactly the requests made. |
| PolygonReport.AppendNews | utils/polygon_mcp_util.py:256-276 | The news section built statement by statement equals `NewsBlock`. |
| PolygonReport.AppendArticles | utils/polygon_mcp_util.py:259-273 | The loop over the articles builds exactly their lines, or stops at the first exception. |
| SimpleDemo.ExtractTicker | simple_demo.py:74-96 | A company name in the upper-cased query decides the result. Any result is one to five upper-case letters. |
| SimpleDemo.NamesTickers | simple_demo.py:82-90 | Every ticker in the demo's table is a ticker symbol. |
| SimpleDemo.MatchesIgnoringCase | simple_demo.py:78-79 | Without a company name, the demo returns the IGNORECASE standalone match in the original query, upper-cased. |
| SimpleDemo.ExtractTickerNone | simple_demo.py:92-96 | No ticker is returned exactly when no name occurs in the upper-cased query and no standalone word of two to five letters does either. |
| SimpleDemo.LeadingWordWins | simple_demo.py:78-96 | Without a company name, a leading word of two to five letters becomes the ticker, so "What's the latest on TSLA?" gives WHAT. |
| SimpleDemo.DetailsSection | simple_demo.py:108-116 | A non-dict reply raises AttributeError. Without true results it gives the warning. With true results it succeeds exactly when they are a dict. |
| SimpleDemo.DetailsSectionOfResults | simple_demo.py:109-111 | With true `results`, the section is exactly the company fields of the `results` record. |
| SimpleDemo.CompanyFields | simple_demo.py:110-114 | A record prints exactly when it is a dict. Otherwise it raises AttributeError. |
| SimpleDemo.CompanyDefaults | simple_demo.py:111-114 | An empty record prints N/A for all four fields. |
| SimpleDemo.MarketAsGiven | simple_demo.py:112 | The market is printed as given, not upper-cased. |
| SimpleDemo.QuoteSection | simple_demo.py:119-132 | A non-dict reply raises AttributeError. Without true results it gives the warning. Otherwise the section opens with the quote title. |
| SimpleDemo.QuoteSectionOfBars | simple_demo.py:120-121 | With a non-empty `results` list, the section is the lines of its first bar. |
| SimpleDemo.QuoteLines | simple_demo.py:121-130 | The bar prints exactly when its volume is a number. A string volume, including the 'N/A' default, raises ValueError. The lines show close, high and low as given after a dollar sign, and the volume through `format(v, ',')`. There is no daily-change line. |
| SimpleDemo.MissingVolumeEscapes | simple_demo.py:125-130 | A bar without a volume makes the whole analysis raise ValueError, and the news is never requested. |
| SimpleDemo.NewsSection | simple_demo.py:135-145 | A non-dict reply raises AttributeError. Without true results it gives the warning line. |
| SimpleDemo.NewsSectionFromArticles | simple_demo.py:136-143 | With true results, the section is the article lines under the title, or the first article's exception. |
| SimpleDemo.NewsCap | simple_demo.py:138 | Only the first three articles are shown. The section raises AttributeError when one is not a dict. |
| SimpleDemo.ArticleLine | simple_demo.py:139-142 | An article prints exactly when it is a dict. Otherwise it raises AttributeError. The line is `- [title](url) - published` and a line end, with the defaults No title, # and Unknown date, and the publication date as sent. |
| SimpleDemo.PublishedAsGiven | simple_demo.py:140-142 | The publication date is printed exactly as sent. |
| SimpleDemo.ArticleLinesConcat | simple_demo.py:138-142 | The article lines are the lines of the articles in order when all are dicts. Otherwise the result is AttributeError. |
| SimpleDemo.ArticleLinesStep | simple_demo.py:138-142 | One more article appends its line, or raises its error. |
| SimpleDemo.ArticleErrorPropagates | simple_demo.py:138-142 | Once an article raises, the later articles do not change the outcome. |
| SimpleDemo.Analysis | simple_demo.py:98-149 | Without a ticker, the result is the rejection message. With one, the report is the header, the details, quote and news sections in that order, and the disclaimer. Otherwise it is the error of the first section that raises. |
| SimpleDemo.Assemble | simple_demo.py:105-147 | When no section raises, the report is the header, the three sections in order and the disclaimer. Otherwise it is the error of the first section that raises. |
| SimpleDemo.Calls | simple_demo.py:100-135 | No request is made exactly when there is no ticker. Otherwise the requests are a prefix of details, quote and news, in that order. |
| SimpleDemo.AnalysisOfTicker | simple_demo.py:100-105 | For a resolved ticker, the report and the requests are those of its three sections. |
| SimpleDemo.AnalyzeQuery | simple_demo.py:98-149 | The step-by-step method returns exactly `Analysis`. The gateway log grows by exactly `Calls`. |
| SimpleDemo.BuildReport | simple_demo.py:105-149 | For a resolved ticker, it returns the assembled sections and logs exactly the requests made. |
| SimpleDemo.AppendNews | simple_demo.py:136-145 | The news section built statement by statement equals `NewsSection`. |
| SimpleDemo.AppendArticles | simple_demo.py:138-142 | The loop over the articles builds exactly their lines, or stops at the first exception. |
| SimpleDemo.PathJoin | simple_demo.py:159 | `os.path.join` of a directory without a trailing '/' and a relative name puts one '/' between them. |
| SimpleDemo.ReportPathInjective | simple_demo.py:153-159 | Two saved-report paths are equal only for the same ticker and the same second. |

## Left out

- HTTP is not modelled. This covers the session, the API key, timeouts, status codes and the error texts that the gateway builds. Each request is answered by a fixed function from the request to the decoded JSON document. An error reply is simply a document with an `error` member.
- `get_aggregates` and `get_market_status` are not called by the modelled code. Neither are the 30-day default range of `get_aggregates` and the test function at the end of the utility module. They are not part of this model.
- The actual file writes and `os.makedirs` in `save_analysis_report` are left out. Only the path returned and the text written are modelled.
- The clock reading is a `DateTime` parameter. Only years 1000 to 9999 are modelled, the range where `%Y` prints four digits everywhere.
- `datetime.fromisoformat` is the parameter `parseIso`: a partial function from text to a date-time. ISO 8601 parsing is not modelled.
- Floats are exact decimal numbers, with the value m times 10^-e. Arithmetic and formatting therefore work on exact values, not binary doubles.
  - PolygonUtil.FormatPriceReadsBack: the fixed-point formats round the exact value half-to-even. Python rounds the nearest binary double, so a value such as 2.675 may print differently.
  - PolygonUtil.VolumeMillionsReadsBack, PolygonUtil.VolumeThousandsReadsBack and the market-cap lemmas have the same limitation: exact quotients, not doubles.
  - PolygonReport.DailyChangeLine: the change and percentage are exact, where Python computes them in doubles.
- `repr` of a float is always in positional notation. The exponent form Python uses for very large and very small floats is not modelled, and neither are `inf` and `nan`.
- Numerals.FixedReadsBack and PyValues.ToFloat: `float(s)` on a string accepts only optional whitespace, an optional sign, and digits with at most one point. `inf`, `nan`, exponents and underscores are not modelled. `int(s)` likewise does not accept underscores.
- `repr` of a string does not escape quotes, backslashes or control characters.
- Case mapping, `\s`, `\w` and `\b` are ASCII only. Unicode letters and Unicode case mapping are not modelled.
- PolygonUtil.ExtractTicker: the length check at utils/polygon_mcp_util.py:165 is not a separate branch. PolygonUtil.GroupIsLetters proves that it always passes.
- PyValues.FirstThree: slicing a dict raises TypeError here, as before Python 3.12. From 3.12 the slice is hashable and the lookup raises KeyError instead. Either way the report raises.
- PolygonReport.ArticleLinesConcat and SimpleDemo.ArticleLinesConcat describe the article lines through `Lines`, the list of each article's line. They do not give a lemma about the k-th line on its own.
- PyValues.Repr: a dict whose decoded members repeat a key prints every member. A Python dict keeps each key once, at its first position with its last value. Objects with duplicate names fall outside the interoperable subset of RFC 8259 (section 4).
- `OverflowError` is not modelled. Python raises it when `float()` or true division meets an integer too large for a double; here integers and floats are exact and unbounded.
- PolygonReport.PublishedText: the date-time that `parseIso` returns is not required to be valid. Such a value, or a year below 1000, prints with whatever digits the zero-padded fields give.
- The Streamlit pages, the command-line entry points and the tests are outside the modelled core.
