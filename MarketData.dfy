/**
 * The market-data gateway the report code calls. Its HTTP work is outside the
 * model: each request is answered by the decoded JSON document of the response,
 * or by a `{"error": ...}` document when the request fails, and never raises.
 * A gateway's answers are a fixed function of the request; a ghost log records
 * the requests made, in order.
 */
module MarketData {
  import opened PyValues

  /** A request to the provider. */
  datatype Call =
    | TickerDetails(ticker: string)          // GET /v3/reference/tickers/{ticker}
    | PreviousClose(ticker: string)          // GET /v2/aggs/ticker/{ticker}/prev
    | News(ticker: string, limit: int)       // GET /v2/reference/news?ticker=..&limit=..

  class Gateway {
    /** The document the provider answers each request with. */
    const answer: Call -> Json
    /** The requests made so far, oldest first. */
    ghost var log: seq<Call>

    constructor(answer: Call -> Json)
      ensures this.answer == answer && log == []
    {
      this.answer := answer;
      log := [];
    }

    /** `get_ticker_details(ticker)` */
    method GetTickerDetails(ticker: string) returns (r: Json)
      modifies this
      ensures r == answer(TickerDetails(ticker))
      ensures log == old(log) + [TickerDetails(ticker)]
    {
      r := answer(TickerDetails(ticker));
      log := log + [TickerDetails(ticker)];
    }

    /** `get_previous_close(ticker)`, and `get_latest_quote(ticker)`, which requests the
        same endpoint. */
    method GetPreviousClose(ticker: string) returns (r: Json)
      modifies this
      ensures r == answer(PreviousClose(ticker))
      ensures log == old(log) + [PreviousClose(ticker)]
    {
      r := answer(PreviousClose(ticker));
      log := log + [PreviousClose(ticker)];
    }

    /** `get_news(ticker, limit)` */
    method GetNews(ticker: string, limit: int) returns (r: Json)
      modifies this
      ensures r == answer(News(ticker, limit))
      ensures log == old(log) + [News(ticker, limit)]
    {
      r := answer(News(ticker, limit));
      log := log + [News(ticker, limit)];
    }
  }
}
