/**
 * The public market-data builders of binanceapi.cpp: each validates its arguments, fills a
 * query item by item, and issues one unauthenticated GET to the futures host.
 *
 * Every builder comes twice: a function `XxxRequest` that says declaratively which request the
 * arguments call for (its query given as the list of guarded insertions `XxxFields`), and a
 * method `GetXxx` that does what the C++ does, check by check and item by item, proved to
 * produce exactly that outcome.
 */
module MarketData {

  import opened Wrappers
  import opened Decimal
  import opened Query
  import opened Http

  // ---------------------------------------------------------------------------------------
  // Connectivity and metadata: fixed requests without arguments.

  method Ping() returns (r: Request)
    ensures r.verb == GET && r.base == FuturesBase && r.path == "/fapi/v1/ping"
    ensures r.query == [] && r.headers == [] && r.body == ""
  {
    r := Public(GET, "/fapi/v1/ping", []);
  }

  method GetTime() returns (r: Request)
    ensures r.verb == GET && r.base == FuturesBase && r.path == "/fapi/v1/time"
    ensures r.query == [] && r.headers == [] && r.body == ""
  {
    r := Public(GET, "/fapi/v1/time", []);
  }

  method GetExchangeInfo() returns (r: Request)
    ensures r.verb == GET && r.base == FuturesBase && r.path == "/fapi/v1/exchangeInfo"
    ensures r.query == [] && r.headers == [] && r.body == ""
  {
    r := Public(GET, "/fapi/v1/exchangeInfo", []);
  }

  // ---------------------------------------------------------------------------------------
  // Order book depth: the limit must be one of an enumerated set.

  const DepthLimits: set<int> := {5, 10, 20, 50, 100, 500, 1000}
  const DepthLimitMessage := "Invalid limit. Valid limits are: 5, 10, 20, 50, 100, 500, 1000"

  function DepthRequest(symbol: string, limit: Int32): Outcome {
    if limit !in DepthLimits then Rejected("limit", DepthLimitMessage)
    else Issued(Public(GET, "/fapi/v1/depth",
      Params([Always("symbol", symbol), Always("limit", IntToString(limit))])))
  }

  method GetDepth(symbol: string, limit: Int32) returns (r: Outcome)
    ensures r == DepthRequest(symbol, limit)
  {
    if limit != 5 && limit != 10 && limit != 20 && limit != 50 &&
       limit != 100 && limit != 500 && limit != 1000 {
      return Rejected("limit", DepthLimitMessage);
    }
    var query: seq<Param> := [];
    ghost var written: seq<Field> := [];
    query, written := AddItem(query, written, "symbol", symbol);
    query, written := AddItem(query, written, "limit", IntToString(limit));
    r := Issued(Public(GET, "/fapi/v1/depth", query));
  }

  /**
   * getDepth sends nothing unless the limit is one of the seven allowed values, and then
   * sends exactly symbol and limit, in that order.
   */
  lemma DepthValidation(symbol: string, limit: Int32)
    ensures DepthRequest(symbol, limit).Rejected? <==> limit !in DepthLimits
    ensures DepthRequest(symbol, limit).Issued? ==>
      DepthRequest(symbol, limit).request.query == [("symbol", symbol), ("limit", IntToString(limit))]
  {
    LeadingItems([Always("symbol", symbol), Always("limit", IntToString(limit))], 2);
  }

  /**
   * The URL query of an accepted depth request is `symbol=<symbol>&limit=<limit>`, and when the
   * symbol holds no '&' or '=' it reads back to the two items.
   */
  lemma DepthQueryText(symbol: string, limit: Int32)
    requires limit in DepthLimits
    ensures QueryString(DepthRequest(symbol, limit).request.query)
            == "symbol=" + symbol + "&limit=" + IntToString(limit)
  {
    DepthValidation(symbol, limit);
    var q := [("symbol", symbol), ("limit", IntToString(limit))];
    assert "symbol" + "=" == "symbol=" && "limit" + "=" == "limit=";
    assert Items(q) == ["symbol=" + symbol, "limit=" + IntToString(limit)];
    assert Items(q)[1..] == ["limit=" + IntToString(limit)];
  }

  /** For a symbol free of '&' and '=', the depth query reads back from its text. */
  lemma DepthQueryRoundTrip(symbol: string, limit: Int32)
    requires limit in DepthLimits && Plain(symbol)
    ensures ParseQueryString(QueryString(DepthRequest(symbol, limit).request.query))
            == Some([("symbol", symbol), ("limit", IntToString(limit))])
  {
    DepthValidation(symbol, limit);
    NumberPlain(limit);
    assert Plain("symbol") && Plain("limit");
    QueryStringRoundTrip([("symbol", symbol), ("limit", IntToString(limit))]);
  }


  // ---------------------------------------------------------------------------------------
  // Trades: the limit must lie in 1..1000.

  const TradeLimitMessage := "Invalid limit. Valid limits are between 1 and 1000"

  function RecentTradesRequest(symbol: string, limit: Int32): Outcome {
    if limit < 1 || limit > 1000 then Rejected("limit", TradeLimitMessage)
    else Issued(Public(GET, "/fapi/v1/trades",
      Params([Always("symbol", symbol), Always("limit", IntToString(limit))])))
  }

  method GetRecentTrades(symbol: string, limit: Int32) returns (r: Outcome)
    ensures r == RecentTradesRequest(symbol, limit)
  {
    if limit < 1 || limit > 1000 {
      return Rejected("limit", TradeLimitMessage);
    }
    var query: seq<Param> := [];
    ghost var written: seq<Field> := [];
    query, written := AddItem(query, written, "symbol", symbol);
    query, written := AddItem(query, written, "limit", IntToString(limit));
    r := Issued(Public(GET, "/fapi/v1/trades", query));
  }

  function HistoricalTradesFields(symbol: string, limit: Int32, fromId: Int64): seq<Field> {
    [Always("symbol", symbol), Always("limit", IntToString(limit)), IfNonNegative("fromId", fromId)]
  }

  function HistoricalTradesRequest(symbol: string, limit: Int32, fromId: Int64): Outcome {
    if limit < 1 || limit > 1000 then Rejected("limit", TradeLimitMessage)
    else Issued(Public(GET, "/fapi/v1/historicalTrades", Params(HistoricalTradesFields(symbol, limit, fromId))))
  }

  method GetHistoricalTrades(symbol: string, limit: Int32, fromId: Int64) returns (r: Outcome)
    ensures r == HistoricalTradesRequest(symbol, limit, fromId)
  {
    if limit < 1 || limit > 1000 {
      return Rejected("limit", TradeLimitMessage);
    }
    var query: seq<Param> := [];
    ghost var written: seq<Field> := [];
    query, written := AddItem(query, written, "symbol", symbol);
    query, written := AddItem(query, written, "limit", IntToString(limit));
    query, written := AddIfNonNegative(query, written, "fromId", fromId);
    assert written == HistoricalTradesFields(symbol, limit, fromId);
    r := Issued(Public(GET, "/fapi/v1/historicalTrades", query));
  }

  function AggregateTradesFields(symbol: string, fromId: Int64, startTime: Int64, endTime: Int64,
                                 limit: Int32): seq<Field> {
    [Always("symbol", symbol), Always("limit", IntToString(limit)), IfNonNegative("fromId", fromId),
     IfNonNegative("startTime", startTime), IfNonNegative("endTime", endTime)]
  }

  function AggregateTradesRequest(symbol: string, fromId: Int64, startTime: Int64, endTime: Int64,
                                  limit: Int32): Outcome {
    if limit < 1 || limit > 1000 then Rejected("limit", TradeLimitMessage)
    else Issued(Public(GET, "/fapi/v1/aggTrades",
      Params(AggregateTradesFields(symbol, fromId, startTime, endTime, limit))))
  }

  method GetAggregateTrades(symbol: string, fromId: Int64, startTime: Int64, endTime: Int64, limit: Int32)
    returns (r: Outcome)
    ensures r == AggregateTradesRequest(symbol, fromId, startTime, endTime, limit)
  {
    if limit < 1 || limit > 1000 {
      return Rejected("limit", TradeLimitMessage);
    }
    var query: seq<Param> := [];
    ghost var written: seq<Field> := [];
    query, written := AddItem(query, written, "symbol", symbol);
    query, written := AddItem(query, written, "limit", IntToString(limit));
    query, written := AddIfNonNegative(query, written, "fromId", fromId);
    query, written := AddIfNonNegative(query, written, "startTime", startTime);
    query, written := AddIfNonNegative(query, written, "endTime", endTime);
    assert written == AggregateTradesFields(symbol, fromId, startTime, endTime, limit);
    r := Issued(Public(GET, "/fapi/v1/aggTrades", query));
  }

  /**
   * The three trade builders send nothing when the limit lies outside 1..1000. Otherwise symbol
   * and limit come first, in that order, and each optional id or time is sent, rendered in
   * decimal, exactly when it is non-negative.
   */
  lemma TradeLimitChecked(symbol: string, limit: Int32, fromId: Int64, startTime: Int64, endTime: Int64)
    ensures RecentTradesRequest(symbol, limit).Rejected? <==> limit < 1 || limit > 1000
    ensures HistoricalTradesRequest(symbol, limit, fromId).Rejected? <==> limit < 1 || limit > 1000
    ensures AggregateTradesRequest(symbol, fromId, startTime, endTime, limit).Rejected? <==> limit < 1 || limit > 1000
    ensures 1 <= limit <= 1000 ==>
      RecentTradesRequest(symbol, limit).request.query == [("symbol", symbol), ("limit", IntToString(limit))]
  {
    if 1 <= limit <= 1000 {
      LeadingItems([Always("symbol", symbol), Always("limit", IntToString(limit))], 2);
    }
  }

  /** A historical trades query that passes the limit check leads with symbol and limit; fromId is sent when non-negative. */
  lemma HistoricalTradesQuery(symbol: string, limit: Int32, fromId: Int64)
    requires 1 <= limit <= 1000
    ensures var q := HistoricalTradesRequest(symbol, limit, fromId).request.query;
      && |q| >= 2 && q[..2] == [("symbol", symbol), ("limit", IntToString(limit))]
      && Lookup(q, "fromId") == WhenNonNegative(fromId)
  {
    var h := HistoricalTradesFields(symbol, limit, fromId);
    LeadingItems(h, 2);
    LookupField(h, 2);
  }

  /**
   * An aggregate trades query that passes the limit check leads with symbol and limit; fromId
   * and the time window are sent exactly when non-negative.
   */
  lemma AggregateTradesQuery(symbol: string, limit: Int32, fromId: Int64, startTime: Int64, endTime: Int64)
    requires 1 <= limit <= 1000
    ensures var q := AggregateTradesRequest(symbol, fromId, startTime, endTime, limit).request.query;
      && |q| >= 2 && q[..2] == [("symbol", symbol), ("limit", IntToString(limit))]
      && Lookup(q, "fromId") == WhenNonNegative(fromId)
      && Lookup(q, "startTime") == WhenNonNegative(startTime)
      && Lookup(q, "endTime") == WhenNonNegative(endTime)
  {
    var a := AggregateTradesFields(symbol, fromId, startTime, endTime, limit);
    LeadingItems(a, 2);
    LookupField(a, 2);
    LookupField(a, 3);
    LookupField(a, 4);
  }



  // ---------------------------------------------------------------------------------------
  // Candlesticks: the limit must lie in 1..1500.

  const KlinesLimitMessage := "Invalid limit. Valid limits are between 1 and 1500"

  /** Used by getKlines and getMarkPriceKlines, which differ only in their path. */
  function KlinesFields(symbol: string, interval: string, startTime: Int64, endTime: Int64,
                        limit: Int32): seq<Field> {
    [Always("symbol", symbol), Always("interval", interval), Always("limit", IntToString(limit)),
     IfNonNegative("startTime", startTime), IfNonNegative("endTime", endTime)]
  }

  function KlinesRequest(symbol: string, interval: string, startTime: Int64, endTime: Int64,
                         limit: Int32): Outcome {
    if limit < 1 || limit > 1500 then Rejected("limit", KlinesLimitMessage)
    else Issued(Public(GET, "/fapi/v1/klines", Params(KlinesFields(symbol, interval, startTime, endTime, limit))))
  }

  method GetKlines(symbol: string, interval: string, startTime: Int64, endTime: Int64, limit: Int32)
    returns (r: Outcome)
    ensures r == KlinesRequest(symbol, interval, startTime, endTime, limit)
  {
    if limit < 1 || limit > 1500 {
      return Rejected("limit", KlinesLimitMessage);
    }
    var query: seq<Param> := [];
    ghost var written: seq<Field> := [];
    query, written := AddItem(query, written, "symbol", symbol);
    query, written := AddItem(query, written, "interval", interval);
    query, written := AddItem(query, written, "limit", IntToString(limit));
    query, written := AddIfNonNegative(query, written, "startTime", startTime);
    query, written := AddIfNonNegative(query, written, "endTime", endTime);
    assert written == KlinesFields(symbol, interval, startTime, endTime, limit);
    r := Issued(Public(GET, "/fapi/v1/klines", query));
  }

  function ContinuousKlinesFields(pair: string, contractType: string, interval: string,
                                  startTime: Int64, endTime: Int64, limit: Int32): seq<Field> {
    [Always("pair", pair), Always("contractType", contractType), Always("interval", interval),
     Always("limit", IntToString(limit)), IfNonNegative("startTime", startTime),
     IfNonNegative("endTime", endTime)]
  }

  function ContinuousKlinesRequest(pair: string, contractType: string, interval: string,
                                   startTime: Int64, endTime: Int64, limit: Int32): Outcome {
    if limit < 1 || limit > 1500 then Rejected("limit", KlinesLimitMessage)
    else Issued(Public(GET, "/fapi/v1/continuousKlines",
      Params(ContinuousKlinesFields(pair, contractType, interval, startTime, endTime, limit))))
  }

  method GetContinuousKlines(pair: string, contractType: string, interval: string,
                             startTime: Int64, endTime: Int64, limit: Int32)
    returns (r: Outcome)
    ensures r == ContinuousKlinesRequest(pair, contractType, interval, startTime, endTime, limit)
  {
    if limit < 1 || limit > 1500 {
      return Rejected("limit", KlinesLimitMessage);
    }
    var query: seq<Param> := [];
    ghost var written: seq<Field> := [];
    query, written := AddItem(query, written, "pair", pair);
    query, written := AddItem(query, written, "contractType", contractType);
    query, written := AddItem(query, written, "interval", interval);
    query, written := AddItem(query, written, "limit", IntToString(limit));
    query, written := AddIfNonNegative(query, written, "startTime", startTime);
    query, written := AddIfNonNegative(query, written, "endTime", endTime);
    assert written == ContinuousKlinesFields(pair, contractType, interval, startTime, endTime, limit);
    r := Issued(Public(GET, "/fapi/v1/continuousKlines", query));
  }

  function IndexPriceKlinesFields(pair: string, interval: string, startTime: Int64, endTime: Int64,
                                  limit: Int32): seq<Field> {
    [Always("pair", pair), Always("interval", interval), Always("limit", IntToString(limit)),
     IfNonNegative("startTime", startTime), IfNonNegative("endTime", endTime)]
  }

  function IndexPriceKlinesRequest(pair: string, interval: string, startTime: Int64, endTime: Int64,
                                   limit: Int32): Outcome {
    if limit < 1 || limit > 1500 then Rejected("limit", KlinesLimitMessage)
    else Issued(Public(GET, "/fapi/v1/indexPriceKlines",
      Params(IndexPriceKlinesFields(pair, interval, startTime, endTime, limit))))
  }

  method GetIndexPriceKlines(pair: string, interval: string, startTime: Int64, endTime: Int64, limit: Int32)
    returns (r: Outcome)
    ensures r == IndexPriceKlinesRequest(pair, interval, startTime, endTime, limit)
  {
    if limit < 1 || limit > 1500 {
      return Rejected("limit", KlinesLimitMessage);
    }
    var query: seq<Param> := [];
    ghost var written: seq<Field> := [];
    query, written := AddItem(query, written, "pair", pair);
    query, written := AddItem(query, written, "interval", interval);
    query, written := AddItem(query, written, "limit", IntToString(limit));
    query, written := AddIfNonNegative(query, written, "startTime", startTime);
    query, written := AddIfNonNegative(query, written, "endTime", endTime);
    assert written == IndexPriceKlinesFields(pair, interval, startTime, endTime, limit);
    r := Issued(Public(GET, "/fapi/v1/indexPriceKlines", query));
  }

  function MarkPriceKlinesRequest(symbol: string, interval: string, startTime: Int64, endTime: Int64,
                                  limit: Int32): Outcome {
    if limit < 1 || limit > 1500 then Rejected("limit", KlinesLimitMessage)
    else Issued(Public(GET, "/fapi/v1/markPriceKlines",
      Params(KlinesFields(symbol, interval, startTime, endTime, limit))))
  }

  method GetMarkPriceKlines(symbol: string, interval: string, startTime: Int64, endTime: Int64, limit: Int32)
    returns (r: Outcome)
    ensures r == MarkPriceKlinesRequest(symbol, interval, startTime, endTime, limit)
  {
    if limit < 1 || limit > 1500 {
      return Rejected("limit", KlinesLimitMessage);
    }
    var query: seq<Param> := [];
    ghost var written: seq<Field> := [];
    query, written := AddItem(query, written, "symbol", symbol);
    query, written := AddItem(query, written, "interval", interval);
    query, written := AddItem(query, written, "limit", IntToString(limit));
    query, written := AddIfNonNegative(query, written, "startTime", startTime);
    query, written := AddIfNonNegative(query, written, "endTime", endTime);
    assert written == KlinesFields(symbol, interval, startTime, endTime, limit);
    r := Issued(Public(GET, "/fapi/v1/markPriceKlines", query));
  }

  /**
   * What the four candlestick builders have in common once the limit has been accepted: the
   * items that name the instrument lead, as `lead`, and the shared candlestick items follow.
   */
  predicate CandlestickQuery(q: seq<Param>, lead: seq<Param>, interval: string, startTime: int, endTime: int,
                             limit: int) {
    && |lead| <= |q| && q[..|lead|] == lead
    && Lookup(q, "interval") == Some(interval)
    && Lookup(q, "limit") == Some(IntToString(limit))
    && Lookup(q, "startTime") == WhenNonNegative(startTime)
    && Lookup(q, "endTime") == WhenNonNegative(endTime)
    && Position(q, "interval") < Position(q, "limit")
  }

  /** The four candlestick builders send nothing exactly when the limit lies outside 1..1500. */
  lemma KlinesLimitChecked(symbol: string, pair: string, contractType: string, interval: string,
                           startTime: Int64, endTime: Int64, limit: Int32)
    ensures KlinesRequest(symbol, interval, startTime, endTime, limit).Rejected? <==> limit < 1 || limit > 1500
    ensures ContinuousKlinesRequest(pair, contractType, interval, startTime, endTime, limit).Rejected?
            <==> limit < 1 || limit > 1500
    ensures IndexPriceKlinesRequest(pair, interval, startTime, endTime, limit).Rejected? <==> limit < 1 || limit > 1500
    ensures MarkPriceKlinesRequest(symbol, interval, startTime, endTime, limit).Rejected? <==> limit < 1 || limit > 1500
  {
  }

  /**
   * Every candlestick query that passes the limit check starts with the instrument (the
   * symbol; the pair and contract type; the pair; the symbol), then sends the interval before
   * the limit, and the start and end times exactly when they are non-negative.
   */
  lemma CandlestickQueries(symbol: string, pair: string, contractType: string, interval: string,
                           startTime: Int64, endTime: Int64, limit: Int32)
    requires 1 <= limit <= 1500
    ensures CandlestickQuery(KlinesRequest(symbol, interval, startTime, endTime, limit).request.query,
                             [("symbol", symbol)], interval, startTime, endTime, limit)
    ensures CandlestickQuery(ContinuousKlinesRequest(pair, contractType, interval, startTime, endTime, limit).request.query,
                             [("pair", pair), ("contractType", contractType)], interval, startTime, endTime, limit)
    ensures CandlestickQuery(IndexPriceKlinesRequest(pair, interval, startTime, endTime, limit).request.query,
                             [("pair", pair)], interval, startTime, endTime, limit)
    ensures CandlestickQuery(MarkPriceKlinesRequest(symbol, interval, startTime, endTime, limit).request.query,
                             [("symbol", symbol)], interval, startTime, endTime, limit)
  {
    CandlestickTail(KlinesFields(symbol, interval, startTime, endTime, limit), [("symbol", symbol)],
                    interval, startTime, endTime, limit);
    CandlestickTail(ContinuousKlinesFields(pair, contractType, interval, startTime, endTime, limit),
                    [("pair", pair), ("contractType", contractType)], interval, startTime, endTime, limit);
    CandlestickTail(IndexPriceKlinesFields(pair, interval, startTime, endTime, limit), [("pair", pair)],
                    interval, startTime, endTime, limit);
  }


  /** A candlestick field list: unconditional leading items, then interval, limit, start, end. */
  lemma CandlestickTail(fs: seq<Field>, lead: seq<Param>, interval: string, startTime: int, endTime: int,
                        limit: int)
    requires DistinctKeys(fs) && |lead| + 4 == |fs|
    requires forall i :: 0 <= i < |lead| ==> fs[i] == Always(lead[i].0, lead[i].1)
    requires fs[|lead|..] == [Always("interval", interval), Always("limit", IntToString(limit)),
                              IfNonNegative("startTime", startTime), IfNonNegative("endTime", endTime)]
    ensures CandlestickQuery(Params(fs), lead, interval, startTime, endTime, limit)
  {
    var p := |lead|;
    LeadingItems(fs, p);
    assert Params(fs)[..p] == lead;
    assert fs[p] == fs[p..][0] && fs[p + 1] == fs[p..][1] && fs[p + 2] == fs[p..][2] && fs[p + 3] == fs[p..][3];
    LookupField(fs, p);
    LookupField(fs, p + 1);
    LookupField(fs, p + 2);
    LookupField(fs, p + 3);
    FieldOrder(fs, p, p + 1);
  }

  // ---------------------------------------------------------------------------------------
  // Builders whose only argument is an optional symbol filter: without a symbol they ask
  // for every symbol, and the URL then carries no query at all.

  function SymbolFilterRequest(path: string, symbol: string): Outcome {
    Issued(Public(GET, path, Params([IfNonEmpty("symbol", symbol)])))
  }

  /** The steps the six symbol-filter builders share; they differ only in the path. */
  method SymbolFilter(path: string, symbol: string) returns (r: Outcome)
    ensures r == SymbolFilterRequest(path, symbol)
  {
    var query: seq<Param> := [];
    ghost var written: seq<Field> := [];
    query, written := AddIfNonEmpty(query, written, "symbol", symbol);
    assert written == [IfNonEmpty("symbol", symbol)];
    r := Issued(Public(GET, path, query));
  }

  method GetPremiumIndex(symbol: string) returns (r: Outcome)
    ensures r == SymbolFilterRequest("/fapi/v1/premiumIndex", symbol)
  {
    r := SymbolFilter("/fapi/v1/premiumIndex", symbol);
  }

  method Get24hrTicker(symbol: string) returns (r: Outcome)
    ensures r == SymbolFilterRequest("/fapi/v1/ticker/24hr", symbol)
  {
    r := SymbolFilter("/fapi/v1/ticker/24hr", symbol);
  }

  method GetLatestPrice(symbol: string) returns (r: Outcome)
    ensures r == SymbolFilterRequest("/fapi/v1/ticker/price", symbol)
  {
    r := SymbolFilter("/fapi/v1/ticker/price", symbol);
  }

  method GetBookTicker(symbol: string) returns (r: Outcome)
    ensures r == SymbolFilterRequest("/fapi/v1/ticker/bookTicker", symbol)
  {
    r := SymbolFilter("/fapi/v1/ticker/bookTicker", symbol);
  }

  method GetIndexInfo(symbol: string) returns (r: Outcome)
    ensures r == SymbolFilterRequest("/fapi/v1/indexInfo", symbol)
  {
    r := SymbolFilter("/fapi/v1/indexInfo", symbol);
  }

  method GetAssetIndex(symbol: string) returns (r: Outcome)
    ensures r == SymbolFilterRequest("/fapi/v1/assetIndex", symbol)
  {
    r := SymbolFilter("/fapi/v1/assetIndex", symbol);
  }

  /**
   * A symbol filter is never refused; an empty symbol sends the bare path, any other symbol
   * sends exactly `?symbol=<symbol>`.
   */
  lemma SymbolFilterQuery(path: string, symbol: string)
    ensures SymbolFilterRequest(path, symbol).Issued?
    ensures var rq := SymbolFilterRequest(path, symbol).request;
      && (symbol == "" ==> rq.query == [] && UrlText(rq.base, rq.path, rq.query) == FuturesBase + path)
      && (symbol != "" ==> rq.query == [("symbol", symbol)]
                           && UrlText(rq.base, rq.path, rq.query) == FuturesBase + path + "?symbol=" + symbol)
  {
    ParamsSnoc([], IfNonEmpty("symbol", symbol));
    assert [] + [IfNonEmpty("symbol", symbol)] == [IfNonEmpty("symbol", symbol)];
    if symbol != "" {
      assert "symbol" + "=" == "symbol=";
      assert Items([("symbol", symbol)]) == ["symbol=" + symbol];
    }
  }

  // ---------------------------------------------------------------------------------------
  // Funding rate history: every argument optional, the limit dropped unless in 1..1000.

  function FundingRateFields(symbol: string, startTime: Int64, endTime: Int64, limit: Int32): seq<Field> {
    [IfNonEmpty("symbol", symbol), IfNonNegative("startTime", startTime),
     IfNonNegative("endTime", endTime), IfPositiveAtMost("limit", limit, 1000)]
  }

  function FundingRateRequest(symbol: string, startTime: Int64, endTime: Int64, limit: Int32): Outcome {
    Issued(Public(GET, "/fapi/v1/fundingRate", Params(FundingRateFields(symbol, startTime, endTime, limit))))
  }

  method GetFundingRate(symbol: string, startTime: Int64, endTime: Int64, limit: Int32) returns (r: Outcome)
    ensures r == FundingRateRequest(symbol, startTime, endTime, limit)
  {
    var query: seq<Param> := [];
    ghost var written: seq<Field> := [];
    query, written := AddIfNonEmpty(query, written, "symbol", symbol);
    query, written := AddIfNonNegative(query, written, "startTime", startTime);
    query, written := AddIfNonNegative(query, written, "endTime", endTime);
    query, written := AddIfPositiveAtMost(query, written, "limit", limit, 1000);
    assert written == FundingRateFields(symbol, startTime, endTime, limit);
    r := Issued(Public(GET, "/fapi/v1/fundingRate", query));
  }

  /** getFundingRate never refuses; an out-of-range limit is silently left out. */
  lemma FundingRateOptional(symbol: string, startTime: Int64, endTime: Int64, limit: Int32)
    ensures FundingRateRequest(symbol, startTime, endTime, limit).Issued?
    ensures var q := FundingRateRequest(symbol, startTime, endTime, limit).request.query;
      && Lookup(q, "symbol") == WhenNonEmpty(symbol)
      && Lookup(q, "startTime") == WhenNonNegative(startTime)
      && Lookup(q, "endTime") == WhenNonNegative(endTime)
      && Lookup(q, "limit") == WhenPositiveAtMost(limit, 1000)
  {
    LookupFields(FundingRateFields(symbol, startTime, endTime, limit));
    var fs := FundingRateFields(symbol, startTime, endTime, limit);
    assert fs[0].key == "symbol" && fs[1].key == "startTime" && fs[2].key == "endTime" && fs[3].key == "limit";
  }

  // ---------------------------------------------------------------------------------------
  // Open interest: the symbol is mandatory.

  const OpenInterestMessage := "Symbol is mandatory for open interest request"

  function OpenInterestRequest(symbol: string): Outcome {
    if symbol == "" then Rejected("symbol", OpenInterestMessage)
    else Issued(Public(GET, "/fapi/v1/openInterest", Params([Always("symbol", symbol)])))
  }

  method GetOpenInterest(symbol: string) returns (r: Outcome)
    ensures r == OpenInterestRequest(symbol)
  {
    if symbol == "" {
      return Rejected("symbol", OpenInterestMessage);
    }
    var query: seq<Param> := [];
    ghost var written: seq<Field> := [];
    query, written := AddItem(query, written, "symbol", symbol);
    assert written == [Always("symbol", symbol)];
    r := Issued(Public(GET, "/fapi/v1/openInterest", query));
  }

  lemma OpenInterestMandatory(symbol: string)
    ensures OpenInterestRequest(symbol).Rejected? <==> symbol == ""
    ensures symbol != "" ==> OpenInterestRequest(symbol).request.query == [("symbol", symbol)]
  {
    LeadingItems([Always("symbol", symbol)], 1);
  }

  // ---------------------------------------------------------------------------------------
  // Trading statistics (open interest history and the four long/short ratios): symbol, then
  // period, are mandatory; the limit is dropped unless in 1..500.

  /** The five statistics endpoints, each with its path and the name its messages use. */
  datatype Statistic =
    | OpenInterestHist
    | TopLongShortAccountRatio
    | TopLongShortPositionRatio
    | GlobalLongShortAccountRatio
    | TakerLongShortRatio
  {
    function Path(): string {
      match this
      case OpenInterestHist => "/futures/data/openInterestHist"
      case TopLongShortAccountRatio => "/futures/data/topLongShortAccountRatio"
      case TopLongShortPositionRatio => "/futures/data/topLongShortPositionRatio"
      case GlobalLongShortAccountRatio => "/futures/data/globalLongShortAccountRatio"
      case TakerLongShortRatio => "/futures/data/takerlongshortRatio"
    }

    function Name(): string {
      match this
      case OpenInterestHist => "open interest history"
      case TopLongShortAccountRatio => "top long short account ratio"
      case TopLongShortPositionRatio => "top long short position ratio"
      case GlobalLongShortAccountRatio => "global long short account ratio"
      case TakerLongShortRatio => "taker long short ratio"
    }
  }

  function StatisticFields(symbol: string, period: string, limit: Int64, startTime: Int64, endTime: Int64): seq<Field> {
    [Always("symbol", symbol), Always("period", period), IfPositiveAtMost("limit", limit, 500),
     IfNonNegative("startTime", startTime), IfNonNegative("endTime", endTime)]
  }

  function StatisticRequest(stat: Statistic, symbol: string, period: string, limit: Int64,
                            startTime: Int64, endTime: Int64): Outcome {
    if symbol == "" then Rejected("symbol", "Symbol is mandatory for " + stat.Name() + " request")
    else if period == "" then Rejected("period", "Period is mandatory for " + stat.Name() + " request")
    else Issued(Public(GET, stat.Path(), Params(StatisticFields(symbol, period, limit, startTime, endTime))))
  }

  /** The steps the five statistics builders share; they differ only in path and wording. */
  method Statistics(stat: Statistic, symbol: string, period: string, limit: Int64,
                    startTime: Int64, endTime: Int64) returns (r: Outcome)
    ensures r == StatisticRequest(stat, symbol, period, limit, startTime, endTime)
  {
    if symbol == "" {
      return Rejected("symbol", "Symbol is mandatory for " + stat.Name() + " request");
    }
    if period == "" {
      return Rejected("period", "Period is mandatory for " + stat.Name() + " request");
    }
    var query: seq<Param> := [];
    ghost var written: seq<Field> := [];
    query, written := AddItem(query, written, "symbol", symbol);
    query, written := AddItem(query, written, "period", period);
    query, written := AddIfPositiveAtMost(query, written, "limit", limit, 500);
    query, written := AddIfNonNegative(query, written, "startTime", startTime);
    query, written := AddIfNonNegative(query, written, "endTime", endTime);
    assert written == StatisticFields(symbol, period, limit, startTime, endTime);
    r := Issued(Public(GET, stat.Path(), query));
  }

  method GetOpenInterestHist(symbol: string, period: string, limit: Int64, startTime: Int64, endTime: Int64)
    returns (r: Outcome)
    ensures r == StatisticRequest(OpenInterestHist, symbol, period, limit, startTime, endTime)
  {
    r := Statistics(OpenInterestHist, symbol, period, limit, startTime, endTime);
  }

  method GetTopLongShortAccountRatio(symbol: string, period: string, limit: Int64, startTime: Int64, endTime: Int64)
    returns (r: Outcome)
    ensures r == StatisticRequest(TopLongShortAccountRatio, symbol, period, limit, startTime, endTime)
  {
    r := Statistics(TopLongShortAccountRatio, symbol, period, limit, startTime, endTime);
  }

  method GetTopLongShortPositionRatio(symbol: string, period: string, limit: Int64, startTime: Int64, endTime: Int64)
    returns (r: Outcome)
    ensures r == StatisticRequest(TopLongShortPositionRatio, symbol, period, limit, startTime, endTime)
  {
    r := Statistics(TopLongShortPositionRatio, symbol, period, limit, startTime, endTime);
  }

  method GetGlobalLongShortAccountRatio(symbol: string, period: string, limit: Int64, startTime: Int64, endTime: Int64)
    returns (r: Outcome)
    ensures r == StatisticRequest(GlobalLongShortAccountRatio, symbol, period, limit, startTime, endTime)
  {
    r := Statistics(GlobalLongShortAccountRatio, symbol, period, limit, startTime, endTime);
  }

  method GetTakerLongShortRatio(symbol: string, period: string, limit: Int64, startTime: Int64, endTime: Int64)
    returns (r: Outcome)
    ensures r == StatisticRequest(TakerLongShortRatio, symbol, period, limit, startTime, endTime)
  {
    r := Statistics(TakerLongShortRatio, symbol, period, limit, startTime, endTime);
  }

  /**
   * A statistics request is refused exactly when the symbol or the period is empty, the
   * symbol being checked first; otherwise symbol and period lead the query and the limit is
   * sent only when it lies in 1..500.
   */
  lemma StatisticValidation(stat: Statistic, symbol: string, period: string, limit: Int64,
                            startTime: Int64, endTime: Int64)
    ensures var r := StatisticRequest(stat, symbol, period, limit, startTime, endTime);
      && (r.Rejected? <==> symbol == "" || period == "")
      && (symbol == "" ==> r.argument == "symbol")
      && (symbol != "" && period == "" ==> r.argument == "period")
    ensures symbol != "" && period != "" ==>
      var q := StatisticRequest(stat, symbol, period, limit, startTime, endTime).request.query;
      && |q| >= 2 && q[..2] == [("symbol", symbol), ("period", period)]
      && Lookup(q, "limit") == WhenPositiveAtMost(limit, 500)
      && Lookup(q, "startTime") == WhenNonNegative(startTime)
      && Lookup(q, "endTime") == WhenNonNegative(endTime)
  {
    if symbol != "" && period != "" {
      var fs := StatisticFields(symbol, period, limit, startTime, endTime);
      LookupField(fs, 2);
      LookupField(fs, 3);
      LookupField(fs, 4);
      LeadingItems(fs, 2);
    }
  }

  // ---------------------------------------------------------------------------------------
  // Leveraged-token candlesticks: symbol, then interval, are mandatory; the limit is dropped
  // unless in 1..1000, and is sent last.

  const LvtSymbolMessage := "Symbol is mandatory for LVT klines request"
  const LvtIntervalMessage := "Interval is mandatory for LVT klines request"

  function LvtKlinesFields(symbol: string, interval: string, startTime: Int64, endTime: Int64, limit: Int32): seq<Field> {
    [Always("symbol", symbol), Always("interval", interval), IfNonNegative("startTime", startTime),
     IfNonNegative("endTime", endTime), IfPositiveAtMost("limit", limit, 1000)]
  }

  function LvtKlinesRequest(symbol: string, interval: string, startTime: Int64, endTime: Int64, limit: Int32): Outcome {
    if symbol == "" then Rejected("symbol", LvtSymbolMessage)
    else if interval == "" then Rejected("interval", LvtIntervalMessage)
    else Issued(Public(GET, "/fapi/v1/lvtKlines", Params(LvtKlinesFields(symbol, interval, startTime, endTime, limit))))
  }

  method GetLvtKlines(symbol: string, interval: string, startTime: Int64, endTime: Int64, limit: Int32)
    returns (r: Outcome)
    ensures r == LvtKlinesRequest(symbol, interval, startTime, endTime, limit)
  {
    if symbol == "" {
      return Rejected("symbol", LvtSymbolMessage);
    }
    if interval == "" {
      return Rejected("interval", LvtIntervalMessage);
    }
    var query: seq<Param> := [];
    ghost var written: seq<Field> := [];
    query, written := AddItem(query, written, "symbol", symbol);
    query, written := AddItem(query, written, "interval", interval);
    query, written := AddIfNonNegative(query, written, "startTime", startTime);
    query, written := AddIfNonNegative(query, written, "endTime", endTime);
    query, written := AddIfPositiveAtMost(query, written, "limit", limit, 1000);
    assert written == LvtKlinesFields(symbol, interval, startTime, endTime, limit);
    r := Issued(Public(GET, "/fapi/v1/lvtKlines", query));
  }

  /**
   * getLvtKlines is refused exactly when symbol or interval is empty, symbol first; otherwise
   * the limit is sent only in 1..1000, and when sent it comes after both times.
   */
  lemma LvtKlinesValidation(symbol: string, interval: string, startTime: Int64, endTime: Int64, limit: Int32)
    ensures var r := LvtKlinesRequest(symbol, interval, startTime, endTime, limit);
      && (r.Rejected? <==> symbol == "" || interval == "")
      && (symbol == "" ==> r == Rejected("symbol", LvtSymbolMessage))
      && (symbol != "" && interval == "" ==> r == Rejected("interval", LvtIntervalMessage))
    ensures symbol != "" && interval != "" ==>
      var q := LvtKlinesRequest(symbol, interval, startTime, endTime, limit).request.query;
      && Lookup(q, "startTime") == WhenNonNegative(startTime)
      && Lookup(q, "endTime") == WhenNonNegative(endTime)
      && Lookup(q, "limit") == WhenPositiveAtMost(limit, 1000)
      && (0 <= startTime && 0 < limit <= 1000 ==> Position(q, "startTime") < Position(q, "limit"))
      && (0 <= endTime && 0 < limit <= 1000 ==> Position(q, "endTime") < Position(q, "limit"))
  {
    if symbol != "" && interval != "" {
      var fs := LvtKlinesFields(symbol, interval, startTime, endTime, limit);
      LookupField(fs, 2);
      LookupField(fs, 3);
      LookupField(fs, 4);
      if 0 < limit <= 1000 {
        if 0 <= startTime {
          FieldOrder(fs, 2, 4);
        }
        if 0 <= endTime {
          FieldOrder(fs, 3, 4);
        }
      }
    }
  }
}
