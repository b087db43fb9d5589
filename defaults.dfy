/**
 * The default arguments binanceapi.h declares, and what a call that relies on them sends.
 * Throughout, -1 is the "not given" sentinel of the optional ids, times, windows and
 * timestamps, and an empty string that of the optional texts.
 */
module Defaults {

  import opened Wrappers
  import opened Decimal
  import opened Query
  import opened Http
  import opened Common
  import opened MarketData
  import opened Trading
  import opened Account

  const Unset := -1

  const DepthLimit := 500
  const TradeLimit := 500
  const CandlestickLimit := 500
  const FundingRateLimit := 100
  const StatisticLimit := 30
  const LvtLimit := 500
  const AmendmentLimit := 50
  const AllOrdersLimit := -1
  const MarginHistoryLimit := 500

  lemma DefaultTexts()
    ensures IntToString(500) == "500" && IntToString(100) == "100" && IntToString(30) == "30"
    ensures IntToString(50) == "50" && IntToString(-1) == "-1"
  {
  }

  /** With every field from `n` on left at its sentinel, the query is that of the first `n` fields. */
  lemma SentinelTail(fs: seq<Field>, n: nat)
    requires n <= |fs|
    requires forall i :: n <= i < |fs| ==> !fs[i].Present()
    ensures Params(fs) == Params(fs[..n])
  {
    ParamsAppend(fs[..n], fs[n..]);
    assert fs[..n] + fs[n..] == fs;
    EmptyParams(fs[n..]);
  }

  /** The default depth and trade limits pass validation and are sent as "500"; fromId and times are left out. */
  lemma TradeDefaults(symbol: string)
    ensures DepthRequest(symbol, DepthLimit).Issued?
    ensures DepthRequest(symbol, DepthLimit).request.query == [("symbol", symbol), ("limit", "500")]
    ensures RecentTradesRequest(symbol, TradeLimit).request.query == [("symbol", symbol), ("limit", "500")]
    ensures HistoricalTradesRequest(symbol, TradeLimit, Unset).Issued?
    ensures HistoricalTradesRequest(symbol, TradeLimit, Unset).request.query == [("symbol", symbol), ("limit", "500")]
    ensures AggregateTradesRequest(symbol, Unset, Unset, Unset, TradeLimit).request.query
            == [("symbol", symbol), ("limit", "500")]
  {
    DefaultTexts();
    DepthValidation(symbol, DepthLimit);
    TradeLimitChecked(symbol, TradeLimit, Unset, Unset, Unset);
    var h := HistoricalTradesFields(symbol, TradeLimit, Unset);
    SentinelTail(h, 2);
    LeadingItems(h[..2], 2);
    var a := AggregateTradesFields(symbol, Unset, Unset, Unset, TradeLimit);
    SentinelTail(a, 2);
    LeadingItems(a[..2], 2);
  }

  /** The default candlestick limit passes validation: "500" is sent and neither time is. */
  lemma CandlestickDefaults(symbol: string, pair: string, contractType: string, interval: string)
    ensures KlinesRequest(symbol, interval, Unset, Unset, CandlestickLimit).Issued?
    ensures ContinuousKlinesRequest(pair, contractType, interval, Unset, Unset, CandlestickLimit).Issued?
    ensures var q := KlinesRequest(symbol, interval, Unset, Unset, CandlestickLimit).request.query;
      Lookup(q, "limit") == Some("500") && Lookup(q, "startTime") == None && Lookup(q, "endTime") == None
    ensures var q := ContinuousKlinesRequest(pair, contractType, interval, Unset, Unset, CandlestickLimit).request.query;
      Lookup(q, "limit") == Some("500") && Lookup(q, "startTime") == None && Lookup(q, "endTime") == None
  {
    DefaultTexts();
    KlinesLimitChecked(symbol, pair, contractType, interval, Unset, Unset, CandlestickLimit);
    CandlestickQueries(symbol, pair, contractType, interval, Unset, Unset, CandlestickLimit);
  }

  /** With every default, the funding rate history asks for the last 100 entries of every symbol. */
  lemma FundingRateDefaults()
    ensures var q := FundingRateRequest("", Unset, Unset, FundingRateLimit).request.query;
      && Lookup(q, "limit") == Some("100")
      && Lookup(q, "symbol") == None && Lookup(q, "startTime") == None && Lookup(q, "endTime") == None
  {
    DefaultTexts();
    FundingRateOptional("", Unset, Unset, FundingRateLimit);
  }

  /** The default statistics limit of 30 lies in 1..500 and is sent; the times are not. */
  lemma StatisticDefaults(stat: Statistic, symbol: string, period: string)
    requires symbol != "" && period != ""
    ensures var q := StatisticRequest(stat, symbol, period, StatisticLimit, Unset, Unset).request.query;
      Lookup(q, "limit") == Some("30") && Lookup(q, "startTime") == None && Lookup(q, "endTime") == None
  {
    DefaultTexts();
    StatisticValidation(stat, symbol, period, StatisticLimit, Unset, Unset);
  }

  /** The default leveraged-token limit of 500 lies in 1..1000 and is sent. */
  lemma LvtDefaults(symbol: string, interval: string)
    requires symbol != "" && interval != ""
    ensures Lookup(LvtKlinesRequest(symbol, interval, Unset, Unset, LvtLimit).request.query, "limit") == Some("500")
  {
    DefaultTexts();
    LvtKlinesValidation(symbol, interval, Unset, Unset, LvtLimit);
  }

  /**
   * The symbol-filter calls (the premium index, the three tickers, the index info and the
   * asset index) default to no symbol, and then send no query at all.
   */
  lemma SymbolFilterDefaults(path: string)
    ensures SymbolFilterRequest(path, "").request.query == []
  {
    SymbolFilterQuery(path, "");
  }

  /** getBalance and the v2 getAccountInformation with both defaults send no query. */
  lemma WindowDefaults(creds: Credentials, path: string)
    ensures WindowRequest(creds, path, Unset, Unset).request.query == []
  {
    WindowKeys(Unset, Unset);
  }

  /**
   * getOpenOrders and getPositionRisk with every default send no query. The other calls of
   * this shape (the leverage bracket, the ADL quantile and the trading status) declare no
   * defaults; called with an empty symbol and negative window values they send none either.
   */
  lemma SymbolWindowDefaults(creds: Credentials, path: string)
    ensures SymbolWindowRequest(creds, path, "", Unset, Unset).request.query == []
  {
    SymbolWindowKeys(creds, path, "", Unset, Unset);
  }

  /** With its defaults the position-mode query is empty, so the signed text is the bare URL. */
  lemma PositionModeDefaults(creds: Credentials, mac: Mac)
    ensures var rq := PositionModeRequest(creds, mac, Unset, Unset).request;
      rq.query == [] && Lookup(rq.headers, SignatureHeader) == Some(mac(FuturesBase + rq.path, creds.apiSecret))
  {
    WindowKeys(Unset, Unset);
    PositionModeSignature(creds, mac, Unset, Unset);
    var rq := PositionModeRequest(creds, mac, Unset, Unset).request;
    assert FuturesBase + rq.path + "" == FuturesBase + rq.path;
  }

  /** Unlike every other builder, the mode switches send the -1 defaults as they are. */
  lemma ModeSwitchDefaults(creds: Credentials, mac: Mac, flag: bool)
    ensures ParseQueryString(ModeRequest(creds, mac, "/fapi/v1/positionSide/dual", "dualSidePosition", flag,
                                         Unset, Unset).request.body)
            == Some([("dualSidePosition", FlagText(flag)), ("recvWindow", "-1"), ("timestamp", "-1")])
    ensures ParseQueryString(ModeRequest(creds, mac, "/fapi/v1/multiAssetsMargin", "multiAssetsMargin", flag,
                                         Unset, Unset).request.body)
            == Some([("multiAssetsMargin", FlagText(flag)), ("recvWindow", "-1"), ("timestamp", "-1")])
  {
    DefaultTexts();
    ModeSwitchSigned(creds, mac, flag, Unset, Unset);
  }

  /** An order looked up, cancelled or listed with its defaults sends the symbol alone. */
  lemma OrderDefaults(creds: Credentials, verb: Verb, path: string, symbol: string)
    ensures OrderReferenceRequest(creds, verb, path, symbol, Unset, "", Unset, Unset).request.query
            == [("symbol", symbol)]
    ensures CancelAllRequest(creds, symbol, Unset, Unset).request.query == [("symbol", symbol)]
    ensures CancelBatchRequest(creds, symbol, [], [], Unset, Unset).request.query == [("symbol", symbol)]
    ensures AllOrdersRequest(creds, symbol, Unset, Unset, Unset, AllOrdersLimit, Unset, Unset).request.query
            == [("symbol", symbol)]
  {
    var o := OrderReferenceFields(symbol, Unset, "", Unset, Unset);
    SentinelTail(o, 1);
    LeadingItems(o[..1], 1);
    var c := CancelAllFields(symbol, Unset, Unset);
    SentinelTail(c, 1);
    LeadingItems(c[..1], 1);
    var b := CancelBatchFields(symbol, [], [], Unset, Unset);
    SentinelTail(b, 1);
    LeadingItems(b[..1], 1);
    var a := AllOrdersFields(symbol, Unset, Unset, Unset, AllOrdersLimit, Unset, Unset);
    SentinelTail(a, 1);
    LeadingItems(a[..1], 1);
  }

  /** The default amendment-history limit of 50 is sent; the other defaulted keys are not. */
  lemma AmendmentDefaults(creds: Credentials, symbol: string)
    ensures var q := AmendmentHistoryRequest(creds, symbol, Unset, "", Unset, Unset, AmendmentLimit,
                                             Unset, Unset).request.query;
      && Lookup(q, "limit") == Some("50")
      && Lookup(q, "orderId") == None && Lookup(q, "origClientOrderId") == None
      && Lookup(q, "startTime") == None && Lookup(q, "endTime") == None
  {
    DefaultTexts();
    AmendmentHistoryLimit(creds, symbol, Unset, "", Unset, Unset, AmendmentLimit, Unset, Unset);
  }

  /** The default margin-history limit of 500 is sent; the times are not. */
  lemma MarginHistoryDefaults(creds: Credentials, symbol: string, marginType: Int32)
    ensures var q := MarginHistoryRequest(creds, symbol, marginType, Unset, Unset, MarginHistoryLimit,
                                          Unset, Unset).request.query;
      Lookup(q, "limit") == Some("500") && Lookup(q, "startTime") == None && Lookup(q, "endTime") == None
  {
    DefaultTexts();
    MarginHistoryKeys(creds, symbol, marginType, Unset, Unset, MarginHistoryLimit, Unset, Unset);
  }
}
