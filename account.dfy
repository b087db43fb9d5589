/**
 * The account and position builders of binanceapi.cpp: the two mode switches that send a
 * fixed-format signed form, the position-mode query signed over its whole URL, the spot
 * account query whose signature is a query item, and the keyed account queries.
 */
module Account {

  import opened Wrappers
  import opened Decimal
  import opened Text
  import opened Query
  import opened Http
  import opened Common

  // ---------------------------------------------------------------------------------------
  // Mode switches (POST /fapi/v1/positionSide/dual, POST /fapi/v1/multiAssetsMargin): the
  // payload is a format string with all three fields, whatever their values.

  function FlagText(b: bool): string {
    if b then "true" else "false"
  }

  /** `name=<true|false>&recvWindow=<n>&timestamp=<n>`, the sentinels included. */
  function ModePayload(name: string, flag: bool, recvWindow: Int64, timestamp: Int64): string {
    name + "=" + FlagText(flag) + "&recvWindow=" + IntToString(recvWindow) + "&timestamp=" + IntToString(timestamp)
  }

  /** The items a mode payload stands for, in the order they are written. */
  function ModeItems(name: string, flag: bool, recvWindow: Int64, timestamp: Int64): seq<Param> {
    [(name, FlagText(flag)), ("recvWindow", IntToString(recvWindow)), ("timestamp", IntToString(timestamp))]
  }

  /** The payload is the query text of its three items. */
  lemma ModePayloadItems(name: string, flag: bool, recvWindow: Int64, timestamp: Int64)
    ensures ModePayload(name, flag, recvWindow, timestamp) == QueryString(ModeItems(name, flag, recvWindow, timestamp))
  {
    var f, rw, ts := FlagText(flag), IntToString(recvWindow), IntToString(timestamp);
    ThreeItems(name, f, "recvWindow", rw, "timestamp", ts);
    assert "&recvWindow=" + rw == "&" + "recvWindow" + "=" + rw;
    assert "&timestamp=" + ts == "&" + "timestamp" + "=" + ts;
  }

  /** Three items join as `k1=v1&k2=v2&k3=v3`. */
  lemma ThreeItems(k1: string, v1: string, k2: string, v2: string, k3: string, v3: string)
    ensures QueryString([(k1, v1), (k2, v2), (k3, v3)]) == k1 + "=" + v1 + ("&" + k2 + "=" + v2) + ("&" + k3 + "=" + v3)
  {
    var a, b, c := k1 + "=" + v1, k2 + "=" + v2, k3 + "=" + v3;
    assert Items([(k1, v1), (k2, v2), (k3, v3)]) == [a, b, c];
    assert [a, b, c][1..] == [b, c] && [b, c][1..] == [c];
    assert Join([b, c], '&') == b + ['&'] + c;
    assert Join([a, b, c], '&') == a + ['&'] + (b + ['&'] + c);
  }

  /**
   * For a field name free of '&' and '=', a mode payload reads back to the flag, recvWindow
   * and timestamp, always all three: a negative window or timestamp is sent as its digits.
   */
  lemma ModePayloadRoundTrip(name: string, flag: bool, recvWindow: Int64, timestamp: Int64)
    requires Plain(name)
    ensures ParseQueryString(ModePayload(name, flag, recvWindow, timestamp))
            == Some([(name, FlagText(flag)), ("recvWindow", IntToString(recvWindow)),
                     ("timestamp", IntToString(timestamp))])
  {
    ModePayloadItems(name, flag, recvWindow, timestamp);
    assert Plain("recvWindow") && Plain("timestamp") && Plain("true") && Plain("false");
    NumberPlain(recvWindow);
    NumberPlain(timestamp);
    QueryStringRoundTrip(ModeItems(name, flag, recvWindow, timestamp));
  }

  /** The signed form request of a mode switch: no URL query, the payload as body and signed text. */
  function ModeRequest(creds: Credentials, mac: Mac, path: string, name: string, flag: bool,
                       recvWindow: Int64, timestamp: Int64): Outcome {
    Issued(FormSigned(creds, mac, POST, path, [], ModePayload(name, flag, recvWindow, timestamp)))
  }

  /** The steps changePositionMode and changeMultiAssetsMode share. */
  method ChangeMode(creds: Credentials, mac: Mac, path: string, name: string, flag: bool,
                    recvWindow: Int64, timestamp: Int64) returns (r: Outcome)
    ensures r == ModeRequest(creds, mac, path, name, flag, recvWindow, timestamp)
  {
    var flagText := if flag then "true" else "false";
    var timestampText := IntToString(timestamp);
    var payload := name + "=" + flagText + "&recvWindow=" + IntToString(recvWindow) + "&timestamp=" + timestampText;
    var headers := [(ApiKeyHeader, creds.apiKey), FormContentType];
    headers := headers + [(SignatureHeader, mac(payload, creds.apiSecret))];
    r := Issued(Request(POST, FuturesBase, path, [], headers, payload));
  }

  method ChangePositionMode(creds: Credentials, mac: Mac, dualSidePosition: bool, recvWindow: Int64,
                            timestamp: Int64) returns (r: Outcome)
    ensures r == ModeRequest(creds, mac, "/fapi/v1/positionSide/dual", "dualSidePosition", dualSidePosition,
                             recvWindow, timestamp)
  {
    r := ChangeMode(creds, mac, "/fapi/v1/positionSide/dual", "dualSidePosition", dualSidePosition,
                    recvWindow, timestamp);
  }

  method ChangeMultiAssetsMode(creds: Credentials, mac: Mac, multiAssetsMargin: bool, recvWindow: Int64,
                               timestamp: Int64) returns (r: Outcome)
    ensures r == ModeRequest(creds, mac, "/fapi/v1/multiAssetsMargin", "multiAssetsMargin", multiAssetsMargin,
                             recvWindow, timestamp)
  {
    r := ChangeMode(creds, mac, "/fapi/v1/multiAssetsMargin", "multiAssetsMargin", multiAssetsMargin,
                    recvWindow, timestamp);
  }

  /**
   * A mode switch posts its payload as the body with an empty URL query, and signs exactly
   * the body; the body reads back to the flag under the switch's own name, with recvWindow and
   * timestamp always present.
   */
  lemma ModeSwitchSigned(creds: Credentials, mac: Mac, flag: bool, recvWindow: Int64, timestamp: Int64)
    ensures var rq := ModeRequest(creds, mac, "/fapi/v1/positionSide/dual", "dualSidePosition", flag,
                                  recvWindow, timestamp).request;
      && rq.verb == POST && rq.query == []
      && Lookup(rq.headers, SignatureHeader) == Some(mac(rq.body, creds.apiSecret))
      && ParseQueryString(rq.body) == Some(ModeItems("dualSidePosition", flag, recvWindow, timestamp))
    ensures var rq := ModeRequest(creds, mac, "/fapi/v1/multiAssetsMargin", "multiAssetsMargin", flag,
                                  recvWindow, timestamp).request;
      && rq.verb == POST && rq.query == []
      && Lookup(rq.headers, SignatureHeader) == Some(mac(rq.body, creds.apiSecret))
      && ParseQueryString(rq.body) == Some(ModeItems("multiAssetsMargin", flag, recvWindow, timestamp))
  {
    assert Plain("dualSidePosition") && Plain("multiAssetsMargin");
    ModePayloadRoundTrip("dualSidePosition", flag, recvWindow, timestamp);
    ModePayloadRoundTrip("multiAssetsMargin", flag, recvWindow, timestamp);
    FormSignedHeaders(creds, mac, POST, "/fapi/v1/positionSide/dual", [],
                      ModePayload("dualSidePosition", flag, recvWindow, timestamp));
    FormSignedHeaders(creds, mac, POST, "/fapi/v1/multiAssetsMargin", [],
                      ModePayload("multiAssetsMargin", flag, recvWindow, timestamp));
  }

  // ---------------------------------------------------------------------------------------
  // Position mode query (GET /fapi/v1/positionSide/dual): signed over the whole URL text.

  function PositionModeRequest(creds: Credentials, mac: Mac, recvWindow: Int64, timestamp: Int64): Outcome {
    var path := "/fapi/v1/positionSide/dual";
    var q := Params(WindowFields(recvWindow, timestamp));
    Issued(Request(GET, FuturesBase, path, q,
                   [(ApiKeyHeader, creds.apiKey), (SignatureHeader, mac(UrlText(FuturesBase, path, q), creds.apiSecret))],
                   ""))
  }

  method GetPositionMode(creds: Credentials, mac: Mac, recvWindow: Int64, timestamp: Int64) returns (r: Outcome)
    ensures r == PositionModeRequest(creds, mac, recvWindow, timestamp)
  {
    var query: seq<Param> := [];
    ghost var written: seq<Field> := [];
    query, written := AddIfNonNegative(query, written, "recvWindow", recvWindow);
    query, written := AddIfNonNegative(query, written, "timestamp", timestamp);
    assert written == WindowFields(recvWindow, timestamp);
    var url := UrlText(FuturesBase, "/fapi/v1/positionSide/dual", query);
    var headers := [(ApiKeyHeader, creds.apiKey)];
    headers := headers + [(SignatureHeader, mac(url, creds.apiSecret))];
    r := Issued(Request(GET, FuturesBase, "/fapi/v1/positionSide/dual", query, headers, ""));
  }

  /**
   * The position-mode signature is the MAC of the full URL sent, scheme and host included,
   * not of the query alone; window and timestamp follow the sentinel convention.
   */
  lemma PositionModeSignature(creds: Credentials, mac: Mac, recvWindow: Int64, timestamp: Int64)
    ensures var rq := PositionModeRequest(creds, mac, recvWindow, timestamp).request;
      && rq.verb == GET && rq.body == ""
      && Lookup(rq.headers, SignatureHeader)
         == Some(mac(FuturesBase + rq.path + (if rq.query == [] then "" else "?" + QueryString(rq.query)),
                     creds.apiSecret))
      && Lookup(rq.query, "recvWindow") == WhenNonNegative(recvWindow)
      && Lookup(rq.query, "timestamp") == WhenNonNegative(timestamp)
  {
    WindowKeys(recvWindow, timestamp);
    var rq := PositionModeRequest(creds, mac, recvWindow, timestamp).request;
    assert rq.headers[1..] == [(SignatureHeader, mac(UrlText(FuturesBase, rq.path, rq.query), creds.apiSecret))];
    assert ApiKeyHeader[0] != SignatureHeader[0];
  }

  // ---------------------------------------------------------------------------------------
  // Spot account information (GET https://api.binance.com/api/v3/account): the timestamp is
  // read from the clock, given here as `now`, and the signature is added as a query item.

  function SpotAccountRequest(creds: Credentials, mac: Mac, now: Int64): Outcome {
    var signedPart := [("timestamp", IntToString(now))];
    Issued(Request(GET, GeneralBase, "/api/v3/account",
                   signedPart + [(SignatureKey, mac(QueryString(signedPart), creds.apiSecret))],
                   [(ApiKeyHeader, creds.apiKey)], ""))
  }

  method GetSpotAccountInformation(creds: Credentials, mac: Mac, now: Int64) returns (r: Outcome)
    ensures r == SpotAccountRequest(creds, mac, now)
  {
    var query: seq<Param> := [];
    query := query + [("timestamp", IntToString(now))];
    var signature := mac(QueryString(query), creds.apiSecret);
    query := query + [(SignatureKey, signature)];
    r := Issued(Request(GET, GeneralBase, "/api/v3/account", query, [(ApiKeyHeader, creds.apiKey)], ""));
  }

  /**
   * The spot account query is the timestamp followed by the signature, which is the MAC of
   * the query text before it; it goes to the general host, not the futures one.
   */
  lemma SpotAccountSigned(creds: Credentials, mac: Mac, now: Int64)
    ensures var rq := SpotAccountRequest(creds, mac, now).request;
      && rq.base == GeneralBase && rq.base != FuturesBase
      && |rq.query| == 2 && rq.query[0] == ("timestamp", IntToString(now))
      && rq.query[1] == (SignatureKey, mac(QueryString(rq.query[..1]), creds.apiSecret))
      && QueryString(rq.query[..1]) == "timestamp=" + IntToString(now)
      && Signed(rq)
  {
    var rq := SpotAccountRequest(creds, mac, now).request;
    assert rq.query[..1] == [("timestamp", IntToString(now))];
    assert "timestamp" + "=" == "timestamp=";
    assert Items(rq.query[..1]) == ["timestamp=" + IntToString(now)];
    assert "timestamp"[0] != SignatureKey[0];
    assert rq.query[1..] == [(SignatureKey, mac(QueryString(rq.query[..1]), creds.apiSecret))];
    assert GeneralBase[8] != FuturesBase[8];
  }

  // ---------------------------------------------------------------------------------------
  // Keyed account queries.

  method GetBalance(creds: Credentials, recvWindow: Int64, timestamp: Int64) returns (r: Outcome)
    ensures r == WindowRequest(creds, "/fapi/v2/balance", recvWindow, timestamp)
  {
    r := Window(creds, "/fapi/v2/balance", recvWindow, timestamp);
  }

  method GetAccountInformation(creds: Credentials, recvWindow: Int64, timestamp: Int64) returns (r: Outcome)
    ensures r == WindowRequest(creds, "/fapi/v2/account", recvWindow, timestamp)
  {
    r := Window(creds, "/fapi/v2/account", recvWindow, timestamp);
  }

  method GetPositionRisk(creds: Credentials, symbol: string, recvWindow: Int64, timestamp: Int64)
    returns (r: Outcome)
    ensures r == SymbolWindowRequest(creds, "/fapi/v2/positionRisk", symbol, recvWindow, timestamp)
  {
    r := SymbolWindow(creds, "/fapi/v2/positionRisk", symbol, recvWindow, timestamp);
  }

  method GetLeverageBracket(creds: Credentials, symbol: string, recvWindow: Int64, timestamp: Int64)
    returns (r: Outcome)
    ensures r == SymbolWindowRequest(creds, "/fapi/v1/leverageBracket", symbol, recvWindow, timestamp)
  {
    r := SymbolWindow(creds, "/fapi/v1/leverageBracket", symbol, recvWindow, timestamp);
  }

  method GetAdlQuantile(creds: Credentials, symbol: string, recvWindow: Int64, timestamp: Int64)
    returns (r: Outcome)
    ensures r == SymbolWindowRequest(creds, "/fapi/v1/adlQuantile", symbol, recvWindow, timestamp)
  {
    r := SymbolWindow(creds, "/fapi/v1/adlQuantile", symbol, recvWindow, timestamp);
  }

  method GetApiTradingStatus(creds: Credentials, symbol: string, recvWindow: Int64, timestamp: Int64)
    returns (r: Outcome)
    ensures r == SymbolWindowRequest(creds, "/fapi/v1/apiTradingStatus", symbol, recvWindow, timestamp)
  {
    r := SymbolWindow(creds, "/fapi/v1/apiTradingStatus", symbol, recvWindow, timestamp);
  }

  // ---------------------------------------------------------------------------------------
  // Leverage and margin type (POST with an empty body, the query on the URL).

  function LeverageFields(symbol: string, leverage: Int32, recvWindow: Int64, timestamp: Int64): seq<Field> {
    [Always("symbol", symbol), Always("leverage", IntToString(leverage)),
     IfNonNegative("recvWindow", recvWindow), IfNonNegative("timestamp", timestamp)]
  }

  function LeverageRequest(creds: Credentials, symbol: string, leverage: Int32, recvWindow: Int64,
                           timestamp: Int64): Outcome {
    Issued(Keyed(creds, POST, "/fapi/v1/leverage", Params(LeverageFields(symbol, leverage, recvWindow, timestamp))))
  }

  method ChangeLeverage(creds: Credentials, symbol: string, leverage: Int32, recvWindow: Int64, timestamp: Int64)
    returns (r: Outcome)
    ensures r == LeverageRequest(creds, symbol, leverage, recvWindow, timestamp)
  {
    var query: seq<Param> := [];
    ghost var written: seq<Field> := [];
    query, written := AddItem(query, written, "symbol", symbol);
    query, written := AddItem(query, written, "leverage", IntToString(leverage));
    query, written := AddIfNonNegative(query, written, "recvWindow", recvWindow);
    query, written := AddIfNonNegative(query, written, "timestamp", timestamp);
    assert written == LeverageFields(symbol, leverage, recvWindow, timestamp);
    r := Issued(Keyed(creds, POST, "/fapi/v1/leverage", query));
  }

  function MarginTypeFields(symbol: string, marginType: string, recvWindow: Int64, timestamp: Int64): seq<Field> {
    [Always("symbol", symbol), Always("marginType", marginType),
     IfNonNegative("recvWindow", recvWindow), IfNonNegative("timestamp", timestamp)]
  }

  function MarginTypeRequest(creds: Credentials, symbol: string, marginType: string, recvWindow: Int64,
                             timestamp: Int64): Outcome {
    Issued(Keyed(creds, POST, "/fapi/v1/marginType", Params(MarginTypeFields(symbol, marginType, recvWindow, timestamp))))
  }

  method ChangeMarginType(creds: Credentials, symbol: string, marginType: string, recvWindow: Int64,
                          timestamp: Int64) returns (r: Outcome)
    ensures r == MarginTypeRequest(creds, symbol, marginType, recvWindow, timestamp)
  {
    var query: seq<Param> := [];
    ghost var written: seq<Field> := [];
    query, written := AddItem(query, written, "symbol", symbol);
    query, written := AddItem(query, written, "marginType", marginType);
    query, written := AddIfNonNegative(query, written, "recvWindow", recvWindow);
    query, written := AddIfNonNegative(query, written, "timestamp", timestamp);
    assert written == MarginTypeFields(symbol, marginType, recvWindow, timestamp);
    r := Issued(Keyed(creds, POST, "/fapi/v1/marginType", query));
  }

  /**
   * Leverage and margin type always lead with the symbol and their setting, then the window
   * and timestamp when non-negative; both post an empty body.
   */
  lemma SettingKeys(creds: Credentials, symbol: string, leverage: Int32, marginType: string,
                    recvWindow: Int64, timestamp: Int64)
    ensures var rq := LeverageRequest(creds, symbol, leverage, recvWindow, timestamp).request;
      && rq.verb == POST && rq.body == ""
      && |rq.query| >= 2 && rq.query[..2] == [("symbol", symbol), ("leverage", IntToString(leverage))]
      && Lookup(rq.query, "recvWindow") == WhenNonNegative(recvWindow)
      && Lookup(rq.query, "timestamp") == WhenNonNegative(timestamp)
    ensures var rq := MarginTypeRequest(creds, symbol, marginType, recvWindow, timestamp).request;
      && rq.verb == POST && rq.body == ""
      && |rq.query| >= 2 && rq.query[..2] == [("symbol", symbol), ("marginType", marginType)]
      && Lookup(rq.query, "recvWindow") == WhenNonNegative(recvWindow)
      && Lookup(rq.query, "timestamp") == WhenNonNegative(timestamp)
  {
    var lf := LeverageFields(symbol, leverage, recvWindow, timestamp);
    LeadingItems(lf, 2);
    LookupField(lf, 2);
    LookupField(lf, 3);
    var mf := MarginTypeFields(symbol, marginType, recvWindow, timestamp);
    LeadingItems(mf, 2);
    LookupField(mf, 2);
    LookupField(mf, 3);
  }

  // ---------------------------------------------------------------------------------------
  // Position margin: adjust (POST /fapi/v1/positionMargin) and its history
  // (GET /fapi/v1/positionMargin/history).

  /** `amount` stands for `QString::number(amount)` of the `double` argument. */
  function AdjustMarginFields(symbol: string, positionSide: string, amount: string, marginType: Int32,
                              recvWindow: Int64, timestamp: Int64): seq<Field> {
    [Always("symbol", symbol), IfNonEmpty("positionSide", positionSide), Always("amount", amount),
     Always("type", IntToString(marginType)), IfNonNegative("recvWindow", recvWindow),
     IfNonNegative("timestamp", timestamp)]
  }

  function AdjustMarginRequest(creds: Credentials, symbol: string, positionSide: string, amount: string,
                               marginType: Int32, recvWindow: Int64, timestamp: Int64): Outcome {
    Issued(Keyed(creds, POST, "/fapi/v1/positionMargin",
      Params(AdjustMarginFields(symbol, positionSide, amount, marginType, recvWindow, timestamp))))
  }

  /** `marginType` is the argument named `type`: 1 adds margin, 2 reduces it. */
  method AdjustPositionMargin(creds: Credentials, symbol: string, positionSide: string, amount: string,
                              marginType: Int32, recvWindow: Int64, timestamp: Int64) returns (r: Outcome)
    ensures r == AdjustMarginRequest(creds, symbol, positionSide, amount, marginType, recvWindow, timestamp)
  {
    var query: seq<Param> := [];
    ghost var written: seq<Field> := [];
    query, written := AddItem(query, written, "symbol", symbol);
    query, written := AddIfNonEmpty(query, written, "positionSide", positionSide);
    query, written := AddItem(query, written, "amount", amount);
    query, written := AddItem(query, written, "type", IntToString(marginType));
    query, written := AddIfNonNegative(query, written, "recvWindow", recvWindow);
    query, written := AddIfNonNegative(query, written, "timestamp", timestamp);
    assert written == AdjustMarginFields(symbol, positionSide, amount, marginType, recvWindow, timestamp);
    r := Issued(Keyed(creds, POST, "/fapi/v1/positionMargin", query));
  }

  /** Amount and type are always sent, whatever their value; positionSide only when given. */
  lemma AdjustMarginKeys(creds: Credentials, symbol: string, positionSide: string, amount: string,
                         marginType: Int32, recvWindow: Int64, timestamp: Int64)
    ensures var q := AdjustMarginRequest(creds, symbol, positionSide, amount, marginType, recvWindow,
                                         timestamp).request.query;
      && |q| >= 1 && q[0] == ("symbol", symbol)
      && Lookup(q, "positionSide") == WhenNonEmpty(positionSide)
      && Lookup(q, "amount") == Some(amount)
      && Lookup(q, "type") == Some(IntToString(marginType))
      && Lookup(q, "recvWindow") == WhenNonNegative(recvWindow)
      && Lookup(q, "timestamp") == WhenNonNegative(timestamp)
      && Position(q, "amount") < Position(q, "type")
  {
    var fs := AdjustMarginFields(symbol, positionSide, amount, marginType, recvWindow, timestamp);
    LeadingItems(fs, 1);
    LookupField(fs, 1);
    LookupField(fs, 2);
    LookupField(fs, 3);
    LookupField(fs, 4);
    LookupField(fs, 5);
    FieldOrder(fs, 2, 3);
  }

  function MarginHistoryFields(symbol: string, marginType: Int32, startTime: Int64, endTime: Int64,
                               limit: Int32, recvWindow: Int64, timestamp: Int64): seq<Field> {
    [Always("symbol", symbol), IfPositive("type", marginType), IfNonNegative("startTime", startTime),
     IfNonNegative("endTime", endTime), IfPositive("limit", limit),
     IfNonNegative("recvWindow", recvWindow), IfNonNegative("timestamp", timestamp)]
  }

  function MarginHistoryRequest(creds: Credentials, symbol: string, marginType: Int32, startTime: Int64,
                                endTime: Int64, limit: Int32, recvWindow: Int64, timestamp: Int64): Outcome {
    Issued(Keyed(creds, GET, "/fapi/v1/positionMargin/history",
      Params(MarginHistoryFields(symbol, marginType, startTime, endTime, limit, recvWindow, timestamp))))
  }

  method GetPositionMarginHistory(creds: Credentials, symbol: string, marginType: Int32, startTime: Int64,
                                  endTime: Int64, limit: Int32, recvWindow: Int64, timestamp: Int64)
    returns (r: Outcome)
    ensures r == MarginHistoryRequest(creds, symbol, marginType, startTime, endTime, limit, recvWindow, timestamp)
  {
    var query: seq<Param> := [];
    ghost var written: seq<Field> := [];
    query, written := AddItem(query, written, "symbol", symbol);
    query, written := AddIfPositive(query, written, "type", marginType);
    query, written := AddIfNonNegative(query, written, "startTime", startTime);
    query, written := AddIfNonNegative(query, written, "endTime", endTime);
    query, written := AddIfPositive(query, written, "limit", limit);
    query, written := AddIfNonNegative(query, written, "recvWindow", recvWindow);
    query, written := AddIfNonNegative(query, written, "timestamp", timestamp);
    assert written == MarginHistoryFields(symbol, marginType, startTime, endTime, limit, recvWindow, timestamp);
    r := Issued(Keyed(creds, GET, "/fapi/v1/positionMargin/history", query));
  }

  /** The margin history sends type and limit only when positive, the times when non-negative. */
  lemma MarginHistoryKeys(creds: Credentials, symbol: string, marginType: Int32, startTime: Int64,
                          endTime: Int64, limit: Int32, recvWindow: Int64, timestamp: Int64)
    ensures var q := MarginHistoryRequest(creds, symbol, marginType, startTime, endTime, limit, recvWindow,
                                          timestamp).request.query;
      && |q| >= 1 && q[0] == ("symbol", symbol)
      && Lookup(q, "type") == WhenPositive(marginType)
      && Lookup(q, "startTime") == WhenNonNegative(startTime)
      && Lookup(q, "endTime") == WhenNonNegative(endTime)
      && Lookup(q, "limit") == WhenPositive(limit)
  {
    var fs := MarginHistoryFields(symbol, marginType, startTime, endTime, limit, recvWindow, timestamp);
    LeadingItems(fs, 1);
    LookupField(fs, 1);
    LookupField(fs, 2);
    LookupField(fs, 3);
    LookupField(fs, 4);
  }

  // ---------------------------------------------------------------------------------------
  // Account trade list (GET /fapi/v1/userTrades).

  function UserTradesFields(symbol: string, orderId: Int64, startTime: Int64, endTime: Int64, fromId: Int64,
                            limit: Int32, recvWindow: Int64, timestamp: Int64): seq<Field> {
    [Always("symbol", symbol), IfNonNegative("orderId", orderId), IfNonNegative("startTime", startTime),
     IfNonNegative("endTime", endTime), IfNonNegative("fromId", fromId), IfPositive("limit", limit),
     IfNonNegative("recvWindow", recvWindow), IfNonNegative("timestamp", timestamp)]
  }

  function UserTradesRequest(creds: Credentials, symbol: string, orderId: Int64, startTime: Int64,
                             endTime: Int64, fromId: Int64, limit: Int32, recvWindow: Int64,
                             timestamp: Int64): Outcome {
    Issued(Keyed(creds, GET, "/fapi/v1/userTrades",
      Params(UserTradesFields(symbol, orderId, startTime, endTime, fromId, limit, recvWindow, timestamp))))
  }

  method GetUserTrades(creds: Credentials, symbol: string, orderId: Int64, startTime: Int64, endTime: Int64,
                       fromId: Int64, limit: Int32, recvWindow: Int64, timestamp: Int64) returns (r: Outcome)
    ensures r == UserTradesRequest(creds, symbol, orderId, startTime, endTime, fromId, limit, recvWindow, timestamp)
  {
    var query: seq<Param> := [];
    ghost var written: seq<Field> := [];
    query, written := AddItem(query, written, "symbol", symbol);
    query, written := AddIfNonNegative(query, written, "orderId", orderId);
    query, written := AddIfNonNegative(query, written, "startTime", startTime);
    query, written := AddIfNonNegative(query, written, "endTime", endTime);
    query, written := AddIfNonNegative(query, written, "fromId", fromId);
    query, written := AddIfPositive(query, written, "limit", limit);
    query, written := AddIfNonNegative(query, written, "recvWindow", recvWindow);
    query, written := AddIfNonNegative(query, written, "timestamp", timestamp);
    assert written == UserTradesFields(symbol, orderId, startTime, endTime, fromId, limit, recvWindow, timestamp);
    r := Issued(Keyed(creds, GET, "/fapi/v1/userTrades", query));
  }

  /** The trade list sends its limit only when positive and every id and time when non-negative. */
  lemma UserTradesKeys(creds: Credentials, symbol: string, orderId: Int64, startTime: Int64, endTime: Int64,
                       fromId: Int64, limit: Int32, recvWindow: Int64, timestamp: Int64)
    ensures var q := UserTradesRequest(creds, symbol, orderId, startTime, endTime, fromId, limit, recvWindow,
                                       timestamp).request.query;
      && |q| >= 1 && q[0] == ("symbol", symbol)
      && Lookup(q, "orderId") == WhenNonNegative(orderId)
      && Lookup(q, "startTime") == WhenNonNegative(startTime)
      && Lookup(q, "endTime") == WhenNonNegative(endTime)
      && Lookup(q, "fromId") == WhenNonNegative(fromId)
      && Lookup(q, "limit") == WhenPositive(limit)
  {
    var fs := UserTradesFields(symbol, orderId, startTime, endTime, fromId, limit, recvWindow, timestamp);
    LeadingItems(fs, 1);
    LookupField(fs, 1);
    LookupField(fs, 2);
    LookupField(fs, 3);
    LookupField(fs, 4);
    LookupField(fs, 5);
  }

  // ---------------------------------------------------------------------------------------
  // Income history (GET /fapi/v1/income) and forced orders (GET /fapi/v1/forceOrders): an
  // optional symbol, an optional kind (incomeType or autoCloseType), a time window and a limit.

  function FilteredHistoryFields(kindKey: string, symbol: string, kind: string, startTime: Int64,
                                 endTime: Int64, limit: Int32, recvWindow: Int64, timestamp: Int64): seq<Field> {
    [IfNonEmpty("symbol", symbol), IfNonEmpty(kindKey, kind), IfNonNegative("startTime", startTime),
     IfNonNegative("endTime", endTime), IfPositive("limit", limit),
     IfNonNegative("recvWindow", recvWindow), IfNonNegative("timestamp", timestamp)]
  }

  function FilteredHistoryRequest(creds: Credentials, path: string, kindKey: string, symbol: string,
                                  kind: string, startTime: Int64, endTime: Int64, limit: Int32,
                                  recvWindow: Int64, timestamp: Int64): Outcome {
    Issued(Keyed(creds, GET, path,
      Params(FilteredHistoryFields(kindKey, symbol, kind, startTime, endTime, limit, recvWindow, timestamp))))
  }

  /** The steps getIncome and getForceOrders share; they differ in path and in the kind's key. */
  method FilteredHistory(creds: Credentials, path: string, kindKey: string, symbol: string, kind: string,
                         startTime: Int64, endTime: Int64, limit: Int32, recvWindow: Int64, timestamp: Int64)
    returns (r: Outcome)
    ensures r == FilteredHistoryRequest(creds, path, kindKey, symbol, kind, startTime, endTime, limit,
                                        recvWindow, timestamp)
  {
    var query: seq<Param> := [];
    ghost var written: seq<Field> := [];
    query, written := AddIfNonEmpty(query, written, "symbol", symbol);
    query, written := AddIfNonEmpty(query, written, kindKey, kind);
    query, written := AddIfNonNegative(query, written, "startTime", startTime);
    query, written := AddIfNonNegative(query, written, "endTime", endTime);
    query, written := AddIfPositive(query, written, "limit", limit);
    query, written := AddIfNonNegative(query, written, "recvWindow", recvWindow);
    query, written := AddIfNonNegative(query, written, "timestamp", timestamp);
    assert written == FilteredHistoryFields(kindKey, symbol, kind, startTime, endTime, limit, recvWindow, timestamp);
    r := Issued(Keyed(creds, GET, path, query));
  }

  method GetIncome(creds: Credentials, symbol: string, incomeType: string, startTime: Int64, endTime: Int64,
                   limit: Int32, recvWindow: Int64, timestamp: Int64) returns (r: Outcome)
    ensures r == FilteredHistoryRequest(creds, "/fapi/v1/income", "incomeType", symbol, incomeType, startTime,
                                        endTime, limit, recvWindow, timestamp)
  {
    r := FilteredHistory(creds, "/fapi/v1/income", "incomeType", symbol, incomeType, startTime, endTime, limit,
                         recvWindow, timestamp);
  }

  method GetForceOrders(creds: Credentials, symbol: string, autoCloseType: string, startTime: Int64,
                        endTime: Int64, limit: Int32, recvWindow: Int64, timestamp: Int64) returns (r: Outcome)
    ensures r == FilteredHistoryRequest(creds, "/fapi/v1/forceOrders", "autoCloseType", symbol, autoCloseType,
                                        startTime, endTime, limit, recvWindow, timestamp)
  {
    r := FilteredHistory(creds, "/fapi/v1/forceOrders", "autoCloseType", symbol, autoCloseType, startTime,
                         endTime, limit, recvWindow, timestamp);
  }

  lemma FilteredHistoryDistinct(kindKey: string, symbol: string, kind: string, startTime: Int64,
                                endTime: Int64, limit: Int32, recvWindow: Int64, timestamp: Int64)
    requires kindKey == "incomeType" || kindKey == "autoCloseType"
    ensures DistinctKeys(FilteredHistoryFields(kindKey, symbol, kind, startTime, endTime, limit, recvWindow, timestamp))
  {
    var fs := FilteredHistoryFields(kindKey, symbol, kind, startTime, endTime, limit, recvWindow, timestamp);
    forall i, j | 0 <= i < j < |fs| ensures fs[i].key != fs[j].key {
      var a, b := fs[i].key, fs[j].key;
      assert |a| != |b| || a[0] != b[0];
    }
  }

  /**
   * For either kind key, symbol and kind are sent only when non-empty, the limit only when
   * positive and the times only when non-negative.
   */
  lemma FilteredHistoryKeys(creds: Credentials, path: string, kindKey: string, symbol: string, kind: string,
                            startTime: Int64, endTime: Int64, limit: Int32, recvWindow: Int64, timestamp: Int64)
    requires kindKey == "incomeType" || kindKey == "autoCloseType"
    ensures var q := FilteredHistoryRequest(creds, path, kindKey, symbol, kind, startTime, endTime, limit,
                                            recvWindow, timestamp).request.query;
      && Lookup(q, "symbol") == WhenNonEmpty(symbol)
      && Lookup(q, kindKey) == WhenNonEmpty(kind)
      && Lookup(q, "startTime") == WhenNonNegative(startTime)
      && Lookup(q, "endTime") == WhenNonNegative(endTime)
      && Lookup(q, "limit") == WhenPositive(limit)
  {
    var fs := FilteredHistoryFields(kindKey, symbol, kind, startTime, endTime, limit, recvWindow, timestamp);
    FilteredHistoryDistinct(kindKey, symbol, kind, startTime, endTime, limit, recvWindow, timestamp);
    LookupField(fs, 0);
    LookupField(fs, 1);
    LookupField(fs, 2);
    LookupField(fs, 3);
    LookupField(fs, 4);
  }

  // ---------------------------------------------------------------------------------------
  // Commission rate (GET /fapi/v1/commissionRate): the timestamp is always sent.

  function CommissionRateFields(symbol: string, recvWindow: Int64, timestamp: Int64): seq<Field> {
    [Always("symbol", symbol), IfNonNegative("recvWindow", recvWindow), Always("timestamp", IntToString(timestamp))]
  }

  function CommissionRateRequest(creds: Credentials, symbol: string, recvWindow: Int64, timestamp: Int64): Outcome {
    Issued(Keyed(creds, GET, "/fapi/v1/commissionRate", Params(CommissionRateFields(symbol, recvWindow, timestamp))))
  }

  method GetCommissionRate(creds: Credentials, symbol: string, recvWindow: Int64, timestamp: Int64)
    returns (r: Outcome)
    ensures r == CommissionRateRequest(creds, symbol, recvWindow, timestamp)
  {
    var query: seq<Param> := [];
    ghost var written: seq<Field> := [];
    query, written := AddItem(query, written, "symbol", symbol);
    query, written := AddIfNonNegative(query, written, "recvWindow", recvWindow);
    query, written := AddItem(query, written, "timestamp", IntToString(timestamp));
    assert written == CommissionRateFields(symbol, recvWindow, timestamp);
    r := Issued(Keyed(creds, GET, "/fapi/v1/commissionRate", query));
  }

  /** The commission-rate query written out: symbol, recvWindow when non-negative, timestamp. */
  lemma CommissionRateParams(symbol: string, recvWindow: Int64, timestamp: Int64)
    ensures Params(CommissionRateFields(symbol, recvWindow, timestamp))
            == [("symbol", symbol)] + (if recvWindow >= 0 then [("recvWindow", IntToString(recvWindow))] else [])
               + [("timestamp", IntToString(timestamp))]
  {
    var fs := CommissionRateFields(symbol, recvWindow, timestamp);
    assert fs[1..][1..][1..] == [];
    assert Params(fs[1..][1..]) == [("timestamp", IntToString(timestamp))];
  }

  /**
   * The commission-rate query always ends with the timestamp, even a negative one; recvWindow
   * alone follows the sentinel convention.
   */
  lemma CommissionRateTimestamp(creds: Credentials, symbol: string, recvWindow: Int64, timestamp: Int64)
    ensures var q := CommissionRateRequest(creds, symbol, recvWindow, timestamp).request.query;
      && |q| >= 2 && q[0] == ("symbol", symbol) && q[|q| - 1] == ("timestamp", IntToString(timestamp))
      && Lookup(q, "timestamp") == Some(IntToString(timestamp))
      && Lookup(q, "recvWindow") == WhenNonNegative(recvWindow)
      && |q| == if recvWindow >= 0 then 3 else 2
  {
    CommissionRateParams(symbol, recvWindow, timestamp);
    var fs := CommissionRateFields(symbol, recvWindow, timestamp);
    LookupField(fs, 1);
    LookupField(fs, 2);
  }
}
