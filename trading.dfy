/**
 * The order-management builders of binanceapi.cpp. All of them carry the API key; those that
 * send a form (new order, modify order, batch orders) also sign what they send. None of them
 * rejects an argument: a negative number or an empty string only leaves its key out.
 */
module Trading {

  import opened Wrappers
  import opened Decimal
  import opened Text
  import opened Query
  import opened Http
  import opened BatchLists
  import opened Common

  // ---------------------------------------------------------------------------------------
  // Builders that name one order by symbol and order id or client order id: query order
  // status (GET /fapi/v1/order), cancel an order (DELETE /fapi/v1/order) and query an open
  // order (GET /fapi/v1/openOrder). They send the API key but attach no signature.

  function OrderReferenceFields(symbol: string, orderId: Int64, origClientOrderId: string,
                                recvWindow: Int64, timestamp: Int64): seq<Field> {
    [Always("symbol", symbol), IfNonNegative("orderId", orderId),
     IfNonEmpty("origClientOrderId", origClientOrderId), IfNonNegative("recvWindow", recvWindow),
     IfNonNegative("timestamp", timestamp)]
  }

  function OrderReferenceRequest(creds: Credentials, verb: Verb, path: string, symbol: string,
                                 orderId: Int64, origClientOrderId: string,
                                 recvWindow: Int64, timestamp: Int64): Outcome {
    Issued(Keyed(creds, verb, path,
      Params(OrderReferenceFields(symbol, orderId, origClientOrderId, recvWindow, timestamp))))
  }

  /** The steps the three order-reference builders share; they differ in verb and path. */
  method OrderReference(creds: Credentials, verb: Verb, path: string, symbol: string, orderId: Int64,
                        origClientOrderId: string, recvWindow: Int64, timestamp: Int64)
    returns (r: Outcome)
    ensures r == OrderReferenceRequest(creds, verb, path, symbol, orderId, origClientOrderId, recvWindow, timestamp)
  {
    var query: seq<Param> := [];
    ghost var written: seq<Field> := [];
    query, written := AddItem(query, written, "symbol", symbol);
    query, written := AddIfNonNegative(query, written, "orderId", orderId);
    query, written := AddIfNonEmpty(query, written, "origClientOrderId", origClientOrderId);
    query, written := AddIfNonNegative(query, written, "recvWindow", recvWindow);
    query, written := AddIfNonNegative(query, written, "timestamp", timestamp);
    assert written == OrderReferenceFields(symbol, orderId, origClientOrderId, recvWindow, timestamp);
    r := Issued(Keyed(creds, verb, path, query));
  }

  method CheckOrderStatus(creds: Credentials, symbol: string, orderId: Int64, origClientOrderId: string,
                          recvWindow: Int64, timestamp: Int64) returns (r: Outcome)
    ensures r == OrderReferenceRequest(creds, GET, "/fapi/v1/order", symbol, orderId, origClientOrderId,
                                       recvWindow, timestamp)
  {
    r := OrderReference(creds, GET, "/fapi/v1/order", symbol, orderId, origClientOrderId, recvWindow, timestamp);
  }

  method CancelOrder(creds: Credentials, symbol: string, orderId: Int64, origClientOrderId: string,
                     recvWindow: Int64, timestamp: Int64) returns (r: Outcome)
    ensures r == OrderReferenceRequest(creds, DELETE, "/fapi/v1/order", symbol, orderId, origClientOrderId,
                                       recvWindow, timestamp)
  {
    r := OrderReference(creds, DELETE, "/fapi/v1/order", symbol, orderId, origClientOrderId, recvWindow, timestamp);
  }

  method GetOpenOrder(creds: Credentials, symbol: string, orderId: Int64, origClientOrderId: string,
                      recvWindow: Int64, timestamp: Int64) returns (r: Outcome)
    ensures r == OrderReferenceRequest(creds, GET, "/fapi/v1/openOrder", symbol, orderId, origClientOrderId,
                                       recvWindow, timestamp)
  {
    r := OrderReference(creds, GET, "/fapi/v1/openOrder", symbol, orderId, origClientOrderId, recvWindow, timestamp);
  }

  /**
   * An order-reference request always leads with the symbol; the order id, recvWindow and
   * timestamp are sent exactly when non-negative and the client order id exactly when
   * non-empty. It carries the API key and no signature, although the endpoints are signed.
   */
  lemma OrderReferenceKeys(creds: Credentials, verb: Verb, path: string, symbol: string, orderId: Int64,
                           origClientOrderId: string, recvWindow: Int64, timestamp: Int64)
    ensures var rq := OrderReferenceRequest(creds, verb, path, symbol, orderId, origClientOrderId,
                                            recvWindow, timestamp).request;
      && |rq.query| >= 1 && rq.query[0] == ("symbol", symbol)
      && Lookup(rq.query, "orderId") == WhenNonNegative(orderId)
      && Lookup(rq.query, "origClientOrderId") == WhenNonEmpty(origClientOrderId)
      && Lookup(rq.query, "recvWindow") == WhenNonNegative(recvWindow)
      && Lookup(rq.query, "timestamp") == WhenNonNegative(timestamp)
      && rq.headers == [(ApiKeyHeader, creds.apiKey)] && !Signed(rq)
  {
    var fs := OrderReferenceFields(symbol, orderId, origClientOrderId, recvWindow, timestamp);
    LeadingItems(fs, 1);
    LookupField(fs, 1);
    LookupField(fs, 2);
    LookupField(fs, 3);
    LookupField(fs, 4);
    LookupMissing(fs, SignatureKey);
    KeyedHeaders(creds, verb, path, Params(fs));
  }

  // ---------------------------------------------------------------------------------------
  // New order (POST /fapi/v1/order).

  /** The order arguments of sendNewOrder; `orderType` is the argument named `type`. */
  datatype NewOrder = NewOrder(
    symbol: string, side: string, positionSide: string, orderType: string,
    timeInForce: string, quantity: string, reduceOnly: string, price: string,
    newClientOrderId: string, stopPrice: string, closePosition: string, activationPrice: string,
    callbackRate: string, workingType: string, priceProtect: string, newOrderRespType: string)
  {
    /** The values of the optional arguments after `type`, in the order they are added. */
    function OptionalValues(): (vs: seq<string>)
      ensures |vs| == |OptionalOrderKeys|
    {
      [timeInForce, quantity, reduceOnly, price, newClientOrderId, stopPrice, closePosition,
       activationPrice, callbackRate, workingType, priceProtect, newOrderRespType]
    }
  }

  /** The keys of the optional arguments after `type`, in the order they are added. */
  const OptionalOrderKeys: seq<string> :=
    ["timeInForce", "quantity", "reduceOnly", "price", "newClientOrderId", "stopPrice",
     "closePosition", "activationPrice", "callbackRate", "workingType", "priceProtect",
     "newOrderRespType"]

  function OrderTerms(o: NewOrder): seq<Field> {
    [IfNonEmpty("timeInForce", o.timeInForce),
     IfNonEmpty("quantity", o.quantity), IfNonEmpty("reduceOnly", o.reduceOnly),
     IfNonEmpty("price", o.price), IfNonEmpty("newClientOrderId", o.newClientOrderId),
     IfNonEmpty("stopPrice", o.stopPrice)]
  }
  function OrderTriggers(o: NewOrder): seq<Field> {
     [IfNonEmpty("closePosition", o.closePosition),
     IfNonEmpty("activationPrice", o.activationPrice), IfNonEmpty("callbackRate", o.callbackRate),
     IfNonEmpty("workingType", o.workingType), IfNonEmpty("priceProtect", o.priceProtect),
     IfNonEmpty("newOrderRespType", o.newOrderRespType)]
  }
  function NewOrderFields(o: NewOrder): seq<Field> {
    [Always("symbol", o.symbol), Always("side", o.side), IfNonEmpty("positionSide", o.positionSide),
     Always("type", o.orderType)] + OrderTerms(o) + OrderTriggers(o)
  }

  method AddTerms(query: seq<Param>, ghost written: seq<Field>, o: NewOrder)
    returns (query': seq<Param>, ghost written': seq<Field>)
    requires query == Params(written)
    ensures query' == query + Params(OrderTerms(o))
    ensures written' == written + OrderTerms(o) && query' == Params(written')
  {
    query', written' := query, written;
    query', written' := AddIfNonEmpty(query', written', "timeInForce", o.timeInForce);
    query', written' := AddIfNonEmpty(query', written', "quantity", o.quantity);
    query', written' := AddIfNonEmpty(query', written', "reduceOnly", o.reduceOnly);
    query', written' := AddIfNonEmpty(query', written', "price", o.price);
    query', written' := AddIfNonEmpty(query', written', "newClientOrderId", o.newClientOrderId);
    query', written' := AddIfNonEmpty(query', written', "stopPrice", o.stopPrice);
    assert written' == written + OrderTerms(o);
    ParamsAppend(written, OrderTerms(o));
  }

  method AddTriggers(query: seq<Param>, ghost written: seq<Field>, o: NewOrder)
    returns (query': seq<Param>, ghost written': seq<Field>)
    requires query == Params(written)
    ensures query' == query + Params(OrderTriggers(o))
    ensures written' == written + OrderTriggers(o) && query' == Params(written')
  {
    query', written' := query, written;
    query', written' := AddIfNonEmpty(query', written', "closePosition", o.closePosition);
    query', written' := AddIfNonEmpty(query', written', "activationPrice", o.activationPrice);
    query', written' := AddIfNonEmpty(query', written', "callbackRate", o.callbackRate);
    query', written' := AddIfNonEmpty(query', written', "workingType", o.workingType);
    query', written' := AddIfNonEmpty(query', written', "priceProtect", o.priceProtect);
    query', written' := AddIfNonEmpty(query', written', "newOrderRespType", o.newOrderRespType);
    assert written' == written + OrderTriggers(o);
    ParamsAppend(written, OrderTriggers(o));
  }

  /** After the four leading fields, the i-th optional argument is added when non-empty. */
  lemma OptionalField(o: NewOrder, i: nat)
    requires i < |OptionalOrderKeys|
    ensures |NewOrderFields(o)| == 4 + |OptionalOrderKeys|
    ensures NewOrderFields(o)[i + 4] == IfNonEmpty(OptionalOrderKeys[i], o.OptionalValues()[i])
  {
  }

  /** No two of the sixteen arguments share a key. */
  lemma NewOrderDistinct(o: NewOrder)
    ensures DistinctKeys(NewOrderFields(o))
  {
    var fs := NewOrderFields(o);
    forall i, j | 0 <= i < j < |fs| ensures fs[i].key != fs[j].key {
      var a, b := fs[i].key, fs[j].key;
      assert |a| != |b| || a[0] != b[0] || a[|a| - 1] != b[|b| - 1];
    }
  }

  /** The order's query; it is sent as the body, after the path, and never on the URL. */
  function NewOrderParams(o: NewOrder): seq<Param> {
    Params(NewOrderFields(o))
  }

  /**
   * The request is created from the URL before the query is set on it, so its URL has no
   * query; the body and the signed payload are the path followed by the query.
   * `recvWindow` and `timestamp` are accepted and not used.
   */
  function NewOrderRequest(creds: Credentials, mac: Mac, o: NewOrder, recvWindow: Int64,
                           timestamp: Int64): Outcome {
    Issued(FormSigned(creds, mac, POST, "/fapi/v1/order", [],
                      PathAndQuery("/fapi/v1/order", NewOrderParams(o))))
  }

  method SendNewOrder(creds: Credentials, mac: Mac, o: NewOrder, recvWindow: Int64, timestamp: Int64)
    returns (r: Outcome)
    ensures r == NewOrderRequest(creds, mac, o, recvWindow, timestamp)
  {
    // The request takes a copy of the URL while it has no query yet.
    var sentQuery: seq<Param> := [];
    var headers := [(ApiKeyHeader, creds.apiKey), FormContentType];
    var query: seq<Param> := [];
    ghost var written: seq<Field> := [];
    query, written := AddItem(query, written, "symbol", o.symbol);
    query, written := AddItem(query, written, "side", o.side);
    query, written := AddIfNonEmpty(query, written, "positionSide", o.positionSide);
    query, written := AddItem(query, written, "type", o.orderType);
    query, written := AddTerms(query, written, o);
    query, written := AddTriggers(query, written, o);
    assert written == NewOrderFields(o);
    var payload := PathAndQuery("/fapi/v1/order", query);
    headers := headers + [(SignatureHeader, mac(payload, creds.apiSecret))];
    r := Issued(Request(POST, FuturesBase, "/fapi/v1/order", sentQuery, headers, payload));
  }

  /** symbol and side lead the order's query, then positionSide when given, then type. */
  lemma NewOrderHead(o: NewOrder)
    ensures var q := NewOrderParams(o);
      && |q| >= 2 && q[..2] == [("symbol", o.symbol), ("side", o.side)]
      && Lookup(q, "type") == Some(o.orderType)
      && Lookup(q, "positionSide") == WhenNonEmpty(o.positionSide)
      && (o.positionSide != "" ==>
            Position(q, "side") < Position(q, "positionSide") < Position(q, "type"))
  {
    var fs := NewOrderFields(o);
    NewOrderDistinct(o);
    LeadingItems(fs, 2);
    LookupField(fs, 2);
    LookupField(fs, 3);
    if o.positionSide != "" {
      FieldOrder(fs, 1, 2);
      FieldOrder(fs, 2, 3);
    }
  }

  /** The order's query never carries recvWindow or timestamp, whatever the arguments. */
  lemma NewOrderWithoutWindow(o: NewOrder)
    ensures Lookup(NewOrderParams(o), "recvWindow") == None
    ensures Lookup(NewOrderParams(o), "timestamp") == None
  {
    var fs := NewOrderFields(o);
    LookupMissing(fs, "recvWindow");
    LookupMissing(fs, "timestamp");
  }

  /**
   * Each optional argument after type is sent exactly when non-empty, after type and in
   * the fixed order of the arguments.
   */
  lemma NewOrderOptional(o: NewOrder)
    ensures var q := NewOrderParams(o);
      forall i :: 0 <= i < |OptionalOrderKeys| ==>
        Lookup(q, OptionalOrderKeys[i]) == WhenNonEmpty(o.OptionalValues()[i])
    ensures var q := NewOrderParams(o);
      forall i :: 0 <= i < |OptionalOrderKeys| && o.OptionalValues()[i] != "" ==>
        Position(q, "type") < Position(q, OptionalOrderKeys[i])
    ensures var q := NewOrderParams(o);
      forall i, j :: 0 <= i < j < |OptionalOrderKeys| && o.OptionalValues()[i] != "" && o.OptionalValues()[j] != "" ==>
        Position(q, OptionalOrderKeys[i]) < Position(q, OptionalOrderKeys[j])
  {
    var fs := NewOrderFields(o);
    NewOrderDistinct(o);
    forall i | 0 <= i < |OptionalOrderKeys|
      ensures Lookup(Params(fs), OptionalOrderKeys[i]) == WhenNonEmpty(o.OptionalValues()[i])
    {
      OptionalField(o, i);
      LookupField(fs, i + 4);
    }
    forall i | 0 <= i < |OptionalOrderKeys| && o.OptionalValues()[i] != ""
      ensures Position(Params(fs), "type") < Position(Params(fs), OptionalOrderKeys[i])
    {
      OptionalField(o, i);
      FieldOrder(fs, 3, i + 4);
    }
    forall i, j | 0 <= i < j < |OptionalOrderKeys| && o.OptionalValues()[i] != "" && o.OptionalValues()[j] != ""
      ensures Position(Params(fs), OptionalOrderKeys[i]) < Position(Params(fs), OptionalOrderKeys[j])
    {
      OptionalField(o, i);
      OptionalField(o, j);
      FieldOrder(fs, i + 4, j + 4);
    }
  }

  /**
   * What sendNewOrder sends: a URL without query, the order's query after the path as the
   * body, and the MAC of exactly that body as signature; recvWindow and timestamp change
   * nothing.
   */
  lemma NewOrderSignature(creds: Credentials, mac: Mac, o: NewOrder, recvWindow: Int64, timestamp: Int64,
                          otherWindow: Int64, otherTimestamp: Int64)
    ensures var rq := NewOrderRequest(creds, mac, o, recvWindow, timestamp).request;
      && rq.verb == POST && rq.path == "/fapi/v1/order" && rq.query == []
      && rq.body == rq.path + "?" + QueryString(NewOrderParams(o))
      && Lookup(rq.headers, SignatureHeader) == Some(mac(rq.body, creds.apiSecret))
      && Lookup(rq.headers, "Content-Type") == Some(FormContentType.1)
    ensures NewOrderRequest(creds, mac, o, recvWindow, timestamp)
            == NewOrderRequest(creds, mac, o, otherWindow, otherTimestamp)
  {
    FormSignedHeaders(creds, mac, POST, "/fapi/v1/order", [],
                      PathAndQuery("/fapi/v1/order", NewOrderParams(o)));
    LeadingItems(NewOrderFields(o), 2);
    PathAndQueryText("/fapi/v1/order", NewOrderParams(o));
  }

  // ---------------------------------------------------------------------------------------
  // Modify order (PUT /fapi/v1/order): the query is on the URL and, after the path, also the
  // signed body.

  function ModifyOrderFields(orderId: Int64, origClientOrderId: string, symbol: string, side: string,
                             quantity: string, price: string, recvWindow: Int64, timestamp: Int64): seq<Field> {
    [IfNonNegative("orderId", orderId), IfNonEmpty("origClientOrderId", origClientOrderId),
     Always("symbol", symbol), Always("side", side), Always("quantity", quantity), Always("price", price),
     IfNonNegative("recvWindow", recvWindow), IfNonNegative("timestamp", timestamp)]
  }

  function ModifyOrderRequest(creds: Credentials, mac: Mac, orderId: Int64, origClientOrderId: string,
                              symbol: string, side: string, quantity: string, price: string,
                              recvWindow: Int64, timestamp: Int64): Outcome {
    var q := Params(ModifyOrderFields(orderId, origClientOrderId, symbol, side, quantity, price,
                                      recvWindow, timestamp));
    Issued(FormSigned(creds, mac, PUT, "/fapi/v1/order", q, PathAndQuery("/fapi/v1/order", q)))
  }

  method ModifyOrder(creds: Credentials, mac: Mac, orderId: Int64, origClientOrderId: string,
                     symbol: string, side: string, quantity: string, price: string,
                     recvWindow: Int64, timestamp: Int64) returns (r: Outcome)
    ensures r == ModifyOrderRequest(creds, mac, orderId, origClientOrderId, symbol, side, quantity, price,
                                    recvWindow, timestamp)
  {
    var query: seq<Param> := [];
    ghost var written: seq<Field> := [];
    query, written := AddIfNonNegative(query, written, "orderId", orderId);
    query, written := AddIfNonEmpty(query, written, "origClientOrderId", origClientOrderId);
    query, written := AddItem(query, written, "symbol", symbol);
    query, written := AddItem(query, written, "side", side);
    query, written := AddItem(query, written, "quantity", quantity);
    query, written := AddItem(query, written, "price", price);
    query, written := AddIfNonNegative(query, written, "recvWindow", recvWindow);
    query, written := AddIfNonNegative(query, written, "timestamp", timestamp);
    assert written == ModifyOrderFields(orderId, origClientOrderId, symbol, side, quantity, price,
                                        recvWindow, timestamp);
    var payload := PathAndQuery("/fapi/v1/order", query);
    var headers := [(ApiKeyHeader, creds.apiKey), FormContentType,
                    (SignatureHeader, mac(payload, creds.apiSecret))];
    r := Issued(Request(PUT, FuturesBase, "/fapi/v1/order", query, headers, payload));
  }

  /**
   * modifyOrder always sends symbol, side, quantity and price, even when empty, after the order
   * id and client order id; the optional ids and times appear exactly when set.
   */
  lemma ModifyOrderKeys(orderId: Int64, origClientOrderId: string, symbol: string, side: string,
                        quantity: string, price: string, recvWindow: Int64, timestamp: Int64)
    ensures var q := Params(ModifyOrderFields(orderId, origClientOrderId, symbol, side, quantity, price,
                                              recvWindow, timestamp));
      && Lookup(q, "orderId") == WhenNonNegative(orderId)
      && Lookup(q, "origClientOrderId") == WhenNonEmpty(origClientOrderId)
      && Lookup(q, "symbol") == Some(symbol)
      && Lookup(q, "side") == Some(side)
      && Lookup(q, "quantity") == Some(quantity)
      && Lookup(q, "price") == Some(price)
      && Lookup(q, "recvWindow") == WhenNonNegative(recvWindow)
      && Lookup(q, "timestamp") == WhenNonNegative(timestamp)
  {
    var fs := ModifyOrderFields(orderId, origClientOrderId, symbol, side, quantity, price, recvWindow, timestamp);
    LookupField(fs, 0);
    LookupField(fs, 1);
    LookupField(fs, 2);
    LookupField(fs, 3);
    LookupField(fs, 4);
    LookupField(fs, 5);
    LookupField(fs, 6);
    LookupField(fs, 7);
  }

  /** The modify request's URL carries the query; its body is the URL's path and query, and is what is signed. */
  lemma ModifyOrderSigned(creds: Credentials, mac: Mac, orderId: Int64, origClientOrderId: string,
                          symbol: string, side: string, quantity: string, price: string,
                          recvWindow: Int64, timestamp: Int64)
    ensures var rq := ModifyOrderRequest(creds, mac, orderId, origClientOrderId, symbol, side, quantity,
                                         price, recvWindow, timestamp).request;
      && rq.verb == PUT && rq.path == "/fapi/v1/order"
      && rq.query == Params(ModifyOrderFields(orderId, origClientOrderId, symbol, side, quantity, price,
                                              recvWindow, timestamp))
      && rq.body == rq.path + "?" + QueryString(rq.query)
      && Lookup(rq.headers, SignatureHeader) == Some(mac(rq.body, creds.apiSecret))
  {
    var fs := ModifyOrderFields(orderId, origClientOrderId, symbol, side, quantity, price, recvWindow, timestamp);
    var q := Params(fs);
    LookupField(fs, 2);
    PathAndQueryText("/fapi/v1/order", q);
    FormSignedHeaders(creds, mac, PUT, "/fapi/v1/order", q, PathAndQuery("/fapi/v1/order", q));
  }

  // ---------------------------------------------------------------------------------------
  // Batch orders: place (POST) or modify (PUT) a batch, given as JSON text.

  function BatchFields(ordersJson: string, recvWindow: Int64, timestamp: Int64): seq<Field> {
    [Always("batchOrders", ordersJson), IfNonNegative("recvWindow", recvWindow),
     IfNonNegative("timestamp", timestamp)]
  }

  /** `ordersJson` stands for `QJsonDocument(orderList).toJson()`. */
  function BatchRequest(creds: Credentials, mac: Mac, verb: Verb, ordersJson: string,
                        recvWindow: Int64, timestamp: Int64): Outcome {
    var q := Params(BatchFields(ordersJson, recvWindow, timestamp));
    Issued(FormSigned(creds, mac, verb, "/fapi/v1/batchOrders", q, PathAndQuery("/fapi/v1/batchOrders", q)))
  }

  /** The steps batchOrders and batchModifyOrders share; they differ only in the verb. */
  method Batch(creds: Credentials, mac: Mac, verb: Verb, ordersJson: string, recvWindow: Int64,
               timestamp: Int64) returns (r: Outcome)
    ensures r == BatchRequest(creds, mac, verb, ordersJson, recvWindow, timestamp)
  {
    var query: seq<Param> := [];
    ghost var written: seq<Field> := [];
    query, written := AddItem(query, written, "batchOrders", ordersJson);
    query, written := AddIfNonNegative(query, written, "recvWindow", recvWindow);
    query, written := AddIfNonNegative(query, written, "timestamp", timestamp);
    assert written == BatchFields(ordersJson, recvWindow, timestamp);
    var payload := PathAndQuery("/fapi/v1/batchOrders", query);
    var headers := [(ApiKeyHeader, creds.apiKey), FormContentType,
                    (SignatureHeader, mac(payload, creds.apiSecret))];
    r := Issued(Request(verb, FuturesBase, "/fapi/v1/batchOrders", query, headers, payload));
  }

  method BatchOrders(creds: Credentials, mac: Mac, ordersJson: string, recvWindow: Int64, timestamp: Int64)
    returns (r: Outcome)
    ensures r == BatchRequest(creds, mac, POST, ordersJson, recvWindow, timestamp)
  {
    r := Batch(creds, mac, POST, ordersJson, recvWindow, timestamp);
  }

  method BatchModifyOrders(creds: Credentials, mac: Mac, ordersJson: string, recvWindow: Int64, timestamp: Int64)
    returns (r: Outcome)
    ensures r == BatchRequest(creds, mac, PUT, ordersJson, recvWindow, timestamp)
  {
    r := Batch(creds, mac, PUT, ordersJson, recvWindow, timestamp);
  }

  /**
   * Placing and modifying a batch send the same query, headers and body, and differ only in
   * the verb; the batch text always leads the query.
   */
  lemma BatchVerbsAgree(creds: Credentials, mac: Mac, ordersJson: string, recvWindow: Int64, timestamp: Int64)
    ensures var placed := BatchRequest(creds, mac, POST, ordersJson, recvWindow, timestamp).request;
      var modified := BatchRequest(creds, mac, PUT, ordersJson, recvWindow, timestamp).request;
      && placed.verb == POST && modified.verb == PUT
      && placed.(verb := PUT) == modified
      && |placed.query| >= 1 && placed.query[0] == ("batchOrders", ordersJson)
      && Lookup(placed.query, "recvWindow") == WhenNonNegative(recvWindow)
      && Lookup(placed.query, "timestamp") == WhenNonNegative(timestamp)
  {
    var fs := BatchFields(ordersJson, recvWindow, timestamp);
    LeadingItems(fs, 1);
    LookupField(fs, 1);
    LookupField(fs, 2);
  }

  // ---------------------------------------------------------------------------------------
  // Order amendment history (GET /fapi/v1/orderAmendment).

  function AmendmentHistoryFields(symbol: string, orderId: Int64, origClientOrderId: string,
                                  startTime: Int64, endTime: Int64, limit: Int32,
                                  recvWindow: Int64, timestamp: Int64): seq<Field> {
    [Always("symbol", symbol), IfNonNegative("orderId", orderId),
     IfNonEmpty("origClientOrderId", origClientOrderId), IfNonNegative("startTime", startTime),
     IfNonNegative("endTime", endTime), IfPositive("limit", limit),
     IfNonNegative("recvWindow", recvWindow), IfNonNegative("timestamp", timestamp)]
  }

  function AmendmentHistoryRequest(creds: Credentials, symbol: string, orderId: Int64,
                                   origClientOrderId: string, startTime: Int64, endTime: Int64,
                                   limit: Int32, recvWindow: Int64, timestamp: Int64): Outcome {
    Issued(Keyed(creds, GET, "/fapi/v1/orderAmendment",
      Params(AmendmentHistoryFields(symbol, orderId, origClientOrderId, startTime, endTime, limit,
                                    recvWindow, timestamp))))
  }

  method GetOrderAmendmentHistory(creds: Credentials, symbol: string, orderId: Int64,
                                  origClientOrderId: string, startTime: Int64, endTime: Int64,
                                  limit: Int32, recvWindow: Int64, timestamp: Int64) returns (r: Outcome)
    ensures r == AmendmentHistoryRequest(creds, symbol, orderId, origClientOrderId, startTime, endTime,
                                         limit, recvWindow, timestamp)
  {
    var query: seq<Param> := [];
    ghost var written: seq<Field> := [];
    query, written := AddItem(query, written, "symbol", symbol);
    query, written := AddIfNonNegative(query, written, "orderId", orderId);
    query, written := AddIfNonEmpty(query, written, "origClientOrderId", origClientOrderId);
    query, written := AddIfNonNegative(query, written, "startTime", startTime);
    query, written := AddIfNonNegative(query, written, "endTime", endTime);
    query, written := AddIfPositive(query, written, "limit", limit);
    query, written := AddIfNonNegative(query, written, "recvWindow", recvWindow);
    query, written := AddIfNonNegative(query, written, "timestamp", timestamp);
    assert written == AmendmentHistoryFields(symbol, orderId, origClientOrderId, startTime, endTime,
                                             limit, recvWindow, timestamp);
    r := Issued(Keyed(creds, GET, "/fapi/v1/orderAmendment", query));
  }

  /** The amendment history sends its limit only when positive; zero means "not given". */
  lemma AmendmentHistoryLimit(creds: Credentials, symbol: string, orderId: Int64, origClientOrderId: string,
                              startTime: Int64, endTime: Int64, limit: Int32, recvWindow: Int64,
                              timestamp: Int64)
    ensures var q := AmendmentHistoryRequest(creds, symbol, orderId, origClientOrderId, startTime, endTime,
                                             limit, recvWindow, timestamp).request.query;
      && Lookup(q, "limit") == WhenPositive(limit)
      && Lookup(q, "orderId") == WhenNonNegative(orderId)
      && Lookup(q, "origClientOrderId") == WhenNonEmpty(origClientOrderId)
      && Lookup(q, "startTime") == WhenNonNegative(startTime)
      && Lookup(q, "endTime") == WhenNonNegative(endTime)
  {
    var fs := AmendmentHistoryFields(symbol, orderId, origClientOrderId, startTime, endTime, limit,
                                     recvWindow, timestamp);
    LookupField(fs, 1);
    LookupField(fs, 2);
    LookupField(fs, 3);
    LookupField(fs, 4);
    LookupField(fs, 5);
  }

  // ---------------------------------------------------------------------------------------
  // Cancel all open orders (DELETE /fapi/v1/allOpenOrders).

  function CancelAllFields(symbol: string, recvWindow: Int64, timestamp: Int64): seq<Field> {
    [Always("symbol", symbol), IfNonNegative("recvWindow", recvWindow), IfNonNegative("timestamp", timestamp)]
  }

  function CancelAllRequest(creds: Credentials, symbol: string, recvWindow: Int64, timestamp: Int64): Outcome {
    Issued(Keyed(creds, DELETE, "/fapi/v1/allOpenOrders", Params(CancelAllFields(symbol, recvWindow, timestamp))))
  }

  method CancelAllOpenOrders(creds: Credentials, symbol: string, recvWindow: Int64, timestamp: Int64)
    returns (r: Outcome)
    ensures r == CancelAllRequest(creds, symbol, recvWindow, timestamp)
  {
    var query: seq<Param> := [];
    ghost var written: seq<Field> := [];
    query, written := AddItem(query, written, "symbol", symbol);
    query, written := AddIfNonNegative(query, written, "recvWindow", recvWindow);
    query, written := AddIfNonNegative(query, written, "timestamp", timestamp);
    assert written == CancelAllFields(symbol, recvWindow, timestamp);
    r := Issued(Keyed(creds, DELETE, "/fapi/v1/allOpenOrders", query));
  }

  lemma CancelAllKeys(creds: Credentials, symbol: string, recvWindow: Int64, timestamp: Int64)
    ensures var rq := CancelAllRequest(creds, symbol, recvWindow, timestamp).request;
      && rq.verb == DELETE
      && |rq.query| >= 1 && rq.query[0] == ("symbol", symbol)
      && Lookup(rq.query, "recvWindow") == WhenNonNegative(recvWindow)
      && Lookup(rq.query, "timestamp") == WhenNonNegative(timestamp)
  {
    var fs := CancelAllFields(symbol, recvWindow, timestamp);
    LeadingItems(fs, 1);
    LookupField(fs, 1);
    LookupField(fs, 2);
  }

  // ---------------------------------------------------------------------------------------
  // Cancel a batch of orders (DELETE /fapi/v1/batchOrders), named by id lists.

  function CancelBatchFields(symbol: string, orderIds: seq<Int64>, origClientOrderIds: seq<string>,
                             recvWindow: Int64, timestamp: Int64): seq<Field> {
    [Always("symbol", symbol), IfAnyItems("orderIdList", |orderIds|, IdListText(orderIds)),
     IfAnyItems("origClientOrderIdList", |origClientOrderIds|, ClientIdListText(origClientOrderIds)),
     IfNonNegative("recvWindow", recvWindow), IfNonNegative("timestamp", timestamp)]
  }

  function CancelBatchRequest(creds: Credentials, symbol: string, orderIds: seq<Int64>,
                              origClientOrderIds: seq<string>, recvWindow: Int64, timestamp: Int64): Outcome {
    Issued(Keyed(creds, DELETE, "/fapi/v1/batchOrders",
      Params(CancelBatchFields(symbol, orderIds, origClientOrderIds, recvWindow, timestamp))))
  }

  method CancelBatchOrders(creds: Credentials, symbol: string, orderIds: seq<Int64>,
                           origClientOrderIds: seq<string>, recvWindow: Int64, timestamp: Int64)
    returns (r: Outcome)
    ensures r == CancelBatchRequest(creds, symbol, orderIds, origClientOrderIds, recvWindow, timestamp)
  {
    var query: seq<Param> := [];
    ghost var written: seq<Field> := [];
    query, written := AddItem(query, written, "symbol", symbol);
    query, written := AddIdList(query, written, "orderIdList", orderIds);
    query, written := AddClientIdList(query, written, "origClientOrderIdList", origClientOrderIds);
    query, written := AddIfNonNegative(query, written, "recvWindow", recvWindow);
    query, written := AddIfNonNegative(query, written, "timestamp", timestamp);
    assert written == CancelBatchFields(symbol, orderIds, origClientOrderIds, recvWindow, timestamp);
    r := Issued(Keyed(creds, DELETE, "/fapi/v1/batchOrders", query));
  }

  /**
   * Each id list is sent only when it has items, as bracketed, comma-separated text; the
   * order ids read back from it exactly, and so do the client ids when none holds a ','.
   */
  lemma CancelBatchLists(creds: Credentials, symbol: string, orderIds: seq<Int64>,
                         origClientOrderIds: seq<string>, recvWindow: Int64, timestamp: Int64)
    ensures var q := CancelBatchRequest(creds, symbol, orderIds, origClientOrderIds, recvWindow, timestamp)
                     .request.query;
      && Lookup(q, "orderIdList") == (if |orderIds| > 0 then Some(IdListText(orderIds)) else None)
      && Lookup(q, "origClientOrderIdList")
         == (if |origClientOrderIds| > 0 then Some(ClientIdListText(origClientOrderIds)) else None)
      && (|orderIds| > 0 ==> ParseIdList(Lookup(q, "orderIdList").value) == Some(orderIds))
      && (|origClientOrderIds| > 0 && (forall i :: 0 <= i < |origClientOrderIds| ==> Free(origClientOrderIds[i], ','))
          ==> ParseClientIdList(Lookup(q, "origClientOrderIdList").value) == Some(origClientOrderIds))
      && Lookup(q, "recvWindow") == WhenNonNegative(recvWindow)
      && Lookup(q, "timestamp") == WhenNonNegative(timestamp)
  {
    var fs := CancelBatchFields(symbol, orderIds, origClientOrderIds, recvWindow, timestamp);
    LookupField(fs, 1);
    LookupField(fs, 2);
    LookupField(fs, 3);
    LookupField(fs, 4);
    IdListRoundTrip(orderIds);
    if forall i :: 0 <= i < |origClientOrderIds| ==> Free(origClientOrderIds[i], ',') {
      ClientIdListRoundTrip(origClientOrderIds);
    }
  }

  // ---------------------------------------------------------------------------------------
  // Auto-cancel countdown (POST /fapi/v1/countdownCancelAll): the query is never set on the
  // URL; its text is the body, sent without content type or signature.

  function CountdownFields(symbol: string, countdownTime: Int64, recvWindow: Int64, timestamp: Int64): seq<Field> {
    [Always("symbol", symbol), Always("countdownTime", IntToString(countdownTime)),
     IfNonNegative("recvWindow", recvWindow), IfNonNegative("timestamp", timestamp)]
  }

  function CountdownRequest(creds: Credentials, symbol: string, countdownTime: Int64, recvWindow: Int64,
                            timestamp: Int64): Outcome {
    Issued(Request(POST, FuturesBase, "/fapi/v1/countdownCancelAll", [], [(ApiKeyHeader, creds.apiKey)],
                   QueryString(Params(CountdownFields(symbol, countdownTime, recvWindow, timestamp)))))
  }

  method CountdownCancelAll(creds: Credentials, symbol: string, countdownTime: Int64, recvWindow: Int64,
                            timestamp: Int64) returns (r: Outcome)
    ensures r == CountdownRequest(creds, symbol, countdownTime, recvWindow, timestamp)
  {
    var query: seq<Param> := [];
    ghost var written: seq<Field> := [];
    query, written := AddItem(query, written, "symbol", symbol);
    query, written := AddItem(query, written, "countdownTime", IntToString(countdownTime));
    query, written := AddIfNonNegative(query, written, "recvWindow", recvWindow);
    query, written := AddIfNonNegative(query, written, "timestamp", timestamp);
    assert written == CountdownFields(symbol, countdownTime, recvWindow, timestamp);
    r := Issued(Request(POST, FuturesBase, "/fapi/v1/countdownCancelAll", [], [(ApiKeyHeader, creds.apiKey)],
                        QueryString(query)));
  }

  /**
   * The countdown always sends symbol and countdown time first, then the window and timestamp
   * when non-negative.
   */
  lemma CountdownKeys(symbol: string, countdownTime: Int64, recvWindow: Int64, timestamp: Int64)
    ensures var q := Params(CountdownFields(symbol, countdownTime, recvWindow, timestamp));
      && |q| >= 2 && q[..2] == [("symbol", symbol), ("countdownTime", IntToString(countdownTime))]
      && Lookup(q, "recvWindow") == WhenNonNegative(recvWindow)
      && Lookup(q, "timestamp") == WhenNonNegative(timestamp)
  {
    var fs := CountdownFields(symbol, countdownTime, recvWindow, timestamp);
    LeadingItems(fs, 2);
    LookupField(fs, 2);
    LookupField(fs, 3);
  }

  /**
   * The countdown's URL has no query and no signature is attached; for a symbol free of '&'
   * and '=' the body reads back to exactly the query built.
   */
  lemma CountdownBody(creds: Credentials, symbol: string, countdownTime: Int64, recvWindow: Int64,
                      timestamp: Int64)
    ensures var rq := CountdownRequest(creds, symbol, countdownTime, recvWindow, timestamp).request;
      && rq.query == [] && !Signed(rq)
      && (Plain(symbol) ==>
            ParseQueryString(rq.body) == Some(Params(CountdownFields(symbol, countdownTime, recvWindow, timestamp))))
  {
    KeyedHeaders(creds, POST, "/fapi/v1/countdownCancelAll", []);
    if Plain(symbol) {
      CountdownPlain(symbol, countdownTime, recvWindow, timestamp);
      QueryStringRoundTrip(Params(CountdownFields(symbol, countdownTime, recvWindow, timestamp)));
    }
  }

  lemma CountdownPlain(symbol: string, countdownTime: Int64, recvWindow: Int64, timestamp: Int64)
    requires Plain(symbol)
    ensures PlainParams(Params(CountdownFields(symbol, countdownTime, recvWindow, timestamp)))
  {
    NumberPlain(countdownTime);
    NumberPlain(recvWindow);
    NumberPlain(timestamp);
    CountdownKeysPlain();
    PlainFields(CountdownFields(symbol, countdownTime, recvWindow, timestamp));
  }

  lemma CountdownKeysPlain()
    ensures Plain("symbol") && Plain("countdownTime") && Plain("recvWindow") && Plain("timestamp")
  {
  }

  // ---------------------------------------------------------------------------------------
  // Open orders (GET /fapi/v1/openOrders) and all orders (GET /fapi/v1/allOrders).

  method GetOpenOrders(creds: Credentials, symbol: string, recvWindow: Int64, timestamp: Int64)
    returns (r: Outcome)
    ensures r == SymbolWindowRequest(creds, "/fapi/v1/openOrders", symbol, recvWindow, timestamp)
  {
    r := SymbolWindow(creds, "/fapi/v1/openOrders", symbol, recvWindow, timestamp);
  }

  function AllOrdersFields(symbol: string, orderId: Int64, startTime: Int64, endTime: Int64, limit: Int32,
                           recvWindow: Int64, timestamp: Int64): seq<Field> {
    [Always("symbol", symbol), IfNonNegative("orderId", orderId), IfNonNegative("startTime", startTime),
     IfNonNegative("endTime", endTime), IfNonNegative("limit", limit),
     IfNonNegative("recvWindow", recvWindow), IfNonNegative("timestamp", timestamp)]
  }

  function AllOrdersRequest(creds: Credentials, symbol: string, orderId: Int64, startTime: Int64,
                            endTime: Int64, limit: Int32, recvWindow: Int64, timestamp: Int64): Outcome {
    Issued(Keyed(creds, GET, "/fapi/v1/allOrders",
      Params(AllOrdersFields(symbol, orderId, startTime, endTime, limit, recvWindow, timestamp))))
  }

  method GetAllOrders(creds: Credentials, symbol: string, orderId: Int64, startTime: Int64, endTime: Int64,
                      limit: Int32, recvWindow: Int64, timestamp: Int64) returns (r: Outcome)
    ensures r == AllOrdersRequest(creds, symbol, orderId, startTime, endTime, limit, recvWindow, timestamp)
  {
    var query: seq<Param> := [];
    ghost var written: seq<Field> := [];
    query, written := AddItem(query, written, "symbol", symbol);
    query, written := AddIfNonNegative(query, written, "orderId", orderId);
    query, written := AddIfNonNegative(query, written, "startTime", startTime);
    query, written := AddIfNonNegative(query, written, "endTime", endTime);
    query, written := AddIfNonNegative(query, written, "limit", limit);
    query, written := AddIfNonNegative(query, written, "recvWindow", recvWindow);
    query, written := AddIfNonNegative(query, written, "timestamp", timestamp);
    assert written == AllOrdersFields(symbol, orderId, startTime, endTime, limit, recvWindow, timestamp);
    r := Issued(Keyed(creds, GET, "/fapi/v1/allOrders", query));
  }

  /**
   * getAllOrders sends every optional number, the limit included, exactly when it is
   * non-negative, so a limit of 0 is sent.
   */
  lemma AllOrdersKeys(creds: Credentials, symbol: string, orderId: Int64, startTime: Int64, endTime: Int64,
                      limit: Int32, recvWindow: Int64, timestamp: Int64)
    ensures var q := AllOrdersRequest(creds, symbol, orderId, startTime, endTime, limit, recvWindow,
                                      timestamp).request.query;
      && |q| >= 1 && q[0] == ("symbol", symbol)
      && Lookup(q, "orderId") == WhenNonNegative(orderId)
      && Lookup(q, "startTime") == WhenNonNegative(startTime)
      && Lookup(q, "endTime") == WhenNonNegative(endTime)
      && Lookup(q, "limit") == WhenNonNegative(limit)
      && Lookup(q, "recvWindow") == WhenNonNegative(recvWindow)
      && Lookup(q, "timestamp") == WhenNonNegative(timestamp)
  {
    var fs := AllOrdersFields(symbol, orderId, startTime, endTime, limit, recvWindow, timestamp);
    LeadingItems(fs, 1);
    LookupField(fs, 1);
    LookupField(fs, 2);
    LookupField(fs, 3);
    LookupField(fs, 4);
    LookupField(fs, 5);
    LookupField(fs, 6);
  }

  /** The time window and the recvWindow/timestamp pair are sent in the order written. */
  lemma AllOrdersOrder(creds: Credentials, symbol: string, orderId: Int64, startTime: Int64, endTime: Int64,
                       limit: Int32, recvWindow: Int64, timestamp: Int64)
    ensures var q := AllOrdersRequest(creds, symbol, orderId, startTime, endTime, limit, recvWindow,
                                      timestamp).request.query;
      && (startTime >= 0 && endTime >= 0 ==> Position(q, "startTime") < Position(q, "endTime"))
      && (recvWindow >= 0 && timestamp >= 0 ==> Position(q, "recvWindow") < Position(q, "timestamp"))
  {
    var fs := AllOrdersFields(symbol, orderId, startTime, endTime, limit, recvWindow, timestamp);
    if startTime >= 0 && endTime >= 0 {
      FieldOrder(fs, 2, 3);
    }
    if recvWindow >= 0 && timestamp >= 0 {
      FieldOrder(fs, 5, 6);
    }
  }
}
