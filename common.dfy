/**
 * Two query shapes that several account and order builders of binanceapi.cpp share: only the
 * receive window and timestamp, or an optional symbol followed by them. Each is sent with the
 * API-key header and no signature.
 */
module Common {

  import opened Wrappers
  import opened Decimal
  import opened Query
  import opened Http

  /** recvWindow, then timestamp, each only when non-negative. */
  function WindowFields(recvWindow: Int64, timestamp: Int64): seq<Field> {
    [IfNonNegative("recvWindow", recvWindow), IfNonNegative("timestamp", timestamp)]
  }

  function WindowRequest(creds: Credentials, path: string, recvWindow: Int64, timestamp: Int64): Outcome {
    Issued(Keyed(creds, GET, path, Params(WindowFields(recvWindow, timestamp))))
  }

  /** The steps of the builders whose only arguments are recvWindow and timestamp. */
  method Window(creds: Credentials, path: string, recvWindow: Int64, timestamp: Int64) returns (r: Outcome)
    ensures r == WindowRequest(creds, path, recvWindow, timestamp)
  {
    var query: seq<Param> := [];
    ghost var written: seq<Field> := [];
    query, written := AddIfNonNegative(query, written, "recvWindow", recvWindow);
    query, written := AddIfNonNegative(query, written, "timestamp", timestamp);
    assert written == WindowFields(recvWindow, timestamp);
    r := Issued(Keyed(creds, GET, path, query));
  }

  /**
   * The window query holds recvWindow exactly when it is non-negative and timestamp exactly
   * when it is non-negative, in that order; with both sentinels it is empty.
   */
  lemma WindowKeys(recvWindow: Int64, timestamp: Int64)
    ensures var q := Params(WindowFields(recvWindow, timestamp));
      && Lookup(q, "recvWindow") == WhenNonNegative(recvWindow)
      && Lookup(q, "timestamp") == WhenNonNegative(timestamp)
      && (recvWindow >= 0 && timestamp >= 0 ==> Position(q, "recvWindow") < Position(q, "timestamp"))
      && (q == [] <==> recvWindow < 0 && timestamp < 0)
  {
    var fs := WindowFields(recvWindow, timestamp);
    LookupField(fs, 0);
    LookupField(fs, 1);
    if recvWindow >= 0 && timestamp >= 0 {
      FieldOrder(fs, 0, 1);
    }
    EmptyParams(fs);
  }

  /** symbol when non-empty, then recvWindow and timestamp when non-negative. */
  function SymbolWindowFields(symbol: string, recvWindow: Int64, timestamp: Int64): seq<Field> {
    [IfNonEmpty("symbol", symbol), IfNonNegative("recvWindow", recvWindow), IfNonNegative("timestamp", timestamp)]
  }

  function SymbolWindowRequest(creds: Credentials, path: string, symbol: string, recvWindow: Int64,
                               timestamp: Int64): Outcome {
    Issued(Keyed(creds, GET, path, Params(SymbolWindowFields(symbol, recvWindow, timestamp))))
  }

  /** The steps of the builders whose arguments are an optional symbol, recvWindow and timestamp. */
  method SymbolWindow(creds: Credentials, path: string, symbol: string, recvWindow: Int64, timestamp: Int64)
    returns (r: Outcome)
    ensures r == SymbolWindowRequest(creds, path, symbol, recvWindow, timestamp)
  {
    var query: seq<Param> := [];
    ghost var written: seq<Field> := [];
    query, written := AddIfNonEmpty(query, written, "symbol", symbol);
    query, written := AddIfNonNegative(query, written, "recvWindow", recvWindow);
    query, written := AddIfNonNegative(query, written, "timestamp", timestamp);
    assert written == SymbolWindowFields(symbol, recvWindow, timestamp);
    r := Issued(Keyed(creds, GET, path, query));
  }

  /**
   * Without a symbol, or with sentinel window and timestamp, those keys are simply absent;
   * the request carries the API key and no signature.
   */
  lemma SymbolWindowKeys(creds: Credentials, path: string, symbol: string, recvWindow: Int64, timestamp: Int64)
    ensures var rq := SymbolWindowRequest(creds, path, symbol, recvWindow, timestamp).request;
      && Lookup(rq.query, "symbol") == WhenNonEmpty(symbol)
      && Lookup(rq.query, "recvWindow") == WhenNonNegative(recvWindow)
      && Lookup(rq.query, "timestamp") == WhenNonNegative(timestamp)
      && (rq.query == [] <==> symbol == "" && recvWindow < 0 && timestamp < 0)
      && rq.headers == [(ApiKeyHeader, creds.apiKey)]
  {
    var fs := SymbolWindowFields(symbol, recvWindow, timestamp);
    LookupField(fs, 0);
    LookupField(fs, 1);
    LookupField(fs, 2);
    EmptyParams(fs);
  }
}
