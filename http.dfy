/**
 * What a builder hands to the transport, and the two ways a call can end before any I/O:
 * rejected by client-side validation, or issued as exactly one request.
 */
module Http {

  import opened Wrappers
  import opened Decimal
  import opened Query

  datatype Verb = GET | POST | PUT | DELETE

  /** Scheme and authority of the futures REST host, where every endpoint but one lives. */
  const FuturesBase := "https://fapi.binance.com"

  /** Scheme and authority of the general REST host (the v3 account endpoint). */
  const GeneralBase := "https://api.binance.com"

  const ApiKeyHeader := "X-MBX-APIKEY"
  const SignatureHeader := "signature"

  /** The query-item key of the one call that signs inside the query. */
  const SignatureKey := "signature"
  const FormContentType: Param := ("Content-Type", "application/x-www-form-urlencoded")

  /**
   * A request as the transport receives it: verb, the URL (base, path and query items),
   * the raw headers in the order they were set, and the body (empty for GET and DELETE and
   * for POST/PUT with an empty QByteArray).
   */
  datatype Request = Request(
    verb: Verb,
    base: string,
    path: string,
    query: seq<Param>,
    headers: seq<Param>,
    body: string)

  /** Rejected: validation failed, nothing is sent; `argument` names the check that fired. */
  datatype Outcome =
    | Rejected(argument: string, message: string)
    | Issued(request: Request)

  /** The API key and secret given to the constructor and never changed afterwards. */
  datatype Credentials = Credentials(apiKey: string, apiSecret: string)

  /**
   * Hex-encoded HMAC-SHA256 of (message, key), i.e. `QMessageAuthenticationCode::hash(message,
   * key, Sha256).toHex()`. The model takes it as a given function and assumes nothing about it.
   */
  type Mac = (string, string) -> string

  /** `QUrl::toEncoded()` (percent-encoding aside): a query only when it has items. */
  function UrlText(base: string, path: string, query: seq<Param>): string {
    base + path + (if query == [] then "" else "?" + QueryString(query))
  }

  /** `QUrl::toEncoded(QUrl::RemoveScheme | QUrl::RemoveAuthority)`: path and query only. */
  function PathAndQuery(path: string, query: seq<Param>): string {
    UrlText("", path, query)
  }

  /** The path, then a '?' and the query text when the query has items. */
  lemma PathAndQueryText(path: string, query: seq<Param>)
    ensures PathAndQuery(path, query) == if query == [] then path else path + "?" + QueryString(query)
  {
    assert "" + path == path;
  }

  /** An unauthenticated request to the futures host with no body. */
  function Public(verb: Verb, path: string, query: seq<Param>): Request {
    Request(verb, FuturesBase, path, query, [], "")
  }

  /** A request to the futures host that carries only the API-key header. */
  function Keyed(creds: Credentials, verb: Verb, path: string, query: seq<Param>): Request {
    Request(verb, FuturesBase, path, query, [(ApiKeyHeader, creds.apiKey)], "")
  }

  /**
   * A form-style signed request: API-key header, form content type, then the signature
   * header, which is the MAC of `payload` under the secret; the payload is also the body.
   */
  function FormSigned(creds: Credentials, mac: Mac, verb: Verb, path: string, query: seq<Param>,
                      payload: string): Request {
    Request(verb, FuturesBase, path, query,
      [(ApiKeyHeader, creds.apiKey), FormContentType, (SignatureHeader, mac(payload, creds.apiSecret))],
      payload)
  }

  /** The three headers of a form-style signed request, each found under its own name. */
  lemma FormSignedHeaders(creds: Credentials, mac: Mac, verb: Verb, path: string, query: seq<Param>,
                          payload: string)
    ensures var hs := FormSigned(creds, mac, verb, path, query, payload).headers;
      && Lookup(hs, ApiKeyHeader) == Some(creds.apiKey)
      && Lookup(hs, FormContentType.0) == Some(FormContentType.1)
      && Lookup(hs, SignatureHeader) == Some(mac(payload, creds.apiSecret))
  {
    var hs := FormSigned(creds, mac, verb, path, query, payload).headers;
    assert hs[1..] == [FormContentType, (SignatureHeader, mac(payload, creds.apiSecret))];
    assert hs[1..][1..] == [(SignatureHeader, mac(payload, creds.apiSecret))];
    assert ApiKeyHeader[0] != SignatureHeader[0] && FormContentType.0[0] != SignatureHeader[0];
    assert ApiKeyHeader[0] != FormContentType.0[0];
    assert Lookup(hs[1..][1..], SignatureHeader) == Some(mac(payload, creds.apiSecret));
    assert Lookup(hs[1..], SignatureHeader) == Lookup(hs[1..][1..], SignatureHeader);
  }

  /** The API-key header alone holds no signature. */
  lemma KeyedHeaders(creds: Credentials, verb: Verb, path: string, query: seq<Param>)
    ensures Lookup(Keyed(creds, verb, path, query).headers, SignatureHeader) == None
  {
    assert [(ApiKeyHeader, creds.apiKey)][1..] == [];
  }

  /** Whether a request carries a signature, as a header or as a query item. */
  predicate Signed(r: Request) {
    Lookup(r.headers, SignatureHeader).Some? || Lookup(r.query, SignatureKey).Some?
  }

  /** Helpers for stating which value, if any, a builder sends under a key. */
  function WhenNonEmpty(s: string): Option<string> {
    if s != "" then Some(s) else None
  }

  function WhenNonNegative(n: int): Option<string> {
    if n >= 0 then Some(IntToString(n)) else None
  }

  function WhenPositive(n: int): Option<string> {
    if n > 0 then Some(IntToString(n)) else None
  }

  function WhenPositiveAtMost(n: int, bound: int): Option<string> {
    if 0 < n <= bound then Some(IntToString(n)) else None
  }
}
