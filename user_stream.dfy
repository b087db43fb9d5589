/**
 * The user data stream calls of binanceapi.cpp: create a listen key, then keep it alive or
 * close it. All three go to the same path, differ only in verb and in whether the key is
 * sent, and carry no headers and no body.
 */
module UserStream {

  import opened Wrappers
  import opened Query
  import opened Http

  const ListenKeyPath := "/fapi/v1/listenKey"

  function StreamRequest(verb: Verb, listenKey: Option<string>): Outcome {
    Issued(Public(verb, ListenKeyPath, if listenKey.Some? then [("listenKey", listenKey.value)] else []))
  }

  /** POST with no query and an empty body. */
  method CreateUserDataStream() returns (r: Outcome)
    ensures r == StreamRequest(POST, None)
  {
    r := Issued(Request(POST, FuturesBase, ListenKeyPath, [], [], ""));
  }

  /** PUT with the listen key as the only query item, whatever its value. */
  method ExtendUserDataStream(listenKey: string) returns (r: Outcome)
    ensures r == StreamRequest(PUT, Some(listenKey))
  {
    var query: seq<Param> := [];
    query := query + [("listenKey", listenKey)];
    r := Issued(Request(PUT, FuturesBase, ListenKeyPath, query, [], ""));
  }

  /** DELETE with the listen key as the only query item. */
  method CloseUserDataStream(listenKey: string) returns (r: Outcome)
    ensures r == StreamRequest(DELETE, Some(listenKey))
  {
    var query: seq<Param> := [];
    query := query + [("listenKey", listenKey)];
    r := Issued(Request(DELETE, FuturesBase, ListenKeyPath, query, [], ""));
  }

  /**
   * None of the stream calls is rejected, sends the API key or a signature; extend and
   * close send exactly the key they were given, and differ only in their verb.
   */
  lemma StreamRequests(listenKey: string)
    ensures forall verb: Verb, k: Option<string> ::
      var rq := StreamRequest(verb, k).request;
      StreamRequest(verb, k).Issued? && rq.headers == [] && rq.body == ""
      && Lookup(rq.headers, ApiKeyHeader) == None && !Signed(rq)
    ensures var extend := StreamRequest(PUT, Some(listenKey)).request;
      && Lookup(extend.query, "listenKey") == Some(listenKey) && |extend.query| == 1
      && StreamRequest(DELETE, Some(listenKey)).request == extend.(verb := DELETE)
    ensures StreamRequest(POST, None).request.query == []
  {
    forall verb: Verb, k: Option<string>
      ensures !Signed(StreamRequest(verb, k).request)
    {
      var q := StreamRequest(verb, k).request.query;
      if k.Some? {
        assert q[1..] == [];
        assert "listenKey"[0] != SignatureKey[0];
      }
    }
  }
}
