/**
 * The two list serialisers of `cancelBatchOrders`: order ids become `[1,2,3]` and client
 * order ids become `["a","b"]`. Each is written as the source writes it, a loop filling a
 * `QStringList` that is then joined, and proved against a declarative rendering. A reader for
 * each rendering shows that no information is lost for order ids and for client ids free of
 * ','; client ids are quoted without escaping, so ids holding `","` collide.
 */
module BatchLists {

  import opened Wrappers
  import opened Decimal
  import opened Text
  import opened Query

  /** The decimal rendering of each id, in list order. */
  function RenderIds(ids: seq<Int64>): (parts: seq<string>)
    ensures |parts| == |ids|
    ensures forall i :: 0 <= i < |ids| ==> parts[i] == IntToString(ids[i])
  {
    seq(|ids|, i requires 0 <= i < |ids| => IntToString(ids[i]))
  }

  function Quoted(s: string): string {
    "\"" + s + "\""
  }

  /** Each client id between double quotes, in list order. */
  function QuoteAll(ids: seq<string>): (parts: seq<string>)
    ensures |parts| == |ids|
    ensures forall i :: 0 <= i < |ids| ==> parts[i] == Quoted(ids[i])
  {
    seq(|ids|, i requires 0 <= i < |ids| => Quoted(ids[i]))
  }

  function Bracketed(parts: seq<string>): string {
    "[" + Join(parts, ',') + "]"
  }

  /** The text sent as `orderIdList`. */
  function IdListText(ids: seq<Int64>): string {
    Bracketed(RenderIds(ids))
  }

  /** The text sent as `origClientOrderIdList`. */
  function ClientIdListText(ids: seq<string>): string {
    Bracketed(QuoteAll(ids))
  }

  method RenderIdList(ids: seq<Int64>) returns (text: string)
    ensures text == IdListText(ids)
  {
    var parts: seq<string> := [];
    for i := 0 to |ids|
      invariant |parts| == i
      invariant forall k :: 0 <= k < i ==> parts[k] == IntToString(ids[k])
    {
      parts := parts + [IntToString(ids[i])];
    }
    assert parts == RenderIds(ids);
    text := "[" + Join(parts, ',') + "]";
  }

  method RenderClientIdList(ids: seq<string>) returns (text: string)
    ensures text == ClientIdListText(ids)
  {
    var parts: seq<string> := [];
    for i := 0 to |ids|
      invariant |parts| == i
      invariant forall k :: 0 <= k < i ==> parts[k] == Quoted(ids[k])
    {
      parts := parts + ["\"" + ids[i] + "\""];
    }
    assert parts == QuoteAll(ids);
    text := "[" + Join(parts, ',') + "]";
  }

  // ---------------------------------------------------------------------------------------
  // The builder steps that add a list under its key only when the list has items.

  method AddIdList(query: seq<Param>, ghost written: seq<Field>, key: string, ids: seq<Int64>)
    returns (query': seq<Param>, ghost written': seq<Field>)
    requires query == Params(written)
    ensures query' == query + (if |ids| > 0 then [(key, IdListText(ids))] else [])
    ensures written' == written + [IfAnyItems(key, |ids|, IdListText(ids))] && query' == Params(written')
  {
    query' := query;
    if |ids| > 0 {
      var text := RenderIdList(ids);
      query' := query' + [(key, text)];
    }
    written' := written + [IfAnyItems(key, |ids|, IdListText(ids))];
    ParamsSnoc(written, IfAnyItems(key, |ids|, IdListText(ids)));
  }

  method AddClientIdList(query: seq<Param>, ghost written: seq<Field>, key: string, ids: seq<string>)
    returns (query': seq<Param>, ghost written': seq<Field>)
    requires query == Params(written)
    ensures query' == query + (if |ids| > 0 then [(key, ClientIdListText(ids))] else [])
    ensures written' == written + [IfAnyItems(key, |ids|, ClientIdListText(ids))] && query' == Params(written')
  {
    query' := query;
    if |ids| > 0 {
      var text := RenderClientIdList(ids);
      query' := query' + [(key, text)];
    }
    written' := written + [IfAnyItems(key, |ids|, ClientIdListText(ids))];
    ParamsSnoc(written, IfAnyItems(key, |ids|, ClientIdListText(ids)));
  }

  // ---------------------------------------------------------------------------------------
  // Readers.

  /** The text between a leading '[' and a trailing ']'. */
  function Unbracket(s: string): Option<string> {
    if |s| >= 2 && s[0] == '[' && s[|s| - 1] == ']' then Some(s[1..|s| - 1]) else None
  }

  /** The text between a leading and a trailing double quote. */
  function Unquote(s: string): Option<string> {
    if |s| >= 2 && s[0] == '"' && s[|s| - 1] == '"' then Some(s[1..|s| - 1]) else None
  }

  /** The comma-separated pieces inside the brackets; none for `[]`. */
  function ListItems(s: string): Option<seq<string>> {
    match Unbracket(s)
    case None => None
    case Some(inner) => if inner == "" then Some([]) else Some(Split(inner, ','))
  }

  function ParseInts(parts: seq<string>): Option<seq<int>> {
    if parts == [] then Some([])
    else match (ParseInt(parts[0]), ParseInts(parts[1..]))
      case (Some(n), Some(ns)) => Some([n] + ns)
      case _ => None
  }

  function UnquoteAll(parts: seq<string>): Option<seq<string>> {
    if parts == [] then Some([])
    else match (Unquote(parts[0]), UnquoteAll(parts[1..]))
      case (Some(id), Some(ids)) => Some([id] + ids)
      case _ => None
  }

  function ParseIdList(s: string): Option<seq<int>> {
    match ListItems(s)
    case None => None
    case Some(parts) => ParseInts(parts)
  }

  function ParseClientIdList(s: string): Option<seq<string>> {
    match ListItems(s)
    case None => None
    case Some(parts) => UnquoteAll(parts)
  }

  // ---------------------------------------------------------------------------------------
  // Round trips.

  lemma UnbracketBracketed(parts: seq<string>)
    ensures Unbracket(Bracketed(parts)) == Some(Join(parts, ','))
  {
    var s := Bracketed(parts);
    assert s[1..|s| - 1] == Join(parts, ',');
  }

  /** A non-empty list joins to non-empty text. */
  lemma {:induction false} JoinNonEmpty(parts: seq<string>, sep: char)
    requires |parts| >= 2 || (|parts| == 1 && parts[0] != "")
    ensures Join(parts, sep) != ""
  {
    if |parts| >= 2 {
      assert |Join(parts, sep)| >= |parts[0]| + 1;
    }
  }

  /** Reads every rendering back as a list of ids without a separator in a single item. */
  lemma {:induction false} ListItemsOfBracketed(parts: seq<string>)
    requires AllFree(parts, ',')
    requires |parts| == 1 ==> parts[0] != ""
    ensures ListItems(Bracketed(parts)) == Some(parts)
  {
    UnbracketBracketed(parts);
    if parts != [] {
      JoinNonEmpty(parts, ',');
      SplitJoin(parts, ',');
    }
  }

  lemma {:induction false} ParseIntsRendered(ids: seq<Int64>)
    ensures ParseInts(RenderIds(ids)) == Some(ids)
    decreases |ids|
  {
    if ids != [] {
      IntToStringRoundTrip(ids[0]);
      ParseIntsRendered(ids[1..]);
      assert RenderIds(ids)[1..] == RenderIds(ids[1..]);
      assert [ids[0] as int] + ids[1..] == ids;
    }
  }

  lemma {:induction false} UnquoteAllQuoted(ids: seq<string>)
    ensures UnquoteAll(QuoteAll(ids)) == Some(ids)
    decreases |ids|
  {
    if ids != [] {
      var q := Quoted(ids[0]);
      assert q[1..|q| - 1] == ids[0];
      UnquoteAllQuoted(ids[1..]);
      assert QuoteAll(ids)[1..] == QuoteAll(ids[1..]);
      assert [ids[0]] + ids[1..] == ids;
    }
  }

  /** The order-id list text reads back to the ids it was made from, for every list. */
  lemma IdListRoundTrip(ids: seq<Int64>)
    ensures ParseIdList(IdListText(ids)) == Some(ids)
  {
    var parts := RenderIds(ids);
    forall j | 0 <= j < |parts| ensures Free(parts[j], ',') {
      forall i | 0 <= i < |parts[j]| ensures parts[j][i] != ',' {
        IntToStringChars(ids[j], i);
      }
    }
    ListItemsOfBracketed(parts);
    ParseIntsRendered(ids);
  }

  /** The client-id list text reads back to the ids it was made from when no id holds a ','. */
  lemma ClientIdListRoundTrip(ids: seq<string>)
    requires forall i :: 0 <= i < |ids| ==> Free(ids[i], ',')
    ensures ParseClientIdList(ClientIdListText(ids)) == Some(ids)
  {
    var parts := QuoteAll(ids);
    forall j | 0 <= j < |parts| ensures Free(parts[j], ',') {
      assert parts[j] == "\"" + ids[j] + "\"";
    }
    if |parts| == 1 {
      assert |parts[0]| >= 2;
    }
    ListItemsOfBracketed(parts);
    UnquoteAllQuoted(ids);
  }

  /**
   * The reader splits on every ',', so it cannot read back a client id that holds one: this is
   * why the client-id round trip asks for comma-free ids.
   */
  lemma ClientIdWithComma()
    ensures ParseClientIdList(ClientIdListText(["a,b"])) != Some(["a,b"])
  {
    var text := ClientIdListText(["a,b"]);
    assert Quoted("a,b") == "\"a,b\"";
    assert QuoteAll(["a,b"]) == ["\"a,b\""];
    assert text == "[\"a,b\"]";
    assert Unbracket(text) == Some("\"a,b\"");
    assert "\"a,b\"" == "\"a" + [','] + "b\"";
    SplitFirst("\"a", ',', "b\"");
    SplitFree("b\"", ',');
    assert Unquote("\"a") == None;
  }

  /**
   * The quotes around each client id are not escaped, so the rendering loses information: a
   * single id holding `","` renders exactly like the two ids on either side of it.
   */
  lemma ClientIdListCollision(a: string, b: string)
    ensures [a + "\",\"" + b] != [a, b]
    ensures ClientIdListText([a + "\",\"" + b]) == ClientIdListText([a, b])
  {
  }
}
