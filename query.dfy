/**
 * The query of a request: the ordered list of key/value items that the builders fill with
 * `QUrlQuery::addQueryItem`, its text form `k1=v1&k2=v2` (as `QUrlQuery::toString` writes it,
 * percent-encoding aside), and the guarded insertions every builder is made of.
 */
module Query {

  import opened Wrappers
  import opened Decimal
  import opened Text

  /** One query item, (key, value), in the order it was added. */
  type Param = (string, string)

  function Keys(ps: seq<Param>): (ks: seq<string>)
    ensures |ks| == |ps|
    ensures forall i :: 0 <= i < |ps| ==> ks[i] == ps[i].0
  {
    if ps == [] then [] else [ps[0].0] + Keys(ps[1..])
  }

  /** The value first added under `key`, as `QUrlQuery::queryItemValue` reports it. */
  function Lookup(ps: seq<Param>, key: string): Option<string> {
    if ps == [] then None
    else if ps[0].0 == key then Some(ps[0].1)
    else Lookup(ps[1..], key)
  }

  /** The key is absent exactly when no item carries it; a value found was added under the key. */
  lemma {:induction false} LookupSpec(ps: seq<Param>, key: string)
    ensures Lookup(ps, key).None? <==> forall i :: 0 <= i < |ps| ==> ps[i].0 != key
    ensures Lookup(ps, key).Some? ==> exists i :: 0 <= i < |ps| && ps[i] == (key, Lookup(ps, key).value)
    decreases |ps|
  {
    if ps != [] && ps[0].0 != key {
      LookupSpec(ps[1..], key);
      var v := Lookup(ps, key);
      if v.Some? {
        var j :| 0 <= j < |ps[1..]| && ps[1..][j] == (key, v.value);
        assert ps[j + 1] == (key, v.value);
      }
      if v.None? {
        forall i | 0 <= i < |ps| ensures ps[i].0 != key {
          if i > 0 { assert ps[i] == ps[1..][i - 1]; }
        }
      }
    }
  }

  /** Looking a key up in two queries laid end to end finds it in the first one if it is there. */
  lemma {:induction false} LookupAppend(a: seq<Param>, b: seq<Param>, key: string)
    ensures Lookup(a + b, key) == if Lookup(a, key).Some? then Lookup(a, key) else Lookup(b, key)
    decreases |a|
  {
    if a == [] {
      assert a + b == b;
    } else {
      assert (a + b)[1..] == a[1..] + b;
      LookupAppend(a[1..], b, key);
    }
  }

  /** The index of the first item added under `key`, or the length when there is none. */
  function Position(ps: seq<Param>, key: string): (n: nat)
    ensures n <= |ps|
    ensures n < |ps| <==> Lookup(ps, key).Some?
  {
    if ps == [] then 0
    else if ps[0].0 == key then 0
    else 1 + Position(ps[1..], key)
  }

  function Item(p: Param): string {
    p.0 + "=" + p.1
  }

  function Items(ps: seq<Param>): (items: seq<string>)
    ensures |items| == |ps|
    ensures forall i :: 0 <= i < |ps| ==> items[i] == Item(ps[i])
  {
    if ps == [] then [] else [Item(ps[0])] + Items(ps[1..])
  }

  /** `QUrlQuery::toString()` without percent-encoding: items `key=value` joined by '&'. */
  function QueryString(ps: seq<Param>): string {
    Join(Items(ps), '&')
  }

  function ParseItem(s: string): Option<Param> {
    var halves := Split(s, '=');
    if |halves| == 2 then Some((halves[0], halves[1])) else None
  }

  function ParseItems(items: seq<string>): Option<seq<Param>> {
    if items == [] then Some([])
    else match (ParseItem(items[0]), ParseItems(items[1..]))
      case (Some(p), Some(ps)) => Some([p] + ps)
      case _ => None
  }

  /** Reads a query string back into its items. */
  function ParseQueryString(s: string): Option<seq<Param>> {
    if s == "" then Some([]) else ParseItems(Split(s, '&'))
  }

  /** Text that neither '&' nor '=' can cut apart. */
  predicate Plain(s: string) {
    Free(s, '&') && Free(s, '=')
  }

  predicate PlainParams(ps: seq<Param>) {
    forall i :: 0 <= i < |ps| ==> Plain(ps[i].0) && Plain(ps[i].1)
  }

  lemma ItemRoundTrip(p: Param)
    requires Plain(p.0) && Plain(p.1)
    ensures Free(Item(p), '&')
    ensures ParseItem(Item(p)) == Some(p)
  {
    SplitFirst(p.0, '=', p.1);
    SplitFree(p.1, '=');
    assert Item(p) == p.0 + ['='] + p.1;
  }

  lemma {:induction false} ItemsRoundTrip(ps: seq<Param>)
    requires PlainParams(ps)
    ensures AllFree(Items(ps), '&')
    ensures ParseItems(Items(ps)) == Some(ps)
    decreases |ps|
  {
    if ps != [] {
      ItemRoundTrip(ps[0]);
      ItemsRoundTrip(ps[1..]);
      assert Items(ps)[1..] == Items(ps[1..]);
      assert [ps[0]] + ps[1..] == ps;
    }
  }

  /** A query whose keys and values hold no '&' or '=' reads back from its text unchanged. */
  lemma QueryStringRoundTrip(ps: seq<Param>)
    requires PlainParams(ps)
    ensures ParseQueryString(QueryString(ps)) == Some(ps)
  {
    ItemsRoundTrip(ps);
    if ps != [] {
      assert QueryString(ps) != "" by {
        if |ps| > 1 {
          assert |QueryString(ps)| >= |Item(ps[0])|;
        }
      }
      SplitJoin(Items(ps), '&');
    }
  }

  /**
   * One `addQueryItem` call of a builder together with the guard written in front of it:
   * unconditional, non-empty string, non-negative number, positive number, positive number up
   * to a bound, or a non-empty list rendered as text.
   */
  datatype Field =
    | Always(key: string, value: string)
    | IfNonEmpty(key: string, text: string)
    | IfNonNegative(key: string, number: int)
    | IfPositive(key: string, number: int)
    | IfPositiveAtMost(key: string, number: int, bound: int)
    | IfAnyItems(key: string, count: nat, rendered: string)
  {
    /** Whether the guard lets the item through. */
    predicate Present() {
      match this
      case Always(_, _) => true
      case IfNonEmpty(_, s) => s != ""
      case IfNonNegative(_, n) => n >= 0
      case IfPositive(_, n) => n > 0
      case IfPositiveAtMost(_, n, bound) => 0 < n <= bound
      case IfAnyItems(_, count, _) => count > 0
    }

    /** The value handed to `addQueryItem`; numbers go through `QString::number`. */
    function Value(): string {
      match this
      case Always(_, v) => v
      case IfNonEmpty(_, s) => s
      case IfNonNegative(_, n) => IntToString(n)
      case IfPositive(_, n) => IntToString(n)
      case IfPositiveAtMost(_, n, _) => IntToString(n)
      case IfAnyItems(_, _, rendered) => rendered
    }
  }

  /** The query a sequence of guarded insertions leaves behind, starting from an empty one. */
  function Params(fs: seq<Field>): seq<Param> {
    if fs == [] then []
    else (if fs[0].Present() then [(fs[0].key, fs[0].Value())] else []) + Params(fs[1..])
  }

  predicate DistinctKeys(fs: seq<Field>) {
    forall i, j :: 0 <= i < j < |fs| ==> fs[i].key != fs[j].key
  }

  lemma {:induction false} ParamsAppend(a: seq<Field>, b: seq<Field>)
    ensures Params(a + b) == Params(a) + Params(b)
    decreases |a|
  {
    if a == [] {
      assert a + b == b;
    } else {
      var head := if a[0].Present() then [(a[0].key, a[0].Value())] else [];
      assert (a + b)[0] == a[0] && (a + b)[1..] == a[1..] + b;
      assert Params(a + b) == head + Params(a[1..] + b);
      ParamsAppend(a[1..], b);
      assert Params(a) == head + Params(a[1..]);
    }
  }

  /** Unconditional insertions at the front of the list lead the query, in the order written. */
  lemma {:induction false} LeadingItems(fs: seq<Field>, n: nat)
    requires n <= |fs| && forall i :: 0 <= i < n ==> fs[i].Always?
    ensures |Params(fs)| >= n
    ensures forall i :: 0 <= i < n ==> Params(fs)[i] == (fs[i].key, fs[i].value)
    ensures n == |fs| ==> |Params(fs)| == n
    decreases n
  {
    if n > 0 {
      LeadingItems(fs[1..], n - 1);
      assert Params(fs) == [(fs[0].key, fs[0].value)] + Params(fs[1..]);
    } else if fs != [] {
      assert n < |fs|;
    }
  }

  /** Appending one more insertion extends the query by that insertion's item, if any. */
  lemma ParamsSnoc(fs: seq<Field>, f: Field)
    ensures Params(fs + [f]) == Params(fs) + (if f.Present() then [(f.key, f.Value())] else [])
  {
    ParamsAppend(fs, [f]);
    assert [f][1..] == [];
  }

  // ---------------------------------------------------------------------------------------
  // The builders' steps. Each appends to the query the way one guarded `addQueryItem` does,
  // and records in `written` (ghost) the field it stands for, so that a builder's query is,
  // step by step, the query of the fields it has written so far.

  method AddItem(query: seq<Param>, ghost written: seq<Field>, key: string, value: string)
    returns (query': seq<Param>, ghost written': seq<Field>)
    requires query == Params(written)
    ensures query' == query + [(key, value)]
    ensures written' == written + [Always(key, value)] && query' == Params(written')
  {
    query' := query + [(key, value)];
    written' := written + [Always(key, value)];
    ParamsSnoc(written, Always(key, value));
  }

  method AddIfNonEmpty(query: seq<Param>, ghost written: seq<Field>, key: string, text: string)
    returns (query': seq<Param>, ghost written': seq<Field>)
    requires query == Params(written)
    ensures query' == query + (if text != "" then [(key, text)] else [])
    ensures written' == written + [IfNonEmpty(key, text)] && query' == Params(written')
  {
    query' := query;
    if text != "" {
      query' := query' + [(key, text)];
    }
    written' := written + [IfNonEmpty(key, text)];
    ParamsSnoc(written, IfNonEmpty(key, text));
  }

  method AddIfNonNegative(query: seq<Param>, ghost written: seq<Field>, key: string, number: int)
    returns (query': seq<Param>, ghost written': seq<Field>)
    requires query == Params(written)
    ensures query' == query + (if number >= 0 then [(key, IntToString(number))] else [])
    ensures written' == written + [IfNonNegative(key, number)] && query' == Params(written')
  {
    query' := query;
    if number >= 0 {
      query' := query' + [(key, IntToString(number))];
    }
    written' := written + [IfNonNegative(key, number)];
    ParamsSnoc(written, IfNonNegative(key, number));
  }

  method AddIfPositive(query: seq<Param>, ghost written: seq<Field>, key: string, number: int)
    returns (query': seq<Param>, ghost written': seq<Field>)
    requires query == Params(written)
    ensures query' == query + (if number > 0 then [(key, IntToString(number))] else [])
    ensures written' == written + [IfPositive(key, number)] && query' == Params(written')
  {
    query' := query;
    if number > 0 {
      query' := query' + [(key, IntToString(number))];
    }
    written' := written + [IfPositive(key, number)];
    ParamsSnoc(written, IfPositive(key, number));
  }

  method AddIfPositiveAtMost(query: seq<Param>, ghost written: seq<Field>, key: string, number: int, bound: int)
    returns (query': seq<Param>, ghost written': seq<Field>)
    requires query == Params(written)
    ensures query' == query + (if 0 < number <= bound then [(key, IntToString(number))] else [])
    ensures written' == written + [IfPositiveAtMost(key, number, bound)] && query' == Params(written')
  {
    query' := query;
    if number > 0 && number <= bound {
      query' := query' + [(key, IntToString(number))];
    }
    written' := written + [IfPositiveAtMost(key, number, bound)];
    ParamsSnoc(written, IfPositiveAtMost(key, number, bound));
  }

  lemma {:induction false} LookupMissing(fs: seq<Field>, key: string)
    requires forall i :: 0 <= i < |fs| ==> fs[i].key != key
    ensures Lookup(Params(fs), key) == None
    decreases |fs|
  {
    if fs != [] {
      LookupMissing(fs[1..], key);
      var head := if fs[0].Present() then [(fs[0].key, fs[0].Value())] else [];
      assert Params(fs) == head + Params(fs[1..]);
      LookupAppend(head, Params(fs[1..]), key);
    }
  }

  /**
   * In the query built from fields with distinct keys, a field's key holds that field's value
   * when its guard passes and is absent otherwise.
   */
  lemma {:induction false} LookupField(fs: seq<Field>, i: nat)
    requires DistinctKeys(fs) && i < |fs|
    ensures Lookup(Params(fs), fs[i].key) == if fs[i].Present() then Some(fs[i].Value()) else None
    decreases |fs|
  {
    var head := if fs[0].Present() then [(fs[0].key, fs[0].Value())] else [];
    assert Params(fs) == head + Params(fs[1..]);
    LookupAppend(head, Params(fs[1..]), fs[i].key);
    if i == 0 {
      if !fs[0].Present() {
        LookupMissing(fs[1..], fs[0].key);
      }
    } else {
      LookupField(fs[1..], i - 1);
      assert fs[1..][i - 1] == fs[i];
    }
  }

  /** The same, for every field at once. */
  lemma LookupFields(fs: seq<Field>)
    requires DistinctKeys(fs)
    ensures forall i :: 0 <= i < |fs| ==>
      Lookup(Params(fs), fs[i].key) == if fs[i].Present() then Some(fs[i].Value()) else None
  {
    forall i | 0 <= i < |fs|
      ensures Lookup(Params(fs), fs[i].key) == if fs[i].Present() then Some(fs[i].Value()) else None
    {
      LookupField(fs, i);
    }
  }

  lemma PositionBehind(p: Param, ps: seq<Param>, key: string)
    requires p.0 != key
    ensures Position([p] + ps, key) == 1 + Position(ps, key)
  {
    assert ([p] + ps)[1..] == ps;
  }

  /** Items appear in the order their insertions were written. */
  lemma {:induction false} FieldOrder(fs: seq<Field>, i: nat, j: nat)
    requires DistinctKeys(fs) && i < j < |fs|
    requires fs[i].Present() && fs[j].Present()
    ensures Position(Params(fs), fs[i].key) < Position(Params(fs), fs[j].key) < |Params(fs)|
    decreases |fs|
  {
    LookupField(fs, j);
    var rest := Params(fs[1..]);
    if i == 0 {
      var p := (fs[0].key, fs[0].Value());
      assert Params(fs) == [p] + rest;
      PositionBehind(p, rest, fs[j].key);
    } else {
      FieldOrder(fs[1..], i - 1, j - 1);
      if fs[0].Present() {
        var p := (fs[0].key, fs[0].Value());
        assert Params(fs) == [p] + rest;
        PositionBehind(p, rest, fs[i].key);
        PositionBehind(p, rest, fs[j].key);
      } else {
        assert Params(fs) == rest;
      }
    }
  }

  /** A decimal rendering holds neither '&' nor '='. */
  lemma NumberPlain(n: int)
    ensures Plain(IntToString(n))
  {
    forall i | 0 <= i < |IntToString(n)|
      ensures IntToString(n)[i] != '&' && IntToString(n)[i] != '='
    {
      IntToStringChars(n, i);
    }
  }

  /** Fields whose keys and sent values hold no '&' or '=' leave such a query behind. */
  lemma {:induction false} PlainFields(fs: seq<Field>)
    requires forall i :: 0 <= i < |fs| ==> Plain(fs[i].key) && (fs[i].Present() ==> Plain(fs[i].Value()))
    ensures PlainParams(Params(fs))
    decreases |fs|
  {
    if fs != [] {
      PlainFields(fs[1..]);
      var head := if fs[0].Present() then [(fs[0].key, fs[0].Value())] else [];
      assert Params(fs) == head + Params(fs[1..]);
    }
  }

  /** A sequence of insertions leaves the query empty exactly when every guard fails. */
  lemma {:induction false} EmptyParams(fs: seq<Field>)
    ensures Params(fs) == [] <==> forall i :: 0 <= i < |fs| ==> !fs[i].Present()
    decreases |fs|
  {
    if fs != [] {
      EmptyParams(fs[1..]);
      var head := if fs[0].Present() then [(fs[0].key, fs[0].Value())] else [];
      assert Params(fs) == head + Params(fs[1..]);
      if forall i :: 0 <= i < |fs| ==> !fs[i].Present() {
        assert forall i :: 0 <= i < |fs[1..]| ==> !fs[1..][i].Present() by {
          forall i | 0 <= i < |fs[1..]| ensures !fs[1..][i].Present() {
            assert fs[1..][i] == fs[i + 1];
          }
        }
      }
      if Params(fs) == [] {
        forall i | 0 <= i < |fs| ensures !fs[i].Present() {
          if i > 0 {
            assert fs[i] == fs[1..][i - 1];
          }
        }
      }
    }
  }

  /**
   * A key is in the query exactly when some field writes it and that field's guard passes:
   * no builder sends a key its field list does not name.
   */
  lemma {:induction false} ParamsKeys(fs: seq<Field>, key: string)
    ensures key in Keys(Params(fs)) <==> exists i :: 0 <= i < |fs| && fs[i].Present() && fs[i].key == key
    decreases |fs|
  {
    if fs != [] {
      ParamsKeys(fs[1..], key);
      var head := if fs[0].Present() then [(fs[0].key, fs[0].Value())] else [];
      var rest := Params(fs[1..]);
      assert Params(fs) == head + rest;
      assert Keys(head + rest) == Keys(head) + Keys(rest);
      if exists i :: 0 <= i < |fs[1..]| && fs[1..][i].Present() && fs[1..][i].key == key {
        var i :| 0 <= i < |fs[1..]| && fs[1..][i].Present() && fs[1..][i].key == key;
        assert fs[i + 1] == fs[1..][i];
      }
      if exists i :: 0 <= i < |fs| && fs[i].Present() && fs[i].key == key {
        var i :| 0 <= i < |fs| && fs[i].Present() && fs[i].key == key;
        if i > 0 {
          assert fs[1..][i - 1] == fs[i];
        }
      }
    }
  }
}
