/**
 * A dataId is a Python dict from dimension names (visit, raft, tract, patch,
 * filter) to values. Python dicts keep insertion order, and that order is
 * what `make_id_string` prints, so a dataId is modelled as a sequence of
 * key/value items with distinct keys.
 */
module DataIds {
  import opened Common
  import opened Text

  /** The values the pipeline puts in a dataId: visit and tract numbers, raft, patch and filter names. */
  datatype Value = IntV(i: int) | StrV(s: string)

  datatype Item = Item(key: string, value: Value)

  type DataId = seq<Item>

  /** Python's `'%s' % v`. */
  function Show(v: Value): string {
    match v
    case IntV(i) => IntToString(i)
    case StrV(s) => s
  }

  function Keys(d: DataId): (ks: seq<string>)
    ensures |ks| == |d|
    ensures forall i | 0 <= i < |d| :: ks[i] == d[i].key
  {
    if |d| == 0 then [] else [d[0].key] + Keys(d[1..])
  }

  predicate DistinctKeys(d: DataId) {
    forall i, j | 0 <= i < j < |d| :: d[i].key != d[j].key
  }

  /** `d.get(k)`: the value stored under `k`, if any. */
  function Lookup(d: DataId, k: string): Option<Value> {
    if |d| == 0 then None
    else if d[0].key == k then Some(d[0].value)
    else Lookup(d[1..], k)
  }

  /** A lookup misses exactly the keys the dict does not hold. */
  lemma {:induction false} LookupKeys(d: DataId, k: string)
    ensures Lookup(d, k).None? <==> k !in Keys(d)
  {
    if |d| > 0 {
      LookupKeys(d[1..], k);
      assert Keys(d) == [d[0].key] + Keys(d[1..]);
    }
  }

  /**
   * `d[k] = v`: an existing key keeps its position and takes the new value;
   * a new key goes to the end.
   */
  function SetItem(d: DataId, k: string, v: Value): DataId {
    if |d| == 0 then [Item(k, v)]
    else if d[0].key == k then [Item(k, v)] + d[1..]
    else [d[0]] + SetItem(d[1..], k, v)
  }

  lemma {:induction false} SetItemLookup(d: DataId, k: string, v: Value, k': string)
    ensures Lookup(SetItem(d, k, v), k') == if k' == k then Some(v) else Lookup(d, k')
  {
    if |d| > 0 && d[0].key != k {
      SetItemLookup(d[1..], k, v, k');
    }
  }

  lemma {:induction false} SetItemKeys(d: DataId, k: string, v: Value)
    ensures Keys(SetItem(d, k, v)) == if k in Keys(d) then Keys(d) else Keys(d) + [k]
  {
    if |d| > 0 && d[0].key != k {
      SetItemKeys(d[1..], k, v);
      assert Keys(d) == [d[0].key] + Keys(d[1..]);
    }
  }

  /** Assigning a key twice leaves what assigning the second value once leaves. */
  lemma {:induction false} SetItemTwice(d: DataId, k: string, a: Value, b: Value)
    ensures SetItem(SetItem(d, k, a), k, b) == SetItem(d, k, b)
  {
    if |d| > 0 && d[0].key != k {
      SetItemTwice(d[1..], k, a, b);
    }
  }

  lemma SetItemDistinct(d: DataId, k: string, v: Value)
    requires DistinctKeys(d)
    ensures DistinctKeys(SetItem(d, k, v))
  {
    var r := SetItem(d, k, v);
    SetItemKeys(d, k, v);
    var ks, rs := Keys(d), Keys(r);
    forall i, j | 0 <= i < j < |r| ensures r[i].key != r[j].key {
      assert r[i].key == rs[i] && r[j].key == rs[j];
      if j < |d| {
        assert rs[i] == ks[i] == d[i].key && rs[j] == ks[j] == d[j].key;
      } else {
        assert rs[i] == ks[i] && ks[i] in ks;
      }
    }
  }

  /** One `key=value` token of the id string. */
  function Token(it: Item): string {
    it.key + "=" + Show(it.value)
  }

  function Tokens(d: DataId): (ts: seq<string>)
    ensures |ts| == |d|
    ensures forall i | 0 <= i < |d| :: ts[i] == Token(d[i])
  {
    if |d| == 0 then [] else [Token(d[0])] + Tokens(d[1..])
  }

  /**
   * `make_id_string`: `None` and `{}` both give the empty string; otherwise the
   * `key=value` tokens in insertion order, joined by single spaces.
   */
  function MakeIdString(d: Option<DataId>): (r: string)
    ensures r == "" <==> d.None? || |d.value| == 0
  {
    match d
    case None => ""
    case Some(items) =>
      var r := JoinWith(" ", Tokens(items));
      assert |items| > 0 ==> |r| >= |Tokens(items)[0]| > 0;
      r
  }

  /** The key/value pairs as the id string spells them. */
  function Rendered(d: DataId): (ps: seq<(string, string)>)
    ensures |ps| == |d|
    ensures forall i | 0 <= i < |d| :: ps[i] == (d[i].key, Show(d[i].value))
  {
    if |d| == 0 then [] else [(d[0].key, Show(d[0].value))] + Rendered(d[1..])
  }

  /** Items the command line can read back: no blank anywhere, no `=` in a key. */
  predicate Parseable(d: DataId) {
    forall i | 0 <= i < |d| :: ' ' !in d[i].key && '=' !in d[i].key && ' ' !in Show(d[i].value)
  }

  /** Reads one `key=value` token: the key stops at the first `=`. */
  function ParseToken(t: string): Option<(string, string)> {
    match Find(t, '=')
    case None => None
    case Some(i) => Some((t[..i], t[i + 1..]))
  }

  function ParseTokens(ts: seq<string>): (r: Option<seq<(string, string)>>)
    ensures r.Some? ==> |r.value| == |ts|
  {
    if |ts| == 0 then Some([])
    else match (ParseToken(ts[0]), ParseTokens(ts[1..]))
      case (Some(p), Some(ps)) => Some([p] + ps)
      case _ => None
  }

  /** How a command-line tool reads the `--id` argument back into pairs. */
  function ParseIdString(s: string): Option<seq<(string, string)>> {
    if s == "" then Some([]) else ParseTokens(Split(s, ' '))
  }

  lemma {:induction false} ParseTokensOfItems(d: DataId)
    requires Parseable(d)
    ensures ParseTokens(Tokens(d)) == Some(Rendered(d))
  {
    if |d| > 0 {
      var it := d[0];
      FindAfterFree(it.key, '=', Show(it.value));
      assert Token(it) == it.key + ['='] + Show(it.value);
      assert Token(it)[..|it.key|] == it.key;
      assert Token(it)[|it.key| + 1..] == Show(it.value);
      assert Parseable(d[1..]) by {
        forall i | 0 <= i < |d| - 1 ensures d[1..][i] == d[i + 1] { }
      }
      ParseTokensOfItems(d[1..]);
      assert Tokens(d)[1..] == Tokens(d[1..]);
    }
  }

  /** The id string loses nothing: the tools read back every pair, in order. */
  lemma IdStringRoundTrip(d: DataId)
    requires Parseable(d)
    ensures ParseIdString(MakeIdString(Some(d))) == Some(Rendered(d))
  {
    if |d| > 0 {
      var ts := Tokens(d);
      forall k | 0 <= k < |ts| ensures ' ' !in ts[k] {
        assert ts[k] == d[k].key + "=" + Show(d[k].value);
      }
      assert " " == [' '];
      SplitJoin(ts, ' ');
      ParseTokensOfItems(d);
    }
  }

  /** Python's `repr` of a dataId value (quote selection and escaping are not modelled). */
  function ValueRepr(v: Value): string {
    match v
    case IntV(i) => IntToString(i)
    case StrV(s) => "'" + s + "'"
  }

  function ItemReprs(d: DataId): seq<string> {
    if |d| == 0 then [] else ["'" + d[0].key + "': " + ValueRepr(d[0].value)] + ItemReprs(d[1..])
  }

  /** `str(dataId)`, the text `.format` substitutes for a positional dict argument. */
  function DictRepr(d: DataId): string {
    "{" + JoinWith(", ", ItemReprs(d)) + "}"
  }

  /** A dict the caller owns and the fan-out mutates in place. */
  class DataIdDict {
    var items: DataId

    constructor (init: DataId)
      ensures items == init
    {
      items := init;
    }

    /** `d[k] = v`. */
    method Set(k: string, v: Value)
      modifies this
      ensures items == SetItem(old(items), k, v)
    {
      items := SetItem(items, k, v);
    }

    /** `d[k]`, raising KeyError when `k` is absent. */
    method Get(k: string) returns (r: Result<Value>)
      ensures r.Ok? <==> k in Keys(items)
      ensures r.Ok? ==> Lookup(items, k) == Some(r.value)
      ensures r.Err? ==> r.error == KeyError(k)
    {
      LookupKeys(items, k);
      match Lookup(items, k)
      case None => r := Err(KeyError(k));
      case Some(v) => r := Ok(v);
    }
  }
}
