/**
 * A parsed JSON document (the value `json.load` returns) and the few Python
 * operations the catalog readers apply to it: `key in value`, `value[key]`,
 * `value.get(key, default)` and `list(value.keys())`. Each raises what Python
 * raises when the value is not an object.
 */
module JsonValue {
  import opened Wrappers
  import opened Text
  import opened Seqs

  /** An object is its entries in document order. */
  datatype Json =
    | JNull
    | JBool(b: bool)
    | JNum(n: int)
    | JStr(s: string)
    | JArr(items: seq<Json>)
    | JObj(entries: seq<(string, Json)>)

  /** No key occurs twice among the entries. */
  predicate DistinctKeys(entries: seq<(string, Json)>)
  {
    forall i, j :: 0 <= i < j < |entries| ==> entries[i].0 != entries[j].0
  }

  /** Every object in the value has distinct keys, as the dicts `json.load` builds do. */
  predicate Parsed(j: Json)
    decreases j
  {
    match j
    case JArr(items) => forall i :: 0 <= i < |items| ==> Parsed(items[i])
    case JObj(entries) =>
      DistinctKeys(entries) && forall i :: 0 <= i < |entries| ==> Parsed(entries[i].1)
    case _ => true
  }

  /** The value stored under `key`, if any. */
  function Lookup(entries: seq<(string, Json)>, key: string): (r: Option<Json>)
    ensures r.None? <==> forall i :: 0 <= i < |entries| ==> entries[i].0 != key
    ensures r.Some? ==> (key, r.value) in entries
  {
    if entries == [] then None
    else if entries[|entries| - 1].0 == key then Some(entries[|entries| - 1].1)
    else Lookup(entries[..|entries| - 1], key)
  }

  /** With distinct keys, the entry at index `i` is what its key looks up. */
  lemma {:induction false} LookupEntry(entries: seq<(string, Json)>, i: nat)
    requires DistinctKeys(entries) && i < |entries|
    ensures Lookup(entries, entries[i].0) == Some(entries[i].1)
  {
    var n := |entries|;
    if i < n - 1 {
      assert entries[..n - 1][i] == entries[i];
      LookupEntry(entries[..n - 1], i);
    }
  }

  /** Python's `key in value` for a string `key`. */
  function In(key: string, v: Json): (r: Result<bool>)
    ensures v.JObj? ==> r == Ok(Lookup(v.entries, key).Some?)
    ensures v.JArr? ==> r == Ok(JStr(key) in v.items)
    ensures v.JStr? ==> r == Ok(Contains(v.s, key))
    ensures r.Err? <==> v.JNull? || v.JBool? || v.JNum?
  {
    match v
    case JObj(entries) => Ok(Lookup(entries, key).Some?)
    case JArr(items) => Ok(JStr(key) in items)
    case JStr(s) => Ok(Contains(s, key))
    case _ => Err(TypeError)
  }

  /** Python's `value[key]` for a string `key`: only an object holding `key` yields a value. */
  function Index(v: Json, key: string): (r: Result<Json>)
    ensures r.Ok? <==> v.JObj? && Lookup(v.entries, key).Some?
    ensures r.Ok? ==> r.value == Lookup(v.entries, key).value
    ensures v.JObj? && r.Err? ==> r.error == KeyError(key)
    ensures !v.JObj? ==> r == Err(TypeError)
  {
    match v
    case JObj(entries) =>
      (match Lookup(entries, key)
       case Some(x) => Ok(x)
       case None => Err(KeyError(key)))
    case _ => Err(TypeError)
  }

  /** `d.get(key, default)` on an object's entries. */
  function GetOr(entries: seq<(string, Json)>, key: string, default: Json): Json
  {
    match Lookup(entries, key)
    case Some(x) => x
    case None => default
  }

  /** Python's `value.get(key, default)`: objects only. */
  function Get(v: Json, key: string, default: Json): (r: Result<Json>)
    ensures !v.JObj? ==> r == Err(AttributeError)
    ensures v.JObj? ==> r.Ok?
    ensures v.JObj? ==> (forall i :: 0 <= i < |v.entries| ==> v.entries[i].0 != key) ==> r.value == default
    ensures v.JObj? && r.value != default ==> (key, r.value) in v.entries
  {
    match v
    case JObj(entries) => Ok(GetOr(entries, key, default))
    case _ => Err(AttributeError)
  }

  /**
   * `key in d` is what makes `d[key]` safe: indexing succeeds exactly on an
   * object for which `in` answers True, and then `get` returns the same value;
   * where `in` answers False, `get` falls back to the default and indexing
   * raises KeyError.
   */
  lemma MembershipGuardsIndex(v: Json, key: string, default: Json)
    ensures Index(v, key).Ok? <==> v.JObj? && In(key, v) == Ok(true)
    ensures Index(v, key).Ok? ==> Get(v, key, default) == Index(v, key)
    ensures v.JObj? && In(key, v) == Ok(false) ==>
      Get(v, key, default) == Ok(default) && Index(v, key) == Err(KeyError(key))
  {
  }

  /**
   * The listed keys are exactly the keys that look something up; with distinct
   * keys (as `json.load` builds them) none is listed twice.
   */
  lemma {:induction false} KeysAreLookups(entries: seq<(string, Json)>)
    ensures forall k :: k in Keys(entries) <==> Lookup(entries, k).Some?
    ensures DistinctKeys(entries) ==> Distinct(Keys(entries))
  {
    forall k
      ensures k in Keys(entries) <==> Lookup(entries, k).Some?
    {
      if k in Keys(entries) {
        var i :| 0 <= i < |entries| && Keys(entries)[i] == k;
        assert entries[i].0 == k;
      }
    }
  }

  /** The keys of an object's entries, in order. */
  function Keys(entries: seq<(string, Json)>): (ks: seq<string>)
    ensures |ks| == |entries|
    ensures forall i :: 0 <= i < |entries| ==> ks[i] == entries[i].0
  {
    seq(|entries|, i requires 0 <= i < |entries| => entries[i].0)
  }
}
