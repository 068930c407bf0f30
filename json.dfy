/**
 * JSON values as the job runner receives them, and the typed lookups with
 * defaults that read a job description out of them.
 *
 * A JSON object is the item list of a Python dict, in insertion order; as in a
 * dict, a key is looked up by its first (in a real dict: only) occurrence.
 * A lookup of an absent key yields the default, a present value of the
 * expected type yields that value, and any other value is an error.
 */
module Json {
  import opened Wrappers

  datatype Json =
    | JNull
    | JBool(b: bool)
    | JInt(i: int)
    | JStr(s: string)
    | JArray(items: seq<Json>)
    | JObject(fields: seq<(string, Json)>)

  type JsonObject = seq<(string, Json)>

  /** Why a typed lookup refused a value: the key and the expected type. */
  datatype JsonError = JsonError(key: string, expected: string)

  /** `obj[key]`, or None when the key is absent. */
  function Lookup(obj: JsonObject, key: string): (r: Option<Json>)
    ensures r.None? <==> forall i :: 0 <= i < |obj| ==> obj[i].0 != key
    ensures r.Some? ==> exists i :: 0 <= i < |obj| && obj[i] == (key, r.value)
  {
    if obj == [] then None
    else if obj[0].0 == key then Some(obj[0].1)
    else
      var r := Lookup(obj[1..], key);
      assert forall i :: 1 <= i < |obj| ==> obj[i] == obj[1..][i - 1];
      r
  }

  predicate HasKey(obj: JsonObject, key: string) {
    Lookup(obj, key).Some?
  }

  /** Every element is a string: the list as a `seq<string>`. */
  function AsStrings(items: seq<Json>): (r: Option<seq<string>>)
    ensures r.Some? <==> forall i :: 0 <= i < |items| ==> items[i].JStr?
    ensures r.Some? ==> |r.value| == |items|
    ensures r.Some? ==> forall i :: 0 <= i < |items| ==> items[i] == JStr(r.value[i])
  {
    if items == [] then Some([])
    else if !items[0].JStr? then None
    else
      match AsStrings(items[1..])
      case None => None
      case Some(rest) => Some([items[0].s] + rest)
  }

  /** Every value is a string: the object as an ordered string map. */
  function AsStringMap(fields: JsonObject): (r: Option<seq<(string, string)>>)
    ensures r.Some? <==> forall i :: 0 <= i < |fields| ==> fields[i].1.JStr?
    ensures r.Some? ==> |r.value| == |fields|
    ensures r.Some? ==> forall i :: 0 <= i < |fields| ==> fields[i] == (r.value[i].0, JStr(r.value[i].1))
  {
    if fields == [] then Some([])
    else if !fields[0].1.JStr? then None
    else
      match AsStringMap(fields[1..])
      case None => None
      case Some(rest) => Some([(fields[0].0, fields[0].1.s)] + rest)
  }

  /** `get_str(obj, key, default)` */
  function GetStr(obj: JsonObject, key: string, default: Option<string>): (r: Result<Option<string>, JsonError>)
    ensures !HasKey(obj, key) ==> r == Success(default)
    ensures HasKey(obj, key) ==> (r.Success? <==> Lookup(obj, key).value.JStr?)
    ensures HasKey(obj, key) && r.Success? ==> r.value == Some(Lookup(obj, key).value.s)
  {
    match Lookup(obj, key)
    case None => Success(default)
    case Some(JStr(s)) => Success(Some(s))
    case Some(_) => Failure(JsonError(key, "string"))
  }

  /** `get_int(obj, key, default)` */
  function GetInt(obj: JsonObject, key: string, default: int): (r: Result<int, JsonError>)
    ensures !HasKey(obj, key) ==> r == Success(default)
    ensures HasKey(obj, key) ==> (r.Success? <==> Lookup(obj, key).value.JInt?)
    ensures HasKey(obj, key) && r.Success? ==> r.value == Lookup(obj, key).value.i
  {
    match Lookup(obj, key)
    case None => Success(default)
    case Some(JInt(i)) => Success(i)
    case Some(_) => Failure(JsonError(key, "int"))
  }

  /** `get_strv(obj, key, default)`: a list of strings. */
  function GetStrv(obj: JsonObject, key: string, default: Option<seq<string>>): (r: Result<Option<seq<string>>, JsonError>)
    ensures !HasKey(obj, key) ==> r == Success(default)
    ensures HasKey(obj, key) ==>
              (r.Success? <==> Lookup(obj, key).value.JArray? && AsStrings(Lookup(obj, key).value.items).Some?)
    ensures HasKey(obj, key) && r.Success? ==> r.value == Some(AsStrings(Lookup(obj, key).value.items).value)
  {
    match Lookup(obj, key)
    case None => Success(default)
    case Some(JArray(items)) =>
      (match AsStrings(items)
       case Some(v) => Success(Some(v))
       case None => Failure(JsonError(key, "list of strings")))
    case Some(_) => Failure(JsonError(key, "list of strings"))
  }

  /** `get_str_map(obj, key, default)`: an object whose values are strings. */
  function GetStrMap(obj: JsonObject, key: string, default: seq<(string, string)>): (r: Result<seq<(string, string)>, JsonError>)
    ensures !HasKey(obj, key) ==> r == Success(default)
    ensures HasKey(obj, key) ==>
              (r.Success? <==> Lookup(obj, key).value.JObject? && AsStringMap(Lookup(obj, key).value.fields).Some?)
    ensures HasKey(obj, key) && r.Success? ==> r.value == AsStringMap(Lookup(obj, key).value.fields).value
  {
    match Lookup(obj, key)
    case None => Success(default)
    case Some(JObject(fields)) =>
      (match AsStringMap(fields)
       case Some(m) => Success(m)
       case None => Failure(JsonError(key, "object of strings")))
    case Some(_) => Failure(JsonError(key, "object of strings"))
  }

  /** `get_dict(obj, key, default)`: a nested object, kept as it is. */
  function GetDict(obj: JsonObject, key: string, default: Option<JsonObject>): (r: Result<Option<JsonObject>, JsonError>)
    ensures !HasKey(obj, key) ==> r == Success(default)
    ensures HasKey(obj, key) ==> (r.Success? <==> Lookup(obj, key).value.JObject?)
    ensures HasKey(obj, key) && r.Success? ==> r.value == Some(Lookup(obj, key).value.fields)
  {
    match Lookup(obj, key)
    case None => Success(default)
    case Some(JObject(fields)) => Success(Some(fields))
    case Some(_) => Failure(JsonError(key, "object"))
  }

  /**
   * `{**base, **overrides}`: the keys of `base` keep their place and take the
   * value from `overrides` when it has one; keys only in `overrides` follow, in order.
   */
  function Merge(base: JsonObject, overrides: JsonObject): JsonObject {
    seq(|base|, i requires 0 <= i < |base| =>
          (base[i].0, Lookup(overrides, base[i].0).GetOr(base[i].1)))
    + Missing(overrides, base)
  }

  /** The entries of `extra` whose key `base` lacks, in order. */
  function Missing(extra: JsonObject, base: JsonObject): JsonObject {
    if extra == [] then []
    else if HasKey(base, extra[0].0) then Missing(extra[1..], base)
    else [extra[0]] + Missing(extra[1..], base)
  }

  lemma {:induction false} LookupMissing(extra: JsonObject, base: JsonObject, key: string)
    ensures Lookup(Missing(extra, base), key) == if HasKey(base, key) then None else Lookup(extra, key)
  {
    if extra != [] {
      LookupMissing(extra[1..], base, key);
    }
  }

  lemma {:induction false} LookupAppend(a: JsonObject, b: JsonObject, key: string)
    ensures Lookup(a + b, key) == if HasKey(a, key) then Lookup(a, key) else Lookup(b, key)
  {
    if a == [] {
      assert a + b == b;
    } else {
      assert (a + b)[1..] == a[1..] + b;
      LookupAppend(a[1..], b, key);
    }
  }

  lemma {:induction false} LookupRekeyed(base: JsonObject, vals: JsonObject, key: string)
    requires |vals| == |base|
    requires forall i :: 0 <= i < |base| ==> vals[i].0 == base[i].0
    ensures HasKey(vals, key) == HasKey(base, key)
  {
    if base != [] {
      LookupRekeyed(base[1..], vals[1..], key);
    }
  }

  /** A key that `overrides` holds reads from `overrides`; any other key reads from `base`. */
  lemma {:induction false} MergeLookup(base: JsonObject, overrides: JsonObject, key: string)
    ensures Lookup(Merge(base, overrides), key) ==
              if HasKey(overrides, key) then Lookup(overrides, key) else Lookup(base, key)
  {
    var front := seq(|base|, i requires 0 <= i < |base| =>
                       (base[i].0, Lookup(overrides, base[i].0).GetOr(base[i].1)));
    assert Merge(base, overrides) == front + Missing(overrides, base);
    LookupAppend(front, Missing(overrides, base), key);
    LookupMissing(overrides, base, key);
    LookupRekeyed(base, front, key);
    if HasKey(base, key) {
      FrontLookup(base, overrides, key);
    }
  }

  lemma {:induction false} FrontLookup(base: JsonObject, overrides: JsonObject, key: string)
    requires HasKey(base, key)
    ensures Lookup(seq(|base|, i requires 0 <= i < |base| =>
                         (base[i].0, Lookup(overrides, base[i].0).GetOr(base[i].1))), key)
            == Some(Lookup(overrides, key).GetOr(Lookup(base, key).value))
  {
    var front := seq(|base|, i requires 0 <= i < |base| =>
                       (base[i].0, Lookup(overrides, base[i].0).GetOr(base[i].1)));
    if base[0].0 != key {
      var tail := seq(|base| - 1, i requires 0 <= i < |base| - 1 =>
                        (base[1..][i].0, Lookup(overrides, base[1..][i].0).GetOr(base[1..][i].1)));
      assert front[1..] == tail;
      FrontLookup(base[1..], overrides, key);
    }
  }
}
