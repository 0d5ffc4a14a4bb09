/**
 * Decoded JSON values as the Python code sees them after `json.loads`, and the
 * type-asserting field readers shared by the wire-record codecs
 * (`from_str`, `from_bool`, `from_int`, `from_list`; an assertion failure is `None`).
 */
module Json {
  import opened Wrappers
  import PyText

  datatype Json =
    | JNull
    | JBool(boolValue: bool)
    | JInt(intValue: int)
    | JStr(strValue: string)
    | JArr(items: seq<Json>)
    | JObj(fields: map<string, Json>)

  /** `obj.get(key)`: a missing key reads as None. */
  function Get(fields: map<string, Json>, key: string): (r: Json)
    ensures key in fields ==> r == fields[key]
    ensures key !in fields ==> r == JNull
  {
    if key in fields then fields[key] else JNull
  }

  /** `obj.get(key, default)` */
  function GetOr(fields: map<string, Json>, key: string, default: Json): (r: Json)
    ensures key in fields ==> r == fields[key]
    ensures key !in fields ==> r == default
  {
    if key in fields then fields[key] else default
  }

  /** Python truthiness of a decoded value. */
  predicate Truthy(j: Json) {
    match j
    case JNull => false
    case JBool(b) => b
    case JInt(i) => i != 0
    case JStr(s) => |s| > 0
    case JArr(xs) => |xs| > 0
    case JObj(m) => |m| > 0
  }

  /** The falsy values are exactly `None`, `False`, `0`, the empty string, the empty list and the empty dict. */
  lemma FalsyValues(j: Json)
    ensures !Truthy(j) <==> j in {JNull, JBool(false), JInt(0), JStr(""), JArr([]), JObj(map[])}
  {
    match j
    case JStr(s) => assert |s| == 0 ==> s == "";
    case JArr(xs) => assert |xs| == 0 ==> xs == [];
    case JObj(m) => assert |m| == 0 ==> m == map[];
    case _ =>
  }

  /** `from_str`: only a string passes. */
  function FromStr(x: Json): (r: Option<string>)
    ensures r.Some? <==> x.JStr?
    ensures r.Some? ==> x == JStr(r.value)
  {
    if x.JStr? then Some(x.strValue) else None
  }

  /** `from_bool`: only a boolean passes. */
  function FromBool(x: Json): (r: Option<bool>)
    ensures r.Some? <==> x.JBool?
    ensures r.Some? ==> x == JBool(r.value)
  {
    if x.JBool? then Some(x.boolValue) else None
  }

  /**
   * `from_int`: `isinstance(x, int) and not isinstance(x, bool)`. A Python bool is
   * an int, so the second test matters there; here a boolean is a `JBool` and fails.
   */
  function FromInt(x: Json): (r: Option<int>)
    ensures r.Some? <==> x.JInt?
    ensures x.JBool? ==> r.None?
    ensures r.Some? ==> x == JInt(r.value)
  {
    if x.JInt? then Some(x.intValue) else None
  }

  /** `[f(y) for y in items]`, failing if any element fails. */
  function MapAll<T>(f: Json -> Option<T>, items: seq<Json>): (r: Option<seq<T>>)
    ensures r.Some? <==> forall k :: 0 <= k < |items| ==> f(items[k]).Some?
    ensures r.Some? ==> |r.value| == |items|
    ensures r.Some? ==> forall k :: 0 <= k < |items| ==> f(items[k]) == Some(r.value[k])
    decreases |items|
  {
    if |items| == 0 then Some([])
    else
      match (f(items[0]), MapAll(f, items[1..]))
      case (Some(y), Some(ys)) => Some([y] + ys)
      case _ => None
  }

  /** `from_list(f, x)`: a list whose every element `f` accepts, mapped in order. */
  function FromList<T>(f: Json -> Option<T>, x: Json): (r: Option<seq<T>>)
    ensures r.Some? <==> x.JArr? && forall k :: 0 <= k < |x.items| ==> f(x.items[k]).Some?
    ensures r.Some? ==> |r.value| == |x.items|
    ensures r.Some? ==> forall k :: 0 <= k < |x.items| ==> f(x.items[k]) == Some(r.value[k])
  {
    if x.JArr? then MapAll(f, x.items) else None
  }

  /** The encoding side of `from_list`: a list of the encoded elements, in order. */
  function ToList<T>(g: T -> Json, xs: seq<T>): (r: Json)
    ensures r.JArr? && |r.items| == |xs|
    ensures forall k :: 0 <= k < |xs| ==> r.items[k] == g(xs[k])
  {
    JArr(seq(|xs|, k requires 0 <= k < |xs| => g(xs[k])))
  }

  /** If every element survives `f(g(_))`, so does the whole list. */
  lemma FromListToList<T>(f: Json -> Option<T>, g: T -> Json, xs: seq<T>)
    requires forall k :: 0 <= k < |xs| ==> f(g(xs[k])) == Some(xs[k])
    ensures FromList(f, ToList(g, xs)) == Some(xs)
  {
    var r := FromList(f, ToList(g, xs));
    assert r.Some?;
    assert forall k :: 0 <= k < |xs| ==> r.value[k] == xs[k];
    assert r.value == xs;
  }

  /** `from_str` used as an encoder: a string is written as a JSON string. */
  function StrToJson(s: string): Json {
    JStr(s)
  }

  /** `from_list(from_str, ...)` reads back a list of strings written by `from_list(from_str, ...)`. */
  lemma StringsRoundTrip(xs: seq<string>)
    ensures FromList(FromStr, ToList(StrToJson, xs)) == Some(xs)
  {
    FromListToList(FromStr, StrToJson, xs);
  }

  /** `int(from_str(x))`: integers that travel as decimal strings. */
  function FromIntString(x: Json): (r: Option<int>)
    ensures !x.JStr? ==> r.None?
    ensures r.Some? ==> PyText.ParseInt(x.strValue) == r
    ensures x.JStr? ==> r == PyText.ParseInt(x.strValue)
  {
    var s :- FromStr(x);
    PyText.ParseInt(s)
  }

  /** `from_str(str(i))` */
  function ToIntString(i: int): (r: Json)
    ensures r.JStr?
  {
    JStr(PyText.IntToString(i))
  }

  lemma IntStringFieldRoundTrip(i: int)
    ensures FromIntString(ToIntString(i)) == Some(i)
  {
    PyText.IntStringRoundTrip(i);
  }
}
