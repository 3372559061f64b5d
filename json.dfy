/** The values that `json.loads` produces and that the analyzer stores,
    renders and saves: Python's None, bool, int, str, list and dict. A dict
    keeps its insertion order, so it is a sequence of members. */
module Json {
  import opened Wrappers
  import opened Text

  datatype Json =
    | JNull
    | JBool(b: bool)
    | JInt(n: int)
    | JStr(s: string)
    | JArr(items: seq<Json>)
    | JObj(members: seq<Member>)

  datatype Member = Member(key: string, value: Json)

  /** `key in d`. */
  predicate Has(members: seq<Member>, key: string) {
    exists i :: 0 <= i < |members| && members[i].key == key
  }

  /** `d.get(key)`: the value stored under `key`, if any. */
  function Get(members: seq<Member>, key: string): (r: Option<Json>)
    ensures r.Some? <==> Has(members, key)
    ensures r.Some? ==> exists i :: 0 <= i < |members| && members[i] == Member(key, r.value)
  {
    if members == [] then None
    else if members[0].key == key then Some(members[0].value)
    else
      var rest := Get(members[1..], key);
      assert rest.Some? ==> exists i :: 0 <= i < |members[1..]| && members[1..][i] == Member(key, rest.value);
      rest
  }

  /** A dict literal with the given keys in order. */
  function Obj2(k1: string, v1: Json, k2: string, v2: Json): Json {
    JObj([Member(k1, v1), Member(k2, v2)])
  }

  function IntText(n: int): string {
    if n < 0 then "-" + Decimal(-n) else Decimal(n)
  }

  /** `str(v)`: a string is itself, anything else is its `repr`. */
  function Str(v: Json): string {
    if v.JStr? then v.s else Repr(v)
  }

  /** `repr(v)`. Strings are quoted with single quotes; the escaping of
      quotes and backslashes inside them is not modelled. */
  function Repr(v: Json): string
    decreases v
  {
    match v
    case JNull => "None"
    case JBool(b) => if b then "True" else "False"
    case JInt(n) => IntText(n)
    case JStr(s) => "'" + s + "'"
    case JArr(items) =>
      "[" + JoinWith(", ", seq(|items|, i requires 0 <= i < |items| => Repr(items[i]))) + "]"
    case JObj(ms) =>
      "{" + JoinWith(", ", seq(|ms|, i requires 0 <= i < |ms| => "'" + ms[i].key + "': " + Repr(ms[i].value))) + "}"
  }
}
