/** The decoded JSON body of an AlphaVantage response, and the Python dict operations the
    loader applies to it. A JSON object is a Python dict, whose iteration order is insertion
    order; it is kept here as the list of its entries in that order. */
module Json {
  import opened Wrappers
  import opened Strings

  datatype Value =
    | Null
    | Bool(b: bool)
    | Num(n: real)
    | Str(s: string)
    | Arr(items: seq<Value>)
    | Obj(fields: seq<(string, Value)>)

  /** `key in d` for a dict `d`. */
  predicate HasKey(fields: seq<(string, Value)>, key: string) {
    exists i | 0 <= i < |fields| :: fields[i].0 == key
  }

  /** The position of the first entry whose key is `key`. */
  function IndexOfKey(fields: seq<(string, Value)>, key: string): (r: Option<nat>)
    ensures r.Some? ==> r.value < |fields| && fields[r.value].0 == key
    ensures r.Some? ==> forall j | 0 <= j < r.value :: fields[j].0 != key
    ensures r.None? <==> !HasKey(fields, key)
  {
    if |fields| == 0 then None
    else if fields[0].0 == key then Some(0)
    else
      match IndexOfKey(fields[1..], key)
      case None => None
      case Some(i) => Some(i + 1)
  }

  /** `d.get(key, default)`. */
  function GetOr(fields: seq<(string, Value)>, key: string, default: Value): Value {
    match IndexOfKey(fields, key)
    case None => default
    case Some(i) => fields[i].1
  }

  /** The position of the first entry whose key contains `sub`, as
      `next((k for k in d if sub in k), None)` finds it. */
  function FirstKeyContaining(fields: seq<(string, Value)>, sub: string): (r: Option<nat>)
    ensures r.Some? ==> r.value < |fields| && Contains(fields[r.value].0, sub)
    ensures r.Some? ==> forall j | 0 <= j < r.value :: !Contains(fields[j].0, sub)
    ensures r.None? ==> forall j | 0 <= j < |fields| :: !Contains(fields[j].0, sub)
  {
    if |fields| == 0 then None
    else if Contains(fields[0].0, sub) then Some(0)
    else
      match FirstKeyContaining(fields[1..], sub)
      case None => None
      case Some(i) => Some(i + 1)
  }
}
