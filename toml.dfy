/** A parsed TOML document as the plugins see it after `tomllib.load`:
    nested dictionaries of strings, integers, booleans and lists.
    Floats and date-times are not used by any plugin setting. */
module Toml {
  import opened Wrappers

  datatype Value =
    | TStr(s: string)
    | TInt(i: int)
    | TBool(b: bool)
    | TList(items: seq<Value>)
    | TTable(entries: map<string, Value>)

  type Table = map<string, Value>

  /** Python's `bool(v)` for a TOML value: empty strings, zero, `False`,
      empty lists and empty tables are falsy. */
  predicate Truthy(v: Value)
  {
    match v
    case TStr(s) => s != ""
    case TInt(i) => i != 0
    case TBool(b) => b
    case TList(items) => items != []
    case TTable(m) => m != map[]
  }

  /** `d.get(key, default)`. */
  function Get(d: Table, key: string, default: Value): (v: Value)
    ensures key in d ==> v == d[key]
    ensures key !in d ==> v == default
  {
    if key in d then d[key] else default
  }

  /** `d.get(key, {})` when the value is itself used as a dictionary;
      a value that is not a table has no `.get` and raises. */
  function SubTable(d: Table, key: string): (r: Result<Table, string>)
    ensures key !in d ==> r == Ok(map[])
    ensures r.Ok? && key in d ==> d[key] == TTable(r.value)
    ensures r.Err? <==> key in d && !d[key].TTable?
  {
    if key !in d then Ok(map[])
    else if d[key].TTable? then Ok(d[key].entries)
    else Err("AttributeError: object has no attribute 'get'")
  }
}
