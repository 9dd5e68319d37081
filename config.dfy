/**
 * The parsed form of a YAML configuration as the loaders receive it: a tree
 * of strings, integers, lists and string-keyed dictionaries.
 */
module Config {

  datatype Value =
    | Str(s: string)
    | Int(i: int)
    | List(items: seq<Value>)
    | Dict(entries: map<string, Value>)

  /** `d.get(key, default)` */
  function Get(d: map<string, Value>, key: string, default: Value): (v: Value)
    ensures key in d ==> v == d[key]
    ensures key !in d ==> v == default
  {
    if key in d then d[key] else default
  }
}
