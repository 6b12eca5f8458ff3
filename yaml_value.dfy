/**
 * The already-parsed configuration document: the values `yaml.safe_load`
 * produces, with mapping keys restricted to strings.
 */
module Yaml {

  datatype Value =
    | Null
    | Bool(b: bool)
    | Int(i: int)
    | Str(s: string)
    | List(items: seq<Value>)
    | Mapping(m: map<string, Value>)

  /** Python truthiness of a value (`if merge_level and ...`). */
  predicate Truthy(v: Value)
  {
    match v
    case Null => false
    case Bool(b) => b
    case Int(i) => i != 0
    case Str(s) => s != ""
    case List(items) => items != []
    case Mapping(m) => m != map[]
  }

  /** Lists and dicts are unhashable: a membership test on a dict with one of them raises TypeError. */
  predicate Hashable(v: Value)
  {
    !v.List? && !v.Mapping?
  }

  /** `m.get(key, default)` */
  function Get(m: map<string, Value>, key: string, default: Value): Value
  {
    if key in m then m[key] else default
  }
}
