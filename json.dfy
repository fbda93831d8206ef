/** JSON values as the server receives and stores them.  An object is a Python dict, so its
    keys are unique; key order is not modelled. */
module Json {
  import opened Wrappers

  datatype Value =
    | Null
    | Bool(b: bool)
    | Num(n: int)
    | Str(s: string)
    | Arr(items: seq<Value>)
    | Obj(members: map<string, Value>)

  /** The value under `key` when `v` is an object that has it (Python's `key in d` and `d[key]`). */
  function Get(v: Value, key: string): Option<Value>
  {
    if v.Obj? && key in v.members then Some(v.members[key]) else None
  }

  /** The elements of a looked-up value when it is an array, and nothing otherwise. */
  function Elements(v: Option<Value>): seq<Value>
  {
    if v.Some? && v.value.Arr? then v.value.items else []
  }

  predicate StartsWith(s: string, prefix: string)
  {
    |prefix| <= |s| && s[..|prefix|] == prefix
  }

  predicate EndsWith(s: string, suffix: string)
  {
    |suffix| <= |s| && s[|s| - |suffix|..] == suffix
  }
}
