/** JSON values.  An object is an unordered collection of members (section 4 of RFC 8259). */
module Json {
  /** `N` is the type of numbers. */
  datatype Value<N> =
    | Null
    | Bool(b: bool)
    | Num(n: N)
    | Str(s: string)
    | Arr(items: seq<Value<N>>)
    | Obj(members: map<string, Value<N>>)
}
