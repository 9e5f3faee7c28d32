/**
 * The JSON shapes serde_json writes for the client's request bodies: flat
 * objects whose members are scalars or arrays of numbers.
 */
module JsonValues {
  import opened Wrappers
  import opened Strings
  import opened Records

  datatype Value = Null | Bool(b: bool) | Number(n: nat) | Str(s: string) | Numbers(ns: seq<nat>)

  /** An object, members in the order they are written. */
  type Object = seq<Pair<Value>>
}
