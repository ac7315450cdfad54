/** Values shared by every part of the time-tracking store: optional values,
    timestamps, document identifiers and the JavaScript notion of a "set"
    (truthy) string that the engine tests with `||` and `!`. */
module Base {

  datatype Option<+T> = None | Some(value: T)

  /** Timestamps are already-parsed instants; "now" is always passed in. */
  type Time = int

  /** The fixed key of the single metadata document. */
  const MetaKey: string := "metadata"

  /** Identifiers of entry documents. The store never hands out an empty
      id, and entry documents never live under the metadata key. */
  type Id = s: string | s != "" && s != MetaKey witness "_"

  /** No element occurs twice. */
  predicate NoDup<T(==)>(xs: seq<T>) {
    forall i, j :: 0 <= i < j < |xs| ==> xs[i] != xs[j]
  }

  /** JavaScript truthiness of a value that may be a string, `null` or
      `undefined`: only a non-empty string is truthy. */
  predicate Truthy(o: Option<string>) {
    o.Some? && o.value != ""
  }

  /** JavaScript `a || b` on values that may be strings or unset. */
  function Or(a: Option<string>, b: Option<string>): Option<string> {
    if Truthy(a) then a else b
  }

  /** JavaScript `m[k]` on an object used as a map whose values are ids,
      for a key the object does not inherit: an own key reads as its id,
      any other key as `undefined`. A key naming an inherited
      `Object.prototype` property (`constructor`, `toString`, ...) reads
      as a truthy function in JavaScript; the model reads it as unset. */
  function Lookup(m: map<string, Id>, k: Option<string>): Option<Id> {
    if k.Some? && k.value in m then Some(m[k.value]) else None
  }
}
