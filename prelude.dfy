/** Definitions shared by the game engine and the player progression. */
module Prelude {

  /** The optional value used wherever the JavaScript source uses `null` or `undefined`. */
  datatype Option<+T> = None | Some(value: T)

  /** No element occurs twice. */
  predicate Distinct<T(==)>(s: seq<T>)
  {
    forall i, j :: 0 <= i < j < |s| ==> s[i] != s[j]
  }
}
