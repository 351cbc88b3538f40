/** What several components share: a value that may be absent (`null` and `undefined`), the size of a
    terminal, and a fact about sequences. */
module Wrappers {
  datatype Option<+T> = None | Some(value: T)

  datatype Dims = Dims(cols: nat, rows: nat)

  lemma ConcatAssociates<T>(a: seq<T>, b: seq<T>, c: seq<T>)
    ensures a + b + c == a + (b + c)
  {
  }
}
