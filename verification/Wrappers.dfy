/** What every module may use. */
module Wrappers {
  /** A value that may be missing: a null pointer, slot or callback. */
  datatype Option<+T> = None | Some(value: T)

  lemma Associative<T>(a: seq<T>, b: seq<T>, c: seq<T>)
    ensures a + b + c == a + (b + c)
  {}
}
