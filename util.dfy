/** Small shared vocabulary: an optional value, standing for a C address that may be NULL. */
module Util {

  datatype Option<+T> = None | Some(value: T)

  /** Concatenation regroups freely. */
  lemma AppendAssociative<T>(a: seq<T>, b: seq<T>, c: seq<T>)
    ensures a + b + c == a + (b + c)
  {
  }

}
