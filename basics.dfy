/** Small general-purpose definitions shared by the other modules. */
module Basics {

  datatype Option<T> = None | Some(value: T)

  /** The sequence of f applied to each element. */
  function Map<T, U>(f: T -> U, s: seq<T>): (r: seq<U>)
    ensures |r| == |s|
    ensures forall i :: 0 <= i < |s| ==> r[i] == f(s[i])
  {
    seq(|s|, i requires 0 <= i < |s| => f(s[i]))
  }
}
