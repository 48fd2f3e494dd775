/** Small value types and sequence facts shared by the other modules. */
module Prelude {
  datatype Option<+T> = None | Some(value: T)

  datatype Result<+T, +E> = Ok(value: T) | Err(error: E)

  /** `s` lists the consecutive numbers that start at `first`. */
  predicate Consecutive(s: seq<nat>, first: nat) {
    forall i :: 0 <= i < |s| ==> s[i] == first + i
  }

  /** The numbers `first`, ..., `end - 1`. */
  function Range(first: nat, end: nat): (s: seq<nat>)
    ensures |s| == if first <= end then end - first else 0
    ensures Consecutive(s, first)
    decreases end - first
  {
    if first < end then [first] + Range(first + 1, end) else []
  }

  predicate Distinct<T(==)>(s: seq<T>) {
    forall i, j :: 0 <= i < j < |s| ==> s[i] != s[j]
  }
}
