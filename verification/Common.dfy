/** Small shared vocabulary: optional values and the extrema of reals and integers. */
module Common {

  datatype Option<+T> = None | Some(value: T)

  function MaxR(a: real, b: real): real {
    if a < b then b else a
  }

  function MinR(a: real, b: real): real {
    if b < a then b else a
  }

  function MaxI(a: int, b: int): int {
    if a < b then b else a
  }

  function MinI(a: int, b: int): int {
    if b < a then b else a
  }

  /** Smallest integer that is not below `x`. */
  function Ceil(x: real): (n: int)
    ensures x <= n as real < x + 1.0
  {
    if x.Floor as real == x then x.Floor else x.Floor + 1
  }

  ghost predicate Distinct<T>(s: seq<T>) {
    forall i, j :: 0 <= i < j < |s| ==> s[i] != s[j]
  }
}
