/** Small shared helpers: an optional value and integer utilities. */
module Wrappers {

  datatype Option<+T> = None | Some(value: T)

  function Abs(x: int): nat
  {
    if x < 0 then -x else x
  }

  function Min(a: int, b: int): int
  {
    if a <= b then a else b
  }

  /** min(hi, max(lo, x)): the clamp the fingerprinter uses for its budgets. */
  function Clamp(x: int, lo: int, hi: int): (r: int)
    requires lo <= hi
    ensures lo <= r <= hi
    ensures lo <= x <= hi ==> r == x
    ensures x < lo ==> r == lo
    ensures hi < x ==> r == hi
  {
    Min(hi, if lo <= x then x else lo)
  }
}
