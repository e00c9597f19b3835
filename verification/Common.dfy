/** Notions shared by the other modules. */
module Common {

  datatype Option<+T> = None | Some(value: T)

  /** How many values a `size_t` has. */
  const SIZE_T: nat := 0x1_0000_0000_0000_0000

  type size_t = n: nat | n < SIZE_T

  function Min(a: nat, b: nat): nat {
    if a < b then a else b
  }

  /** No element occurs twice. */
  predicate Distinct<T(==)>(xs: seq<T>) {
    forall i, j :: 0 <= i < j < |xs| ==> xs[i] != xs[j]
  }
}
