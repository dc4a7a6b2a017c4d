/** Datatypes shared by every component. */
module Common {
  datatype Option<+T> = None | Some(value: T)

  const U32_MAX := 0xFFFF_FFFF

  function Min(a: int, b: int): int {
    if a <= b then a else b
  }

  function Max(a: int, b: int): int {
    if a >= b then a else b
  }

  function MaxReal(a: real, b: real): real {
    if a >= b then a else b
  }

  lemma {:induction false} CardinalityIsMonotone<T>(a: set<T>, b: set<T>)
    requires a <= b
    ensures |a| <= |b|
  {
    if a != {} {
      var x :| x in a;
      CardinalityIsMonotone(a - {x}, b - {x});
    }
  }
}
