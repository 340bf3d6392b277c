/** Small shared vocabulary: optional values, bytes, minima, and dropping from a sequence. */
module Prelude {

  datatype Option<+T> = None | Some(value: T)

  newtype byte = b: int | 0 <= b < 256

  function Min(a: nat, b: nat): nat { if a <= b then a else b }

  /** `s` with every occurrence of `x` dropped, the rest in order. */
  function Without<T(==,!new)>(s: seq<T>, x: T): (r: seq<T>)
    ensures x !in r
    ensures forall y :: y in r <==> y in s && y != x
    ensures multiset(r) == multiset(s)[x := 0]
  {
    if s == [] then []
    else
      assert s == [s[0]] + s[1..];
      if s[0] == x then Without(s[1..], x) else [s[0]] + Without(s[1..], x)
  }
}
