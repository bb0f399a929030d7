/** Small shared vocabulary: optional values (JavaScript's null and undefined)
    and an explicit source of Math.random() draws. */
module Basics {

  /** A value that may be absent. */
  datatype Option<+T> = None | Some(value: T)

  /** The successive results of Math.random(): the i-th call returns rand(i). */
  type Stream = nat -> real

  /** Every draw lies in [0, 1), as Math.random() guarantees. */
  ghost predicate IsUnitStream(rand: Stream)
  {
    forall i: nat :: 0.0 <= rand(i) < 1.0
  }

  /** Math.floor(u * n): the index a uniform draw u selects among n items. */
  function PickIndex(u: real, n: nat): (k: int)
    requires 0.0 <= u < 1.0
    ensures 0 <= k
    ensures n > 0 ==> k < n
    ensures n == 0 ==> k == 0
    ensures k as real <= u * n as real < k as real + 1.0
  {
    ScaledDraw(u, n);
    (u * n as real).Floor
  }

  /** A draw in [0, 1) scales n into [0, n). */
  lemma ScaledDraw(u: real, n: nat)
    requires 0.0 <= u < 1.0
    ensures 0.0 <= u * n as real
    ensures n > 0 ==> u * n as real < n as real
  {
    if n > 0 {
      assert n as real - u * n as real == (1.0 - u) * n as real;
    }
  }

  /** Math.random() * scale + shift, the source's way of drawing from [shift, shift + scale). */
  function Spread(u: real, scale: real, shift: real): (v: real)
    requires 0.0 <= u < 1.0
    ensures scale >= 0.0 ==> shift <= v
    ensures scale > 0.0 ==> v < shift + scale
  {
    u * scale + shift
  }
}
