/** Java's `Math.rint` on exact reals: round to the nearest integer, and to the
    even one when two are equally near. */
module Rounding {

  predicate IsEven(n: int) {
    n % 2 == 0
  }

  /** The nearest integer to `x`; on a tie, the even one. */
  function Rint(x: real): (r: int)
    ensures x - 0.5 <= r as real <= x + 0.5
    ensures (r as real - x == 0.5 || x - r as real == 0.5) ==> IsEven(r)
  {
    var f := x.Floor;
    var frac := x - f as real;
    if frac < 0.5 then f
    else if frac > 0.5 then f + 1
    else if IsEven(f) then f
    else f + 1
  }

  /** Any integer strictly closer than one half to `x` is what `Rint` returns. */
  lemma RintUnique(x: real, k: int)
    requires x - 0.5 < k as real < x + 0.5
    ensures Rint(x) == k
  {
  }

  /** Rounding a value that is already integral changes nothing. */
  lemma RintOfInteger(n: int)
    ensures Rint(n as real) == n
  {
    RintUnique(n as real, n);
  }

  /** Rounding never reverses the order of two values. */
  lemma RintMonotone(x: real, y: real)
    requires x <= y
    ensures Rint(x) <= Rint(y)
  {
  }
}
