/** Go's int32: conversions `int32(x)` and `atomic.AddInt32` wrap around modulo 2^32. */
module Int32 {
  const Modulus: int := 0x1_0000_0000
  const Min: int := -0x8000_0000
  const Max: int := 0x7fff_ffff

  predicate InRange(x: int) {
    Min <= x <= Max
  }

  /** The two's complement reading of the low 32 bits of x. */
  function Wrap(x: int): (r: int)
    ensures InRange(r)
    ensures InRange(x) ==> r == x
  {
    (x - Min) % Modulus + Min
  }

  /** Wrap changes its argument by a multiple of 2^32. */
  lemma WrapCongruent(x: int)
    ensures (x - Wrap(x)) % Modulus == 0
  {
  }

  /** Adding after wrapping is the same as wrapping after adding. */
  lemma WrapAdd(a: int, k: int)
    ensures Wrap(Wrap(a) + k) == Wrap(a + k)
  {
    var q := (a - Min) / Modulus;
    assert Wrap(a) == a - q * Modulus;
    assert Wrap(a) + k - Min == (a + k - Min) - q * Modulus;
  }

  /** atomic.AddInt32(&x, 1) on an int32 value: the largest value steps to the smallest. */
  function Inc(w: int): (r: int)
    requires InRange(w)
    ensures InRange(r)
    ensures w < Max ==> r == w + 1
  {
    if w == Max then Min else w + 1
  }

  /** Inc is a wrapped addition of one. */
  lemma IncWrap(w: int)
    requires InRange(w)
    ensures Inc(w) == Wrap(w + 1)
  {
  }

  /** n increments in a row. */
  function IncTimes(w: int, n: nat): (r: int)
    requires InRange(w)
    ensures InRange(r)
  {
    if n == 0 then w else Inc(IncTimes(w, n - 1))
  }

  /** n increments of an int32 value are one wrapped addition of n. */
  lemma {:induction false} IncTimesWrap(w: int, n: nat)
    requires InRange(w)
    ensures IncTimes(w, n) == Wrap(w + n)
  {
    if n > 0 {
      IncTimesWrap(w, n - 1);
      IncWrap(IncTimes(w, n - 1));
      WrapAdd(w + (n - 1), 1);
    }
  }
}
