/** Machine integers and IEEE doubles, as far as the flight software depends on them. */
module Numeric {

  const TWO_TO_8: int := 0x100
  const TWO_TO_32: int := 0x1_0000_0000
  const TWO_TO_63: int := 0x8000_0000_0000_0000
  const TWO_TO_64: int := 0x1_0000_0000_0000_0000

  type uint8 = x: int | 0 <= x < TWO_TO_8
  type uint32 = x: int | 0 <= x < TWO_TO_32
  type uint64 = x: int | 0 <= x < TWO_TO_64

  /** `++` on a uint64_t: wraps at 2^64. */
  function Increment(x: uint64): uint64 {
    (x + 1) % TWO_TO_64
  }

  /** Counting with a wrapping counter is counting modulo 2^64. */
  lemma IncrementCounts(n: nat)
    ensures Increment(n % TWO_TO_64) == (n + 1) % TWO_TO_64
  {
  }

  /** A C++ double. Signed zeros are not told apart. */
  datatype Double = Finite(value: real) | Infinity(negative: bool) | NaN

  /** The built-in `<` on doubles: false as soon as one side is a NaN. */
  predicate Less(a: Double, b: Double) {
    match (a, b)
    case (NaN, _) => false
    case (_, NaN) => false
    case (Finite(x), Finite(y)) => x < y
    case (Finite(_), Infinity(negative)) => !negative
    case (Infinity(negative), Finite(_)) => negative
    case (Infinity(m), Infinity(n)) => m && !n
  }

  /** A NaN is on neither side of anything; apart from it `<` is the order of the extended real line. */
  lemma LessIsTheLineOrder(a: Double, b: Double, c: Double, x: real, y: real)
    ensures Less(a, b) ==> !a.NaN? && !b.NaN? && !Less(b, a)
    ensures Less(a, b) && Less(b, c) ==> Less(a, c)
    ensures !a.NaN? && !b.NaN? ==> Less(a, b) || a == b || Less(b, a)
    ensures Less(Finite(x), Finite(y)) <==> x < y
    ensures Less(Infinity(true), Finite(x)) && Less(Finite(x), Infinity(false))
  {
  }
}
