/**
 * The bitmap sample-size loop shared by ShareReceiverActivity.decodeSampledBitmap
 * and the two decodeThumbnail helpers: halve the decoded size by powers of two
 * while both halved dimensions still reach `maxSize`.
 */
module Sampling {
  import opened KotlinInt

  predicate IsPowerOfTwo(n: int)
    decreases n
  {
    n == 1 || (n > 1 && n % 2 == 0 && IsPowerOfTwo(n / 2))
  }

  /** The loop test for sample size `s`, with Kotlin's truncating division. */
  predicate KeepHalving(halfWidth: int, halfHeight: int, s: int, maxSize: int)
    requires s > 0
  {
    Div(halfWidth, s) >= maxSize && Div(halfHeight, s) >= maxSize
  }

  /** Between a power of two and its double there is no other power of two. */
  lemma {:induction false} NoPowerOfTwoBetween(s: int, t: int)
    requires IsPowerOfTwo(s) && IsPowerOfTwo(t)
    requires s <= t < 2 * s
    ensures t == s
  {
    if s != 1 {
      assert t > 1;
      NoPowerOfTwoBetween(s / 2, t / 2);
    }
  }

  /** A truncated quotient of at least one means the dividend reaches the divisor. */
  lemma QuotientAtLeastOne(a: int, b: int)
    requires b > 0 && Div(a, b) >= 1
    ensures a >= b
  {
    if a >= 0 {
      assert a / b >= 1;
      assert a >= (a / b) * b >= b;
    }
  }

  /** Doubling a power of two that the loop test accepts stays a power of two in `Int` range. */
  lemma DoublingStaysInRange(halfWidth: int, halfHeight: int, s: int, maxSize: int)
    requires maxSize > 0 && halfWidth <= 0x3fff_ffff
    requires IsPowerOfTwo(s) && 1 <= s && KeepHalving(halfWidth, halfHeight, s, maxSize)
    ensures 2 * s <= INT_MAX && IsPowerOfTwo(2 * s)
  {
    QuotientAtLeastOne(halfWidth, s);
    assert (2 * s) / 2 == s;
  }

  /** If the test accepts `s` and every smaller power of two, it accepts every power of two below `2 * s`. */
  lemma SmallerPowersPass(halfWidth: int, halfHeight: int, s: int, maxSize: int)
    requires IsPowerOfTwo(s) && 1 <= s && KeepHalving(halfWidth, halfHeight, s, maxSize)
    requires forall t :: IsPowerOfTwo(t) && t < s ==> KeepHalving(halfWidth, halfHeight, t, maxSize)
    ensures forall t :: IsPowerOfTwo(t) && t < 2 * s ==> KeepHalving(halfWidth, halfHeight, t, maxSize)
  {
    forall t | IsPowerOfTwo(t) && t < 2 * s
      ensures KeepHalving(halfWidth, halfHeight, t, maxSize)
    {
      if t >= s {
        NoPowerOfTwoBetween(s, t);
      }
    }
  }

  /**
   * `inSampleSize` for a `width` x `height` image: a power of two, 1 when
   * the image already fits, and the smallest power of two at which the loop
   * test fails. It never leaves Kotlin's `Int` range.
   */
  method InSampleSize(width: int, height: int, maxSize: int) returns (s: int)
    requires maxSize > 0
    requires IsInt(width) && IsInt(height)
    ensures IsPowerOfTwo(s) && IsInt(s)
    ensures width <= maxSize && height <= maxSize ==> s == 1
    ensures (height > maxSize || width > maxSize) ==> !KeepHalving(Div(width, 2), Div(height, 2), s, maxSize)
    ensures (height > maxSize || width > maxSize) ==>
      forall t :: IsPowerOfTwo(t) && t < s ==> KeepHalving(Div(width, 2), Div(height, 2), t, maxSize)
  {
    s := 1;
    if height > maxSize || width > maxSize {
      var halfWidth := Div(width, 2);
      var halfHeight := Div(height, 2);
      assert halfWidth <= 0x3fff_ffff;
      while KeepHalving(halfWidth, halfHeight, s, maxSize)
        invariant IsPowerOfTwo(s) && 1 <= s <= INT_MAX
        invariant forall t :: IsPowerOfTwo(t) && t < s ==> KeepHalving(halfWidth, halfHeight, t, maxSize)
        decreases INT_MAX - s
      {
        DoublingStaysInRange(halfWidth, halfHeight, s, maxSize);
        SmallerPowersPass(halfWidth, halfHeight, s, maxSize);
        s := s * 2;
      }
    }
  }
}
