/**
 * Integer semantics of the C/Arduino runtime the firmware relies on:
 * truncating division, the Arduino `map` and `constrain` helpers, bytes,
 * and the unsigned 32-bit millisecond clock with its wrapping subtraction.
 */
module Arduino {

  type byte = x: int | 0 <= x < 256

  const U32_MODULUS: int := 0x1_0000_0000

  /** A reading of `millis()`: an `unsigned long`, 32 bits wide on the ESP32. */
  type Millis = x: int | 0 <= x < 0x1_0000_0000

  function Abs(x: int): (r: int)
    ensures r >= 0 && (r == x || r == -x)
  {
    if x < 0 then -x else x
  }

  function Min(a: int, b: int): (r: int)
    ensures r <= a && r <= b && (r == a || r == b)
  {
    if a <= b then a else b
  }

  function Max(a: int, b: int): (r: int)
    ensures a <= r && b <= r && (r == a || r == b)
  {
    if a <= b then b else a
  }

  /**
   * C division, which truncates toward zero (Dafny's `/` is Euclidean and
   * differs for negative numerators). Only positive divisors occur in the
   * firmware.
   */
  function TruncDiv(n: int, d: int): int
    requires d > 0
  {
    if n >= 0 then n / d else -((-n) / d)
  }

  /**
   * The quotient of C division is the one whose remainder is smaller than
   * the divisor in magnitude and has the sign of the numerator.
   */
  lemma TruncDivRemainder(n: int, d: int)
    requires d > 0
    ensures n >= 0 ==> 0 <= n - TruncDiv(n, d) * d < d
    ensures n < 0 ==> -d < n - TruncDiv(n, d) * d <= 0
  {
  }

  lemma MulLeMono(x: int, y: int, d: int)
    requires x <= y && d >= 0
    ensures x * d <= y * d
  {
  }

  lemma DivMonotone(a: int, b: int, d: int)
    requires 0 <= a <= b && d > 0
    ensures a / d <= b / d
  {
    if a / d > b / d {
      assert (b / d + 1) * d == (b / d) * d + d;
      MulLeMono(b / d + 1, a / d, d);
    }
  }

  /** Truncating division is monotone in its numerator. */
  lemma TruncDivMonotone(a: int, b: int, d: int)
    requires a <= b && d > 0
    ensures TruncDiv(a, d) <= TruncDiv(b, d)
  {
    if 0 <= a {
      DivMonotone(a, b, d);
      assert TruncDiv(a, d) == a / d && TruncDiv(b, d) == b / d;
    } else if b < 0 {
      DivMonotone(-b, -a, d);
      assert TruncDiv(a, d) == -((-a) / d) && TruncDiv(b, d) == -((-b) / d);
    } else {
      DivMonotone(0, -a, d);
      DivMonotone(0, b, d);
      assert 0 / d == 0;
      assert TruncDiv(a, d) == -((-a) / d) && TruncDiv(b, d) == b / d;
    }
  }

  /** Dividing a multiple of `d` by `d` is exact, whatever its sign. */
  lemma TruncDivMulCancel(a: int, d: int)
    requires d > 0
    ensures TruncDiv(a * d, d) == a
  {
    var n := if a >= 0 then a else -a;
    var q := (n * d) / d;
    assert q * d + (n * d) % d == n * d;
    assert (n - q) * d == (n * d) % d;
    if n - q > 0 { MulLeMono(1, n - q, d); }
    if n - q < 0 { MulLeMono(n - q, -1, d); }
    if a < 0 { assert -(a * d) == n * d; }
  }

  /** A quotient is at most `p` when the numerator is at most `d * p`. */
  lemma TruncDivAtMost(a: int, d: int, p: int)
    requires 0 <= a <= d * p && d > 0
    ensures 0 <= TruncDiv(a, d) <= p
  {
  }

  /**
   * The Arduino `map(x, in_min, in_max, out_min, out_max)`: the linear
   * rescaling `(x - in_min) * (out_max - out_min) / (in_max - in_min) + out_min`
   * evaluated in C `long` arithmetic, so the division truncates toward zero.
   * The firmware only calls it with `in_min < in_max`.
   */
  function ArduinoMap(x: int, inMin: int, inMax: int, outMin: int, outMax: int): (r: int)
    requires inMin < inMax
    ensures x == inMin ==> r == outMin
    ensures x == inMax ==> r == outMax
    ensures outMin <= outMax && inMin <= x <= inMax ==> outMin <= r <= outMax
    ensures outMin <= outMax && x <= inMin ==> r <= outMin
    ensures outMin <= outMax && x >= inMax ==> r >= outMax
  {
    var run, rise, delta := inMax - inMin, outMax - outMin, x - inMin;
    var q := TruncDiv(delta * rise, run);
    assert TruncDiv(0 * run, run) == 0 && TruncDiv(rise * run, run) == rise by {
      TruncDivMulCancel(0, run);
      TruncDivMulCancel(rise, run);
    }
    assert x == inMax ==> q == rise by {
      if x == inMax { assert delta * rise == rise * run; }
    }
    assert outMin <= outMax ==> (delta >= 0 ==> q >= 0) && (delta <= 0 ==> q <= 0) by {
      if outMin <= outMax {
        if delta >= 0 {
          MulLeMono(0, delta, rise);
          TruncDivMonotone(0 * run, delta * rise, run);
        }
        if delta <= 0 {
          MulLeMono(delta, 0, rise);
          TruncDivMonotone(delta * rise, 0 * run, run);
        }
      }
    }
    assert outMin <= outMax ==> (delta <= run ==> q <= rise) && (delta >= run ==> q >= rise) by {
      if outMin <= outMax {
        if delta <= run {
          MulLeMono(delta, run, rise);
          TruncDivMonotone(delta * rise, rise * run, run);
        }
        if delta >= run {
          MulLeMono(run, delta, rise);
          TruncDivMonotone(rise * run, delta * rise, run);
        }
      }
    }
    q + outMin
  }

  /** Absolute distance between two integers. */
  function Dist(a: int, b: int): int
  {
    Abs(a - b)
  }

  /**
   * The Arduino `constrain(amt, low, high)`: the point of `[low, high]`
   * nearest to `amt`, which is `amt` itself when it already lies there.
   */
  function Constrain(amt: int, low: int, high: int): (r: int)
    requires low <= high
    ensures low <= r <= high
    ensures low <= amt <= high ==> r == amt
    ensures forall v :: low <= v <= high ==> Dist(amt, r) <= Dist(amt, v)
  {
    if amt < low then low else if amt > high then high else amt
  }

  /**
   * `now - start` on two `unsigned long` readings of `millis()`: the
   * subtraction wraps modulo 2^32.
   */
  function ElapsedMillis(now: Millis, start: Millis): Millis
  {
    (now - start) % U32_MODULUS
  }

  /**
   * The wrapped difference is the true elapsed time whenever less than 2^32
   * milliseconds (about 49.7 days) have passed, even across a clock rollover.
   */
  lemma ElapsedAcrossRollover(start: Millis, d: int)
    requires 0 <= d < U32_MODULUS
    ensures ElapsedMillis(((start + d) % U32_MODULUS) as Millis, start) == d
  {
  }
}
