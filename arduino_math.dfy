/** The integer arithmetic the sampling step relies on: C/C++ division (which
    truncates toward zero), Arduino's `map`, and the clamp applied afterwards. */
module ArduinoMath {

  function Abs(x: int): nat {
    if x < 0 then -x else x
  }

  /** Euclidean division of naturals is monotone in the dividend. */
  lemma {:induction false} DivMonotone(x: nat, y: nat, d: nat)
    requires 0 < d && x <= y
    ensures x / d <= y / d
  {
    var q1, r1, q2, r2 := x / d, x % d, y / d, y % d;
    assert x == d * q1 + r1 && 0 <= r1 < d;
    assert y == d * q2 + r2 && 0 <= r2 < d;
    if q1 > q2 {
      MulMonotone(d, q2 + 1, q1);
      assert false;
    }
  }

  /** Euclidean division of naturals yields a natural. */
  lemma DivNonneg(x: nat, y: nat)
    requires 0 < y
    ensures x / y >= 0
  {
  }

  /** Multiplying by a natural preserves order. */
  lemma MulRightMonotone(a: int, b: int, c: nat)
    requires a <= b
    ensures a * c <= b * c
  {
    assert b * c - a * c == (b - a) * c;
  }

  /** A product of naturals is monotone in its second factor. */
  lemma MulMonotone(d: nat, i: nat, j: nat)
    requires i <= j
    ensures d * i <= d * j
  {
    assert d * j - d * i == d * (j - i);
  }

  /** An exact multiple divides back to its factor. */
  lemma {:induction false} DivOfMultiple(k: nat, d: nat)
    requires 0 < d
    ensures (k * d) / d == k
  {
    var q, r := (k * d) / d, (k * d) % d;
    assert k * d == d * q + r && 0 <= r < d;
    if q < k {
      MulMonotone(d, q + 1, k);
      assert false;
    } else if q > k {
      MulMonotone(d, k + 1, q);
      assert false;
    }
  }

  /** The quotient of C's `/` on `long`: the quotient of the magnitudes,
      negated when the operands have opposite signs. */
  function TruncDiv(a: int, d: int): (q: int)
    requires d != 0
    ensures Abs(q) == Abs(a) / Abs(d)
    ensures q != 0 ==> (q < 0 <==> (a < 0) != (d < 0))
  {
    var x, y := Abs(a), Abs(d);
    DivNonneg(x, y);
    var m := x / y;
    if (a < 0) == (d < 0) then m else -m
  }

  /** The remainder left by `TruncDiv` is smaller than the divisor and carries the
      dividend's sign, which is what the C standard requires of `/` and `%`. */
  lemma TruncDivRemainder(a: int, d: int)
    requires d != 0
    ensures Abs(a - TruncDiv(a, d) * d) < Abs(d)
    ensures a - TruncDiv(a, d) * d == 0 || (a - TruncDiv(a, d) * d < 0 <==> a < 0)
  {
    var x: int, y: int := Abs(a), Abs(d);
    var m: int, r: int := x / y, x % y;
    assert x == y * m + r && 0 <= r < y;
    var q := TruncDiv(a, d);
    assert q == (if (a < 0) == (d < 0) then m else -m);
    if a < 0 && d < 0 {
      assert q * d == m * -y == -(y * m);
    } else if a < 0 {
      assert q * d == -m * y == -(y * m);
    } else if d < 0 {
      assert q * d == -m * -y == y * m;
    } else {
      assert q * d == m * y == y * m;
    }
  }

  /** Truncating division undoes a multiplication, whatever the signs. */
  lemma {:induction false} TruncDivOfMultiple(k: int, d: int)
    requires d != 0
    ensures TruncDiv(k * d, d) == k
  {
    var x, y := Abs(k * d), Abs(d);
    if k >= 0 && d > 0 {
      assert x == k * d;
      DivOfMultiple(k, d);
    } else if k >= 0 {
      assert x == k * y;
      DivOfMultiple(k, y);
    } else if d > 0 {
      assert x == (-k) * d;
      DivOfMultiple(-k, d);
    } else {
      assert x == (-k) * y;
      DivOfMultiple(-k, y);
    }
  }

  /** Truncating division by a positive divisor is monotone in the dividend. */
  lemma {:induction false} TruncDivMonotone(a: int, b: int, d: int)
    requires 0 < d && a <= b
    ensures TruncDiv(a, d) <= TruncDiv(b, d)
  {
    if 0 <= a {
      DivMonotone(a, b, d);
    } else if b < 0 {
      DivMonotone(-b, -a, d);
    }
  }

  /** Arduino's `map(x, in_min, in_max, out_min, out_max)`, on unbounded integers. */
  function Map(x: int, inMin: int, inMax: int, outMin: int, outMax: int): (r: int)
    requires inMin != inMax
    ensures x == inMin ==> r == outMin
  {
    TruncDiv((x - inMin) * (outMax - outMin), inMax - inMin) + outMin
  }

  /** `map` sends the upper end of the input range to the upper end of the output range. */
  lemma {:induction false} MapUpperEnd(inMin: int, inMax: int, outMin: int, outMax: int)
    requires inMin != inMax
    ensures Map(inMax, inMin, inMax, outMin, outMax) == outMax
  {
    var rise, run := outMax - outMin, inMax - inMin;
    assert (inMax - inMin) * rise == rise * run;
    TruncDivOfMultiple(rise, run);
  }

  /** With an increasing input range and a non-decreasing output range, `map` is monotone. */
  lemma {:induction false} MapMonotone(x: int, y: int, inMin: int, inMax: int, outMin: int, outMax: int)
    requires inMin < inMax && outMin <= outMax && x <= y
    ensures Map(x, inMin, inMax, outMin, outMax) <= Map(y, inMin, inMax, outMin, outMax)
  {
    var rise := outMax - outMin;
    MulRightMonotone(x - inMin, y - inMin, rise);
    TruncDivMonotone((x - inMin) * rise, (y - inMin) * rise, inMax - inMin);
  }

  /** The range check applied to the mapped value: below `lo` becomes `lo`, above `hi` becomes `hi`. */
  function Clamp(x: int, lo: int, hi: int): (r: int)
    requires lo <= hi
    ensures lo <= r <= hi
    ensures lo <= x <= hi ==> r == x
    ensures x < lo ==> r == lo
    ensures x > hi ==> r == hi
  {
    if x < lo then lo else if x > hi then hi else x
  }
}
