/**
 Linear remapping between intervals, and the quantisation of a value of
 [-1, 1] to an 8-bit colour channel. Arithmetic is on reals (true division).
 */
module ArtColor {

  /**
   Maps val linearly from the interval [inStart, inEnd] to [outStart, outEnd].
   The input interval must not be degenerate: the program divides by its length.
   */
  function Remap(val: real, inStart: real, inEnd: real, outStart: real, outEnd: real): (r: real)
    requires inStart != inEnd
    ensures val == inStart ==> r == outStart
    ensures val == inEnd ==> r == outEnd
  {
    var inputRange := inStart - inEnd;
    var outputRange := outStart - outEnd;
    var scalar := outputRange / inputRange;
    outStart + scalar * (val - inStart)
  }

  /** Conversion of a real to an integer by dropping its fractional part (rounding toward zero). */
  function Trunc(r: real): (n: int)
    ensures r >= 0.0 ==> 0 <= n && n as real <= r < n as real + 1.0
    ensures r < 0.0 ==> n <= 0 && n as real - 1.0 < r <= n as real
  {
    if r >= 0.0 then r.Floor else -((-r).Floor)
  }

  /** Quantises a value of [-1, 1] to a colour channel value. */
  function ColorMap(val: real): (c: int)
    ensures -1.0 <= val <= 1.0 ==> 0 <= c <= 255
  {
    Trunc(Remap(val, -1.0, 1.0, 0.0, 255.0))
  }

  /** Remapping back from the output interval to the input interval recovers the value. */
  lemma RemapRoundTrip(val: real, inStart: real, inEnd: real, outStart: real, outEnd: real)
    requires inStart != inEnd && outStart != outEnd
    ensures Remap(Remap(val, inStart, inEnd, outStart, outEnd), outStart, outEnd, inStart, inEnd) == val
  {
  }

  /** Remapping preserves affine combinations: it is linear between the endpoints. */
  lemma RemapLinear(v1: real, v2: real, frac: real, inStart: real, inEnd: real, outStart: real, outEnd: real)
    requires inStart != inEnd
    ensures Remap(v1 + frac * (v2 - v1), inStart, inEnd, outStart, outEnd)
            == Remap(v1, inStart, inEnd, outStart, outEnd)
               + frac * (Remap(v2, inStart, inEnd, outStart, outEnd) - Remap(v1, inStart, inEnd, outStart, outEnd))
  {
    var s := (outStart - outEnd) / (inStart - inEnd);
    assert s * (v1 + frac * (v2 - v1) - inStart)
           == s * (v1 - inStart) + frac * (s * (v2 - inStart) - s * (v1 - inStart));
  }

  /**
   A value inside an increasing input interval lands inside an increasing output
   interval, strictly below its end when it is strictly below the input's end.
   */
  lemma RemapWithin(val: real, inStart: real, inEnd: real, outStart: real, outEnd: real)
    requires inStart < inEnd && outStart < outEnd
    requires inStart <= val <= inEnd
    ensures outStart <= Remap(val, inStart, inEnd, outStart, outEnd) <= outEnd
    ensures val < inEnd ==> Remap(val, inStart, inEnd, outStart, outEnd) < outEnd
  {
    var s := (outStart - outEnd) / (inStart - inEnd);
    var len := inEnd - inStart;
    assert s == (outEnd - outStart) / len;
    assert s * len == outEnd - outStart;
    assert s > 0.0;
    var d := val - inStart;
    assert 0.0 <= s * d;
    assert 0.0 <= s * (len - d);
    assert val < inEnd ==> 0.0 < s * (len - d);
    assert Remap(val, inStart, inEnd, outStart, outEnd) == outStart + s * d;
  }

  /** The documented examples of remapping. */
  lemma RemapExamples()
    ensures Remap(0.5, 0.0, 1.0, 0.0, 10.0) == 5.0
    ensures Remap(5.0, 4.0, 6.0, 0.0, 2.0) == 1.0
    ensures Remap(5.0, 4.0, 6.0, 1.0, 2.0) == 1.5
    ensures Remap(0.0, 0.0, 255.0, -1.0, 1.0) == -1.0
    ensures Remap(255.0, 0.0, 255.0, -1.0, 1.0) == 1.0
  {
  }

  /** The documented examples of colour quantisation. */
  lemma ColorMapExamples()
    ensures ColorMap(-1.0) == 0
    ensures ColorMap(1.0) == 255
    ensures ColorMap(0.0) == 127
    ensures ColorMap(0.5) == 191
  {
    assert Remap(0.0, -1.0, 1.0, 0.0, 255.0) == 127.5;
    assert Remap(0.5, -1.0, 1.0, 0.0, 255.0) == 191.25;
  }

  /** Quantisation is monotone: a larger value never gets a smaller channel value. */
  lemma ColorMapMonotone(v1: real, v2: real)
    requires v1 <= v2
    ensures ColorMap(v1) <= ColorMap(v2)
  {
    var r1 := Remap(v1, -1.0, 1.0, 0.0, 255.0);
    var r2 := Remap(v2, -1.0, 1.0, 0.0, 255.0);
    assert r1 <= r2;
    TruncMonotone(r1, r2);
  }

  /** Truncation toward zero is monotone. */
  lemma TruncMonotone(r1: real, r2: real)
    requires r1 <= r2
    ensures Trunc(r1) <= Trunc(r2)
  {
  }

  /**
   The pixel coordinate remap of the image loop: column i of a row of size
   pixels (likewise row j of a column) lands in [-1, 1), never on 1 itself.
   */
  lemma PixelCoordinateInRange(i: int, size: int)
    requires 0 <= i < size
    ensures -1.0 <= Remap(i as real, 0.0, size as real, -1.0, 1.0) < 1.0
  {
    RemapWithin(i as real, 0.0, size as real, -1.0, 1.0);
  }
}
