/**
 What the image loop computes for one pixel: the pixel's coordinates are
 remapped to [-1, 1), each channel's random function is evaluated there and
 the value is quantised. Image allocation, the loops and saving are not part
 of this model.
 */
module ArtPixel {
  import opened ArtExpr
  import opened ArtEval
  import opened ArtColor

  /** The (red, green, blue) triple of pixel (i, j) of a width x height image. */
  function PixelColor(red: Fn, green: Fn, blue: Fn, i: int, j: int, width: int, height: int, t: Trig)
    : (c: (int, int, int))
    requires 0 <= i < width && 0 <= j < height
  {
    var x := Remap(i as real, 0.0, width as real, -1.0, 1.0);
    var y := Remap(j as real, 0.0, height as real, -1.0, 1.0);
    (ColorMap(Eval(red, x, y, t)), ColorMap(Eval(green, x, y, t)), ColorMap(Eval(blue, x, y, t)))
  }

  /**
   With bounded trigonometric functions every channel of every pixel is a
   valid 8-bit value, whatever the three random functions are: the
   coordinates land in [-1, 1), evaluation stays in [-1, 1], and
   quantisation maps [-1, 1] into [0, 255].
   */
  lemma PixelColorInRange(red: Fn, green: Fn, blue: Fn, i: int, j: int, width: int, height: int, t: Trig)
    requires Bounded(t)
    requires 0 <= i < width && 0 <= j < height
    ensures var c := PixelColor(red, green, blue, i, j, width, height, t);
            0 <= c.0 <= 255 && 0 <= c.1 <= 255 && 0 <= c.2 <= 255
  {
    var x := Remap(i as real, 0.0, width as real, -1.0, 1.0);
    var y := Remap(j as real, 0.0, height as real, -1.0, 1.0);
    PixelCoordinateInRange(i, width);
    PixelCoordinateInRange(j, height);
    EvalClosed(red, x, y, t);
    EvalClosed(green, x, y, t);
    EvalClosed(blue, x, y, t);
  }
}
