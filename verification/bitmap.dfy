/** The RGBA raster the canvas hands out through `getImageData`: `width` by
    `height` pixels in row-major ("raster") order, pixel `i` occupying bytes
    `4i .. 4i+3` of the underlying buffer. The model keeps one `Rgba` record
    per pixel instead of the flat byte array; channel `c` of pixel `i` is byte
    `4i + c`. */
module Bitmaps {
  import opened Numeric

  datatype Rgba = Rgba(r: int, g: int, b: int, a: int)

  predicate ValidPixel(p: Rgba) {
    IsByte(p.r) && IsByte(p.g) && IsByte(p.b) && IsByte(p.a)
  }

  predicate AllValid(px: seq<Rgba>) {
    forall i :: 0 <= i < |px| ==> ValidPixel(px[i])
  }

  datatype Bitmap = Bitmap(width: nat, height: nat, pixels: seq<Rgba>) {
    /** What every `ImageData` satisfies: one pixel per grid cell, bytes only. */
    predicate Valid() {
      |pixels| == width * height && AllValid(pixels)
    }
  }

  /** Channel `c` (0 = red, 1 = green, 2 = blue, 3 = alpha) of a pixel, that
      is, byte `4i + c` of the raw buffer for pixel `i`. */
  function Channel(p: Rgba, c: nat): int
    requires c < 4
  {
    if c == 0 then p.r else if c == 1 then p.g else if c == 2 then p.b else p.a
  }

  /** The analyser's per-pixel brightness, `(r + g + b) / 3`. */
  function Brightness(p: Rgba): (v: real)
    requires ValidPixel(p)
    ensures 0.0 <= v <= 255.0
  {
    (p.r + p.g + p.b) as real / 3.0
  }

  predicate SameRgb(p: Rgba, q: Rgba) {
    p.r == q.r && p.g == q.g && p.b == q.b
  }

  /** Every pixel has the colour of the first one (alpha may differ). */
  predicate Uniform(px: seq<Rgba>) {
    forall i :: 0 <= i < |px| ==> SameRgb(px[i], px[0])
  }

  /** Raster index `p` is not on the one-pixel border of a `w` by `h` grid. */
  predicate Interior(p: int, w: nat, h: nat) {
    w > 0 && 0 <= p && 1 <= p % w <= w - 2 && 1 <= p / w <= h - 2
  }

  /** The cell `(x, y)` of a `w`-wide grid sits at raster index `y*w + x`. */
  lemma RasterCoords(x: int, y: int, w: int)
    requires 0 <= x < w && 0 <= y
    ensures (y * w + x) / w == y && (y * w + x) % w == x
  {
    var q := y * w + x;
    var d, m := q / w, q % w;
    assert q == d * w + m && 0 <= m < w;
    if d < y {
      MulMonotone(d + 1, y, w);
      assert false;
    } else if d > y {
      MulMonotone(y + 1, d, w);
      assert false;
    }
  }

  lemma MulMonotone(a: int, b: int, w: int)
    requires a <= b && 0 <= w
    ensures a * w <= b * w
  {
  }

  lemma CellInRange(x: int, y: int, w: int, h: int)
    requires 0 <= x < w && 0 <= y < h
    ensures 0 <= y * w + x < w * h
  {
    MulMonotone(y + 1, h, w);
  }

  /** The pixel at column `x`, row `y` of a `w`-by-`h` raster. */
  function Cell(px: seq<Rgba>, w: nat, h: nat, x: int, y: int): Rgba
    requires |px| == w * h
    requires 0 <= x < w && 0 <= y < h
  {
    CellInRange(x, y, w, h);
    px[y * w + x]
  }
}
