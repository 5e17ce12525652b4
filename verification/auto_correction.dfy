/** The auto-corrector of `ImageProcessor`: correction parameters derived
    from the analyser's statistics (`calculateRotation`, `calculateBrightness`,
    `calculateContrast`, `calculateSharpness`), then a per-pixel brightness
    and contrast pass and an in-place 3x3 unsharp mask (`applyCorrections`,
    `applySharpness`). Every store goes through a `Uint8ClampedArray`, so it
    is clamped and rounded (`StoreByte`). */
module AutoCorrection {
  import opened Numeric
  import opened Bitmaps
  import opened Results
  import opened ImageAnalysis
  import opened XrayCheck

  datatype Corrections = Corrections(rotation: int, brightness: real, contrast: real, sharpness: real)

  const TargetBrightness: real := 128.0
  const TargetContrast: real := 50.0
  const TargetEdgeDensity: real := 0.1
  /** `applySharpness` runs only when the sharpness amount exceeds this in magnitude. */
  const SharpenGate: real := 5.0

  /** The ranges every derived parameter lies in. */
  predicate InRange(c: Corrections) {
    && c.rotation in {-90, 0, 90}
    && -50.0 <= c.brightness <= 50.0
    && -30.0 <= c.contrast <= 30.0
    && -20.0 <= c.sharpness <= 20.0
  }

  /** Quarter turn for images narrower than 1:2 or wider than 2:1. */
  function Rotation(width: nat, height: nat): (deg: int)
    ensures deg in {-90, 0, 90}
    ensures deg == 90 <==> height > 0 && (width as real) / (height as real) < 0.5
    ensures deg == -90 <==> RatioAbove(width, height, 2.0)
  {
    if RatioBelow(width, height, 0.5) then 90
    else if RatioAbove(width, height, 2.0) then -90
    else 0
  }

  /** Half the distance to brightness 128, at most 50 either way. */
  function BrightnessShift(avgBrightness: real): (r: real)
    ensures -50.0 <= r <= 50.0
    ensures r > 0.0 <==> avgBrightness < TargetBrightness
    ensures r < 0.0 <==> avgBrightness > TargetBrightness
    ensures 28.0 <= avgBrightness <= 228.0 ==> avgBrightness + 2.0 * r == TargetBrightness
    ensures avgBrightness <= 28.0 ==> r == 50.0
    ensures avgBrightness >= 228.0 ==> r == -50.0
  {
    Clamp((TargetBrightness - avgBrightness) / 2.0, -50.0, 50.0)
  }

  /** Half the distance to contrast 50, at most 30 either way. */
  function ContrastShift(avgContrast: real): (r: real)
    ensures -30.0 <= r <= 30.0
    ensures r > 0.0 <==> avgContrast < TargetContrast
    ensures r < 0.0 <==> avgContrast > TargetContrast
    ensures -10.0 <= avgContrast <= 110.0 ==> avgContrast + 2.0 * r == TargetContrast
    ensures avgContrast <= -10.0 ==> r == 30.0
    ensures avgContrast >= 110.0 ==> r == -30.0
  {
    Clamp((TargetContrast - avgContrast) / 2.0, -30.0, 30.0)
  }

  /** A hundred times the distance to edge density 0.1, at most 20 either way. */
  function SharpnessAmount(edgeDensity: real): (r: real)
    ensures -20.0 <= r <= 20.0
    ensures r > 0.0 <==> edgeDensity < TargetEdgeDensity
    ensures r < 0.0 <==> edgeDensity > TargetEdgeDensity
    ensures -0.1 <= edgeDensity <= 0.3 ==> edgeDensity + r / 100.0 == TargetEdgeDensity
    ensures edgeDensity <= -0.1 ==> r == 20.0
    ensures edgeDensity >= 0.3 ==> r == -20.0
  {
    Clamp((TargetEdgeDensity - edgeDensity) * 100.0, -20.0, 20.0)
  }

  /** `autoCorrect`: the four parameters for one set of statistics. */
  function Derive(s: Stats): (c: Corrections)
    ensures InRange(c)
    ensures c.rotation == Rotation(s.width, s.height)
    ensures c.brightness == BrightnessShift(s.avgBrightness)
    ensures c.contrast == ContrastShift(s.avgContrast)
    ensures c.sharpness == SharpnessAmount(s.edgeDensity)
  {
    Corrections(Rotation(s.width, s.height), BrightnessShift(s.avgBrightness),
                ContrastShift(s.avgContrast), SharpnessAmount(s.edgeDensity))
  }

  /** Every image the X-ray check accepts gets rotation 0, because the
      accepted aspect band `[0.6, 1.8]` lies inside `[0.5, 2]`. */
  lemma AcceptedImageIsNotRotated(img: Bitmap)
    requires img.Valid() && IsChestXray(Ok(img))
    ensures Statistics(img).Ok?
    ensures Derive(Statistics(img).value).rotation == 0
  {
    AcceptedAspect(img);
  }

  /** A uniform image gets contrast +25 and sharpness +10 whatever its shade,
      and a uniform mid-grey one no brightness shift. */
  lemma UniformImageCorrections(img: Bitmap)
    requires img.Valid() && img.width > 0 && img.height > 0 && Uniform(img.pixels)
    ensures Statistics(img).Ok?
    ensures Derive(Statistics(img).value).contrast == 25.0
    ensures Derive(Statistics(img).value).sharpness == 10.0
    ensures Brightness(img.pixels[0]) == 128.0 ==> Derive(Statistics(img).value).brightness == 0.0
  {
    UniformStatistics(img);
  }

  /** The linear contrast factor `259(c + 255) / (255(259 - c))`. */
  function ContrastFactor(c: real): (f: real)
    requires -30.0 <= c <= 30.0
    ensures f > 0.0
    ensures c == 0.0 ==> f == 1.0
    ensures c > 0.0 ==> f > 1.0
    ensures c < 0.0 ==> f < 1.0
  {
    var num, den := 259.0 * (c + 255.0), 255.0 * (259.0 - c);
    QuotientSign(num, den);
    num / den
  }

  /** The brightness store: `v + brightness`, clamped and rounded. */
  function ShiftStore(v: int, brightness: real): (r: int)
    ensures IsByte(r)
    ensures StoredAs(v as real + brightness, r)
  {
    StoreByte(Clamp(v as real + brightness, 0.0, 255.0))
  }

  /** The contrast store: `factor * (s - 128) + 128`, clamped and rounded. */
  function StretchStore(s: int, factor: real): (r: int)
    ensures IsByte(r)
    ensures StoredAs(factor * (s as real - 128.0) + 128.0, r)
  {
    StoreByte(Clamp(factor * (s as real - 128.0) + 128.0, 0.0, 255.0))
  }

  /** One colour channel through the brightness store and the contrast store. */
  function AdjustChannel(v: int, brightness: real, factor: real): (r: int)
    ensures IsByte(r)
  {
    StretchStore(ShiftStore(v, brightness), factor)
  }

  /** With no brightness shift and factor 1 every byte is left as it is. */
  lemma AdjustChannelIdentity(v: int)
    requires IsByte(v)
    ensures AdjustChannel(v, 0.0, 1.0) == v
  {
    StoreByteOfByte(v);
  }

  lemma ShiftStoreMonotone(u: int, v: int, brightness: real)
    requires u <= v
    ensures ShiftStore(u, brightness) <= ShiftStore(v, brightness)
  {
    ClampMonotone(u as real + brightness, v as real + brightness, 0.0, 255.0);
    StoreByteMonotone(Clamp(u as real + brightness, 0.0, 255.0), Clamp(v as real + brightness, 0.0, 255.0));
  }

  lemma StretchStoreMonotone(s: int, t: int, factor: real)
    requires s <= t && factor >= 0.0
    ensures StretchStore(s, factor) <= StretchStore(t, factor)
  {
    var xs := factor * (s as real - 128.0) + 128.0;
    var xt := factor * (t as real - 128.0) + 128.0;
    assert xs <= xt by {
      ScaleMonotone(factor, s as real - 128.0, t as real - 128.0);
    }
    ClampMonotone(xs, xt, 0.0, 255.0);
    StoreByteMonotone(Clamp(xs, 0.0, 255.0), Clamp(xt, 0.0, 255.0));
  }

  /** With a positive factor the pass keeps the order of channel values. */
  lemma AdjustChannelMonotone(u: int, v: int, brightness: real, factor: real)
    requires u <= v && factor > 0.0
    ensures AdjustChannel(u, brightness, factor) <= AdjustChannel(v, brightness, factor)
  {
    ShiftStoreMonotone(u, v, brightness);
    StretchStoreMonotone(ShiftStore(u, brightness), ShiftStore(v, brightness), factor);
  }

  function AdjustPixel(p: Rgba, brightness: real, factor: real): (q: Rgba)
    ensures ValidPixel(p) ==> ValidPixel(q)
    ensures q.a == p.a
  {
    Rgba(AdjustChannel(p.r, brightness, factor), AdjustChannel(p.g, brightness, factor),
         AdjustChannel(p.b, brightness, factor), p.a)
  }

  /** The brightness and contrast loop of `applyCorrections`: red, green and
      blue of every pixel shifted, then stretched about 128; alpha never written. */
  function BrightnessContrastPass(img: Bitmap, c: Corrections): (out: Bitmap)
    requires img.Valid() && InRange(c)
    ensures out.Valid() && out.width == img.width && out.height == img.height
    ensures forall i :: 0 <= i < |img.pixels| ==>
              out.pixels[i] == AdjustPixel(img.pixels[i], c.brightness, ContrastFactor(c.contrast))
    ensures forall i :: 0 <= i < |img.pixels| ==> out.pixels[i].a == img.pixels[i].a
    ensures c.brightness == 0.0 && c.contrast == 0.0 ==> out == img
  {
    var factor := ContrastFactor(c.contrast);
    var px := seq(|img.pixels|, i requires 0 <= i < |img.pixels| => AdjustPixel(img.pixels[i], c.brightness, factor));
    if c.brightness == 0.0 && c.contrast == 0.0 then
      assert px == img.pixels by {
        forall i | 0 <= i < |px|
          ensures px[i] == img.pixels[i]
        {
          var p := img.pixels[i];
          assert ValidPixel(p);
          AdjustChannelIdentity(p.r);
          AdjustChannelIdentity(p.g);
          AdjustChannelIdentity(p.b);
        }
      }
      Bitmap(img.width, img.height, px)
    else
      Bitmap(img.width, img.height, px)
  }

  /** The unsharp mask on one channel: the value pushed away from the mean of
      its 3x3 neighbourhood by `factor` times the difference. */
  function SharpenChannel(v: int, mean: real, factor: real): (r: int)
    ensures IsByte(r)
    ensures StoredAs(v as real + factor * (v as real - mean), r)
  {
    StoreByte(Clamp(v as real + factor * (v as real - mean), 0.0, 255.0))
  }

  /** A byte equal to its neighbourhood mean is kept; with a non-negative
      amount, a byte above the mean never decreases and one below never
      increases. */
  lemma SharpenChannelDirection(v: int, mean: real, factor: real)
    requires IsByte(v)
    ensures v as real == mean ==> SharpenChannel(v, mean, factor) == v
    ensures factor >= 0.0 && v as real >= mean ==> SharpenChannel(v, mean, factor) >= v
    ensures factor >= 0.0 && v as real <= mean ==> SharpenChannel(v, mean, factor) <= v
  {
    var x := Clamp(v as real + factor * (v as real - mean), 0.0, 255.0);
    StoreByteOfByte(v);
    if v as real == mean {
      assert factor * (v as real - mean) == 0.0;
      assert x == v as real;
    }
    if factor >= 0.0 && v as real >= mean {
      assert v as real <= x;
      StoreByteMonotone(v as real, x);
    }
    if factor >= 0.0 && v as real <= mean {
      assert x <= v as real;
      StoreByteMonotone(x, v as real);
    }
  }

  /** Channel `c` summed over the three cells of row `y` around column `x`. */
  function RowSum(px: seq<Rgba>, w: nat, h: nat, x: int, y: int, c: nat): int
    requires |px| == w * h && c < 4
    requires 1 <= x <= w - 2 && 0 <= y < h
  {
    Channel(Cell(px, w, h, x - 1, y), c) + Channel(Cell(px, w, h, x, y), c)
    + Channel(Cell(px, w, h, x + 1, y), c)
  }

  /** Mean of channel `c` over the 3x3 neighbourhood of the interior cell `(x, y)`. */
  function NeighbourhoodMean(px: seq<Rgba>, w: nat, h: nat, x: int, y: int, c: nat): real
    requires |px| == w * h && c < 4
    requires 1 <= x <= w - 2 && 1 <= y <= h - 2
  {
    (RowSum(px, w, h, x, y - 1, c) + RowSum(px, w, h, x, y, c) + RowSum(px, w, h, x, y + 1, c)) as real / 9.0
  }

  /** The new value of the interior cell `(x, y)`, read from the current buffer. */
  function SharpenAt(px: seq<Rgba>, w: nat, h: nat, x: int, y: int, factor: real): (q: Rgba)
    requires |px| == w * h
    requires 1 <= x <= w - 2 && 1 <= y <= h - 2
    ensures ValidPixel(Cell(px, w, h, x, y)) ==> ValidPixel(q)
    ensures q.a == Cell(px, w, h, x, y).a
  {
    var p := Cell(px, w, h, x, y);
    Rgba(SharpenChannel(p.r, NeighbourhoodMean(px, w, h, x, y, 0), factor),
         SharpenChannel(p.g, NeighbourhoodMean(px, w, h, x, y, 1), factor),
         SharpenChannel(p.b, NeighbourhoodMean(px, w, h, x, y, 2), factor),
         p.a)
  }

  /** Every cell of a one-colour buffer has the colour of the first pixel. */
  lemma UniformCell(px: seq<Rgba>, w: nat, h: nat, x: int, y: int)
    requires |px| == w * h && Uniform(px)
    requires 0 <= x < w && 0 <= y < h
    ensures SameRgb(Cell(px, w, h, x, y), px[0])
  {
    CellInRange(x, y, w, h);
  }

  /** In a one-colour buffer every neighbourhood mean is the colour itself. */
  lemma UniformMean(px: seq<Rgba>, w: nat, h: nat, x: int, y: int, c: nat)
    requires |px| == w * h && Uniform(px) && c < 3
    requires 1 <= x <= w - 2 && 1 <= y <= h - 2
    ensures NeighbourhoodMean(px, w, h, x, y, c) == Channel(px[0], c) as real
  {
    UniformCell(px, w, h, x - 1, y - 1);
    UniformCell(px, w, h, x, y - 1);
    UniformCell(px, w, h, x + 1, y - 1);
    UniformCell(px, w, h, x - 1, y);
    UniformCell(px, w, h, x, y);
    UniformCell(px, w, h, x + 1, y);
    UniformCell(px, w, h, x - 1, y + 1);
    UniformCell(px, w, h, x, y + 1);
    UniformCell(px, w, h, x + 1, y + 1);
    var v := Channel(px[0], c);
    assert RowSum(px, w, h, x, y - 1, c) == 3 * v;
    assert RowSum(px, w, h, x, y, c) == 3 * v;
    assert RowSum(px, w, h, x, y + 1, c) == 3 * v;
  }

  /** So sharpening a cell of a one-colour buffer leaves it as it is. */
  lemma SharpenUniformCell(px: seq<Rgba>, w: nat, h: nat, x: int, y: int, factor: real)
    requires |px| == w * h && AllValid(px) && Uniform(px)
    requires 1 <= x <= w - 2 && 1 <= y <= h - 2
    ensures SharpenAt(px, w, h, x, y, factor) == Cell(px, w, h, x, y)
  {
    var p := Cell(px, w, h, x, y);
    CellInRange(x, y, w, h);
    assert ValidPixel(p);
    UniformCell(px, w, h, x, y);
    UniformMean(px, w, h, x, y, 0);
    UniformMean(px, w, h, x, y, 1);
    UniformMean(px, w, h, x, y, 2);
    SharpenChannelDirection(p.r, p.r as real, factor);
    SharpenChannelDirection(p.g, p.g as real, factor);
    SharpenChannelDirection(p.b, p.b as real, factor);
  }


  // ---------------------------------------------------------------------
  // The in-place unsharp mask
  // ---------------------------------------------------------------------

  /** The value the counter of `for (let i = 1; i < n - 1; i++)` holds when
      the loop ends: `n - 1`, or 1 when the body never runs. */
  function LoopEnd(n: nat): (e: nat)
    ensures e >= 1 && (n >= 2 ==> e == n - 1)
  {
    if n >= 2 then n - 1 else 1
  }

  /** Row `y` of the sweep once its interior cells `1 .. x - 1` have been
      sharpened, left to right, in place on `px`: every cell reads its
      neighbourhood as the buffer holds it at that moment, so the cell to its
      left is already sharpened. */
  function SharpenRow(px: seq<Rgba>, w: nat, h: nat, y: int, factor: real, x: nat): (r: seq<Rgba>)
    requires |px| == w * h && 1 <= y <= h - 2 && 1 <= x <= LoopEnd(w)
    ensures |r| == w * h
    decreases x
  {
    if x == 1 then px
    else
      var prev := SharpenRow(px, w, h, y, factor, x - 1);
      CellInRange(x - 1, y, w, h);
      prev[y * w + (x - 1) := SharpenAt(prev, w, h, x - 1, y, factor)]
  }

  /** The buffer once the interior rows `1 .. y - 1` have been swept, top to
      bottom; a row starts from what the rows above it left. */
  function SharpenRows(px: seq<Rgba>, w: nat, h: nat, factor: real, y: nat): (r: seq<Rgba>)
    requires |px| == w * h && 1 <= y <= LoopEnd(h)
    ensures |r| == w * h
    decreases y
  {
    if y == 1 then px
    else SharpenRow(SharpenRows(px, w, h, factor, y - 1), w, h, y - 1, factor, LoopEnd(w))
  }

  /** What a part of the sweep may do to a buffer: only interior cells
      change, alpha never does, bytes stay bytes, and a one-colour buffer is
      left as it is. */
  predicate SharpenKeeps(px: seq<Rgba>, r: seq<Rgba>, w: nat, h: nat)
    requires |r| == |px|
  {
    && AllValid(r)
    && (forall p :: 0 <= p < |px| && !Interior(p, w, h) ==> r[p] == px[p])
    && (forall p :: 0 <= p < |px| ==> r[p].a == px[p].a)
    && (Uniform(px) ==> r == px)
  }

  lemma {:induction false} SharpenRowKeeps(px: seq<Rgba>, w: nat, h: nat, y: int, factor: real, x: nat)
    requires |px| == w * h && AllValid(px) && 1 <= y <= h - 2 && 1 <= x <= LoopEnd(w)
    ensures SharpenKeeps(px, SharpenRow(px, w, h, y, factor, x), w, h)
    decreases x
  {
    if x > 1 {
      var prev := SharpenRow(px, w, h, y, factor, x - 1);
      SharpenRowKeeps(px, w, h, y, factor, x - 1);
      CellInRange(x - 1, y, w, h);
      RasterCoords(x - 1, y, w);
      assert Interior(y * w + (x - 1), w, h);
      assert ValidPixel(Cell(prev, w, h, x - 1, y));
      if Uniform(px) {
        SharpenUniformCell(prev, w, h, x - 1, y, factor);
      }
    }
  }

  lemma {:induction false} SharpenRowsKeeps(px: seq<Rgba>, w: nat, h: nat, factor: real, y: nat)
    requires |px| == w * h && AllValid(px) && 1 <= y <= LoopEnd(h)
    ensures SharpenKeeps(px, SharpenRows(px, w, h, factor, y), w, h)
    decreases y
  {
    if y > 1 {
      var prev := SharpenRows(px, w, h, factor, y - 1);
      SharpenRowsKeeps(px, w, h, factor, y - 1);
      SharpenRowKeeps(prev, w, h, y - 1, factor, LoopEnd(w));
    }
  }

  /** `applySharpness` on a canvas: every interior cell sharpened once with
      factor `amount / 100`, row by row from the top and left to right
      within a row, each cell reading the buffer as the earlier cells left
      it. The border and alpha are never written, and a one-colour canvas
      comes back unchanged. */
  function Sharpened(img: Bitmap, amount: real): (out: Bitmap)
    requires img.Valid()
    ensures out.Valid() && out.width == img.width && out.height == img.height
    ensures forall p :: 0 <= p < |img.pixels| && !Interior(p, img.width, img.height) ==> out.pixels[p] == img.pixels[p]
    ensures forall p :: 0 <= p < |img.pixels| ==> out.pixels[p].a == img.pixels[p].a
    ensures Uniform(img.pixels) ==> out == img
  {
    var factor := amount / 100.0;
    SharpenRowsKeeps(img.pixels, img.width, img.height, factor, LoopEnd(img.height));
    Bitmap(img.width, img.height, SharpenRows(img.pixels, img.width, img.height, factor, LoopEnd(img.height)))
  }

  /** A 4 x 3 canvas whose red channel is 100 except at the two interior
      cells, which hold 190 and 103. */
  const InPlaceExample: seq<Rgba> :=
    seq(12, i => if i == 5 then Rgba(190, 0, 0, 255) else if i == 6 then Rgba(103, 0, 0, 255) else Rgba(100, 0, 0, 255))

  /** Sharpening in place is not sharpening a copy. With amount 20 the first
      interior cell becomes 206, which lifts the red mean around the second
      from 993/9 to 1009/9; its red therefore ends at 101, where reading the
      untouched buffer would give 102. */
  lemma InPlaceDiffersFromCopy()
    ensures Sharpened(Bitmap(4, 3, InPlaceExample), 20.0).pixels[6].r == 101
    ensures SharpenAt(InPlaceExample, 4, 3, 2, 1, 0.2).r == 102
  {
    var px := InPlaceExample;
    assert NeighbourhoodMean(px, 4, 3, 1, 1, 0) == 993.0 / 9.0;
    assert NeighbourhoodMean(px, 4, 3, 2, 1, 0) == 993.0 / 9.0;
    var first := SharpenAt(px, 4, 3, 1, 1, 0.2);
    assert first.r == 206;
    var mid := px[5 := first];
    assert SharpenRow(px, 4, 3, 1, 0.2, 2) == mid;
    assert NeighbourhoodMean(mid, 4, 3, 2, 1, 0) == 1009.0 / 9.0;
    assert SharpenAt(mid, 4, 3, 2, 1, 0.2).r == 101;
    assert SharpenRows(px, 4, 3, 0.2, 2) == SharpenRow(px, 4, 3, 1, 0.2, 3);
  }

  /** The inner loop of `applySharpness`: one row, left to right, in place. */
  method SharpenRowInPlace(px: seq<Rgba>, w: nat, h: nat, y: int, factor: real) returns (r: seq<Rgba>)
    requires |px| == w * h && 1 <= y <= h - 2
    ensures r == SharpenRow(px, w, h, y, factor, LoopEnd(w))
  {
    r := px;
    var x := 1;
    while x + 1 < w
      invariant 1 <= x <= LoopEnd(w)
      invariant r == SharpenRow(px, w, h, y, factor, x)
    {
      CellInRange(x, y, w, h);
      r := r[y * w + x := SharpenAt(r, w, h, x, y, factor)];
      x := x + 1;
    }
  }

  /** `applySharpness`: the nested raster loop computes the in-place sweep. */
  method ApplySharpness(img: Bitmap, amount: real) returns (out: Bitmap)
    requires img.Valid()
    ensures out == Sharpened(img, amount)
  {
    var w, h := img.width, img.height;
    var factor := amount / 100.0;
    var px := img.pixels;
    var y := 1;
    while y + 1 < h
      invariant 1 <= y <= LoopEnd(h)
      invariant px == SharpenRows(img.pixels, w, h, factor, y)
    {
      px := SharpenRowInPlace(px, w, h, y, factor);
      y := y + 1;
    }
    out := Bitmap(w, h, px);
  }

  // ---------------------------------------------------------------------
  // applyCorrections and processImage
  // ---------------------------------------------------------------------

  /** `putImageData(top, 0, 0)` on a canvas holding `base`. */
  function PutImageData(base: Bitmap, top: Bitmap): (out: Bitmap)
    requires base.Valid() && top.Valid()
    ensures out.Valid() && out.width == base.width && out.height == base.height
  {
    Bitmap(base.width, base.height, seq(|base.pixels|, i requires 0 <= i < |base.pixels| => Overwritten(base, top, i)))
  }

  /** Pixel `i` of the canvas after `putImageData(top, 0, 0)`. */
  function Overwritten(base: Bitmap, top: Bitmap, i: nat): (p: Rgba)
    requires base.Valid() && top.Valid() && i < |base.pixels|
    ensures ValidPixel(p)
  {
    var w := base.width;
    assert w > 0;
    var x, y := i % w, i / w;
    if x < top.width && y < top.height then
      CellInRange(x, y, top.width, top.height);
      top.pixels[y * top.width + x]
    else base.pixels[i]
  }

  /** The part of `top` that falls inside the canvas replaces what was there,
      pixel for pixel; the rest of the canvas keeps what it held. */
  lemma PutImageDataCells(base: Bitmap, top: Bitmap, x: int, y: int)
    requires base.Valid() && top.Valid()
    requires 0 <= x < base.width && 0 <= y < base.height
    ensures x < top.width && y < top.height ==>
              Cell(PutImageData(base, top).pixels, base.width, base.height, x, y)
              == Cell(top.pixels, top.width, top.height, x, y)
    ensures !(x < top.width && y < top.height) ==>
              Cell(PutImageData(base, top).pixels, base.width, base.height, x, y)
              == Cell(base.pixels, base.width, base.height, x, y)
  {
    CellInRange(x, y, base.width, base.height);
    RasterCoords(x, y, base.width);
  }

  /** The canvas `rotateCanvas` leaves after a quarter turn: `h` wide and
      `w` high, holding the browser's resampling of the turned image. */
  predicate QuarterTurnCanvas(img: Bitmap, drawn: Bitmap) {
    drawn.Valid() && drawn.width == img.height && drawn.height == img.width
  }

  /** What `applyCorrections` leaves on the canvas. The brightness and
      contrast pass works on the buffer read before any rotation; with a
      quarter turn, `putImageData` writes that unrotated buffer over the
      top-left corner of the turned canvas. The unsharp mask then sweeps the
      whole canvas when `|sharpness| > 5`. */
  function Corrected(img: Bitmap, c: Corrections, drawn: Bitmap): (out: Bitmap)
    requires img.Valid() && InRange(c)
    requires c.rotation != 0 ==> QuarterTurnCanvas(img, drawn)
    ensures out.Valid()
    ensures c.rotation == 0 ==> out.width == img.width && out.height == img.height
    ensures c.rotation != 0 ==> out.width == img.height && out.height == img.width
  {
    var adjusted := BrightnessContrastPass(img, c);
    var canvas := if c.rotation == 0 then adjusted else PutImageData(drawn, adjusted);
    if Abs(c.sharpness) > SharpenGate then Sharpened(canvas, c.sharpness) else canvas
  }

  /** `applyCorrections` on the canvas buffer; `drawn` is what `rotateCanvas`
      draws, read only for a quarter turn. */
  method ApplyCorrections(img: Bitmap, c: Corrections, drawn: Bitmap) returns (out: Bitmap)
    requires img.Valid() && InRange(c)
    requires c.rotation != 0 ==> QuarterTurnCanvas(img, drawn)
    ensures out == Corrected(img, c, drawn)
    ensures c.rotation == 0 ==> forall i :: 0 <= i < |img.pixels| ==> out.pixels[i].a == img.pixels[i].a
    ensures c.rotation == 0 ==> forall p :: 0 <= p < |img.pixels| && !Interior(p, img.width, img.height) ==>
              out.pixels[p] == AdjustPixel(img.pixels[p], c.brightness, ContrastFactor(c.contrast))
    ensures c.rotation == 0 && Abs(c.sharpness) <= SharpenGate ==> out == BrightnessContrastPass(img, c)
    ensures c.rotation == 0 && Uniform(BrightnessContrastPass(img, c).pixels) ==> out == BrightnessContrastPass(img, c)
    ensures c.rotation == 0 && c.brightness == 0.0 && c.contrast == 0.0 && Abs(c.sharpness) <= SharpenGate ==> out == img
  {
    out := BrightnessContrastPass(img, c);
    if c.rotation != 0 {
      out := PutImageData(drawn, out);
    }
    if Abs(c.sharpness) > SharpenGate {
      out := ApplySharpness(out, c.sharpness);
    }
  }

  /** As written, a quarter turn is undone in the top-left corner: without
      sharpening, every cell there holds the adjusted pixel of the unturned
      image at the same coordinates, whatever the turned drawing put there. */
  lemma TurnedCornerIsUnturned(img: Bitmap, c: Corrections, drawn: Bitmap, x: int, y: int)
    requires img.Valid() && InRange(c) && c.rotation != 0 && QuarterTurnCanvas(img, drawn)
    requires Abs(c.sharpness) <= SharpenGate
    requires 0 <= x < img.width && 0 <= x < img.height && 0 <= y < img.width && 0 <= y < img.height
    ensures Cell(Corrected(img, c, drawn).pixels, img.height, img.width, x, y)
            == AdjustPixel(Cell(img.pixels, img.width, img.height, x, y), c.brightness, ContrastFactor(c.contrast))
  {
    PutImageDataCells(drawn, BrightnessContrastPass(img, c), x, y);
    CellInRange(x, y, img.width, img.height);
  }

  const Black: Rgba := Rgba(0, 0, 0, 255)
  const White: Rgba := Rgba(255, 255, 255, 255)

  /** A 1 x 3 column, black on top, and its clockwise quarter turn as
      `rotateCanvas` draws it for rotation 90: a 3 x 1 row, black on the
      right. As written, the top-left cell of the result is black again. */
  lemma TurnedColumnExample()
    ensures Rotation(1, 3) == 90
    ensures Corrected(Bitmap(1, 3, [Black, White, White]), Corrections(90, 0.0, 0.0, 0.0),
                      Bitmap(3, 1, [White, White, Black])).pixels == [Black, White, Black]
  {
    var img := Bitmap(1, 3, [Black, White, White]);
    var c := Corrections(90, 0.0, 0.0, 0.0);
    var drawn := Bitmap(3, 1, [White, White, Black]);
    assert BrightnessContrastPass(img, c) == img;
    var out := PutImageData(drawn, img);
    assert out.pixels[0] == Black;
    assert out.pixels == [Black, White, Black];
  }

  /** The evident intent of `applyCorrections`: correct the turned image.
      The pass and the mask work on the canvas as `rotateCanvas` left it. */
  function CorrectedIntended(img: Bitmap, c: Corrections, drawn: Bitmap): (out: Bitmap)
    requires img.Valid() && InRange(c)
    requires c.rotation != 0 ==> QuarterTurnCanvas(img, drawn)
    ensures out.Valid()
    ensures c.rotation == 0 ==> out.width == img.width && out.height == img.height
    ensures c.rotation != 0 ==> out.width == img.height && out.height == img.width
  {
    var canvas := if c.rotation == 0 then img else drawn;
    var adjusted := BrightnessContrastPass(canvas, c);
    if Abs(c.sharpness) > SharpenGate then Sharpened(adjusted, c.sharpness) else adjusted
  }

  /** With the intended order, every pixel of a turned canvas is the
      adjusted pixel the turn drew there, and without a turn nothing changes
      from the code as written. */
  lemma IntendedCorrectsTurnedImage(img: Bitmap, c: Corrections, drawn: Bitmap)
    requires img.Valid() && InRange(c)
    requires c.rotation != 0 ==> QuarterTurnCanvas(img, drawn)
    ensures c.rotation == 0 ==> CorrectedIntended(img, c, drawn) == Corrected(img, c, drawn)
    ensures c.rotation != 0 && Abs(c.sharpness) <= SharpenGate ==>
              forall i :: 0 <= i < |drawn.pixels| ==>
                CorrectedIntended(img, c, drawn).pixels[i]
                == AdjustPixel(drawn.pixels[i], c.brightness, ContrastFactor(c.contrast))
  {
  }

  datatype CorrectionResult = CorrectionResult(corrected: Bitmap, original: Bitmap, corrections: Corrections)

  /** `processImage` on the outcome of loading the file: analyse, derive the
      parameters and correct the canvas; load and canvas errors propagate.
      `drawn` is what `rotateCanvas` would draw, read only for a quarter turn. */
  method ProcessImage(loaded: Result<Bitmap, ImageError>, drawn: Bitmap) returns (r: Result<CorrectionResult, ImageError>)
    requires loaded.Ok? ==> loaded.value.Valid()
    requires loaded.Ok? && Rotation(loaded.value.width, loaded.value.height) != 0 ==>
               QuarterTurnCanvas(loaded.value, drawn)
    ensures r.Ok? <==> loaded.Ok? && loaded.value.width > 0 && loaded.value.height > 0
    ensures r.Ok? ==> r.value.original == loaded.value
    ensures r.Ok? ==> InRange(r.value.corrections)
    ensures r.Ok? ==> r.value.corrections == Derive(Statistics(loaded.value).value)
    ensures r.Ok? ==> r.value.corrected == Corrected(loaded.value, r.value.corrections, drawn)
    ensures r.Ok? && r.value.corrections.rotation == 0 ==>
              r.value.corrected.width == loaded.value.width && r.value.corrected.height == loaded.value.height
    ensures r.Ok? && r.value.corrections.rotation != 0 ==>
              r.value.corrected.width == loaded.value.height && r.value.corrected.height == loaded.value.width
  {
    if loaded.Err? {
      return Err(loaded.error);
    }
    var img := loaded.value;
    var stats := AnalyzeImage(img);
    if stats.Err? {
      return Err(stats.error);
    }
    var corrections := Derive(stats.value);
    var corrected := ApplyCorrections(img, corrections, drawn);
    r := Ok(CorrectionResult(corrected, img, corrections));
  }
}
