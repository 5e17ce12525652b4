/** The input tensor of the chest X-ray model (`GradCAMGenerator.preprocessImage`):
    the red, green and blue bytes of every pixel scaled to `[0, 1]` and
    standardised with the ImageNet channel statistics, laid out as three
    consecutive planes (CHW). Alpha is ignored. */
module Preprocessing {
  import opened Numeric
  import opened Bitmaps
  import opened Heatmaps

  /** The ImageNet mean of channel `c` (red, green, blue). */
  function ChannelMean(c: nat): real
    requires c < 3
  {
    if c == 0 then 0.485 else if c == 1 then 0.456 else 0.406
  }

  /** The ImageNet standard deviation of channel `c` (red, green, blue). */
  function ChannelStd(c: nat): (s: real)
    requires c < 3
    ensures s > 0.0
  {
    if c == 0 then 0.229 else if c == 1 then 0.224 else 0.225
  }

  /** Channel `c` of a pixel as a standard score: `(v / 255 - mean) / std`. */
  function Normalized(p: Rgba, c: nat): real
    requires c < 3
  {
    (Channel(p, c) as real / 255.0 - ChannelMean(c)) / ChannelStd(c)
  }

  /** The inverse map, from a standard score back to a channel byte. */
  function Denormalized(z: real, c: nat): real
    requires c < 3
  {
    255.0 * (z * ChannelStd(c) + ChannelMean(c))
  }

  /** Standardisation loses nothing: every channel byte is recovered. */
  lemma NormalizedRoundTrip(p: Rgba, c: nat)
    requires c < 3
    ensures Denormalized(Normalized(p, c), c) == Channel(p, c) as real
  {
    var s := ChannelStd(c);
    var d := Channel(p, c) as real / 255.0 - ChannelMean(c);
    assert d / s * s == d;
  }

  /** Standardisation keeps the order of the channel values, both ways. */
  lemma NormalizedOrder(p: Rgba, q: Rgba, c: nat)
    requires c < 3
    ensures Channel(p, c) <= Channel(q, c) <==> Normalized(p, c) <= Normalized(q, c)
  {
    var m, s := ChannelMean(c), ChannelStd(c);
    var u, v := Channel(p, c) as real, Channel(q, c) as real;
    DivOrder(u, v, 255.0);
    DivOrder(u / 255.0 - m, v / 255.0 - m, s);
  }

  /** Element `k` of the input buffer of an image with pixels `px`: channel
      `k / n` of pixel `k % n`, where `n` is the pixel count. */
  function Element(px: seq<Rgba>, k: int): real
    requires 0 <= k < 3 * |px|
  {
    PlaneIndex(k, |px|);
    Normalized(px[k % |px|], k / |px|)
  }

  /** The model input for a `width` x `height` image: element `c * n + i` of
      the data (with `n` the pixel count) is channel `c` of pixel `i`. */
  function Preprocess(img: Bitmap): (t: Tensor)
    requires img.Valid()
    ensures t.Valid() && t.channels == 3
    ensures t.height == img.height && t.width == img.width
    ensures forall c, p :: 0 <= c < 3 && 0 <= p < t.Plane() ==> At(t, c, p) == Normalized(img.pixels[p], c)
  {
    var n := |img.pixels|;
    var data := seq(3 * n, k requires 0 <= k < 3 * n => Element(img.pixels, k));
    var t := Tensor(3, img.height, img.width, data);
    PlaneLayout(img, t);
    t
  }

  lemma PlaneLayout(img: Bitmap, t: Tensor)
    requires img.Valid() && t.channels == 3 && t.height == img.height && t.width == img.width
    requires |t.data| == 3 * |img.pixels|
    requires forall k :: 0 <= k < |t.data| ==> t.data[k] == Element(img.pixels, k)
    ensures t.Valid()
    ensures forall c, p :: 0 <= c < 3 && 0 <= p < t.Plane() ==> At(t, c, p) == Normalized(img.pixels[p], c)
  {
    var n := |img.pixels|;
    assert t.Plane() == n;
    forall c, p | 0 <= c < 3 && 0 <= p < n
      ensures At(t, c, p) == Normalized(img.pixels[p], c)
    {
      RasterCoords(p, c, n);
      CellInRange(p, c, n, 3);
    }
  }

  /** Element `k` of the buffer has been written once the pixel loop has
      passed pixel `k % n`, or is at that pixel and past channel `k / n`. */
  predicate Written(k: int, n: nat, i: int, c: int)
    requires n > 0
  {
    k % n < i || (k % n == i && k / n < c)
  }

  /** Writing channel `c` of pixel `i` extends the written part by exactly
      the element `c * n + i`. */
  lemma WrittenStep(k: int, n: nat, i: int, c: int)
    requires n > 0 && 0 <= k && 0 <= i < n && 0 <= c
    ensures Written(k, n, i, c + 1) <==> Written(k, n, i, c) || k == c * n + i
  {
    RasterCoords(i, c, n);
    if k % n == i && k / n == c {
      assert k == k / n * n + k % n;
    }
  }

  /** Element `k` of a `3 n` buffer lies in plane `k / n`, below 3. */
  lemma PlaneIndex(k: int, n: nat)
    requires 0 <= k < 3 * n
    ensures n > 0 && k / n < 3 && k % n < n
  {

  }

  /** Channel `c` of pixel `i` is element `c * n + i`. */
  lemma ElementAt(px: seq<Rgba>, c: nat, i: nat)
    requires c < 3 && i < |px|
    ensures 0 <= c * |px| + i < 3 * |px|
    ensures Element(px, c * |px| + i) == Normalized(px[i], c)
  {
    CellInRange(i, c, |px|, 3);
    RasterCoords(i, c, |px|);
  }

  /** Every element written so far holds its final value. */
  predicate Filled(data: seq<real>, px: seq<Rgba>, i: int, c: int)
    requires |data| == 3 * |px|
  {
    forall k :: 0 <= k < |data| && Written(k, |px|, i, c) ==> data[k] == Element(px, k)
  }

  /** Writing channel `c` of pixel `i` keeps the buffer filled one element further. */
  lemma FillChannel(data: seq<real>, px: seq<Rgba>, i: nat, c: nat)
    requires |data| == 3 * |px| && i < |px| && c < 3
    requires Filled(data, px, i, c)
    ensures 0 <= c * |px| + i < |data|
    ensures Filled(data[c * |px| + i := Normalized(px[i], c)], px, i, c + 1)
  {
    var n := |px|;
    ElementAt(px, c, i);
    var next := data[c * n + i := Normalized(px[i], c)];
    forall k | 0 <= k < |next| && Written(k, n, i, c + 1)
      ensures next[k] == Element(px, k)
    {
      WrittenStep(k, n, i, c);
    }
  }

  /** Once all three channels of pixel `i` are written, pixel `i` is done. */
  lemma FillPixel(data: seq<real>, px: seq<Rgba>, i: nat)
    requires |data| == 3 * |px| && i < |px|
    requires Filled(data, px, i, 3)
    ensures Filled(data, px, i + 1, 0)
  {
    var n := |px|;
    forall k | 0 <= k < |data| && Written(k, n, i + 1, 0)
      ensures data[k] == Element(px, k)
    {
      PlaneIndex(k, n);
    }
  }

  /** After the last pixel every element is written. */
  lemma FillDone(data: seq<real>, px: seq<Rgba>)
    requires |data| == 3 * |px| && Filled(data, px, |px|, 0)
    ensures forall k :: 0 <= k < |data| ==> data[k] == Element(px, k)
  {
    forall k | 0 <= k < |data|
      ensures data[k] == Element(px, k)
    {
      PlaneIndex(k, |px|);
    }
  }

  /** `preprocessImage`: the nested pixel/channel loop filling a buffer of
      `3 n` floats. */
  method PreprocessImage(img: Bitmap) returns (t: Tensor)
    requires img.Valid()
    ensures t.Valid() && t.channels == 3
    ensures t.height == img.height && t.width == img.width
    ensures forall c, p :: 0 <= c < 3 && 0 <= p < t.Plane() ==> At(t, c, p) == Normalized(img.pixels[p], c)
  {
    var px := img.pixels;
    var n := |px|;
    var data := seq(3 * n, _ => 0.0);
    var i := 0;
    while i < n
      invariant 0 <= i <= n && |data| == 3 * n
      invariant Filled(data, px, i, 0)
    {
      var c := 0;
      while c < 3
        invariant 0 <= c <= 3 && |data| == 3 * n
        invariant Filled(data, px, i, c)
      {
        FillChannel(data, px, i, c);
        data := data[c * n + i := Normalized(px[i], c)];
        c := c + 1;
      }
      FillPixel(data, px, i);
      i := i + 1;
    }
    FillDone(data, px);
    t := Tensor(3, img.height, img.width, data);
    PlaneLayout(img, t);
  }

  /** Equal colours standardise equally, whatever their alpha. */
  lemma NormalizedIgnoresAlpha(p: Rgba, q: Rgba, c: nat)
    requires c < 3 && SameRgb(p, q)
    ensures Normalized(p, c) == Normalized(q, c)
  {
  }

  /** Alpha does not reach the model: two images that differ only in alpha
      give the same tensor. */
  lemma AlphaIgnored(img: Bitmap, other: Bitmap)
    requires img.Valid() && other.Valid()
    requires img.width == other.width && img.height == other.height
    requires forall i :: 0 <= i < |img.pixels| ==> SameRgb(img.pixels[i], other.pixels[i])
    ensures Preprocess(img) == Preprocess(other)
  {
    var a, b := Preprocess(img), Preprocess(other);
    var n := |img.pixels|;
    assert |other.pixels| == n;
    forall k | 0 <= k < |a.data|
      ensures a.data[k] == b.data[k]
    {
      PlaneIndex(k, n);
      assert a.data[k] == Element(img.pixels, k) && b.data[k] == Element(other.pixels, k);
      NormalizedIgnoresAlpha(img.pixels[k % n], other.pixels[k % n], k / n);
    }
  }
}
