/** The image analyser of `ImageProcessor.analyzeImage` and the channel
    difference statistic of `isChestXray`.

    The contrast metric compares every pixel with the one before it in raster
    order, so the first pixel of a row is compared with the last pixel of the
    row above. The first and the last pixel of the buffer take part in no
    comparison, yet the sums are divided by the full pixel count. Both
    behaviours are kept: the thresholds downstream are calibrated to them. */
module ImageAnalysis {
  import opened Numeric
  import opened Bitmaps
  import opened Results

  datatype Stats = Stats(
    avgBrightness: real,
    avgContrast: real,
    edgeDensity: real,
    width: nat,
    height: nat)

  /** Brightness difference strictly above which a comparison is an edge. */
  const EdgeThreshold: real := 30.0

  /** Sum of the brightness of the first `k` pixels. */
  function BrightnessSum(px: seq<Rgba>, k: nat): (s: real)
    requires AllValid(px) && k <= |px|
    ensures 0.0 <= s <= 255.0 * k as real
  {
    if k == 0 then 0.0 else BrightnessSum(px, k - 1) + Brightness(px[k - 1])
  }

  /** Pixel `j` of an `n`-pixel buffer is compared with pixel `j - 1`: every
      pixel except the first and the last. */
  predicate Compared(n: nat, j: nat) {
    0 < j < n - 1
  }

  /** Absolute brightness difference between pixel `j` and its raster predecessor. */
  function StepContrast(px: seq<Rgba>, j: nat): (d: real)
    requires AllValid(px) && 1 <= j < |px|
    ensures 0.0 <= d <= 255.0
  {
    Abs(Brightness(px[j]) - Brightness(px[j - 1]))
  }

  /** Sum of the compared differences among the first `k` pixels. */
  function ContrastSum(px: seq<Rgba>, k: nat): (s: real)
    requires AllValid(px) && k <= |px|
    ensures 0.0 <= s
    ensures s <= 255.0 * (if k == 0 then 0 else k - 1) as real
    ensures k == |px| && k >= 2 ==> s <= 255.0 * (k - 2) as real
  {
    if k == 0 then 0.0
    else
      ContrastSum(px, k - 1)
      + (if Compared(|px|, k - 1) then StepContrast(px, k - 1) else 0.0)
  }

  /** Number of compared differences above the threshold among the first `k` pixels. */
  function EdgeCount(px: seq<Rgba>, k: nat): (e: nat)
    requires AllValid(px) && k <= |px|
    ensures e <= if k == 0 then 0 else k - 1
    ensures k == |px| && k >= 2 ==> e <= k - 2
    ensures EdgeThreshold * e as real <= ContrastSum(px, k)
  {
    if k == 0 then 0
    else
      EdgeCount(px, k - 1)
      + (if Compared(|px|, k - 1) && StepContrast(px, k - 1) > EdgeThreshold then 1 else 0)
  }

  /** The statistics of an image, or the canvas error for an empty one. */
  function Statistics(img: Bitmap): (r: Result<Stats, ImageError>)
    requires img.Valid()
    ensures r.Err? <==> img.width == 0 || img.height == 0
    ensures r.Ok? ==> r.value.width == img.width && r.value.height == img.height
    ensures r.Ok? ==> 0.0 <= r.value.avgBrightness <= 255.0
    ensures r.Ok? ==> 0.0 <= r.value.avgContrast < 255.0
    ensures r.Ok? ==> 0.0 <= r.value.edgeDensity < 1.0
    ensures r.Ok? ==> EdgeThreshold * r.value.edgeDensity <= r.value.avgContrast
  {
    if img.width == 0 || img.height == 0 then Err(EmptyImage)
    else
      var px := img.pixels;
      var n := |px|;
      assert n > 0 by { MulMonotone(1, img.height, img.width); }
      var tb, tc, e := BrightnessSum(px, n), ContrastSum(px, n), EdgeCount(px, n);
      QuotientBounds(tb, n as real, 0.0, 255.0);
      MeanBounds(tc, e, n);
      Ok(Stats(tb / n as real, tc / n as real, e as real / n as real, img.width, img.height))
  }

  /** The averages of the contrast and edge sums, from the bounds on the sums. */
  lemma MeanBounds(tc: real, e: nat, n: nat)
    requires n > 0 && 0.0 <= tc
    requires n == 1 ==> tc == 0.0 && e == 0
    requires n >= 2 ==> tc <= 255.0 * (n - 2) as real && e <= n - 2
    requires EdgeThreshold * e as real <= tc
    ensures 0.0 <= tc / n as real < 255.0
    ensures 0.0 <= e as real / n as real < 1.0
    ensures EdgeThreshold * (e as real / n as real) <= tc / n as real
  {
    var m := n as real;
    assert tc < 255.0 * m;
    assert tc / m * m == tc;
    assert (e as real) / m * m == e as real;
    assert e < n;
    DivMonotone(EdgeThreshold * e as real, tc, m);
    assert EdgeThreshold * (e as real / m) == (EdgeThreshold * e as real) / m;
  }

  lemma DivMonotone(a: real, b: real, m: real)
    requires a <= b && m > 0.0
    ensures a / m <= b / m
  {
    assert a / m * m == a && b / m * m == b;
  }

  /** `analyzeImage`: one pass over the buffer, as the source does it. */
  method AnalyzeImage(img: Bitmap) returns (r: Result<Stats, ImageError>)
    requires img.Valid()
    ensures r == Statistics(img)
  {
    if img.width == 0 || img.height == 0 {
      return Err(EmptyImage);
    }
    var px := img.pixels;
    var n := |px|;
    var totalBrightness, totalContrast, edgeCount := 0.0, 0.0, 0;
    var i := 0;
    while i < n
      invariant 0 <= i <= n
      invariant totalBrightness == BrightnessSum(px, i)
      invariant totalContrast == ContrastSum(px, i)
      invariant edgeCount == EdgeCount(px, i)
    {
      var brightness := Brightness(px[i]);
      totalBrightness := totalBrightness + brightness;
      if i > 0 && i < n - 1 {
        var contrast := Abs(brightness - Brightness(px[i - 1]));
        totalContrast := totalContrast + contrast;
        if contrast > EdgeThreshold {
          edgeCount := edgeCount + 1;
        }
      }
      i := i + 1;
    }
    var pixelCount := n as real;
    r := Ok(Stats(totalBrightness / pixelCount, totalContrast / pixelCount,
                  edgeCount as real / pixelCount, img.width, img.height));
  }

  /** In an image of one colour no comparison sees a difference. */
  lemma {:induction false} UniformContrast(px: seq<Rgba>, k: nat)
    requires AllValid(px) && 0 < |px| && k <= |px| && Uniform(px)
    ensures ContrastSum(px, k) == 0.0 && EdgeCount(px, k) == 0
  {
    if k > 1 {
      UniformContrast(px, k - 1);
      assert SameRgb(px[k - 1], px[0]) && SameRgb(px[k - 2], px[0]);
      assert StepContrast(px, k - 1) == 0.0;
    }
  }

  /** The brightness sum of a one-colour image is a multiple of its brightness. */
  lemma {:induction false} UniformBrightness(px: seq<Rgba>, k: nat)
    requires AllValid(px) && 0 < |px| && k <= |px| && Uniform(px)
    ensures BrightnessSum(px, k) == k as real * Brightness(px[0])
  {
    if k > 0 {
      UniformBrightness(px, k - 1);
      assert SameRgb(px[k - 1], px[0]);
      var b, r := Brightness(px[0]), (k - 1) as real;
      assert Brightness(px[k - 1]) == b;
      assert r * b + b == (r + 1.0) * b;
    }
  }

  /** A uniform image has the brightness of its colour, no contrast and no edges. */
  lemma UniformStatistics(img: Bitmap)
    requires img.Valid() && img.width > 0 && img.height > 0 && Uniform(img.pixels)
    ensures Statistics(img) == Ok(Stats(Brightness(img.pixels[0]), 0.0, 0.0, img.width, img.height))
  {
    StatisticsOfSums(img);
    UniformBrightnessMean(img.pixels);
    UniformContrast(img.pixels, |img.pixels|);
  }

  /** The brightness sum of a one-colour image, divided by its pixel count. */
  lemma UniformBrightnessMean(px: seq<Rgba>)
    requires AllValid(px) && 0 < |px| && Uniform(px)
    ensures BrightnessSum(px, |px|) / |px| as real == Brightness(px[0])
  {
    var b, m := Brightness(px[0]), |px| as real;
    UniformBrightness(px, |px|);
    assert BrightnessSum(px, |px|) == m * b;
    ProductQuotient(b, m);
  }

  /** The statistics of a non-empty image are its three sums over the pixel count. */
  lemma StatisticsOfSums(img: Bitmap)
    requires img.Valid() && img.width > 0 && img.height > 0
    ensures |img.pixels| > 0
    ensures
      var px, m := img.pixels, |img.pixels| as real;
      Statistics(img) == Ok(Stats(BrightnessSum(px, |px|) / m, ContrastSum(px, |px|) / m,
                                  EdgeCount(px, |px|) as real / m, img.width, img.height))
  {
    MulMonotone(1, img.height, img.width);
  }

  /** The raster-order comparison crosses row boundaries, and the sums are
      divided by all four pixels although only two are compared: a 2x2 image
      whose rows are black and white, with no difference inside either row,
      still reports contrast 255/4 and one edge. */
  lemma RowWrapIsCompared()
    ensures
      var black, white := Rgba(0, 0, 0, 255), Rgba(255, 255, 255, 255);
      var s := Statistics(Bitmap(2, 2, [black, black, white, white]));
      s.Ok? && s.value.avgContrast == 255.0 / 4.0 && s.value.edgeDensity == 1.0 / 4.0
  {
    var black, white := Rgba(0, 0, 0, 255), Rgba(255, 255, 255, 255);
    var px := [black, black, white, white];
    assert StepContrast(px, 1) == 0.0;
    assert StepContrast(px, 2) == 255.0;
    assert ContrastSum(px, 2) == 0.0;
    assert ContrastSum(px, 3) == 255.0;
    assert ContrastSum(px, 4) == 255.0;
    assert EdgeCount(px, 2) == 0;
    assert EdgeCount(px, 4) == 1;
  }

  /** `max(|r-g|, |r-b|, |g-b|)`: how far a pixel is from grey. */
  function ChannelSpread(p: Rgba): (d: nat)
    ensures d >= AbsInt(p.r - p.g) && d >= AbsInt(p.r - p.b) && d >= AbsInt(p.g - p.b)
    ensures d == AbsInt(p.r - p.g) || d == AbsInt(p.r - p.b) || d == AbsInt(p.g - p.b)
    ensures d == 0 <==> p.r == p.g == p.b
  {
    var rg, rb, gb := AbsInt(p.r - p.g), AbsInt(p.r - p.b), AbsInt(p.g - p.b);
    if rg >= rb && rg >= gb then rg else if rb >= gb then rb else gb
  }

  /** Sum of `ChannelSpread` over the first `k` pixels. */
  function SpreadSum(px: seq<Rgba>, k: nat): (s: nat)
    requires k <= |px|
    ensures (forall i :: 0 <= i < k ==> px[i].r == px[i].g == px[i].b) ==> s == 0
  {
    if k == 0 then 0 else SpreadSum(px, k - 1) + ChannelSpread(px[k - 1])
  }

  /** The mean channel spread of a non-empty image. */
  function AvgColorDiff(img: Bitmap): (d: real)
    requires img.Valid() && |img.pixels| > 0
    ensures d >= 0.0
  {
    SpreadSum(img.pixels, |img.pixels|) as real / |img.pixels| as real
  }
}
