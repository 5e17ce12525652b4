/** The chest X-ray plausibility check of `ImageProcessor.isChestXray`: four
    fixed thresholds over the aspect ratio and the analyser's statistics, and
    every failure (an undecodable file, a canvas error) read as "no". */
module XrayCheck {
  import opened Numeric
  import opened Bitmaps
  import opened Results
  import opened ImageAnalysis

  const MinAspect: real := 0.6
  const MaxAspect: real := 1.8
  const MinBrightness: real := 40.0
  const MaxBrightness: real := 180.0
  const MaxContrast: real := 80.0
  const MaxColorDiff: real := 30.0

  /** JavaScript `w / h < t` for a positive threshold: a zero height gives
      Infinity or NaN, and neither is below `t`. */
  predicate RatioBelow(w: nat, h: nat, t: real) {
    h > 0 && (w as real) / (h as real) < t
  }

  /** JavaScript `w / h > t`: `w / 0` is Infinity (above every `t`) when
      `w > 0`, and `0 / 0` is NaN (above nothing). */
  predicate RatioAbove(w: nat, h: nat, t: real) {
    if h == 0 then w > 0 else (w as real) / (h as real) > t
  }

  /** What a plausible radiograph is: a non-empty image whose aspect ratio,
      brightness, contrast and colourfulness all lie in the accepted bands. */
  ghost predicate Plausible(img: Bitmap)
    requires img.Valid()
  {
    && img.width > 0 && img.height > 0
    && MinAspect <= (img.width as real) / (img.height as real) <= MaxAspect
    && var s := Statistics(img).value;
    && MinBrightness <= s.avgBrightness <= MaxBrightness
    && s.avgContrast <= MaxContrast
    && AvgColorDiff(img) <= MaxColorDiff
  }

  /** `isChestXray`, on the outcome of loading the file: rejects on the first
      failing check, and on any error. */
  function IsChestXray(loaded: Result<Bitmap, ImageError>): (accepted: bool)
    requires loaded.Ok? ==> loaded.value.Valid()
    ensures accepted <==> loaded.Ok? && Plausible(loaded.value)
  {
    match loaded
    case Err(_) => false
    case Ok(img) =>
      var w, h := img.width, img.height;
      if RatioBelow(w, h, MinAspect) || RatioAbove(w, h, MaxAspect) then false
      else
        match Statistics(img)
        case Err(_) => false
        case Ok(s) =>
          if s.avgBrightness < MinBrightness || s.avgBrightness > MaxBrightness then false
          else if s.avgContrast > MaxContrast then false
          else
            assert |img.pixels| > 0 by { MulMonotone(1, h, w); }
            if AvgColorDiff(img) > MaxColorDiff then false
            else true
  }

  /** An accepted image has an aspect ratio inside `[0.6, 1.8]`. */
  lemma AcceptedAspect(img: Bitmap)
    requires img.Valid() && IsChestXray(Ok(img))
    ensures img.height > 0
    ensures MinAspect <= (img.width as real) / (img.height as real) <= MaxAspect
  {
  }

  /** A grey image of one shade between 40 and 180 in the accepted aspect
      band is a plausible radiograph, whatever its size. */
  lemma {:induction false} UniformGreyAccepted(img: Bitmap)
    requires img.Valid() && img.width > 0 && img.height > 0 && Uniform(img.pixels)
    requires MinAspect <= (img.width as real) / (img.height as real) <= MaxAspect
    requires
      var p := img.pixels[0];
      p.r == p.g == p.b && 40 <= p.r <= 180
    ensures IsChestXray(Ok(img))
  {
    var px, n := img.pixels, |img.pixels|;
    assert n > 0 by { MulMonotone(1, img.height, img.width); }
    UniformStatistics(img);
    GreySpread(px, n);
  }

  lemma {:induction false} GreySpread(px: seq<Rgba>, k: nat)
    requires 0 < |px| && k <= |px| && Uniform(px) && px[0].r == px[0].g == px[0].b
    ensures SpreadSum(px, k) == 0
  {
    forall i | 0 <= i < k
      ensures px[i].r == px[i].g == px[i].b
    {
      assert SameRgb(px[i], px[0]);
    }
  }
}
