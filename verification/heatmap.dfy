/** The heatmap arithmetic of the three saliency generators: gradient
    weighted class activation (`GradCAMGenerator.generateHeatmap`), the
    luminance attention fallback (`SimpleGradCAMGenerator.createAttentionHeatmap`)
    and the per-class channel map with its outline (`generatePseudoGradCAM`),
    together with the shared min-max normalisation, the colormap index clamp,
    the RGBA encodings and the one-hot gradient seed.

    The inference runtime is not modelled: its outputs arrive as `Tensor`s. */
module Heatmaps {
  import opened Numeric
  import opened Bitmaps

  /** A `[1, channels, height, width]` float tensor in planar (CHW) layout:
      position `p = h * width + w` of channel `c` is `data[c * height * width + p]`. */
  datatype Tensor = Tensor(channels: nat, height: nat, width: nat, data: seq<real>) {
    function Plane(): nat {
      height * width
    }

    predicate Valid() {
      |data| == channels * Plane()
    }
  }

  function At(t: Tensor, c: nat, p: nat): real
    requires t.Valid() && c < t.channels && p < t.Plane()
  {
    CellInRange(p, c, t.Plane(), t.channels);
    t.data[c * t.Plane() + p]
  }

  // ---------------------------------------------------------------------
  // Min-max normalisation
  // ---------------------------------------------------------------------

  /** The values are not all equal, so the range is positive. */
  predicate Spread(xs: seq<real>) {
    |xs| > 0 && SeqMax(xs) > SeqMin(xs)
  }

  function Rescale(xs: seq<real>, lo: real, range: real): (r: seq<real>)
    requires range > 0.0
    ensures |r| == |xs|
    ensures forall i :: 0 <= i < |xs| ==> r[i] == (xs[i] - lo) / range
  {
    seq(|xs|, i requires 0 <= i < |xs| => (xs[i] - lo) / range)
  }

  /** One value of a positive range `[lo, hi]`, rescaled to `[0, 1]`. */
  lemma UnitRescale(x: real, lo: real, hi: real)
    requires lo <= x <= hi && lo < hi
    ensures 0.0 <= (x - lo) / (hi - lo) <= 1.0
    ensures x == lo ==> (x - lo) / (hi - lo) == 0.0
    ensures x == hi ==> (x - lo) / (hi - lo) == 1.0
  {
    QuotientBounds(x - lo, hi - lo, 0.0, 1.0);
    QuotientSign(x - lo, hi - lo);
  }

  /** Rescaling values that lie in `[lo, hi]` by `(x - lo) / (hi - lo)`. */
  lemma RescaleFacts(xs: seq<real>, lo: real, hi: real, r: seq<real>)
    requires lo < hi && forall i :: 0 <= i < |xs| ==> lo <= xs[i] <= hi
    requires r == Rescale(xs, lo, hi - lo)
    ensures forall i :: 0 <= i < |xs| ==> 0.0 <= r[i] <= 1.0
    ensures forall i :: 0 <= i < |xs| && xs[i] == lo ==> r[i] == 0.0
    ensures forall i :: 0 <= i < |xs| && xs[i] == hi ==> r[i] == 1.0
    ensures forall i, j :: 0 <= i < |xs| && 0 <= j < |xs| ==> (xs[i] <= xs[j] <==> r[i] <= r[j])
  {
    forall i | 0 <= i < |xs|
      ensures 0.0 <= r[i] <= 1.0
      ensures xs[i] == lo ==> r[i] == 0.0
      ensures xs[i] == hi ==> r[i] == 1.0
    {
      UnitRescale(xs[i], lo, hi);
    }
    forall i, j | 0 <= i < |xs| && 0 <= j < |xs|
      ensures xs[i] <= xs[j] <==> r[i] <= r[j]
    {
      DivOrder(xs[i] - lo, xs[j] - lo, hi - lo);
    }
  }

  /** The normalisation shared by the Grad-CAM and per-class maps: when the
      values spread, `(x - min) / (max - min)`; when they are all equal (or
      there are none), the input is returned unchanged. */
  function MinMaxNormalize(xs: seq<real>): (r: seq<real>)
    ensures |r| == |xs|
    ensures Spread(xs) ==> forall i :: 0 <= i < |xs| ==> 0.0 <= r[i] <= 1.0
    ensures Spread(xs) ==> forall i :: 0 <= i < |xs| && xs[i] == SeqMin(xs) ==> r[i] == 0.0
    ensures Spread(xs) ==> forall i :: 0 <= i < |xs| && xs[i] == SeqMax(xs) ==> r[i] == 1.0
    ensures Spread(xs) ==> forall i, j :: 0 <= i < |xs| && 0 <= j < |xs| ==> (xs[i] <= xs[j] <==> r[i] <= r[j])
    ensures !Spread(xs) ==> r == xs
    ensures !Spread(xs) ==> forall i :: 0 <= i < |xs| ==> xs[i] == xs[0]
  {
    if Spread(xs) then
      var lo, hi := SeqMin(xs), SeqMax(xs);
      var r := Rescale(xs, lo, hi - lo);
      RescaleFacts(xs, lo, hi, r);
      r
    else
      xs
  }

  // ---------------------------------------------------------------------
  // Gradient-weighted class activation map
  // ---------------------------------------------------------------------

  /** Sum of the first `k` positions of channel `c`. */
  function PlaneSum(t: Tensor, c: nat, k: nat): real
    requires t.Valid() && c < t.channels && k <= t.Plane()
  {
    if k == 0 then 0.0 else PlaneSum(t, c, k - 1) + At(t, c, k - 1)
  }

  /** A channel whose plane holds one value `v` throughout sums to `k * v`. */
  lemma {:induction false} ConstantPlaneSum(t: Tensor, c: nat, k: nat, v: real)
    requires t.Valid() && c < t.channels && k <= t.Plane()
    requires forall p :: 0 <= p < t.Plane() ==> At(t, c, p) == v
    ensures PlaneSum(t, c, k) == k as real * v
  {
    if k > 0 {
      ConstantPlaneSum(t, c, k - 1, v);
    }
  }

  /** The weight of channel `c`: the spatial mean of its gradient. (An empty
      plane has no positions to weight; its weight is never read.) */
  function ChannelWeight(grads: Tensor, c: nat): (w: real)
    requires grads.Valid() && c < grads.channels
    ensures grads.Plane() > 0 ==> w * grads.Plane() as real == PlaneSum(grads, c, grads.Plane())
  {
    if grads.Plane() == 0 then 0.0
    else PlaneSum(grads, c, grads.Plane()) / grads.Plane() as real
  }

  /** A gradient plane that is constant has that constant as its weight. */
  lemma ConstantGradientWeight(grads: Tensor, c: nat, v: real)
    requires grads.Valid() && c < grads.channels && grads.Plane() > 0
    requires forall p :: 0 <= p < grads.Plane() ==> At(grads, c, p) == v
    ensures ChannelWeight(grads, c) == v
  {
    ConstantPlaneSum(grads, c, grads.Plane(), v);
  }

  /** Sums of values that lie in `[lo, hi]`. */
  lemma {:induction false} PlaneSumBounds(t: Tensor, c: nat, k: nat, lo: real, hi: real)
    requires t.Valid() && c < t.channels && k <= t.Plane()
    requires forall p :: 0 <= p < t.Plane() ==> lo <= At(t, c, p) <= hi
    ensures k as real * lo <= PlaneSum(t, c, k) <= k as real * hi
  {
    if k > 0 {
      PlaneSumBounds(t, c, k - 1, lo, hi);
    }
  }

  /** A channel's weight lies between the smallest and the largest gradient
      of its plane. */
  lemma WeightBetween(grads: Tensor, c: nat, lo: real, hi: real)
    requires grads.Valid() && c < grads.channels && grads.Plane() > 0
    requires forall p :: 0 <= p < grads.Plane() ==> lo <= At(grads, c, p) <= hi
    ensures lo <= ChannelWeight(grads, c) <= hi
  {
    PlaneSumBounds(grads, c, grads.Plane(), lo, hi);
    QuotientBounds(PlaneSum(grads, c, grads.Plane()), grads.Plane() as real, lo, hi);
  }

  /** Two tensors of one shape. */
  predicate SameShape(a: Tensor, b: Tensor) {
    a.Valid() && b.Valid() && a.channels == b.channels && a.height == b.height && a.width == b.width
  }

  /** `sum over c < k of weight[c] * feature[c, p]`. */
  function WeightedSum(features: Tensor, grads: Tensor, p: nat, k: nat): real
    requires SameShape(features, grads) && p < features.Plane() && k <= features.channels
  {
    if k == 0 then 0.0
    else WeightedSum(features, grads, p, k - 1) + ChannelWeight(grads, k - 1) * At(features, k - 1, p)
  }

  /** The flat gradient buffer reaches every index `generateHeatmap` reads
      from it, `c * height * width + p` for every channel `c` and position `p`
      of the activations. */
  predicate Covers(features: Tensor, grads: seq<real>) {
    features.channels * features.Plane() <= |grads|
  }

  /** The gradient buffer read with the activations' shape. The buffer the
      generator is handed (`input_gradients`, 3 x 224 x 224) has a shape of
      its own; only its leading `channels * height * width` entries are read. */
  function GradView(features: Tensor, grads: seq<real>): (g: Tensor)
    requires features.Valid() && Covers(features, grads)
    ensures SameShape(features, g)
    ensures g.data == grads[..features.channels * features.Plane()]
  {
    Tensor(features.channels, features.height, features.width, grads[..features.channels * features.Plane()])
  }

  /** A heatmap as the generator returns it: numbers, or `size` entries that
      are all NaN. */
  datatype Heat = Finite(values: seq<real>) | NotANumber(size: nat)

  /** The rectified activation map. When the gradient buffer is too short,
      the reads past its end give `undefined`, so the last channel's sum and
      weight are NaN; NaN then enters every weighted sum, and
      `Math.max(0, NaN)` keeps it, so every position is NaN. */
  function CamMap(features: Tensor, grads: seq<real>): (cam: Heat)
    requires features.Valid()
    ensures cam.Finite? <==> Covers(features, grads)
    ensures cam.NotANumber? ==> cam.size == features.Plane() && cam.size > 0
    ensures cam.Finite? ==> |cam.values| == features.Plane()
    ensures cam.Finite? ==> forall p :: 0 <= p < |cam.values| ==> cam.values[p] >= 0.0
    ensures cam.Finite? ==> forall p :: 0 <= p < |cam.values| ==>
              cam.values[p] >= WeightedSum(features, GradView(features, grads), p, features.channels)
    ensures cam.Finite? ==> forall p :: 0 <= p < |cam.values| ==>
              (cam.values[p] == 0.0 || cam.values[p] == WeightedSum(features, GradView(features, grads), p, features.channels))
  {
    if Covers(features, grads) then
      var g := GradView(features, grads);
      Finite(seq(features.Plane(), p requires 0 <= p < features.Plane() =>
        Max(0.0, WeightedSum(features, g, p, features.channels))))
    else
      NotANumber(features.Plane())
  }

  /** `generateHeatmap`: the rectified map, min-max normalised. Every value is
      in `[0, 1]`, unless all positions carry the same value, which is then
      returned as it is (non-negative, but possibly above 1). A NaN map stays
      NaN: its range is NaN, and `NaN > 0` is false. */
  function GradCamHeatmap(features: Tensor, grads: seq<real>): (heat: Heat)
    requires features.Valid()
    ensures heat.NotANumber? <==> !Covers(features, grads)
    ensures heat.NotANumber? ==> heat.size == features.Plane()
    ensures heat.Finite? ==> |heat.values| == features.Plane()
    ensures heat.Finite? ==> forall p :: 0 <= p < |heat.values| ==> heat.values[p] >= 0.0
    ensures heat.Finite? && Spread(CamMap(features, grads).values) ==>
              forall p :: 0 <= p < |heat.values| ==> heat.values[p] <= 1.0
    ensures heat.Finite? && !Spread(CamMap(features, grads).values) ==> heat == CamMap(features, grads)
  {
    match CamMap(features, grads)
    case Finite(cam) => Finite(MinMaxNormalize(cam))
    case NotANumber(n) => NotANumber(n)
  }

  // ---------------------------------------------------------------------
  // Luminance attention fallback
  // ---------------------------------------------------------------------

  /** `(r + g + b) / 3 / 255`: pixel brightness scaled to `[0, 1]`. */
  function Intensity(p: Rgba): (v: real)
    requires ValidPixel(p)
    ensures 0.0 <= v <= 1.0
  {
    Brightness(p) / 255.0
  }

  /** The raw attention of one pixel of brightness `b`: its intensity
      squared, times the class score clamped at zero. */
  function AttentionValue(b: real, score: real): real {
    (b / 255.0) * (b / 255.0) * Max(0.0, score)
  }

  function AttentionRaw(px: seq<Rgba>, score: real): (raw: seq<real>)
    requires AllValid(px)
    ensures |raw| == |px|
    ensures forall i :: 0 <= i < |px| ==> raw[i] == AttentionValue(Brightness(px[i]), score)
  {
    seq(|px|, i requires 0 <= i < |px| => Intensity(px[i]) * Intensity(px[i]) * Max(0.0, score))
  }

  lemma AttentionValueSign(b: real, score: real)
    requires b >= 0.0
    ensures AttentionValue(b, score) >= 0.0
    ensures score <= 0.0 || b == 0.0 ==> AttentionValue(b, score) == 0.0
    ensures score > 0.0 && b > 0.0 ==> AttentionValue(b, score) > 0.0
  {
    var v := b / 255.0;
    ScaleMonotone(v, 0.0, v);
    ScaleMonotone(v * v, 0.0, Max(0.0, score));
    if score > 0.0 && b > 0.0 {
      QuotientSign(b, 255.0);
      SquareLess(0.0, v);
      ProductPositive(v * v, score);
    }
  }

  lemma AttentionValueOrder(b: real, c: real, score: real)
    requires b >= 0.0 && c >= 0.0 && score > 0.0
    ensures b <= c <==> AttentionValue(b, score) <= AttentionValue(c, score)
  {
    DivOrder(b, c, 255.0);
    QuotientBounds(b, 255.0, 0.0, b);
    QuotientBounds(c, 255.0, 0.0, c);
    SquareOrder(b / 255.0, c / 255.0, score);
  }

  /** `createAttentionHeatmap`: squared intensity times the clamped class
      score, divided by the largest value only when that is positive. */
  function AttentionHeatmap(img: Bitmap, score: real): (heat: seq<real>)
    requires img.Valid()
    ensures |heat| == |img.pixels|
    ensures forall i :: 0 <= i < |heat| ==> 0.0 <= heat[i] <= 1.0
    ensures score <= 0.0 ==> forall i :: 0 <= i < |heat| ==> heat[i] == 0.0
    ensures (forall i :: 0 <= i < |img.pixels| ==> Brightness(img.pixels[i]) == 0.0) ==>
              forall i :: 0 <= i < |heat| ==> heat[i] == 0.0
    ensures score > 0.0 ==> forall i, j :: 0 <= i < |heat| && 0 <= j < |heat| ==>
              (Brightness(img.pixels[i]) <= Brightness(img.pixels[j]) <==> heat[i] <= heat[j])
    ensures (exists i :: 0 <= i < |heat| && score > 0.0 && Brightness(img.pixels[i]) > 0.0) ==> 1.0 in heat
  {
    var raw := AttentionRaw(img.pixels, score);
    AttentionFacts(img.pixels, score);
    if |raw| > 0 && SeqMax(raw) > 0.0 then
      var mx := SeqMax(raw);
      var heat := seq(|raw|, i requires 0 <= i < |raw| => raw[i] / mx);
      AttentionScaled(raw, mx, heat);
      heat
    else
      raw
  }

  /** The raw attention values are non-negative, zero for a non-positive
      score or a black pixel, and ordered like the brightness when the score
      is positive. */
  lemma AttentionFacts(px: seq<Rgba>, score: real)
    requires AllValid(px)
    ensures var raw := AttentionRaw(px, score);
      && (forall i :: 0 <= i < |px| ==> raw[i] >= 0.0)
      && (score <= 0.0 ==> forall i :: 0 <= i < |px| ==> raw[i] == 0.0)
      && (forall i :: 0 <= i < |px| && Brightness(px[i]) == 0.0 ==> raw[i] == 0.0)
      && (forall i :: 0 <= i < |px| && Brightness(px[i]) > 0.0 && score > 0.0 ==> raw[i] > 0.0)
      && (score > 0.0 ==> forall i, j :: 0 <= i < |px| && 0 <= j < |px| ==>
            (Brightness(px[i]) <= Brightness(px[j]) <==> raw[i] <= raw[j]))
  {
    var raw := AttentionRaw(px, score);
    forall i | 0 <= i < |px|
      ensures raw[i] >= 0.0
      ensures score <= 0.0 || Brightness(px[i]) == 0.0 ==> raw[i] == 0.0
      ensures Brightness(px[i]) > 0.0 && score > 0.0 ==> raw[i] > 0.0
    {
      AttentionValueSign(Brightness(px[i]), score);
    }
    if score > 0.0 {
      forall i, j | 0 <= i < |px| && 0 <= j < |px|
        ensures Brightness(px[i]) <= Brightness(px[j]) <==> raw[i] <= raw[j]
      {
        AttentionValueOrder(Brightness(px[i]), Brightness(px[j]), score);
      }
    }
  }

  /** For non-negative `a`, `b` and positive `s`: `a <= b` iff `a*a*s <= b*b*s`. */
  lemma SquareOrder(a: real, b: real, s: real)
    requires a >= 0.0 && b >= 0.0 && s > 0.0
    ensures a <= b <==> a * a * s <= b * b * s
  {
    if a <= b {
      ScaleMonotone(a, a, b);
      ScaleMonotone(b, a, b);
      ScaleMonotone(s, a * a, b * b);
    } else {
      SquareLess(b, a);
      ProductPositive(a * a - b * b, s);
      assert a * a * s - b * b * s == (a * a - b * b) * s;
    }
  }

  /** Dividing non-negative values by their positive maximum. */
  lemma AttentionScaled(raw: seq<real>, mx: real, heat: seq<real>)
    requires mx > 0.0 && mx in raw
    requires forall i :: 0 <= i < |raw| ==> 0.0 <= raw[i] <= mx
    requires |heat| == |raw| && forall i :: 0 <= i < |raw| ==> heat[i] == raw[i] / mx
    ensures forall i :: 0 <= i < |raw| ==> 0.0 <= heat[i] <= 1.0
    ensures forall i, j :: 0 <= i < |raw| && 0 <= j < |raw| ==> (raw[i] <= raw[j] <==> heat[i] <= heat[j])
    ensures 1.0 in heat
  {
    forall i | 0 <= i < |raw|
      ensures 0.0 <= heat[i] <= 1.0
    {
      QuotientBounds(raw[i], mx, 0.0, 1.0);
    }
    forall i, j | 0 <= i < |raw| && 0 <= j < |raw|
      ensures raw[i] <= raw[j] <==> heat[i] <= heat[j]
    {
      DivOrder(raw[i], raw[j], mx);
    }
    var k :| 0 <= k < |raw| && raw[k] == mx;
    QuotientSign(mx, mx);
    assert heat[k] == 1.0;
  }

  // ---------------------------------------------------------------------
  // Per-class ("pseudo") map and its outline
  // ---------------------------------------------------------------------

  /** `sum over c < k of feature[c, p]`. */
  function ChannelSum(t: Tensor, p: nat, k: nat): real
    requires t.Valid() && p < t.Plane() && k <= t.channels
  {
    if k == 0 then 0.0 else ChannelSum(t, p, k - 1) + At(t, p := p, c := k - 1)
  }

  /** The map of `generatePseudoGradCAM` before normalisation: the plane of
      channel `classIndex` when there is one, else the per-position mean of
      all channels. */
  function PseudoMap(t: Tensor, classIndex: nat): (m: seq<real>)
    requires t.Valid() && t.channels > 0
    ensures |m| == t.Plane()
    ensures classIndex < t.channels ==> forall p :: 0 <= p < |m| ==> m[p] == At(t, classIndex, p)
    ensures classIndex >= t.channels ==>
              forall p :: 0 <= p < |m| ==> m[p] * t.channels as real == ChannelSum(t, p, t.channels)
  {
    if classIndex < t.channels then
      seq(t.Plane(), p requires 0 <= p < t.Plane() => At(t, classIndex, p))
    else
      var n := t.channels as real;
      var m := seq(t.Plane(), p requires 0 <= p < t.Plane() => ChannelSum(t, p, t.channels) / n);
      assert forall p :: 0 <= p < |m| ==> m[p] * n == ChannelSum(t, p, t.channels);
      m
  }

  /** When every channel holds the same plane, the channel mean is that plane. */
  lemma {:induction false} EqualChannelsSum(t: Tensor, p: nat, k: nat)
    requires t.Valid() && t.channels > 0 && p < t.Plane() && k <= t.channels
    requires forall c :: 0 <= c < t.channels ==> At(t, c, p) == At(t, 0, p)
    ensures ChannelSum(t, p, k) == k as real * At(t, 0, p)
  {
    if k > 0 {
      EqualChannelsSum(t, p, k - 1);
    }
  }

  lemma EqualChannelsMean(t: Tensor, classIndex: nat)
    requires t.Valid() && t.channels > 0 && classIndex >= t.channels
    requires forall c, p :: 0 <= c < t.channels && 0 <= p < t.Plane() ==> At(t, c, p) == At(t, 0, p)
    ensures PseudoMap(t, classIndex) == PseudoMap(t, 0)
  {
    var a, b := PseudoMap(t, classIndex), PseudoMap(t, 0);
    forall p | 0 <= p < t.Plane()
      ensures a[p] == b[p]
    {
      EqualChannelsAt(t, classIndex, p);
    }
  }

  /** The channel mean at one position where every channel agrees. */
  lemma EqualChannelsAt(t: Tensor, classIndex: nat, p: nat)
    requires t.Valid() && t.channels > 0 && classIndex >= t.channels && p < t.Plane()
    requires forall c :: 0 <= c < t.channels ==> At(t, c, p) == At(t, 0, p)
    ensures PseudoMap(t, classIndex)[p] == At(t, 0, p)
  {
    EqualChannelsSum(t, p, t.channels);
    var n := t.channels as real;
    var m, v := PseudoMap(t, classIndex)[p], At(t, 0, p);
    assert m * n == n * v;
    assert (m - v) * n == 0.0;
  }

  /** The per-class heatmap: `PseudoMap`, min-max normalised. */
  function PseudoHeatmap(t: Tensor, classIndex: nat): (heat: seq<real>)
    requires t.Valid() && t.channels > 0
    ensures |heat| == t.Plane()
    ensures Spread(PseudoMap(t, classIndex)) ==> forall p :: 0 <= p < |heat| ==> 0.0 <= heat[p] <= 1.0
    ensures !Spread(PseudoMap(t, classIndex)) ==> heat == PseudoMap(t, classIndex)
  {
    MinMaxNormalize(PseudoMap(t, classIndex))
  }

  const OutlineThreshold: real := 0.7
  const GlowThreshold: real := 0.85

  /** The outline rule: a value above 0.7 whose raster predecessor or
      successor (when it exists) is at or below 0.7. */
  predicate OnOutline(v: seq<real>, i: nat)
    requires i < |v|
  {
    v[i] > OutlineThreshold
    && ((i > 0 && v[i - 1] <= OutlineThreshold) || (i < |v| - 1 && v[i + 1] <= OutlineThreshold))
  }

  /** Alpha of a colormapped pixel: 255 above the glow threshold, otherwise
      `round(180 * v^1.5)`, which the model leaves uninterpreted. */
  datatype Alpha = Opaque | Faded

  /** What one heatmap pixel is painted with: the yellow outline colour
      `(255, 255, 0, 255)`, or the colormap entry `tableIndex` with an alpha. */
  datatype Paint = Highlight | Tinted(tableIndex: int, alpha: Alpha)

  function HighlightRgba(): Rgba {
    Rgba(255, 255, 0, 255)
  }

  /** The colormap entry for a value: `clamp(round(255 v), 0, 255)`. */
  function ColormapIndex(v: real): (idx: int)
    ensures 0 <= idx <= 255
    ensures 0.0 <= v <= 1.0 ==> idx == JsRound(255.0 * v)
    ensures v <= 0.0 ==> idx == 0
    ensures v >= 1.0 ==> idx == 255
  {
    var r := JsRound(v * 255.0);
    if r < 0 then 0 else if r > 255 then 255 else r
  }

  lemma ColormapIndexMonotone(u: real, v: real)
    requires u <= v
    ensures ColormapIndex(u) <= ColormapIndex(v)
  {
    JsRoundMonotone(u * 255.0, v * 255.0);
  }

  function PaintAt(v: seq<real>, i: nat): (paint: Paint)
    requires i < |v|
    ensures paint.Highlight? <==> OnOutline(v, i)
    ensures paint.Tinted? ==> paint.tableIndex == ColormapIndex(v[i]) && 0 <= paint.tableIndex <= 255
    ensures paint.Tinted? ==> (paint.alpha.Opaque? <==> v[i] > GlowThreshold)
  {
    if OnOutline(v, i) then Highlight
    else Tinted(ColormapIndex(v[i]), if v[i] > GlowThreshold then Opaque else Faded)
  }

  /** The paint of every pixel of a per-class heatmap, in raster order. */
  function PseudoPaint(v: seq<real>): (paints: seq<Paint>)
    ensures |paints| == |v|
    ensures forall i :: 0 <= i < |v| ==> (paints[i] == Highlight <==> OnOutline(v, i))
    ensures forall i :: 0 <= i < |v| && !OnOutline(v, i) ==>
              paints[i] == Tinted(ColormapIndex(v[i]), if v[i] > GlowThreshold then Opaque else Faded)
  {
    seq(|v|, i requires 0 <= i < |v| => PaintAt(v, i))
  }

  /** A run of values above the threshold, bounded on both sides by values at
      or below it, is outlined at its two ends and nowhere inside. */
  lemma RunOutline(v: seq<real>, lo: nat, hi: nat)
    requires 0 < lo <= hi < |v| - 1
    requires v[lo - 1] <= OutlineThreshold && v[hi + 1] <= OutlineThreshold
    requires forall k :: lo <= k <= hi ==> v[k] > OutlineThreshold
    ensures PseudoPaint(v)[lo] == Highlight && PseudoPaint(v)[hi] == Highlight
    ensures forall k :: lo < k < hi ==> PseudoPaint(v)[k] != Highlight
  {
    forall k | lo < k < hi
      ensures PseudoPaint(v)[k] != Highlight
    {
      assert v[k - 1] > OutlineThreshold && v[k + 1] > OutlineThreshold;
    }
  }

  // ---------------------------------------------------------------------
  // RGBA encodings and the one-hot seed
  // ---------------------------------------------------------------------

  /** Storing an integer into a clamped byte buffer saturates it at 0 and
      255, so a rounded intensity is stored as its colormap index. */
  lemma StoredIntensity(v: real)
    ensures StoreByte(JsRound(v * 255.0) as real) == ColormapIndex(v)
    ensures StoreByte((255 - JsRound(v * 255.0)) as real) == 255 - ColormapIndex(v)
  {
    var r := JsRound(v * 255.0);
    if 0 <= r <= 255 {
      StoreByteOfByte(r);
      StoreByteOfByte(255 - r);
    }
  }

  /** The Grad-CAM heatmap image: a `targetPixels` buffer (224 x 224 by
      default) of which only the first `|heat|` pixels are written, each as
      `(round(255 v), 0, 0, 255)` stored into clamped bytes; the rest stay
      transparent black. */
  function GradCamRgba(heat: seq<real>, targetPixels: nat): (out: seq<Rgba>)
    ensures |out| == targetPixels && AllValid(out)
    ensures forall i :: 0 <= i < targetPixels && i < |heat| ==>
              out[i].r == ColormapIndex(heat[i]) && out[i].g == 0 && out[i].b == 0 && out[i].a == 255
    ensures forall i :: 0 <= i < targetPixels && i < |heat| && 0.0 <= heat[i] <= 1.0 ==>
              out[i].r == JsRound(255.0 * heat[i])
    ensures forall i :: 0 <= i < targetPixels && i < |heat| && heat[i] <= 0.0 ==> out[i].r == 0
    ensures forall i :: 0 <= i < targetPixels && i < |heat| && heat[i] >= 1.0 ==> out[i].r == 255
    ensures forall i :: |heat| <= i < targetPixels ==> out[i] == Rgba(0, 0, 0, 0)
  {
    seq(targetPixels, i requires 0 <= i < targetPixels =>
      if i < |heat| then
        StoredIntensity(heat[i]);
        Rgba(StoreByte(JsRound(heat[i] * 255.0) as real), 0, 0, 255)
      else Rgba(0, 0, 0, 0))
  }

  /** The image of a Grad-CAM heatmap as `generateGradCAM` returns it. A NaN
      map rounds to NaN, which a clamped byte store turns into 0: its
      written pixels are opaque black. */
  function GradCamHeatRgba(heat: Heat, targetPixels: nat): (out: seq<Rgba>)
    ensures |out| == targetPixels && AllValid(out)
    ensures heat.Finite? ==> out == GradCamRgba(heat.values, targetPixels)
    ensures heat.NotANumber? ==> forall i :: 0 <= i < targetPixels ==>
              out[i] == if i < heat.size then Rgba(0, 0, 0, 255) else Rgba(0, 0, 0, 0)
  {
    match heat
    case Finite(values) => GradCamRgba(values, targetPixels)
    case NotANumber(n) =>
      seq(targetPixels, i requires 0 <= i < targetPixels => if i < n then Rgba(0, 0, 0, 255) else Rgba(0, 0, 0, 0))
  }

  /** The attention heatmap image: `(R, 0, 255 - R, 255)` with
      `R = round(255 v)`, both stored into clamped bytes, written over the
      first `|heat|` pixels. Red and blue always add up to 255, even where
      the store saturates. */
  function SimpleRgba(heat: seq<real>, targetPixels: nat): (out: seq<Rgba>)
    ensures |out| == targetPixels && AllValid(out)
    ensures forall i :: 0 <= i < targetPixels && i < |heat| ==>
              out[i].r == ColormapIndex(heat[i]) && out[i].r + out[i].b == 255 && out[i].g == 0 && out[i].a == 255
    ensures forall i :: 0 <= i < targetPixels && i < |heat| && 0.0 <= heat[i] <= 1.0 ==>
              out[i].r == JsRound(255.0 * heat[i])
    ensures forall i :: |heat| <= i < targetPixels ==> out[i] == Rgba(0, 0, 0, 0)
  {
    seq(targetPixels, i requires 0 <= i < targetPixels =>
      if i < |heat| then
        var intensity := JsRound(heat[i] * 255.0);
        StoredIntensity(heat[i]);
        Rgba(StoreByte(intensity as real), 0, StoreByte((255 - intensity) as real), 255)
      else Rgba(0, 0, 0, 0))
  }

  /** Both encodings keep the order of the map: a larger value is never
      drawn with less red, nor, in the attention image, with more blue. */
  lemma RgbaKeepsOrder(heat: seq<real>, targetPixels: nat, i: nat, j: nat)
    requires i < |heat| && j < |heat| && i < targetPixels && j < targetPixels && heat[i] <= heat[j]
    ensures GradCamRgba(heat, targetPixels)[i].r <= GradCamRgba(heat, targetPixels)[j].r
    ensures SimpleRgba(heat, targetPixels)[i].r <= SimpleRgba(heat, targetPixels)[j].r
    ensures SimpleRgba(heat, targetPixels)[i].b >= SimpleRgba(heat, targetPixels)[j].b
  {
    ColormapIndexMonotone(heat[i], heat[j]);
  }

  /** Number of classes of the chest X-ray model. */
  const ClassCount: nat := 14

  /** The gradient seed of `computeGradients`: 1.0 at `target` and 0.0
      elsewhere; a target outside the 14 classes writes nothing. */
  function OneHot(target: int): (g: seq<real>)
    ensures |g| == ClassCount
    ensures forall i :: 0 <= i < ClassCount ==> (g[i] == 1.0 <==> i == target)
    ensures forall i :: 0 <= i < ClassCount ==> (g[i] == 0.0 <==> i != target)
  {
    seq(ClassCount, i requires 0 <= i < ClassCount => if i == target then 1.0 else 0.0)
  }
}
