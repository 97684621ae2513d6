/**
 * The mask algebra of `models/defect_detector.py`: percentile binarisation inside the
 * region of interest, min-max normalisation, the morphology guard, the Simple and Full
 * pipelines of `detect_defects`, the contour filter and the shape of the returned tuple.
 * OpenCV's image operators are the fields of a `Vision` record (foreign functions).
 */
module DefectDetector {
  import opened Wrappers
  import opened Masks
  import Sorting
  import Text
  import Clamps

  // ---------------------------------------------------------------------------
  // np.percentile (linear interpolation)
  // ---------------------------------------------------------------------------

  ghost predicate Ascending(v: seq<real>) {
    forall i, j :: 0 <= i < j < |v| ==> v[i] <= v[j]
  }

  /** Position `pct/100 * (n-1)` in a sorted sample and its integer part. */
  function Rank(n: nat, pct: real): (pos: real)
    requires n > 0 && 0.0 <= pct <= 100.0
    ensures 0.0 <= pos <= (n - 1) as real
  {
    pct / 100.0 * ((n - 1) as real)
  }

  function Lower(n: nat, pct: real): (lo: nat)
    requires n > 0 && 0.0 <= pct <= 100.0
    ensures lo < n
    ensures lo as real <= Rank(n, pct) < lo as real + 1.0
  {
    Rank(n, pct).Floor
  }

  /** `a + (b - a) * t`. */
  function Lerp(a: real, b: real, t: real): real {
    a + (b - a) * t
  }

  lemma MulNonneg(x: real, y: real)
    requires x >= 0.0 && y >= 0.0
    ensures x * y >= 0.0
  {
  }

  lemma MulLe(x: real, y: real, z: real)
    requires x >= 0.0 && y <= z
    ensures x * y <= x * z
  {
    MulNonneg(x, z - y);
    assert x * (z - y) == x * z - x * y;
  }

  lemma LerpBetween(a: real, b: real, t: real)
    requires a <= b && 0.0 <= t <= 1.0
    ensures a <= Lerp(a, b, t) <= b
  {
    MulLe(b - a, t, 1.0);
    MulLe(b - a, 0.0, t);
  }

  lemma LerpMonotone(a: real, b: real, t1: real, t2: real)
    requires a <= b && t1 <= t2
    ensures Lerp(a, b, t1) <= Lerp(a, b, t2)
  {
    MulLe(b - a, t1, t2);
  }

  lemma RankMonotone(n: nat, p1: real, p2: real)
    requires n > 0 && 0.0 <= p1 <= p2 <= 100.0
    ensures Rank(n, p1) <= Rank(n, p2)
  {
    var c := (n - 1) as real;
    var r1, r2 := p1 / 100.0, p2 / 100.0;
    MulLe(c, r1, r2);
    assert Rank(n, p1) == r1 * c;
    assert Rank(n, p2) == r2 * c;
    assert r1 * c == c * r1 && r2 * c == c * r2;
  }

  /** The index just above `Lower`, capped at the last sample (`min(lo + 1, n - 1)`). */
  function Upper(n: nat, pct: real): (hi: nat)
    requires n > 0 && 0.0 <= pct <= 100.0
    ensures Lower(n, pct) <= hi < n
  {
    var lo := Lower(n, pct);
    if lo + 1 < n then lo + 1 else n - 1
  }

  /** numpy's "linear" method: interpolates between the two neighbouring order statistics. */
  function Interp(v: seq<real>, pct: real): (r: real)
    requires |v| > 0 && 0.0 <= pct <= 100.0
  {
    var lo := Lower(|v|, pct);
    Lerp(v[lo], v[Upper(|v|, pct)], Rank(|v|, pct) - lo as real)
  }

  lemma InterpBetween(v: seq<real>, pct: real)
    requires |v| > 0 && 0.0 <= pct <= 100.0 && Ascending(v)
    ensures v[Lower(|v|, pct)] <= Interp(v, pct) <= v[Upper(|v|, pct)]
  {
    var lo := Lower(|v|, pct);
    LerpBetween(v[lo], v[Upper(|v|, pct)], Rank(|v|, pct) - lo as real);
  }

  lemma InterpBounds(v: seq<real>, pct: real)
    requires |v| > 0 && 0.0 <= pct <= 100.0 && Ascending(v)
    ensures v[0] <= Interp(v, pct) <= v[|v| - 1]
  {
    InterpBetween(v, pct);
  }

  /** A larger percentile never gives a smaller value. */
  lemma {:induction false} InterpMonotone(v: seq<real>, p1: real, p2: real)
    requires |v| > 0 && 0.0 <= p1 <= p2 <= 100.0 && Ascending(v)
    ensures Interp(v, p1) <= Interp(v, p2)
  {
    var n := |v|;
    RankMonotone(n, p1, p2);
    var lo1, lo2 := Lower(n, p1), Lower(n, p2);
    if lo1 == lo2 {
      LerpMonotone(v[lo1], v[Upper(n, p1)], Rank(n, p1) - lo1 as real, Rank(n, p2) - lo2 as real);
    } else {
      InterpBetween(v, p1);
      InterpBetween(v, p2);
      assert Upper(n, p1) <= lo2;
    }
  }

  /** `np.percentile(vals, pct)`; `None` stands for the ValueError numpy raises when
      `pct` is outside [0, 100]. */
  function Percentile(vals: seq<real>, pct: real): (r: Option<real>)
    requires |vals| > 0
    ensures r.Some? <==> 0.0 <= pct <= 100.0
  {
    if pct < 0.0 || pct > 100.0 then None
    else Some(Interp(Sorting.SortBy(vals, Sorting.RealLe), pct))
  }

  lemma SortedAscending(vals: seq<real>)
    ensures Ascending(Sorting.SortBy(vals, Sorting.RealLe))
  {
    Sorting.RealLeTotalPreorder();
    Sorting.SortBySorted(vals, Sorting.RealLe);
  }

  /** The percentile lies between the smallest and the largest sample. */
  lemma PercentileBounds(vals: seq<real>, pct: real)
    requires |vals| > 0 && 0.0 <= pct <= 100.0
    ensures exists x :: x in vals && x <= Percentile(vals, pct).value
    ensures exists y :: y in vals && Percentile(vals, pct).value <= y
  {
    var s := Sorting.SortBy(vals, Sorting.RealLe);
    SortedAscending(vals);
    InterpBounds(s, pct);
    assert s[0] in multiset(s) && s[|s| - 1] in multiset(s);
    assert s[0] in vals && s[|s| - 1] in vals;
  }

  /** Percentile 0 is the minimum: no sample is below it. */
  lemma PercentileZeroIsMinimum(vals: seq<real>)
    requires |vals| > 0
    ensures forall x :: x in vals ==> Percentile(vals, 0.0).value <= x
  {
    var s := Sorting.SortBy(vals, Sorting.RealLe);
    SortedAscending(vals);
    assert Interp(s, 0.0) == s[0];
    forall x | x in vals ensures s[0] <= x {
      assert x in multiset(s);
      var k :| 0 <= k < |s| && s[k] == x;
    }
  }

  lemma PercentileMonotone(vals: seq<real>, p1: real, p2: real)
    requires |vals| > 0 && 0.0 <= p1 <= p2 <= 100.0
    ensures Percentile(vals, p1).value <= Percentile(vals, p2).value
  {
    SortedAscending(vals);
    InterpMonotone(Sorting.SortBy(vals, Sorting.RealLe), p1, p2);
  }

  // ---------------------------------------------------------------------------
  // _percentile_bin, _norm01, _apply_morphological_ops
  // ---------------------------------------------------------------------------

  /** `(scores >= thr) & roi`. */
  function ThresholdInRoi(d: Dims, s: Scores, roi: Mask, thr: real): (r: Mask)
    ensures forall i, j :: At(r, i, j) <==> InRange(d, i, j) && At(roi, i, j) && Val(s, i, j) >= thr
  {
    And(d, AtLeast(d, s, thr), roi)
  }

  /** `_percentile_bin`: the pixels of the region whose score reaches the `pct`-th
      percentile of the scores inside the region. `None` is numpy's ValueError. */
  function PercentileBin(d: Dims, s: Scores, roi: Mask, pct: real): (r: Option<Mask>)
    ensures r.None? <==> !IsEmpty(d, roi) && !(0.0 <= pct <= 100.0)
    ensures r.Some? ==> Subset(d, r.value, roi)
    ensures IsEmpty(d, roi) ==> r.Some? && IsEmpty(d, r.value)
  {
    var vals := RoiValues(d, s, roi);
    if vals == [] then Some(Zeros(d))
    else
      match Percentile(vals, pct)
      case None => None
      case Some(thr) => Some(ThresholdInRoi(d, s, roi, thr))
  }

  /** Raising the percentile never adds a foreground pixel. */
  lemma PercentileBinMonotone(d: Dims, s: Scores, roi: Mask, p1: real, p2: real)
    requires 0.0 <= p1 <= p2 <= 100.0
    ensures Subset(d, PercentileBin(d, s, roi, p2).value, PercentileBin(d, s, roi, p1).value)
  {
    var vals := RoiValues(d, s, roi);
    if vals != [] {
      PercentileMonotone(vals, p1, p2);
    }
  }

  /** At percentile 0 the whole region of interest is foreground. */
  lemma PercentileBinZeroIsRoi(d: Dims, s: Scores, roi: Mask)
    ensures SameMask(d, PercentileBin(d, s, roi, 0.0).value, roi)
  {
    var vals := RoiValues(d, s, roi);
    if vals != [] {
      PercentileZeroIsMinimum(vals);
    }
  }

  function SeqMin(s: seq<real>): (m: real)
    requires |s| > 0
    ensures m in s && forall v :: v in s ==> m <= v
  {
    if |s| == 1 then s[0]
    else
      var m := SeqMin(s[1..]);
      assert forall v :: v in s ==> v == s[0] || v in s[1..];
      if s[0] <= m then s[0] else m
  }

  function SeqMax(s: seq<real>): (m: real)
    requires |s| > 0
    ensures m in s && forall v :: v in s ==> v <= m
  {
    if |s| == 1 then s[0]
    else
      var m := SeqMax(s[1..]);
      assert forall v :: v in s ==> v == s[0] || v in s[1..];
      if s[0] >= m then s[0] else m
  }

  /** Every pixel of a map (the region "everything"). */
  function AllPixels(d: Dims): (r: Mask)
    ensures forall i, j :: At(r, i, j) <==> InRange(d, i, j)
  {
    MaskOf(d, (i, j) => true)
  }

  /** All pixel values of a map, row-major. */
  function AllValues(d: Dims, x: Scores): (r: seq<real>)
    ensures forall i, j :: InRange(d, i, j) ==> Val(x, i, j) in r
    ensures r == [] <==> d.h == 0 || d.w == 0
  {
    var full := AllPixels(d);
    assert d.h > 0 && d.w > 0 ==> At(full, 0, 0);
    RoiValues(d, x, full)
  }

  lemma AllValuesAreCells(d: Dims, x: Scores)
    ensures forall v :: v in AllValues(d, x) ==> exists i, j :: InRange(d, i, j) && v == Val(x, i, j)
  {
    ValuesAreCells(x, AllPixels(d), d.h, d.w);
  }

  /** `(x - mn) / (mx - mn)` at pixel (i, j). */
  function Scaled(x: Scores, mn: real, mx: real, i: int, j: int): real
    requires mn < mx
  {
    (Val(x, i, j) - mn) / (mx - mn)
  }

  /** `_norm01`: rescales the map to [0, 1] by its minimum and maximum; a constant map
      becomes all zeros. numpy's `min()` raises on an empty image, hence the requires. */
  function Norm01(d: Dims, x: Scores): (r: Scores)
    requires d.h > 0 && d.w > 0
    ensures |r| == d.h
  {
    var vals := AllValues(d, x);
    var mn, mx := SeqMin(vals), SeqMax(vals);
    if mx <= mn then ScoresOf(d, (i, j) => 0.0)
    else ScoresOf(d, (i, j) requires mn < mx => Scaled(x, mn, mx, i, j))
  }

  /** Every normalised value lies in [0, 1], and a constant map becomes all zeros. */
  lemma Norm01Range(d: Dims, x: Scores)
    requires d.h > 0 && d.w > 0
    ensures forall i, j :: InRange(d, i, j) ==> 0.0 <= Val(Norm01(d, x), i, j) <= 1.0
    ensures (forall i, j :: InRange(d, i, j) ==> Val(x, i, j) == Val(x, 0, 0))
              ==> forall i, j :: InRange(d, i, j) ==> Val(Norm01(d, x), i, j) == 0.0
  {
    var vals := AllValues(d, x);
    var mn, mx := SeqMin(vals), SeqMax(vals);
    if mn < mx {
      NormBounds(d, x, vals, mn, mx);
    }
  }

  lemma UnitRatio(v: real, mn: real, mx: real)
    requires mn <= v <= mx && mn < mx
    ensures 0.0 <= (v - mn) / (mx - mn) <= 1.0
  {
    DivMonotone(0.0, v - mn, mx - mn);
    DivMonotone(v - mn, mx - mn, mx - mn);
    assert 0.0 / (mx - mn) == 0.0 && (mx - mn) / (mx - mn) == 1.0;
  }

  lemma NormBounds(d: Dims, x: Scores, vals: seq<real>, mn: real, mx: real)
    requires vals == AllValues(d, x) && |vals| > 0
    requires mn == SeqMin(vals) && mx == SeqMax(vals) && mn < mx
    ensures forall i, j :: InRange(d, i, j) ==> 0.0 <= Scaled(x, mn, mx, i, j) <= 1.0
    ensures !(forall i, j :: InRange(d, i, j) ==> Val(x, i, j) == Val(x, 0, 0))
  {
    forall i, j | InRange(d, i, j) ensures 0.0 <= Scaled(x, mn, mx, i, j) <= 1.0 {
      assert Val(x, i, j) in vals;
      ScaledInUnit(x, mn, mx, i, j);
    }
    NotConstant(d, x, mn, mx);
  }

  lemma ScaledInUnit(x: Scores, mn: real, mx: real, i: int, j: int)
    requires mn <= Val(x, i, j) <= mx && mn < mx
    ensures 0.0 <= Scaled(x, mn, mx, i, j) <= 1.0
  {
    UnitRatio(Val(x, i, j), mn, mx);
  }

  lemma NotConstant(d: Dims, x: Scores, mn: real, mx: real)
    requires mn in AllValues(d, x) && mx in AllValues(d, x) && mn != mx
    ensures !(forall i, j :: InRange(d, i, j) ==> Val(x, i, j) == Val(x, 0, 0))
  {
    AllValuesAreCells(d, x);
    var a, b :| InRange(d, a, b) && mn == Val(x, a, b);
    var c, e :| InRange(d, c, e) && mx == Val(x, c, e);
  }

  /** Every value in RowsValues comes from a pixel of the region. */
  lemma {:induction false} ValuesAreCells(x: Scores, roi: Mask, h: nat, w: nat)
    ensures forall v :: v in RowsValues(x, roi, h, w) ==>
              exists i, j :: 0 <= i < h && 0 <= j < w && At(roi, i, j) && v == Val(x, i, j)
  {
    if h > 0 {
      var top, last := RowsValues(x, roi, h - 1, w), RowValues(x, roi, h - 1, w);
      ValuesAreCells(x, roi, h - 1, w);
      RowValuesAreCells(x, roi, h - 1, w);
      assert RowsValues(x, roi, h, w) == top + last;
      forall v | v in top + last
        ensures exists i, j :: 0 <= i < h && 0 <= j < w && At(roi, i, j) && v == Val(x, i, j)
      {
        if v in top {
          var i, j :| 0 <= i < h - 1 && 0 <= j < w && At(roi, i, j) && v == Val(x, i, j);
        } else {
          var j :| 0 <= j < w && At(roi, h - 1, j) && v == Val(x, h - 1, j);
        }
      }
    }
  }

  lemma {:induction false} RowValuesAreCells(x: Scores, roi: Mask, i: nat, w: nat)
    ensures forall v :: v in RowValues(x, roi, i, w) ==>
              exists j :: 0 <= j < w && At(roi, i, j) && v == Val(x, i, j)
  {
    if w > 0 {
      RowValuesAreCells(x, roi, i, w - 1);
    }
  }

  /** The value `_norm01` gives pixel (i, j): scaled by the extremes, or 0 for a constant map. */
  lemma Norm01At(d: Dims, x: Scores, i: int, j: int)
    requires d.h > 0 && d.w > 0 && InRange(d, i, j)
    ensures var vals := AllValues(d, x);
            var mn, mx := SeqMin(vals), SeqMax(vals);
            Val(Norm01(d, x), i, j) == if mn < mx then Scaled(x, mn, mx, i, j) else 0.0
  {
  }

  /** When the map is not constant, its darkest pixel becomes 0 and its brightest 1. */
  lemma Norm01Extremes(d: Dims, x: Scores, i: int, j: int)
    requires d.h > 0 && d.w > 0 && InRange(d, i, j)
    requires SeqMin(AllValues(d, x)) < SeqMax(AllValues(d, x))
    ensures Val(x, i, j) == SeqMin(AllValues(d, x)) ==> Val(Norm01(d, x), i, j) == 0.0
    ensures Val(x, i, j) == SeqMax(AllValues(d, x)) ==> Val(Norm01(d, x), i, j) == 1.0
  {
    var vals := AllValues(d, x);
    var mn, mx := SeqMin(vals), SeqMax(vals);
    Norm01At(d, x, i, j);
    ScaledEnds(x, mn, mx, i, j);
  }

  lemma ScaledEnds(x: Scores, mn: real, mx: real, i: int, j: int)
    requires mn < mx
    ensures Val(x, i, j) == mn ==> Scaled(x, mn, mx, i, j) == 0.0
    ensures Val(x, i, j) == mx ==> Scaled(x, mn, mx, i, j) == 1.0
  {
    assert 0.0 / (mx - mn) == 0.0 && (mx - mn) / (mx - mn) == 1.0;
  }

  /** `_norm01` keeps the order of the pixels. */
  lemma Norm01Monotone(d: Dims, x: Scores, i1: int, j1: int, i2: int, j2: int)
    requires d.h > 0 && d.w > 0 && InRange(d, i1, j1) && InRange(d, i2, j2)
    requires Val(x, i1, j1) <= Val(x, i2, j2)
    ensures Val(Norm01(d, x), i1, j1) <= Val(Norm01(d, x), i2, j2)
  {
    var vals := AllValues(d, x);
    var mn, mx := SeqMin(vals), SeqMax(vals);
    Norm01At(d, x, i1, j1);
    Norm01At(d, x, i2, j2);
    if mn < mx {
      ScaledMonotone(x, mn, mx, i1, j1, i2, j2);
    }
  }

  lemma ScaledMonotone(x: Scores, mn: real, mx: real, i1: int, j1: int, i2: int, j2: int)
    requires mn < mx && Val(x, i1, j1) <= Val(x, i2, j2)
    ensures Scaled(x, mn, mx, i1, j1) <= Scaled(x, mn, mx, i2, j2)
  {
    DivMonotone(Val(x, i1, j1) - mn, Val(x, i2, j2) - mn, mx - mn);
  }

  lemma DivMonotone(a: real, b: real, c: real)
    requires a <= b && c > 0.0
    ensures a / c <= b / c
  {
  }

  /** The odd kernel side `_apply_morphological_ops` uses for a kernel `k` > 1. */
  function EffectiveKernel(k: int): (e: nat)
    requires k > 1
    ensures e % 2 == 1 && (e == k || e == k + 1)
  {
    if k % 2 == 1 then k else k + 1
  }

  /** `_apply_morphological_ops`: an opening then a closing with a square kernel, skipped
      when the kernel is at most 1 or there are no iterations. */
  function ApplyMorphologicalOps(m: Option<Mask>, k: int, it: int,
                                 openClose: (Mask, nat, nat) -> Mask): (r: Option<Mask>)
    ensures m.None? ==> r.None?
    ensures m.Some? && (k <= 1 || it <= 0) ==> r == m
    ensures m.Some? && k > 1 && it > 0 ==> r == Some(openClose(m.value, EffectiveKernel(k), it))
  {
    match m
    case None => None
    case Some(mask) =>
      if k <= 1 || it <= 0 then m
      else Some(openClose(mask, EffectiveKernel(k), it))
  }

  // ---------------------------------------------------------------------------
  // detect_defects
  // ---------------------------------------------------------------------------

  /** The module-level `mode` switch, made a parameter. */
  datatype Mode = Simple | Full

  datatype Box = Box(x: int, y: int, w: int, h: int)

  /** What the application reads from an OpenCV contour: `contourArea`, `arcLength`,
      `boundingRect` and `minEnclosingCircle`. */
  datatype Contour = Contour(area: real, perimeter: real, box: Box, cx: real, cy: real, radius: real)

  /** `_ms_ssim_map` settings: kernel sizes and sigmas of the three scales. */
  datatype MsSsimConfig = MsSsimConfig(kernels: seq<int>, sigmas: seq<real>)

  /** OpenCV operators and float numerics, as foreign functions. */
  datatype Vision = Vision(
    erode: (Mask, nat) -> Mask,                   // cv2.erode, square kernel, 1 iteration
    dilate: (Mask, nat) -> Mask,                  // cv2.dilate, square kernel, 1 iteration
    canny: Gray -> Mask,                          // cv2.Canny(img, 60, 180)
    morphGradient: Gray -> Gray,                  // MORPH_GRADIENT, 5x5
    blackHat: (Gray, nat) -> Gray,                // MORPH_BLACKHAT, square kernel
    topHat: (Gray, nat) -> Gray,                  // MORPH_TOPHAT, square kernel
    openClose: (Mask, nat, nat) -> Mask,          // MORPH_OPEN then MORPH_CLOSE (kernel, iterations)
    msSsim: (Gray, Gray, MsSsimConfig) -> Scores, // _ms_ssim_map: 1 - MS-SSIM in [0, 1]
    dogBand: Scores -> Scores,                    // |G(sigma 1) - G(sigma 2)| of a map
    hypot: (real, real) -> real,                  // sqrt(a*a + b*b)
    findContours: Mask -> seq<Contour>)           // RETR_EXTERNAL, CHAIN_APPROX_SIMPLE

  /** The images `detect_defects` works on, after the foreign colour conversions and blurs:
      the ROI mask, the blurred greys, the a/b channels of LAB and the V channel of HSV. */
  datatype Frames = Frames(
    dims: Dims, mask: Mask,
    tBlur: Gray, aBlur: Gray,
    tplA: Gray, tplB: Gray, alnA: Gray, alnB: Gray, alnV: Gray)

  datatype DetectParams = DetectParams(
    darkThreshold: int, brightThreshold: int,
    darkMorphKernel: int, darkMorphIterations: int,
    brightMorphKernel: int, brightMorphIterations: int,
    minDefectArea: int, darkGradientThreshold: int,
    blueThreshold: int, redThreshold: int,
    useMsSsim: bool, msssimPercentile: real, msssimWeight: real, msssim: MsSsimConfig,
    msssimMorphKernel: int, msssimMorphIterations: int,
    ignoreOverexposed: bool,
    useMorphMaps: bool, thTopPercentile: real, thBlackPercentile: real, seTop: int, seBlack: int,
    useColorDelta: bool, colorMetric: string, colorPercentile: real,
    fusionMode: string, wStruct: real, wTop: real, wBlack: real, wColor: real, fusedPercentile: real,
    returnMsssim: bool, returnFusion: bool)

  /** The only error `detect_defects` raises itself: numpy's percentile out of [0, 100]. */
  datatype DetectError = PercentileOutOfRange

  /** One element of the returned tuple. */
  datatype RetItem = MaskItem(m: Mask) | ContoursItem(cs: seq<Contour>) | NoneItem

  const SimpleAlpha: real := 0.5
  const SimpleBeta: real := 0.3
  const SimpleGamma: real := 0.2
  const SimplePercentile: real := 99.5
  const SimpleMorphKernel: int := 3
  const SimpleMorphIterations: int := 1
  /** np.pi as a double. */
  const Pi: real := 3.141592653589793

  /** `cv2.erode(mask_bin, ones((5,5)))`: the region kept away from the border. */
  function SafeRoi(f: Frames, v: Vision): Mask {
    v.erode(f.mask, 5)
  }

  /** A mask cleaned by `_apply_morphological_ops` (never None here). */
  function Clean(m: Mask, k: int, it: int, v: Vision): (r: Mask)
    ensures k <= 1 || it <= 0 ==> r == m
  {
    ApplyMorphologicalOps(Some(m), k, it, v.openClose).value
  }

  /** `|a - b|` of two byte images, as floats. */
  function AbsDiff(d: Dims, a: Gray, b: Gray): (r: Scores)
    ensures forall i, j :: InRange(d, i, j) ==> Val(r, i, j) >= 0.0
  {
    ScoresOf(d, (i, j) => var x := (Px(a, i, j) - Px(b, i, j)) as real; if x < 0.0 then -x else x)
  }

  /** `w1*a + w2*b + ...`: a weighted sum of score maps. */
  function Weighted(d: Dims, ws: seq<real>, maps: seq<Scores>): (r: Scores)
    requires |ws| == |maps|
  {
    ScoresOf(d, (i, j) => WeightedAt(ws, maps, i, j))
  }

  function WeightedAt(ws: seq<real>, maps: seq<Scores>, i: int, j: int): real
    requires |ws| == |maps|
  {
    if ws == [] then 0.0 else ws[0] * Val(maps[0], i, j) + WeightedAt(ws[1..], maps[1..], i, j)
  }

  // ----- Simple mode -----

  datatype Outcome = Outcome(
    final: Mask, darker: Mask, brighter: Mask, blue: Mask, red: Mask,
    msssim: Option<Mask>, fused: Mask)

  /** Simple mode: one normalised score (DSSIM, colour, band-pass residual), its 99.5th
      percentile inside the safe ROI, a light morphology, and the ROI again. */
  function SimpleOutcome(f: Frames, p: DetectParams, v: Vision): (r: Outcome)
    requires f.dims.h > 0 && f.dims.w > 0
  {
    var d := f.dims;
    var safe := SafeRoi(f, v);
    var dssim := v.msSsim(f.tBlur, f.aBlur, p.msssim);
    var resid01 := Norm01(d, AbsDiff(d, f.tBlur, f.aBlur));
    var rband := Norm01(d, v.dogBand(resid01));
    var da, db := AbsDiff(d, f.alnA, f.tplA), AbsDiff(d, f.alnB, f.tplB);
    var color := Norm01(d, ScoresOf(d, (i, j) => if Val(da, i, j) >= Val(db, i, j) then Val(da, i, j) else Val(db, i, j)));
    var score := Norm01(d, Weighted(d, [SimpleAlpha, SimpleBeta, SimpleGamma], [dssim, color, rband]));
    var bin := Clean(PercentileBin(d, score, safe, SimplePercentile).value, SimpleMorphKernel, SimpleMorphIterations, v);
    var final := And(d, bin, safe);
    var zeros := Zeros(d);
    var msPct := Clamps.ClampReal(SimplePercentile, 98.5, 99.9);
    Outcome(final, zeros, zeros, zeros, zeros, PercentileBin(d, dssim, safe, msPct), bin)
  }

  // ----- Full mode: the cues -----

  /** Pixels brighter than 250 in V, inside the safe ROI, dilated 3x3. */
  function OverMask(f: Frames, safe: Mask, v: Vision): Mask {
    v.dilate(And(f.dims, Above(f.dims, f.alnV, 250), safe), 3)
  }

  /** The complement of the (eroded) union of the Canny edges of both images. */
  function EdgeInv(f: Frames, v: Vision): Mask {
    Not(f.dims, v.erode(Or(f.dims, v.canny(f.tBlur), v.canny(f.aBlur)), 3))
  }

  /** The gradient gate: the whole mask when the gradient threshold is <= 0. */
  function DarkGate(f: Frames, p: DetectParams, v: Vision): (r: Mask)
    ensures p.darkGradientThreshold <= 0 ==> r == f.mask
  {
    if p.darkGradientThreshold <= 0 then f.mask
    else Above(f.dims, v.morphGradient(f.aBlur), p.darkGradientThreshold)
  }

  /** `bh_th = max(6, min(20, dark_threshold // 2 + 6))` (floor division). */
  function MicroDarkThreshold(dark: int): (t: int)
    ensures 6 <= t <= 20
    ensures 0 <= dark <= 28 ==> t == dark / 2 + 6
  {
    Clamps.ClampInt(dark / 2 + 6, 6, 20)
  }

  function MicroDark(f: Frames, p: DetectParams, v: Vision): Mask {
    var d := f.dims;
    var bhDiff := SatSub(d, v.blackHat(f.aBlur, 7), v.blackHat(f.tBlur, 7));
    And(d, Above(d, bhDiff, MicroDarkThreshold(p.darkThreshold)), f.mask)
  }

  /** `darker_mask_filtered`: template darker than the image by more than the threshold,
      gated by the gradient, plus the micro-dark booster. */
  function DarkerFiltered(f: Frames, p: DetectParams, v: Vision): Mask {
    var d := f.dims;
    var darker := Above(d, SatSub(d, f.tBlur, f.aBlur), p.darkThreshold);
    Or(d, And(d, darker, DarkGate(f, p, v)), MicroDark(f, p, v))
  }

  /** A colour cue: the saturating difference `a - b` above `t`, away from thin edges. */
  function ColourCue(d: Dims, a: Gray, b: Gray, t: int, edgeInv: Mask): Mask {
    And(d, Above(d, SatSub(d, a, b), t), edgeInv)
  }

  /** MS-SSIM mask (None when MS-SSIM is off); threshold 1.0 when the ROI is empty. */
  function MsssimMask(f: Frames, safe: Mask, p: DetectParams, v: Vision): (r: Result<Option<Mask>, DetectError>)
  {
    if !p.useMsSsim then Ok(None)
    else
      var d := f.dims;
      var dssim := v.msSsim(f.tBlur, f.aBlur, p.msssim);
      var vals := RoiValues(d, dssim, safe);
      var thr := if vals == [] then Some(1.0) else Percentile(vals, p.msssimPercentile);
      match thr
      case None => Err(PercentileOutOfRange)
      case Some(t) => Ok(Some(Clean(ThresholdInRoi(d, dssim, safe, t), p.msssimMorphKernel, p.msssimMorphIterations, v)))
  }

  /** A top-hat or black-hat score: the normalised saturating difference image - template. */
  function HatScore(d: Dims, cur: Gray, tpl: Gray): (r: Scores)
    requires d.h > 0 && d.w > 0
  {
    Norm01(d, ToScores(d, SatSub(d, cur, tpl)))
  }

  datatype Maps = Maps(top: Scores, black: Scores, color: Scores, topBin: Mask, blackBin: Mask, colorBin: Mask)

  function ZeroScores(d: Dims): Scores {
    ScoresOf(d, (i, j) => 0.0)
  }

  /** The percentile bin of a map that is switched on; the all-zero bin otherwise. */
  function MaybeBin(on: bool, d: Dims, s: Scores, safe: Mask, pct: real): Option<Mask> {
    if on then PercentileBin(d, s, safe, pct) else Some(Zeros(d))
  }

  /** Top-hat, black-hat and colour-difference maps and their percentile bins (zero maps
      when switched off). */
  function ExtraMaps(f: Frames, safe: Mask, p: DetectParams, v: Vision): (r: Result<Maps, DetectError>)
    requires f.dims.h > 0 && f.dims.w > 0
  {
    var d := f.dims;
    var seTop, seBlack := Clamps.OddAtLeastOne(p.seTop), Clamps.OddAtLeastOne(p.seBlack);
    var top := if p.useMorphMaps then HatScore(d, v.topHat(f.aBlur, seTop), v.topHat(f.tBlur, seTop)) else ZeroScores(d);
    var black := if p.useMorphMaps then HatScore(d, v.blackHat(f.aBlur, seBlack), v.blackHat(f.tBlur, seBlack)) else ZeroScores(d);
    var color := if p.useColorDelta then ColorScore(f, p, v) else ZeroScores(d);
    BinMaps(d, safe, p, top, black, color)
  }

  /** The three maps with their bins, or the first percentile error. */
  function BinMaps(d: Dims, safe: Mask, p: DetectParams, top: Scores, black: Scores, color: Scores)
    : (r: Result<Maps, DetectError>)
  {
    var topBin := MaybeBin(p.useMorphMaps, d, top, safe, p.thTopPercentile);
    var blackBin := MaybeBin(p.useMorphMaps, d, black, safe, p.thBlackPercentile);
    var colorBin := MaybeBin(p.useColorDelta, d, color, safe, p.colorPercentile);
    if topBin.None? || blackBin.None? || colorBin.None? then Err(PercentileOutOfRange)
    else Ok(Maps(top, black, color, topBin.value, blackBin.value, colorBin.value))
  }

  /** Colour score: the per-pixel maximum of |da| and |db| ("maxab") or their Euclidean
      norm ("l2ab", case-insensitive), normalised. */
  function ColorScore(f: Frames, p: DetectParams, v: Vision): Scores
    requires f.dims.h > 0 && f.dims.w > 0
  {
    var d := f.dims;
    var da, db := AbsDiff(d, f.alnA, f.tplA), AbsDiff(d, f.alnB, f.tplB);
    var raw :=
      if Text.Lower(p.colorMetric) == "l2ab" then ScoresOf(d, (i, j) => v.hypot(Val(da, i, j), Val(db, i, j)))
      else ScoresOf(d, (i, j) => if Val(da, i, j) >= Val(db, i, j) then Val(da, i, j) else Val(db, i, j));
    Norm01(d, raw)
  }

  /** The MS-SSIM mask takes part in the union only when it exists and its weight is positive. */
  predicate MsssimEnabled(p: DetectParams, ms: Option<Mask>) {
    p.useMsSsim && ms.Some? && p.msssimWeight > 0.0
  }

  /** "or" fusion: the union of the enabled binary maps. */
  function OrFusion(d: Dims, p: DetectParams, maps: Maps, ms: Option<Mask>): Mask {
    var m0 := Zeros(d);
    var m1 := if p.useMorphMaps then Or(d, Or(d, m0, maps.topBin), maps.blackBin) else m0;
    var m2 := if p.useColorDelta then Or(d, m1, maps.colorBin) else m1;
    if MsssimEnabled(p, ms) then Or(d, m2, ms.value) else m2
  }

  /** "weighted" fusion: the normalised weighted score binarised at `fused_percentile`. */
  function WeightedFusion(f: Frames, safe: Mask, p: DetectParams, v: Vision, maps: Maps): (r: Option<Mask>)
    requires f.dims.h > 0 && f.dims.w > 0
  {
    var d := f.dims;
    var structScore := if p.useMsSsim then v.msSsim(f.tBlur, f.aBlur, p.msssim) else ZeroScores(d);
    var fusedScore := Norm01(d, Weighted(d, [p.wStruct, p.wTop, p.wBlack, p.wColor],
                                            [structScore, maps.top, maps.black, maps.color]));
    PercentileBin(d, fusedScore, safe, p.fusedPercentile)
  }

  predicate IsWeighted(p: DetectParams) {
    Text.Lower(p.fusionMode) == "weighted"
  }

  /** `combined`: the union of the four cleaned cues, plus the MS-SSIM mask when enabled. */
  function Combined(d: Dims, p: DetectParams, v: Vision, darker: Mask, brighter: Mask, blue: Mask, red: Mask,
                    ms: Option<Mask>): Mask
  {
    var c := Or(d, Or(d, Or(d, Clean(darker, p.darkMorphKernel, p.darkMorphIterations, v),
                                 Clean(brighter, p.brightMorphKernel, p.brightMorphIterations, v)),
                          Clean(blue, p.brightMorphKernel, p.brightMorphIterations, v)),
                   Clean(red, p.brightMorphKernel, p.brightMorphIterations, v));
    if MsssimEnabled(p, ms) then Or(d, c, ms.value) else c
  }

  /** `(combined | fused) & safe_roi`, then minus the overexposed pixels when asked. */
  function FinalMask(d: Dims, p: DetectParams, combined: Mask, fused: Mask, safe: Mask, over: Mask): (r: Mask)
  {
    var m := And(d, Or(d, combined, fused), safe);
    if p.ignoreOverexposed then And(d, m, Not(d, over)) else m
  }

  /** The four cue masks of Full mode. */
  datatype Cues = Cues(darker: Mask, brighter: Mask, blue: Mask, red: Mask)

  function FullCues(f: Frames, p: DetectParams, v: Vision): Cues {
    var d := f.dims;
    var edgeInv := EdgeInv(f, v);
    Cues(DarkerFiltered(f, p, v),
         ColourCue(d, f.alnB, f.tplB, p.brightThreshold, edgeInv),
         ColourCue(d, f.tplB, f.alnB, p.blueThreshold, edgeInv),
         ColourCue(d, f.alnA, f.tplA, p.redThreshold, edgeInv))
  }

  /** `fused_mask`: the extra maps fused by the selected mode. */
  function Fusion(f: Frames, safe: Mask, p: DetectParams, v: Vision, ms: Option<Mask>): (r: Result<Mask, DetectError>)
    requires f.dims.h > 0 && f.dims.w > 0
  {
    match ExtraMaps(f, safe, p, v)
    case Err(e) => Err(e)
    case Ok(maps) =>
      if IsWeighted(p) then
        match WeightedFusion(f, safe, p, v, maps)
        case None => Err(PercentileOutOfRange)
        case Some(m) => Ok(m)
      else Ok(OrFusion(f.dims, p, maps, ms))
  }

  /** Full mode: every cue, the fusion and the final mask. */
  function FullOutcome(f: Frames, p: DetectParams, v: Vision): (r: Result<Outcome, DetectError>)
    requires f.dims.h > 0 && f.dims.w > 0
  {
    var safe := SafeRoi(f, v);
    Assemble(f, p, v, safe, FullCues(f, p, v), MsssimMask(f, safe, p, v))
  }

  /** Full mode after the cues: `combined`, `fused_mask` and the final mask, or the first
      percentile error. */
  function Assemble(f: Frames, p: DetectParams, v: Vision, safe: Mask, c: Cues,
                    msr: Result<Option<Mask>, DetectError>): (r: Result<Outcome, DetectError>)
    requires f.dims.h > 0 && f.dims.w > 0
  {
    match msr
    case Err(e) => Err(e)
    case Ok(ms) =>
      match Fusion(f, safe, p, v, ms)
      case Err(e) => Err(e)
      case Ok(fused) =>
        var combined := Combined(f.dims, p, v, c.darker, c.brighter, c.blue, c.red, ms);
        var final := FinalMask(f.dims, p, combined, fused, safe, OverMask(f, safe, v));
        Ok(Outcome(final, c.darker, c.brighter, c.blue, c.red, ms, fused))
  }

  function Detect(mode: Mode, f: Frames, p: DetectParams, v: Vision): Result<Outcome, DetectError>
    requires f.dims.h > 0 && f.dims.w > 0
  {
    if mode == Simple then Ok(SimpleOutcome(f, p, v)) else FullOutcome(f, p, v)
  }

  // ----- Contour filter -----

  /** `max(1, int(min_defect_area))`. */
  function MinArea(minDefectArea: int): int {
    if minDefectArea < 1 then 1 else minDefectArea
  }

  /** `4*pi*area / peri^2` with the perimeter floored at 1e-6. */
  function Circularity(c: Contour): real {
    var peri := if c.perimeter >= 0.000001 then c.perimeter else 0.000001;
    4.0 * Pi * c.area / (peri * peri)
  }

  /** A contour survives when it is large enough and not a thin sliver of more than 150 px. */
  predicate Keep(c: Contour, minDefectArea: int) {
    !(c.area < MinArea(minDefectArea) as real) && !(Circularity(c) < 0.02 && c.area > 150.0)
  }

  /** The kept contours, in their original order. */
  function Kept(cs: seq<Contour>, minDefectArea: int): (r: seq<Contour>)
    ensures |r| <= |cs|
  {
    if cs == [] then []
    else (if Keep(cs[0], minDefectArea) then [cs[0]] else []) + Kept(cs[1..], minDefectArea)
  }

  /** Exactly the contours that pass the filter survive it. */
  lemma {:induction false} KeptMembers(cs: seq<Contour>, minDefectArea: int)
    ensures forall c :: c in Kept(cs, minDefectArea) <==> c in cs && Keep(c, minDefectArea)
  {
    if cs != [] {
      KeptMembers(cs[1..], minDefectArea);
      assert cs == [cs[0]] + cs[1..];
    }
  }

  /** Filtering a concatenation filters each part: the relative order is kept. */
  lemma {:induction false} KeptAppend(a: seq<Contour>, b: seq<Contour>, minDefectArea: int)
    ensures Kept(a + b, minDefectArea) == Kept(a, minDefectArea) + Kept(b, minDefectArea)
  {
    if a == [] {
      assert a + b == b;
    } else {
      var ab := a + b;
      var head := if Keep(a[0], minDefectArea) then [a[0]] else [];
      assert ab[0] == a[0] && ab[1..] == a[1..] + b;
      assert Kept(ab, minDefectArea) == head + Kept(a[1..] + b, minDefectArea);
      KeptAppend(a[1..], b, minDefectArea);
      assert Kept(a, minDefectArea) == head + Kept(a[1..], minDefectArea);
    }
  }

  /** A contour below the minimum area never survives, whatever its shape. */
  lemma SmallContoursDropped(c: Contour, minDefectArea: int)
    requires c.area < 1.0 || c.area < minDefectArea as real
    ensures !Keep(c, minDefectArea)
  {
  }

  /** The loop of `detect_defects` that appends surviving contours. */
  method FilterContours(cs: seq<Contour>, minDefectArea: int) returns (kept: seq<Contour>)
    ensures kept == Kept(cs, minDefectArea)
  {
    kept := [];
    var minArea := MinArea(minDefectArea);
    var i := 0;
    while i < |cs|
      invariant 0 <= i <= |cs|
      invariant kept == Kept(cs[..i], minDefectArea)
    {
      var c := cs[i];
      KeptAppend(cs[..i], [c], minDefectArea);
      assert cs[..i + 1] == cs[..i] + [c];
      assert Kept([c], minDefectArea) == if Keep(c, minDefectArea) then [c] else [] by {
        assert [c][1..] == [];
      }
      i := i + 1;
      if c.area < minArea as real {
        continue;
      }
      var circularity := Circularity(c);
      if circularity < 0.02 && c.area > 150.0 {
        continue;
      }
      kept := kept + [c];
    }
    assert cs[..|cs|] == cs;
  }

  // ----- The returned tuple -----

  /** `ret`: final mask, kept contours, the four cue masks (zeros in Simple mode), then the
      optional MS-SSIM mask and fused mask. */
  function RetTuple(o: Outcome, kept: seq<Contour>, p: DetectParams): (r: seq<RetItem>)
    ensures |r| == 6 + (if p.returnMsssim then 1 else 0) + (if p.returnFusion then 1 else 0)
    ensures r[0] == MaskItem(o.final) && r[1] == ContoursItem(kept)
    ensures p.returnFusion ==> r[|r| - 1] == MaskItem(o.fused)
  {
    var base := [MaskItem(o.final), ContoursItem(kept), MaskItem(o.darker), MaskItem(o.brighter),
                 MaskItem(o.blue), MaskItem(o.red)];
    var withMs := if p.returnMsssim then base + [if o.msssim.Some? then MaskItem(o.msssim.value) else NoneItem] else base;
    if p.returnFusion then withMs + [MaskItem(o.fused)] else withMs
  }

  /** Full mode of `detect_defects`: `combined`, `fused_mask` and `final_defect_mask` are
      rebound step by step, and the first failing percentile aborts. */
  method DetectFull(f: Frames, p: DetectParams, v: Vision) returns (r: Result<Outcome, DetectError>)
    requires f.dims.h > 0 && f.dims.w > 0
    ensures r == FullOutcome(f, p, v)
  {
    var safe := SafeRoi(f, v);
    var c := FullCues(f, p, v);
    var msr := MsssimMask(f, safe, p, v);
    r := AssembleMasks(f, p, v, safe, c, msr);
  }

  /** Full mode after the cues and the MS-SSIM mask. */
  method AssembleMasks(f: Frames, p: DetectParams, v: Vision, safe: Mask, c: Cues,
                       msr: Result<Option<Mask>, DetectError>) returns (r: Result<Outcome, DetectError>)
    requires f.dims.h > 0 && f.dims.w > 0
    ensures r == Assemble(f, p, v, safe, c, msr)
  {
    if msr.Err? {
      return Err(msr.error);
    }
    var ms := msr.value;
    var combined := Combine(f.dims, p, v, c.darker, c.brighter, c.blue, c.red, ms);
    var fusedr := Fuse(f, safe, p, v, ms);
    if fusedr.Err? {
      return Err(fusedr.error);
    }
    var fused := fusedr.value;
    var final := Finalize(f.dims, p, combined, fused, safe, OverMask(f, safe, v));
    return Ok(Outcome(final, c.darker, c.brighter, c.blue, c.red, ms, fused));
  }

  /** The fusion step: builds the extra maps, then `fused_mask` by the selected mode. */
  method Fuse(f: Frames, safe: Mask, p: DetectParams, v: Vision, ms: Option<Mask>)
    returns (r: Result<Mask, DetectError>)
    requires f.dims.h > 0 && f.dims.w > 0
    ensures r == Fusion(f, safe, p, v, ms)
  {
    var mapsr := ExtraMaps(f, safe, p, v);
    if mapsr.Err? {
      return Err(mapsr.error);
    }
    var maps := mapsr.value;
    if IsWeighted(p) {
      var w := WeightedFusion(f, safe, p, v, maps);
      if w.None? {
        return Err(PercentileOutOfRange);
      }
      return Ok(w.value);
    }
    var fused := FuseOr(f.dims, p, maps, ms);
    return Ok(fused);
  }

  /** `combined`, OR-ed together one cleaned cue at a time. */
  method Combine(d: Dims, p: DetectParams, v: Vision, darker: Mask, brighter: Mask, blue: Mask, red: Mask,
                 ms: Option<Mask>) returns (combined: Mask)
    ensures combined == Combined(d, p, v, darker, brighter, blue, red, ms)
  {
    combined := Or(d, Clean(darker, p.darkMorphKernel, p.darkMorphIterations, v),
                      Clean(brighter, p.brightMorphKernel, p.brightMorphIterations, v));
    combined := Or(d, combined, Clean(blue, p.brightMorphKernel, p.brightMorphIterations, v));
    combined := Or(d, combined, Clean(red, p.brightMorphKernel, p.brightMorphIterations, v));
    if MsssimEnabled(p, ms) {
      combined := Or(d, combined, ms.value);
    }
  }

  /** `final_defect_mask`: the union restricted to the safe ROI, minus overexposure. */
  method Finalize(d: Dims, p: DetectParams, combined: Mask, fused: Mask, safe: Mask, over: Mask)
    returns (final: Mask)
    ensures final == FinalMask(d, p, combined, fused, safe, over)
  {
    final := And(d, Or(d, combined, fused), safe);
    if p.ignoreOverexposed {
      final := And(d, final, Not(d, over));
    }
  }

  /** The "or" branch of the fusion, accumulating into `fused_mask`. */
  method FuseOr(d: Dims, p: DetectParams, maps: Maps, ms: Option<Mask>) returns (fused: Mask)
    ensures fused == OrFusion(d, p, maps, ms)
  {
    fused := Zeros(d);
    if p.useMorphMaps {
      fused := Or(d, fused, maps.topBin);
      fused := Or(d, fused, maps.blackBin);
    }
    if p.useColorDelta {
      fused := Or(d, fused, maps.colorBin);
    }
    if MsssimEnabled(p, ms) {
      fused := Or(d, fused, ms.value);
    }
  }

  /** What `detect_defects` returns: the tuple of the mode's masks and the kept contours of
      the final mask, or the percentile error. */
  function Returned(masks: Result<Outcome, DetectError>, p: DetectParams, v: Vision): (r: Result<seq<RetItem>, DetectError>)
  {
    match masks
    case Err(e) => Err(e)
    case Ok(o) => Ok(RetTuple(o, Kept(v.findContours(o.final), p.minDefectArea), p))
  }

  /** `detect_defects`: the mode's masks, the contour filter loop, and the result tuple
      built by appending. */
  method DetectDefects(mode: Mode, f: Frames, p: DetectParams, v: Vision)
    returns (r: Result<seq<RetItem>, DetectError>)
    requires f.dims.h > 0 && f.dims.w > 0
    ensures r == Returned(Detect(mode, f, p, v), p, v)
  {
    var masks := DetectMasks(mode, f, p, v);
    r := Finish(masks, p, v);
  }

  /** The contours of the final mask, filtered, and the tuple built around them; an error
      passes through. */
  method Finish(masks: Result<Outcome, DetectError>, p: DetectParams, v: Vision)
    returns (r: Result<seq<RetItem>, DetectError>)
    ensures r == Returned(masks, p, v)
  {
    if masks.Err? {
      return Err(masks.error);
    }
    var o := masks.value;
    var kept := FilterContours(v.findContours(o.final), p.minDefectArea);
    var ret := BuildRet(o, kept, p);
    return Ok(ret);
  }

  /** The masks of the selected mode. */
  method DetectMasks(mode: Mode, f: Frames, p: DetectParams, v: Vision) returns (r: Result<Outcome, DetectError>)
    requires f.dims.h > 0 && f.dims.w > 0
    ensures r == Detect(mode, f, p, v)
  {
    if mode == Simple {
      r := Ok(SimpleOutcome(f, p, v));
    } else {
      r := DetectFull(f, p, v);
    }
  }

  /** `ret` built by appending: the six fixed items, then the optional ones. */
  method BuildRet(o: Outcome, kept: seq<Contour>, p: DetectParams) returns (ret: seq<RetItem>)
    ensures ret == RetTuple(o, kept, p)
  {
    ret := [MaskItem(o.final), ContoursItem(kept), MaskItem(o.darker), MaskItem(o.brighter),
            MaskItem(o.blue), MaskItem(o.red)];
    if p.returnMsssim {
      ret := ret + [if o.msssim.Some? then MaskItem(o.msssim.value) else NoneItem];
    }
    if p.returnFusion {
      ret := ret + [MaskItem(o.fused)];
    }
  }

  // ----- Properties of the pipeline -----

  /** A percentile call fails only when the ROI has values and `pct` is outside [0, 100]. */
  ghost predicate BadPercentile(d: Dims, roi: Mask, pct: real) {
    !IsEmpty(d, roi) && !(0.0 <= pct <= 100.0)
  }

  /** The dark cue: template darker than the image by more than `dark_threshold`, inside the
      gate, or a micro-dark pixel (black-hat difference above `bh_th`) inside the mask. */
  lemma DarkerFilteredPixels(f: Frames, p: DetectParams, v: Vision)
    ensures forall i, j :: At(DarkerFiltered(f, p, v), i, j) <==>
              InRange(f.dims, i, j) &&
              (|| (Exceeds(Px(f.tBlur, i, j) - Px(f.aBlur, i, j), p.darkThreshold) && At(DarkGate(f, p, v), i, j))
               || (Exceeds(Px(v.blackHat(f.aBlur, 7), i, j) - Px(v.blackHat(f.tBlur, 7), i, j),
                           MicroDarkThreshold(p.darkThreshold))
                   && At(f.mask, i, j)))
  {
    var d := f.dims;
    AboveSatSub(d, f.tBlur, f.aBlur, p.darkThreshold);
    AboveSatSub(d, v.blackHat(f.aBlur, 7), v.blackHat(f.tBlur, 7), MicroDarkThreshold(p.darkThreshold));
  }

  /** `cv2.threshold(cv2.subtract(a, b), t, 255, THRESH_BINARY)` sets a pixel whose raw
      difference is `x` exactly when this holds. */
  predicate Exceeds(x: int, t: int) {
    t < 0 || (t < 255 && x > t)
  }

  /** A colour cue: the raw difference `a - b` above the threshold, off the thin edges. */
  lemma ColourCuePixels(d: Dims, a: Gray, b: Gray, t: int, edgeInv: Mask)
    ensures forall i, j :: At(ColourCue(d, a, b, t, edgeInv), i, j) <==>
              InRange(d, i, j) && Exceeds(Px(a, i, j) - Px(b, i, j), t) && At(edgeInv, i, j)
  {
    AboveSatSub(d, a, b, t);
  }

  /** The MS-SSIM mask exists exactly when MS-SSIM is on, and fails only on a bad percentile
      over a non-empty ROI. */
  lemma MsssimMaskOutcome(f: Frames, safe: Mask, p: DetectParams, v: Vision)
    ensures MsssimMask(f, safe, p, v).Err? <==> p.useMsSsim && BadPercentile(f.dims, safe, p.msssimPercentile)
    ensures MsssimMask(f, safe, p, v).Ok? ==> (MsssimMask(f, safe, p, v).value.Some? <==> p.useMsSsim)
  {
    if p.useMsSsim {
      var dssim := v.msSsim(f.tBlur, f.aBlur, p.msssim);
      var vals := RoiValues(f.dims, dssim, safe);
      if vals != [] {
        assert Percentile(vals, p.msssimPercentile).Some? <==> 0.0 <= p.msssimPercentile <= 100.0;
      }
    }
  }

  /** The extra maps fail exactly when an enabled map's percentile is bad; every bin lies
      inside the safe ROI. */
  lemma BinMapsOutcome(d: Dims, safe: Mask, p: DetectParams, top: Scores, black: Scores, color: Scores)
    ensures BinMaps(d, safe, p, top, black, color).Err? <==>
              || (p.useMorphMaps && (BadPercentile(d, safe, p.thTopPercentile)
                                     || BadPercentile(d, safe, p.thBlackPercentile)))
              || (p.useColorDelta && BadPercentile(d, safe, p.colorPercentile))
    ensures BinMaps(d, safe, p, top, black, color).Ok? ==>
              var m := BinMaps(d, safe, p, top, black, color).value;
              Subset(d, m.topBin, safe) && Subset(d, m.blackBin, safe) && Subset(d, m.colorBin, safe)
  {
    MaybeBinOutcome(p.useMorphMaps, d, top, safe, p.thTopPercentile);
    MaybeBinOutcome(p.useMorphMaps, d, black, safe, p.thBlackPercentile);
    MaybeBinOutcome(p.useColorDelta, d, color, safe, p.colorPercentile);
  }

  lemma MaybeBinOutcome(on: bool, d: Dims, s: Scores, safe: Mask, pct: real)
    ensures MaybeBin(on, d, s, safe, pct).None? <==> on && BadPercentile(d, safe, pct)
    ensures MaybeBin(on, d, s, safe, pct).Some? ==> Subset(d, MaybeBin(on, d, s, safe, pct).value, safe)
  {
  }

  /** Weighted fusion fails exactly on a bad `fused_percentile`, and stays inside the ROI. */
  lemma WeightedFusionOutcome(f: Frames, safe: Mask, p: DetectParams, v: Vision, maps: Maps)
    requires f.dims.h > 0 && f.dims.w > 0
    ensures WeightedFusion(f, safe, p, v, maps).None? <==> BadPercentile(f.dims, safe, p.fusedPercentile)
    ensures WeightedFusion(f, safe, p, v, maps).Some? ==> Subset(f.dims, WeightedFusion(f, safe, p, v, maps).value, safe)
  {
  }

  /** "or" fusion is exactly the union of the enabled bins, plus the MS-SSIM mask only when
      its weight is positive. */
  lemma OrFusionIsUnion(d: Dims, p: DetectParams, maps: Maps, ms: Option<Mask>)
    ensures forall i, j :: At(OrFusion(d, p, maps, ms), i, j) <==>
              InRange(d, i, j) &&
              (|| (p.useMorphMaps && (At(maps.topBin, i, j) || At(maps.blackBin, i, j)))
               || (p.useColorDelta && At(maps.colorBin, i, j))
               || (p.useMsSsim && ms.Some? && p.msssimWeight > 0.0 && At(ms.value, i, j)))
  {
  }

  /** `combined` is the union of the four cleaned cues and, when enabled, the MS-SSIM mask. */
  lemma CombinedIsUnion(d: Dims, p: DetectParams, v: Vision, darker: Mask, brighter: Mask, blue: Mask, red: Mask,
                        ms: Option<Mask>)
    ensures forall i, j :: At(Combined(d, p, v, darker, brighter, blue, red, ms), i, j) <==>
              InRange(d, i, j) &&
              (|| At(Clean(darker, p.darkMorphKernel, p.darkMorphIterations, v), i, j)
               || At(Clean(brighter, p.brightMorphKernel, p.brightMorphIterations, v), i, j)
               || At(Clean(blue, p.brightMorphKernel, p.brightMorphIterations, v), i, j)
               || At(Clean(red, p.brightMorphKernel, p.brightMorphIterations, v), i, j)
               || (MsssimEnabled(p, ms) && At(ms.value, i, j)))
  {
  }

  /** The final mask is `combined | fused` inside the safe ROI, minus the overexposed pixels
      when they are ignored. */
  lemma FinalMaskPixels(d: Dims, p: DetectParams, combined: Mask, fused: Mask, safe: Mask, over: Mask)
    ensures forall i, j :: At(FinalMask(d, p, combined, fused, safe, over), i, j) <==>
              InRange(d, i, j) && (At(combined, i, j) || At(fused, i, j)) && At(safe, i, j)
              && !(p.ignoreOverexposed && At(over, i, j))
    ensures Subset(d, FinalMask(d, p, combined, fused, safe, over), safe)
    ensures p.ignoreOverexposed ==> Disjoint(d, FinalMask(d, p, combined, fused, safe, over), over)
  {
  }

  lemma ExtraMapsOutcome(f: Frames, safe: Mask, p: DetectParams, v: Vision)
    requires f.dims.h > 0 && f.dims.w > 0
    ensures ExtraMaps(f, safe, p, v).Err? <==>
              || (p.useMorphMaps && (BadPercentile(f.dims, safe, p.thTopPercentile)
                                     || BadPercentile(f.dims, safe, p.thBlackPercentile)))
              || (p.useColorDelta && BadPercentile(f.dims, safe, p.colorPercentile))
  {
    var d := f.dims;
    var seTop, seBlack := Clamps.OddAtLeastOne(p.seTop), Clamps.OddAtLeastOne(p.seBlack);
    var top := if p.useMorphMaps then HatScore(d, v.topHat(f.aBlur, seTop), v.topHat(f.tBlur, seTop)) else ZeroScores(d);
    var black := if p.useMorphMaps then HatScore(d, v.blackHat(f.aBlur, seBlack), v.blackHat(f.tBlur, seBlack)) else ZeroScores(d);
    var color := if p.useColorDelta then ColorScore(f, p, v) else ZeroScores(d);
    BinMapsOutcome(d, safe, p, top, black, color);
  }

  /** Some enabled stage of Full mode has a bad percentile over a non-empty safe ROI. */
  ghost predicate FullModeFails(d: Dims, safe: Mask, p: DetectParams) {
    || (p.useMsSsim && BadPercentile(d, safe, p.msssimPercentile))
    || (p.useMorphMaps && (BadPercentile(d, safe, p.thTopPercentile) || BadPercentile(d, safe, p.thBlackPercentile)))
    || (p.useColorDelta && BadPercentile(d, safe, p.colorPercentile))
    || (IsWeighted(p) && BadPercentile(d, safe, p.fusedPercentile))
  }

  /** `fused_mask` fails exactly when the extra maps do, or when weighted fusion meets a bad
      `fused_percentile`. */
  lemma FusionFails(f: Frames, safe: Mask, p: DetectParams, v: Vision, ms: Option<Mask>)
    requires f.dims.h > 0 && f.dims.w > 0
    ensures Fusion(f, safe, p, v, ms).Err? <==>
              ExtraMaps(f, safe, p, v).Err? || (IsWeighted(p) && BadPercentile(f.dims, safe, p.fusedPercentile))
  {
    var maps := ExtraMaps(f, safe, p, v);
    if maps.Ok? && IsWeighted(p) {
      WeightedFusionOutcome(f, safe, p, v, maps.value);
    }
  }

  /** After the cues, Full mode fails exactly when the MS-SSIM mask or the fusion does. */
  lemma AssembleFails(f: Frames, p: DetectParams, v: Vision, safe: Mask, c: Cues,
                      msr: Result<Option<Mask>, DetectError>)
    requires f.dims.h > 0 && f.dims.w > 0
    ensures Assemble(f, p, v, safe, c, msr).Err? <==>
              msr.Err? || Fusion(f, safe, p, v, msr.value).Err?
  {
  }

  /** The final mask of Full mode lies inside the safe ROI and, when overexposure is ignored,
      outside the overexposed pixels. */
  lemma AssembleWithinSafeRoi(f: Frames, p: DetectParams, v: Vision, safe: Mask, c: Cues,
                              msr: Result<Option<Mask>, DetectError>)
    requires f.dims.h > 0 && f.dims.w > 0
    requires Assemble(f, p, v, safe, c, msr).Ok?
    ensures Subset(f.dims, Assemble(f, p, v, safe, c, msr).value.final, safe)
    ensures p.ignoreOverexposed ==> Disjoint(f.dims, Assemble(f, p, v, safe, c, msr).value.final, OverMask(f, safe, v))
  {
    var ms := msr.value;
    var fused := Fusion(f, safe, p, v, ms).value;
    var combined := Combined(f.dims, p, v, c.darker, c.brighter, c.blue, c.red, ms);
    FinalMaskPixels(f.dims, p, combined, fused, safe, OverMask(f, safe, v));
  }

  lemma AssembleFailsWhen(f: Frames, p: DetectParams, v: Vision, safe: Mask, c: Cues)
    requires f.dims.h > 0 && f.dims.w > 0
    ensures Assemble(f, p, v, safe, c, MsssimMask(f, safe, p, v)).Err? <==> FullModeFails(f.dims, safe, p)
  {
    var msr := MsssimMask(f, safe, p, v);
    MsssimMaskOutcome(f, safe, p, v);
    ExtraMapsOutcome(f, safe, p, v);
    AssembleFails(f, p, v, safe, c, msr);
    if msr.Ok? {
      FusionFails(f, safe, p, v, msr.value);
    }
  }

  /** Full mode raises exactly when one of its enabled stages meets a bad percentile over a
      non-empty safe ROI (Simple mode never raises: its percentile is the constant 99.5). */
  lemma FullOutcomeFails(f: Frames, p: DetectParams, v: Vision)
    requires f.dims.h > 0 && f.dims.w > 0
    ensures FullOutcome(f, p, v).Err? <==> FullModeFails(f.dims, SafeRoi(f, v), p)
  {
    AssembleFailsWhen(f, p, v, SafeRoi(f, v), FullCues(f, p, v));
  }

  /** Full mode's final mask lies inside the safe ROI and avoids the overexposed pixels when
      they are ignored. */
  lemma FullFinalWithinSafeRoi(f: Frames, p: DetectParams, v: Vision)
    requires f.dims.h > 0 && f.dims.w > 0
    requires FullOutcome(f, p, v).Ok?
    ensures Subset(f.dims, FullOutcome(f, p, v).value.final, SafeRoi(f, v))
    ensures p.ignoreOverexposed ==> Disjoint(f.dims, FullOutcome(f, p, v).value.final, OverMask(f, SafeRoi(f, v), v))
  {
    var safe := SafeRoi(f, v);
    AssembleWithinSafeRoi(f, p, v, safe, FullCues(f, p, v), MsssimMask(f, safe, p, v));
  }

  /** Simple mode's final mask lies inside the safe ROI. */
  lemma SimpleFinalWithinSafeRoi(f: Frames, p: DetectParams, v: Vision)
    requires f.dims.h > 0 && f.dims.w > 0
    ensures Subset(f.dims, SimpleOutcome(f, p, v).final, SafeRoi(f, v))
  {
  }
}
