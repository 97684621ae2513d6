/**
 * Images as the application's OpenCV code sees them: binary masks (uint8 0/255, here
 * booleans), single-channel byte images and float score maps. Every grid is read through
 * a total accessor that returns false / 0 outside the grid, so pixelwise operations are
 * defined on grids of any shape; each operation builds a grid of the frame's dimensions.
 */
module Masks {

  datatype Dims = Dims(h: nat, w: nat)

  type Mask = seq<seq<bool>>
  type Gray = seq<seq<int>>
  type Scores = seq<seq<real>>

  predicate InRange(d: Dims, i: int, j: int) {
    0 <= i < d.h && 0 <= j < d.w
  }

  /** Pixel (i, j) of a mask is set (255). */
  function At(m: Mask, i: int, j: int): bool {
    if 0 <= i < |m| && 0 <= j < |m[i]| then m[i][j] else false
  }

  /** Byte value of pixel (i, j); 0 outside the image. */
  function Px(g: Gray, i: int, j: int): int {
    if 0 <= i < |g| && 0 <= j < |g[i]| then g[i][j] else 0
  }

  /** Score of pixel (i, j); 0.0 outside the map. */
  function Val(s: Scores, i: int, j: int): real {
    if 0 <= i < |s| && 0 <= j < |s[i]| then s[i][j] else 0.0
  }

  ghost predicate IsGray(d: Dims, g: Gray) {
    forall i, j :: InRange(d, i, j) ==> 0 <= Px(g, i, j) <= 255
  }

  /** The h-by-w grid whose cell (i, j) is f(i, j), built row by row. */
  function GridOf<T>(h: nat, w: nat, f: (int, int) -> T): (r: seq<seq<T>>)
    ensures |r| == h
    ensures forall i :: 0 <= i < h ==> |r[i]| == w
    ensures forall i, j :: 0 <= i < h && 0 <= j < w ==> r[i][j] == f(i, j)
  {
    if h == 0 then [] else GridOf(h - 1, w, f) + [RowOf(h - 1, w, f)]
  }

  function RowOf<T>(i: int, w: nat, f: (int, int) -> T): (r: seq<T>)
    ensures |r| == w
    ensures forall j :: 0 <= j < w ==> r[j] == f(i, j)
  {
    if w == 0 then [] else RowOf(i, w - 1, f) + [f(i, w - 1)]
  }

  function MaskOf(d: Dims, f: (int, int) -> bool): (r: Mask)
    ensures forall i, j :: At(r, i, j) <==> InRange(d, i, j) && f(i, j)
  {
    GridOf(d.h, d.w, f)
  }

  function GrayOf(d: Dims, f: (int, int) -> int): (r: Gray)
    ensures forall i, j :: InRange(d, i, j) ==> Px(r, i, j) == f(i, j)
    ensures forall i, j :: !InRange(d, i, j) ==> Px(r, i, j) == 0
  {
    GridOf(d.h, d.w, f)
  }

  function ScoresOf(d: Dims, f: (int, int) -> real): (r: Scores)
    ensures forall i, j :: InRange(d, i, j) ==> Val(r, i, j) == f(i, j)
    ensures forall i, j :: !InRange(d, i, j) ==> Val(r, i, j) == 0.0
  {
    GridOf(d.h, d.w, f)
  }

  /** `np.zeros_like(...)`. */
  function Zeros(d: Dims): (r: Mask)
    ensures forall i, j :: !At(r, i, j)
  {
    MaskOf(d, (i, j) => false)
  }

  /** `cv2.bitwise_or`. */
  function Or(d: Dims, a: Mask, b: Mask): (r: Mask)
    ensures forall i, j :: At(r, i, j) <==> InRange(d, i, j) && (At(a, i, j) || At(b, i, j))
  {
    MaskOf(d, (i, j) => At(a, i, j) || At(b, i, j))
  }

  /** `cv2.bitwise_and`, also `cv2.bitwise_and(m, m, mask=roi)`. */
  function And(d: Dims, a: Mask, b: Mask): (r: Mask)
    ensures forall i, j :: At(r, i, j) <==> InRange(d, i, j) && At(a, i, j) && At(b, i, j)
  {
    MaskOf(d, (i, j) => At(a, i, j) && At(b, i, j))
  }

  /** `cv2.bitwise_not`. */
  function Not(d: Dims, a: Mask): (r: Mask)
    ensures forall i, j :: At(r, i, j) <==> InRange(d, i, j) && !At(a, i, j)
  {
    MaskOf(d, (i, j) => !At(a, i, j))
  }

  /** `cv2.threshold(img, t, 255, THRESH_BINARY)`: set exactly where the pixel exceeds `t`. */
  function Above(d: Dims, g: Gray, t: int): (r: Mask)
    ensures forall i, j :: At(r, i, j) <==> InRange(d, i, j) && Px(g, i, j) > t
  {
    MaskOf(d, (i, j) => Px(g, i, j) > t)
  }

  /** `(scores >= thr).astype(uint8) * 255`. */
  function AtLeast(d: Dims, s: Scores, thr: real): (r: Mask)
    ensures forall i, j :: At(r, i, j) <==> InRange(d, i, j) && Val(s, i, j) >= thr
  {
    MaskOf(d, (i, j) => Val(s, i, j) >= thr)
  }

  /** `cv2.subtract` on uint8 images: the difference saturates at 0 and 255. */
  function SatSub(d: Dims, a: Gray, b: Gray): (r: Gray)
    ensures IsGray(d, r)
    ensures forall i, j :: InRange(d, i, j) && Px(a, i, j) - Px(b, i, j) >= 0 && Px(a, i, j) - Px(b, i, j) <= 255
              ==> Px(r, i, j) == Px(a, i, j) - Px(b, i, j)
    ensures forall i, j :: InRange(d, i, j) && Px(a, i, j) <= Px(b, i, j) ==> Px(r, i, j) == 0
  {
    GrayOf(d, (i, j) => var x := Px(a, i, j) - Px(b, i, j); if x < 0 then 0 else if x > 255 then 255 else x)
  }

  /** Thresholding a saturating difference: with `0 <= t < 255` a pixel is set exactly where
      `a - b` exceeds `t`; no threshold of 255 or more is ever exceeded, and a negative one
      always is. */
  lemma AboveSatSub(d: Dims, a: Gray, b: Gray, t: int)
    ensures forall i, j :: At(Above(d, SatSub(d, a, b), t), i, j) <==>
              InRange(d, i, j) && (t < 0 || (t < 255 && Px(a, i, j) - Px(b, i, j) > t))
  {
    var s := SatSub(d, a, b);
    forall i, j | InRange(d, i, j)
      ensures Px(s, i, j) > t <==> t < 0 || (t < 255 && Px(a, i, j) - Px(b, i, j) > t)
    {
      var x := Px(a, i, j) - Px(b, i, j);
      if x < 0 {
        assert Px(s, i, j) == 0;
      } else if x <= 255 {
        assert Px(s, i, j) == x;
      } else {
        assert Px(s, i, j) <= 255;
      }
    }
  }

  /** The byte image as float32 scores. */
  function ToScores(d: Dims, g: Gray): (r: Scores)
    ensures forall i, j :: InRange(d, i, j) ==> Val(r, i, j) == Px(g, i, j) as real
  {
    ScoresOf(d, (i, j) => Px(g, i, j) as real)
  }

  ghost predicate Subset(d: Dims, a: Mask, b: Mask) {
    forall i, j :: InRange(d, i, j) && At(a, i, j) ==> At(b, i, j)
  }

  ghost predicate Disjoint(d: Dims, a: Mask, b: Mask) {
    forall i, j :: InRange(d, i, j) ==> !(At(a, i, j) && At(b, i, j))
  }

  ghost predicate IsEmpty(d: Dims, a: Mask) {
    forall i, j :: InRange(d, i, j) ==> !At(a, i, j)
  }

  ghost predicate SameMask(d: Dims, a: Mask, b: Mask) {
    forall i, j :: InRange(d, i, j) ==> (At(a, i, j) <==> At(b, i, j))
  }

  /** Values of the score map at the set pixels of `roi`, in row-major order; the first
      `w` columns of row `i`. */
  function RowValues(s: Scores, roi: Mask, i: int, w: nat): (r: seq<real>)
    ensures forall j :: 0 <= j < w && At(roi, i, j) ==> Val(s, i, j) in r
    ensures r == [] <==> forall j :: 0 <= j < w ==> !At(roi, i, j)
    ensures |r| <= w
  {
    if w == 0 then []
    else RowValues(s, roi, i, w - 1) + (if At(roi, i, w - 1) then [Val(s, i, w - 1)] else [])
  }

  function RowsValues(s: Scores, roi: Mask, h: nat, w: nat): (r: seq<real>)
    ensures forall i, j :: 0 <= i < h && 0 <= j < w && At(roi, i, j) ==> Val(s, i, j) in r
    ensures r == [] <==> forall i, j :: 0 <= i < h && 0 <= j < w ==> !At(roi, i, j)
  {
    if h == 0 then []
    else
      var top := RowsValues(s, roi, h - 1, w);
      var last := RowValues(s, roi, h - 1, w);
      RowsValuesStep(s, roi, h - 1, w, top, last);
      top + last
  }

  lemma RowsValuesStep(s: Scores, roi: Mask, k: nat, w: nat, top: seq<real>, last: seq<real>)
    requires forall i, j :: 0 <= i < k && 0 <= j < w && At(roi, i, j) ==> Val(s, i, j) in top
    requires top == [] <==> forall i, j :: 0 <= i < k && 0 <= j < w ==> !At(roi, i, j)
    requires forall j :: 0 <= j < w && At(roi, k, j) ==> Val(s, k, j) in last
    requires last == [] <==> forall j :: 0 <= j < w ==> !At(roi, k, j)
    ensures forall i, j :: 0 <= i <= k && 0 <= j < w && At(roi, i, j) ==> Val(s, i, j) in top + last
    ensures top + last == [] <==> forall i, j :: 0 <= i <= k && 0 <= j < w ==> !At(roi, i, j)
  {
    forall i, j | 0 <= i <= k && 0 <= j < w && At(roi, i, j) ensures Val(s, i, j) in top + last {
      if i < k {
        assert Val(s, i, j) in top;
      } else {
        assert Val(s, i, j) in last;
      }
    }
  }

  /** `scores[roi.astype(bool)]`: the values inside the region of interest. */
  function RoiValues(d: Dims, s: Scores, roi: Mask): (r: seq<real>)
    ensures forall i, j :: InRange(d, i, j) && At(roi, i, j) ==> Val(s, i, j) in r
    ensures r == [] <==> IsEmpty(d, roi)
  {
    RowsValues(s, roi, d.h, d.w)
  }

  /** `cv2.countNonZero` of the pixels of `m` inside rows [y0, y1) and columns [x0, x1). */
  function CountIn(m: Mask, y0: int, y1: int, x0: int, x1: int): (n: nat)
    decreases if y1 > y0 then y1 - y0 else 0
  {
    if y1 <= y0 then 0 else CountIn(m, y0, y1 - 1, x0, x1) + CountRow(m, y1 - 1, x0, x1)
  }

  function CountRow(m: Mask, i: int, x0: int, x1: int): (n: nat)
    ensures n <= if x1 > x0 then x1 - x0 else 0
    decreases if x1 > x0 then x1 - x0 else 0
  {
    if x1 <= x0 then 0 else CountRow(m, i, x0, x1 - 1) + (if At(m, i, x1 - 1) then 1 else 0)
  }
}
