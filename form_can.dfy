/**
 * The can-shape window: the user drags a rectangle over the template, OpenCV finds the
 * contours inside it, and the window keeps the round, can-sized ones ranked best first.
 * The user cycles through them and saves the chosen outline centred on its centroid. Image
 * processing (threshold, morphology, `findContours`, area, perimeter, bounding box) is
 * foreign: its results are inputs.
 */
module FormCan {
  import opened Wrappers
  import opened Clamps
  import Sorting

  /** A contour point as OpenCV returns it after rescaling (float32). */
  type FPoint = (real, real)
  type Contour = seq<FPoint>

  /** `np.pi`, to the precision Python prints it. */
  const Pi: real := 3.141592653589793

  const MinArea: real := 2000.0
  const MaxArea: real := 3000000.0
  /** The crop is analysed at half size. */
  const ScaleDown: real := 0.5
  const InitialScale: real := 0.6
  const MinZoom: real := 0.1
  const MaxZoom: real := 5.0

  // ---------------------------------------------------------------------------
  // The drag rectangle
  // ---------------------------------------------------------------------------

  /** `sorted([a, b])` on two integers. */
  function Sorted2(a: int, b: int): (r: (int, int))
    ensures r.0 <= r.1
    ensures multiset{r.0, r.1} == multiset{a, b}
  {
    if a <= b then (a, b) else (b, a)
  }

  /** The crop box in original-image pixels, `(x1, y1, x2, y2)`: the dragged corners put in
      order, then each divided by the zoom and truncated. */
  function CropBox(x1: int, y1: int, x2: int, y2: int, scale: real): (r: (int, int, int, int))
    requires scale > 0.0
  {
    var xs := Sorted2(x1, x2);
    var ys := Sorted2(y1, y2);
    (Trunc(xs.0 as real / scale), Trunc(ys.0 as real / scale),
     Trunc(xs.1 as real / scale), Trunc(ys.1 as real / scale))
  }

  lemma TruncMonotone(a: real, b: real)
    requires a <= b
    ensures Trunc(a) <= Trunc(b)
  {
  }

  lemma DivMonotone(a: real, b: real, s: real)
    requires a <= b && s > 0.0
    ensures a / s <= b / s
  {
    assert b / s - a / s == (b - a) / s;
  }

  /** Whichever way the rectangle was dragged, the crop box has its left edge at or before
      its right edge and its top at or above its bottom. */
  lemma CropBoxOrdered(x1: int, y1: int, x2: int, y2: int, scale: real)
    requires scale > 0.0
    ensures var r := CropBox(x1, y1, x2, y2, scale);
            r.0 <= r.2 && r.1 <= r.3
  {
    var xs := Sorted2(x1, x2);
    var ys := Sorted2(y1, y2);
    DivMonotone(xs.0 as real, xs.1 as real, scale);
    DivMonotone(ys.0 as real, ys.1 as real, scale);
    TruncMonotone(xs.0 as real / scale, xs.1 as real / scale);
    TruncMonotone(ys.0 as real / scale, ys.1 as real / scale);
  }

  // ---------------------------------------------------------------------------
  // Candidates
  // ---------------------------------------------------------------------------

  /** What OpenCV measures of a contour: `contourArea`, `arcLength(closed)` and the
      bounding rectangle's size. */
  datatype Measure = Measure(area: real, perimeter: real, bboxW: int, bboxH: int)

  function Circularity(m: Measure): real
    requires m.perimeter != 0.0
  {
    4.0 * Pi * (m.area / (m.perimeter * m.perimeter))
  }

  /** A contour is a candidate when it is can-sized, has a perimeter and is roughly round. */
  predicate Keep(m: Measure) {
    MinArea <= m.area <= MaxArea && m.perimeter != 0.0 && 0.5 < Circularity(m) < 1.5
  }

  /** Circularity times area plus half the bounding box. */
  function Score(m: Measure): real
    requires m.perimeter != 0.0
  {
    Circularity(m) * m.area + (m.bboxW * m.bboxH) as real * 0.5
  }

  datatype Candidate = Candidate(score: real, cnt: Contour)

  /** `cnt / scale_down`: back from the half-size crop to crop pixels. */
  function Rescale(cnt: Contour): (r: Contour)
    ensures |r| == |cnt|
    ensures forall i :: 0 <= i < |cnt| ==> r[i].0 * ScaleDown == cnt[i].0 && r[i].1 * ScaleDown == cnt[i].1
  {
    seq(|cnt|, i requires 0 <= i < |cnt| => (cnt[i].0 / ScaleDown, cnt[i].1 / ScaleDown))
  }

  function RescaleAll(found: seq<Contour>): (r: seq<Contour>)
    ensures |r| == |found|
    ensures forall i :: 0 <= i < |found| ==> r[i] == Rescale(found[i])
  {
    seq(|found|, i requires 0 <= i < |found| => Rescale(found[i]))
  }

  /** The filter of `process_crop`, in contour order. */
  function Candidates(cs: seq<Contour>, measure: Contour -> Measure): (r: seq<Candidate>)
    ensures |r| <= |cs|
  {
    if cs == [] then []
    else
      var n := |cs| - 1;
      var prev := Candidates(cs[..n], measure);
      var m := measure(cs[n]);
      if Keep(m) then prev + [Candidate(Score(m), cs[n])] else prev
  }

  /** A contour becomes a candidate exactly when it passes the filter, scored by `Score`. */
  lemma {:induction false} CandidatesKeepIff(cs: seq<Contour>, measure: Contour -> Measure)
    ensures forall k :: 0 <= k < |Candidates(cs, measure)| ==>
              var c := Candidates(cs, measure)[k];
              Keep(measure(c.cnt)) && c.score == Score(measure(c.cnt)) && c.cnt in cs
    ensures forall i :: 0 <= i < |cs| && Keep(measure(cs[i])) ==>
              Candidate(Score(measure(cs[i])), cs[i]) in Candidates(cs, measure)
  {
    if cs != [] {
      var n := |cs| - 1;
      CandidatesKeepIff(cs[..n], measure);
      assert cs == cs[..n] + [cs[n]];
    }
  }

  lemma CandidatesStep(cs: seq<Contour>, i: nat, measure: Contour -> Measure)
    requires i < |cs|
    ensures Candidates(cs[..i + 1], measure) ==
            if Keep(measure(cs[i])) then Candidates(cs[..i], measure) + [Candidate(Score(measure(cs[i])), cs[i])]
            else Candidates(cs[..i], measure)
  {
    assert cs[..i + 1][..i] == cs[..i];
  }

  /** The filter loop: out-of-range areas and zero perimeters are skipped before the
      circularity is computed. */
  method FilterCandidates(cs: seq<Contour>, measure: Contour -> Measure) returns (cands: seq<Candidate>)
    ensures cands == Candidates(cs, measure)
  {
    cands := [];
    var i := 0;
    while i < |cs|
      invariant 0 <= i <= |cs|
      invariant cands == Candidates(cs[..i], measure)
    {
      CandidatesStep(cs, i, measure);
      var m := measure(cs[i]);
      if m.area < MinArea || m.area > MaxArea {
        i := i + 1;
        continue;
      }
      if m.perimeter == 0.0 {
        i := i + 1;
        continue;
      }
      var circularity := Circularity(m);
      var score := circularity * m.area + (m.bboxW * m.bboxH) as real * 0.5;
      assert score == Score(m);
      assert Keep(m) <==> 0.5 < circularity < 1.5;
      if 0.5 < circularity < 1.5 {
        cands := cands + [Candidate(score, cs[i])];
      }
      i := i + 1;
    }
    assert cs[..i] == cs;
  }

  /** `sort(key=score, reverse=True)`: best first, ties in their original order. */
  function ByScoreDesc(a: Candidate, b: Candidate): bool {
    a.score >= b.score
  }

  function ContoursOf(cands: seq<Candidate>): (r: seq<Contour>)
    ensures |r| == |cands|
    ensures forall k :: 0 <= k < |cands| ==> r[k] == cands[k].cnt
  {
    seq(|cands|, k requires 0 <= k < |cands| => cands[k].cnt)
  }

  /** `contours_sorted`: the candidates' contours, best score first. */
  function Ranked(cands: seq<Candidate>): (r: seq<Contour>)
    ensures |r| == |cands|
  {
    ContoursOf(Sorting.SortBy(cands, ByScoreDesc))
  }

  /** The ranking keeps every candidate once and puts higher scores first. */
  lemma RankedBestFirst(cands: seq<Candidate>)
    ensures var sorted := Sorting.SortBy(cands, ByScoreDesc);
            && multiset(sorted) == multiset(cands)
            && (forall i, j :: 0 <= i < j < |sorted| ==> sorted[i].score >= sorted[j].score)
            && Ranked(cands) == ContoursOf(sorted)
  {
    assert Sorting.TotalPreorder(ByScoreDesc);
    Sorting.SortBySorted(cands, ByScoreDesc);
  }

  // ---------------------------------------------------------------------------
  // Outline points and the saved shape
  // ---------------------------------------------------------------------------

  /** `pontos` of `_desenhar_contorno_atual`: the contour moved by the crop offset, scaled
      to the zoomed view and truncated, then divided back by the zoom and truncated again. */
  function OutlinePoints(cnt: Contour, ox: int, oy: int, scale: real): (r: seq<(int, int)>)
    requires scale > 0.0
    ensures |r| == |cnt|
  {
    seq(|cnt|, i requires 0 <= i < |cnt| =>
      (Trunc(Trunc((cnt[i].0 + ox as real) * scale) as real / scale),
       Trunc(Trunc((cnt[i].1 + oy as real) * scale) as real / scale)))
  }

  function SumX(ps: seq<(int, int)>): int {
    if ps == [] then 0 else SumX(ps[..|ps| - 1]) + ps[|ps| - 1].0
  }

  function SumY(ps: seq<(int, int)>): int {
    if ps == [] then 0 else SumY(ps[..|ps| - 1]) + ps[|ps| - 1].1
  }

  function SumRX(ps: seq<FPoint>): real {
    if ps == [] then 0.0 else SumRX(ps[..|ps| - 1]) + ps[|ps| - 1].0
  }

  function SumRY(ps: seq<FPoint>): real {
    if ps == [] then 0.0 else SumRY(ps[..|ps| - 1]) + ps[|ps| - 1].1
  }

  function Shift(ps: seq<(int, int)>, cx: real, cy: real): (r: seq<FPoint>)
    ensures |r| == |ps|
    ensures forall i :: 0 <= i < |ps| ==> r[i] == (ps[i].0 as real - cx, ps[i].1 as real - cy)
  {
    seq(|ps|, i requires 0 <= i < |ps| => (ps[i].0 as real - cx, ps[i].1 as real - cy))
  }

  /** `forma_normalizada`: the outline relative to its centroid. */
  function Normalised(ps: seq<(int, int)>): (r: seq<FPoint>)
    requires ps != []
    ensures |r| == |ps|
    ensures forall i :: 0 <= i < |ps| ==>
              r[i] == (ps[i].0 as real - SumX(ps) as real / |ps| as real,
                       ps[i].1 as real - SumY(ps) as real / |ps| as real)
  {
    Shift(ps, SumX(ps) as real / |ps| as real, SumY(ps) as real / |ps| as real)
  }

  lemma {:induction false} ShiftSumX(ps: seq<(int, int)>, cx: real, cy: real)
    ensures SumRX(Shift(ps, cx, cy)) == SumX(ps) as real - |ps| as real * cx
  {
    if ps != [] {
      var n := |ps| - 1;
      ShiftSumX(ps[..n], cx, cy);
      assert Shift(ps, cx, cy)[..n] == Shift(ps[..n], cx, cy);
      assert |ps| as real * cx == n as real * cx + cx;
    }
  }

  lemma {:induction false} ShiftSumY(ps: seq<(int, int)>, cx: real, cy: real)
    ensures SumRY(Shift(ps, cx, cy)) == SumY(ps) as real - |ps| as real * cy
  {
    if ps != [] {
      var n := |ps| - 1;
      ShiftSumY(ps[..n], cx, cy);
      assert Shift(ps, cx, cy)[..n] == Shift(ps[..n], cx, cy);
      assert |ps| as real * cy == n as real * cy + cy;
    }
  }

  /** The saved shape is centred: both coordinate sums are zero. */
  lemma NormalisedCentred(ps: seq<(int, int)>)
    requires ps != []
    ensures SumRX(Normalised(ps)) == 0.0 && SumRY(Normalised(ps)) == 0.0
  {
    var n := |ps| as real;
    var cx, cy := SumX(ps) as real / n, SumY(ps) as real / n;
    ShiftSumX(ps, cx, cy);
    ShiftSumY(ps, cx, cy);
    MeanTimesCount(SumX(ps) as real, n, cx);
    MeanTimesCount(SumY(ps) as real, n, cy);
  }

  lemma MeanTimesCount(sum: real, n: real, mean: real)
    requires n > 0.0 && mean == sum / n
    ensures n * mean == sum
  {
  }

  // ---------------------------------------------------------------------------
  // Zoom
  // ---------------------------------------------------------------------------

  /** `wheelEvent`: zoom in or out by 10%, kept within [0.1, 5.0]. */
  function Zoom(scale: real, up: bool): (r: real)
    ensures MinZoom <= r <= MaxZoom
    ensures up && MinZoom <= scale ==> r >= scale || r == MaxZoom
    ensures !up && scale <= MaxZoom && scale > 0.0 ==> r <= scale || r == MinZoom
  {
    ClampReal(if up then scale * 1.1 else scale / 1.1, MinZoom, MaxZoom)
  }

  // ---------------------------------------------------------------------------
  // The window's state
  // ---------------------------------------------------------------------------

  class FormCanCreator {
    var scaleFactor: real
    /** `contours_sorted`. */
    var contoursSorted: seq<Contour>
    /** `current_contour_index`. */
    var index: nat
    /** `(last_x_offset, last_y_offset)`: the crop's corner in the original image. */
    var lastOffset: (int, int)
    /** `selection_rect`. */
    var selection: Option<(int, int, int, int)>
    /** `pontos`: the outline of the shown contour, in original-image pixels. */
    var pontos: seq<(int, int)>
    /** The shape written to `forma_base.json`. */
    var saved: Option<seq<FPoint>>
    var closed: bool

    /** The zoom stays within its bounds and the index always names a contour. */
    predicate Valid()
      reads this
    {
      MinZoom <= scaleFactor <= MaxZoom && (contoursSorted != [] ==> index < |contoursSorted|)
    }

    constructor ()
      ensures Valid()
      ensures scaleFactor == InitialScale && contoursSorted == [] && index == 0
      ensures selection.None? && pontos == [] && saved.None? && !closed
    {
      scaleFactor := InitialScale;
      contoursSorted := [];
      index := 0;
      lastOffset := (0, 0);
      selection := None;
      pontos := [];
      saved := None;
      closed := false;
    }

    method WheelEvent(up: bool)
      modifies this
      requires Valid()
      ensures Valid()
      ensures scaleFactor == Zoom(old(scaleFactor), up)
      ensures contoursSorted == old(contoursSorted) && index == old(index) && pontos == old(pontos)
      ensures lastOffset == old(lastOffset) && selection == old(selection)
      ensures saved == old(saved) && closed == old(closed)
    {
      scaleFactor := Zoom(scaleFactor, up);
    }

    /** `process_crop`: `found` are the contours OpenCV finds in the half-size crop and
        `measure` what it measures of a contour. Without contours, or without a candidate,
        nothing changes (`ok` false); otherwise the ranked candidates replace the previous
        ones and the best is shown. */
    method ProcessCrop(x1: int, y1: int, x2: int, y2: int, found: seq<Contour>,
                       measure: Contour -> Measure) returns (ok: bool)
      modifies this
      requires Valid()
      ensures Valid()
      ensures var cands := Candidates(RescaleAll(found), measure);
              var box := CropBox(x1, y1, x2, y2, old(scaleFactor));
              && (ok <==> cands != [])
              && (ok ==> contoursSorted == Ranked(cands) && index == 0
                         && lastOffset == (box.0, box.1) && selection == Some(box)
                         && pontos == OutlinePoints(contoursSorted[0], box.0, box.1, scaleFactor))
      ensures !ok ==> contoursSorted == old(contoursSorted) && index == old(index) && pontos == old(pontos)
                      && lastOffset == old(lastOffset) && selection == old(selection)
      ensures scaleFactor == old(scaleFactor) && saved == old(saved) && closed == old(closed)
    {
      var box := CropBox(x1, y1, x2, y2, scaleFactor);
      if found == [] {
        assert RescaleAll(found) == [];
        return false;
      }
      var cands := FilterCandidates(RescaleAll(found), measure);
      if cands == [] {
        return false;
      }
      ShowRanked(Ranked(cands), box);
      ok := true;
    }

    /** The end of `process_crop`: the ranked contours replace the previous ones and the
        first is drawn at the crop's offset. */
    method ShowRanked(ranked: seq<Contour>, box: (int, int, int, int))
      modifies this
      requires Valid() && ranked != []
      ensures Valid()
      ensures contoursSorted == ranked && index == 0
      ensures lastOffset == (box.0, box.1) && selection == Some(box)
      ensures pontos == OutlinePoints(ranked[0], box.0, box.1, scaleFactor)
      ensures scaleFactor == old(scaleFactor) && saved == old(saved) && closed == old(closed)
    {
      contoursSorted := ranked;
      index := 0;
      lastOffset := (box.0, box.1);
      selection := Some(box);
      pontos := OutlinePoints(ranked[0], box.0, box.1, scaleFactor);
    }

    /** `mostrar_proximo_contorno`: the next candidate, wrapping to the first after the last;
        nothing without candidates. */
    method ShowNextContour()
      modifies this
      requires Valid()
      ensures Valid()
      ensures contoursSorted == old(contoursSorted) && scaleFactor == old(scaleFactor)
      ensures old(contoursSorted) == [] ==> index == old(index) && pontos == old(pontos)
      ensures old(contoursSorted) != [] ==>
                index == Step(|old(contoursSorted)|, old(index), 1)
                && pontos == OutlinePoints(contoursSorted[index], lastOffset.0, lastOffset.1, scaleFactor)
      ensures lastOffset == old(lastOffset) && selection == old(selection)
      ensures saved == old(saved) && closed == old(closed)
    {
      if contoursSorted == [] {
        return;
      }
      index := index + 1;
      if index >= |contoursSorted| {
        index := 0;
      }
      pontos := OutlinePoints(contoursSorted[index], lastOffset.0, lastOffset.1, scaleFactor);
    }

    /** `guardar_forma`: refuses an outline of fewer than 3 points; otherwise saves it
        centred on its centroid and closes the window. */
    method SaveShape() returns (ok: bool)
      modifies this
      requires Valid()
      ensures Valid()
      ensures ok <==> |old(pontos)| >= 3
      ensures ok ==> saved == Some(Normalised(old(pontos))) && closed
      ensures !ok ==> saved == old(saved) && closed == old(closed)
      ensures pontos == old(pontos) && contoursSorted == old(contoursSorted) && index == old(index)
      ensures scaleFactor == old(scaleFactor) && lastOffset == old(lastOffset) && selection == old(selection)
    {
      if |pontos| < 3 {
        return false;
      }
      saved := Some(Normalised(pontos));
      closed := true;
      ok := true;
    }
  }

  /** The index after k presses of "next" from `start` among n candidates. */
  function Step(n: nat, start: nat, k: nat): (r: nat)
    requires start < n
    ensures r < n
  {
    if k == 0 then start
    else var i := Step(n, start, k - 1) + 1; if i >= n then 0 else i
  }

  /** "Next" is a rotation: within one round it moves k places forward, wrapping once past
      the end, and n presses among n candidates come back to the one shown first. */
  lemma {:induction false} CycleReturns(n: nat, start: nat, k: nat)
    requires start < n && k <= n
    ensures Step(n, start, k) == if start + k < n then start + k else start + k - n
    ensures Step(n, start, n) == start
  {
    StepWithinRound(n, start, k);
    StepWithinRound(n, start, n);
  }

  lemma {:induction false} StepWithinRound(n: nat, start: nat, k: nat)
    requires start < n && k <= n
    ensures Step(n, start, k) == if start + k < n then start + k else start + k - n
  {
    if k > 0 {
      StepWithinRound(n, start, k - 1);
    }
  }
}
