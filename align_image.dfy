/**
 * The match selection of `align_with_template`: the configuration it reads, the errors it
 * raises, the best fraction of the matches it keeps (never fewer than four), and the
 * rescaling of the matched points to full resolution. ORB, the brute-force matcher, RANSAC
 * and the warp are foreign: their results are inputs.
 */
module AlignImage {
  import opened Wrappers
  import opened Clamps
  import opened JsonValues
  import opened Text
  import Sorting

  /** A `cv2.DMatch`: indices of the template and current keypoints, and the Hamming distance. */
  datatype Match = Match(queryIdx: nat, trainIdx: nat, distance: real)

  datatype Point = Point(x: real, y: real)

  datatype AlignError =
    | ConfigNotObject   // the configuration file is not a JSON object (no `.get`)
    | BadScale          // `cv2.resize` refuses a scale that is not positive
    | NoDescriptors     // ORB found no descriptor in one of the images
    | NoMatches         // the matcher returned nothing
    | BadPercent        // `good_match_percent` is not a number
    | TooFewMatches     // fewer than 4 matches kept
    | BadKeypointIndex  // a match refers to a keypoint that does not exist
    | HomographyFailed  // RANSAC found no homography

  const DefaultMaxFeatures: int := 1000
  const DefaultGoodMatchPercent: real := 0.2
  const DefaultResizeScale: real := 0.5
  /** The module-level ORB detector's feature budget; `max_features` does not change it. */
  const OrbFeatures: int := 1500

  /** `config.get("good_match_percent", 0.2)`: the saved value, of whatever type. */
  function GoodMatchPercent(config: map<string, Json>): (r: Json)
    ensures "good_match_percent" !in config ==> r == JFloat(DefaultGoodMatchPercent)
    ensures "good_match_percent" in config ==> r == config["good_match_percent"]
  {
    if "good_match_percent" in config then config["good_match_percent"] else JFloat(DefaultGoodMatchPercent)
  }

  /** `int(n * pct)`: a number is multiplied (a boolean counts as 0 or 1), a string is
      repeated `n` times and then parsed, anything else raises (`None`). */
  function Product(n: nat, pct: Json): (r: Option<int>)
    ensures r.None? <==> (pct.JStr? && ParseInt(Repeat(pct.s, n)).None?)
                         || !(pct.JInt? || pct.JFloat? || pct.JBool? || pct.JStr?)
    ensures pct.JInt? ==> r == Some(n * pct.i)
    ensures pct.JBool? ==> r == Some(if pct.b then n else 0)
    ensures pct.JFloat? && n as real * pct.x >= 0.0 ==>
              r.value as real <= n as real * pct.x < r.value as real + 1.0
    ensures pct.JFloat? && n as real * pct.x < 0.0 ==>
              r.value as real - 1.0 < n as real * pct.x <= r.value as real
    ensures pct.JStr? ==> r == ParseInt(Repeat(pct.s, n))
  {
    if pct.JInt? then Some(n * pct.i)
    else if pct.JFloat? then Some(Trunc(n as real * pct.x))
    else if pct.JBool? then Some(if pct.b then n else 0)
    else if pct.JStr? then ParseInt(Repeat(pct.s, n))
    else None
  }

  /** `max(4, int(n * pct))`; `None` when `int(n * pct)` raises. */
  function NumGood(n: nat, pct: Json): (k: Option<int>)
    ensures k.None? <==> Product(n, pct).None?
    ensures k.Some? ==> k.value >= 4 && k.value >= Product(n, pct).value
    ensures k.Some? && Product(n, pct).value >= 4 ==> k.value == Product(n, pct).value
    ensures k.Some? && Product(n, pct).value < 4 ==> k.value == 4
    ensures pct.JFloat? && 0.0 <= pct.x && n as real * pct.x >= 4.0 ==>
              k.value as real <= n as real * pct.x < k.value as real + 1.0
  {
    match Product(n, pct)
    case Some(t) => Some(if t > 4 then t else 4)
    case None => None
  }

  function ByDistance(a: Match, b: Match): bool {
    a.distance <= b.distance
  }

  lemma ByDistanceTotal()
    ensures Sorting.TotalPreorder(ByDistance)
  {
  }

  /** `sorted(matches, key=distance)`: a stable sort by ascending distance. */
  function SortedMatches(matches: seq<Match>): (r: seq<Match>)
    ensures |r| == |matches| && multiset(r) == multiset(matches)
  {
    Sorting.SortBy(matches, ByDistance)
  }

  /** Lines 43-51: no matches raise; otherwise the first `numGood` matches of the sorted
      list are kept (all of them when there are fewer), and fewer than 4 raise. `numGood`
      is the count `max(4, int(n * pct))`, so at least 4, and `None` when that raised. */
  function SelectMatches(matches: seq<Match>, numGood: Option<int>): (r: Result<seq<Match>, AlignError>)
    requires numGood.Some? ==> numGood.value >= 4
    ensures matches == [] <==> r == Err(NoMatches)
    ensures matches != [] && numGood.None? ==> r == Err(BadPercent)
    ensures r.Ok? ==> 4 <= |r.value| <= |matches|
    ensures r.Ok? ==> r.value == SortedMatches(matches)[..|r.value|]
    ensures r.Ok? ==> |r.value| == if numGood.value < |matches| then numGood.value else |matches|
  {
    if matches == [] then Err(NoMatches)
    else match numGood
      case None => Err(BadPercent)
      case Some(n) =>
        var sorted := SortedMatches(matches);
        var good := if n < |sorted| then sorted[..n] else sorted;
        if |good| < 4 then Err(TooFewMatches) else Ok(good)
  }

  /** Too few matches are kept exactly when fewer than 4 exist: the floor of 4 means the
      fraction alone never causes this error. */
  lemma TooFewIffFewerThanFour(matches: seq<Match>, pct: Json)
    requires NumGood(|matches|, pct).Some?
    ensures SelectMatches(matches, NumGood(|matches|, pct)) == Err(TooFewMatches) <==> 0 < |matches| < 4
  {
  }

  /** A fraction saved as a string of digits is repeated, not multiplied: unless its digits
      are all zeros, `int()` of the repetition is at least the number of matches, so every
      match is kept. */
  lemma TextPercentKeepsAll(matches: seq<Match>, s: string)
    requires |matches| >= 4 && s != [] && AllDigits(s) && DigitsValue(s) >= 1
    ensures SelectMatches(matches, NumGood(|matches|, JStr(s))) == Ok(SortedMatches(matches))
  {
    var n := |matches|;
    var k := TextCount(s, n);
    SelectKeeps(matches, k);
    assert SortedMatches(matches)[..n] == SortedMatches(matches);
  }

  /** A fraction saved as a string of zeros keeps only the 4 nearest matches. */
  lemma ZeroTextKeepsFour(matches: seq<Match>, s: string)
    requires |matches| >= 4 && s != [] && AllDigits(s) && DigitsValue(s) == 0
    ensures SelectMatches(matches, NumGood(|matches|, JStr(s))) == Ok(SortedMatches(matches)[..4])
  {
    var k := TextCount(s, |matches|);
    SelectKeeps(matches, k);
  }

  /** `max(4, int(s * n))` for a string of digits: at least `n` unless the digits are all
      zeros, and 4 when they are. */
  lemma TextCount(s: string, n: nat) returns (k: int)
    requires n >= 1 && s != [] && AllDigits(s)
    ensures NumGood(n, JStr(s)) == Some(k) && k >= 4
    ensures DigitsValue(s) >= 1 ==> k >= n
    ensures DigitsValue(s) == 0 ==> k == 4
  {
    RepeatDigits(s, n);
    ParseIntDigits(Repeat(s, n));
    assert Product(n, JStr(s)) == Some(DigitsValue(Repeat(s, n)));
    k := NumGood(n, JStr(s)).value;
  }

  /** With `max(4, int(n * pct))` known and at least 4 matches, the selection succeeds
      with that many of the sorted matches (all of them when there are fewer). */
  lemma SelectKeeps(matches: seq<Match>, k: int)
    requires |matches| >= 4 && k >= 4
    ensures SelectMatches(matches, Some(k)) == Ok(SortedMatches(matches)[..if k < |matches| then k else |matches|])
  {
    assert SortedMatches(matches)[..|matches|] == SortedMatches(matches);
  }

  /** No kept match is farther than a dropped one, and kept and dropped matches together
      are exactly the matches. */
  lemma KeptAreNearest(matches: seq<Match>, numGood: Option<int>)
    requires numGood.Some? ==> numGood.value >= 4
    requires SelectMatches(matches, numGood).Ok?
    ensures var kept := SelectMatches(matches, numGood).value;
            var sorted := SortedMatches(matches);
            && (forall i, j :: 0 <= i < |kept| <= j < |sorted| ==> kept[i].distance <= sorted[j].distance)
            && multiset(kept) + multiset(sorted[|kept|..]) == multiset(matches)
            && Sorting.SortedBy(kept, ByDistance)
  {
    var kept := SelectMatches(matches, numGood).value;
    var sorted := SortedMatches(matches);
    ByDistanceTotal();
    Sorting.SortBySorted(matches, ByDistance);
    assert sorted == kept + sorted[|kept|..];
  }

  /** `pts /= resize_scale`: back from the resized images to full resolution. */
  function Rescaled(pts: seq<Point>, scale: real): (r: seq<Point>)
    requires scale > 0.0
    ensures |r| == |pts|
    ensures forall i :: 0 <= i < |pts| ==> r[i].x * scale == pts[i].x && r[i].y * scale == pts[i].y
  {
    seq(|pts|, i requires 0 <= i < |pts| => Point(pts[i].x / scale, pts[i].y / scale))
  }

  /** The keypoints of the kept matches, on the template side and on the current side. */
  function QueryPoints(kpts: seq<Point>, good: seq<Match>): (r: Option<seq<Point>>)
    ensures r.Some? <==> forall i :: 0 <= i < |good| ==> good[i].queryIdx < |kpts|
    ensures r.Some? ==> |r.value| == |good| && forall i :: 0 <= i < |good| ==> r.value[i] == kpts[good[i].queryIdx]
  {
    if forall i :: 0 <= i < |good| ==> good[i].queryIdx < |kpts| then
      Some(seq(|good|, i requires 0 <= i < |good| => kpts[good[i].queryIdx]))
    else None
  }

  function TrainPoints(kpts: seq<Point>, good: seq<Match>): (r: Option<seq<Point>>)
    ensures r.Some? <==> forall i :: 0 <= i < |good| ==> good[i].trainIdx < |kpts|
    ensures r.Some? ==> |r.value| == |good| && forall i :: 0 <= i < |good| ==> r.value[i] == kpts[good[i].trainIdx]
  {
    if forall i :: 0 <= i < |good| ==> good[i].trainIdx < |kpts| then
      Some(seq(|good|, i requires 0 <= i < |good| => kpts[good[i].trainIdx]))
    else None
  }

  /** What ORB and the matcher produced on the resized images (foreign computations):
      descriptors (`None` when ORB found none), keypoints and the cross-checked matches. */
  datatype Features<D> = Features(desc1: Option<D>, desc2: Option<D>, kpts1: seq<Point>, kpts2: seq<Point>)

  /** `align_with_template` up to the homography it returns. `findHomography(src, dst)` is
      RANSAC, `None` when it fails; the warp of the full image with it is left to OpenCV. */
  function AlignWithTemplate<D, H>(config: Json, resizeScale: real, f: Features<D>,
                                   matcher: (D, D) -> seq<Match>,
                                   findHomography: (seq<Point>, seq<Point>) -> Option<H>): (r: Result<H, AlignError>)
    ensures !config.JObject? ==> r == Err(ConfigNotObject)
    ensures config.JObject? && resizeScale <= 0.0 ==> r == Err(BadScale)
    ensures config.JObject? && resizeScale > 0.0 && (f.desc1.None? || f.desc2.None?) ==> r == Err(NoDescriptors)
    ensures r.Ok? ==> resizeScale > 0.0 && f.desc1.Some? && f.desc2.Some?
  {
    if !config.JObject? then Err(ConfigNotObject)
    else if resizeScale <= 0.0 then Err(BadScale)
    else if f.desc1.None? || f.desc2.None? then Err(NoDescriptors)
    else
      var matches := matcher(f.desc1.value, f.desc2.value);
      match SelectMatches(matches, NumGood(|matches|, GoodMatchPercent(config.fields)))
      case Err(e) => Err(e)
      case Ok(good) =>
        var p1 := QueryPoints(f.kpts1, good);
        var p2 := TrainPoints(f.kpts2, good);
        if p1.None? || p2.None? then Err(BadKeypointIndex)
        else match findHomography(Rescaled(p2.value, resizeScale), Rescaled(p1.value, resizeScale))
          case None => Err(HomographyFailed)
          case Some(h) => Ok(h)
  }

  /** A successful alignment is the homography RANSAC fitted from the current-image points to
      the template points of at least 4 best matches, both rescaled to full resolution. */
  lemma AlignUsesBestMatches<D, H>(config: Json, resizeScale: real, f: Features<D>,
                                   matcher: (D, D) -> seq<Match>,
                                   findHomography: (seq<Point>, seq<Point>) -> Option<H>)
    requires AlignWithTemplate(config, resizeScale, f, matcher, findHomography).Ok?
    ensures var matches := matcher(f.desc1.value, f.desc2.value);
            var sel := SelectMatches(matches, NumGood(|matches|, GoodMatchPercent(config.fields)));
            && sel.Ok? && |sel.value| >= 4
            && QueryPoints(f.kpts1, sel.value).Some? && TrainPoints(f.kpts2, sel.value).Some?
            && Some(AlignWithTemplate(config, resizeScale, f, matcher, findHomography).value) ==
               findHomography(Rescaled(TrainPoints(f.kpts2, sel.value).value, resizeScale),
                              Rescaled(QueryPoints(f.kpts1, sel.value).value, resizeScale))
  {
  }

  /** `max_features` is read but has no effect on the result. */
  lemma MaxFeaturesUnused<D, H>(fields: map<string, Json>, v: Json, resizeScale: real, f: Features<D>,
                                matcher: (D, D) -> seq<Match>,
                                findHomography: (seq<Point>, seq<Point>) -> Option<H>)
    ensures AlignWithTemplate(JObject(fields["max_features" := v]), resizeScale, f, matcher, findHomography)
            == AlignWithTemplate(JObject(fields), resizeScale, f, matcher, findHomography)
  {
    assert GoodMatchPercent(fields["max_features" := v]) == GoodMatchPercent(fields);
  }
}
