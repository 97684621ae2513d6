/**
 * Sheet-edge detection: of the contours OpenCV finds in the aligned image, the largest is
 * the sheet if it is large enough; its bounding box gives four corners, saved as text one
 * corner per line. Grey conversion, blur, Canny, `findContours`, `contourArea` and
 * `boundingRect` are foreign: their results are inputs.
 */
module SheetMargins {
  import opened Wrappers
  import opened Text
  import opened JsonValues

  const DefaultMinArea: int := 100000

  /** A contour as OpenCV measures it: its area and its bounding rectangle. */
  datatype Outline = Outline(area: real, x: int, y: int, w: int, h: int)

  datatype SheetError =
    | ConfigNotObject  // the configuration file is not a JSON object (no `.get`)
    | NoContours       // "Nenhum contorno encontrado."
    | BadMinArea       // `min_area` is not a number, so the comparison raises
    | TooSmall         // the largest contour is smaller than `min_area`

  /** `config.get("min_area", 100000)` as the number compared; `None` when it is not one. */
  function MinArea(config: map<string, Json>): (r: Option<real>)
    ensures "min_area" !in config ==> r == Some(DefaultMinArea as real)
  {
    if "min_area" !in config then Some(DefaultMinArea as real)
    else match config["min_area"]
      case JInt(i) => Some(i as real)
      case JFloat(x) => Some(x)
      case JBool(b) => Some(if b then 1.0 else 0.0)
      case _ => None
  }

  /** `max(contours, key=contourArea)`: the index of the first contour of largest area. */
  function Largest(cs: seq<Outline>): (k: nat)
    requires cs != []
    ensures k < |cs|
    ensures forall i :: 0 <= i < |cs| ==> cs[i].area <= cs[k].area
    ensures forall i :: 0 <= i < k ==> cs[i].area < cs[k].area
  {
    if |cs| == 1 then 0
    else
      var k := Largest(cs[..|cs| - 1]);
      if cs[|cs| - 1].area > cs[k].area then |cs| - 1 else k
  }

  /** The bounding box's corners, clockwise from the top left. */
  function Corners(o: Outline): (r: seq<(int, int)>)
    ensures |r| == 4
    ensures r[0] == (o.x, o.y) && r[1] == (o.x + o.w, o.y)
    ensures r[2] == (o.x + o.w, o.y + o.h) && r[3] == (o.x, o.y + o.h)
  {
    [(o.x, o.y), (o.x + o.w, o.y), (o.x + o.w, o.y + o.h), (o.x, o.y + o.h)]
  }

  /** `detect_folha_bordas` up to the file it writes: the corners of the sheet, or the
      error it raises. */
  function DetectSheetEdges(config: Json, cs: seq<Outline>): (r: Result<seq<(int, int)>, SheetError>)
    ensures !config.JObject? ==> r == Err(ConfigNotObject)
    ensures config.JObject? && cs == [] ==> r == Err(NoContours)
    ensures config.JObject? && cs != [] && MinArea(config.fields).None? ==> r == Err(BadMinArea)
    ensures r.Ok? ==> config.JObject? && cs != [] && MinArea(config.fields).Some?
    ensures r.Ok? <==> config.JObject? && cs != [] && MinArea(config.fields).Some?
                       && cs[Largest(cs)].area >= MinArea(config.fields).value
    ensures r.Ok? ==> r.value == Corners(cs[Largest(cs)])
  {
    if !config.JObject? then Err(ConfigNotObject)
    else if cs == [] then Err(NoContours)
    else
      var sheet := cs[Largest(cs)];
      match MinArea(config.fields)
      case None => Err(BadMinArea)
      case Some(minArea) =>
        if sheet.area < minArea then Err(TooSmall) else Ok(Corners(sheet))
  }

  /** Adding a contour smaller than the sheet does not change the corners found. */
  lemma SmallerContourIgnored(config: Json, cs: seq<Outline>, o: Outline)
    requires cs != [] && o.area <= cs[Largest(cs)].area
    ensures DetectSheetEdges(config, cs + [o]) == DetectSheetEdges(config, cs)
  {
    assert (cs + [o])[..|cs|] == cs;
  }

  // ---------------------------------------------------------------------------
  // The coordinate file
  // ---------------------------------------------------------------------------

  /** `f"{px},{py}\n"`. */
  function CoordLine(p: (int, int)): string {
    IntToDecimal(p.0) + "," + IntToDecimal(p.1) + "\n"
  }

  /** The text of `mask_coords.txt`: one line per corner, in corner order. */
  function CoordsText(ps: seq<(int, int)>): (s: string)
    ensures ps == [] <==> s == []
  {
    if ps == [] then [] else CoordLine(ps[0]) + CoordsText(ps[1..])
  }

  /** Reads one line back: two integers separated by the first comma. */
  function ParsePair(line: string): Option<(int, int)> {
    var j := IndexOf(line, ',');
    if j == |line| then None
    else match (ParseInt(line[..j]), ParseInt(line[j + 1..]))
      case (Some(x), Some(y)) => Some((x, y))
      case _ => None
  }

  /** Reads the text back: lines of two comma-separated integers, each ended by a newline. */
  function ParseCoords(s: string): (r: Option<seq<(int, int)>>)
    decreases |s|
  {
    if s == [] then Some([])
    else
      var k := IndexOf(s, '\n');
      if k == |s| then None
      else match (ParsePair(s[..k]), ParseCoords(s[k + 1..]))
        case (Some(p), Some(rest)) => Some([p] + rest)
        case _ => None
  }

  /** A decimal numeral has no comma and no newline. */
  lemma DecimalHasNoSeparator(i: int)
    ensures forall k :: 0 <= k < |IntToDecimal(i)| ==> IntToDecimal(i)[k] != ',' && IntToDecimal(i)[k] != '\n'
  {
    if i < 0 {
      assert forall k :: 1 <= k < |IntToDecimal(i)| ==> IntToDecimal(i)[k] == NatToDecimal(-i)[k - 1];
    }
  }

  lemma {:induction false} IndexOfAfter(a: string, b: string, c: char)
    requires forall k :: 0 <= k < |a| ==> a[k] != c
    ensures IndexOf(a + b, c) == |a| + IndexOf(b, c)
  {
    if a == [] {
      assert a + b == b;
    } else {
      assert (a + b)[0] == a[0];
      IndexOfAfter(a[1..], b, c);
      assert (a + b)[1..] == a[1..] + b;
    }
  }

  /** The first comma of "x,y" is the one written between the two numerals. */
  lemma CommaSplits(x: int, y: int)
    ensures var line := IntToDecimal(x) + "," + IntToDecimal(y);
            var j := IndexOf(line, ',');
            j == |IntToDecimal(x)| && line[..j] == IntToDecimal(x) && line[j + 1..] == IntToDecimal(y)
  {
    var a, b := IntToDecimal(x), IntToDecimal(y);
    DecimalHasNoSeparator(x);
    assert a + "," + b == a + ("," + b);
    IndexOfAfter(a, "," + b, ',');
  }

  /** The first newline of a written line followed by more text ends that line. */
  lemma NewlineSplits(p: (int, int), rest: string)
    ensures var s := CoordLine(p) + rest;
            var k := IndexOf(s, '\n');
            var line := IntToDecimal(p.0) + "," + IntToDecimal(p.1);
            k == |line| && s[..k] == line && s[k + 1..] == rest
  {
    var a, b := IntToDecimal(p.0), IntToDecimal(p.1);
    DecimalHasNoSeparator(p.0);
    DecimalHasNoSeparator(p.1);
    var line := a + "," + b;
    assert forall k :: 0 <= k < |line| ==> line[k] != '\n' by {
      forall k | 0 <= k < |line| ensures line[k] != '\n' {
        if k < |a| { assert line[k] == a[k]; }
        else if k > |a| { assert line[k] == b[k - |a| - 1]; }
      }
    }
    var s := CoordLine(p) + rest;
    assert s == line + ("\n" + rest);
    IndexOfAfter(line, "\n" + rest, '\n');
  }

  /** A written pair reads back as itself. */
  lemma PairRoundTrip(p: (int, int))
    ensures ParsePair(IntToDecimal(p.0) + "," + IntToDecimal(p.1)) == Some(p)
  {
    CommaSplits(p.0, p.1);
    ParseIntRoundTrip(p.0);
    ParseIntRoundTrip(p.1);
  }

  /** Reading a written line, then the rest. */
  lemma ParseLine(p: (int, int), rest: string)
    ensures ParseCoords(CoordLine(p) + rest) ==
            if ParseCoords(rest).Some? then Some([p] + ParseCoords(rest).value) else None
  {
    NewlineSplits(p, rest);
    PairRoundTrip(p);
  }

  /** The saved file reads back as exactly the corners written, in order. */
  lemma {:induction false} CoordsRoundTrip(ps: seq<(int, int)>)
    ensures ParseCoords(CoordsText(ps)) == Some(ps)
  {
    if ps != [] {
      var rest := CoordsText(ps[1..]);
      calc {
        ParseCoords(CoordsText(ps));
        ParseCoords(CoordLine(ps[0]) + rest);
        { ParseLine(ps[0], rest); CoordsRoundTrip(ps[1..]); }
        Some([ps[0]] + ps[1..]);
        { assert [ps[0]] + ps[1..] == ps; }
        Some(ps);
      }
    }
  }
}
