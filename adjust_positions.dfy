/**
 * The layout logic of the position-adjustment window: grouping the detected cans into rows,
 * the horizontal guide lines and their initial positions, and numbering the cans line by
 * line. Detection (YOLO) and drawing are foreign; the can polygons are inputs.
 */
module AdjustPositions {
  import opened Wrappers
  import opened Clamps
  import Sorting

  /** A polygon vertex, in image pixels. */
  type Vertex = (int, int)

  datatype Centre = Centre(cx: int, cy: int)

  // ---------------------------------------------------------------------------
  // Centres
  // ---------------------------------------------------------------------------

  function SumX(poly: seq<Vertex>): int {
    if poly == [] then 0 else SumX(poly[..|poly| - 1]) + poly[|poly| - 1].0
  }

  function SumY(poly: seq<Vertex>): int {
    if poly == [] then 0 else SumY(poly[..|poly| - 1]) + poly[|poly| - 1].1
  }

  /** `(int(mean(xs)), int(mean(ys)))`; `None` for a polygon without vertices, on which
      numpy's column indexing raises. */
  function CentreOf(poly: seq<Vertex>): (r: Option<Centre>)
    ensures r.None? <==> poly == []
  {
    if poly == [] then None
    else Some(Centre(Trunc(SumX(poly) as real / |poly| as real), Trunc(SumY(poly) as real / |poly| as real)))
  }

  /** The centre of every polygon, in order; `None` when one of them has no vertex. */
  function Centres(polys: seq<seq<Vertex>>): (r: Option<seq<Centre>>)
    ensures r.None? <==> exists i :: 0 <= i < |polys| && polys[i] == []
    ensures r.Some? ==> |r.value| == |polys| && forall i :: 0 <= i < |polys| ==> Some(r.value[i]) == CentreOf(polys[i])
  {
    if forall i :: 0 <= i < |polys| ==> polys[i] != [] then
      Some(seq(|polys|, i requires 0 <= i < |polys| => CentreOf(polys[i]).value))
    else None
  }

  // ---------------------------------------------------------------------------
  // Sequences of rows
  // ---------------------------------------------------------------------------

  /** The rows one after the other. */
  function Flatten<T>(rows: seq<seq<T>>): (r: seq<T>) {
    if rows == [] then [] else Flatten(rows[..|rows| - 1]) + rows[|rows| - 1]
  }

  lemma {:induction false} FlattenAppend<T>(rows: seq<seq<T>>, row: seq<T>)
    ensures Flatten(rows + [row]) == Flatten(rows) + row
  {
    assert (rows + [row])[..|rows|] == rows;
  }

  /** Appending `x` to one row adds exactly `x` to the elements. */
  lemma {:induction false} FlattenUpdate<T>(rows: seq<seq<T>>, k: nat, x: T)
    requires k < |rows|
    ensures multiset(Flatten(rows[k := rows[k] + [x]])) == multiset(Flatten(rows)) + multiset{x}
  {
    var n := |rows| - 1;
    var rows' := rows[k := rows[k] + [x]];
    if k == n {
      assert rows'[..n] == rows[..n];
      assert Flatten(rows') == Flatten(rows[..n]) + (rows[n] + [x]);
    } else {
      calc {
        multiset(Flatten(rows'));
        { assert Flatten(rows') == Flatten(rows'[..n]) + rows[n]; }
        multiset(Flatten(rows'[..n])) + multiset(rows[n]);
        { assert rows'[..n] == rows[..n][k := rows[..n][k] + [x]];
          FlattenUpdate(rows[..n], k, x); }
        multiset(Flatten(rows[..n])) + multiset{x} + multiset(rows[n]);
        { assert Flatten(rows) == Flatten(rows[..n]) + rows[n]; }
        multiset(Flatten(rows)) + multiset{x};
      }
    }
  }

  // ---------------------------------------------------------------------------
  // Rows of cans (`detectar_filas_poligonos`)
  // ---------------------------------------------------------------------------

  function SumCy(row: seq<Centre>): int {
    if row == [] then 0 else SumCy(row[..|row| - 1]) + row[|row| - 1].cy
  }

  /** A centre joins a row when its y is strictly closer than `tol` to the row's mean y. */
  predicate Joins(row: seq<Centre>, c: Centre, tol: real) {
    row != [] &&
    var mean := SumCy(row) as real / |row| as real;
    (if c.cy as real >= mean then c.cy as real - mean else mean - c.cy as real) < tol
  }

  /** The first row the centre joins, or |rows| when it joins none. */
  function FirstJoin(rows: seq<seq<Centre>>, c: Centre, tol: real): (k: nat)
    ensures k <= |rows|
    ensures forall i :: 0 <= i < k ==> !Joins(rows[i], c, tol)
    ensures k < |rows| ==> Joins(rows[k], c, tol)
  {
    if rows == [] || Joins(rows[0], c, tol) then 0 else 1 + FirstJoin(rows[1..], c, tol)
  }

  /** One step of the grouping: join the first close row, or start a new row. */
  function Place(rows: seq<seq<Centre>>, c: Centre, tol: real): (r: seq<seq<Centre>>)
    ensures multiset(Flatten(r)) == multiset(Flatten(rows)) + multiset{c}
    ensures |r| == |rows| || |r| == |rows| + 1
  {
    var k := FirstJoin(rows, c, tol);
    if k < |rows| then
      FlattenUpdate(rows, k, c);
      rows[k := rows[k] + [c]]
    else
      FlattenAppend(rows, [c]);
      rows + [[c]]
  }

  /** The grouping of centres taken in the given order. */
  function Group(cs: seq<Centre>, tol: real): seq<seq<Centre>> {
    if cs == [] then [] else Place(Group(cs[..|cs| - 1], tol), cs[|cs| - 1], tol)
  }

  function ByCy(a: Centre, b: Centre): bool { a.cy <= b.cy }
  function ByCx(a: Centre, b: Centre): bool { a.cx <= b.cx }

  lemma OrdersTotal()
    ensures Sorting.TotalPreorder(ByCy) && Sorting.TotalPreorder(ByCx)
  {
  }

  /** Every row sorted by x (`fila.sort(key=cx)`). */
  function SortEach(rows: seq<seq<Centre>>): (r: seq<seq<Centre>>)
    ensures |r| == |rows|
    ensures forall i :: 0 <= i < |rows| ==> r[i] == Sorting.SortBy(rows[i], ByCx)
  {
    seq(|rows|, i requires 0 <= i < |rows| => Sorting.SortBy(rows[i], ByCx))
  }

  /** The rows `detectar_filas_poligonos` returns for the given centres. */
  function Rows(cs: seq<Centre>, tol: real): seq<seq<Centre>> {
    SortEach(Group(Sorting.SortBy(cs, ByCy), tol))
  }

  /** Grouping loses and duplicates nothing, and never makes an empty row. */
  lemma GroupPartitions(cs: seq<Centre>, tol: real)
    ensures multiset(Flatten(Group(cs, tol))) == multiset(cs)
    ensures forall i :: 0 <= i < |Group(cs, tol)| ==> Group(cs, tol)[i] != []
  {
    GroupKeeps(cs, tol);
    GroupNonEmpty(cs, tol);
  }

  lemma {:induction false} GroupKeeps(cs: seq<Centre>, tol: real)
    ensures multiset(Flatten(Group(cs, tol))) == multiset(cs)
  {
    if cs != [] {
      var n := |cs| - 1;
      GroupKeeps(cs[..n], tol);
      assert Group(cs, tol) == Place(Group(cs[..n], tol), cs[n], tol);
      assert cs == cs[..n] + [cs[n]];
    }
  }

  lemma {:induction false} GroupNonEmpty(cs: seq<Centre>, tol: real)
    ensures forall i :: 0 <= i < |Group(cs, tol)| ==> Group(cs, tol)[i] != []
  {
    if cs != [] {
      var n := |cs| - 1;
      GroupNonEmpty(cs[..n], tol);
      PlaceNonEmpty(Group(cs[..n], tol), cs[n], tol);
    }
  }

  /** A grouping step never leaves an empty row behind. */
  lemma PlaceNonEmpty(rows: seq<seq<Centre>>, c: Centre, tol: real)
    requires forall i :: 0 <= i < |rows| ==> rows[i] != []
    ensures forall i :: 0 <= i < |Place(rows, c, tol)| ==> Place(rows, c, tol)[i] != []
  {
  }

  lemma {:induction false} SortEachPreserves(rows: seq<seq<Centre>>)
    ensures multiset(Flatten(SortEach(rows))) == multiset(Flatten(rows))
  {
    if rows != [] {
      var n := |rows| - 1;
      SortEachPreserves(rows[..n]);
      assert SortEach(rows)[..n] == SortEach(rows[..n]);
    }
  }

  /** Every centre lands in exactly one row (the rows together are a permutation of the
      centres, so the count is preserved), no row is empty, and each row is ordered by x. */
  lemma RowsPartition(cs: seq<Centre>, tol: real)
    ensures multiset(Flatten(Rows(cs, tol))) == multiset(cs)
    ensures forall i :: 0 <= i < |Rows(cs, tol)| ==>
              Rows(cs, tol)[i] != [] && Sorting.SortedBy(Rows(cs, tol)[i], ByCx)
  {
    var sorted := Sorting.SortBy(cs, ByCy);
    var g := Group(sorted, tol);
    GroupPartitions(sorted, tol);
    SortEachPreserves(g);
    OrdersTotal();
    forall i | 0 <= i < |g| ensures Rows(cs, tol)[i] != [] && Sorting.SortedBy(Rows(cs, tol)[i], ByCx) {
      Sorting.SortBySorted(g[i], ByCx);
      assert |Sorting.SortBy(g[i], ByCx)| == |g[i]|;
    }
  }

  /** The centres are visited in ascending y. */
  lemma VisitOrder(cs: seq<Centre>)
    ensures Sorting.SortedBy(Sorting.SortBy(cs, ByCy), ByCy)
    ensures multiset(Sorting.SortBy(cs, ByCy)) == multiset(cs)
  {
    OrdersTotal();
    Sorting.SortBySorted(cs, ByCy);
  }

  /** The centre of every polygon (the list comprehension of `detectar_filas_poligonos`). */
  method ComputeCentres(polys: seq<seq<Vertex>>) returns (centres: Option<seq<Centre>>)
    ensures centres == Centres(polys)
  {
    var cs: seq<Centre> := [];
    var i := 0;
    while i < |polys|
      invariant 0 <= i <= |polys|
      invariant |cs| == i
      invariant forall j :: 0 <= j < i ==> Some(cs[j]) == CentreOf(polys[j])
    {
      var c := CentreOf(polys[i]);
      if c.None? {
        return None;
      }
      cs := cs + [c.value];
      i := i + 1;
    }
    assert Centres(polys).value == cs;
    centres := Some(cs);
  }

  /** One centre of the grouping loop: the first row whose mean y is within the tolerance
      takes it, otherwise it opens a new row. */
  method JoinOrOpen(filas: seq<seq<Centre>>, c: Centre, tol: real) returns (r: seq<seq<Centre>>)
    ensures r == Place(filas, c, tol)
  {
    var k := 0;
    while k < |filas| && !Joins(filas[k], c, tol)
      invariant 0 <= k <= |filas|
      invariant forall m :: 0 <= m < k ==> !Joins(filas[m], c, tol)
    {
      k := k + 1;
    }
    assert k == FirstJoin(filas, c, tol);
    if k < |filas| {
      r := filas[k := filas[k] + [c]];
    } else {
      r := filas + [[c]];
    }
  }

  lemma GroupStep(cs: seq<Centre>, j: nat, tol: real)
    requires j < |cs|
    ensures Group(cs[..j + 1], tol) == Place(Group(cs[..j], tol), cs[j], tol)
  {
    assert cs[..j + 1][..j] == cs[..j];
  }

  /** The grouping loop over the centres in the given order. */
  method GroupRows(sorted: seq<Centre>, tol: real) returns (filas: seq<seq<Centre>>)
    ensures filas == Group(sorted, tol)
  {
    filas := [];
    var j := 0;
    while j < |sorted|
      invariant 0 <= j <= |sorted|
      invariant filas == Group(sorted[..j], tol)
    {
      filas := JoinOrOpen(filas, sorted[j], tol);
      GroupStep(sorted, j, tol);
      j := j + 1;
    }
    assert sorted[..j] == sorted;
  }

  /** `fila.sort(key=cx)` for every row, in place. */
  method SortRows(grouped: seq<seq<Centre>>) returns (filas: seq<seq<Centre>>)
    ensures filas == SortEach(grouped)
  {
    filas := grouped;
    var r := 0;
    while r < |filas|
      invariant 0 <= r <= |filas| && |filas| == |grouped|
      invariant forall m :: 0 <= m < r ==> filas[m] == Sorting.SortBy(grouped[m], ByCx)
      invariant forall m :: r <= m < |filas| ==> filas[m] == grouped[m]
    {
      filas := filas[r := Sorting.SortBy(filas[r], ByCx)];
      r := r + 1;
    }
  }

  /** `detectar_filas_poligonos(polygons, tolerancia_y)`; `None` when a polygon has no
      vertex. */
  method DetectRows(polys: seq<seq<Vertex>>, tol: real) returns (rows: Option<seq<seq<Centre>>>)
    ensures rows.None? <==> Centres(polys).None?
    ensures rows.Some? ==> rows.value == Rows(Centres(polys).value, tol)
  {
    var centres := ComputeCentres(polys);
    if centres.None? {
      return None;
    }
    var grouped := GroupRows(Sorting.SortBy(centres.value, ByCy), tol);
    var filas := SortRows(grouped);
    rows := Some(filas);
  }

  // ---------------------------------------------------------------------------
  // Guide lines and numbering
  // ---------------------------------------------------------------------------

  /** The initial height of guide line `i` of `n`: `int(H * (n - i) / (n + 1))`. */
  function InitialLine(h: nat, n: nat, i: nat): (y: int)
    requires i < n
    ensures 0 <= y <= h
  {
    DivBound(h, n - i, n + 1);
    (h * (n - i)) / (n + 1)
  }

  /** The lines start evenly spaced from the bottom up: later lines are never lower, and
      strictly higher once the image has at least n + 1 rows of pixels. */
  lemma InitialLinesOrdered(h: nat, n: nat, i: nat, j: nat)
    requires i < j < n
    ensures InitialLine(h, n, j) <= InitialLine(h, n, i)
    ensures h >= n + 1 ==> InitialLine(h, n, j) < InitialLine(h, n, i)
  {
    var a := h * (n - i);
    var b := h * (n - j);
    MulLe(h, 0, n - j);
    MulLe(h, n - j + 1, n - i);
    assert h * (n - j + 1) == b + h;
    DivMonotone(b, a, n + 1);
    if h >= n + 1 {
      DivStep(b, a, n + 1);
    }
  }

  lemma {:induction false} MulLe(d: nat, x: int, y: int)
    requires x <= y
    ensures d * x <= d * y
    decreases y - x
  {
    if x < y {
      MulLe(d, x, y - 1);
      assert d * y == d * (y - 1) + d;
    }
  }

  lemma DivMonotone(b: int, a: int, d: int)
    requires 0 <= b <= a && d > 0
    ensures b / d <= a / d
  {
    var qb, qa := b / d, a / d;
    if qb > qa {
      MulLe(d, qa + 1, qb);
    }
  }

  lemma DivLower(a: int, d: int, k: int)
    requires d > 0 && d * k <= a
    ensures k <= a / d
  {
    var q := a / d;
    if q < k {
      MulLe(d, q + 1, k);
    }
  }

  lemma DivStep(b: int, a: int, d: int)
    requires 0 <= b && b + d <= a && d > 0
    ensures b / d < a / d
  {
    var q := b / d;
    assert d * (q + 1) == d * q + d;
    DivLower(a, d, q + 1);
  }

  lemma DivBound(h: nat, m: nat, d: nat)
    requires m < d
    ensures 0 <= (h * m) / d <= h
  {
    MulLe(h, m, d);
    MulLe(h, 0, m);
    DivMonotone(h * m, h * d, d);
    assert h * d == d * h;
    assert (d * h) / d == h;
  }

  /** `min(range(L), key=|cy - y_i|)` over the first n lines: the first nearest line. */
  function NearestLine(lines: seq<int>, cy: int, n: nat): (k: nat)
    requires 1 <= n <= |lines|
    ensures k < n
    ensures forall i :: 0 <= i < n ==> Dist(cy, lines[k]) <= Dist(cy, lines[i])
    ensures forall i :: 0 <= i < k ==> Dist(cy, lines[i]) > Dist(cy, lines[k])
  {
    if n == 1 then 0
    else
      var k := NearestLine(lines, cy, n - 1);
      if Dist(cy, lines[n - 1]) < Dist(cy, lines[k]) then n - 1 else k
  }

  function Dist(a: int, b: int): nat {
    if a >= b then a - b else b - a
  }

  /** A can waiting for its number: its index in the polygon list and its centre. */
  datatype Placed = Placed(index: nat, c: Centre)

  /** The cans with their polygon indices, `enumerate(centros)`. */
  function Indexed(cs: seq<Centre>): (r: seq<Placed>)
    ensures |r| == |cs|
    ensures forall i :: 0 <= i < |cs| ==> r[i] == Placed(i, cs[i])
  {
    seq(|cs|, i requires 0 <= i < |cs| => Placed(i, cs[i]))
  }

  lemma IndexedSnoc(cs: seq<Centre>)
    requires cs != []
    ensures Indexed(cs) == Indexed(cs[..|cs| - 1]) + [Placed(|cs| - 1, cs[|cs| - 1])]
  {
  }

  /** Each centre appended, in order, to the line nearest to it. */
  function Assign(cs: seq<Centre>, lines: seq<int>): (r: seq<seq<Placed>>)
    requires |lines| >= 1
    ensures |r| == |lines|
  {
    if cs == [] then seq(|lines|, _ => [])
    else
      var n := |cs| - 1;
      var prev := Assign(cs[..n], lines);
      var k := NearestLine(lines, cs[n].cy, |lines|);
      prev[k := prev[k] + [Placed(n, cs[n])]]
  }

  /** Every can lands on some line exactly once: the lines together are the indexed cans. */
  lemma {:induction false} AssignPartitions(cs: seq<Centre>, lines: seq<int>)
    requires |lines| >= 1
    ensures multiset(Flatten(Assign(cs, lines))) == multiset(Indexed(cs))
  {
    if cs == [] {
      EmptyFlatten(Assign(cs, lines));
    } else {
      var n := |cs| - 1;
      AssignPartitions(cs[..n], lines);
      FlattenUpdate(Assign(cs[..n], lines), NearestLine(lines, cs[n].cy, |lines|), Placed(n, cs[n]));
      IndexedSnoc(cs);
    }
  }

  /** A can sits on the line nearest to its centre, under its own polygon index. */
  lemma {:induction false} AssignNearest(cs: seq<Centre>, lines: seq<int>, k: nat, p: Placed)
    requires |lines| >= 1 && k < |lines| && p in Assign(cs, lines)[k]
    ensures p.index < |cs| && p.c == cs[p.index]
    ensures k == NearestLine(lines, p.c.cy, |lines|)
  {
    var n := |cs| - 1;
    var prev := Assign(cs[..n], lines);
    if p != Placed(n, cs[n]) || p in prev[k] {
      AssignNearest(cs[..n], lines, k, p);
    }
  }

  lemma {:induction false} EmptyFlatten<T>(rows: seq<seq<T>>)
    requires forall i :: 0 <= i < |rows| ==> rows[i] == []
    ensures Flatten(rows) == []
  {
    if rows != [] {
      EmptyFlatten(rows[..|rows| - 1]);
    }
  }

  function ByPlacedCx(a: Placed, b: Placed): bool { a.c.cx <= b.c.cx }
  /** Python's sort by the key `-cx`. */
  function ByPlacedNegCx(a: Placed, b: Placed): bool { -a.c.cx <= -b.c.cx }

  /** A line's cans ordered by the direction chosen in its combo box. */
  function OrderLine(line: seq<Placed>, direction: string): (r: seq<Placed>)
    ensures |r| == |line| && multiset(r) == multiset(line)
  {
    if direction == "left->right" then Sorting.SortBy(line, ByPlacedCx) else Sorting.SortBy(line, ByPlacedNegCx)
  }

  /** Left to right orders by ascending x; any other direction by descending x. */
  lemma OrderLineSorted(line: seq<Placed>, direction: string)
    ensures direction == "left->right" ==>
              forall i, j :: 0 <= i < j < |line| ==> OrderLine(line, direction)[i].c.cx <= OrderLine(line, direction)[j].c.cx
    ensures direction != "left->right" ==>
              forall i, j :: 0 <= i < j < |line| ==> OrderLine(line, direction)[i].c.cx >= OrderLine(line, direction)[j].c.cx
  {
    assert Sorting.TotalPreorder(ByPlacedCx) && Sorting.TotalPreorder(ByPlacedNegCx);
    Sorting.SortBySorted(line, ByPlacedCx);
    Sorting.SortBySorted(line, ByPlacedNegCx);
  }

  function OrderLines(lines: seq<seq<Placed>>, directions: seq<string>): (r: seq<seq<Placed>>)
    requires |directions| == |lines|
    ensures |r| == |lines|
    ensures forall i :: 0 <= i < |lines| ==> r[i] == OrderLine(lines[i], directions[i])
  {
    seq(|lines|, i requires 0 <= i < |lines| => OrderLine(lines[i], directions[i]))
  }

  lemma {:induction false} OrderLinesPreserves(lines: seq<seq<Placed>>, directions: seq<string>)
    requires |directions| == |lines|
    ensures multiset(Flatten(OrderLines(lines, directions))) == multiset(Flatten(lines))
  {
    if lines != [] {
      var n := |lines| - 1;
      OrderLinesPreserves(lines[..n], directions[..n]);
      assert OrderLines(lines, directions)[..n] == OrderLines(lines[..n], directions[..n]);
    }
  }

  /** A numbered can: `p["numero"]`. */
  datatype Numbered = Numbered(p: Placed, number: int)

  function NumberRow(row: seq<Placed>, start: int): (r: seq<Numbered>)
    ensures |r| == |row|
    ensures forall j :: 0 <= j < |row| ==> r[j] == Numbered(row[j], start + j)
  {
    seq(|row|, j requires 0 <= j < |row| => Numbered(row[j], start + j))
  }

  /** The numbering: consecutive numbers from 1, line by line, in each line's order. */
  function NumberLines(lines: seq<seq<Placed>>): (r: seq<seq<Numbered>>)
    ensures |r| == |lines|
  {
    if lines == [] then []
    else
      var n := |lines| - 1;
      NumberLines(lines[..n]) + [NumberRow(lines[n], 1 + |Flatten(lines[..n])|)]
  }

  /** Read in line order, the numbers are exactly 1, 2, ..., n, each given to the can at that
      position and to no other. */
  lemma {:induction false} NumbersConsecutive(lines: seq<seq<Placed>>)
    ensures |Flatten(NumberLines(lines))| == |Flatten(lines)|
    ensures forall k :: 0 <= k < |Flatten(lines)| ==>
              Flatten(NumberLines(lines))[k] == Numbered(Flatten(lines)[k], k + 1)
  {
    if lines != [] {
      var n := |lines| - 1;
      NumbersConsecutive(lines[..n]);
      var prev := NumberLines(lines[..n]);
      var row := NumberRow(lines[n], 1 + |Flatten(lines[..n])|);
      FlattenAppend(prev, row);
      assert NumberLines(lines)[..n] == prev;
    }
  }

  /** `number_polygons_on_lines` without the drawing: every can is numbered in the line
      nearest to its centre, lines ordered by their direction, numbers running 1..n. */
  function Numbering(cs: seq<Centre>, lines: seq<int>, directions: seq<string>): (r: seq<seq<Numbered>>)
    requires |lines| >= 1 && |directions| == |lines|
    ensures |r| == |lines|
  {
    NumberLines(OrderLines(Assign(cs, lines), directions))
  }

  /** Each can (polygon index) is numbered exactly once, and the numbers are 1..n in line
      order. */
  lemma NumberingComplete(cs: seq<Centre>, lines: seq<int>, directions: seq<string>)
    requires |lines| >= 1 && |directions| == |lines|
    ensures var flat := Flatten(Numbering(cs, lines, directions));
            && |flat| == |cs|
            && (forall k :: 0 <= k < |flat| ==> flat[k].number == k + 1)
            && multiset(seq(|flat|, k requires 0 <= k < |flat| => flat[k].p)) ==
               multiset(Indexed(cs))
  {
    var byLine := Assign(cs, lines);
    var ordered := OrderLines(byLine, directions);
    AssignPartitions(cs, lines);
    OrderLinesPreserves(byLine, directions);
    NumberedInOrder(ordered);
    calc {
      |Flatten(ordered)|;
      |multiset(Flatten(ordered))|;
      |multiset(Indexed(cs))|;
      |cs|;
    }
  }

  /** Numbering keeps the cans in line order and numbers them 1..n. */
  lemma NumberedInOrder(ordered: seq<seq<Placed>>)
    ensures var flat := Flatten(NumberLines(ordered));
            && |flat| == |Flatten(ordered)|
            && (forall k :: 0 <= k < |flat| ==> flat[k].number == k + 1)
            && seq(|flat|, k requires 0 <= k < |flat| => flat[k].p) == Flatten(ordered)
  {
    NumbersConsecutive(ordered);
  }

  /** The numbering loop of one line: the cans get `numero`, `numero + 1`, ... in order. */
  method NumberRowFrom(row: seq<Placed>, numero: int) returns (r: seq<Numbered>)
    ensures r == NumberRow(row, numero)
  {
    r := [];
    var j := 0;
    while j < |row|
      invariant 0 <= j <= |row|
      invariant r == NumberRow(row[..j], numero)
    {
      r := r + [Numbered(row[j], numero + j)];
      j := j + 1;
    }
    assert row[..j] == row;
  }

  lemma NumberLinesStep(lines: seq<seq<Placed>>, i: nat)
    requires i < |lines|
    ensures NumberLines(lines[..i + 1]) == NumberLines(lines[..i]) + [NumberRow(lines[i], 1 + |Flatten(lines[..i])|)]
    ensures |Flatten(lines[..i + 1])| == |Flatten(lines[..i])| + |lines[i]|
  {
    assert lines[..i + 1][..i] == lines[..i];
  }

  /** The numbering loop over all lines, with the running counter `numero` from 1. */
  method NumberInOrder(lines: seq<seq<Placed>>) returns (numbered: seq<seq<Numbered>>)
    ensures numbered == NumberLines(lines)
  {
    numbered := [];
    var numero := 1;
    var i := 0;
    while i < |lines|
      invariant 0 <= i <= |lines|
      invariant numbered == NumberLines(lines[..i])
      invariant numero == 1 + |Flatten(lines[..i])|
    {
      var row := NumberRowFrom(lines[i], numero);
      NumberLinesStep(lines, i);
      numbered := numbered + [row];
      numero := numero + |lines[i]|;
      i := i + 1;
    }
    assert lines[..i] == lines;
  }

  // ---------------------------------------------------------------------------
  // The window's state
  // ---------------------------------------------------------------------------

  /** The entries of each line's direction combo box. */
  const DirectionItems: seq<string> := ["left->right", "right->left"]

  class Window {
    /** `img_size[1]`, the template's height: the range of the line sliders. */
    const height: nat
    /** The can polygons found by the detector. */
    var polygons: seq<seq<Vertex>>
    /** `line_positions_y`. */
    var linePositions: seq<int>
    /** The direction combo box of each line (`line_entries`). */
    var directions: seq<string>
    /** `polygons_numbered`. */
    var polygonsNumbered: seq<seq<Numbered>>

    /** Every line has its combo box, showing one of the two directions. */
    predicate Valid()
      reads this
    {
      && |directions| == |linePositions|
      && forall i :: 0 <= i < |directions| ==> directions[i] in DirectionItems
    }

    constructor (height: nat)
      ensures Valid()
      ensures this.height == height && polygons == [] && linePositions == [] && directions == []
      ensures polygonsNumbered == []
    {
      this.height := height;
      polygons := [];
      linePositions := [];
      directions := [];
      polygonsNumbered := [];
    }

    /** `update_line_entries(n)`: n fresh lines at their initial heights, all left to right. */
    method UpdateLineEntries(n: int)
      modifies this
      ensures Valid()
      ensures |linePositions| == if n < 0 then 0 else n
      ensures forall i :: 0 <= i < |linePositions| ==> linePositions[i] == InitialLine(height, |linePositions|, i)
      ensures forall i :: 0 <= i < |directions| ==> directions[i] == "left->right"
      ensures polygons == old(polygons) && polygonsNumbered == old(polygonsNumbered)
    {
      var count: nat := if n < 0 then 0 else n;
      linePositions := [];
      directions := [];
      var i := 0;
      while i < count
        invariant 0 <= i <= count
        invariant |linePositions| == i && |directions| == i
        invariant forall j :: 0 <= j < i ==> linePositions[j] == InitialLine(height, count, j)
        invariant forall j :: 0 <= j < i ==> directions[j] == "left->right"
        invariant polygons == old(polygons) && polygonsNumbered == old(polygonsNumbered)
      {
        linePositions := linePositions + [InitialLine(height, count, i)];
        directions := directions + ["left->right"];
        i := i + 1;
      }
    }

    /** `update_line_position`: moves an existing line; any other index is ignored. */
    method UpdateLinePosition(index: int, newY: int)
      modifies this
      requires Valid()
      ensures Valid()
      ensures 0 <= index < |old(linePositions)| ==> linePositions == old(linePositions)[index := newY]
      ensures !(0 <= index < |old(linePositions)|) ==> linePositions == old(linePositions)
      ensures directions == old(directions) && polygons == old(polygons)
      ensures polygonsNumbered == old(polygonsNumbered)
    {
      if 0 <= index < |linePositions| {
        linePositions := linePositions[index := newY];
      }
    }

    /** Choosing entry `item` of line `line`'s combo box: the line's direction becomes that
        entry. A combo box has no entry outside its two items and no line outside the list,
        so any other choice changes nothing. */
    method SelectDirection(line: int, item: int)
      modifies this
      requires Valid()
      ensures Valid()
      ensures 0 <= line < |old(directions)| && 0 <= item < |DirectionItems| ==>
                directions == old(directions)[line := DirectionItems[item]]
      ensures !(0 <= line < |old(directions)| && 0 <= item < |DirectionItems|) ==> directions == old(directions)
      ensures linePositions == old(linePositions) && polygons == old(polygons)
      ensures polygonsNumbered == old(polygonsNumbered)
    {
      if 0 <= line < |directions| && 0 <= item < |DirectionItems| {
        directions := directions[line := DirectionItems[item]];
      }
    }

    /** `reset_lines`: no lines, no polygons, no numbering. */
    method ResetLines()
      modifies this
      ensures Valid()
      ensures linePositions == [] && directions == [] && polygons == [] && polygonsNumbered == []
    {
      linePositions := [];
      directions := [];
      polygons := [];
      polygonsNumbered := [];
    }

    /** `number_polygons_on_lines`: nothing happens without polygons or lines; a polygon
        without vertices raises (`ok` false) and changes nothing. */
    method NumberPolygonsOnLines() returns (ok: bool)
      modifies this
      requires Valid()
      ensures Valid()
      ensures polygons == old(polygons) && linePositions == old(linePositions) && directions == old(directions)
      ensures !ok <==> polygons != [] && linePositions != [] && Centres(polygons).None?
      ensures polygons == [] || linePositions == [] || !ok ==> polygonsNumbered == old(polygonsNumbered)
      ensures polygons != [] && linePositions != [] && ok ==>
                polygonsNumbered == Numbering(Centres(polygons).value, linePositions, directions)
    {
      if polygons == [] || linePositions == [] {
        return true;
      }
      var cs := Centres(polygons);
      if cs.None? {
        return false;
      }
      var lines := Assign(cs.value, linePositions);
      var numbered := NumberInOrder(OrderLines(lines, directions));
      polygonsNumbered := numbered;
      ok := true;
    }
  }
}
