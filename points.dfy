/** The point pipeline behind the chart: table rows are parsed into points,
    points a logarithmic axis cannot show are dropped, the rest are sorted by x;
    and the values derived from the points: data extremes, the two ends of the
    fit line, the anchor of the equation label and the padded axis bounds. */
module Points {
  import opened Wrappers
  import Regression

  datatype Point = Point(x: real, y: real)

  datatype ScaleType = Linear | Logarithmic

  /** The texts of the cells of one table row. */
  type Row = seq<string>

  // ---------------------------------------------------------------------------
  // Parsing the table. `parse` stands for parseFloat: None is NaN.

  /** A row yields a point iff it has at least two cells and both of the first
      two parse. */
  predicate Parsable(row: Row, parse: string -> Option<real>)
  {
    |row| >= 2 && parse(row[0]).Some? && parse(row[1]).Some?
  }

  function RowPoint(row: Row, parse: string -> Option<real>): Point
    requires Parsable(row, parse)
  {
    Point(parse(row[0]).value, parse(row[1]).value)
  }

  /** What one row contributes: its point, or nothing. */
  function RowPoints(row: Row, parse: string -> Option<real>): seq<Point>
  {
    if Parsable(row, parse) then [RowPoint(row, parse)] else []
  }

  /** The points of all rows, in row order. */
  function ParseRows(rows: seq<Row>, parse: string -> Option<real>): seq<Point>
  {
    if rows == [] then []
    else ParseRows(rows[..|rows| - 1], parse) + RowPoints(rows[|rows| - 1], parse)
  }

  /** The loop over the rows, pushing the point of every usable row. */
  method ParseTable(rows: seq<Row>, parse: string -> Option<real>) returns (points: seq<Point>)
    ensures points == ParseRows(rows, parse)
  {
    points := [];
    var i := 0;
    while i < |rows|
      invariant 0 <= i <= |rows|
      invariant points == ParseRows(rows[..i], parse)
    {
      var row := rows[i];
      assert rows[..i + 1][..i] == rows[..i];
      if |row| >= 2 {
        var x := parse(row[0]);
        var y := parse(row[1]);
        if x.Some? && y.Some? {
          points := points + [Point(x.value, y.value)];
        }
      }
      i := i + 1;
    }
    assert rows[..|rows|] == rows;
  }

  /** Parsing works row by row: the table split in two parses to the two parts' points. */
  lemma {:induction false} ParseRowsAppend(a: seq<Row>, b: seq<Row>, parse: string -> Option<real>)
    ensures ParseRows(a + b, parse) == ParseRows(a, parse) + ParseRows(b, parse)
  {
    if b != [] {
      var b' := b[..|b| - 1];
      assert (a + b)[..|a + b| - 1] == a + b';
      ParseRowsAppend(a, b', parse);
    } else {
      assert a + b == a;
    }
  }

  /** A point is parsed iff some usable row gives it. */
  lemma {:induction false} ParseRowsMembership(rows: seq<Row>, parse: string -> Option<real>, p: Point)
    ensures p in ParseRows(rows, parse) <==>
      exists i :: 0 <= i < |rows| && Parsable(rows[i], parse) && RowPoint(rows[i], parse) == p
  {
    if rows != [] {
      var k := |rows| - 1;
      var front := rows[..k];
      ParseRowsMembership(front, parse, p);
      if p in ParseRows(rows, parse) {
        if p in ParseRows(front, parse) {
          var i :| 0 <= i < |front| && Parsable(front[i], parse) && RowPoint(front[i], parse) == p;
          assert rows[i] == front[i];
        } else {
          assert Parsable(rows[k], parse) && RowPoint(rows[k], parse) == p;
        }
      }
      if exists i :: 0 <= i < |rows| && Parsable(rows[i], parse) && RowPoint(rows[i], parse) == p {
        var i :| 0 <= i < |rows| && Parsable(rows[i], parse) && RowPoint(rows[i], parse) == p;
        if i < k {
          assert front[i] == rows[i];
        }
      }
    }
  }

  /** Every row gives a point iff no row is dropped. */
  lemma {:induction false} ParseRowsLength(rows: seq<Row>, parse: string -> Option<real>)
    ensures |ParseRows(rows, parse)| <= |rows|
    ensures |ParseRows(rows, parse)| == |rows| <==> forall i :: 0 <= i < |rows| ==> Parsable(rows[i], parse)
  {
    if rows != [] {
      var k := |rows| - 1;
      var front := rows[..k];
      ParseRowsLength(front, parse);
      if forall i :: 0 <= i < |rows| ==> Parsable(rows[i], parse) {
        forall i | 0 <= i < |front| ensures Parsable(front[i], parse) {
          assert front[i] == rows[i];
        }
      }
      if |ParseRows(rows, parse)| == |rows| {
        forall i | 0 <= i < |rows| ensures Parsable(rows[i], parse) {
          if i < k { assert rows[i] == front[i]; }
        }
      }
    }
  }

  // ---------------------------------------------------------------------------
  // The log-scale filter

  /** A point can be shown iff it is positive on every logarithmic axis. */
  predicate Plottable(p: Point, xType: ScaleType, yType: ScaleType)
  {
    (xType == Logarithmic ==> p.x > 0.0) && (yType == Logarithmic ==> p.y > 0.0)
  }

  /** The points that can be shown, in their original order. */
  function LogFilter(pts: seq<Point>, xType: ScaleType, yType: ScaleType): (r: seq<Point>)
    ensures |r| <= |pts|
  {
    if pts == [] then []
    else
      var front, last := pts[..|pts| - 1], pts[|pts| - 1];
      LogFilter(front, xType, yType) + (if Plottable(last, xType, yType) then [last] else [])
  }

  /** A point is kept iff it is one of the input points and can be shown. */
  lemma {:induction false} LogFilterMembership(pts: seq<Point>, xType: ScaleType, yType: ScaleType)
    ensures forall p :: p in LogFilter(pts, xType, yType) <==> p in pts && Plottable(p, xType, yType)
  {
    if pts != [] {
      var front, last := pts[..|pts| - 1], pts[|pts| - 1];
      assert pts == front + [last];
      LogFilterMembership(front, xType, yType);
    }
  }

  /** The number of points the filter drops. */
  function Rejected(pts: seq<Point>, xType: ScaleType, yType: ScaleType): nat
  {
    if pts == [] then 0
    else
      Rejected(pts[..|pts| - 1], xType, yType) + (if Plottable(pts[|pts| - 1], xType, yType) then 0 else 1)
  }

  /** The reported skipped count, raw length minus kept length, is the number of
      points that cannot be shown. */
  lemma {:induction false} SkippedCount(pts: seq<Point>, xType: ScaleType, yType: ScaleType)
    ensures |pts| - |LogFilter(pts, xType, yType)| == Rejected(pts, xType, yType)
  {
    if pts != [] {
      SkippedCount(pts[..|pts| - 1], xType, yType);
    }
  }

  /** Nothing is skipped iff every point can be shown. */
  lemma {:induction false} NothingSkippedIff(pts: seq<Point>, xType: ScaleType, yType: ScaleType)
    ensures Rejected(pts, xType, yType) == 0 <==> forall i :: 0 <= i < |pts| ==> Plottable(pts[i], xType, yType)
  {
    if pts != [] {
      var k := |pts| - 1;
      var front := pts[..k];
      NothingSkippedIff(front, xType, yType);
      if Rejected(pts, xType, yType) == 0 {
        forall i | 0 <= i < |pts| ensures Plottable(pts[i], xType, yType) {
          if i < k { assert pts[i] == front[i]; }
        }
      }
      if forall i :: 0 <= i < |pts| ==> Plottable(pts[i], xType, yType) {
        forall i | 0 <= i < |front| ensures Plottable(front[i], xType, yType) {
          assert front[i] == pts[i];
        }
      }
    }
  }

  /** The filter keeps order: it works on the two halves of a sequence separately. */
  lemma {:induction false} LogFilterAppend(a: seq<Point>, b: seq<Point>, xType: ScaleType, yType: ScaleType)
    ensures LogFilter(a + b, xType, yType) == LogFilter(a, xType, yType) + LogFilter(b, xType, yType)
  {
    if b != [] {
      var b', last := b[..|b| - 1], b[|b| - 1];
      var tail := if Plottable(last, xType, yType) then [last] else [];
      assert (a + b)[..|a + b| - 1] == a + b';
      assert (a + b)[|a + b| - 1] == last;
      LogFilterAppend(a, b', xType, yType);
      assert LogFilter(a + b, xType, yType) == LogFilter(a + b', xType, yType) + tail;
      assert LogFilter(b, xType, yType) == LogFilter(b', xType, yType) + tail;
    } else {
      assert a + b == a;
    }
  }

  /** Filtering twice is filtering once. */
  lemma {:induction false} LogFilterIdempotent(pts: seq<Point>, xType: ScaleType, yType: ScaleType)
    ensures LogFilter(LogFilter(pts, xType, yType), xType, yType) == LogFilter(pts, xType, yType)
  {
    if pts != [] {
      var front, last := pts[..|pts| - 1], pts[|pts| - 1];
      var tail := if Plottable(last, xType, yType) then [last] else [];
      LogFilterIdempotent(front, xType, yType);
      LogFilterAppend(LogFilter(front, xType, yType), tail, xType, yType);
      if tail != [] {
        assert [last][..0] == [];
      }
    }
  }

  /** With both axes linear the filter keeps every point. */
  lemma {:induction false} LogFilterLinear(pts: seq<Point>)
    ensures LogFilter(pts, Linear, Linear) == pts
  {
    if pts != [] {
      LogFilterLinear(pts[..|pts| - 1]);
    }
  }

  // ---------------------------------------------------------------------------
  // Sorting by x (the comparator a.x - b.x of a stable sort)

  predicate SortedByX(s: seq<Point>)
  {
    forall i, j :: 0 <= i < j < |s| ==> s[i].x <= s[j].x
  }

  /** Inserts p in front of the first element whose x is not smaller. */
  function InsertByX(p: Point, s: seq<Point>): (r: seq<Point>)
    requires SortedByX(s)
    ensures SortedByX(r)
    ensures multiset(r) == multiset(s) + multiset{p}
  {
    if s == [] || p.x <= s[0].x then
      ConsSorted(p, s);
      [p] + s
    else
      var rest := InsertByX(p, s[1..]);
      InsertedAbove(p, s, rest);
      ConsSorted(s[0], rest);
      assert s == [s[0]] + s[1..];
      [s[0]] + rest
  }

  lemma ConsSorted(h: Point, t: seq<Point>)
    requires SortedByX(t)
    requires t != [] ==> h.x <= t[0].x
    ensures SortedByX([h] + t)
  {
  }

  /** Inserting a larger point into the tail keeps the head below everything. */
  lemma InsertedAbove(p: Point, s: seq<Point>, rest: seq<Point>)
    requires SortedByX(s) && s != [] && s[0].x < p.x
    requires multiset(rest) == multiset(s[1..]) + multiset{p}
    ensures rest != [] && s[0].x <= rest[0].x
  {
    assert rest[0] in multiset(rest) by {
      assert p in multiset(rest);
    }
    if rest[0] != p {
      assert rest[0] in multiset(s[1..]);
      var j :| 0 <= j < |s[1..]| && s[1..][j] == rest[0];
      assert s[j + 1] == rest[0];
    }
  }

  /** The dataset as drawn: sorted by x and a permutation of its input. */
  function SortByX(s: seq<Point>): (r: seq<Point>)
    ensures SortedByX(r)
    ensures multiset(r) == multiset(s)
  {
    if s == [] then []
    else
      assert s == [s[0]] + s[1..];
      InsertByX(s[0], SortByX(s[1..]))
  }

  // ---------------------------------------------------------------------------
  // Extremes and coordinates

  /** Math.min over a non-empty sequence. */
  function MinOf(s: seq<real>): (r: real)
    requires s != []
    ensures r in s
    ensures forall e :: e in s ==> r <= e
  {
    if |s| == 1 then s[0]
    else
      var front, last := s[..|s| - 1], s[|s| - 1];
      assert s == front + [last];
      var m := MinOf(front);
      if last < m then last else m
  }

  /** Math.max over a non-empty sequence. */
  function MaxOf(s: seq<real>): (r: real)
    requires s != []
    ensures r in s
    ensures forall e :: e in s ==> e <= r
  {
    if |s| == 1 then s[0]
    else
      var front, last := s[..|s| - 1], s[|s| - 1];
      assert s == front + [last];
      var m := MaxOf(front);
      if last > m then last else m
  }

  function Xs(pts: seq<Point>): seq<real>
  {
    seq(|pts|, i requires 0 <= i < |pts| => pts[i].x)
  }

  function Ys(pts: seq<Point>): seq<real>
  {
    seq(|pts|, i requires 0 <= i < |pts| => pts[i].y)
  }

  lemma CoordinatesOfPoints(pts: seq<Point>)
    ensures |Xs(pts)| == |pts| && |Ys(pts)| == |pts|
    ensures forall p :: p in pts ==> p.x in Xs(pts) && p.y in Ys(pts)
  {
    forall p | p in pts ensures p.x in Xs(pts) && p.y in Ys(pts) {
      var i :| 0 <= i < |pts| && pts[i] == p;
      assert Xs(pts)[i] == p.x && Ys(pts)[i] == p.y;
    }
  }

  // ---------------------------------------------------------------------------
  // The fit line and the equation label

  predicate OnLine(p: Point, f: Regression.FitResult)
  {
    p.y == f.slope * p.x + f.intercept
  }

  /** The x span of the fit line: an axis bound where one is set, else the data extreme. */
  function FitSpan(xMin: Option<real>, xMax: Option<real>, xs: seq<real>): (r: (real, real))
    requires xs != []
    ensures xMin.Some? ==> r.0 == xMin.value
    ensures xMax.Some? ==> r.1 == xMax.value
    ensures xMin.None? ==> r.0 in xs && forall x :: x in xs ==> r.0 <= x
    ensures xMax.None? ==> r.1 in xs && forall x :: x in xs ==> x <= r.1
  {
    (xMin.GetOr(MinOf(xs)), xMax.GetOr(MaxOf(xs)))
  }

  /** The two-point dataset drawn for the fit, from x = lo to x = hi. */
  function FitLine(f: Regression.FitResult, lo: real, hi: real): (r: seq<Point>)
    ensures |r| == 2 && r[0].x == lo && r[1].x == hi
    ensures OnLine(r[0], f) && OnLine(r[1], f)
  {
    [Point(lo, f.slope * lo + f.intercept), Point(hi, f.slope * hi + f.intercept)]
  }

  /** Where the equation label goes: 5% into the x span from its left end, and
      5% of the y range below the highest y. */
  function Anchor(lo: real, hi: real, ys: seq<real>): (r: Point)
    requires ys != []
    ensures MinOf(ys) <= r.y <= MaxOf(ys)
    ensures lo <= hi ==> lo <= r.x <= hi
  {
    Point(lo + 0.05 * (hi - lo), MaxOf(ys) - 0.05 * (MaxOf(ys) - MinOf(ys)))
  }

  // ---------------------------------------------------------------------------
  // Padded axis bounds

  datatype Bounds = Bounds(xMin: real, xMax: real, yMin: real, yMax: real)

  /** The point lies strictly inside the view. */
  predicate Inside(p: Point, b: Bounds)
  {
    b.xMin < p.x < b.xMax && b.yMin < p.y < b.yMax
  }

  /** `(hi - lo || 1)`: the range, with an empty range counted as 1. */
  function RangeOr1(lo: real, hi: real): (r: real)
    requires lo <= hi
    ensures r > 0.0
    ensures hi - lo > 0.0 ==> r == hi - lo
  {
    if hi - lo == 0.0 then 1.0 else hi - lo
  }

  /** Widens [lo, hi] by frac of its range on both sides. */
  function Padded(lo: real, hi: real, frac: real): (r: (real, real))
    requires lo <= hi && frac > 0.0
    ensures r.0 < lo && hi < r.1
    ensures lo - r.0 == r.1 - hi
    ensures lo < hi ==> r.1 - r.0 == (hi - lo) * (1.0 + 2.0 * frac)
    ensures lo == hi ==> r.1 - r.0 == 2.0 * frac
  {
    var range := RangeOr1(lo, hi);
    Regression.ProductPositive(range, frac, range * frac);
    (lo - range * frac, hi + range * frac)
  }

  /** Bounds around the data: 5% of the x range and 10% of the y range on each side. */
  function AutoscaleBounds(pts: seq<Point>): (b: Bounds)
    requires pts != []
    ensures forall p :: p in pts ==> Inside(p, b)
  {
    CoordinatesOfPoints(pts);
    var xs, ys := Xs(pts), Ys(pts);
    var (x0, x1) := Padded(MinOf(xs), MaxOf(xs), 0.05);
    var (y0, y1) := Padded(MinOf(ys), MaxOf(ys), 0.1);
    Bounds(x0, x1, y0, y1)
  }

  /** The extent [lo, hi] widened to take in v: Math.min and Math.max over
      the values together with v. */
  function Widen(lo: real, hi: real, v: real): (r: (real, real))
    requires lo <= hi
    ensures r.0 <= lo && hi <= r.1
    ensures r.0 <= v <= r.1
    ensures r.0 == lo || r.0 == v
    ensures r.1 == hi || r.1 == v
  {
    (if lo < v then lo else v, if hi > v then hi else v)
  }

  /** The same padding around the data widened to include x = 0 and y = intercept. */
  function InterceptBounds(pts: seq<Point>, intercept: real): (b: Bounds)
    requires pts != []
    ensures forall p :: p in pts ==> Inside(p, b)
    ensures Inside(Point(0.0, intercept), b)
  {
    CoordinatesOfPoints(pts);
    var xs, ys := Xs(pts), Ys(pts);
    var (xlo, xhi) := Widen(MinOf(xs), MaxOf(xs), 0.0);
    var (ylo, yhi) := Widen(MinOf(ys), MaxOf(ys), intercept);
    var (x0, x1) := Padded(xlo, xhi, 0.05);
    var (y0, y1) := Padded(ylo, yhi, 0.1);
    Bounds(x0, x1, y0, y1)
  }
}
