/** The playfield's canonical geometry, over exact reals. */
module World {

  datatype Point = Point(x: real, y: real)

  datatype Sector = Sector(column: int, row: int)

  /** A sector and a fraction along each of its own axes. */
  datatype DefensePoint = DefensePoint(sector: Sector, offsetX: real, offsetY: real)

  datatype Grid = Grid(columns: int, rows: int)

  /** The board: `columns x rows` square sectors of `span` km. */
  datatype Field = Field(grid: Grid, span: real) {
    function Width(): real { grid.columns as real * span }
    function Height(): real { grid.rows as real * span }
    ghost predicate Valid() { grid.columns > 0 && grid.rows > 0 && span > 0.0 }
  }

  predicate IsValidSector(s: Sector, g: Grid) {
    0 <= s.column < g.columns && 0 <= s.row < g.rows
  }

  /** The point lies inside the sector it names, edges included. */
  predicate IsInsideSector(p: DefensePoint) {
    0.0 <= p.offsetX <= 1.0 && 0.0 <= p.offsetY <= 1.0
  }

  function Clamp(v: real, lo: real, hi: real): real {
    if (if v > lo then v else lo) < hi then (if v > lo then v else lo) else hi
  }

  function Clamp01(v: real): real { Clamp(v, 0.0, 1.0) }

  function ClampInt(v: int, lo: int, hi: int): int {
    if (if v > lo then v else lo) < hi then (if v > lo then v else lo) else hi
  }

  // ------------------------------------------------------------- coordinates

  /** Along one axis: which cell a coordinate falls in, how far into it, and back. */
  function AxisCell(v: real, cells: int, span: real): int
    requires span != 0.0
  {
    ClampInt((v / span).Floor, 0, cells - 1)
  }

  function AxisOffset(v: real, cell: int, span: real): real
    requires span != 0.0
  {
    Clamp01((v - cell as real * span) / span)
  }

  function AxisCoordinate(cell: int, offset: real, span: real): real {
    cell as real * span + Clamp01(offset) * span
  }

  function SectorFromWorldPoint(p: Point, f: Field): Sector
    requires f.span != 0.0
  {
    Sector(AxisCell(p.x, f.grid.columns, f.span), AxisCell(p.y, f.grid.rows, f.span))
  }

  function DefensePointToWorld(p: DefensePoint, f: Field): Point {
    Point(AxisCoordinate(p.sector.column, p.offsetX, f.span), AxisCoordinate(p.sector.row, p.offsetY, f.span))
  }

  function WorldToDefensePoint(p: Point, f: Field): DefensePoint
    requires f.span != 0.0
  {
    var s := SectorFromWorldPoint(p, f);
    DefensePoint(s, AxisOffset(p.x, s.column, f.span), AxisOffset(p.y, s.row, f.span))
  }

  predicate OnField(p: Point, f: Field) {
    0.0 <= p.x <= f.Width() && 0.0 <= p.y <= f.Height()
  }

  lemma QuotientBounds(v: real, n: real, span: real)
    requires span > 0.0 && 0.0 <= v <= n * span
    ensures 0.0 <= v / span <= n
  {
  }

  lemma DivSub(v: real, i: real, span: real)
    requires span > 0.0
    ensures (v - i * span) / span == v / span - i
    ensures i * span + ((v - i * span) / span) * span == v
  {
  }

  lemma FloorCell(q: real, cells: int)
    requires cells > 0 && 0.0 <= q <= cells as real
    ensures var i := ClampInt(q.Floor, 0, cells - 1); 0.0 <= q - i as real <= 1.0
  {
  }

  lemma AxisStaysOn(i: int, u: real, cells: int, span: real)
    requires span > 0.0 && 0 <= i < cells && 0.0 <= u <= 1.0
    ensures 0.0 <= i as real * span + u * span <= cells as real * span
  {
    assert i as real * span + u * span == (i as real + u) * span;
    assert 0.0 <= i as real + u <= cells as real;
    assert (cells as real - (i as real + u)) * span >= 0.0;
  }

  /** One axis: a valid cell and fraction always, and the exact coordinate back iff it was on the board. */
  lemma AxisRoundTrip(v: real, cells: int, span: real)
    requires span > 0.0 && cells > 0
    ensures var i := AxisCell(v, cells, span);
            var u := AxisOffset(v, i, span);
            && 0 <= i < cells && 0.0 <= u <= 1.0
            && (AxisCoordinate(i, u, span) == v <==> 0.0 <= v <= cells as real * span)
  {
    AxisRange(v, cells, span);
    var i := AxisCell(v, cells, span);
    var u := AxisOffset(v, i, span);
    AxisStaysOn(i, u, cells, span);
    if 0.0 <= v <= cells as real * span {
      AxisInverse(v, cells, span);
    }
  }

  lemma AxisRange(v: real, cells: int, span: real)
    requires span > 0.0 && cells > 0
    ensures 0 <= AxisCell(v, cells, span) < cells
    ensures forall i :: 0.0 <= AxisOffset(v, i, span) <= 1.0
    ensures forall i :: Clamp01(AxisOffset(v, i, span)) == AxisOffset(v, i, span)
  {
  }

  lemma AxisInverse(v: real, cells: int, span: real)
    requires span > 0.0 && cells > 0 && 0.0 <= v <= cells as real * span
    ensures AxisCoordinate(AxisCell(v, cells, span), AxisOffset(v, AxisCell(v, cells, span), span), span) == v
  {
    QuotientBounds(v, cells as real, span);
    FloorCell(v / span, cells);
    DivSub(v, AxisCell(v, cells, span) as real, span);
  }

  /**
   * worldToDefensePoint always lands on a legal Defense Point, and defensePointToWorld inverts it
   * exactly on the closed field, far edges included.
   */
  lemma WorldRoundTrip(p: Point, f: Field)
    requires f.Valid()
    ensures var d := WorldToDefensePoint(p, f);
            IsValidSector(d.sector, f.grid) && IsInsideSector(d)
            && (DefensePointToWorld(d, f) == p <==> OnField(p, f))
  {
    var d := WorldToDefensePoint(p, f);
    var w := DefensePointToWorld(d, f);
    var width, height := f.Width(), f.Height();
    assert 0 <= d.sector.column < f.grid.columns && 0.0 <= d.offsetX <= 1.0 && (w.x == p.x <==> 0.0 <= p.x <= width) by {
      AxisRoundTrip(p.x, f.grid.columns, f.span);
    }
    assert 0 <= d.sector.row < f.grid.rows && 0.0 <= d.offsetY <= 1.0 && (w.y == p.y <==> 0.0 <= p.y <= height) by {
      AxisRoundTrip(p.y, f.grid.rows, f.span);
    }
  }

  // ------------------------------------------------- moving point and circle

  function Minus(a: Point, b: Point): Point { Point(a.x - b.x, a.y - b.y) }

  function Square(v: real): real { v * v }

  function Dot(u: Point, v: Point): real { u.x * v.x + u.y * v.y }

  /** Squared distance; the source's `distance` is its square root. */
  function DistSq(a: Point, b: Point): real { Dot(Minus(b, a), Minus(b, a)) }

  /** The segment's point at fraction `t`. */
  function At(from: Point, to: Point, t: real): Point {
    var d := Minus(to, from);
    Point(from.x + d.x * t, from.y + d.y * t)
  }

  datatype Approach = Approach(t: real, point: Point, distanceSq: real)

  /** Closest point of a segment to `p`; the distance is carried squared. */
  function ClosestApproach(p: Point, from: Point, to: Point): Approach {
    var d := Minus(to, from);
    var lengthSq := Dot(d, d);
    var t := if lengthSq == 0.0 then 0.0 else Clamp01(Dot(Minus(p, from), d) / lengthSq);
    var c := At(from, to, t);
    Approach(t, c, DistSq(p, c))
  }

  datatype Entry = NotEntered | Entered(t: real, point: Point)

  /** The coefficients of `squared distance to the centre - Square(radius)` along the segment. */
  datatype Quadratic = Quadratic(a: real, b: real, c: real) {
    function Discriminant(): real { Square(b) - 4.0 * (a * c) }
    function Value(t: real): real { a * (t * t) + b * t + c }
    predicate Proper() { a > 0.0 || (a == 0.0 && b == 0.0) }
  }

  function Along(from: Point, to: Point, center: Point, radius: real): Quadratic {
    var d, o := Minus(to, from), Minus(from, center);
    Quadratic(Dot(d, d), 2.0 * Dot(o, d), Dot(o, o) - Square(radius))
  }

  /** `root` is the non-negative square root of `v`, where there is one. */
  predicate IsRoot(root: real, v: real) {
    v >= 0.0 ==> root >= 0.0 && Square(root) == v
  }

  /** The moment a moving point first enters a circle. `root` is the discriminant's square root. */
  function FirstEntryIntoCircle(from: Point, to: Point, center: Point, radius: real, root: real): Entry
    requires IsRoot(root, Along(from, to, center, radius).Discriminant())
  {
    var t := FirstRoot(Along(from, to, center, radius), root);
    if t < 0.0 then NotEntered else Entered(t, At(from, to, t))
  }

  /** The branch structure of the test, on the coefficients alone; negative when there is no entry. */
  function FirstRoot(q: Quadratic, root: real): real {
    if q.c <= 0.0 then 0.0
    else if q.a == 0.0 then -1.0
    else if q.Discriminant() < 0.0 then -1.0
    else
      var t := (-q.b - root) / (2.0 * q.a);
      if t < 0.0 || t > 1.0 then -1.0 else t
  }

  /** The moving point is within the radius at fraction `t` of the segment. */
  predicate WithinAt(from: Point, to: Point, center: Point, radius: real, t: real) {
    DistSq(At(from, to, t), center) <= Square(radius)
  }

  lemma DistanceIsQuadratic(from: Point, to: Point, center: Point, radius: real, t: real)
    ensures DistSq(At(from, to, t), center) - Square(radius) == Along(from, to, center, radius).Value(t)
    ensures Along(from, to, center, radius).Proper()
  {
    var d, o := Minus(to, from), Minus(from, center);
    var p := At(from, to, t);
    ShapeIsProper(d, o);
    SquareAlong(Minus(center, p), o, d, t);
  }

  /** x is minus (o + t*d), coordinate by coordinate. */
  lemma SquareAlong(x: Point, o: Point, d: Point, t: real)
    requires x.x == -(o.x + d.x * t) && x.y == -(o.y + d.y * t)
    ensures Dot(x, x) == Dot(d, d) * (t * t) + (2.0 * Dot(o, d)) * t + Dot(o, o)
  {
    AxisSquare(x.x, o.x, d.x, t);
    AxisSquare(x.y, o.y, d.y, t);
    CollectAxes(x.x * x.x, x.y * x.y, d.x * d.x, d.y * d.y, o.x * d.x, o.y * d.y, o.x * o.x, o.y * o.y, t, t * t);
  }

  lemma ShapeIsProper(d: Point, o: Point)
    ensures Dot(d, d) > 0.0 || (Dot(d, d) == 0.0 && 2.0 * Dot(o, d) == 0.0)
  {
    hide *;
    if d == Point(0.0, 0.0) {
      DotZero(o);
      DotZero(d);
    } else {
      DotPositive(d);
    }
  }

  lemma DotZero(o: Point)
    ensures Dot(o, Point(0.0, 0.0)) == 0.0
  {
  }

  lemma DotPositive(d: Point)
    requires d != Point(0.0, 0.0)
    ensures Dot(d, d) > 0.0
  {
    SquareSign(d.x);
    SquareSign(d.y);
  }

  lemma AxisSquare(x: real, o: real, d: real, t: real)
    requires x == -(o + d * t)
    ensures x * x == (d * d) * (t * t) + 2.0 * ((o * d) * t) + o * o
  {
    NegSquare(o + d * t);
  }

  lemma CollectAxes(x: real, y: real, dxx: real, dyy: real, odx: real, ody: real, oxx: real, oyy: real, t: real,
                    tt: real)
    requires x == dxx * tt + 2.0 * (odx * t) + oxx
    requires y == dyy * tt + 2.0 * (ody * t) + oyy
    ensures x + y == (dxx + dyy) * tt + (2.0 * (odx + ody)) * t + (oxx + oyy)
  {
  }

  /** Signs of a product, the product given by name. */
  lemma ProductSign(u: real, v: real, p: real)
    requires p == u * v
    ensures u < 0.0 && v < 0.0 ==> p > 0.0
    ensures u > 0.0 && v > 0.0 ==> p > 0.0
    ensures u >= 0.0 && v >= 0.0 ==> p >= 0.0
    ensures u == 0.0 ==> p == 0.0
  {
  }

  lemma SquareSign(v: real)
    ensures Square(v) >= 0.0
    ensures v != 0.0 ==> Square(v) > 0.0
  {
    ProductSign(v, v, Square(v));
  }

  lemma NegSquare(v: real)
    ensures Square(-v) == Square(v)
  {
  }

  /** Completing the square. */
  lemma QuadraticSign(q: Quadratic, t: real)
    requires q.a > 0.0
    ensures q.Value(t) <= 0.0 <==> Square(2.0 * (q.a * t) + q.b) <= q.Discriminant()
  {
    CompletedSquare(q.a, q.b, q.c, t);
    ScaledSign(4.0 * q.a, q.Value(t), 4.0 * q.a * q.Value(t));
  }

  lemma CompletedSquare(a: real, b: real, c: real, t: real)
    ensures 4.0 * a * (a * (t * t) + b * t + c) == Square(2.0 * (a * t) + b) - (Square(b) - 4.0 * (a * c))
  {
    var w := a * t;
    assert Square(2.0 * w + b) == 4.0 * (w * w) + 4.0 * (w * b) + b * b;
    assert w * w == a * (a * (t * t));
    assert w * b == a * (b * t);
  }

  lemma ScaledSign(k: real, v: real, p: real)
    requires k > 0.0 && p == k * v
    ensures p <= 0.0 <==> v <= 0.0
    ensures p < 0.0 <==> v < 0.0
  {
    ProductSign(k, v, p);
    ProductSign(k, -v, -p);
  }

  lemma SquareBound(v: real, root: real)
    requires root >= 0.0
    ensures Square(v) <= Square(root) <==> -root <= v <= root
  {
    var p := (root - v) * (root + v);
    assert p == Square(root) - Square(v);
    if v > root {
      ScaledSign(root + v, root - v, p);
    } else if v < -root {
      ScaledSign(root - v, root + v, p);
    } else {
      ProductSign(root - v, root + v, p);
    }
  }

  lemma LowerRoot(a: real, b: real, root: real)
    requires a > 0.0
    ensures 2.0 * (a * ((-b - root) / (2.0 * a))) == -b - root
  {
    assert (2.0 * a) * ((-b - root) / (2.0 * a)) == -b - root;
  }

  /**
   * With the start outside the circle and a real root, the lower root solves the quadratic, and it
   * lies in [0, t] for every non-negative t at which the quadratic is not positive.
   */
  lemma LowerRootIsFirst(q: Quadratic, root: real, t: real)
    requires q.a > 0.0 && q.c > 0.0
    requires root >= 0.0 && Square(root) == q.Discriminant()
    ensures var t1 := (-q.b - root) / (2.0 * q.a);
            q.Value(t1) <= 0.0 && (0.0 <= t && q.Value(t) <= 0.0 ==> 0.0 <= t1 <= t)
  {
    var t1 := (-q.b - root) / (2.0 * q.a);
    LowerRoot(q.a, q.b, root);
    NegSquare(root);
    QuadraticSign(q, t1);
    QuadraticSign(q, t);
    if 0.0 <= t && q.Value(t) <= 0.0 {
      RootOrder(q.a, q.b, root, t, t1);
      RootBelow(q, root);
      ProductSign(q.a, t, q.a * t);
      ScaledSign(q.a, -t1, q.a * -t1);
    }
  }

  lemma RootOrder(a: real, b: real, root: real, t: real, t1: real)
    requires a > 0.0 && root >= 0.0 && 2.0 * (a * t1) == -b - root
    requires Square(2.0 * (a * t) + b) <= Square(root)
    ensures t1 <= t && 2.0 * (a * t) + b <= root
  {
    SquareBound(2.0 * (a * t) + b, root);
    ScaledSign(a, t1 - t, a * (t1 - t));
  }

  /** With a positive constant term the root is strictly smaller than |b|. */
  lemma RootBelow(q: Quadratic, root: real)
    requires q.a > 0.0 && q.c > 0.0 && root >= 0.0 && Square(root) == q.Discriminant()
    ensures root < q.b || root < -q.b
  {
    ProductSign(q.a, q.c, q.a * q.c);
    SquareBound(q.b, root);
  }

  /** FirstRoot is exact on the coefficients. */
  lemma FirstRootIsExact(q: Quadratic, root: real, t: real)
    requires q.Proper()
    requires IsRoot(root, q.Discriminant())
    ensures FirstRoot(q, root) <= 1.0
    ensures FirstRoot(q, root) >= 0.0 ==> q.Value(FirstRoot(q, root)) <= 0.0
    ensures 0.0 <= t <= 1.0 && q.Value(t) <= 0.0 ==> 0.0 <= FirstRoot(q, root) <= t
  {
    if q.c > 0.0 && q.a > 0.0 {
      QuadraticSign(q, t);
      if q.Discriminant() >= 0.0 {
        LowerRootIsFirst(q, root, t);
      } else {
        SquareSign(2.0 * (q.a * t) + q.b);
      }
    }
  }

  /** Exactness: an entry is reported iff some fraction of [0, 1] is within the radius, and it is the least such fraction. */
  lemma FirstEntryIsExact(from: Point, to: Point, center: Point, radius: real, root: real)
    requires IsRoot(root, Along(from, to, center, radius).Discriminant())
    ensures var e := FirstEntryIntoCircle(from, to, center, radius, root);
            && (e.Entered? <==> exists t :: 0.0 <= t <= 1.0 && WithinAt(from, to, center, radius, t))
            && (e.Entered? ==> 0.0 <= e.t <= 1.0 && WithinAt(from, to, center, radius, e.t)
                               && e.point == At(from, to, e.t)
                               && forall t :: 0.0 <= t <= 1.0 && WithinAt(from, to, center, radius, t) ==> e.t <= t)
  {
    var e := FirstEntryIntoCircle(from, to, center, radius, root);
    if e.Entered? {
      EntryIsWithin(from, to, center, radius, root);
    }
    forall t | 0.0 <= t <= 1.0 && WithinAt(from, to, center, radius, t)
      ensures e.Entered? && e.t <= t
    {
      WithinMeansEntered(from, to, center, radius, root, t);
    }
  }

  lemma EntryIsWithin(from: Point, to: Point, center: Point, radius: real, root: real)
    requires IsRoot(root, Along(from, to, center, radius).Discriminant())
    requires FirstEntryIntoCircle(from, to, center, radius, root).Entered?
    ensures var e := FirstEntryIntoCircle(from, to, center, radius, root);
            0.0 <= e.t <= 1.0 && WithinAt(from, to, center, radius, e.t) && e.point == At(from, to, e.t)
  {
    var e := FirstEntryIntoCircle(from, to, center, radius, root);
    DistanceIsQuadratic(from, to, center, radius, e.t);
    FirstRootIsExact(Along(from, to, center, radius), root, 0.0);
  }

  lemma WithinMeansEntered(from: Point, to: Point, center: Point, radius: real, root: real, t: real)
    requires IsRoot(root, Along(from, to, center, radius).Discriminant())
    requires 0.0 <= t <= 1.0 && WithinAt(from, to, center, radius, t)
    ensures var e := FirstEntryIntoCircle(from, to, center, radius, root);
            e.Entered? && e.t <= t
  {
    DistanceIsQuadratic(from, to, center, radius, t);
    FirstRootIsExact(Along(from, to, center, radius), root, t);
  }

  /** closestApproach is a true minimum over the segment, attained at its own fraction. */
  lemma ClosestApproachIsMinimum(p: Point, from: Point, to: Point, t: real)
    requires 0.0 <= t <= 1.0
    ensures var c := ClosestApproach(p, from, to);
            && 0.0 <= c.t <= 1.0 && c.point == At(from, to, c.t)
            && c.distanceSq == DistSq(p, c.point) <= DistSq(p, At(from, to, t))
  {
    var c := ClosestApproach(p, from, to);
    var q := Along(from, to, p, 0.0);
    DistanceIsQuadratic(from, to, p, 0.0, t);
    DistanceIsQuadratic(from, to, p, 0.0, c.t);
    DistSqSymmetric(p, At(from, to, t));
    DistSqSymmetric(p, At(from, to, c.t));
    ProjectionIs(p, from, to);
    ValueMinimum(q, c.t, t);
  }

  lemma ValueMinimum(q: Quadratic, u: real, t: real)
    requires q.Proper() && 0.0 <= t <= 1.0
    requires u == if q.a == 0.0 then 0.0 else Clamp01((-q.b / 2.0) / q.a)
    ensures q.Value(u) <= q.Value(t)
  {
    if q.a > 0.0 {
      ProjectionBeats(q.a, -q.b / 2.0, u, t);
    }
  }

  lemma ProjectionIs(p: Point, from: Point, to: Point)
    ensures var q := Along(from, to, p, 0.0);
            ClosestApproach(p, from, to).t == if q.a == 0.0 then 0.0 else Clamp01((-q.b / 2.0) / q.a)
  {
    var d := Minus(to, from);
    DotNegate(Minus(p, from), Minus(from, p), d);
  }

  lemma DotNegate(u: Point, v: Point, d: Point)
    requires u.x == -v.x && u.y == -v.y
    ensures Dot(u, d) == -Dot(v, d)
  {
    NegProductLeft(v.x, d.x);
    NegProductLeft(v.y, d.y);
  }

  lemma NegProductLeft(u: real, v: real)
    ensures (-u) * v == -(u * v)
  {
  }

  lemma DistSqSymmetric(a: Point, b: Point)
    ensures DistSq(a, b) == DistSq(b, a)
  {
    NegSquare(a.x - b.x);
    NegSquare(a.y - b.y);
    assert DistSq(a, b) == Square(-(a.x - b.x)) + Square(-(a.y - b.y));
  }

  /** The clamped projection minimises l*t*t - 2*m*t over [0, 1]. */
  lemma ProjectionBeats(l: real, m: real, u: real, t: real)
    requires l > 0.0 && u == Clamp01(m / l) && 0.0 <= t <= 1.0
    ensures l * (u * u) - 2.0 * m * u <= l * (t * t) - 2.0 * m * t
  {
    var q := m / l;
    assert m == q * l;
    // difference = l * (t - u) * (t + u - 2q), and both factors agree in sign
    assert (l * (t * t) - 2.0 * m * t) - (l * (u * u) - 2.0 * m * u) == l * ((t - u) * (t + u - 2.0 * q)) by {
      assert m * t == q * l * t && m * u == q * l * u;
      assert (t - u) * (t + u - 2.0 * q) == t * t - u * u - 2.0 * q * t + 2.0 * q * u;
    }
    assert (t - u) * (t + u - 2.0 * q) >= 0.0 by {
      if q < 0.0 {
        assert u == 0.0;
      } else if q > 1.0 {
        assert u == 1.0;
      } else {
        assert u == q;
        assert (t - u) * (t + u - 2.0 * q) == (t - u) * (t - u);
      }
    }
    assert l * ((t - u) * (t + u - 2.0 * q)) >= 0.0;
  }

  /** The chord test and the distance measurement agree: an entry exists iff the closest approach is within the radius. */
  lemma EntryIffClosestWithin(from: Point, to: Point, center: Point, radius: real, root: real)
    requires IsRoot(root, Along(from, to, center, radius).Discriminant())
    ensures FirstEntryIntoCircle(from, to, center, radius, root).Entered?
            <==> ClosestApproach(center, from, to).distanceSq <= Square(radius)
  {
    var e := FirstEntryIntoCircle(from, to, center, radius, root);
    var c := ClosestApproach(center, from, to);
    ClosestApproachIsMinimum(center, from, to, 0.0);
    DistSqSymmetric(center, At(from, to, c.t));
    if e.Entered? {
      EntryIsWithin(from, to, center, radius, root);
      ClosestApproachIsMinimum(center, from, to, e.t);
      DistSqSymmetric(center, At(from, to, e.t));
    }
    if c.distanceSq <= Square(radius) {
      WithinMeansEntered(from, to, center, radius, root, c.t);
    }
  }
}
