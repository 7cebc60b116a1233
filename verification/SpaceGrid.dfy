/** The playfield on screen, in either orientation: one placement, two coordinate maps that agree, and what Earth covers. */
module SpaceGrid {
  import opened World

  datatype Scene = Scene(width: real, height: real)

  /** Earth's disc; its radius is not negative. */
  datatype Disc = Disc(cx: real, cy: real, r: real)

  datatype Placement = Placement(transposed: bool, cellSize: real, originX: real, originY: real, width: real, height: real)

  function MinReal(a: real, b: real): real { if a < b then a else b }

  function Across(g: Grid, transposed: bool): int { if transposed then g.rows else g.columns }

  function Down(g: Grid, transposed: bool): int { if transposed then g.columns else g.rows }

  /** The side of a square cell when `across x down` of them are fitted into the scene. */
  function FittedSize(scene: Scene, across: int, down: int): real
    requires across > 0 && down > 0
  {
    MinReal(scene.width / across as real, scene.height / down as real)
  }

  function PlaceGrid(g: Grid, scene: Scene): Placement
    requires g.columns > 0 && g.rows > 0
  {
    var transposed := scene.height > scene.width;
    var across, down := Across(g, transposed), Down(g, transposed);
    var cellSize := FittedSize(scene, across, down);
    var width, height := cellSize * across as real, cellSize * down as real;
    Placement(transposed, cellSize, (scene.width - width) / 2.0, (scene.height - height) / 2.0, width, height)
  }

  /** A placement of this grid: square cells, and a block exactly as large as they are together. */
  ghost predicate Places(pl: Placement, g: Grid) {
    && pl.cellSize > 0.0 && g.columns > 0 && g.rows > 0
    && pl.width == pl.cellSize * Across(g, pl.transposed) as real
    && pl.height == pl.cellSize * Down(g, pl.transposed) as real
  }

  lemma QuotientFits(total: real, n: real, size: real)
    requires n > 0.0
    ensures size <= total / n <==> size * n <= total
    ensures (total / n) * n == total
  {
    var q := total / n;
    assert q * n == total;
    var gap := (q - size) * n;
    assert gap == total - size * n;
    ScaledSign(n, size - q, n * (size - q));
    assert n * (size - q) == size * n - total;
  }

  lemma QuotientPositive(total: real, n: real)
    requires total > 0.0 && n > 0.0
    ensures total / n > 0.0
  {
    QuotientFits(total, n, 0.0);
    ScaledSign(n, total / n, n * (total / n));
  }

  lemma Monotone(size: real, a: real, b: real)
    requires size >= 0.0 && a <= b
    ensures size * a <= size * b
  {
    ProductSign(size, b - a, size * (b - a));
    assert size * (b - a) == size * b - size * a;
  }

  /** The fitted size is the largest that fits both ways. */
  lemma FittedIsLargest(scene: Scene, across: int, down: int, size: real)
    requires across > 0 && down > 0 && scene.width > 0.0 && scene.height > 0.0
    ensures var cell := FittedSize(scene, across, down);
            && cell > 0.0 && cell * across as real <= scene.width && cell * down as real <= scene.height
            && (size <= cell <==> size * across as real <= scene.width && size * down as real <= scene.height)
  {
    var cell := FittedSize(scene, across, down);
    QuotientFits(scene.width, across as real, size);
    QuotientFits(scene.height, down as real, size);
    QuotientFits(scene.width, across as real, cell);
    QuotientFits(scene.height, down as real, cell);
    QuotientPositive(scene.width, across as real);
    QuotientPositive(scene.height, down as real);
  }

  /** Square cells of this size would fit the scene in this orientation. */
  predicate Fits(size: real, g: Grid, transposed: bool, scene: Scene) {
    size * Across(g, transposed) as real <= scene.width && size * Down(g, transposed) as real <= scene.height
  }

  lemma FitsAcross(size: real, g: Grid, scene: Scene)
    ensures Fits(size, g, false, scene) <==> size * g.columns as real <= scene.width && size * g.rows as real <= scene.height
  {
  }

  lemma FitsDown(size: real, g: Grid, scene: Scene)
    ensures Fits(size, g, true, scene) <==> size * g.rows as real <= scene.width && size * g.columns as real <= scene.height
  {
  }

  /** Cells that fit turned the wrong way fit turned the right way too. */
  lemma OtherOrientationFitsHere(g: Grid, scene: Scene, size: real)
    requires Fits(size, g, !(scene.height > scene.width), scene)
    requires size * g.rows as real <= size * g.columns as real
    ensures Fits(size, g, scene.height > scene.width, scene)
  {
    hide Fits;
    FitsAcross(size, g, scene);
    FitsDown(size, g, scene);
  }

  lemma Centred(total: real, block: real)
    ensures (total - block) / 2.0 + block + (total - block) / 2.0 == total
    ensures block <= total ==> (total - block) / 2.0 >= 0.0
  {
  }

  /** The block is square-celled, fits the scene, and is centred in it. */
  lemma PlacementFits(g: Grid, scene: Scene)
    requires g.columns > 0 && g.rows > 0 && scene.width > 0.0 && scene.height > 0.0
    ensures var pl := PlaceGrid(g, scene);
            && Places(pl, g) && pl.width <= scene.width && pl.height <= scene.height
            && pl.originX >= 0.0 && pl.originX + pl.width + pl.originX == scene.width
            && pl.originY >= 0.0 && pl.originY + pl.height + pl.originY == scene.height
  {
    hide FittedSize;
    var t := scene.height > scene.width;
    var pl := PlaceGrid(g, scene);
    FittedIsLargest(scene, Across(g, t), Down(g, t), 0.0);
    Centred(scene.width, pl.width);
    Centred(scene.height, pl.height);
  }

  /**
   * No larger square cell would fit in the chosen orientation; and on a board at least as wide as it is high none would
   * fit in the other orientation either.
   */
  lemma PlacementIsLargest(g: Grid, scene: Scene, size: real)
    requires g.columns > 0 && g.rows > 0 && scene.width > 0.0 && scene.height > 0.0
    ensures var pl := PlaceGrid(g, scene);
            && (size <= pl.cellSize <==> Fits(size, g, pl.transposed, scene))
            && (g.columns >= g.rows && size >= 0.0 && Fits(size, g, !pl.transposed, scene) ==> size <= pl.cellSize)
  {
    hide FittedSize, Fits;
    var t := scene.height > scene.width;
    assert size <= FittedSize(scene, Across(g, t), Down(g, t)) <==> Fits(size, g, t, scene) by { FittingIs(g, t, scene, size); }
    if g.columns >= g.rows && size >= 0.0 && Fits(size, g, !t, scene) {
      Monotone(size, g.rows as real, g.columns as real);
      OtherOrientationFitsHere(g, scene, size);
    }
  }

  lemma SmallerSide(size: real, a: real, b: real)
    requires size > 0.0 && a < b
    ensures size * a < size * b
  {
    ScaledSign(size, a - b, size * (a - b));
    assert size * (a - b) == size * a - size * b;
  }

  /** On a board higher than wide, in a scene that is not square, turning it the other way would give larger cells. */
  lemma TurningWouldHelp(g: Grid, scene: Scene)
    requires 0 < g.columns < g.rows && scene.width > 0.0 && scene.height > 0.0 && scene.width != scene.height
    ensures var t := scene.height > scene.width; !Fits(FittedSize(scene, Across(g, !t), Down(g, !t)), g, t, scene)
  {
    hide FittedSize, Fits;
    var t := scene.height > scene.width;
    var other := FittedSize(scene, Across(g, !t), Down(g, !t));
    FitsAcross(other, g, scene);
    FitsDown(other, g, scene);
    FittedIsLargest(scene, Across(g, !t), Down(g, !t), other);
    FittedTouches(scene, Across(g, !t), Down(g, !t));
    SmallerSide(other, g.columns as real, g.rows as real);
    TooTight(other * g.columns as real, other * g.rows as real,
             if t then scene.width else scene.height, if t then scene.height else scene.width);
  }

  /** Of two sides, one flush with its frame, the longer does not fit the shorter frame. */
  lemma TooTight(narrow: real, wide: real, short: real, long: real)
    requires narrow < wide && short < long && (narrow == short || wide == long)
    ensures wide > short
  {
  }

  /** The fitted block fills the scene one way or the other. */
  lemma FittedTouches(scene: Scene, across: int, down: int)
    requires across > 0 && down > 0
    ensures var cell := FittedSize(scene, across, down); cell * across as real == scene.width || cell * down as real == scene.height
  {
    QuotientFits(scene.width, across as real, 0.0);
    QuotientFits(scene.height, down as real, 0.0);
  }

  /**
   * The scene's own aspect picks the better orientation exactly when the board is at least as wide as it is high, or the
   * scene is square: otherwise turning the board would have given larger cells.
   */
  lemma OrientationIsBetterIff(g: Grid, scene: Scene)
    requires g.columns > 0 && g.rows > 0 && scene.width > 0.0 && scene.height > 0.0
    ensures var pl := PlaceGrid(g, scene);
            FittedSize(scene, Across(g, !pl.transposed), Down(g, !pl.transposed)) <= pl.cellSize
            <==> g.columns >= g.rows || scene.width == scene.height
  {
    hide FittedSize;
    var t := scene.height > scene.width;
    var other := FittedSize(scene, Across(g, !t), Down(g, !t));
    FittedIsLargest(scene, Across(g, !t), Down(g, !t), other);
    FittedIsLargest(scene, Across(g, t), Down(g, t), other);
    if g.columns >= g.rows {
      PlacementIsLargest(g, scene, other);
    } else if scene.width != scene.height {
      TurningWouldHelp(g, scene);
    }
  }

  lemma FittingIs(g: Grid, transposed: bool, scene: Scene, size: real)
    requires g.columns > 0 && g.rows > 0 && scene.width > 0.0 && scene.height > 0.0
    ensures size <= FittedSize(scene, Across(g, transposed), Down(g, transposed)) <==> Fits(size, g, transposed, scene)
  {
    hide FittedSize;
    FittedIsLargest(scene, Across(g, transposed), Down(g, transposed), size);
  }

  // --------------------------------------------------------- coordinate maps

  /** The top-left of a sector's cell. */
  function CellOrigin(s: Sector, pl: Placement): Point {
    var across, down := if pl.transposed then s.row else s.column, if pl.transposed then s.column else s.row;
    Point(pl.originX + across as real * pl.cellSize, pl.originY + down as real * pl.cellSize)
  }

  /** A fraction of the whole block, from its edge. */
  function Laid(origin: real, unit: real, total: real): real { origin + unit * total }

  function ProjectToScene(unitColumn: real, unitRow: real, pl: Placement): Point {
    Point(Laid(pl.originX, if pl.transposed then unitRow else unitColumn, pl.width),
          Laid(pl.originY, if pl.transposed then unitColumn else unitRow, pl.height))
  }

  function ProjectWorldPoint(p: Point, f: Field, pl: Placement): Point
    requires f.Width() != 0.0 && f.Height() != 0.0
  {
    ProjectToScene(p.x / f.Width(), p.y / f.Height(), pl)
  }

  /** A fraction of a cell, from the cell's edge. */
  function Into(origin: real, u: real, size: real): real { origin + u * size }

  /** How far into a cell a pixel is, clamped to the cell. */
  function Fraction(at: real, origin: real, size: real): real
    requires size != 0.0
  {
    Clamp01((at - origin) / size)
  }

  function DefensePointToScene(p: DefensePoint, pl: Placement): Point {
    var o := CellOrigin(p.sector, pl);
    Point(Into(o.x, if pl.transposed then p.offsetY else p.offsetX, pl.cellSize),
          Into(o.y, if pl.transposed then p.offsetX else p.offsetY, pl.cellSize))
  }

  function SceneToDefensePoint(q: Point, s: Sector, pl: Placement): DefensePoint
    requires pl.cellSize != 0.0
  {
    var o := CellOrigin(s, pl);
    var across, down := Fraction(q.x, o.x, pl.cellSize), Fraction(q.y, o.y, pl.cellSize);
    DefensePoint(s, if pl.transposed then down else across, if pl.transposed then across else down)
  }

  /** Inside the sector's cell on screen, edges included. */
  predicate InCell(q: Point, s: Sector, pl: Placement) {
    var o := CellOrigin(s, pl);
    o.x <= q.x <= o.x + pl.cellSize && o.y <= q.y <= o.y + pl.cellSize
  }

  lemma FieldIsPositive(f: Field)
    requires f.Valid()
    ensures f.Width() > 0.0 && f.Height() > 0.0
  {
    ProductSign(f.grid.columns as real, f.span, f.Width());
    ProductSign(f.grid.rows as real, f.span, f.Height());
  }

  /** Along one axis: a kilometre coordinate, taken to a fraction and to pixels, is cells and fractions of a cell. */
  lemma AxisProjects(cell: real, span: real, cells: real, size: real)
    requires span > 0.0 && cells > 0.0 && cells * span != 0.0
    ensures (cell * span / (cells * span)) * (size * cells) == cell * size
  {
    var q := cell * span / (cells * span);
    assert q * (cells * span) == cell * span;
    Cancel(q * cells, cell, span);
    assert q * (size * cells) == size * (q * cells);
  }

  lemma Cancel(a: real, b: real, k: real)
    requires k > 0.0 && a * k == b * k
    ensures a == b
  {
    ScaledSign(k, a - b, k * (a - b));
    ScaledSign(k, b - a, k * (b - a));
  }

  lemma AxisAgrees(i: int, u: real, cells: int, span: real, size: real)
    requires span > 0.0 && cells > 0 && size > 0.0 && cells as real * span > 0.0
    ensures (AxisCoordinate(i, u, span) / (cells as real * span)) * (size * cells as real) == i as real * size + Clamp01(u) * size
  {
    var c := i as real + Clamp01(u);
    assert AxisCoordinate(i, u, span) == c * span;
    AxisProjects(c, span, cells as real, size);
    assert c * size == i as real * size + Clamp01(u) * size;
  }

  lemma ClampedIff(u: real, k: real)
    requires k > 0.0
    ensures Clamp01(u) * k == u * k <==> 0.0 <= u <= 1.0
  {
    if Clamp01(u) * k == u * k { Cancel(Clamp01(u), u, k); }
  }

  /** One axis of both routes: through kilometres and a fraction of the board, or cells and a fraction of a cell. */
  lemma AxisRoutesAgreeIff(i: int, u: real, cells: int, span: real, size: real, origin: real, board: real, total: real)
    requires span > 0.0 && cells > 0 && size > 0.0 && board == cells as real * span > 0.0
    requires total == size * cells as real
    ensures origin + (AxisCoordinate(i, u, span) / board) * total == origin + i as real * size + u * size
            <==> 0.0 <= u <= 1.0
  {
    hide AxisCoordinate, Clamp01;
    AxisAgrees(i, u, cells, span, size);
    ClampedIff(u, size);
  }

  /** A pixel made of what the grid's columns and rows each contribute. */
  function Pixel(column: real, row: real, pl: Placement): Point {
    if pl.transposed then Point(row, column) else Point(column, row)
  }

  function ColumnOrigin(pl: Placement): real { if pl.transposed then pl.originY else pl.originX }

  function RowOrigin(pl: Placement): real { if pl.transposed then pl.originX else pl.originY }

  /** Where a Defense Point's column coordinate lands, by way of kilometres. */
  function ColumnByKm(p: DefensePoint, f: Field, pl: Placement): real
    requires f.Width() != 0.0
  {
    Laid(ColumnOrigin(pl), AxisCoordinate(p.sector.column, p.offsetX, f.span) / f.Width(), if pl.transposed then pl.height else pl.width)
  }

  function RowByKm(p: DefensePoint, f: Field, pl: Placement): real
    requires f.Height() != 0.0
  {
    Laid(RowOrigin(pl), AxisCoordinate(p.sector.row, p.offsetY, f.span) / f.Height(), if pl.transposed then pl.width else pl.height)
  }

  /** And straight from the cell. */
  function ColumnByCell(p: DefensePoint, pl: Placement): real {
    ColumnOrigin(pl) + p.sector.column as real * pl.cellSize + p.offsetX * pl.cellSize
  }

  function RowByCell(p: DefensePoint, pl: Placement): real {
    RowOrigin(pl) + p.sector.row as real * pl.cellSize + p.offsetY * pl.cellSize
  }

  lemma KmRouteIsPixels(p: DefensePoint, f: Field, pl: Placement)
    requires f.Width() != 0.0 && f.Height() != 0.0
    ensures ProjectWorldPoint(DefensePointToWorld(p, f), f, pl) == Pixel(ColumnByKm(p, f, pl), RowByKm(p, f, pl), pl)
  {
    hide AxisCoordinate, Laid;
  }

  lemma CellRouteIsPixels(p: DefensePoint, pl: Placement)
    ensures DefensePointToScene(p, pl) == Pixel(ColumnByCell(p, pl), RowByCell(p, pl), pl)
  {
    if pl.transposed {
    } else {
    }
  }

  lemma ColumnsAgreeIff(p: DefensePoint, f: Field, pl: Placement)
    requires f.Valid() && Places(pl, f.grid) && f.Width() > 0.0
    ensures ColumnByKm(p, f, pl) == ColumnByCell(p, pl) <==> 0.0 <= p.offsetX <= 1.0
  {
    hide AxisCoordinate;
    AxisRoutesAgreeIff(p.sector.column, p.offsetX, f.grid.columns, f.span, pl.cellSize, ColumnOrigin(pl), f.Width(),
                       if pl.transposed then pl.height else pl.width);
  }

  lemma RowsAgreeIff(p: DefensePoint, f: Field, pl: Placement)
    requires f.Valid() && Places(pl, f.grid) && f.Height() > 0.0
    ensures RowByKm(p, f, pl) == RowByCell(p, pl) <==> 0.0 <= p.offsetY <= 1.0
  {
    hide AxisCoordinate;
    AxisRoutesAgreeIff(p.sector.row, p.offsetY, f.grid.rows, f.span, pl.cellSize, RowOrigin(pl), f.Height(),
                       if pl.transposed then pl.width else pl.height);
  }

  /**
   * The two routes from a Defense Point to pixels - through kilometres, or straight from its cell - meet in both
   * orientations, exactly when the point lies inside its sector.
   */
  lemma RoutesAgreeIff(p: DefensePoint, f: Field, pl: Placement)
    requires f.Valid() && Places(pl, f.grid)
    ensures f.Width() > 0.0 && f.Height() > 0.0
    ensures ProjectWorldPoint(DefensePointToWorld(p, f), f, pl) == DefensePointToScene(p, pl) <==> IsInsideSector(p)
  {
    hide ProjectWorldPoint, DefensePointToWorld, DefensePointToScene, ColumnByKm, RowByKm, ColumnByCell, RowByCell;
    FieldIsPositive(f);
    KmRouteIsPixels(p, f, pl);
    CellRouteIsPixels(p, pl);
    ColumnsAgreeIff(p, f, pl);
    RowsAgreeIff(p, f, pl);
  }

  /** One axis of a click: the fraction it names, and whether going back gives the same pixel. */
  lemma AxisClick(at: real, origin: real, size: real)
    requires size > 0.0
    ensures Into(origin, Fraction(at, origin, size), size) == at <==> origin <= at <= origin + size
    ensures 0.0 <= Fraction(at, origin, size) <= 1.0
  {
    var q, d := (at - origin) / size, at - origin;
    assert q * size == d;
    ScaledSign(size, q - 1.0, size * (q - 1.0));
    ScaledSign(size, -q, size * -q);
    ClampedIff(q, size);
  }

  /** One axis of a drawn point, clicked. */
  lemma AxisDrawn(origin: real, u: real, size: real)
    requires size > 0.0
    ensures Fraction(Into(origin, u, size), origin, size) == u <==> 0.0 <= u <= 1.0
  {
    var w := u * size;
    var v := w / size;
    assert v * size == w;
    Cancel(v, u, size);
    assert Into(origin, u, size) - origin == w;
  }

  /** A point drawn and clicked is itself exactly when it lay in its sector. */
  lemma ClickFindsThePointIff(p: DefensePoint, pl: Placement)
    requires pl.cellSize > 0.0
    ensures SceneToDefensePoint(DefensePointToScene(p, pl), p.sector, pl) == p <==> IsInsideSector(p)
  {
    hide Into, Fraction, CellOrigin;
    var o := CellOrigin(p.sector, pl);
    AxisDrawn(if pl.transposed then o.y else o.x, p.offsetX, pl.cellSize);
    AxisDrawn(if pl.transposed then o.x else o.y, p.offsetY, pl.cellSize);
  }

  /** A click always names a point inside the sector, and is drawn back where it was exactly when it was in the cell. */
  lemma ClickIsDrawnBackIff(q: Point, s: Sector, pl: Placement)
    requires pl.cellSize > 0.0
    ensures DefensePointToScene(SceneToDefensePoint(q, s, pl), pl) == q <==> InCell(q, s, pl)
    ensures IsInsideSector(SceneToDefensePoint(q, s, pl))
  {
    hide Into, Fraction, CellOrigin;
    var o := CellOrigin(s, pl);
    AxisClick(q.x, o.x, pl.cellSize);
    AxisClick(q.y, o.y, pl.cellSize);
  }

  // ------------------------------------------------------- what Earth covers

  function Corners(x: real, y: real, width: real, height: real): seq<Point> {
    [Point(x, y), Point(x + width, y), Point(x, y + height), Point(x + width, y + height)]
  }

  /** The squared distance from the disc's centre. */
  function FromCentre(p: Point, earth: Disc): real { Square(p.x - earth.cx) + Square(p.y - earth.cy) }

  predicate InDisc(p: Point, earth: Disc) { FromCentre(p, earth) <= Square(earth.r) }

  predicate IsCellCovered(x: real, y: real, width: real, height: real, earth: Disc) {
    forall c :: c in Corners(x, y, width, height) ==> InDisc(c, earth)
  }

  predicate InRect(p: Point, x: real, y: real, width: real, height: real) {
    x <= p.x <= x + width && y <= p.y <= y + height
  }

  /** Between two values a square is at most the larger of theirs. */
  lemma SquareBetween(v: real, lo: real, hi: real)
    requires lo <= v <= hi
    ensures Square(v) <= Square(lo) || Square(v) <= Square(hi)
  {
    if v >= 0.0 {
      SquareBound(v, hi);
    } else {
      SquareBound(v, -lo);
      NegSquare(lo);
    }
  }

  /** Four covered corners cover the whole cell, and nothing less does. */
  lemma CoveredMeansWholly(x: real, y: real, width: real, height: real, earth: Disc)
    requires width >= 0.0 && height >= 0.0
    ensures IsCellCovered(x, y, width, height, earth)
            <==> forall p :: InRect(p, x, y, width, height) ==> InDisc(p, earth)
  {
    hide Square;
    if IsCellCovered(x, y, width, height, earth) {
      forall p | InRect(p, x, y, width, height)
        ensures InDisc(p, earth)
      {
        SquareBetween(p.x - earth.cx, x - earth.cx, x + width - earth.cx);
        SquareBetween(p.y - earth.cy, y - earth.cy, y + height - earth.cy);
        var cs := Corners(x, y, width, height);
        assert cs[0] in cs && cs[1] in cs && cs[2] in cs && cs[3] in cs;
      }
    } else {
      var c :| c in Corners(x, y, width, height) && !InDisc(c, earth);
      assert InRect(c, x, y, width, height);
    }
  }

  function Further(a: Point, b: Point,
                   earth: Disc): Point { if FromCentre(b, earth) > FromCentre(a, earth) then b else a }

  function FurthestCorner(x: real, y: real, width: real, height: real, earth: Disc): Point {
    var c := Corners(x, y, width, height);
    Further(Further(Further(c[0], c[1], earth), c[2], earth), c[3], earth)
  }

  const LABEL_INSET := 14.0

  function MaxInset(width: real, height: real): real { MinReal(LABEL_INSET, MinReal(width / 3.0, height / 3.0)) }

  /** The corner pulled inward by `inset` along both axes. */
  function PulledIn(corner: Point, x: real, y: real, inset: real): Point {
    Point(if corner.x == x then corner.x + inset else corner.x - inset, if corner.y == y then corner.y + inset else corner.y - inset)
  }

  function LabelAnchor(x: real, y: real, width: real, height: real, earth: Disc): Point {
    var centre := Point(x + width / 2.0, y + height / 2.0);
    if !InDisc(centre, earth) then centre
    else
      var furthest, inset := FurthestCorner(x, y, width, height, earth), MaxInset(width, height);
      if !InDisc(PulledIn(furthest, x, y, inset), earth) then PulledIn(furthest, x, y, inset)
      else if !InDisc(PulledIn(furthest, x, y, inset / 2.0), earth) then PulledIn(furthest, x, y, inset / 2.0)
      else if !InDisc(PulledIn(furthest, x, y, inset / 4.0), earth) then PulledIn(furthest, x, y, inset / 4.0)
      else furthest
  }

  lemma FurthestIsFurthest(x: real, y: real, width: real, height: real, earth: Disc)
    ensures FurthestCorner(x, y, width, height, earth) in Corners(x, y, width, height)
    ensures forall c :: c in Corners(x, y, width, height) ==> FromCentre(c, earth) <= FromCentre(FurthestCorner(x, y, width, height, earth), earth)
  {
    hide FromCentre;
  }

  lemma PulledInStays(x: real, y: real, width: real, height: real, corner: Point, inset: real)
    requires corner in Corners(x, y, width, height) && 0.0 <= inset <= width && inset <= height
    ensures InRect(PulledIn(corner, x, y, inset), x, y, width, height)
  {
  }

  /** The label always lies in its cell, and it lies in the open exactly when Earth has not swallowed the cell whole. */
  lemma LabelIsInTheOpenIff(x: real, y: real, width: real, height: real, earth: Disc)
    requires width > 0.0 && height > 0.0
    ensures InRect(LabelAnchor(x, y, width, height, earth), x, y, width, height)
    ensures !InDisc(LabelAnchor(x, y, width, height, earth), earth) <==> !IsCellCovered(x, y, width, height, earth)
  {
    hide FromCentre, FurthestCorner, PulledIn;
    var furthest, inset := FurthestCorner(x, y, width, height, earth), MaxInset(width, height);
    FurthestIsFurthest(x, y, width, height, earth);
    PulledInStays(x, y, width, height, furthest, inset);
    PulledInStays(x, y, width, height, furthest, inset / 2.0);
    PulledInStays(x, y, width, height, furthest, inset / 4.0);
    CoveredMeansWholly(x, y, width, height, earth);
  }

  // ------------------------------------------------------------------ the grid

  datatype GridCell = GridCell(sector: Sector, x: real, y: real, size: real, anchor: Point)

  function CellOf(s: Sector, pl: Placement, earth: Disc): GridCell {
    var o := CellOrigin(s, pl);
    GridCell(s, o.x, o.y, pl.cellSize, LabelAnchor(o.x, o.y, pl.cellSize, pl.cellSize, earth))
  }

  predicate Shown(s: Sector, pl: Placement, earth: Disc) {
    !IsCellCovered(CellOrigin(s, pl).x, CellOrigin(s, pl).y, pl.cellSize, pl.cellSize, earth)
  }

  /** Row by row, then column by column. */
  predicate Before(a: Sector, b: Sector) { a.row < b.row || (a.row == b.row && a.column < b.column) }

  ghost predicate Listed(cells: seq<GridCell>, pl: Placement, earth: Disc, until: Sector, g: Grid) {
    && (forall c :: c in cells ==> IsValidSector(c.sector, g) && Before(c.sector, until) && c == CellOf(c.sector, pl, earth))
    && (forall s :: IsValidSector(s, g) && Before(s, until) ==>
          (Shown(s, pl, earth) <==> exists i :: 0 <= i < |cells| && cells[i].sector == s))
    && (forall i, j :: 0 <= i < j < |cells| ==> Before(cells[i].sector, cells[j].sector))
  }

  /** Every sector Earth leaves visible, once each, in reading order - and no other. */
  method BuildSpaceGrid(g: Grid, pl: Placement, earth: Disc) returns (cells: seq<GridCell>)
    requires g.columns >= 0 && g.rows >= 0
    ensures Listed(cells, pl, earth, Sector(0, g.rows), g)
  {
    hide CellOf, Shown;
    cells := [];
    for row := 0 to g.rows
      invariant Listed(cells, pl, earth, Sector(0, row), g)
    {
      for column := 0 to g.columns
        invariant Listed(cells, pl, earth, Sector(column, row), g)
      {
        cells := AddCell(cells, g, pl, earth, Sector(column, row));
      }
      NextRow(cells, g, pl, earth, row);
    }
  }

  method AddCell(cells: seq<GridCell>, g: Grid, pl: Placement, earth: Disc, s: Sector) returns (more: seq<GridCell>)
    requires IsValidSector(s, g) && Listed(cells, pl, earth, s, g)
    ensures Listed(more, pl, earth, Sector(s.column + 1, s.row), g)
  {
    hide CellOf, Shown, IsCellCovered, LabelAnchor;
    CellNamesItsSector(s, pl, earth);
    more := cells;
    var o := CellOrigin(s, pl);
    ShownIsUncovered(s, pl, earth);
    if !IsCellCovered(o.x, o.y, pl.cellSize, pl.cellSize, earth) {
      more := cells + [CellOf(s, pl, earth)];
      assert more[|cells|].sector == s;
      assert forall i :: 0 <= i < |cells| ==> more[i] == cells[i];
    }
  }

  lemma ShownIsUncovered(s: Sector, pl: Placement, earth: Disc)
    ensures Shown(s, pl, earth) <==> !IsCellCovered(CellOrigin(s, pl).x, CellOrigin(s, pl).y, pl.cellSize, pl.cellSize, earth)
  {
    hide IsCellCovered;
  }

  lemma CellNamesItsSector(s: Sector, pl: Placement, earth: Disc)
    ensures CellOf(s, pl, earth).sector == s
  {
    hide LabelAnchor;
  }

  lemma NextRow(cells: seq<GridCell>, g: Grid, pl: Placement, earth: Disc, row: int)
    requires Listed(cells, pl, earth, Sector(g.columns, row), g)
    ensures Listed(cells, pl, earth, Sector(0, row + 1), g)
  {
    hide CellOf, Shown;
  }
}
