/** Where the teapot's vertices lie. The patches come in as a `Shape`, so that what holds of any of that
    kind is proved without the tables. Arithmetic is exact. */
module TeapotSurface {
  import opened TeapotData
  import opened TeapotLayout
  import opened Bezier

  function Along(p: Point, axis: Axis): real {
    if axis == 0 then p.x else if axis == 1 then p.y else p.z
  }

  // ---------------------------------------------------------------------------------------
  // The control shape

  /** A control value, after the two adjustments. */
  function Adjusted(o: Options, surf: Surface, axis: Axis, v: real): real {
    var fitted := if o.fitLid && 20 <= surf < 28 && axis != 2 then v * 1.077 else v;
    if !o.blinn && axis == 2 then fitted * 1.3 else fitted
  }

  function Control(o: Options, surf: Surface, axis: Axis, k: nat): real
    requires k < 16
  {
    Adjusted(o, surf, axis, Along(Vertex(Patch(surf)[k]), axis))
  }

  function ControlRow(o: Options, surf: Surface, axis: Axis, r: nat): Vec4
    requires r < 4
  {
    Vec4(Control(o, surf, axis, 4 * r), Control(o, surf, axis, 4 * r + 1),
         Control(o, surf, axis, 4 * r + 2), Control(o, surf, axis, 4 * r + 3))
  }

  function Controls(o: Options, surf: Surface, axis: Axis): Matrix {
    Matrix(ControlRow(o, surf, axis, 0), ControlRow(o, surf, axis, 1), ControlRow(o, surf, axis, 2), ControlRow(o, surf, axis, 3))
  }

  /** A coordinate of a patch, for power vectors along s and t. */
  type Shape = (Surface, Axis, Vec4, Vec4) -> real

  function TeapotShape(o: Options): Shape {
    (surf: Surface, axis: Axis, sp: Vec4, tp: Vec4) => Evaluate(Prepared(Controls(o, surf, axis)), sp, tp)
  }

  /** The control point that fills the first row of a cusp patch. */
  function Tip(o: Options, surf: Surface): Point {
    Point(0.0, 0.0, if surf < 28 then o.MaxHeight() else 0.0)
  }

  /** All that is used of the tables: no point is below zero or above the tip of the lid, and the first
      row of a cusp patch is the tip, where the surface has no tangent along that row. */
  ghost predicate Shaped(shape: Shape, o: Options) {
    && (forall surf: Surface, s: real, t: real :: 0.0 <= s <= 1.0 && 0.0 <= t <= 1.0 ==>
          0.0 <= shape(surf, 2, Powers(s), Powers(t)) <= o.MaxHeight())
    && (forall surf: Surface, axis: Axis, t: real {:trigger shape(surf, axis, Powers(0.0), Powers(t))} :: IsCusp(surf) ==>
          shape(surf, axis, Powers(0.0), Powers(t)) == Along(Tip(o, surf), axis))
    && (forall surf: Surface, axis: Axis, t: real {:trigger shape(surf, axis, Powers(0.0), Slopes(t))} :: IsCusp(surf) ==>
          shape(surf, axis, Powers(0.0), Slopes(t)) == 0.0)
  }

  function Constant(k: real): Vec4 {
    Vec4(k, k, k, k)
  }

  lemma ControlHeight(o: Options, surf: Surface, k: nat)
    requires k < 16
    ensures 0.0 <= Control(o, surf, 2, k) <= o.MaxHeight()
  {
    var z := Vertex(Patch(surf)[k]).z;
  }

  lemma ControlHeights(o: Options, surf: Surface, r: nat)
    requires r < 4
    ensures Between(0.0, ControlRow(o, surf, 2, r), o.MaxHeight())
  {
    ControlHeight(o, surf, 4 * r);
    ControlHeight(o, surf, 4 * r + 1);
    ControlHeight(o, surf, 4 * r + 2);
    ControlHeight(o, surf, 4 * r + 3);
  }

  lemma TipControl(o: Options, surf: Surface, axis: Axis, k: nat)
    requires IsCusp(surf) && k < 4
    ensures Control(o, surf, axis, k) == Along(Tip(o, surf), axis)
  {
    var tip := Patch(surf)[k];
  }

  lemma TipRow(o: Options, surf: Surface, axis: Axis)
    requires IsCusp(surf)
    ensures ControlRow(o, surf, axis, 0) == Constant(Along(Tip(o, surf), axis))
  {
    TipControl(o, surf, axis, 0);
    TipControl(o, surf, axis, 1);
    TipControl(o, surf, axis, 2);
    TipControl(o, surf, axis, 3);
  }

  lemma HeightsOf(o: Options, surf: Surface, s: real, t: real)
    requires 0.0 <= s <= 1.0 && 0.0 <= t <= 1.0
    ensures 0.0 <= Evaluate(Prepared(Controls(o, surf, 2)), Powers(s), Powers(t)) <= o.MaxHeight()
  {
    ControlHeights(o, surf, 0);
    ControlHeights(o, surf, 1);
    ControlHeights(o, surf, 2);
    ControlHeights(o, surf, 3);
    PatchStaysWithin(Controls(o, surf, 2), 0.0, o.MaxHeight(), s, t);
  }

  lemma EdgeOf(o: Options, surf: Surface, axis: Axis, t: real)
    requires IsCusp(surf)
    ensures Evaluate(Prepared(Controls(o, surf, axis)), Powers(0.0), Powers(t)) == Along(Tip(o, surf), axis)
    ensures Evaluate(Prepared(Controls(o, surf, axis)), Powers(0.0), Slopes(t)) == 0.0
  {
    TipRow(o, surf, axis);
    EdgeCollapses(Controls(o, surf, axis), Along(Tip(o, surf), axis), t);
  }

  /** `shape` is that of the control values. */
  ghost predicate Follows(shape: Shape, o: Options) {
    forall surf: Surface, axis: Axis, sp: Vec4, tp: Vec4 {:trigger Evaluate(Prepared(Controls(o, surf, axis)), sp, tp)} ::
      shape(surf, axis, sp, tp) == Evaluate(Prepared(Controls(o, surf, axis)), sp, tp)
  }

  lemma HeightsFollow(shape: Shape, o: Options, surf: Surface, s: real, t: real)
    requires Follows(shape, o) && 0.0 <= s <= 1.0 && 0.0 <= t <= 1.0
    ensures 0.0 <= shape(surf, 2, Powers(s), Powers(t)) <= o.MaxHeight()
  {
    HeightsOf(o, surf, s, t);
  }

  lemma EdgesFollow(shape: Shape, o: Options, surf: Surface, axis: Axis, t: real)
    requires Follows(shape, o) && IsCusp(surf)
    ensures shape(surf, axis, Powers(0.0), Powers(t)) == Along(Tip(o, surf), axis)
    ensures shape(surf, axis, Powers(0.0), Slopes(t)) == 0.0
  {
    EdgeOf(o, surf, axis, t);
  }

  lemma FollowingIsShaped(shape: Shape, o: Options)
    requires Follows(shape, o)
    ensures Shaped(shape, o)
  {
    forall surf: Surface, s: real, t: real | 0.0 <= s <= 1.0 && 0.0 <= t <= 1.0
      ensures 0.0 <= shape(surf, 2, Powers(s), Powers(t)) <= o.MaxHeight()
    {
      HeightsFollow(shape, o, surf, s, t);
    }
    forall surf: Surface, axis: Axis, t: real | IsCusp(surf)
      ensures shape(surf, axis, Powers(0.0), Powers(t)) == Along(Tip(o, surf), axis)
    {
      EdgesFollow(shape, o, surf, axis, t);
    }
    forall surf: Surface, axis: Axis, t: real | IsCusp(surf)
      ensures shape(surf, axis, Powers(0.0), Slopes(t)) == 0.0
    {
      EdgesFollow(shape, o, surf, axis, t);
    }
  }

  lemma TeapotIsShaped(o: Options)
    ensures Follows(TeapotShape(o), o) && Shaped(TeapotShape(o), o)
  {
    FollowingIsShaped(TeapotShape(o), o);
  }

  // ---------------------------------------------------------------------------------------
  // Points and normals

  /** A point of a patch, or one of its tangents, for power vectors `sp` and `tp`. */
  function Triple(shape: Shape, surf: Surface, sp: Vec4, tp: Vec4): Point {
    Point(shape(surf, 0, sp, tp), shape(surf, 1, sp, tp), shape(surf, 2, sp, tp))
  }

  /** The output turns the z axis of the data up, and centres it. */
  function Placed(o: Options, v: Point): Point {
    Point(o.TrueSize() * v.x, o.TrueSize() * (v.z - o.MaxHeight() / 2.0), -o.TrueSize() * v.y)
  }

  // ---------------------------------------------------------------------------------------
  // What the output keeps of the surface

  function Minus(v: Point, w: Point): Point {
    Point(v.x - w.x, v.y - w.y, v.z - w.z)
  }

  function Times(k: real, v: Point): Point {
    Point(k * v.x, k * v.y, k * v.z)
  }

  function Inner(v: Point, w: Point): real {
    v.x * w.x + v.y * w.y + v.z * w.z
  }

  function Det(u: Point, v: Point, w: Point): real {
    u.x * (v.y * w.z - v.z * w.y) - u.y * (v.x * w.z - v.z * w.x) + u.z * (v.x * w.y - v.y * w.x)
  }

  /** A quarter turn about the x axis, which brings z up. */
  function Turned(v: Point): Point {
    Point(v.x, v.z, -v.y)
  }

  /** The turn keeps lengths, angles and orientation. */
  lemma TurnedKeeps(u: Point, v: Point, w: Point)
    ensures Inner(Turned(v), Turned(w)) == Inner(v, w) && Det(Turned(u), Turned(v), Turned(w)) == Det(u, v, w)
    ensures Det(Point(1.0, 0.0, 0.0), Point(0.0, 1.0, 0.0), Point(0.0, 0.0, 1.0)) == 1.0
  {
  }

  /** The output point `p` is the point `v` of the surface: turned, scaled so that the whole height becomes
      twice the size, and centred. */
  predicate Shows(o: Options, p: Point, v: Point) {
    && p.x * o.MaxHeight() == 2.0 * o.size * v.x
    && p.y * o.MaxHeight() == 2.0 * o.size * v.z - o.size * o.MaxHeight()
    && p.z * o.MaxHeight() == -(2.0 * o.size * v.y)
  }

  lemma Regroup(t: real, h: real, size: real, x: real)
    requires t * (h / 2.0) == size
    ensures (t * x) * h == 2.0 * size * x
  {
    assert t * h == 2.0 * size;
    assert (t * x) * h == (t * h) * x;
  }

  lemma PlacedShows(o: Options, v: Point)
    ensures Shows(o, Placed(o, v), v)
  {
    var t, h := o.TrueSize(), o.MaxHeight();
    assert t * (h / 2.0) == o.size;
    Regroup(t, h, o.size, v.x);
    Regroup(t, h, o.size, v.z - h / 2.0);
    Regroup(t, h, o.size, v.y);
    assert 2.0 * o.size * (v.z - h / 2.0) == 2.0 * o.size * v.z - o.size * h;
    assert (-t * v.y) * h == -((t * v.y) * h);
  }

  /** Output points are as far apart as the points of the surface, up to the scale. */
  lemma PlacedKeepsDistances(o: Options, v: Point, w: Point)
    ensures Similar(o.TrueSize(), Minus(Placed(o, v), Placed(o, w)), Minus(v, w))
  {
    DifferencePlaced(o.TrueSize(), o.MaxHeight() / 2.0, v, w);
    TimesTurned(o.TrueSize(), Minus(v, w));
  }

  /** The vector `d` is `e` turned, and `t` times as long. */
  predicate Similar(t: real, d: Point, e: Point) {
    d == Times(t, Turned(e)) && Inner(d, d) == t * t * Inner(e, e)
  }

  lemma TimesTurned(t: real, e: Point)
    ensures Similar(t, Times(t, Turned(e)), e)
  {
    TurnedKeeps(e, e, e);
    InnerOfTimes(t, Turned(e), Inner(e, e));
  }

  lemma DifferencePlaced(t: real, h: real, v: Point, w: Point)
    ensures Minus(Point(t * v.x, t * (v.z - h), -t * v.y), Point(t * w.x, t * (w.z - h), -t * w.y)) == Times(t, Turned(Minus(v, w)))
  {
    Distributes(t, v.x, w.x);
    Distributes(t, v.z - h, w.z - h);
    Distributes(t, -v.y, -w.y);
  }

  lemma Distributes(t: real, x: real, y: real)
    ensures t * x - t * y == t * (x - y)
  {
  }

  lemma InnerOfTimes(t: real, v: Point, length: real)
    requires length == Inner(v, v)
    ensures Inner(Times(t, v), Times(t, v)) == t * t * length
  {
    Square(t, v.x);
    Square(t, v.y);
    Square(t, v.z);
  }

  lemma Square(t: real, x: real)
    ensures (t * x) * (t * x) == t * t * (x * x)
  {
  }

  /** Different points of the surface have different places in the output. */
  lemma PlacedIsOneToOne(o: Options, v: Point, w: Point)
    requires o.size != 0.0 && Placed(o, v) == Placed(o, w)
    ensures v == w
  {
    PlacedShows(o, v);
    PlacedShows(o, w);
    Cancels(2.0 * o.size, v.x, w.x);
    Cancels(2.0 * o.size, v.y, w.y);
    Cancels(2.0 * o.size, v.z, w.z);
  }

  lemma Cancels(k: real, x: real, y: real)
    requires k != 0.0 && k * x == k * y
    ensures x == y
  {
    assert k * (x - y) == 0.0;
  }

  /** The vector `c` is orthogonal to both tangents of the output, on the side of the tangent along t
      times the one along s, and as long as their product. */
  predicate Orthogonal(c: Point, sdir: Point, tdir: Point) {
    && Inner(Turned(c), Turned(sdir)) == 0.0 && Inner(Turned(c), Turned(tdir)) == 0.0
    && Det(Turned(tdir), Turned(sdir), Turned(c)) == Inner(Turned(c), Turned(c))
    && Inner(c, c) == Inner(sdir, sdir) * Inner(tdir, tdir) - Inner(sdir, tdir) * Inner(sdir, tdir)
  }

  /** Off the axis of the pot, what becomes of a normal in the output: `unit` of an orthogonal vector, turned
      as the points are. */
  ghost predicate PointsAway(normal: Point, unit: Point -> Point, sdir: Point, tdir: Point) {
    exists c: Point {:trigger unit(c)} :: normal == Turned(unit(c)) && Orthogonal(c, sdir, tdir)
  }

  lemma CrossIsOrthogonal(sdir: Point, tdir: Point)
    ensures Orthogonal(Cross(tdir, sdir), sdir, tdir)
  {
    var c := Cross(tdir, sdir);
    TurnedKeeps(tdir, sdir, c);
    TurnedKeeps(tdir, c, c);
    TurnedKeeps(tdir, c, sdir);
    TurnedKeeps(sdir, c, tdir);
    CrossInner(sdir, tdir);
    Lagrange(sdir, tdir);
  }

  lemma CrossInner(s: Point, t: Point)
    ensures Inner(Cross(t, s), s) == 0.0 && Inner(Cross(t, s), t) == 0.0
    ensures Det(t, s, Cross(t, s)) == Inner(Cross(t, s), Cross(t, s))
  {
  }

  lemma Lagrange(s: Point, t: Point)
    ensures Inner(Cross(t, s), Cross(t, s)) == Inner(s, s) * Inner(t, t) - Inner(s, t) * Inner(s, t)
  {
  }

  lemma NormalPointsAway(o: Options, unit: Point -> Point, v: Point, sdir: Point, tdir: Point)
    requires v.x != 0.0 || v.y != 0.0
    ensures PointsAway(Normal(o, unit, v, sdir, tdir), unit, sdir, tdir)
  {
    CrossIsOrthogonal(sdir, tdir);
    assert Normal(o, unit, v, sdir, tdir) == Turned(unit(Cross(tdir, sdir)));
  }

  function Cross(v: Point, w: Point): Point {
    Point(v.y * w.z - v.z * w.y, v.z * w.x - v.x * w.z, v.x * w.y - v.y * w.x)
  }

  /** `unit` stands for `normalize`. */
  function Normal(o: Options, unit: Point -> Point, v: Point, sdir: Point, tdir: Point): Point {
    if v.x == 0.0 && v.y == 0.0 then Point(0.0, if v.z > o.MaxHeight() / 2.0 then 1.0 else -1.0, 0.0)
    else
      var n := unit(Cross(tdir, sdir));
      Point(n.x, n.z, -n.y)
  }

  function Vertexed(o: Options, unit: Point -> Point, shape: Shape, surf: Surface, s: real, t: real): Corner {
    var v := Triple(shape, surf, Powers(s), Powers(t));
    Corner(Placed(o, v),
           Normal(o, unit, v, Triple(shape, surf, Slopes(s), Powers(t)), Triple(shape, surf, Powers(s), Slopes(t))),
           1.0 - t, 1.0 - s)
  }

  function Step(n: Segments, i: nat): real {
    i as real / n as real
  }

  lemma StepRange(n: Segments, i: nat)
    requires i <= n
    ensures 0.0 <= Step(n, i) <= 1.0 && (i == 0 ==> Step(n, i) == 0.0)
  {
    var q, d := Step(n, i), n as real;
    assert q * d == i as real;
    if q < 0.0 {
      Product(-q, d);
    } else if q > 1.0 {
      Product(q - 1.0, d);
    }
  }

  /** `at` lists the vertices of a shape. */
  ghost predicate Draws(at: At, o: Options, unit: Point -> Point, shape: Shape) {
    forall surf: Surface, i: nat, j: nat {:trigger Vertexed(o, unit, shape, surf, Step(o.segments, i), Step(o.segments, j))} ::
      at(surf, i, j) == Vertexed(o, unit, shape, surf, Step(o.segments, i), Step(o.segments, j))
  }

  function Drawn(o: Options, unit: Point -> Point, shape: Shape): At {
    (surf: Surface, i: nat, j: nat) => Vertexed(o, unit, shape, surf, Step(o.segments, i), Step(o.segments, j))
  }

  lemma DrawnDraws(o: Options, unit: Point -> Point, shape: Shape)
    ensures var at := Drawn(o, unit, shape); Draws(at, o, unit, shape) && Filters(KeepOf(at), at)
  {
  }

  lemma Scaling(size: real, half: real, z: real)
    requires half > 0.0 && 0.0 <= z <= 2.0 * half
    ensures size >= 0.0 ==> -size <= size / half * (z - half) <= size
    ensures size <= 0.0 ==> size <= size / half * (z - half) <= -size
  {
    var q := (z - half) / half;
    assert q * half == z - half;
    Scaled(half, -1.0, q);
    assert -1.0 <= q <= 1.0;
    assert size / half * (z - half) == size * q;
    if size >= 0.0 {
      Scaled(size, -1.0, q);
      Scaled(size, q, 1.0);
    } else {
      Scaled(-size, -1.0, q);
      Scaled(-size, q, 1.0);
    }
  }

  /** Between -size and size. */
  predicate Within(o: Options, y: real) {
    (o.size >= 0.0 ==> -o.size <= y <= o.size) && (o.size <= 0.0 ==> o.size <= y <= -o.size)
  }

  /** No point of a patch is further than `size` above or below the middle. */
  lemma HeightWithin(o: Options, unit: Point -> Point, shape: Shape, surf: Surface, s: real, t: real)
    requires Shaped(shape, o) && 0.0 <= s <= 1.0 && 0.0 <= t <= 1.0
    ensures Within(o, Vertexed(o, unit, shape, surf, s, t).pos.y)
  {
    Scaling(o.size, o.MaxHeight() / 2.0, shape(surf, 2, Powers(s), Powers(t)));
  }

  ghost predicate AllWithin(o: Options, cs: seq<Corner>) {
    forall k :: 0 <= k < |cs| ==> Within(o, cs[k].pos.y)
  }

  /** Every vertex the loops emit lies between -size and size. */
  lemma {:induction false} CornersWithin(o: Options, unit: Point -> Point, shape: Shape, at: At, surf: nat, i: nat, j: nat)
    requires Draws(at, o, unit, shape) && Shaped(shape, o) && (surf < 32 || (surf == 32 && i == j == 0))
    requires (i <= o.segments && j <= o.segments + 1) || (i == o.segments + 1 && j == 0)
    ensures AllWithin(o, Corners(o, at, surf, i, j))
    decreases surf, i, j
  {
    if j > 0 {
      CornersWithin(o, unit, shape, at, surf, i, j - 1);
      StepRange(o.segments, i);
      StepRange(o.segments, j - 1);
      HeightWithin(o, unit, shape, surf, Step(o.segments, i), Step(o.segments, j - 1));
    } else if i > 0 {
      CornersWithin(o, unit, shape, at, surf, i - 1, o.segments + 1);
    } else if surf > 0 {
      if o.Uses(surf - 1) {
        CornersWithin(o, unit, shape, at, surf - 1, o.segments + 1, 0);
      } else {
        CornersWithin(o, unit, shape, at, surf - 1, 0, 0);
      }
    }
  }

  lemma CrossOfZero(v: Point)
    ensures Cross(Point(0.0, 0.0, 0.0), v) == Point(0.0, 0.0, 0.0)
  {
  }

  /** The edge s = 0 of a cusp patch is one point. The tangent along it vanishes, and with it the cross
      product, which is why the normal is set to point straight up or down. */
  lemma CuspCollapses(o: Options, unit: Point -> Point, shape: Shape, surf: Surface, t: real)
    requires Shaped(shape, o) && IsCusp(surf)
    ensures Vertexed(o, unit, shape, surf, 0.0, t).pos == Placed(o, Tip(o, surf))
    ensures Vertexed(o, unit, shape, surf, 0.0, t).normal == Point(0.0, if surf < 28 then 1.0 else -1.0, 0.0)
    ensures Cross(Triple(shape, surf, Powers(0.0), Slopes(t)), Triple(shape, surf, Slopes(0.0), Powers(t))) == Point(0.0, 0.0, 0.0)
  {
    assert Triple(shape, surf, Powers(0.0), Powers(t)) == Tip(o, surf);
    CrossOfZero(Triple(shape, surf, Slopes(0.0), Powers(t)));
  }

  lemma DrawnCuspsMeet(at: At, o: Options, unit: Point -> Point, shape: Shape)
    requires Draws(at, o, unit, shape) && Shaped(shape, o)
    ensures CuspsMeet(at)
  {
    forall surf: Surface, j: nat | IsCusp(surf) ensures at(surf, 0, j).pos == Placed(o, Tip(o, surf)) {
      StepRange(o.segments, 0);
      CuspCollapses(o, unit, shape, surf, Step(o.segments, j));
    }
  }

  /** For every size, number of segments and choice of parts: the vertices fill their buffer exactly, none
      is further than `size` above or below the middle, and the triangles kept fit the index buffer. */
  lemma TeapotFits(o: Options, unit: Point -> Point, at: At, keep: Keep)
    requires Draws(at, o, unit, TeapotShape(o)) && Filters(keep, at)
    ensures |AllCorners(o, at)| == o.NumVertices()
    ensures AllWithin(o, AllCorners(o, at))
    ensures |AllFaces(o, keep)| <= o.NumTriangles()
  {
    var shape := TeapotShape(o);
    TeapotIsShaped(o);
    DrawnCuspsMeet(at, o, unit, shape);
    MeetingIsDropped(keep, at);
    VerticesFill(o, at);
    CornersWithin(o, unit, shape, at, o.MaxPatches(), 0, 0);
    FacesFit(o, keep);
  }
}
