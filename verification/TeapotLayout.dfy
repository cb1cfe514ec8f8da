/** What the tessellation draws and in which order: patches, rows of vertices, and the triangles kept.
    `At` is where the vertices lie; nothing here depends on the shape of the patches. */
module TeapotLayout {
  import opened Dicts
  import opened TeapotData

  /** The constructor's arguments; one left undefined is `None`. */
  datatype Request = Request(
    size: Option<real>, segments: Option<real>, bottom: Option<bool>, lid: Option<bool>, body: Option<bool>,
    fitLid: Option<bool>, blinn: Option<bool>)

  type Segments = n: nat | n >= 2 witness 2

  datatype Options = Options(
    size: real, segments: Segments, bottom: bool, lid: bool, body: bool, fitLid: bool, blinn: bool)
  {
    function MaxHeight(): real {
      3.15 * (if blinn then 1.0 else 1.3)
    }

    function TrueSize(): real {
      size / (MaxHeight() / 2.0)
    }

    function NumTriangles(): int {
      (if bottom then (8 * segments - 4) * segments else 0)
      + (if lid then (16 * segments - 4) * segments else 0)
      + (if body then 40 * segments * segments else 0)
    }

    function NumVertices(): nat {
      ((if bottom then 4 else 0) + (if lid then 8 else 0) + (if body then 20 else 0)) * ((segments + 1) * (segments + 1))
    }

    function MinPatches(): nat {
      if body then 0 else 20
    }

    function MaxPatches(): nat {
      if bottom then 32 else 28
    }

    /** The patches the outer loop does not skip. */
    predicate Uses(surf: nat) {
      MinPatches() <= surf < MaxPatches() && (lid || surf < 20 || surf >= 28)
    }
  }

  function OrTrue(flag: Option<bool>): bool {
    if flag.Some? then flag.value else true
  }

  function Resolve(q: Request): Options
  {
    Options(if q.size.Some? && q.size.value != 0.0 then q.size.value else 50.0,
            if q.segments.Some? then AtLeastTwo(q.segments.value.Floor) else 10,
            OrTrue(q.bottom), OrTrue(q.lid), OrTrue(q.body), OrTrue(q.fitLid), OrTrue(q.blinn))
  }

  /** `Math.max(2, n || 10)`. */
  function AtLeastTwo(n: int): Segments
  {
    if n == 0 then 10 else if n < 2 then 2 else n
  }

  // ---------------------------------------------------------------------------------------
  // Vertices

  datatype Corner = Corner(pos: Point, normal: Point, u: real, v: real)

  /** The vertex of a patch for the i-th step along s and the j-th along t. */
  type At = (Surface, nat, nat) -> Corner

  /** The vertices written when the loops come to the j-th of row `i` of patch `surf`. */
  function Corners(o: Options, at: At, surf: nat, i: nat, j: nat): seq<Corner>
    requires surf < 32 || (surf == 32 && i == j == 0)
    decreases surf, i, j
  {
    if j > 0 then Corners(o, at, surf, i, j - 1) + [at(surf, i, j - 1)]
    else if i > 0 then Corners(o, at, surf, i - 1, o.segments + 1)
    else if surf == 0 then []
    else if o.Uses(surf - 1) then Corners(o, at, surf - 1, o.segments + 1, 0)
    else Corners(o, at, surf - 1, 0, 0)
  }

  /** All vertices of the geometry. */
  function AllCorners(o: Options, at: At): seq<Corner> {
    Corners(o, at, o.MaxPatches(), 0, 0)
  }

  /** `surfCount` when the loop reaches `surf`. */
  function Used(o: Options, surf: nat): nat {
    if surf == 0 then 0 else Used(o, surf - 1) + (if o.Uses(surf - 1) then 1 else 0)
  }

  /** How many of the first `k` patches are among the `count` that begin at `from`. */
  function Overlap(from: nat, count: nat, k: nat): nat {
    if k <= from then 0 else if k - from < count then k - from else count
  }

  lemma {:induction false} UsedIs(o: Options, surf: nat)
    requires surf <= 32
    ensures Used(o, surf) == (if o.body then Overlap(0, 20, surf) else 0) + (if o.lid then Overlap(20, 8, surf) else 0)
                           + (if o.bottom then Overlap(28, 4, surf) else 0)
  {
    if surf > 0 {
      UsedIs(o, surf - 1);
    }
  }

  lemma OneMore(a: int, b: int)
    ensures (a + 1) * b == a * b + b
  {
  }

  /** The number of vertices of one patch. */
  function PerPatch(n: nat): nat {
    (n + 1) * (n + 1)
  }

  /** `surfCount * vertPerRow * vertPerRow + sstep * vertPerRow + tstep`. */
  function V(o: Options, surf: nat, i: nat, j: nat): nat {
    Used(o, surf) * PerPatch(o.segments) + (i * (o.segments + 1) + j)
  }

  lemma VSteps(o: Options, surf: nat, i: nat, j: nat)
    ensures V(o, surf, i, j + 1) == V(o, surf, i, j) + 1
    ensures V(o, surf, i + 1, 0) == V(o, surf, i, o.segments + 1)
    ensures V(o, surf + 1, 0, 0) == if o.Uses(surf) then V(o, surf, o.segments + 1, 0) else V(o, surf, 0, 0)
  {
    OneMore(i, o.segments + 1);
    OneMore(Used(o, surf), PerPatch(o.segments));
  }

  /** A vertex is written at the place its number says. */
  lemma {:induction false} CornersLength(o: Options, at: At, surf: nat, i: nat, j: nat)
    requires surf < 32 || (surf == 32 && i == j == 0)
    ensures |Corners(o, at, surf, i, j)| == V(o, surf, i, j)
    decreases surf, i, j
  {
    if j > 0 {
      CornersLength(o, at, surf, i, j - 1);
    } else if i > 0 {
      CornersLength(o, at, surf, i - 1, o.segments + 1);
      VSteps(o, surf, i - 1, 0);
    } else if surf > 0 {
      VSteps(o, surf - 1, 0, 0);
      if o.Uses(surf - 1) {
        CornersLength(o, at, surf - 1, o.segments + 1, 0);
      } else {
        CornersLength(o, at, surf - 1, 0, 0);
      }
    }
  }

  /** The loops write exactly as many vertices as the buffers hold, and none before the first patch. */
  lemma VerticesFill(o: Options, at: At)
    ensures |AllCorners(o, at)| == o.NumVertices()
    ensures Corners(o, at, o.MinPatches(), 0, 0) == []
  {
    UsedIs(o, o.MaxPatches());
    UsedIs(o, o.MinPatches());
    CornersLength(o, at, o.MaxPatches(), 0, 0);
    CornersLength(o, at, o.MinPatches(), 0, 0);
  }

  /** One place of the loops comes before another. */
  predicate Before(surf: nat, i: nat, j: nat, surf': nat, i': nat, j': nat) {
    surf < surf' || (surf == surf' && (i < i' || (i == i' && j < j')))
  }

  /** Every number a face can hold is that of a vertex already written, and the vertex is the right one. */
  lemma {:induction false} CornersAt(o: Options, at: At, surf: Surface, i: nat, j: nat, surf': nat, i': nat, j': nat)
    requires o.Uses(surf) && i <= o.segments && j <= o.segments && Before(surf, i, j, surf', i', j')
    requires surf' < 32 || (surf' == 32 && i' == j' == 0)
    ensures V(o, surf, i, j) < |Corners(o, at, surf', i', j')|
    ensures Corners(o, at, surf', i', j')[V(o, surf, i, j)] == at(surf, i, j)
    decreases surf', i', j'
  {
    if j' > 0 {
      if surf == surf' && i == i' && j == j' - 1 {
        CornersLength(o, at, surf, i, j);
      } else {
        CornersAt(o, at, surf, i, j, surf', i', j' - 1);
      }
    } else if i' > 0 {
      CornersAt(o, at, surf, i, j, surf', i' - 1, o.segments + 1);
    } else if o.Uses(surf' - 1) {
      CornersAt(o, at, surf, i, j, surf' - 1, o.segments + 1, 0);
    } else {
      CornersAt(o, at, surf, i, j, surf' - 1, 0, 0);
    }
  }

  lemma CornersGrow(o: Options, at: At, surf: Surface, i: nat, j: nat)
    requires o.Uses(surf) && i <= o.segments && j <= o.segments
    ensures |Corners(o, at, surf, i, j)| < o.NumVertices()
  {
    CornersLength(o, at, surf, i, j);
    CornersAt(o, at, surf, i, j, o.MaxPatches(), 0, 0);
    VerticesFill(o, at);
  }

  // ---------------------------------------------------------------------------------------
  // Faces

  /** One of the two triangles of a cell: `v1, v2, v3`, or for `lower` `v1, v3, v4`. */
  datatype Face = Face(surf: Surface, i: nat, j: nat, lower: bool)
  {
    /** The places of its three corners in the grid of its patch. */
    function Place(k: nat): (nat, nat) {
      if k == 0 then (i, j)
      else if k == 1 then (if lower then (i + 1, j + 1) else (i, j + 1))
      else if lower then (i + 1, j) else (i + 1, j + 1)
    }
  }

  function Pos(at: At, f: Face, k: nat): Point {
    at(f.surf, f.Place(k).0, f.Place(k).1).pos
  }

  /** What is written to the index buffer for corner `k`. */
  function Index(o: Options, f: Face, k: nat): nat {
    V(o, f.surf, f.Place(k).0, f.Place(k).1)
  }

  /** `notDegenerate`. */
  predicate Kept(at: At, f: Face) {
    Pos(at, f, 0) != Pos(at, f, 1) && Pos(at, f, 0) != Pos(at, f, 2) && Pos(at, f, 1) != Pos(at, f, 2)
  }

  /** Which triangles are kept. */
  type Keep = Face -> bool

  ghost predicate Filters(keep: Keep, at: At) {
    forall f: Face {:trigger Kept(at, f)} :: keep(f) <==> Kept(at, f)
  }

  function KeepOf(at: At): Keep {
    (f: Face) => Kept(at, f)
  }

  function IfKept(keep: Keep, f: Face): seq<Face> {
    if keep(f) then [f] else []
  }

  function CellFaces(keep: Keep, surf: Surface, i: nat, j: nat): seq<Face> {
    IfKept(keep, Face(surf, i, j, false)) + IfKept(keep, Face(surf, i, j, true))
  }

  /** The faces kept when the loops come to cell `j` of row `i` of patch `surf`. */
  function Faces(o: Options, keep: Keep, surf: nat, i: nat, j: nat): seq<Face>
    requires surf < 32 || (surf == 32 && i == j == 0)
    decreases surf, i, j
  {
    if j > 0 then Faces(o, keep, surf, i, j - 1) + CellFaces(keep, surf, i, j - 1)
    else if i > 0 then Faces(o, keep, surf, i - 1, o.segments)
    else if surf == 0 then []
    else if o.Uses(surf - 1) then Faces(o, keep, surf - 1, o.segments, 0)
    else Faces(o, keep, surf - 1, 0, 0)
  }

  /** All faces of the geometry. */
  function AllFaces(o: Options, keep: Keep): seq<Face> {
    Faces(o, keep, o.MaxPatches(), 0, 0)
  }

  /** The first row of every cusp patch is a single point. */
  ghost predicate CuspsMeet(at: At) {
    forall surf: Surface, j: nat, j': nat :: IsCusp(surf) ==> at(surf, 0, j).pos == at(surf, 0, j').pos
  }

  /** The upper triangle of every cell in the first row of a cusp patch is dropped. */
  ghost predicate CuspsDrop(keep: Keep) {
    forall surf: Surface, j: nat :: IsCusp(surf) ==> !keep(Face(surf, 0, j, false))
  }

  lemma MeetingIsDropped(keep: Keep, at: At)
    requires Filters(keep, at) && CuspsMeet(at)
    ensures CuspsDrop(keep)
  {
    forall surf: Surface, j: nat | IsCusp(surf) ensures !keep(Face(surf, 0, j, false)) {
      assert !Kept(at, Face(surf, 0, j, false));
    }
  }

  /** How many cusp patches are drawn before `surf`. */
  function Cusps(o: Options, surf: nat): nat {
    if surf == 0 then 0 else Cusps(o, surf - 1) + (if o.Uses(surf - 1) && IsCusp(surf - 1) then 1 else 0)
  }

  lemma {:induction false} CuspsIs(o: Options, surf: nat)
    requires surf <= 32
    ensures Cusps(o, surf) == (if o.lid then Overlap(20, 4, surf) else 0) + (if o.bottom then Overlap(28, 4, surf) else 0)
  {
    if surf > 0 {
      CuspsIs(o, surf - 1);
    }
  }

  /** Two triangles for every cell passed, less one for every cell in the first row of a cusp patch. */
  function Bound(o: Options, surf: nat, i: nat, j: nat): int {
    Used(o, surf) * (o.segments * (2 * o.segments)) - Cusps(o, surf) * o.segments
    + i * (2 * o.segments) + 2 * j - (if !IsCusp(surf) then 0 else if i > 0 then o.segments else j)
  }

  lemma BoundSteps(o: Options, surf: nat, i: nat)
    ensures Bound(o, surf, i + 1, 0) == Bound(o, surf, i, o.segments)
    ensures Bound(o, surf + 1, 0, 0) == if o.Uses(surf) then Bound(o, surf, o.segments, 0) else Bound(o, surf, 0, 0)
  {
    OneMore(i, 2 * o.segments);
    OneMore(Used(o, surf), o.segments * (2 * o.segments));
    OneMore(Cusps(o, surf), o.segments);
  }

  lemma {:induction false} FacesBound(o: Options, keep: Keep, surf: nat, i: nat, j: nat)
    requires CuspsDrop(keep) && (surf < 32 || (surf == 32 && i == j == 0))
    ensures |Faces(o, keep, surf, i, j)| <= Bound(o, surf, i, j)
    decreases surf, i, j
  {
    if j > 0 {
      FacesBound(o, keep, surf, i, j - 1);
    } else if i > 0 {
      FacesBound(o, keep, surf, i - 1, o.segments);
      BoundSteps(o, surf, i - 1);
    } else if surf > 0 {
      BoundSteps(o, surf - 1, 0);
      if o.Uses(surf - 1) {
        FacesBound(o, keep, surf - 1, o.segments, 0);
      } else {
        FacesBound(o, keep, surf - 1, 0, 0);
      }
    }
  }

  /** The triangles kept never overflow the index buffer, whatever is drawn. */
  lemma FacesFit(o: Options, keep: Keep)
    requires CuspsDrop(keep)
    ensures |AllFaces(o, keep)| <= o.NumTriangles()
    ensures Faces(o, keep, o.MinPatches(), 0, 0) == []
  {
    FacesBound(o, keep, o.MaxPatches(), 0, 0);
    FacesBound(o, keep, o.MinPatches(), 0, 0);
    UsedIs(o, o.MaxPatches());
    CuspsIs(o, o.MaxPatches());
    UsedIs(o, o.MinPatches());
    CuspsIs(o, o.MinPatches());
    Sizes(o.bottom, o.lid, o.body, o.segments);
  }

  /** Faces are only ever added. */
  lemma {:induction false} FacesGrow(o: Options, keep: Keep, surf: Surface, i: nat, j: nat, surf': nat, i': nat, j': nat)
    requires o.Uses(surf) && i < o.segments && j < o.segments && Before(surf, i, j, surf', i', j')
    requires surf' < 32 || (surf' == 32 && i' == j' == 0)
    ensures |Faces(o, keep, surf, i, j)| + |CellFaces(keep, surf, i, j)| <= |Faces(o, keep, surf', i', j')|
    decreases surf', i', j'
  {
    if j' > 0 {
      if surf != surf' || i != i' || j != j' - 1 {
        FacesGrow(o, keep, surf, i, j, surf', i', j' - 1);
      }
    } else if i' > 0 {
      FacesGrow(o, keep, surf, i, j, surf', i' - 1, o.segments);
    } else if o.Uses(surf' - 1) {
      FacesGrow(o, keep, surf, i, j, surf' - 1, o.segments, 0);
    } else {
      FacesGrow(o, keep, surf, i, j, surf' - 1, 0, 0);
    }
  }

  lemma Sizes(bottom: bool, lid: bool, body: bool, n: nat)
    ensures var used := (if body then 20 else 0) + (if lid then 8 else 0) + (if bottom then 4 else 0);
      var cusps := (if lid then 4 else 0) + (if bottom then 4 else 0);
      used * (n * (2 * n)) - cusps * n ==
      (if bottom then (8 * n - 4) * n else 0) + (if lid then (16 * n - 4) * n else 0) + (if body then 40 * n * n else 0)
  {
    var q := n * n;
    assert n * (2 * n) == 2 * q;
    assert (8 * n - 4) * n == 8 * q - 4 * n;
    assert (16 * n - 4) * n == 16 * q - 4 * n;
    assert 40 * n * n == 40 * q;
  }
}
