/** The triangles as a surface: how their sides meet. */
module TeapotMesh {
  import opened Dicts
  import opened TeapotData
  import opened TeapotLayout

  /** Both triangles of every cell of a patch that is drawn, before any is dropped. */
  predicate InMesh(o: Options, f: Face) {
    o.Uses(f.surf) && f.i < o.segments && f.j < o.segments
  }

  /** The k-th side of a face, from one of its corners to the next. */
  function Side(o: Options, f: Face, k: nat): (nat, nat)
    requires k < 3
  {
    (Index(o, f, k), Index(o, f, (k + 1) % 3))
  }

  /** What stands for a face in the index buffer. */
  function Numbers(o: Options, f: Face): (nat, nat, nat) {
    (Index(o, f, 0), Index(o, f, 1), Index(o, f, 2))
  }

  /** Where that side runs in the grid of the patch. */
  function Run(f: Face, k: nat): ((nat, nat), (nat, nat))
    requires k < 3
  {
    (f.Place(k), f.Place((k + 1) % 3))
  }

  // ---------------------------------------------------------------------------------------
  // Numbers identify places

  lemma MonotoneTimes(i: nat, k: nat, w: nat)
    requires i <= k
    ensures i * w <= k * w
  {
    assert k * w == i * w + (k - i) * w;
  }

  lemma MixedRadix(w: nat, a: nat, b: nat, a': nat, b': nat)
    requires b < w && b' < w && a * w + b == a' * w + b'
    ensures a == a' && b == b'
  {
    if a < a' {
      MonotoneTimes(a + 1, a', w);
      OneMore(a, w);
    } else if a' < a {
      MonotoneTimes(a' + 1, a, w);
      OneMore(a', w);
    }
  }

  lemma InPatch(n: nat, i: nat, j: nat)
    requires i <= n && j <= n
    ensures i * (n + 1) + j < PerPatch(n)
  {
    MonotoneTimes(i, n, n + 1);
    OneMore(n, n + 1);
  }

  lemma ThreeDigits(q: nat, w: nat, a: nat, i: nat, j: nat, a': nat, i': nat, j': nat)
    requires i * w + j < q && i' * w + j' < q && j < w && j' < w
    requires a * q + (i * w + j) == a' * q + (i' * w + j')
    ensures a == a' && i == i' && j == j'
  {
    MixedRadix(q, a, i * w + j, a', i' * w + j');
    MixedRadix(w, i, j, i', j');
  }

  lemma {:induction false} UsedGrows(o: Options, surf: nat, surf': nat)
    requires o.Uses(surf) && surf < surf'
    ensures Used(o, surf) < Used(o, surf')
  {
    if surf < surf' - 1 {
      UsedGrows(o, surf, surf' - 1);
    }
  }

  /** No two places of the patches drawn share a number. */
  lemma VIsInjective(o: Options, s: Surface, i: nat, j: nat, s': Surface, i': nat, j': nat)
    requires o.Uses(s) && i <= o.segments && j <= o.segments && o.Uses(s') && i' <= o.segments && j' <= o.segments
    requires V(o, s, i, j) == V(o, s', i', j')
    ensures s == s' && i == i' && j == j'
  {
    InPatch(o.segments, i, j);
    InPatch(o.segments, i', j');
    ThreeDigits(PerPatch(o.segments), o.segments + 1, Used(o, s), i, j, Used(o, s'), i', j');
    if s < s' {
      UsedGrows(o, s, s');
    } else if s' < s {
      UsedGrows(o, s', s);
    }
  }

  lemma SameNumbers(o: Options, f: Face, k: nat, g: Face, l: nat)
    requires InMesh(o, f) && InMesh(o, g) && k < 3 && l < 3 && Index(o, f, k) == Index(o, g, l)
    ensures f.surf == g.surf && f.Place(k) == g.Place(l)
  {
    VIsInjective(o, f.surf, f.Place(k).0, f.Place(k).1, g.surf, g.Place(l).0, g.Place(l).1);
  }

  // ---------------------------------------------------------------------------------------
  // Sides

  /** Every directed side occurs at most once in the whole mesh. */
  lemma SideOccursOnce(o: Options, f: Face, k: nat, g: Face, l: nat)
    requires InMesh(o, f) && InMesh(o, g) && k < 3 && l < 3 && Side(o, f, k) == Side(o, g, l)
    ensures f == g && k == l
  {
    SameNumbers(o, f, k, g, l);
    SameNumbers(o, f, (k + 1) % 3, g, (l + 1) % 3);
  }

  /** The side that runs the other way, in the face across, if there is one. */
  function Across(n: nat, f: Face, k: nat): Option<(Face, nat)>
    requires k < 3
  {
    if !f.lower && k == 0 then if f.i == 0 then None else Some((f.(i := f.i - 1, lower := true), 1))
    else if !f.lower && k == 1 then if f.j + 1 == n then None else Some((f.(j := f.j + 1, lower := true), 2))
    else if !f.lower then Some((f.(lower := true), 0))
    else if k == 0 then Some((f.(lower := false), 2))
    else if k == 1 then if f.i + 1 == n then None else Some((f.(i := f.i + 1, lower := false), 0))
    else if f.j == 0 then None else Some((f.(j := f.j - 1, lower := false), 1))
  }

  /** A side on the edge of the patch has no other face; every other side is run the other way by
      exactly one, the one across. */
  lemma SidesMeet(o: Options, f: Face, k: nat, g: Face, l: nat)
    requires InMesh(o, f) && InMesh(o, g) && k < 3 && l < 3
    ensures Side(o, g, l) == (Side(o, f, k).1, Side(o, f, k).0) <==> Across(o.segments, f, k) == Some((g, l))
    ensures Across(o.segments, f, k).Some? ==> InMesh(o, Across(o.segments, f, k).value.0) && Across(o.segments, f, k).value.1 < 3
  {
    if Side(o, g, l) == (Side(o, f, k).1, Side(o, f, k).0) {
      SameNumbers(o, f, (k + 1) % 3, g, l);
      SameNumbers(o, f, k, g, (l + 1) % 3);
      RunsMeet(o.segments, f, k, g, l);
    } else if Across(o.segments, f, k) == Some((g, l)) {
      RunsMeet(o.segments, f, k, g, l);
    }
  }

  lemma RunsMeet(n: nat, f: Face, k: nat, g: Face, l: nat)
    requires f.i < n && f.j < n && g.i < n && g.j < n && k < 3 && l < 3
    ensures f.surf == g.surf && Run(g, l) == (Run(f, k).1, Run(f, k).0) <==> Across(n, f, k) == Some((g, l))
  {
  }

  // ---------------------------------------------------------------------------------------
  // The edge of a patch

  /** The x-th side of the edge, going round: along the first row, down the last column, back along the
      last row, and up the first column. */
  function Border(n: nat, surf: Surface, x: nat): (b: (Face, nat))
    requires x < 4 * n
    ensures b.1 < 3
  {
    if x < n then (Face(surf, 0, x, false), 0)
    else if x < 2 * n then (Face(surf, x - n, n - 1, false), 1)
    else if x < 3 * n then (Face(surf, n - 1, 3 * n - 1 - x, true), 1)
    else (Face(surf, 4 * n - 1 - x, 0, true), 2)
  }

  /** The place of a side on the edge. */
  function BorderPlace(n: nat, f: Face, k: nat): int {
    if !f.lower && k == 0 then f.j
    else if !f.lower then n + f.i
    else if k == 1 then 3 * n - 1 - f.j
    else 4 * n - 1 - f.i
  }

  /** The sides that no other face runs the other way are the 4n sides of the border, each once. */
  lemma BorderIsUnmatched(n: nat, surf: Surface, f: Face, k: nat)
    requires f.surf == surf && f.i < n && f.j < n && k < 3
    ensures Across(n, f, k) == None <==> exists x :: 0 <= x < 4 * n && Border(n, surf, x) == (f, k)
  {
    if Across(n, f, k) == None {
      assert Border(n, surf, BorderPlace(n, f, k)) == (f, k);
    }
  }

  lemma BorderIsDistinct(n: nat, surf: Surface, x: nat, y: nat)
    requires x < 4 * n && y < 4 * n && Border(n, surf, x) == Border(n, surf, y)
    ensures x == y
  {
    BorderPlaces(n, surf, x);
    BorderPlaces(n, surf, y);
  }

  lemma BorderPlaces(n: nat, surf: Surface, x: nat)
    requires x < 4 * n
    ensures var b := Border(n, surf, x); BorderPlace(n, b.0, b.1) == x
  {
  }

  /** The border is one closed loop: each side ends where the next begins. */
  lemma BorderIsALoop(o: Options, surf: Surface, x: nat)
    requires x < 4 * o.segments
    ensures var n := o.segments;
      var here, next := Border(n, surf, x), Border(n, surf, if x + 1 == 4 * n then 0 else x + 1);
      Side(o, here.0, here.1).1 == Side(o, next.0, next.1).0
  {
    var n := o.segments;
    var here, next := Border(n, surf, x), Border(n, surf, if x + 1 == 4 * n then 0 else x + 1);
    LoopRuns(n, surf, x);
    assert here.0.Place((here.1 + 1) % 3) == next.0.Place(next.1);
  }

  lemma LoopRuns(n: nat, surf: Surface, x: nat)
    requires x < 4 * n && n >= 2
    ensures var here, next := Border(n, surf, x), Border(n, surf, if x + 1 == 4 * n then 0 else x + 1);
      here.0.surf == next.0.surf && Run(here.0, here.1).1 == Run(next.0, next.1).0
  {
  }

  // ---------------------------------------------------------------------------------------
  // The triangles kept

  function Turn(f: Face): nat {
    2 * f.j + if f.lower then 1 else 0
  }

  /** The order in which the loops come to the faces: patch by patch, row by row, two to a cell. */
  predicate Earlier(f: Face, g: Face) {
    Before(f.surf, f.i, Turn(f), g.surf, g.i, Turn(g))
  }

  /** Where the loops over the cells can be. */
  predicate AtCell(o: Options, surf: nat, i: nat, j: nat) {
    surf <= 32 && (i == j == 0 || (o.Uses(surf) && ((i < o.segments && j <= o.segments) || (i == o.segments && j == 0))))
  }

  lemma FaceOfCell(keep: Keep, surf: Surface, i: nat, j: nat, x: nat)
    requires x < |CellFaces(keep, surf, i, j)|
    ensures var f := CellFaces(keep, surf, i, j)[x]; f.surf == surf && f.i == i && f.j == j && keep(f)
  {
  }

  /** The faces listed are of the mesh, and come before the cell the loops are at. */
  lemma {:induction false} FaceAt(o: Options, keep: Keep, surf: nat, i: nat, j: nat, x: nat)
    requires AtCell(o, surf, i, j) && x < |Faces(o, keep, surf, i, j)|
    ensures var f := Faces(o, keep, surf, i, j)[x]; InMesh(o, f) && Before(f.surf, f.i, f.j, surf, i, j)
    decreases surf, i, j
  {
    if j > 0 {
      if x < |Faces(o, keep, surf, i, j - 1)| {
        FaceAt(o, keep, surf, i, j - 1, x);
      } else {
        FaceOfCell(keep, surf, i, j - 1, x - |Faces(o, keep, surf, i, j - 1)|);
      }
    } else if i > 0 {
      FaceAt(o, keep, surf, i - 1, o.segments, x);
    } else if o.Uses(surf - 1) {
      FaceAt(o, keep, surf - 1, o.segments, 0, x);
    } else {
      FaceAt(o, keep, surf - 1, 0, 0, x);
    }
  }

  lemma FaceInCell(keep: Keep, f: Face)
    ensures keep(f) <==> f in CellFaces(keep, f.surf, f.i, f.j)
  {
  }

  lemma FacesPassed(o: Options, keep: Keep, f: Face, surf: Surface, i: nat, j: nat)
    ensures f in Faces(o, keep, surf, i, j + 1) <==> f in Faces(o, keep, surf, i, j) || f in CellFaces(keep, surf, i, j)
  {
  }

  /** Every face that is kept is listed. */
  lemma {:induction false} FaceListed(o: Options, keep: Keep, f: Face, surf: nat, i: nat, j: nat)
    requires InMesh(o, f) && keep(f) && Before(f.surf, f.i, f.j, surf, i, j)
    requires surf < 32 || (surf == 32 && i == j == 0)
    ensures f in Faces(o, keep, surf, i, j)
    decreases surf, i, j
  {
    if j > 0 {
      FacesPassed(o, keep, f, surf, i, j - 1);
      if f.surf != surf || f.i != i || f.j != j - 1 {
        FaceListed(o, keep, f, surf, i, j - 1);
      } else {
        FaceInCell(keep, f);
      }
    } else if i > 0 {
      FaceListed(o, keep, f, surf, i - 1, o.segments);
    } else if o.Uses(surf - 1) {
      FaceListed(o, keep, f, surf - 1, o.segments, 0);
    } else {
      FaceListed(o, keep, f, surf - 1, 0, 0);
    }
  }

  /** And no other. */
  lemma {:induction false} ListedIsKept(o: Options, keep: Keep, surf: nat, i: nat, j: nat, x: nat)
    requires AtCell(o, surf, i, j) && x < |Faces(o, keep, surf, i, j)|
    ensures keep(Faces(o, keep, surf, i, j)[x])
    decreases surf, i, j
  {
    if j > 0 {
      if x < |Faces(o, keep, surf, i, j - 1)| {
        ListedIsKept(o, keep, surf, i, j - 1, x);
      }
    } else if i > 0 {
      ListedIsKept(o, keep, surf, i - 1, o.segments, x);
    } else if o.Uses(surf - 1) {
      ListedIsKept(o, keep, surf - 1, o.segments, 0, x);
    } else {
      ListedIsKept(o, keep, surf - 1, 0, 0, x);
    }
  }

  /** The list is that of the mesh faces kept. */
  lemma AllFacesIff(o: Options, keep: Keep, f: Face)
    ensures f in AllFaces(o, keep) <==> InMesh(o, f) && keep(f)
  {
    if f in AllFaces(o, keep) {
      var x :| 0 <= x < |AllFaces(o, keep)| && AllFaces(o, keep)[x] == f;
      FaceAt(o, keep, o.MaxPatches(), 0, 0, x);
      ListedIsKept(o, keep, o.MaxPatches(), 0, 0, x);
    } else if InMesh(o, f) && keep(f) {
      FaceListed(o, keep, f, o.MaxPatches(), 0, 0);
    }
  }

  /** No face is listed twice. */
  lemma {:induction false} FacesOrdered(o: Options, keep: Keep, surf: nat, i: nat, j: nat, x: nat, y: nat)
    requires AtCell(o, surf, i, j) && x < y < |Faces(o, keep, surf, i, j)|
    ensures Earlier(Faces(o, keep, surf, i, j)[x], Faces(o, keep, surf, i, j)[y])
    decreases surf, i, j
  {
    if j > 0 {
      if y < |Faces(o, keep, surf, i, j - 1)| {
        FacesOrdered(o, keep, surf, i, j - 1, x, y);
      } else {
        CellOrdered(o, keep, surf, i, j - 1, x, y);
      }
    } else if i > 0 {
      FacesOrdered(o, keep, surf, i - 1, o.segments, x, y);
    } else if o.Uses(surf - 1) {
      FacesOrdered(o, keep, surf - 1, o.segments, 0, x, y);
    } else {
      FacesOrdered(o, keep, surf - 1, 0, 0, x, y);
    }
  }

  /** The order, when the later face is of the last cell. */
  lemma CellOrdered(o: Options, keep: Keep, surf: Surface, i: nat, j: nat, x: nat, y: nat)
    requires AtCell(o, surf, i, j + 1) && x < y < |Faces(o, keep, surf, i, j + 1)|
    requires |Faces(o, keep, surf, i, j)| <= y
    ensures Earlier(Faces(o, keep, surf, i, j + 1)[x], Faces(o, keep, surf, i, j + 1)[y])
  {
    var before := |Faces(o, keep, surf, i, j)|;
    if x < before {
      FaceAt(o, keep, surf, i, j, x);
    }
  }

  /** Over the whole teapot and whatever is dropped, the triangles kept are consistently oriented: no
      directed side belongs to two of them. */
  lemma KeptSidesOccurOnce(o: Options, keep: Keep, x: nat, k: nat, y: nat, l: nat)
    requires x < |AllFaces(o, keep)| && y < |AllFaces(o, keep)| && k < 3 && l < 3
    requires Side(o, AllFaces(o, keep)[x], k) == Side(o, AllFaces(o, keep)[y], l)
    ensures x == y && k == l
  {
    var top := o.MaxPatches();
    FaceAt(o, keep, top, 0, 0, x);
    FaceAt(o, keep, top, 0, 0, y);
    if x < y {
      FacesOrdered(o, keep, top, 0, 0, x, y);
    } else if y < x {
      FacesOrdered(o, keep, top, 0, 0, y, x);
    }
    SideOccursOnce(o, AllFaces(o, keep)[x], k, AllFaces(o, keep)[y], l);
  }

  /** Every number written refers to a vertex that exists by then: that of the corner meant. */
  lemma NumbersRefer(o: Options, at: At, keep: Keep, x: nat, k: nat)
    requires x < |AllFaces(o, keep)| && k < 3
    ensures var f := AllFaces(o, keep)[x];
      Index(o, f, k) < |AllCorners(o, at)| && AllCorners(o, at)[Index(o, f, k)].pos == Pos(at, f, k)
  {
    FaceAt(o, keep, o.MaxPatches(), 0, 0, x);
    var f := AllFaces(o, keep)[x];
    CornersAt(o, at, f.surf, f.Place(k).0, f.Place(k).1, o.MaxPatches(), 0, 0);
  }
}
