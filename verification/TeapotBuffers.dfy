/** The loops that fill the buffers of the geometry. */
module TeapotBuffers {
  import opened Dicts
  import opened TeapotData
  import opened TeapotLayout
  import opened TeapotSurface
  import opened TeapotMesh
  import opened Bezier

  /** The number of a vertex and those of its neighbours, as the faces compute them. */
  lemma Neighbours(o: Options, surf: Surface, i: nat, j: nat)
    ensures var w := o.segments + 1; var v1 := Used(o, surf) * w * w + i * w + j;
      && v1 == V(o, surf, i, j) && v1 + 1 == V(o, surf, i, j + 1)
      && v1 + 1 + w == V(o, surf, i + 1, j + 1) && v1 + w == V(o, surf, i + 1, j)
  {
    var w := o.segments + 1;
    Associates3(Used(o, surf), w);
    OneMore(i, w);
  }

  lemma Associates3(a: nat, w: nat)
    ensures a * w * w == a * (w * w)
  {
  }

  class Buffers {
    const o: Options
    const unit: Point -> Point
    const vertices: array<real>
    const normals: array<real>
    const uvs: array<real>
    const indices: array<nat>
    var vertCount: nat
    var normCount: nat
    var uvCount: nat
    var indexCount: nat
    var surfCount: nat

    /** The four buffers, of the sizes computed in advance. */
    constructor (o: Options, unit: Point -> Point)
      ensures this.o == o && this.unit == unit && Sized() && Holds([]) && Lists([]) && surfCount == 0
      ensures fresh(vertices) && fresh(normals) && fresh(uvs) && fresh(indices)
      ensures forall k :: 0 <= k < indices.Length ==> indices[k] == 0
    {
      Sizes(o.bottom, o.lid, o.body, o.segments);
      TrianglesAreNat(o);
      this.o, this.unit := o, unit;
      vertices := new real[o.NumVertices() * 3](_ => 0.0);
      normals := new real[o.NumVertices() * 3](_ => 0.0);
      uvs := new real[o.NumVertices() * 2](_ => 0.0);
      indices := new nat[o.NumTriangles() * 3](_ => 0);
      vertCount, normCount, uvCount, indexCount, surfCount := 0, 0, 0, 0, 0;
    }

    static lemma TrianglesAreNat(o: Options)
      ensures o.NumTriangles() >= 0
    {
      var n := o.segments;
      assert (8 * n - 4) * n >= 0 && (16 * n - 4) * n >= 0 && 40 * n * n >= 0;
    }

    ghost predicate Sized() {
      && vertices.Length == normals.Length == 3 * o.NumVertices() && uvs.Length == 2 * o.NumVertices()
      && indices.Length == 3 * o.NumTriangles()
      && vertices != normals && vertices != uvs && normals != uvs
    }

    /** The vertices written so far are `cs`, in all three buffers. */
    ghost predicate Holds(cs: seq<Corner>)
      reads this`vertCount, this`normCount, this`uvCount, vertices, normals, uvs
    {
      && Sized() && vertCount == normCount == 3 * |cs| && uvCount == 2 * |cs| && |cs| <= o.NumVertices()
      && (forall k {:trigger HoldsAt(k, cs[k])} :: 0 <= k < |cs| ==> HoldsAt(k, cs[k]))
    }

    ghost predicate HoldsAt(k: nat, c: Corner)
      requires Sized() && k < o.NumVertices()
      reads vertices, normals, uvs
    {
      && Point(vertices[3 * k], vertices[3 * k + 1], vertices[3 * k + 2]) == c.pos
      && Point(normals[3 * k], normals[3 * k + 1], normals[3 * k + 2]) == c.normal
      && uvs[2 * k] == c.u && uvs[2 * k + 1] == c.v
    }

    /** The index buffer lists the faces `fs`, and nothing after them. */
    ghost predicate Lists(fs: seq<Face>)
      reads this`indexCount, indices
    {
      && Sized() && indexCount == 3 * |fs| && |fs| <= o.NumTriangles()
      && (forall k {:trigger ListsAt(k, fs[k])} :: 0 <= k < |fs| ==> ListsAt(k, fs[k]))
      && (forall k :: indexCount <= k < indices.Length ==> indices[k] == 0)
    }

    ghost predicate ListsAt(k: nat, f: Face)
      requires Sized() && k < o.NumTriangles()
      reads indices
    {
      indices[3 * k] == Index(o, f, 0) && indices[3 * k + 1] == Index(o, f, 1) && indices[3 * k + 2] == Index(o, f, 2)
    }

    // -------------------------------------------------------------------------------------
    // What is in the buffers

    ghost function PositionOf(v: nat): Point
      requires 3 * v + 2 < vertices.Length
      reads vertices
    {
      Point(vertices[3 * v], vertices[3 * v + 1], vertices[3 * v + 2])
    }

    ghost function NormalOf(v: nat): Point
      requires 3 * v + 2 < normals.Length
      reads normals
    {
      Point(normals[3 * v], normals[3 * v + 1], normals[3 * v + 2])
    }

    ghost function TriangleAt(x: nat): (nat, nat, nat)
      requires 3 * x + 2 < indices.Length
      reads indices
    {
      (indices[3 * x], indices[3 * x + 1], indices[3 * x + 2])
    }

    /** Triangle number `x` has been written. */
    ghost predicate Written(x: nat)
      reads this`indexCount
    {
      3 * x + 2 < indexCount <= indices.Length
    }

    ghost predicate InRange(v: (nat, nat, nat)) {
      3 * v.0 + 2 < vertices.Length && 3 * v.1 + 2 < vertices.Length && 3 * v.2 + 2 < vertices.Length
    }

    /** A triangle of the mesh is in the index buffer if and only if the positions stored for its corners
        are pairwise different. */
    ghost predicate DrawsFace(f: Face)
      reads this`indexCount, vertices, indices
    {
      var v := Numbers(o, f);
      && InRange(v)
      && (PositionOf(v.0) != PositionOf(v.1) && PositionOf(v.0) != PositionOf(v.2) && PositionOf(v.1) != PositionOf(v.2)
          <==> exists x: nat :: Written(x) && TriangleAt(x) == v)
    }

    /** What is in the index buffer is a triangle of the mesh, its corners in different positions. */
    ghost predicate DrawsOnlyFaces(x: nat)
      requires Written(x)
      reads this`indexCount, vertices, indices
    {
      var v := TriangleAt(x);
      && InRange(v) && (exists f :: InMesh(o, f) && v == Numbers(o, f))
      && PositionOf(v.0) != PositionOf(v.1) && PositionOf(v.0) != PositionOf(v.2) && PositionOf(v.1) != PositionOf(v.2)
    }

    /** The vertex for the i-th step along s and the j-th along t shows that point of the surface, with a
        normal of the surface there, or one straight up or down on the axis of the pot. */
    ghost predicate DrawsPoint(shape: Shape, surf: Surface, i: nat, j: nat)
      reads vertices, normals, uvs
    {
      var v, s, t := V(o, surf, i, j), Step(o.segments, i), Step(o.segments, j);
      var p := Triple(shape, surf, Powers(s), Powers(t));
      && 3 * v + 2 < vertices.Length && 3 * v + 2 < normals.Length && 2 * v + 1 < uvs.Length
      && Shows(o, PositionOf(v), p)
      && (if p.x == 0.0 && p.y == 0.0 then NormalOf(v) == Point(0.0, if p.z > o.MaxHeight() / 2.0 then 1.0 else -1.0, 0.0)
          else PointsAway(NormalOf(v), unit, Triple(shape, surf, Slopes(s), Powers(t)), Triple(shape, surf, Powers(s), Slopes(t))))
      && uvs[2 * v] == 1.0 - t && uvs[2 * v + 1] == 1.0 - s
    }

    // -------------------------------------------------------------------------------------
    // Vertices

    /** The powers of a parameter and their derivatives, the highest first. */
    static method PowerVector(s: real) returns (sp: Vec4, dsp: Vec4)
      ensures sp == Powers(s) && dsp == Slopes(s)
    {
      var a, da := new real[4], new real[4];
      var sval, dsval := 1.0, 1.0;
      ghost var square, cube := s * s, s * s * s;
      var p := 4;
      while p != 0
        invariant 0 <= p <= 4
        invariant sval == if p == 4 then 1.0 else if p == 3 then s else if p == 2 then square else if p == 1 then cube else sval
        invariant dsval == if p >= 3 then 1.0 else if p == 2 then s else if p == 1 then square else dsval
        invariant p <= 3 ==> a[3] == 1.0 && da[3] == 0.0
        invariant p <= 2 ==> a[2] == s && da[2] == 1.0
        invariant p <= 1 ==> a[1] == square && da[1] == s * 2.0
        invariant p <= 0 ==> a[0] == cube && da[0] == square * 3.0
      {
        p := p - 1;
        a[p] := sval;
        sval := sval * s;
        if p == 3 {
          da[p] := 0.0;
          dsval := 1.0;
        } else {
          da[p] := dsval * (3 - p) as real;
          dsval := dsval * s;
        }
      }
      sp, dsp := Vec4(a[0], a[1], a[2], a[3]), Vec4(da[0], da[1], da[2], da[3]);
    }

    /** `net` lists the control values of a patch along an axis. */
    ghost predicate Lays(net: nat -> real, surf: Surface, axis: Axis) {
      forall k: nat {:trigger Control(o, surf, axis, k)} :: k < 16 ==> net(k) == Control(o, surf, axis, k)
    }

    static function NetMatrix(net: nat -> real): Matrix {
      Matrix(Vec4(net(0), net(1), net(2), net(3)), Vec4(net(4), net(5), net(6), net(7)),
             Vec4(net(8), net(9), net(10), net(11)), Vec4(net(12), net(13), net(14), net(15)))
    }

    lemma NetRow(net: nat -> real, surf: Surface, axis: Axis, r: nat)
      requires r < 4 && Lays(net, surf, axis)
      ensures Vec4(net(4 * r), net(4 * r + 1), net(4 * r + 2), net(4 * r + 3)) == ControlRow(o, surf, axis, r)
    {
    }

    lemma NetIsControls(net: nat -> real, surf: Surface, axis: Axis)
      requires Lays(net, surf, axis)
      ensures NetMatrix(net) == Controls(o, surf, axis)
    {
      NetRow(net, surf, axis, 0);
      NetRow(net, surf, axis, 1);
      NetRow(net, surf, axis, 2);
      NetRow(net, surf, axis, 3);
    }

    /** One entry of the control matrix, adjusted in place. */
    method PutControl(g: array<real>, place: nat, surf: Surface, axis: Axis, k: nat, ghost net: nat -> real)
      requires g.Length == 16 && place < 16 && k < 16 && Lays(net, surf, axis)
      modifies g
      ensures g[place] == net(k) && forall p :: 0 <= p < 16 && p != place ==> g[p] == old(g[p])
    {
      var v := Along(Vertex(Patch(surf)[k]), axis);
      assert net(k) == Control(o, surf, axis, k) == Adjusted(o, surf, axis, v);
      g[place] := v;
      if o.fitLid && 20 <= surf < 28 && axis != 2 {
        g[place] := g[place] * 1.077;
      }
      if !o.blinn && axis == 2 {
        g[place] := g[place] * 1.3;
      }
    }

    /** The entries of the rows before `r`, and those of row `r` before column `c`, are in place:
        transposed, so that entry `p` of the matrix is that of row `p % 4` and column `p / 4`. */
    static ghost predicate Gathered(g: seq<real>, net: nat -> real, r: nat, c: nat) {
      |g| == 16 && forall p: nat :: p < 16 && (p % 4 < r || (p % 4 == r && p / 4 < c)) ==> g[p] == net(p % 4 * 4 + p / 4)
    }

    method Gather(surf: Surface, axis: Axis, ghost net: nat -> real) returns (g: array<real>)
      requires Lays(net, surf, axis)
      ensures fresh(g) && Gathered(g[..], net, 4, 0)
    {
      g := new real[16];
      for r := 0 to 4
        invariant Gathered(g[..], net, r, 0)
      {
        for c := 0 to 4
          invariant Gathered(g[..], net, r, c)
        {
          PutControl(g, c * 4 + r, surf, axis, r * 4 + c, net);
          assert (c * 4 + r) % 4 == r && (c * 4 + r) / 4 == c;
        }
      }
    }

    /** `M * G * M` along one axis. */
    method Prepare(surf: Surface, axis: Axis, ghost net: nat -> real) returns (m: Matrix)
      requires Lays(net, surf, axis)
      ensures m == Prepared(NetMatrix(net))
    {
      var g := Gather(surf, axis, net);
      var gmx := Matrix(Vec4(g[0], g[1], g[2], g[3]), Vec4(g[4], g[5], g[6], g[7]),
                        Vec4(g[8], g[9], g[10], g[11]), Vec4(g[12], g[13], g[14], g[15]));
      GatheredIsTransposed(g[..], gmx, net);
      var tmtx := Multiply(gmx, BASIS);
      m := Multiply(Transpose(BASIS), tmtx);
    }

    static lemma GatheredIsTransposed(g: seq<real>, gmx: Matrix, net: nat -> real)
      requires Gathered(g, net, 4, 0)
      requires gmx == Matrix(Vec4(g[0], g[1], g[2], g[3]), Vec4(g[4], g[5], g[6], g[7]),
                             Vec4(g[8], g[9], g[10], g[11]), Vec4(g[12], g[13], g[14], g[15]))
      ensures gmx == Transpose(NetMatrix(net))
    {
    }

    lemma SomeNetLays(surf: Surface, axis: Axis) returns (net: nat -> real)
      ensures Lays(net, surf, axis)
    {
      net := (k: nat) => if k < 16 then Control(o, surf, axis, k) else 0.0;
    }

    /** The matrix `m` gives a coordinate of a patch of the shape. */
    static ghost predicate Evaluates(m: Matrix, shape: Shape, surf: Surface, axis: Axis) {
      forall sp: Vec4, tp: Vec4 {:trigger Evaluate(m, sp, tp)} :: Evaluate(m, sp, tp) == shape(surf, axis, sp, tp)
    }

    lemma PreparedEvaluates(net: nat -> real, shape: Shape, surf: Surface, axis: Axis)
      requires Lays(net, surf, axis) && Follows(shape, o)
      ensures Evaluates(Prepared(NetMatrix(net)), shape, surf, axis)
    {
      NetIsControls(net, surf, axis);
    }

    method PrepareAxis(surf: Surface, axis: Axis, ghost shape: Shape) returns (m: Matrix)
      requires Follows(shape, o)
      ensures Evaluates(m, shape, surf, axis)
    {
      ghost var net := SomeNetLays(surf, axis);
      m := Prepare(surf, axis, net);
      PreparedEvaluates(net, shape, surf, axis);
    }

    /** `mgm`, for x, y and z. */
    method PrepareAll(surf: Surface, ghost shape: Shape) returns (mgm: array<Matrix>)
      requires Follows(shape, o)
      ensures fresh(mgm) && mgm.Length == 3 && forall i :: 0 <= i < 3 ==> Evaluates(mgm[i], shape, surf, i)
    {
      mgm := new Matrix[3](_ => BASIS);
      for i := 0 to 3
        invariant forall a :: 0 <= a < i ==> Evaluates(mgm[a], shape, surf, a)
      {
        mgm[i] := PrepareAxis(surf, i, shape);
      }
    }

    /** The point and its two tangents, one axis at a time. */
    static method PointAndTangents(mgm: array<Matrix>, surf: Surface, s: real, t: real, ghost shape: Shape)
      returns (vert: Point, sdir: Point, tdir: Point)
      requires mgm.Length == 3 && forall i :: 0 <= i < 3 ==> Evaluates(mgm[i], shape, surf, i)
      ensures vert == Triple(shape, surf, Powers(s), Powers(t))
      ensures sdir == Triple(shape, surf, Slopes(s), Powers(t)) && tdir == Triple(shape, surf, Powers(s), Slopes(t))
    {
      var sp, dsp := PowerVector(s);
      var tp, dtp := PowerVector(t);
      var v, sd, td := new real[3], new real[3], new real[3];
      for i := 0 to 3
        invariant forall a :: 0 <= a < i ==>
          v[a] == shape(surf, a, sp, tp) && sd[a] == shape(surf, a, dsp, tp) && td[a] == shape(surf, a, sp, dtp)
      {
        v[i] := Evaluate(mgm[i], sp, tp);
        sd[i] := Evaluate(mgm[i], dsp, tp);
        td[i] := Evaluate(mgm[i], sp, dtp);
      }
      vert, sdir, tdir := Point(v[0], v[1], v[2]), Point(sd[0], sd[1], sd[2]), Point(td[0], td[1], td[2]);
    }

    /** The normal, except that a point on the axis of the pot has one straight up or down. */
    method NormalAt(vert: Point, sdir: Point, tdir: Point) returns (normOut: Point)
      ensures normOut == Normal(o, unit, vert, sdir, tdir)
    {
      var norm := unit(Cross(tdir, sdir));
      if vert.x == 0.0 && vert.y == 0.0 {
        normOut := Point(0.0, if vert.z > o.MaxHeight() / 2.0 then 1.0 else -1.0, 0.0);
      } else {
        normOut := Point(norm.x, norm.z, -norm.y);
      }
    }

    static method PutThree(buffer: array<real>, count: nat, p: Point) returns (after: nat)
      requires count + 3 <= buffer.Length
      modifies buffer
      ensures after == count + 3
      ensures Point(buffer[count], buffer[count + 1], buffer[count + 2]) == p
      ensures forall x :: 0 <= x < count ==> buffer[x] == old(buffer[x])
    {
      buffer[count] := p.x;
      buffer[count + 1] := p.y;
      buffer[count + 2] := p.z;
      after := count + 3;
    }

    /** The eight numbers of a vertex go to the ends of the three buffers. */
    method Store(pos: Point, normal: Point, u: real, v: real, ghost cs: seq<Corner>)
      requires Holds(cs) && |cs| < o.NumVertices()
      modifies this`vertCount, this`normCount, this`uvCount, vertices, normals, uvs
      ensures Holds(cs + [Corner(pos, normal, u, v)])
    {
      vertCount := PutThree(vertices, vertCount, pos);
      normCount := PutThree(normals, normCount, normal);
      uvs[uvCount] := u;
      uvs[uvCount + 1] := v;
      uvCount := uvCount + 2;
      forall k | 0 <= k < |cs| ensures HoldsAt(k, cs[k]) {
        assert old(HoldsAt(k, cs[k]));
      }
    }

    /** One turn of the inner loop. */
    method EmitVertex(mgm: array<Matrix>, surf: Surface, sstep: nat, tstep: nat,
                      ghost shape: Shape, ghost at: At, ghost cs: seq<Corner>)
      requires mgm.Length == 3 && forall i :: 0 <= i < 3 ==> Evaluates(mgm[i], shape, surf, i)
      requires Draws(at, o, unit, shape) && Holds(cs) && |cs| < o.NumVertices()
      modifies this`vertCount, this`normCount, this`uvCount, vertices, normals, uvs
      ensures Holds(cs + [at(surf, sstep, tstep)])
    {
      var s := sstep as real / o.segments as real;
      var t := tstep as real / o.segments as real;
      var vert, sdir, tdir := PointAndTangents(mgm, surf, s, t, shape);
      var normOut := NormalAt(vert, sdir, tdir);
      assert at(surf, sstep, tstep) == Vertexed(o, unit, shape, surf, Step(o.segments, sstep), Step(o.segments, tstep));
      Store(Placed(o, vert), normOut, 1.0 - t, 1.0 - s, cs);
    }

    /** A row of vertices. */
    method EmitRow(mgm: array<Matrix>, surf: Surface, sstep: nat, ghost shape: Shape, ghost at: At)
      requires mgm.Length == 3 && forall i :: 0 <= i < 3 ==> Evaluates(mgm[i], shape, surf, i)
      requires Draws(at, o, unit, shape) && o.Uses(surf) && sstep <= o.segments && Holds(Corners(o, at, surf, sstep, 0))
      modifies this`vertCount, this`normCount, this`uvCount, vertices, normals, uvs
      ensures Holds(Corners(o, at, surf, sstep, o.segments + 1))
    {
      for tstep := 0 to o.segments + 1
        invariant Holds(Corners(o, at, surf, sstep, tstep))
      {
        CornersGrow(o, at, surf, sstep, tstep);
        EmitVertex(mgm, surf, sstep, tstep, shape, at, Corners(o, at, surf, sstep, tstep));
      }
    }

    /** The vertices of one patch, row by row. */
    method EmitVertices(mgm: array<Matrix>, surf: Surface, ghost shape: Shape, ghost at: At)
      requires mgm.Length == 3 && forall i :: 0 <= i < 3 ==> Evaluates(mgm[i], shape, surf, i)
      requires Draws(at, o, unit, shape) && o.Uses(surf) && Holds(Corners(o, at, surf, 0, 0))
      modifies this`vertCount, this`normCount, this`uvCount, vertices, normals, uvs
      ensures Holds(Corners(o, at, surf, o.segments + 1, 0))
    {
      for sstep := 0 to o.segments + 1
        invariant Holds(Corners(o, at, surf, sstep, 0))
      {
        EmitRow(mgm, surf, sstep, shape, at);
      }
    }

    // -------------------------------------------------------------------------------------
    // Faces

    /** `notDegenerate`. */
    predicate NotDegenerate(v1: nat, v2: nat, v3: nat)
      requires 3 * v1 + 2 < vertices.Length && 3 * v2 + 2 < vertices.Length && 3 * v3 + 2 < vertices.Length
      reads vertices
    {
      !((vertices[v1 * 3] == vertices[v2 * 3] && vertices[v1 * 3 + 1] == vertices[v2 * 3 + 1] && vertices[v1 * 3 + 2] == vertices[v2 * 3 + 2])
        || (vertices[v1 * 3] == vertices[v3 * 3] && vertices[v1 * 3 + 1] == vertices[v3 * 3 + 1] && vertices[v1 * 3 + 2] == vertices[v3 * 3 + 2])
        || (vertices[v2 * 3] == vertices[v3 * 3] && vertices[v2 * 3 + 1] == vertices[v3 * 3 + 1] && vertices[v2 * 3 + 2] == vertices[v3 * 3 + 2]))
    }

    /** The vertices of patch `surf` are among `cs`, each where its number says. */
    ghost predicate Covers(cs: seq<Corner>, at: At, surf: Surface) {
      forall i: nat, j: nat {:trigger V(o, surf, i, j)} :: i <= o.segments && j <= o.segments ==>
        V(o, surf, i, j) < |cs| && cs[V(o, surf, i, j)] == at(surf, i, j)
    }

    lemma WrittenCovers(at: At, surf: Surface)
      requires o.Uses(surf)
      ensures Covers(Corners(o, at, surf, o.segments + 1, 0), at, surf)
    {
      var cs := Corners(o, at, surf, o.segments + 1, 0);
      forall i: nat, j: nat | i <= o.segments && j <= o.segments
        ensures V(o, surf, i, j) < |cs| && cs[V(o, surf, i, j)] == at(surf, i, j)
      {
        CornersAt(o, at, surf, i, j, surf, o.segments + 1, 0);
      }
    }

    /** The number is that of a vertex written, and its position is the one meant. */
    lemma WrittenAt(at: At, cs: seq<Corner>, f: Face, k: nat)
      requires o.Uses(f.surf) && Holds(cs) && Covers(cs, at, f.surf) && f.i < o.segments && f.j < o.segments
      ensures var v := Index(o, f, k);
        v < o.NumVertices() == vertices.Length / 3 && Point(vertices[3 * v], vertices[3 * v + 1], vertices[3 * v + 2]) == Pos(at, f, k)
    {
      assert HoldsAt(Index(o, f, k), cs[Index(o, f, k)]);
    }

    /** One triangle goes to the end of the index buffer, unless it is degenerate. */
    method StoreFace(v1: nat, v2: nat, v3: nat, ghost f: Face, ghost at: At, ghost keep: Keep, ghost cs: seq<Corner>, ghost fs: seq<Face>)
      requires o.Uses(f.surf) && Holds(cs) && Covers(cs, at, f.surf) && f.i < o.segments && f.j < o.segments
      requires v1 == Index(o, f, 0) && v2 == Index(o, f, 1) && v3 == Index(o, f, 2)
      requires Filters(keep, at) && Lists(fs) && |fs| + |IfKept(keep, f)| <= o.NumTriangles()
      modifies this`indexCount, indices
      ensures Lists(fs + IfKept(keep, f))
    {
      WrittenAt(at, cs, f, 0);
      WrittenAt(at, cs, f, 1);
      WrittenAt(at, cs, f, 2);
      if NotDegenerate(v1, v2, v3) {
        assert Kept(at, f);
        assert keep(f);
        PutFace(v1, v2, v3, f, fs);
      } else {
        assert !Kept(at, f);
        assert fs + [] == fs;
      }
    }

    method PutFace(v1: nat, v2: nat, v3: nat, ghost f: Face, ghost fs: seq<Face>)
      requires v1 == Index(o, f, 0) && v2 == Index(o, f, 1) && v3 == Index(o, f, 2)
      requires Lists(fs) && |fs| < o.NumTriangles()
      modifies this`indexCount, indices
      ensures Lists(fs + [f])
    {
      indices[indexCount] := v1;
      indices[indexCount + 1] := v2;
      indices[indexCount + 2] := v3;
      indexCount := indexCount + 3;
      forall k | 0 <= k < |fs| ensures ListsAt(k, fs[k]) {
        assert old(ListsAt(k, fs[k]));
      }
    }

    /** The two triangles of a cell. */
    method EmitCell(surf: Surface, sstep: nat, tstep: nat, ghost at: At, ghost keep: Keep, ghost cs: seq<Corner>, ghost fs: seq<Face>)
      requires o.Uses(surf) && Holds(cs) && Covers(cs, at, surf) && sstep < o.segments && tstep < o.segments
      requires surfCount == Used(o, surf)
      requires Filters(keep, at) && Lists(fs) && |fs| + |CellFaces(keep, surf, sstep, tstep)| <= o.NumTriangles()
      modifies this`indexCount, indices
      ensures Lists(fs + CellFaces(keep, surf, sstep, tstep))
    {
      var vertPerRow := o.segments + 1;
      var v1 := surfCount * vertPerRow * vertPerRow + sstep * vertPerRow + tstep;
      var v2 := v1 + 1;
      var v3 := v2 + vertPerRow;
      var v4 := v1 + vertPerRow;
      Neighbours(o, surf, sstep, tstep);
      ghost var upper, lower := Face(surf, sstep, tstep, false), Face(surf, sstep, tstep, true);
      StoreFace(v1, v2, v3, upper, at, keep, cs, fs);
      StoreFace(v1, v3, v4, lower, at, keep, cs, fs + IfKept(keep, upper));
      Joined(fs, IfKept(keep, upper), IfKept(keep, lower));
    }

    /** A row of faces. */
    method EmitFaceRow(surf: Surface, sstep: nat, ghost at: At, ghost keep: Keep, ghost cs: seq<Corner>)
      requires o.Uses(surf) && Holds(cs) && Covers(cs, at, surf) && sstep < o.segments && surfCount == Used(o, surf)
      requires Filters(keep, at) && CuspsDrop(keep) && Lists(Faces(o, keep, surf, sstep, 0))
      modifies this`indexCount, indices
      ensures Lists(Faces(o, keep, surf, sstep, o.segments))
    {
      for tstep := 0 to o.segments
        invariant Lists(Faces(o, keep, surf, sstep, tstep))
      {
        FacesGrow(o, keep, surf, sstep, tstep, o.MaxPatches(), 0, 0);
        FacesFit(o, keep);
        EmitCell(surf, sstep, tstep, at, keep, cs, Faces(o, keep, surf, sstep, tstep));
      }
    }

    /** The faces of one patch. */
    method EmitFaces(surf: Surface, ghost at: At, ghost keep: Keep, ghost cs: seq<Corner>)
      requires o.Uses(surf) && Holds(cs) && Covers(cs, at, surf) && surfCount == Used(o, surf)
      requires Filters(keep, at) && CuspsDrop(keep) && Lists(Faces(o, keep, surf, 0, 0))
      modifies this`indexCount, indices
      ensures Lists(Faces(o, keep, surf, o.segments, 0))
    {
      for sstep := 0 to o.segments
        invariant Lists(Faces(o, keep, surf, sstep, 0))
      {
        EmitFaceRow(surf, sstep, at, keep, cs);
      }
    }

    // -------------------------------------------------------------------------------------
    // The outer loop

    /** One patch that is drawn. */
    method EmitPatch(surf: Surface, ghost shape: Shape, ghost at: At, ghost keep: Keep)
      requires Holds(Corners(o, at, surf, 0, 0)) && Lists(Faces(o, keep, surf, 0, 0)) && surfCount == Used(o, surf) && o.Uses(surf)
      requires Follows(shape, o) && Draws(at, o, unit, shape) && Filters(keep, at) && CuspsDrop(keep)
      modifies this`vertCount, this`normCount, this`uvCount, this`indexCount, this`surfCount, vertices, normals, uvs, indices
      ensures Holds(Corners(o, at, surf + 1, 0, 0)) && Lists(Faces(o, keep, surf + 1, 0, 0)) && surfCount == Used(o, surf + 1)
    {
      var mgm := PrepareAll(surf, shape);
      EmitVertices(mgm, surf, shape, at);
      WrittenCovers(at, surf);
      EmitFaces(surf, at, keep, Corners(o, at, surf, o.segments + 1, 0));
      surfCount := surfCount + 1;
    }

    /** All patches wanted. The vertex buffers end up full; the index buffer holds the triangles kept, and
        nothing after them. */
    method Tessellate(ghost shape: Shape, ghost at: At, ghost keep: Keep)
      requires Holds([]) && Lists([]) && surfCount == 0
      requires Follows(shape, o) && Draws(at, o, unit, shape) && Filters(keep, at) && CuspsDrop(keep)
      modifies this`vertCount, this`normCount, this`uvCount, this`indexCount, this`surfCount, vertices, normals, uvs, indices
      ensures Holds(AllCorners(o, at)) && Lists(AllFaces(o, keep))
      ensures vertCount == vertices.Length && normCount == normals.Length && uvCount == uvs.Length
    {
      VerticesFill(o, at);
      FacesFit(o, keep);
      UsedIs(o, o.MinPatches());
      for surf := o.MinPatches() to o.MaxPatches()
        invariant Holds(Corners(o, at, surf, 0, 0)) && Lists(Faces(o, keep, surf, 0, 0)) && surfCount == Used(o, surf)
      {
        if o.lid || surf < 20 || surf >= 28 {
          EmitPatch(surf, shape, at, keep);
        }
      }
    }
  }

  /** What the tables make of the patches, where that puts the vertices, and which triangles it keeps. */
  lemma TheTeapot(o: Options, unit: Point -> Point) returns (shape: Shape, at: At, keep: Keep)
    ensures Follows(shape, o) && Draws(at, o, unit, shape) && Filters(keep, at)
  {
    shape := TeapotShape(o);
    at := Drawn(o, unit, shape);
    keep := KeepOf(at);
    DrawnDraws(o, unit, shape);
  }

  /** The constructor: for every request the buffers are filled with the teapot, its vertices within its
      size, and no triangle was lost for want of room. */
  method Teapot(q: Request, unit: Point -> Point) returns (b: Buffers, ghost shape: Shape, ghost at: At, ghost keep: Keep)
    ensures Follows(shape, Resolve(q)) && Draws(at, Resolve(q), unit, shape) && Filters(keep, at)
    ensures b.o == Resolve(q) && b.unit == unit && b.Holds(AllCorners(b.o, at)) && b.Lists(AllFaces(b.o, keep))
    ensures b.vertCount == b.vertices.Length && b.normCount == b.normals.Length && b.uvCount == b.uvs.Length
    ensures forall k :: 0 <= k < b.o.NumVertices() ==> Within(b.o, b.vertices[3 * k + 1])
    ensures forall k :: 0 <= k < b.indexCount ==> b.indices[k] < b.o.NumVertices()
    ensures forall surf: Surface, i: nat, j: nat {:trigger b.DrawsPoint(shape, surf, i, j)} ::
      b.o.Uses(surf) && i <= b.o.segments && j <= b.o.segments ==> b.DrawsPoint(shape, surf, i, j)
    ensures forall f: Face {:trigger b.DrawsFace(f)} :: InMesh(b.o, f) ==> b.DrawsFace(f)
    ensures b.indexCount % 3 == 0 && forall x: nat :: b.Written(x) ==> b.DrawsOnlyFaces(x)
    ensures forall x: nat, y: nat :: b.Written(x) && b.Written(y) && b.TriangleAt(x) == b.TriangleAt(y) ==> x == y
  {
    var o := Resolve(q);
    shape, at, keep := TheTeapot(o, unit);
    FollowingIsShaped(shape, o);
    DrawnCuspsMeet(at, o, unit, shape);
    MeetingIsDropped(keep, at);
    b := new Buffers(o, unit);
    b.Tessellate(shape, at, keep);
    CornersWithin(o, unit, shape, at, o.MaxPatches(), 0, 0);
    VerticesWithin(b, AllCorners(o, at));
    IndicesRefer(b, at, keep);
    PointsAreDrawn(b, shape, at);
    FacesAreDrawn(b, at, keep);
    DrawnOnce(b, keep);
  }

  lemma StoredCorner(b: Buffers, at: At, surf: Surface, i: nat, j: nat)
    requires b.Holds(AllCorners(b.o, at)) && b.o.Uses(surf) && i <= b.o.segments && j <= b.o.segments
    ensures V(b.o, surf, i, j) < b.o.NumVertices() && b.HoldsAt(V(b.o, surf, i, j), at(surf, i, j))
  {
    CornersAt(b.o, at, surf, i, j, b.o.MaxPatches(), 0, 0);
    var v := V(b.o, surf, i, j);
    assert b.HoldsAt(v, AllCorners(b.o, at)[v]);
  }

  lemma PointIsDrawn(b: Buffers, shape: Shape, at: At, surf: Surface, i: nat, j: nat)
    requires b.Holds(AllCorners(b.o, at)) && Draws(at, b.o, b.unit, shape)
    requires b.o.Uses(surf) && i <= b.o.segments && j <= b.o.segments
    ensures b.DrawsPoint(shape, surf, i, j)
  {
    StoredCorner(b, at, surf, i, j);
    var s, t := Step(b.o.segments, i), Step(b.o.segments, j);
    assert at(surf, i, j) == Vertexed(b.o, b.unit, shape, surf, s, t);
    var p := Triple(shape, surf, Powers(s), Powers(t));
    PlacedShows(b.o, p);
    if p.x != 0.0 || p.y != 0.0 {
      NormalPointsAway(b.o, b.unit, p, Triple(shape, surf, Slopes(s), Powers(t)), Triple(shape, surf, Powers(s), Slopes(t)));
    }
  }

  lemma PointsAreDrawn(b: Buffers, shape: Shape, at: At)
    requires b.Holds(AllCorners(b.o, at)) && Draws(at, b.o, b.unit, shape)
    ensures forall surf: Surface, i: nat, j: nat {:trigger b.DrawsPoint(shape, surf, i, j)} ::
      b.o.Uses(surf) && i <= b.o.segments && j <= b.o.segments ==> b.DrawsPoint(shape, surf, i, j)
  {
    forall surf: Surface, i: nat, j: nat | b.o.Uses(surf) && i <= b.o.segments && j <= b.o.segments
      ensures b.DrawsPoint(shape, surf, i, j)
    {
      PointIsDrawn(b, shape, at, surf, i, j);
    }
  }

  lemma StoredPosition(b: Buffers, at: At, f: Face, k: nat)
    requires b.Holds(AllCorners(b.o, at)) && InMesh(b.o, f)
    ensures 3 * Index(b.o, f, k) + 2 < b.vertices.Length && b.PositionOf(Index(b.o, f, k)) == Pos(at, f, k)
  {
    StoredCorner(b, at, f.surf, f.Place(k).0, f.Place(k).1);
  }

  lemma ListedTriangle(b: Buffers, fs: seq<Face>, x: nat)
    requires b.Lists(fs)
    ensures b.Written(x) <==> x < |fs|
    ensures b.Written(x) ==> b.TriangleAt(x) == Numbers(b.o, fs[x])
  {
    if x < |fs| {
      assert b.ListsAt(x, fs[x]);
    }
  }

  lemma FaceIsDrawn(b: Buffers, at: At, keep: Keep, f: Face)
    requires b.Holds(AllCorners(b.o, at)) && b.Lists(AllFaces(b.o, keep)) && Filters(keep, at) && InMesh(b.o, f)
    ensures b.DrawsFace(f)
  {
    StoredPosition(b, at, f, 0);
    StoredPosition(b, at, f, 1);
    StoredPosition(b, at, f, 2);
    assert Kept(at, f) <==> keep(f);
    var fs := AllFaces(b.o, keep);
    AllFacesIff(b.o, keep, f);
    if keep(f) {
      var x: nat :| x < |fs| && fs[x] == f;
      ListedTriangle(b, fs, x);
    }
    forall x: nat | b.Written(x) && b.TriangleAt(x) == Numbers(b.o, f)
      ensures keep(f)
    {
      ListedTriangle(b, fs, x);
      SameTriangle(b.o, keep, x, f);
    }
  }

  /** A listed triangle with the numbers of a face is that face. */
  lemma SameTriangle(o: Options, keep: Keep, x: nat, f: Face)
    requires InMesh(o, f) && x < |AllFaces(o, keep)| && Numbers(o, AllFaces(o, keep)[x]) == Numbers(o, f)
    ensures keep(f)
  {
    var fs := AllFaces(o, keep);
    AllFacesIff(o, keep, fs[x]);
    SideOccursOnce(o, fs[x], 0, f, 0);
  }

  lemma FacesAreDrawn(b: Buffers, at: At, keep: Keep)
    requires b.Holds(AllCorners(b.o, at)) && b.Lists(AllFaces(b.o, keep)) && Filters(keep, at)
    ensures forall f: Face {:trigger b.DrawsFace(f)} :: InMesh(b.o, f) ==> b.DrawsFace(f)
    ensures b.indexCount % 3 == 0 && forall x: nat :: b.Written(x) ==> b.DrawsOnlyFaces(x)
  {
    var fs := AllFaces(b.o, keep);
    forall f: Face | InMesh(b.o, f) ensures b.DrawsFace(f) {
      FaceIsDrawn(b, at, keep, f);
    }
    forall x: nat | b.Written(x) ensures b.DrawsOnlyFaces(x) {
      ListedTriangle(b, fs, x);
      AllFacesIff(b.o, keep, fs[x]);
      FaceIsDrawn(b, at, keep, fs[x]);
    }
  }

  lemma DrawnOnce(b: Buffers, keep: Keep)
    requires b.Lists(AllFaces(b.o, keep))
    ensures forall x: nat, y: nat :: b.Written(x) && b.Written(y) && b.TriangleAt(x) == b.TriangleAt(y) ==> x == y
  {
    var fs := AllFaces(b.o, keep);
    forall x: nat, y: nat | b.Written(x) && b.Written(y) && b.TriangleAt(x) == b.TriangleAt(y)
      ensures x == y
    {
      ListedTriangle(b, fs, x);
      ListedTriangle(b, fs, y);
      KeptSidesOccurOnce(b.o, keep, x, 0, y, 0);
    }
  }

  lemma VerticesWithin(b: Buffers, cs: seq<Corner>)
    requires b.Holds(cs) && AllWithin(b.o, cs) && b.vertCount == b.vertices.Length
    ensures forall k :: 0 <= k < b.o.NumVertices() ==> Within(b.o, b.vertices[3 * k + 1])
  {
    forall k | 0 <= k < b.o.NumVertices() ensures Within(b.o, b.vertices[3 * k + 1]) {
      assert b.HoldsAt(k, cs[k]) && Within(b.o, cs[k].pos.y);
    }
  }

  lemma IndicesRefer(b: Buffers, at: At, keep: Keep)
    requires b.Lists(AllFaces(b.o, keep))
    ensures forall k :: 0 <= k < b.indexCount ==> b.indices[k] < b.o.NumVertices()
  {
    forall k | 0 <= k < b.indexCount ensures b.indices[k] < b.o.NumVertices() {
      assert k == 3 * (k / 3) + k % 3;
      IndexRefers(b, at, keep, AllFaces(b.o, keep), k / 3, k % 3);
    }
  }

  lemma IndexRefers(b: Buffers, at: At, keep: Keep, fs: seq<Face>, x: nat, k: nat)
    requires b.Lists(fs) && fs == AllFaces(b.o, keep) && x < |fs| && k < 3
    ensures b.indices[3 * x + k] < b.o.NumVertices()
  {
    VerticesFill(b.o, at);
    NumbersRefer(b.o, at, keep, x, k);
    assert b.ListsAt(x, fs[x]);
  }

  // ---------------------------------------------------------------------------------------
  // The plain request

  /** What is asked for is what is drawn: every size but 0, every number of segments from 2 on and every choice of
      parts. Nothing asked for is the whole teapot in size 50 with ten segments. */
  lemma RequestsAreMet(o: Options)
    ensures o.size != 0.0 ==> Resolve(Request(Some(o.size), Some(o.segments as real), Some(o.bottom), Some(o.lid), Some(o.body),
                                              Some(o.fitLid), Some(o.blinn))) == o
    ensures Resolve(Request(None, None, None, None, None, None, None)) == Options(50.0, 10, true, true, true, true, true)
  {
  }

  /** Where the rim of the pot begins, and the brim of the lid: on one height, and when the lid is to fit the
      brim just covers the rim, instead of leaving a gap of a tenth. */
  lemma LidMeetsRim(o: Options, shape: Shape)
    requires Follows(shape, o)
    ensures var height := 2.4 * (if o.blinn then 1.0 else 1.3);
      && Triple(shape, 0, Powers(0.0), Powers(0.0)) == Point(1.4, 0.0, height)
      && Triple(shape, 24, Powers(1.0), Powers(0.0)) == Point(if o.fitLid then 1.4001 else 1.3, 0.0, height)
  {
    forall axis: Axis
      ensures shape(0, axis, Powers(0.0), Powers(0.0)) == Control(o, 0, axis, 0)
      ensures shape(24, axis, Powers(1.0), Powers(0.0)) == Control(o, 24, axis, 12)
    {
      CornerInterpolates(Controls(o, 0, axis));
      LastRowInterpolates(Controls(o, 24, axis));
    }
  }
}
