/** Value types of the painter demo: points, colours and the polygon
    descriptor, plus the two polygon builders (one quad, one cube).
    Single-precision floats are modelled as exact reals. */
module Geometry {

  datatype Vec3 = Vec3(x: real, y: real, z: real)

  datatype Rgba = Rgba(r: real, g: real, b: real, a: real)

  /** One texture coordinate pair (uv[k][0], uv[k][1]). */
  datatype Uv = Uv(u: real, v: real)

  /** A polygon has room for six vertices and six UV pairs. */
  const MaxVerts: nat := 6

  /** The polygon descriptor: vertex count, vertex and UV slots, colour,
      the checker-texture flag and the depth filled in every frame. */
  datatype Poly = Poly(n: int, v: seq<Vec3>, color: Rgba, textured: bool,
                       uv: seq<Uv>, depth: real)

  const Origin := Vec3(0.0, 0.0, 0.0)
  const NoUv := Uv(0.0, 0.0)

  /** A zero-filled descriptor, as produced by memset or by static storage. */
  const ZeroPoly := Poly(0, seq(MaxVerts, _ => Origin), Rgba(0.0, 0.0, 0.0, 0.0),
                         false, seq(MaxVerts, _ => NoUv), 0.0)

  /** The slots exist and the vertex count is one the slots can hold. */
  predicate WellFormed(p: Poly) {
    |p.v| == MaxVerts && |p.uv| == MaxVerts && 1 <= p.n <= MaxVerts
  }

  /** The polygon addQuad builds: a zeroed descriptor with four vertices
      in the given order, the given colour and flag, and UVs laid out
      counter-clockwise over [u0,u1] x [v0,v1] only when textured. */
  function Quad(a: Vec3, b: Vec3, c: Vec3, d: Vec3, col: Rgba, textured: bool,
                u0: real, v0: real, u1: real, v1: real): (p: Poly)
    ensures WellFormed(p) && p.n == 4
    ensures p.v[0] == a && p.v[1] == b && p.v[2] == c && p.v[3] == d
    ensures forall k :: 4 <= k < MaxVerts ==> p.v[k] == Origin
    ensures p.color == col && p.textured == textured && p.depth == 0.0
    ensures textured ==>
      p.uv[..4] == [Uv(u0, v0), Uv(u0, v1), Uv(u1, v1), Uv(u1, v0)]
    ensures forall k :: 0 <= k < MaxVerts && (!textured || 4 <= k) ==> p.uv[k] == NoUv
  {
    var uvs := if textured then [Uv(u0, v0), Uv(u0, v1), Uv(u1, v1), Uv(u1, v0), NoUv, NoUv]
               else seq(MaxVerts, _ => NoUv);
    Poly(4, [a, b, c, d, Origin, Origin], col, textured, uvs, 0.0)
  }

  /** Each coordinate of p is the centre's coordinate plus or minus h. */
  predicate IsCorner(c: Vec3, h: real, p: Vec3) {
    (p.x == c.x - h || p.x == c.x + h) &&
    (p.y == c.y - h || p.y == c.y + h) &&
    (p.z == c.z - h || p.z == c.z + h)
  }

  /** The first four vertices of p share their x, y or z coordinate. */
  predicate InPlaneX(p: Poly, x: real)
    requires WellFormed(p)
  {
    p.v[0].x == x && p.v[1].x == x && p.v[2].x == x && p.v[3].x == x
  }

  predicate InPlaneY(p: Poly, y: real)
    requires WellFormed(p)
  {
    p.v[0].y == y && p.v[1].y == y && p.v[2].y == y && p.v[3].y == y
  }

  predicate InPlaneZ(p: Poly, z: real)
    requires WellFormed(p)
  {
    p.v[0].z == z && p.v[1].z == z && p.v[2].z == z && p.v[3].z == z
  }

  /** The four vertices of a quad are pairwise different points. */
  predicate DistinctCorners(p: Poly)
    requires WellFormed(p)
  {
    forall k, l :: 0 <= k < l < 4 ==> p.v[k] != p.v[l]
  }

  /** The six untextured quads addCube emits, in its order: back, front,
      bottom, top, left, right. */
  function CubeFaces(c: Vec3, s: real, col: Rgba): (faces: seq<Poly>)
    ensures |faces| == 6
    ensures forall i :: 0 <= i < 6 ==>
      WellFormed(faces[i]) && faces[i].n == 4 && !faces[i].textured &&
      faces[i].color == col && faces[i].depth == 0.0
  {
    var h := s * 0.5;
    var A := Vec3(c.x - h, c.y - h, c.z - h);
    var B := Vec3(c.x + h, c.y - h, c.z - h);
    var C := Vec3(c.x + h, c.y + h, c.z - h);
    var D := Vec3(c.x - h, c.y + h, c.z - h);
    var E := Vec3(c.x - h, c.y - h, c.z + h);
    var F := Vec3(c.x + h, c.y - h, c.z + h);
    var G := Vec3(c.x + h, c.y + h, c.z + h);
    var H := Vec3(c.x - h, c.y + h, c.z + h);
    [ Quad(A, B, C, D, col, false, 0.0, 0.0, 0.0, 0.0),
      Quad(E, F, G, H, col, false, 0.0, 0.0, 0.0, 0.0),
      Quad(A, E, F, B, col, false, 0.0, 0.0, 0.0, 0.0),
      Quad(D, H, G, C, col, false, 0.0, 0.0, 0.0, 0.0),
      Quad(A, D, H, E, col, false, 0.0, 0.0, 0.0, 0.0),
      Quad(B, C, G, F, col, false, 0.0, 0.0, 0.0, 0.0) ]
  }

  /** Every vertex of every face is a corner of the cube of side s around c. */
  lemma CubeFacesUseCorners(c: Vec3, s: real, col: Rgba)
    ensures var faces := CubeFaces(c, s, col);
      forall i, k :: 0 <= i < 6 && 0 <= k < 4 ==> IsCorner(c, s / 2.0, faces[i].v[k])
  {
    var faces := CubeFaces(c, s, col);
    var h := s * 0.5;
    assert s / 2.0 == h;
    forall i | 0 <= i < 6
      ensures forall k :: 0 <= k < 4 ==> IsCorner(c, h, faces[i].v[k])
    {
    }
  }

  /** Each face lies in its own one of the six face planes of the cube. */
  lemma CubeFacesArePlanar(c: Vec3, s: real, col: Rgba)
    ensures var faces := CubeFaces(c, s, col);
      InPlaneZ(faces[0], c.z - s / 2.0) && InPlaneZ(faces[1], c.z + s / 2.0) &&
      InPlaneY(faces[2], c.y - s / 2.0) && InPlaneY(faces[3], c.y + s / 2.0) &&
      InPlaneX(faces[4], c.x - s / 2.0) && InPlaneX(faces[5], c.x + s / 2.0)
  {
    assert s / 2.0 == s * 0.5;
  }

  /** For a cube of non-zero size, the four corners of each face are distinct. */
  lemma CubeFacesAreProper(c: Vec3, s: real, col: Rgba)
    requires s != 0.0
    ensures var faces := CubeFaces(c, s, col);
      forall i :: 0 <= i < 6 ==> DistinctCorners(faces[i])
  {
    var faces := CubeFaces(c, s, col);
    var h := s * 0.5;
    assert c.x - h != c.x + h && c.y - h != c.y + h && c.z - h != c.z + h;
    forall i | 0 <= i < 6
      ensures DistinctCorners(faces[i])
    {
    }
  }

  function Sub(a: Vec3, b: Vec3): Vec3 {
    Vec3(a.x - b.x, a.y - b.y, a.z - b.z)
  }

  function Cross(a: Vec3, b: Vec3): Vec3 {
    Vec3(a.y * b.z - a.z * b.y, a.z * b.x - a.x * b.z, a.x * b.y - a.y * b.x)
  }

  function Dot(a: Vec3, b: Vec3): real {
    a.x * b.x + a.y * b.y + a.z * b.z
  }

  /** The normal that counter-clockwise winding gives a quad: the cross
      product of its first two edges. */
  function WindingNormal(p: Poly): Vec3
    requires WellFormed(p)
  {
    Cross(Sub(p.v[1], p.v[0]), Sub(p.v[2], p.v[1]))
  }

  /** Whether the winding normal of a face points away from the centre c
      (positive) or towards it (negative), measured against the face's
      first vertex. */
  function Outwardness(c: Vec3, p: Poly): real
    requires WellFormed(p)
  {
    Dot(WindingNormal(p), Sub(p.v[0], c))
  }

  lemma ProductPositive(t: real, h: real)
    requires t > 0.0 && h > 0.0
    ensures t * t * h > 0.0
  {
    assert t * t > 0.0;
  }

  /** As written, addCube winds the front, top and right quads so that
      their normals point out of the cube, and the back, bottom and left
      quads so that their normals point into it. */
  lemma CubeWinding(c: Vec3, s: real, col: Rgba)
    requires s > 0.0
    ensures var faces := CubeFaces(c, s, col);
      Outwardness(c, faces[1]) > 0.0 && Outwardness(c, faces[3]) > 0.0 &&
      Outwardness(c, faces[5]) > 0.0 &&
      Outwardness(c, faces[0]) < 0.0 && Outwardness(c, faces[2]) < 0.0 &&
      Outwardness(c, faces[4]) < 0.0
  {
    var faces := CubeFaces(c, s, col);
    var h := s * 0.5;
    var t := 2.0 * h;
    ProductPositive(t, h);
    var X, Y, Z := Vec3(t, 0.0, 0.0), Vec3(0.0, t, 0.0), Vec3(0.0, 0.0, t);
    var lo, hi := Vec3(-h, -h, -h), Vec3(h, h, h);
    assert Sub(faces[0].v[1], faces[0].v[0]) == X && Sub(faces[0].v[2], faces[0].v[1]) == Y;
    assert Sub(faces[1].v[1], faces[1].v[0]) == X && Sub(faces[1].v[2], faces[1].v[1]) == Y;
    assert Sub(faces[2].v[1], faces[2].v[0]) == Z && Sub(faces[2].v[2], faces[2].v[1]) == X;
    assert Sub(faces[3].v[1], faces[3].v[0]) == Z && Sub(faces[3].v[2], faces[3].v[1]) == X;
    assert Sub(faces[4].v[1], faces[4].v[0]) == Y && Sub(faces[4].v[2], faces[4].v[1]) == Z;
    assert Sub(faces[5].v[1], faces[5].v[0]) == Y && Sub(faces[5].v[2], faces[5].v[1]) == Z;
    assert Cross(X, Y) == Vec3(0.0, 0.0, t * t);
    assert Cross(Z, X) == Vec3(0.0, t * t, 0.0);
    assert Cross(Y, Z) == Vec3(t * t, 0.0, 0.0);
    assert Sub(faces[0].v[0], c) == lo && Sub(faces[2].v[0], c) == lo && Sub(faces[4].v[0], c) == lo;
    assert Sub(faces[1].v[0], c) == Vec3(-h, -h, h);
    assert Sub(faces[3].v[0], c) == Vec3(-h, h, -h);
    assert Sub(faces[5].v[0], c) == Vec3(h, -h, -h);
  }
}
