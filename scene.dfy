/** The global scene: a fixed buffer of sixteen polygons and the number in
    use, filled once at start-up, given depths every frame and, in painter
    mode, drawn from a sorted copy. */
module SceneBuffer {
  import opened Geometry
  import opened Depth

  /** Slots in the scene buffer. */
  const Capacity: nat := 16

  /** Slots in the painter's scratch buffer. */
  const SortedCapacity: nat := 64

  /** The ten polygons buildScene lays out: textured floor, left and right
      walls, translucent window, then the six faces of the cube. */
  function InitialScene(): (s: seq<Poly>)
    ensures |s| == 10 && |s| <= Capacity
    ensures forall i :: 0 <= i < |s| ==> WellFormed(s[i]) && s[i].n == 4
    ensures forall i :: 0 <= i < |s| ==> (s[i].textured <==> i == 0)
    ensures forall i :: 0 <= i < |s| ==> (s[i].color.a < 1.0 <==> i == 3)
    ensures s[4..] == CubeFaces(Vec3(0.0, -1.0, 6.0), 2.5, Rgba(0.9, 0.9, 0.3, 1.0))
  {
    [ Quad(Vec3(-8.0, -2.0, -2.0), Vec3(-8.0, -2.0, 12.0),
           Vec3(8.0, -2.0, 12.0), Vec3(8.0, -2.0, -2.0),
           Rgba(1.0, 1.0, 1.0, 1.0), true, 0.0, 0.0, 6.0, 6.0),
      Quad(Vec3(-8.0, -2.0, 12.0), Vec3(-8.0, 6.0, 12.0),
           Vec3(-8.0, 6.0, -2.0), Vec3(-8.0, -2.0, -2.0),
           Rgba(0.7, 0.7, 0.9, 1.0), false, 0.0, 0.0, 0.0, 0.0),
      Quad(Vec3(8.0, -2.0, -2.0), Vec3(8.0, 6.0, -2.0),
           Vec3(8.0, 6.0, 12.0), Vec3(8.0, -2.0, 12.0),
           Rgba(0.9, 0.7, 0.7, 1.0), false, 0.0, 0.0, 0.0, 0.0),
      Quad(Vec3(-3.0, 0.0, 6.0), Vec3(-3.0, 4.0, 6.0),
           Vec3(3.0, 4.0, 6.0), Vec3(3.0, 0.0, 6.0),
           Rgba(0.2, 0.6, 1.0, 0.35), false, 0.0, 0.0, 0.0, 0.0) ]
    + CubeFaces(Vec3(0.0, -1.0, 6.0), 2.5, Rgba(0.9, 0.9, 0.3, 1.0))
  }

  class Scene {
    /** scene[16] */
    var polys: array<Poly>
    /** nScene */
    var count: nat

    ghost predicate Valid()
      reads this, polys
    {
      polys.Length == Capacity && count <= Capacity &&
      forall i :: 0 <= i < count ==> WellFormed(polys[i])
    }

    /** The polygons in use, scene[0..nScene). */
    function Contents(): (s: seq<Poly>)
      reads this, polys
      requires Valid()
      ensures |s| == count
      ensures forall i :: 0 <= i < |s| ==> WellFormed(s[i])
    {
      polys[..count]
    }

    /** Static storage: every slot zero, no polygon in use. */
    constructor ()
      ensures Valid() && fresh(polys)
      ensures count == 0 && Contents() == []
      ensures forall i :: 0 <= i < Capacity ==> polys[i] == ZeroPoly
    {
      polys := new Poly[Capacity](_ => ZeroPoly);
      count := 0;
    }

    /** Stores one quad in the next free slot and counts it. */
    method AddQuad(a: Vec3, b: Vec3, c: Vec3, d: Vec3, col: Rgba, textured: bool,
                   u0: real, v0: real, u1: real, v1: real)
      requires Valid() && count < Capacity
      modifies this`count, polys
      ensures Valid() && polys == old(polys)
      ensures count == old(count) + 1
      ensures polys[old(count)] == Quad(a, b, c, d, col, textured, u0, v0, u1, v1)
      ensures forall k :: 0 <= k < Capacity && k != old(count) ==> polys[k] == old(polys[k])
    {
      var p := Quad(a, b, c, d, col, textured, u0, v0, u1, v1);
      polys[count] := p;
      count := count + 1;
    }

    /** Appends the six faces of the cube of side s centred on c. */
    method AddCube(c: Vec3, s: real, col: Rgba)
      requires Valid() && count + 6 <= Capacity
      modifies this`count, polys
      ensures Valid() && polys == old(polys)
      ensures count == old(count) + 6
      ensures forall i :: 0 <= i < 6 ==> polys[old(count) + i] == CubeFaces(c, s, col)[i]
      ensures forall k :: 0 <= k < Capacity && !(old(count) <= k < count) ==> polys[k] == old(polys[k])
    {
      var h := s * 0.5;
      var A := Vec3(c.x - h, c.y - h, c.z - h);
      var B := Vec3(c.x + h, c.y - h, c.z - h);
      var C := Vec3(c.x + h, c.y + h, c.z - h);
      var D := Vec3(c.x - h, c.y + h, c.z - h);
      var E := Vec3(c.x - h, c.y - h, c.z + h);
      var F := Vec3(c.x + h, c.y - h, c.z + h);
      var G := Vec3(c.x + h, c.y + h, c.z + h);
      var H := Vec3(c.x - h, c.y + h, c.z + h);
      ghost var n0 := count;
      ghost var faces := [
        Quad(A, B, C, D, col, false, 0.0, 0.0, 0.0, 0.0),
        Quad(E, F, G, H, col, false, 0.0, 0.0, 0.0, 0.0),
        Quad(A, E, F, B, col, false, 0.0, 0.0, 0.0, 0.0),
        Quad(D, H, G, C, col, false, 0.0, 0.0, 0.0, 0.0),
        Quad(A, D, H, E, col, false, 0.0, 0.0, 0.0, 0.0),
        Quad(B, C, G, F, col, false, 0.0, 0.0, 0.0, 0.0)];
      AddQuad(A, B, C, D, col, false, 0.0, 0.0, 0.0, 0.0);
      AddQuad(E, F, G, H, col, false, 0.0, 0.0, 0.0, 0.0);
      AddQuad(A, E, F, B, col, false, 0.0, 0.0, 0.0, 0.0);
      AddQuad(D, H, G, C, col, false, 0.0, 0.0, 0.0, 0.0);
      AddQuad(A, D, H, E, col, false, 0.0, 0.0, 0.0, 0.0);
      AddQuad(B, C, G, F, col, false, 0.0, 0.0, 0.0, 0.0);
      assert faces == CubeFaces(c, s, col);
    }

    /** Empties the scene and lays out the fixed demo scene. */
    method BuildScene()
      requires Valid()
      modifies this`count, polys
      ensures Valid() && polys == old(polys)
      ensures Contents() == InitialScene()
      ensures forall k :: count <= k < Capacity ==> polys[k] == old(polys[k])
    {
      count := 0;
      ghost var scene := InitialScene();
      AddQuad(Vec3(-8.0, -2.0, -2.0), Vec3(-8.0, -2.0, 12.0),
              Vec3(8.0, -2.0, 12.0), Vec3(8.0, -2.0, -2.0),
              Rgba(1.0, 1.0, 1.0, 1.0), true, 0.0, 0.0, 6.0, 6.0);
      AddQuad(Vec3(-8.0, -2.0, 12.0), Vec3(-8.0, 6.0, 12.0),
              Vec3(-8.0, 6.0, -2.0), Vec3(-8.0, -2.0, -2.0),
              Rgba(0.7, 0.7, 0.9, 1.0), false, 0.0, 0.0, 0.0, 0.0);
      AddQuad(Vec3(8.0, -2.0, -2.0), Vec3(8.0, 6.0, -2.0),
              Vec3(8.0, 6.0, 12.0), Vec3(8.0, -2.0, 12.0),
              Rgba(0.9, 0.7, 0.7, 1.0), false, 0.0, 0.0, 0.0, 0.0);
      AddQuad(Vec3(-3.0, 0.0, 6.0), Vec3(-3.0, 4.0, 6.0),
              Vec3(3.0, 4.0, 6.0), Vec3(3.0, 0.0, 6.0),
              Rgba(0.2, 0.6, 1.0, 0.35), false, 0.0, 0.0, 0.0, 0.0);
      AddCube(Vec3(0.0, -1.0, 6.0), 2.5, Rgba(0.9, 0.9, 0.3, 1.0));
      assert forall i :: 0 <= i < 10 ==> polys[i] == scene[i];
      assert Contents() == scene;
    }

    /** Sets each polygon's depth to the mean eye-space z of its vertices
        under mv, touching no other field and no unused slot. */
    method ComputeDepths(mv: seq<real>)
      requires Valid() && IsMatrix(mv)
      modifies polys
      ensures Valid()
      ensures Contents() == WithDepths(mv, old(Contents()))
      ensures polys[count..] == old(polys[count..])
    {
      var i := 0;
      while i < count
        invariant 0 <= i <= count
        invariant Valid()
        invariant forall j :: 0 <= j < i ==> polys[j] == old(polys[j]).(depth := MeanDepth(mv, old(polys[j])))
        invariant forall j :: i <= j < Capacity ==> polys[j] == old(polys[j])
      {
        var p := polys[i];
        var d := PolyDepth(mv, p);
        polys[i] := p.(depth := d);
        i := i + 1;
      }
    }

    /** The inner loop of computeDepths: the mean eye-space z of p's
        vertices, accumulated vertex by vertex. */
    static method PolyDepth(mv: seq<real>, p: Poly) returns (d: real)
      requires IsMatrix(mv) && WellFormed(p)
      ensures d == MeanDepth(mv, p)
    {
      var zsum := 0.0;
      var k := 0;
      while k < p.n
        invariant 0 <= k <= p.n
        invariant zsum == Sum(EyeDepths(mv, p.v), k)
      {
        var o := MultMV(mv, p.v[k]);
        zsum := zsum + o.z;
        k := k + 1;
      }
      d := zsum / (p.n as real);
    }

    /** The painter branch: a fresh 64-slot buffer whose first nScene slots
        hold the scene's polygons reordered back to front. The scene itself
        is only read. */
    method PainterCopy() returns (sorted: array<Poly>)
      requires Valid()
      ensures fresh(sorted) && sorted.Length == SortedCapacity
      ensures count <= sorted.Length
      ensures multiset(sorted[..count]) == multiset(Contents())
      ensures DeepestFirst(sorted[..count])
    {
      sorted := new Poly[SortedCapacity](_ => ZeroPoly);
      forall i | 0 <= i < count {
        sorted[i] := polys[i];
      }
      assert sorted[..count] == Contents();
      SortDeepestFirst(sorted, count);
    }

    /** One frame of drawScene: give every polygon its depth under mv, then
        return the polygons in the order they are submitted for drawing,
        sorted back to front in painter mode and in array order otherwise. */
    method DrawScene(mv: seq<real>, painter: bool) returns (order: seq<Poly>)
      requires Valid() && IsMatrix(mv)
      modifies polys
      ensures Valid()
      ensures Contents() == WithDepths(mv, old(Contents()))
      ensures polys[count..] == old(polys[count..])
      ensures painter ==> multiset(order) == multiset(Contents()) && DeepestFirst(order)
      ensures !painter ==> order == Contents()
    {
      ComputeDepths(mv);
      if painter {
        var sorted := PainterCopy();
        order := sorted[..count];
      } else {
        order := polys[..count];
      }
    }
  }
}
