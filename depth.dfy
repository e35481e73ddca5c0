/** Eye-space depth of a polygon and the back-to-front order the painter's
    algorithm draws in. The model-view matrix is a parameter: sixteen
    reals in OpenGL's column-major layout. */
module Depth {
  import opened Geometry

  /** A model-view matrix, column-major as OpenGL stores it. */
  predicate IsMatrix(mv: seq<real>) {
    |mv| == 16
  }

  /** mv only translates: its upper-left 3 x 3 block is the identity. */
  predicate IsTranslation(mv: seq<real>)
    requires IsMatrix(mv)
  {
    mv[0] == 1.0 && mv[5] == 1.0 && mv[10] == 1.0 &&
    mv[1] == 0.0 && mv[2] == 0.0 && mv[4] == 0.0 &&
    mv[6] == 0.0 && mv[8] == 0.0 && mv[9] == 0.0
  }

  /** World-to-eye transform of a point by the affine part of mv; the
      fourth column (mv[12], mv[13], mv[14]) is the translation. */
  function MultMV(mv: seq<real>, p: Vec3): (r: Vec3)
    requires IsMatrix(mv)
    ensures IsTranslation(mv) ==> r == Vec3(p.x + mv[12], p.y + mv[13], p.z + mv[14])
    ensures p == Origin ==> r == Vec3(mv[12], mv[13], mv[14])
  {
    assert IsTranslation(mv) ==>
      mv[0] * p.x == p.x && mv[4] * p.y == 0.0 && mv[8] * p.z == 0.0 &&
      mv[1] * p.x == 0.0 && mv[5] * p.y == p.y && mv[9] * p.z == 0.0 &&
      mv[2] * p.x == 0.0 && mv[6] * p.y == 0.0 && mv[10] * p.z == p.z;
    Vec3(mv[0] * p.x + mv[4] * p.y + mv[8] * p.z + mv[12],
         mv[1] * p.x + mv[5] * p.y + mv[9] * p.z + mv[13],
         mv[2] * p.x + mv[6] * p.y + mv[10] * p.z + mv[14])
  }

  /** The eye-space z of each vertex of vs. */
  function EyeDepths(mv: seq<real>, vs: seq<Vec3>): (zs: seq<real>)
    requires IsMatrix(mv)
    ensures |zs| == |vs|
  {
    seq(|vs|, j requires 0 <= j < |vs| => MultMV(mv, vs[j]).z)
  }

  /** The least of zs[0..n). */
  function Least(zs: seq<real>, n: nat): (m: real)
    requires 0 < n <= |zs|
    ensures forall j :: 0 <= j < n ==> m <= zs[j]
    ensures exists j :: 0 <= j < n && m == zs[j]
  {
    if n == 1 then zs[0]
    else var m := Least(zs, n - 1); if zs[n - 1] < m then zs[n - 1] else m
  }

  /** The greatest of zs[0..n). */
  function Greatest(zs: seq<real>, n: nat): (m: real)
    requires 0 < n <= |zs|
    ensures forall j :: 0 <= j < n ==> zs[j] <= m
    ensures exists j :: 0 <= j < n && m == zs[j]
  {
    if n == 1 then zs[0]
    else var m := Greatest(zs, n - 1); if zs[n - 1] > m then zs[n - 1] else m
  }

  /** zs[0] + ... + zs[k-1], accumulated left to right. */
  function Sum(zs: seq<real>, k: nat): real
    requires k <= |zs|
  {
    if k == 0 then 0.0 else Sum(zs, k - 1) + zs[k - 1]
  }

  /** The mean of zs[0..n): between the least and the greatest value. */
  function Mean(zs: seq<real>, n: nat): (r: real)
    requires 0 < n <= |zs|
    ensures Least(zs, n) <= r <= Greatest(zs, n)
  {
    MeanBounds(zs, n, Least(zs, n), Greatest(zs, n));
    Sum(zs, n) / (n as real)
  }

  /** Mean eye-space z of the polygon's n vertices: no nearer than its
      nearest vertex and no farther than its farthest. */
  function MeanDepth(mv: seq<real>, p: Poly): (d: real)
    requires IsMatrix(mv) && WellFormed(p)
    ensures Least(EyeDepths(mv, p.v), p.n) <= d <= Greatest(EyeDepths(mv, p.v), p.n)
  {
    Mean(EyeDepths(mv, p.v), p.n)
  }

  /** Every polygon of s with its depth set to its mean eye-space z and
      nothing else changed. */
  function WithDepths(mv: seq<real>, s: seq<Poly>): (r: seq<Poly>)
    requires IsMatrix(mv) && forall i :: 0 <= i < |s| ==> WellFormed(s[i])
    ensures |r| == |s|
  {
    seq(|s|, i requires 0 <= i < |s| => s[i].(depth := MeanDepth(mv, s[i])))
  }

  /** If zs[0..k) all lie in [lo, hi], their sum lies in [k*lo, k*hi]. */
  lemma {:induction false} SumBounds(zs: seq<real>, k: nat, lo: real, hi: real)
    requires k <= |zs|
    requires forall j :: 0 <= j < k ==> lo <= zs[j] <= hi
    ensures (k as real) * lo <= Sum(zs, k) <= (k as real) * hi
  {
    if k > 0 {
      SumBounds(zs, k - 1, lo, hi);
      StepBounds((k - 1) as real, lo, hi, Sum(zs, k - 1), zs[k - 1]);
      assert ((k - 1) as real) + 1.0 == k as real;
    }
  }

  /** One more summand in [lo, hi] keeps a sum of n values in [n*lo, n*hi]
      within [(n+1)*lo, (n+1)*hi]. */
  lemma StepBounds(n: real, lo: real, hi: real, sum: real, z: real)
    requires n * lo <= sum <= n * hi && lo <= z <= hi
    ensures (n + 1.0) * lo <= sum + z <= (n + 1.0) * hi
  {
    assert (n + 1.0) * lo == n * lo + lo;
    assert (n + 1.0) * hi == n * hi + hi;
  }

  /** A quotient by a positive count of a sum in [n*lo, n*hi] is in [lo, hi]. */
  lemma QuotientBounds(sum: real, n: real, lo: real, hi: real)
    requires n > 0.0 && n * lo <= sum <= n * hi
    ensures lo <= sum / n <= hi
  {
    var m := sum / n;
    assert m * n == sum;
    assert (m - lo) * n == sum - n * lo;
    assert (hi - m) * n == n * hi - sum;
  }

  /** A mean of values in [lo, hi], the sum over the count, lies in [lo, hi]. */
  lemma MeanBounds(zs: seq<real>, n: nat, lo: real, hi: real)
    requires 0 < n <= |zs|
    requires forall j :: 0 <= j < n ==> lo <= zs[j] <= hi
    ensures lo <= Sum(zs, n) / (n as real) <= hi
  {
    SumBounds(zs, n, lo, hi);
    QuotientBounds(Sum(zs, n), n as real, lo, hi);
  }

  /** The depth given to a polygon lies between the nearest and the
      farthest eye-space z of its vertices. */
  lemma MeanDepthBounds(mv: seq<real>, p: Poly, lo: real, hi: real)
    requires IsMatrix(mv) && WellFormed(p)
    requires forall j :: 0 <= j < p.n ==> lo <= MultMV(mv, p.v[j]).z <= hi
    ensures lo <= MeanDepth(mv, p) <= hi
  {
    var zs := EyeDepths(mv, p.v);
    assert forall j :: 0 <= j < p.n ==> zs[j] == MultMV(mv, p.v[j]).z;
    MeanBounds(zs, p.n, lo, hi);
  }

  /** A polygon whose vertices are all at eye depth z gets depth z. */
  lemma FlatPolyDepth(mv: seq<real>, p: Poly, z: real)
    requires IsMatrix(mv) && WellFormed(p)
    requires forall j :: 0 <= j < p.n ==> MultMV(mv, p.v[j]).z == z
    ensures MeanDepth(mv, p) == z
  {
    MeanDepthBounds(mv, p, z, z);
  }

  /** mv2 moves the camera by d along the eye z axis of mv. */
  predicate ShiftedAlongView(mv: seq<real>, mv2: seq<real>, d: real)
    requires IsMatrix(mv) && IsMatrix(mv2)
  {
    (forall i :: 0 <= i < 16 && i != 14 ==> mv2[i] == mv[i]) && mv2[14] == mv[14] + d
  }

  /** Adding d to each of k summands adds k*d to the sum. */
  lemma {:induction false} SumShift(zs: seq<real>, ws: seq<real>, d: real, k: nat)
    requires k <= |zs| && k <= |ws|
    requires forall j :: 0 <= j < k ==> ws[j] == zs[j] + d
    ensures Sum(ws, k) == Sum(zs, k) + (k as real) * d
  {
    if k > 0 {
      SumShift(zs, ws, d, k - 1);
      assert (k as real) * d == ((k - 1) as real) * d + d;
    }
  }

  /** Adding d to each value adds d to the mean. */
  lemma MeanShift(zs: seq<real>, ws: seq<real>, d: real, n: nat)
    requires 0 < n <= |zs| && n <= |ws|
    requires forall j :: 0 <= j < n ==> ws[j] == zs[j] + d
    ensures Sum(ws, n) / (n as real) == Sum(zs, n) / (n as real) + d
  {
    SumShift(zs, ws, d, n);
    QuotientShift(Sum(zs, n), Sum(ws, n), n as real, d);
  }

  /** Dividing a sum shifted by k*d by k shifts the quotient by d. */
  lemma QuotientShift(sum: real, sum': real, k: real, d: real)
    requires k > 0.0 && sum' == sum + k * d
    ensures sum' / k == sum / k + d
  {
    assert (sum / k + d) * k == sum + k * d;
  }

  /** Moving the camera along its view axis shifts every depth by the same
      amount, so the painter order does not change. */
  lemma MeanDepthShift(mv: seq<real>, mv2: seq<real>, d: real, p: Poly)
    requires IsMatrix(mv) && IsMatrix(mv2) && ShiftedAlongView(mv, mv2, d) && WellFormed(p)
    ensures MeanDepth(mv2, p) == MeanDepth(mv, p) + d
  {
    var zs, ws := EyeDepths(mv, p.v), EyeDepths(mv2, p.v);
    assert mv2[2] == mv[2] && mv2[6] == mv[6] && mv2[10] == mv[10];
    assert forall j :: 0 <= j < p.n ==> ws[j] == zs[j] + d;
    MeanShift(zs, ws, d, p.n);
  }

  /** The qsort comparator: a polygon with larger depth comes first. */
  function Cmp(a: Poly, b: Poly): (r: int)
    ensures r == -1 || r == 0 || r == 1
    ensures r == 1 <==> a.depth < b.depth
    ensures r == -1 <==> a.depth > b.depth
    ensures r == 0 <==> a.depth == b.depth
  {
    if a.depth < b.depth then 1 else if a.depth > b.depth then -1 else 0
  }

  /** Cmp is antisymmetric, and "Cmp(a, b) <= 0" is a total preorder that
      puts deeper polygons first. */
  lemma CmpIsDescendingPreorder(a: Poly, b: Poly, c: Poly)
    ensures Cmp(a, b) == -Cmp(b, a)
    ensures Cmp(a, a) == 0
    ensures Cmp(a, b) <= 0 || Cmp(b, a) <= 0
    ensures Cmp(a, b) <= 0 && Cmp(b, c) <= 0 ==> Cmp(a, c) <= 0
  {
  }

  /** Moving the camera along its view axis leaves every comparison
      between the depths drawScene computes unchanged, so the painter
      order of a scene is the same from both positions. */
  lemma ViewShiftKeepsOrder(mv: seq<real>, mv2: seq<real>, d: real, s: seq<Poly>)
    requires IsMatrix(mv) && IsMatrix(mv2) && ShiftedAlongView(mv, mv2, d)
    requires forall i :: 0 <= i < |s| ==> WellFormed(s[i])
    ensures forall i, j :: 0 <= i < |s| && 0 <= j < |s| ==>
      Cmp(WithDepths(mv2, s)[i], WithDepths(mv2, s)[j]) == Cmp(WithDepths(mv, s)[i], WithDepths(mv, s)[j])
    ensures DeepestFirst(WithDepths(mv, s)) <==> DeepestFirst(WithDepths(mv2, s))
  {
    var r, r2 := WithDepths(mv, s), WithDepths(mv2, s);
    forall i | 0 <= i < |s|
      ensures r2[i].depth == r[i].depth + d
    {
      MeanDepthShift(mv, mv2, d, s[i]);
    }
  }

  /** Every polygon compares at most equal to every later one, which is
      what qsort delivers with Cmp: non-increasing depth. */
  predicate DeepestFirst(s: seq<Poly>) {
    forall i, j :: 0 <= i < j < |s| ==> Cmp(s[i], s[j]) <= 0
  }

  /** An index in [lo, hi) of a polygon no shallower than any other there. */
  method DeepestIndex(a: array<Poly>, lo: nat, hi: nat) returns (m: nat)
    requires lo < hi <= a.Length
    ensures lo <= m < hi
    ensures forall k :: lo <= k < hi ==> a[k].depth <= a[m].depth
  {
    m := lo;
    var k := lo + 1;
    while k < hi
      invariant lo <= m < k <= hi
      invariant forall j :: lo <= j < k ==> a[j].depth <= a[m].depth
    {
      if a[k].depth > a[m].depth {
        m := k;
      }
      k := k + 1;
    }
  }

  method Swap(a: array<Poly>, i: nat, j: nat)
    requires i < a.Length && j < a.Length
    modifies a
    ensures a[i] == old(a[j]) && a[j] == old(a[i])
    ensures forall k :: 0 <= k < a.Length && k != i && k != j ==> a[k] == old(a[k])
    ensures multiset(a[..]) == multiset(old(a[..]))
  {
    a[i], a[j] := a[j], a[i];
  }

  /** Reorders a[0..n) so that depths do not increase, leaving the elements
      (as a multiset) and the rest of the array as they were. Ties may end
      up in any order. */
  method SortDeepestFirst(a: array<Poly>, n: nat)
    requires n <= a.Length
    modifies a
    ensures DeepestFirst(a[..n])
    ensures multiset(a[..n]) == multiset(old(a[..n]))
    ensures a[n..] == old(a[n..])
  {
    var i := 0;
    while i < n
      invariant 0 <= i <= n
      invariant forall p, q :: 0 <= p < q < i ==> a[p].depth >= a[q].depth
      invariant forall p, q :: 0 <= p < i <= q < n ==> a[p].depth >= a[q].depth
      invariant multiset(a[..]) == multiset(old(a[..]))
      invariant forall k :: n <= k < a.Length ==> a[k] == old(a[k])
    {
      var m := DeepestIndex(a, i, n);
      ghost var before := a[..];
      Swap(a, i, m);
      assert forall q :: i <= q < n ==> a[q] == before[m] || a[q] == before[q] || a[q] == before[i];
      assert forall q :: i <= q < n ==> a[i].depth >= a[q].depth;
      i := i + 1;
    }
    assert a[n..] == old(a[n..]);
    PrefixMultiset(a[..], old(a[..]), n);
    assert a[..][..n] == a[..n];
  }

  /** Two sequences with the same multiset and the same suffix from n on
      have the same multiset on [0, n). */
  lemma PrefixMultiset<T>(s: seq<T>, t: seq<T>, n: nat)
    requires n <= |s| && n <= |t|
    requires multiset(s) == multiset(t) && s[n..] == t[n..]
    ensures multiset(s[..n]) == multiset(t[..n])
  {
    assert s == s[..n] + s[n..];
    assert t == t[..n] + t[n..];
    assert multiset(s) == multiset(s[..n]) + multiset(s[n..]);
    assert multiset(t) == multiset(t[..n]) + multiset(t[n..]);
    assert multiset(s[..n]) == multiset(s) - multiset(s[n..]);
    assert multiset(t[..n]) == multiset(t) - multiset(t[n..]);
  }
}
