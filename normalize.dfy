/** Normalize from geometry.go: the axis-aligned bounding box of every corner
    of every face, then every corner moved by the box minimum and scaled by
    s / maxRange, so that the mesh fits a cube of side s with a corner at the
    origin. */
module Normalizer {
  import opened Geometry

  datatype Axis = X | Y | Z

  function Coord(v: V3, a: Axis): real
  {
    match a
    case X => v.x
    case Y => v.y
    case Z => v.z
  }

  /** math.Min and math.Max, without the NaN and signed-zero cases. */
  function Min(a: real, b: real): real
  {
    if a <= b then a else b
  }

  function Max(a: real, b: real): real
  {
    if a >= b then a else b
  }

  // ----- The bounding box, as a specification -----

  ghost predicate LowerBound(o: seq<F>, a: Axis, m: real)
  {
    forall i, j :: 0 <= i < |o| && 0 <= j < 3 ==> m <= Coord(o[i].v[j], a)
  }

  ghost predicate UpperBound(o: seq<F>, a: Axis, m: real)
  {
    forall i, j :: 0 <= i < |o| && 0 <= j < 3 ==> Coord(o[i].v[j], a) <= m
  }

  /** m is the coordinate of some corner of some face. */
  ghost predicate Attained(o: seq<F>, a: Axis, m: real)
  {
    exists i, j :: 0 <= i < |o| && 0 <= j < 3 && Coord(o[i].v[j], a) == m
  }

  /** The smallest coordinate along a over all corners of all faces. */
  function Lowest(o: seq<F>, a: Axis): (m: real)
    requires o != []
    ensures LowerBound(o, a, m) && Attained(o, a, m)
  {
    var f := o[0];
    var here := Min(Coord(f.v[0], a), Min(Coord(f.v[1], a), Coord(f.v[2], a)));
    assert Coord(o[0].v[0], a) == here || Coord(o[0].v[1], a) == here || Coord(o[0].v[2], a) == here;
    if |o| == 1 then here
    else
      var rest := Lowest(o[1..], a);
      assert forall i, j :: 1 <= i < |o| && 0 <= j < 3 ==> Coord(o[i].v[j], a) == Coord(o[1..][i - 1].v[j], a);
      Min(here, rest)
  }

  /** The largest coordinate along a over all corners of all faces. */
  function Highest(o: seq<F>, a: Axis): (m: real)
    requires o != []
    ensures UpperBound(o, a, m) && Attained(o, a, m)
  {
    var f := o[0];
    var here := Max(Coord(f.v[0], a), Max(Coord(f.v[1], a), Coord(f.v[2], a)));
    assert Coord(o[0].v[0], a) == here || Coord(o[0].v[1], a) == here || Coord(o[0].v[2], a) == here;
    if |o| == 1 then here
    else
      var rest := Highest(o[1..], a);
      assert forall i, j :: 1 <= i < |o| && 0 <= j < 3 ==> Coord(o[i].v[j], a) == Coord(o[1..][i - 1].v[j], a);
      Max(here, rest)
  }

  /** The box minimum (minimums in Normalize). */
  function Minimums(o: seq<F>): V3
    requires o != []
  {
    V3(Lowest(o, X), Lowest(o, Y), Lowest(o, Z))
  }

  /** The extent of the mesh along a (xRange, yRange, zRange). */
  function Range(o: seq<F>, a: Axis): real
    requires o != []
  {
    Highest(o, a) - Lowest(o, a)
  }

  /** The largest of the three extents (maxRange). */
  function MaxRange(o: seq<F>): real
    requires o != []
  {
    Max(Range(o, X), Max(Range(o, Y), Range(o, Z)))
  }

  /** One output face: the normal copied, each corner moved by -m and scaled by k. */
  function NormalizedFace(f: F, m: V3, k: real): F
  {
    F(V3(f.n.x, f.n.y, f.n.z),
      [Scale(Subtract(f.v[0], m), k), Scale(Subtract(f.v[1], m), k), Scale(Subtract(f.v[2], m), k)])
  }

  /** Every face of o through NormalizedFace, in order. */
  function Rescaled(o: seq<F>, m: V3, k: real): seq<F>
  {
    seq(|o|, i requires 0 <= i < |o| => NormalizedFace(o[i], m, k))
  }

  /** What Normalize returns: face i of the result comes from face i of o. An
      empty mesh gives an empty result (the division is never reached); a
      non-empty one must not be flat in every direction. */
  function Normalized(o: seq<F>, s: real): (n: seq<F>)
    requires o == [] || MaxRange(o) > 0.0
    ensures |n| == |o|
    ensures forall i :: 0 <= i < |o| ==> n[i].n == o[i].n
  {
    if o == [] then [] else Rescaled(o, Minimums(o), s / MaxRange(o))
  }

  // ----- The method -----

  /** After faces 0..i-1 and corners 0..j-1 of face i, lo and hi bound those
      corners along a, and each is the coordinate of some corner. */
  ghost predicate Tracks(o: seq<F>, i: int, j: int, lo: real, hi: real, a: Axis)
  {
    (forall k, t :: 0 <= k < |o| && 0 <= t < 3 && (k < i || (k == i && t < j)) ==>
       lo <= Coord(o[k].v[t], a) <= hi)
    && Attained(o, a, lo) && Attained(o, a, hi)
  }

  lemma TracksStep(o: seq<F>, i: int, j: int, lo: real, hi: real, a: Axis)
    requires 0 <= i < |o| && 0 <= j < 3
    requires Tracks(o, i, j, lo, hi, a)
    ensures var c := Coord(o[i].v[j], a);
      Tracks(o, i, j + 1, Min(lo, c), Max(hi, c), a)
  {
  }

  lemma TracksNextFace(o: seq<F>, i: int, lo: real, hi: real, a: Axis)
    requires Tracks(o, i, 3, lo, hi, a)
    ensures Tracks(o, i + 1, 0, lo, hi, a)
  {
  }

  /** Once every corner is seen, lo and hi are the true extremes. */
  lemma TracksAll(o: seq<F>, lo: real, hi: real, a: Axis)
    requires o != [] && Tracks(o, |o|, 0, lo, hi, a)
    ensures lo == Lowest(o, a) && hi == Highest(o, a)
  {
    LowestUnique(o, a, lo);
    HighestUnique(o, a, hi);
  }

  /** A lower bound that is attained is the minimum. */
  lemma LowestUnique(o: seq<F>, a: Axis, m: real)
    requires o != [] && LowerBound(o, a, m) && Attained(o, a, m)
    ensures m == Lowest(o, a)
  {
    var i, j :| 0 <= i < |o| && 0 <= j < 3 && Coord(o[i].v[j], a) == m;
    var lo := Lowest(o, a);
    var i', j' :| 0 <= i' < |o| && 0 <= j' < 3 && Coord(o[i'].v[j'], a) == lo;
  }

  /** An upper bound that is attained is the maximum. */
  lemma HighestUnique(o: seq<F>, a: Axis, m: real)
    requires o != [] && UpperBound(o, a, m) && Attained(o, a, m)
    ensures m == Highest(o, a)
  {
    var i, j :| 0 <= i < |o| && 0 <= j < 3 && Coord(o[i].v[j], a) == m;
    var hi := Highest(o, a);
    var i', j' :| 0 <= i' < |o| && 0 <= j' < 3 && Coord(o[i'].v[j'], a) == hi;
  }

  /** The first half of Normalize: one pass over every corner of every face
      for the six extremes. The +/-Inf seeds of the source are replaced by the
      first corner, which gives the same extremes for a non-empty mesh (an
      empty one never reaches a division). */
  method BoundingBox(o: seq<F>)
    returns (minX: real, minY: real, minZ: real, maxX: real, maxY: real, maxZ: real)
    ensures o != [] ==> minX == Lowest(o, X) && minY == Lowest(o, Y) && minZ == Lowest(o, Z)
    ensures o != [] ==> maxX == Highest(o, X) && maxY == Highest(o, Y) && maxZ == Highest(o, Z)
  {
    minX, minY, minZ := 0.0, 0.0, 0.0;
    maxX, maxY, maxZ := 0.0, 0.0, 0.0;
    if |o| > 0 {
      var c := o[0].v[0];
      minX, minY, minZ := c.x, c.y, c.z;
      maxX, maxY, maxZ := c.x, c.y, c.z;
      assert Coord(o[0].v[0], X) == c.x && Coord(o[0].v[0], Y) == c.y && Coord(o[0].v[0], Z) == c.z;
    }

    var i := 0;
    while i < |o|
      invariant 0 <= i <= |o|
      invariant o != [] ==> Tracks(o, i, 0, minX, maxX, X)
      invariant o != [] ==> Tracks(o, i, 0, minY, maxY, Y)
      invariant o != [] ==> Tracks(o, i, 0, minZ, maxZ, Z)
    {
      var j := 0;
      while j < 3
        invariant 0 <= j <= 3
        invariant Tracks(o, i, j, minX, maxX, X)
        invariant Tracks(o, i, j, minY, maxY, Y)
        invariant Tracks(o, i, j, minZ, maxZ, Z)
      {
        var c := o[i].v[j];
        TracksStep(o, i, j, minX, maxX, X);
        TracksStep(o, i, j, minY, maxY, Y);
        TracksStep(o, i, j, minZ, maxZ, Z);
        minX, maxX := Min(minX, c.x), Max(maxX, c.x);
        minY, maxY := Min(minY, c.y), Max(maxY, c.y);
        minZ, maxZ := Min(minZ, c.z), Max(maxZ, c.z);
        j := j + 1;
      }
      TracksNextFace(o, i, minX, maxX, X);
      TracksNextFace(o, i, minY, maxY, Y);
      TracksNextFace(o, i, minZ, maxZ, Z);
      i := i + 1;
    }

    if o != [] {
      TracksAll(o, minX, maxX, X);
      TracksAll(o, minY, maxY, Y);
      TracksAll(o, minZ, maxZ, Z);
    }
  }

  /** The second half of Normalize: a fresh array filled face by face, each
      corner moved by -minimums and scaled by s / maxRange (computed per face,
      as in the source, so an empty mesh never divides). */
  method Rescale(o: seq<F>, minimums: V3, maxRange: real, s: real) returns (n: seq<F>)
    requires o == [] || maxRange != 0.0
    ensures |n| == |o|
    ensures forall k :: 0 <= k < |o| ==> n[k] == NormalizedFace(o[k], minimums, s / maxRange)
  {
    var out := new F[|o|];
    var i := 0;
    while i < |o|
      invariant 0 <= i <= |o|
      invariant forall k :: 0 <= k < i ==> out[k] == NormalizedFace(o[k], minimums, s / maxRange)
    {
      out[i] := NormalizedFace(o[i], minimums, s / maxRange);
      i := i + 1;
    }
    n := out[..];
  }

  /** Normalize(o, s): the bounding box, its largest extent, then the
      rescaled faces. */
  method Normalize(o: seq<F>, s: real) returns (n: seq<F>)
    requires o == [] || MaxRange(o) > 0.0
    ensures n == Normalized(o, s)
  {
    var minX, minY, minZ, maxX, maxY, maxZ := BoundingBox(o);
    var xRange, yRange, zRange := maxX - minX, maxY - minY, maxZ - minZ;
    var maxRange := Max(xRange, Max(yRange, zRange));
    var minimums := V3(minX, minY, minZ);
    assert o != [] ==> minimums == Minimums(o) && maxRange == MaxRange(o);
    n := Rescale(o, minimums, maxRange, s);
  }

  // ----- What the result satisfies -----

  /** Inside the box [m, m + M] on every axis, rescaling by s / M lands in
      the cube [0, s]. */
  lemma RescaledWithinCube(o: seq<F>, m: V3, M: real, s: real)
    requires M > 0.0 && s >= 0.0
    requires forall i, j, a :: 0 <= i < |o| && 0 <= j < 3 ==>
      Coord(m, a) <= Coord(o[i].v[j], a) <= Coord(m, a) + M
    ensures var n := Rescaled(o, m, s / M);
      forall i, j, a :: 0 <= i < |n| && 0 <= j < 3 ==> 0.0 <= Coord(n[i].v[j], a) <= s
  {
    var k := s / M;
    var n := Rescaled(o, m, k);
    Ratio(M, s);
    forall i, j, a | 0 <= i < |n| && 0 <= j < 3
      ensures 0.0 <= Coord(n[i].v[j], a) <= s
    {
      RescaledCornerWithin(o, m, M, k, s, i, j, a);
    }
  }

  lemma RescaledCornerWithin(o: seq<F>, m: V3, M: real, k: real, s: real, i: int, j: int, a: Axis)
    requires M > 0.0 && M * k == s && s >= 0.0 && 0 <= i < |o| && 0 <= j < 3
    requires Coord(m, a) <= Coord(o[i].v[j], a) <= Coord(m, a) + M
    ensures 0.0 <= Coord(Rescaled(o, m, k)[i].v[j], a) <= s
  {
    var lo := Coord(m, a);
    RescaledCorner(o, m, k, i, j, a, lo);
    FractionOfSide(Coord(Rescaled(o, m, k)[i].v[j], a), Coord(o[i].v[j], a) - lo, M, k, s);
  }

  lemma RescaledCornerAtMinimum(o: seq<F>, m: V3, k: real, i: int, j: int, a: Axis)
    requires 0 <= i < |o| && 0 <= j < 3 && Coord(o[i].v[j], a) == Coord(m, a)
    ensures Coord(Rescaled(o, m, k)[i].v[j], a) == 0.0
  {
    RescaledCorner(o, m, k, i, j, a, Coord(m, a));
    ZeroProduct(Coord(Rescaled(o, m, k)[i].v[j], a), Coord(o[i].v[j], a) - Coord(m, a), k);
  }

  lemma RescaledCornerAtSide(o: seq<F>, m: V3, M: real, s: real, i: int, j: int, a: Axis)
    requires M > 0.0 && 0 <= i < |o| && 0 <= j < 3 && Coord(o[i].v[j], a) == Coord(m, a) + M
    ensures Coord(Rescaled(o, m, s / M)[i].v[j], a) == s
  {
    Ratio(M, s);
    RescaledCornerAtProduct(o, m, M, s / M, s, i, j, a);
  }

  lemma RescaledCornerAtProduct(o: seq<F>, m: V3, M: real, k: real, s: real, i: int, j: int, a: Axis)
    requires M * k == s && 0 <= i < |o| && 0 <= j < 3 && Coord(o[i].v[j], a) == Coord(m, a) + M
    ensures Coord(Rescaled(o, m, k)[i].v[j], a) == s
  {
    RescaledCorner(o, m, k, i, j, a, Coord(m, a));
    WholeSide(Coord(Rescaled(o, m, k)[i].v[j], a), Coord(o[i].v[j], a) - Coord(m, a), M, k, s);
  }

  /** Each output coordinate is the input coordinate's distance above lo,
      the moved-to corner's coordinate, times k. */
  lemma RescaledCorner(o: seq<F>, m: V3, k: real, i: int, j: int, a: Axis, lo: real)
    requires 0 <= i < |o| && 0 <= j < 3 && Coord(m, a) == lo
    ensures Coord(Rescaled(o, m, k)[i].v[j], a) == (Coord(o[i].v[j], a) - lo) * k
  {
    assert Rescaled(o, m, k)[i].v[j] == Scale(Subtract(o[i].v[j], m), k);
    CornerCoord(o[i].v[j], m, k, a, lo);
  }

  /** Every output coordinate lies in [0, s]: the mesh fits the cube of side s
      at the origin. */
  lemma NormalizedWithinCube(o: seq<F>, s: real)
    requires o != [] && MaxRange(o) > 0.0 && s >= 0.0
    ensures var n := Normalized(o, s);
      forall i, j, a :: 0 <= i < |n| && 0 <= j < 3 ==> 0.0 <= Coord(n[i].v[j], a) <= s
  {
    var m, M := Minimums(o), MaxRange(o);
    forall i, j, a | 0 <= i < |o| && 0 <= j < 3
      ensures Coord(m, a) <= Coord(o[i].v[j], a) <= Coord(m, a) + M
    {
      MinimumsCoord(o, a);
      assert Range(o, a) <= M;
    }
    RescaledWithinCube(o, m, M, s);
  }

  /** Along every axis some output corner sits on the plane 0: the box
      minimum is attained. */
  lemma NormalizedTouchesOrigin(o: seq<F>, s: real, a: Axis)
    requires o != [] && MaxRange(o) > 0.0
    ensures var n := Normalized(o, s);
      exists i, j :: 0 <= i < |n| && 0 <= j < 3 && Coord(n[i].v[j], a) == 0.0
  {
    var m, k := Minimums(o), s / MaxRange(o);
    var n := Rescaled(o, m, k);
    assert Normalized(o, s) == n;
    MinimumsCoord(o, a);
    var i, j :| 0 <= i < |o| && 0 <= j < 3 && Coord(o[i].v[j], a) == Coord(m, a);
    RescaledCornerAtMinimum(o, m, k, i, j, a);
    assert Coord(n[i].v[j], a) == 0.0;
  }

  /** Along the axis of largest extent some output corner sits on the plane
      s: the mesh is scaled to fill the cube, not just to fit in it. */
  lemma NormalizedReachesSide(o: seq<F>, s: real)
    requires o != [] && MaxRange(o) > 0.0
    ensures var n := Normalized(o, s);
      exists i, j, a :: 0 <= i < |n| && 0 <= j < 3 && Coord(n[i].v[j], a) == s
  {
    var m, M := Minimums(o), MaxRange(o);
    var k := s / M;
    var n := Rescaled(o, m, k);
    assert Normalized(o, s) == n;
    var a := if M == Range(o, X) then X else if M == Range(o, Y) then Y else Z;
    assert Range(o, a) == M;
    MinimumsCoord(o, a);
    var i, j :| 0 <= i < |o| && 0 <= j < 3 && Coord(o[i].v[j], a) == Highest(o, a);
    RescaledCornerAtSide(o, m, M, s, i, j, a);
    assert Coord(n[i].v[j], a) == s;
  }

  /** Normalizing a normalized mesh again with the same side s changes
      nothing: its box already starts at the origin and its widest extent is
      already s, so the second pass moves by zero and scales by one. */
  lemma NormalizedIdempotent(o: seq<F>, s: real)
    requires o != [] && MaxRange(o) > 0.0 && s > 0.0
    ensures MaxRange(Normalized(o, s)) == s
    ensures Normalized(Normalized(o, s), s) == Normalized(o, s)
  {
    NormalizedMaxRange(o, s);
    NormalizedMinimums(o, s);
    NormalizedFixed(Normalized(o, s), s);
  }

  /** A mesh whose box starts at the origin and whose widest extent is s is
      left as it is by normalizing with side s. */
  lemma NormalizedFixed(n: seq<F>, s: real)
    requires n != [] && Minimums(n) == Zero && MaxRange(n) == s && s > 0.0
    ensures Normalized(n, s) == n
  {
    var k := s / MaxRange(n);
    assert Normalized(n, s) == Rescaled(n, Zero, k);
    SelfRatio(s, k);
    RescaledByOne(n);
  }

  /** After normalizing, the widest extent is s: no extent exceeds the cube,
      and the axis that reaches the side s has extent s. */
  lemma NormalizedMaxRange(o: seq<F>, s: real)
    requires o != [] && MaxRange(o) > 0.0 && s >= 0.0
    ensures MaxRange(Normalized(o, s)) == s
  {
    NormalizedRangeAtMost(o, s, X);
    NormalizedRangeAtMost(o, s, Y);
    NormalizedRangeAtMost(o, s, Z);
    var a := NormalizedWidestAxis(o, s);
    MaxRangeReached(Normalized(o, s), s, a);
  }

  /** Extents at most s, the one along a equal to s: maxRange is s. */
  lemma MaxRangeReached(n: seq<F>, s: real, a: Axis)
    requires n != [] && Range(n, X) <= s && Range(n, Y) <= s && Range(n, Z) <= s && Range(n, a) == s
    ensures MaxRange(n) == s
  {
    MaxOfBounded(Range(n, X), Range(n, Y), Range(n, Z), s);
  }

  /** After normalizing, no extent exceeds s. */
  lemma NormalizedRangeAtMost(o: seq<F>, s: real, a: Axis)
    requires o != [] && MaxRange(o) > 0.0 && s >= 0.0
    ensures Range(Normalized(o, s), a) <= s
  {
    var n := Normalized(o, s);
    NormalizedLowest(o, s, a);
    NormalizedWithinCube(o, s);
    var i, j :| 0 <= i < |n| && 0 <= j < 3 && Coord(n[i].v[j], a) == Highest(n, a);
  }

  /** After normalizing, some axis has extent exactly s. */
  lemma NormalizedWidestAxis(o: seq<F>, s: real) returns (a: Axis)
    requires o != [] && MaxRange(o) > 0.0 && s >= 0.0
    ensures Range(Normalized(o, s), a) == s
  {
    var n := Normalized(o, s);
    NormalizedReachesSide(o, s);
    var i, j, b :| 0 <= i < |n| && 0 <= j < 3 && Coord(n[i].v[j], b) == s;
    a := b;
    NormalizedLowest(o, s, a);
    NormalizedRangeAtMost(o, s, a);
  }

  /** After normalizing, the box minimum is the origin. */
  lemma NormalizedMinimums(o: seq<F>, s: real)
    requires o != [] && MaxRange(o) > 0.0 && s >= 0.0
    ensures Minimums(Normalized(o, s)) == Zero
  {
    NormalizedLowest(o, s, X);
    NormalizedLowest(o, s, Y);
    NormalizedLowest(o, s, Z);
  }

  /** After normalizing, the box minimum along a is 0. */
  lemma NormalizedLowest(o: seq<F>, s: real, a: Axis)
    requires o != [] && MaxRange(o) > 0.0 && s >= 0.0
    ensures Lowest(Normalized(o, s), a) == 0.0
  {
    var n := Normalized(o, s);
    NormalizedWithinCube(o, s);
    assert LowerBound(n, a, 0.0);
    NormalizedTouchesOrigin(o, s, a);
    LowestUnique(n, a, 0.0);
  }

  /** Moving by zero and scaling by one gives every face back. */
  lemma RescaledByOne(o: seq<F>)
    ensures Rescaled(o, Zero, 1.0) == o
  {
    var r := Rescaled(o, Zero, 1.0);
    forall i | 0 <= i < |o|
      ensures r[i] == o[i]
    {
      var f := o[i];
      assert r[i].v[0] == f.v[0] && r[i].v[1] == f.v[1] && r[i].v[2] == f.v[2];
      assert r[i].v == f.v;
    }
  }

  lemma MinimumsCoord(o: seq<F>, a: Axis)
    requires o != []
    ensures Coord(Minimums(o), a) == Lowest(o, a)
  {
  }

  lemma CornerCoord(v: V3, m: V3, k: real, a: Axis, lo: real)
    requires Coord(m, a) == lo
    ensures Coord(Scale(Subtract(v, m), k), a) == (Coord(v, a) - lo) * k
  {
  }

  // ----- Scalar steps, kept apart from the vectors -----

  lemma Ratio(M: real, s: real)
    requires M > 0.0
    ensures M * (s / M) == s
  {
  }

  /** r = t * k stays in [0, s] when t stays in [0, M] and M * k = s. */
  lemma FractionOfSide(r: real, t: real, M: real, k: real, s: real)
    requires M > 0.0 && M * k == s && s >= 0.0
    requires r == t * k && 0.0 <= t <= M
    ensures 0.0 <= r <= s
  {
    PositiveFactor(M, k, s);
    NonNegativeProduct(t, k);
    NonNegativeProduct(M - t, k);
    assert (M - t) * k == M * k - t * k;
  }

  lemma PositiveFactor(M: real, k: real, s: real)
    requires M > 0.0 && M * k == s && s >= 0.0
    ensures k >= 0.0
  {
  }

  lemma ZeroProduct(r: real, t: real, k: real)
    requires r == t * k && t == 0.0
    ensures r == 0.0
  {
  }

  lemma WholeSide(r: real, t: real, M: real, k: real, s: real)
    requires r == t * k && t == M && M * k == s
    ensures r == s
  {
  }

  lemma SelfRatio(s: real, k: real)
    requires s > 0.0 && k == s / s
    ensures k == 1.0
  {
  }

  /** Three values at most s, one of them s: their maximum is s. */
  lemma MaxOfBounded(p: real, q: real, r: real, s: real)
    requires p <= s && q <= s && r <= s && (p == s || q == s || r == s)
    ensures Max(p, Max(q, r)) == s
  {
  }

  lemma NonNegativeProduct(p: real, q: real)
    requires p >= 0.0 && q >= 0.0
    ensures p * q >= 0.0
  {
  }
}
