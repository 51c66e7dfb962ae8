/** The vector kernel of flatpack: points and directions in space, triangular
    faces, axis-angle rotations, and the algebra between them. Coordinates are
    exact reals instead of float64, so the laws below hold exactly. */
module Geometry {

  /** A point or a direction (V3 in geometry.go). */
  datatype V3 = V3(x: real, y: real, z: real)

  const Zero := V3(0.0, 0.0, 0.0)

  /** The three corners of a triangle, in file order (the `[3]*V3` array). */
  type Corners = c: seq<V3> | |c| == 3 witness [Zero, Zero, Zero]

  /** A flat-shaded face: its normal and its three corners (F). */
  datatype F = F(n: V3, v: Corners)

  /** A rotation by angle q (radians) about the axis a (R). */
  datatype R = R(q: real, a: V3)

  function Scale(v: V3, s: real): V3
  {
    V3(v.x * s, v.y * s, v.z * s)
  }

  function Add(v1: V3, v2: V3): V3
  {
    V3(v1.x + v2.x, v1.y + v2.y, v1.z + v2.z)
  }

  function Subtract(v1: V3, v2: V3): V3
  {
    V3(v1.x - v2.x, v1.y - v2.y, v1.z - v2.z)
  }

  function Dot(v1: V3, v2: V3): real
  {
    (v1.x * v2.x) + (v1.y * v2.y) + (v1.z * v2.z)
  }

  function Cross(v1: V3, v2: V3): V3
  {
    V3(v1.y * v2.z - v1.z * v2.y,
       v1.z * v2.x - v1.x * v2.z,
       v1.x * v2.y - v1.y * v2.x)
  }

  /** Rodrigues' rotation of v by r (V3.Rotate). The cosine and sine of r.q
      come from math.Cos and math.Sin, which are outside this model: the
      caller passes them in as cosQ and sinQ. */
  function Rotate(v: V3, r: R, cosQ: real, sinQ: real): V3
  {
    var dot := Dot(r.a, v);
    var term1 := Scale(v, cosQ);
    var term2 := Scale(Cross(r.a, v), sinQ);
    var term3 := Scale(r.a, dot * (1.0 - cosQ));
    Add(term1, Add(term2, term3))
  }

  /** F.Rotate: one rotation applied to the normal and to each corner, in place
      of the old ones, giving a new face. */
  function RotateFace(f: F, r: R, cosQ: real, sinQ: real): (g: F)
    ensures g.n == Rotate(f.n, r, cosQ, sinQ)
    ensures forall i :: 0 <= i < 3 ==> g.v[i] == Rotate(f.v[i], r, cosQ, sinQ)
  {
    F(Rotate(f.n, r, cosQ, sinQ),
      [Rotate(f.v[0], r, cosQ, sinQ), Rotate(f.v[1], r, cosQ, sinQ), Rotate(f.v[2], r, cosQ, sinQ)])
  }

  // ----- Laws of the vector operations -----

  lemma SubtractSelf(v: V3)
    ensures Subtract(v, v) == Zero
  {
  }

  lemma AddSelfIsDoubling(v: V3)
    ensures Add(v, v) == Scale(v, 2.0)
  {
  }

  /** Subtract undoes Add, and Add undoes Subtract. */
  lemma AddSubtractInverse(a: V3, b: V3)
    ensures Add(Subtract(a, b), b) == a
    ensures Subtract(Add(a, b), b) == a
  {
  }

  /** Dot(v, v) is the squared length x*x + y*y + z*z, so it is never negative. */
  lemma DotSelfIsSquaredLength(v: V3)
    ensures Dot(v, v) == v.x * v.x + v.y * v.y + v.z * v.z
    ensures Dot(v, v) >= 0.0
  {
    SquareNonNegative(v.x);
    SquareNonNegative(v.y);
    SquareNonNegative(v.z);
    SumOfNonNegatives(Dot(v, v), v.x * v.x, v.y * v.y, v.z * v.z);
  }

  /** Kept apart from the products, so that the solver combines the three
      signs linearly. */
  lemma SumOfNonNegatives(d: real, a: real, b: real, c: real)
    requires d == a + b + c && a >= 0.0 && b >= 0.0 && c >= 0.0
    ensures d >= 0.0
  {
  }

  lemma SquareNonNegative(t: real)
    ensures t * t >= 0.0
  {
    if t < 0.0 {
      assert t * t == (-t) * (-t);
    }
  }

  lemma DotExample()
    ensures Dot(V3(1.0, 2.0, 3.0), V3(1.0, 2.0, 3.0)) == 14.0
  {
  }

  lemma DotSymmetric(a: V3, b: V3)
    ensures Dot(a, b) == Dot(b, a)
  {
  }

  lemma CrossSelf(v: V3)
    ensures Cross(v, v) == Zero
  {
  }

  /** The cross product is orthogonal to both of its arguments. */
  lemma CrossOrthogonal(a: V3, b: V3)
    ensures Dot(Cross(a, b), a) == 0.0
    ensures Dot(Cross(a, b), b) == 0.0
  {
  }

  lemma CrossAnticommutes(a: V3, b: V3)
    ensures Cross(b, a) == Scale(Cross(a, b), -1.0)
  {
  }

  /** Scaling by s multiplies the squared length by s * s (the exact form of
      "length of Scale(v, 2) is twice the length of v"). */
  lemma ScaleSquaredLength(v: V3, s: real)
    ensures Dot(Scale(v, s), Scale(v, s)) == s * s * Dot(v, v)
  {
  }

  // ----- Laws of rotation -----

  /** A rotation by angle 0 (cos 1, sin 0) leaves every vector in place. */
  lemma RotateByZeroIsIdentity(v: V3, r: R)
    ensures Rotate(v, r, 1.0, 0.0) == v
  {
    var d := Dot(r.a, v);
    assert Scale(v, 1.0) == v;
    assert Scale(Cross(r.a, v), 0.0) == Zero;
    assert d * (1.0 - 1.0) == 0.0;
    assert Scale(r.a, 0.0) == Zero;
  }

  /** A rotation about a unit axis leaves the axis itself in place. */
  lemma RotateFixesAxis(r: R, cosQ: real, sinQ: real)
    requires Dot(r.a, r.a) == 1.0
    ensures Rotate(r.a, r, cosQ, sinQ) == r.a
  {
    CrossSelf(r.a);
  }

  /** A half turn about the z axis (angle pi: cosine -1, sine 0) negates the
      x and y of any vector in the xy plane; in particular (1, 0, 0) goes to
      (-1, 0, 0). The angle field only labels the rotation: the formula reads
      cosQ and sinQ. */
  lemma RotateHalfTurnAboutZ(x: real, y: real, q: real)
    ensures Rotate(V3(x, y, 0.0), R(q, V3(0.0, 0.0, 1.0)), -1.0, 0.0) == V3(-x, -y, 0.0)
  {
    var v, axis := V3(x, y, 0.0), V3(0.0, 0.0, 1.0);
    assert Dot(axis, v) == 0.0;
    assert Scale(v, -1.0) == V3(-x, -y, 0.0);
    assert Scale(Cross(axis, v), 0.0) == Zero;
    assert Scale(axis, 0.0 * (1.0 - -1.0)) == Zero;
  }

  /** A quarter turn about the z axis (cosine 0, sine 1) sends (x, y, 0) to
      (-y, x, 0): counter-clockwise, as the right-hand rule says. */
  lemma RotateQuarterTurnAboutZ(x: real, y: real, q: real)
    ensures Rotate(V3(x, y, 0.0), R(q, V3(0.0, 0.0, 1.0)), 0.0, 1.0) == V3(-y, x, 0.0)
  {
  }

  /** A rotation by angle 0 returns the same face. */
  lemma RotateFaceByZeroIsIdentity(f: F, r: R)
    ensures RotateFace(f, r, 1.0, 0.0) == f
  {
    var v0, v1, v2 := f.v[0], f.v[1], f.v[2];
    RotateByZeroIsIdentity(f.n, r);
    RotateByZeroIsIdentity(v0, r);
    RotateByZeroIsIdentity(v1, r);
    RotateByZeroIsIdentity(v2, r);
    assert f.v == [v0, v1, v2];
  }
}
