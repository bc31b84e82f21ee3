/** 3x3 matrices by columns, proper rotations, and the rotation of a quaternion. */
module Matrices {
  import R = Reals
  import V = Vectors

  datatype Mat = Mat(x: V.Vec, y: V.Vec, z: V.Vec)

  /** A proper rotation: orthonormal columns and determinant one. */
  predicate IsRotation(m: Mat) {
    && V.Dot(m.x, m.x) == 1.0 && V.Dot(m.y, m.y) == 1.0 && V.Dot(m.z, m.z) == 1.0
    && V.Dot(m.x, m.y) == 0.0 && V.Dot(m.y, m.z) == 0.0 && V.Dot(m.z, m.x) == 0.0
    && V.Dot(V.Cross(m.x, m.y), m.z) == 1.0
  }

  /* ---- cross products ---- */

  lemma TripleCross(a: V.Vec, b: V.Vec, c: V.Vec)
    ensures V.Cross(a, V.Cross(b, c)) == V.Sub(V.Times(V.Dot(a, c), b), V.Times(V.Dot(a, b), c))
  {
    hide V.Cross; hide V.Dot; hide V.Times; hide V.Sub;
    var p, ac, ab := V.Cross(b, c), V.Dot(a, c), V.Dot(a, b);
    V.CrossParts(b, c);
    V.CrossParts(a, p);
    V.DotParts(a, c);
    V.DotParts(a, b);
    TriplePart(a.x, a.y, a.z, b.x, b.y, b.z, c.x, c.y, c.z, p.y, p.z, ac, ab);
    TriplePart(a.y, a.z, a.x, b.y, b.z, b.x, c.y, c.z, c.x, p.z, p.x, ac, ab);
    TriplePart(a.z, a.x, a.y, b.z, b.x, b.y, c.z, c.x, c.y, p.x, p.y, ac, ab);
    DifferenceParts(ac, b, ab, c);
  }

  lemma DifferenceParts(s: real, b: V.Vec, t: real, c: V.Vec)
    ensures V.Sub(V.Times(s, b), V.Times(t, c)) == V.Vec(s * b.x - t * c.x, s * b.y - t * c.y, s * b.z - t * c.z)
  {}

  /** One component; the other two follow by turning the axes. */
  lemma TriplePart(ax: real, a2: real, az: real, bx: real, b2: real, bz: real, cx: real, c2: real, cz: real,
                   p2: real, pz: real, ac: real, ab: real)
    requires p2 == bz * cx - bx * cz && pz == bx * c2 - b2 * cx
    requires ac == ax * cx + a2 * c2 + az * cz && ab == ax * bx + a2 * b2 + az * bz
    ensures a2 * pz - az * p2 == ac * bx - ab * cx
  {
    assert a2 * pz == a2 * bx * c2 - a2 * b2 * cx;
    assert az * p2 == az * bz * cx - az * bx * cz;
    assert ac * bx == ax * cx * bx + a2 * c2 * bx + az * cz * bx;
    assert ab * cx == ax * bx * cx + a2 * b2 * cx + az * bz * cx;
  }

  lemma CrossFlip(a: V.Vec, b: V.Vec)
    ensures V.Cross(a, b) == V.Times(-1.0, V.Cross(b, a))
  {}

  /** A cross product is orthogonal to its factors. */
  lemma CrossOrthogonal(a: V.Vec, b: V.Vec)
    ensures V.Dot(V.Cross(a, b), a) == 0.0 && V.Dot(V.Cross(a, b), b) == 0.0
  {
    hide V.Cross; hide V.Dot;
    var c := V.Cross(a, b);
    V.CrossParts(a, b);
    V.DotParts(c, a);
    V.DotParts(c, b);
    OrthogonalPart(a.x, a.y, a.z, b.x, b.y, b.z, c.x, c.y, c.z);
  }

  lemma OrthogonalPart(ax: real, a2: real, az: real, bx: real, b2: real, bz: real, cx: real, c2: real, cz: real)
    requires cx == a2 * bz - az * b2 && c2 == az * bx - ax * bz && cz == ax * b2 - a2 * bx
    ensures cx * ax + c2 * a2 + cz * az == 0.0 && cx * bx + c2 * b2 + cz * bz == 0.0
  {
    assert cx * ax == a2 * bz * ax - az * b2 * ax && c2 * a2 == az * bx * a2 - ax * bz * a2
      && cz * az == ax * b2 * az - a2 * bx * az;
    assert cx * bx == a2 * bz * bx - az * b2 * bx && c2 * b2 == az * bx * b2 - ax * bz * b2
      && cz * bz == ax * b2 * bz - a2 * bx * bz;
  }

  lemma UnitAndEqual(a: V.Vec, b: V.Vec)
    requires V.Dot(a, a) == 1.0 && V.Dot(b, b) == 1.0 && V.Dot(a, b) == 1.0
    ensures a == b
  {
    hide V.Dot;
    var d := V.Sub(a, b);
    V.DotParts(a, a); V.DotParts(b, b); V.DotParts(a, b);
    V.DotSelf(d);
    assert d.x * d.x == a.x * a.x - 2.0 * (a.x * b.x) + b.x * b.x;
    assert d.y * d.y == a.y * a.y - 2.0 * (a.y * b.y) + b.y * b.y;
    assert d.z * d.z == a.z * a.z - 2.0 * (a.z * b.z) + b.z * b.z;
    R.SquaresZero(d.x, d.y, d.z, 0.0);
  }

  /** The columns of a rotation are the cross products of one another. */
  lemma ColumnsCross(m: Mat)
    requires IsRotation(m)
    ensures m.z == V.Cross(m.x, m.y) && m.x == V.Cross(m.y, m.z) && m.y == V.Cross(m.z, m.x)
  {
    hide V.Cross; hide V.Dot; hide V.Times; hide V.Sub;
    V.Lagrange(m.x, m.y);
    UnitAndEqual(V.Cross(m.x, m.y), m.z);
    TripleCross(m.y, m.x, m.y);
    V.DotSymmetric(m.x, m.y);
    TakeFirst(m.x, m.y);
    TripleCross(m.x, m.x, m.y);
    CrossFlip(m.z, m.x);
    TakeSecond(m.x, m.y);
  }

  lemma TakeFirst(x: V.Vec, y: V.Vec)
    ensures V.Sub(V.Times(1.0, x), V.Times(0.0, y)) == x
  {}

  lemma TakeSecond(x: V.Vec, y: V.Vec)
    ensures V.Times(-1.0, V.Sub(V.Times(0.0, x), V.Times(1.0, y))) == y
  {}

  /** An orthonormal pair and its cross product form a rotation. */
  lemma CompletedRotation(x: V.Vec, y: V.Vec)
    requires V.Dot(x, x) == 1.0 && V.Dot(y, y) == 1.0 && V.Dot(x, y) == 0.0
    ensures IsRotation(Mat(x, y, V.Cross(x, y)))
  {
    hide V.Cross; hide V.Dot;
    V.Lagrange(x, y);
    CrossOrthogonal(x, y);
    V.DotSymmetric(y, V.Cross(x, y));
  }

  /** The scalar triple product may be read from either side. */
  lemma ScalarTriple(a: V.Vec, b: V.Vec, c: V.Vec)
    ensures V.Dot(V.Cross(a, b), c) == V.Dot(a, V.Cross(b, c))
  {
    hide V.Cross; hide V.Dot;
    var p, q := V.Cross(a, b), V.Cross(b, c);
    V.CrossParts(a, b); V.CrossParts(b, c);
    V.DotParts(p, c); V.DotParts(a, q);
    ScalarTriplePart(p.x, a.y, b.z, a.z, b.y, c.x); ScalarTriplePart(p.y, a.z, b.x, a.x, b.z, c.y);
    ScalarTriplePart(p.z, a.x, b.y, a.y, b.x, c.z);
    ScalarTriplePart(q.x, b.y, c.z, b.z, c.y, a.x); ScalarTriplePart(q.y, b.z, c.x, b.x, c.z, a.y);
    ScalarTriplePart(q.z, b.x, c.y, b.y, c.x, a.z);
  }

  lemma ScalarTriplePart(p: real, a: real, b: real, c: real, d: real, s: real)
    requires p == a * b - c * d
    ensures p * s == a * b * s - c * d * s && s * p == a * b * s - c * d * s
  {}

  /** `(a x b) . (c x d) = (a . c)(b . d) - (a . d)(b . c)`. */
  lemma BinetCauchy(a: V.Vec, b: V.Vec, c: V.Vec, d: V.Vec)
    ensures V.Dot(V.Cross(a, b), V.Cross(c, d)) == V.Dot(a, c) * V.Dot(b, d) - V.Dot(a, d) * V.Dot(b, c)
  {
    hide *;
    var bd, bc := V.Dot(b, d), V.Dot(b, c);
    ScalarTriple(a, b, V.Cross(c, d));
    TripleCross(b, c, d);
    var p, q := V.Times(bd, c), V.Times(bc, d);
    DotSub(a, p, q);
    V.DotSymmetric(a, p); V.DotSymmetric(a, q); V.DotSymmetric(a, c); V.DotSymmetric(a, d);
    V.DotTimes(bd, c, a);
    V.DotTimes(bc, d, a);
    assert bd * V.Dot(a, c) == V.Dot(a, c) * V.Dot(b, d) && bc * V.Dot(a, d) == V.Dot(a, d) * V.Dot(b, c);
  }

  lemma DotSub(a: V.Vec, p: V.Vec, q: V.Vec)
    ensures V.Dot(a, V.Sub(p, q)) == V.Dot(a, p) - V.Dot(a, q)
  {
    var t := V.Sub(p, q);
    assert a.x * t.x == a.x * p.x - a.x * q.x && a.y * t.y == a.y * p.y - a.y * q.y
      && a.z * t.z == a.z * p.z - a.z * q.z;
  }

  /* ---- transposes and products ---- */

  function Transpose(m: Mat): Mat {
    Mat(V.Vec(m.x.x, m.y.x, m.z.x), V.Vec(m.x.y, m.y.y, m.z.y), V.Vec(m.x.z, m.y.z, m.z.z))
  }

  /** The matrix applied to a vector, a combination of its columns. */
  function Apply(m: Mat, v: V.Vec): V.Vec {
    V.Plus(V.Plus(V.Times(v.x, m.x), V.Times(v.y, m.y)), V.Times(v.z, m.z))
  }

  function MatMul(a: Mat, b: Mat): Mat { Mat(Apply(a, b.x), Apply(a, b.y), Apply(a, b.z)) }

  /** The transpose applied to a vector: its coordinates along the columns. */
  function Coordinates(m: Mat, v: V.Vec): V.Vec { V.Vec(V.Dot(m.x, v), V.Dot(m.y, v), V.Dot(m.z, v)) }

  /** `transpose(a) * b`. */
  function TransposeMul(a: Mat, b: Mat): Mat { Mat(Coordinates(a, b.x), Coordinates(a, b.y), Coordinates(a, b.z)) }

  /** The transpose of a rotation is a rotation. */
  lemma TransposeRotation(m: Mat)
    requires IsRotation(m)
    ensures IsRotation(Transpose(m))
  {
    hide V.Dot; hide V.Cross; hide Transpose;
    ColumnsCross(m);
    var t := Transpose(m);
    RowsCross(m);
    Determinants(m);
    ScalarTriple(t.x, t.y, t.z);
    ScalarTriple(t.y, t.z, t.x);
    ScalarTriple(m.x, m.y, m.z);
    CrossOrthogonal(t.x, t.y); CrossOrthogonal(t.y, t.z);
    V.DotSymmetric(t.x, t.y);
    V.DotSymmetric(t.y, t.z);
  }

  /** Rows inherit from columns that each is the cross product of the other two. */
  lemma RowsCross(m: Mat)
    requires m.z == V.Cross(m.x, m.y) && m.x == V.Cross(m.y, m.z) && m.y == V.Cross(m.z, m.x)
    ensures var t := Transpose(m); V.Cross(t.x, t.y) == t.z && V.Cross(t.y, t.z) == t.x && V.Cross(t.z, t.x) == t.y
  {
    hide V.Cross;
    var t := Transpose(m);
    V.CrossParts(m.x, m.y); V.CrossParts(m.y, m.z); V.CrossParts(m.z, m.x);
    V.CrossParts(t.x, t.y); V.CrossParts(t.y, t.z); V.CrossParts(t.z, t.x);
  }

  /** Expanding the determinant along rows or along columns gives the same. */
  lemma Determinants(m: Mat)
    ensures var t := Transpose(m); V.Dot(V.Cross(t.x, t.y), t.z) == V.Dot(V.Cross(m.x, m.y), m.z)
  {
    hide V.Dot; hide V.Cross;
    var t := Transpose(m);
    var p, q := V.Cross(m.x, m.y), V.Cross(t.x, t.y);
    V.CrossParts(m.x, m.y); V.CrossParts(t.x, t.y);
    V.DotParts(p, m.z); V.DotParts(q, t.z);
    ScalarTriplePart(p.x, m.x.y, m.y.z, m.x.z, m.y.y, m.z.x); ScalarTriplePart(p.y, m.x.z, m.y.x, m.x.x, m.y.z, m.z.y);
    ScalarTriplePart(p.z, m.x.x, m.y.y, m.x.y, m.y.x, m.z.z);
    ScalarTriplePart(q.x, m.y.x, m.z.y, m.z.x, m.y.y, m.x.z); ScalarTriplePart(q.y, m.z.x, m.x.y, m.x.x, m.z.y, m.y.z);
    ScalarTriplePart(q.z, m.x.x, m.y.y, m.y.x, m.x.y, m.z.z);
  }

  /** A vector is the combination of the columns of a rotation with its own coordinates. */
  lemma Recombine(m: Mat, v: V.Vec)
    requires IsRotation(m)
    ensures Apply(m, Coordinates(m, v)) == v
  {
    hide *;
    var t, c := Transpose(m), Coordinates(m, v);
    CoordinatesAlongRows(m, v);
    CombinationRows(c, m);
    RecombineAll(t, c, v, Apply(m, c));
  }

  lemma CoordinatesAlongRows(m: Mat, v: V.Vec)
    requires IsRotation(m)
    ensures AlongRows(Transpose(m), Coordinates(m, v), v)
  {
    hide V.Dot; hide V.Cross; hide Transpose; hide Coordinates;
    TransposeRotation(m);
    CoordinateRows(m, v);
  }

  /** `c` holds the coordinates of `v`, written along the rows `t`. */
  predicate AlongRows(t: Mat, c: V.Vec, v: V.Vec) {
    && V.Dot(t.x, t.x) == 1.0 && V.Dot(t.y, t.y) == 1.0 && V.Dot(t.z, t.z) == 1.0
    && V.Dot(t.x, t.y) == 0.0 && V.Dot(t.y, t.z) == 0.0 && V.Dot(t.z, t.x) == 0.0
    && c.x == t.x.x * v.x + t.y.x * v.y + t.z.x * v.z
    && c.y == t.x.y * v.x + t.y.y * v.y + t.z.y * v.z
    && c.z == t.x.z * v.x + t.y.z * v.y + t.z.z * v.z
  }

  lemma RecombineAll(t: Mat, c: V.Vec, v: V.Vec, w: V.Vec)
    requires AlongRows(t, c, v)
    requires w == V.Vec(c.x * t.x.x + c.y * t.x.y + c.z * t.x.z,
                        c.x * t.y.x + c.y * t.y.y + c.z * t.y.z,
                        c.x * t.z.x + c.y * t.z.y + c.z * t.z.z)
    ensures w == v
  {
    hide AlongRows;
    RecombineX(t, c, v);
    RecombineY(t, c, v);
    RecombineZ(t, c, v);
  }

  lemma RecombineX(t: Mat, c: V.Vec, v: V.Vec)
    requires AlongRows(t, c, v)
    ensures c.x * t.x.x + c.y * t.x.y + c.z * t.x.z == v.x
  {
    hide V.Dot;
    RecombineRows(t.x, t.y, t.z, v.x, v.y, v.z, c);
  }

  lemma RecombineY(t: Mat, c: V.Vec, v: V.Vec)
    requires AlongRows(t, c, v)
    ensures c.x * t.y.x + c.y * t.y.y + c.z * t.y.z == v.y
  {
    hide V.Dot;
    RecombineRows(t.y, t.z, t.x, v.y, v.z, v.x, c);
  }

  lemma RecombineZ(t: Mat, c: V.Vec, v: V.Vec)
    requires AlongRows(t, c, v)
    ensures c.x * t.z.x + c.y * t.z.y + c.z * t.z.z == v.z
  {
    hide V.Dot;
    RecombineRows(t.z, t.x, t.y, v.z, v.x, v.y, c);
  }

  lemma RecombineRows(p: V.Vec, q: V.Vec, r: V.Vec, a: real, b: real, d: real, c: V.Vec)
    requires V.Dot(p, p) == 1.0 && V.Dot(p, q) == 0.0 && V.Dot(r, p) == 0.0
    requires c.x == p.x * a + q.x * b + r.x * d && c.y == p.y * a + q.y * b + r.y * d
      && c.z == p.z * a + q.z * b + r.z * d
    ensures c.x * p.x + c.y * p.y + c.z * p.z == a
  {
    hide V.Dot;
    V.DotParts(p, p); V.DotParts(p, q); V.DotParts(r, p);
    RecombinePart(p.x, p.y, p.z, q.x, q.y, q.z, r.x, r.y, r.z, a, b, d, c.x, c.y, c.z);
  }

  /** The same sums read along the rows. */
  lemma CoordinateRows(m: Mat, v: V.Vec)
    ensures var t, c := Transpose(m), Coordinates(m, v);
      && c.x == t.x.x * v.x + t.y.x * v.y + t.z.x * v.z
      && c.y == t.x.y * v.x + t.y.y * v.y + t.z.y * v.z
      && c.z == t.x.z * v.x + t.y.z * v.y + t.z.z * v.z
  {
    hide Coordinates;
    CoordinateParts(m, v);
    var t := Transpose(m);
    SumEqual(m.x.x, m.x.y, m.x.z, t.x.x, t.y.x, t.z.x, v.x, v.y, v.z);
    SumEqual(m.y.x, m.y.y, m.y.z, t.x.y, t.y.y, t.z.y, v.x, v.y, v.z);
    SumEqual(m.z.x, m.z.y, m.z.z, t.x.z, t.y.z, t.z.z, v.x, v.y, v.z);
  }

  lemma CombinationRows(c: V.Vec, m: Mat)
    ensures var t := Transpose(m);
      Apply(m, c) == V.Vec(c.x * t.x.x + c.y * t.x.y + c.z * t.x.z,
                           c.x * t.y.x + c.y * t.y.y + c.z * t.y.z,
                           c.x * t.z.x + c.y * t.z.y + c.z * t.z.z)
  {
    hide Apply;
    CombinationParts(c, m);
    var t := Transpose(m);
    SumEqual(m.x.x, m.y.x, m.z.x, t.x.x, t.x.y, t.x.z, c.x, c.y, c.z);
    SumEqual(m.x.y, m.y.y, m.z.y, t.y.x, t.y.y, t.y.z, c.x, c.y, c.z);
    SumEqual(m.x.z, m.y.z, m.z.z, t.z.x, t.z.y, t.z.z, c.x, c.y, c.z);
  }

  lemma SumEqual(a: real, b: real, c: real, a': real, b': real, c': real, p: real, q: real, r: real)
    requires a == a' && b == b' && c == c'
    ensures a * p + b * q + c * r == a' * p + b' * q + c' * r
  {}

  lemma CoordinateParts(m: Mat, v: V.Vec)
    ensures var c := Coordinates(m, v);
      && c.x == m.x.x * v.x + m.x.y * v.y + m.x.z * v.z
      && c.y == m.y.x * v.x + m.y.y * v.y + m.y.z * v.z
      && c.z == m.z.x * v.x + m.z.y * v.y + m.z.z * v.z
  {
    hide V.Dot;
    V.DotParts(m.x, v); V.DotParts(m.y, v); V.DotParts(m.z, v);
  }

  lemma CombinationParts(c: V.Vec, m: Mat)
    ensures Apply(m, c) == V.Vec(c.x * m.x.x + c.y * m.y.x + c.z * m.z.x,
                                 c.x * m.x.y + c.y * m.y.y + c.z * m.z.y,
                                 c.x * m.x.z + c.y * m.y.z + c.z * m.z.z)
  {}

  /** One component: `p`, `q`, `r` are the rows, the first of them of the component. */
  lemma RecombinePart(p0: real, p1: real, p2: real, q0: real, q1: real, q2: real, r0: real, r1: real, r2: real,
                      vx: real, v2: real, vz: real, c0: real, c1: real, c2: real)
    requires c0 == p0 * vx + q0 * v2 + r0 * vz && c1 == p1 * vx + q1 * v2 + r1 * vz && c2 == p2 * vx + q2 * v2 + r2 * vz
    requires p0 * p0 + p1 * p1 + p2 * p2 == 1.0
    requires p0 * q0 + p1 * q1 + p2 * q2 == 0.0 && r0 * p0 + r1 * p1 + r2 * p2 == 0.0
    ensures c0 * p0 + c1 * p1 + c2 * p2 == vx
  {
    assert c0 * p0 == p0 * p0 * vx + p0 * q0 * v2 + r0 * p0 * vz;
    assert c1 * p1 == p1 * p1 * vx + p1 * q1 * v2 + r1 * p1 * vz;
    assert c2 * p2 == p2 * p2 * vx + p2 * q2 * v2 + r2 * p2 * vz;
    assert (p0 * p0 + p1 * p1 + p2 * p2) * vx == vx;
    assert (p0 * q0 + p1 * q1 + p2 * q2) * v2 == 0.0;
    assert (r0 * p0 + r1 * p1 + r2 * p2) * vz == 0.0;
  }

  /** Undoing: a rotation times its transpose is no change. */
  lemma MulTransposeMul(a: Mat, b: Mat)
    requires IsRotation(a)
    ensures MatMul(a, TransposeMul(a, b)) == b
  {
    hide IsRotation; hide Apply; hide Coordinates;
    Recombine(a, b.x);
    Recombine(a, b.y);
    Recombine(a, b.z);
  }

  /** Taking coordinates along a rotation keeps dot products. */
  lemma CoordinatesIsometric(m: Mat, u: V.Vec, v: V.Vec)
    requires IsRotation(m)
    ensures V.Dot(Coordinates(m, u), Coordinates(m, v)) == V.Dot(u, v)
  {
    hide V.Dot; hide V.Times; hide V.Plus; hide IsRotation;
    var c := Coordinates(m, u);
    Recombine(m, u);
    var p, q, r := V.Times(c.x, m.x), V.Times(c.y, m.y), V.Times(c.z, m.z);
    V.DotPlus(V.Plus(p, q), r, v);
    V.DotPlus(p, q, v);
    V.DotTimes(c.x, m.x, v); V.DotTimes(c.y, m.y, v); V.DotTimes(c.z, m.z, v);
    V.DotParts(c, Coordinates(m, v));
  }

  /** And cross products. */
  lemma CoordinatesCross(m: Mat, u: V.Vec, v: V.Vec)
    requires IsRotation(m)
    ensures V.Cross(Coordinates(m, u), Coordinates(m, v)) == Coordinates(m, V.Cross(u, v))
  {
    hide V.Dot; hide V.Cross; hide IsRotation;
    ColumnsCross(m);
    BinetCauchy(m.y, m.z, u, v); BinetCauchy(m.z, m.x, u, v); BinetCauchy(m.x, m.y, u, v);
    V.CrossParts(Coordinates(m, u), Coordinates(m, v));
  }

  lemma TransposeMulRotation(a: Mat, b: Mat)
    requires IsRotation(a) && IsRotation(b)
    ensures IsRotation(TransposeMul(a, b))
  {
    hide V.Dot; hide V.Cross; hide Coordinates;
    CoordinatesIsometric(a, b.x, b.x); CoordinatesIsometric(a, b.y, b.y); CoordinatesIsometric(a, b.z, b.z);
    CoordinatesIsometric(a, b.x, b.y); CoordinatesIsometric(a, b.y, b.z); CoordinatesIsometric(a, b.z, b.x);
    CoordinatesCross(a, b.x, b.y);
    CoordinatesIsometric(a, V.Cross(b.x, b.y), b.z);
  }
}
