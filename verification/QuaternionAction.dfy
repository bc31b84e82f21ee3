/** Unit quaternions act on vectors as their rotation matrices: products of quaternions are
    products of matrices. */
module QuaternionAction {
  import V = Vectors
  import Q = Quaternions
  import A = AxisAngle
  import opened Matrices
  import opened MatrixQuaternion

  function Pure(v: V.Vec): Q.Quat { A.Compose(0.0, v) }

  /** `q v q*`. */
  function Turned(q: Q.Quat, v: V.Vec): Q.Quat { Q.Mul(Q.Mul(q, Pure(v)), Q.Conj(q)) }

  const E1 := V.Vec(1.0, 0.0, 0.0)
  const E2 := V.Vec(0.0, 1.0, 0.0)
  const E3 := V.Vec(0.0, 0.0, 1.0)

  lemma MulPure(q: Q.Quat, v: V.Vec)
    ensures Q.Mul(q, Pure(v)) == Q.Quat(-q.x * v.x - q.y * v.y - q.z * v.z,
                                        q.w * v.x + q.y * v.z - q.z * v.y,
                                        q.w * v.y - q.x * v.z + q.z * v.x,
                                        q.w * v.z + q.x * v.y - q.y * v.x)
  {
    hide Q.Mul;
    Q.MulBy(q, Pure(v), 0.0, v.x, v.y, v.z);
  }

  lemma MulConjOf(p: Q.Quat, q: Q.Quat)
    ensures Q.Mul(p, Q.Conj(q)) == Q.Quat(p.w * q.w + p.x * q.x + p.y * q.y + p.z * q.z,
                                          -p.w * q.x + p.x * q.w - p.y * q.z + p.z * q.y,
                                          -p.w * q.y + p.x * q.z + p.y * q.w - p.z * q.x,
                                          -p.w * q.z - p.x * q.y + p.y * q.x + p.z * q.w)
  {
    hide Q.Mul; hide Q.Conj;
    Q.MulW(p, Q.Conj(q));
    Q.MulXYZ(p, Q.Conj(q));
    Q.TimesConj(p.w, q); Q.TimesConj(p.x, q); Q.TimesConj(p.y, q); Q.TimesConj(p.z, q);
  }

  /** The real part of `q v q*` vanishes. */
  lemma TurnedReal(w: real, x: real, y: real, z: real, a: real, b: real, c: real, p0: real, p1: real, p2: real,
                   p3: real)
    requires p0 == -x * a - y * b - z * c && p1 == w * a + y * c - z * b
    requires p2 == w * b - x * c + z * a && p3 == w * c + x * b - y * a
    ensures p0 * w + p1 * x + p2 * y + p3 * z == 0.0
  {
    assert p0 * w == -x * a * w - y * b * w - z * c * w;
    assert p1 * x == w * a * x + y * c * x - z * b * x;
    assert p2 * y == w * b * y - x * c * y + z * a * y;
    assert p3 * z == w * c * z + x * b * z - y * a * z;
  }

  /** One component of the vector part; the other two follow by turning the axes. */
  lemma TurnedPart(w: real, x: real, y: real, z: real, a: real, b: real, c: real, p0: real, p1: real, p2: real,
                   p3: real)
    requires p0 == -x * a - y * b - z * c && p1 == w * a + y * c - z * b
    requires p2 == w * b - x * c + z * a && p3 == w * c + x * b - y * a
    requires w * w + x * x + y * y + z * z == 1.0
    ensures -p0 * x + p1 * w - p2 * z + p3 * y
         == a * (1.0 - 2.0 * (y * y + z * z)) + b * (2.0 * (x * y - w * z)) + c * (2.0 * (x * z + w * y))
  {
    assert p0 * x == -x * a * x - y * b * x - z * c * x;
    assert p1 * w == w * a * w + y * c * w - z * b * w;
    assert p2 * z == w * b * z - x * c * z + z * a * z;
    assert p3 * y == w * c * y + x * b * y - y * a * y;
    assert a * w * w == a - a * x * x - a * y * y - a * z * z by {
      assert a * (w * w + x * x + y * y + z * z) == a;
    }
  }

  lemma ActionW(q: Q.Quat, v: V.Vec)
    ensures Turned(q, v).w == 0.0
  {
    hide Q.Mul; hide Q.Conj;
    var p := Q.Mul(q, Pure(v));
    MulPure(q, v);
    MulConjOf(p, q);
    TurnedReal(q.w, q.x, q.y, q.z, v.x, v.y, v.z, p.w, p.x, p.y, p.z);
  }

  lemma ActionX(q: Q.Quat, v: V.Vec)
    requires Q.Unit(q)
    ensures Turned(q, v).x == Apply(RotationOf(q), v).x
  {
    hide Q.Mul; hide Q.Conj; hide Q.Dot; hide Apply; hide RotationOf;
    var p := Q.Mul(q, Pure(v));
    MulPure(q, v);
    MulConjOf(p, q);
    Q.DotSelf(q);
    ApplyRotation(q, v);
    TurnedPart(q.w, q.x, q.y, q.z, v.x, v.y, v.z, p.w, p.x, p.y, p.z);
  }

  lemma ActionY(q: Q.Quat, v: V.Vec)
    requires Q.Unit(q)
    ensures Turned(q, v).y == Apply(RotationOf(q), v).y
  {
    hide Q.Mul; hide Q.Conj; hide Q.Dot; hide Apply; hide RotationOf;
    var p := Q.Mul(q, Pure(v));
    MulPure(q, v);
    MulConjOf(p, q);
    Q.DotSelf(q);
    ApplyRotation(q, v);
    TurnedPart(q.w, q.y, q.z, q.x, v.y, v.z, v.x, p.w, p.y, p.z, p.x);
  }

  lemma ActionZ(q: Q.Quat, v: V.Vec)
    requires Q.Unit(q)
    ensures Turned(q, v).z == Apply(RotationOf(q), v).z
  {
    hide Q.Mul; hide Q.Conj; hide Q.Dot; hide Apply; hide RotationOf;
    var p := Q.Mul(q, Pure(v));
    MulPure(q, v);
    MulConjOf(p, q);
    Q.DotSelf(q);
    ApplyRotation(q, v);
    TurnedPart(q.w, q.z, q.x, q.y, v.z, v.x, v.y, p.w, p.z, p.x, p.y);
  }

  /** The action is the matrix: `q v q*` is the pure quaternion of `RotationOf(q) v`. */
  lemma ActionIsMatrix(q: Q.Quat, v: V.Vec)
    requires Q.Unit(q)
    ensures Turned(q, v) == Pure(Apply(RotationOf(q), v))
  {
    hide Turned; hide Apply; hide RotationOf; hide Q.Unit;
    ActionW(q, v);
    ActionX(q, v);
    ActionY(q, v);
    ActionZ(q, v);
  }

  lemma ApplyRotation(q: Q.Quat, v: V.Vec)
    ensures Apply(RotationOf(q), v) == V.Vec(
      v.x * (1.0 - 2.0 * (q.y * q.y + q.z * q.z)) + v.y * (2.0 * (q.x * q.y - q.w * q.z))
        + v.z * (2.0 * (q.x * q.z + q.w * q.y)),
      v.x * (2.0 * (q.x * q.y + q.w * q.z)) + v.y * (1.0 - 2.0 * (q.x * q.x + q.z * q.z))
        + v.z * (2.0 * (q.y * q.z - q.w * q.x)),
      v.x * (2.0 * (q.x * q.z - q.w * q.y)) + v.y * (2.0 * (q.y * q.z + q.w * q.x))
        + v.z * (1.0 - 2.0 * (q.x * q.x + q.y * q.y)))
  {
    hide Apply;
    CombinationParts(v, RotationOf(q));
  }

  /** The columns are the images of the axes. */
  lemma ApplyAxes(m: Mat)
    ensures Apply(m, E1) == m.x && Apply(m, E2) == m.y && Apply(m, E3) == m.z
  {
    hide Apply;
    CombinationParts(E1, m);
    CombinationParts(E2, m);
    CombinationParts(E3, m);
    OneZeroZero(1.0, 0.0, 0.0, m.x, m.y, m.z);
    OneZeroZero(1.0, 0.0, 0.0, m.y, m.x, m.z);
    OneZeroZero(1.0, 0.0, 0.0, m.z, m.x, m.y);
  }

  lemma OneZeroZero(a: real, b: real, c: real, u: V.Vec, v: V.Vec, w: V.Vec)
    requires a == 1.0 && b == 0.0 && c == 0.0
    ensures V.Vec(a * u.x + b * v.x + c * w.x, a * u.y + b * v.y + c * w.y, a * u.z + b * v.z + c * w.z) == u
  {}

  /** Turning twice is turning by the product. */
  lemma TurnTwice(p: Q.Quat, q: Q.Quat, v: V.Vec)
    requires Q.Unit(q)
    ensures Turned(Q.Mul(p, q), v) == Turned(p, Apply(RotationOf(q), v))
  {
    ActionIsMatrix(q, v);
    hide *;
    UnfoldTurned(q, v); UnfoldTurned(Q.Mul(p, q), v); UnfoldTurned(p, Apply(RotationOf(q), v));
    var u := Pure(v);
    Q.ConjMul(p, q);
    Q.Associative(p, q, u);
    var qu := Q.Mul(q, u);
    Q.Associative(Q.Mul(p, qu), Q.Conj(q), Q.Conj(p));
    Q.Associative(p, qu, Q.Conj(q));
  }

  lemma UnfoldTurned(q: Q.Quat, v: V.Vec)
    ensures Turned(q, v) == Q.Mul(Q.Mul(q, Pure(v)), Q.Conj(q))
  {}

  lemma PureInjective(u: V.Vec, v: V.Vec)
    requires Pure(u) == Pure(v)
    ensures u == v
  {}

  lemma ProductActs(p: Q.Quat, q: Q.Quat, v: V.Vec)
    requires Q.Unit(p) && Q.Unit(q)
    ensures Apply(RotationOf(Q.Mul(p, q)), v) == Apply(RotationOf(p), Apply(RotationOf(q), v))
  {
    hide Q.Mul; hide Turned; hide Apply; hide RotationOf; hide Pure; hide Q.Unit;
    Q.UnitMul(p, q);
    TurnTwice(p, q, v);
    ActionIsMatrix(Q.Mul(p, q), v);
    ActionIsMatrix(p, Apply(RotationOf(q), v));
    PureInjective(Apply(RotationOf(Q.Mul(p, q)), v), Apply(RotationOf(p), Apply(RotationOf(q), v)));
  }

  /** The matrix of a product is the product of the matrices. */
  lemma RotationOfProduct(p: Q.Quat, q: Q.Quat)
    requires Q.Unit(p) && Q.Unit(q)
    ensures RotationOf(Q.Mul(p, q)) == MatMul(RotationOf(p), RotationOf(q))
  {
    hide Q.Mul; hide Apply; hide RotationOf; hide Q.Unit;
    ApplyAxes(RotationOf(Q.Mul(p, q)));
    ApplyAxes(RotationOf(q));
    ProductActs(p, q, E1);
    ProductActs(p, q, E2);
    ProductActs(p, q, E3);
  }

  lemma NegRotation(q: Q.Quat)
    ensures RotationOf(Q.Neg(q)) == RotationOf(q)
  {
    hide Q.Neg; hide RotationOf;
    NegProducts(q);
    RotationFromProducts(Q.Neg(q));
    RotationFromProducts(q);
  }

  lemma NegProducts(q: Q.Quat)
    ensures var n := Q.Neg(q);
      && n.x * n.x == q.x * q.x && n.y * n.y == q.y * q.y && n.z * n.z == q.z * q.z
      && n.w * n.x == q.w * q.x && n.w * n.y == q.w * q.y && n.w * n.z == q.w * q.z
      && n.x * n.y == q.x * q.y && n.x * n.z == q.x * q.z && n.y * n.z == q.y * q.z
  {
    var n := Q.Neg(q);
    Q.ConjTimesConj(n.x, q.x, n.x, q.x); Q.ConjTimesConj(n.y, q.y, n.y, q.y); Q.ConjTimesConj(n.z, q.z, n.z, q.z);
    Q.ConjTimesConj(n.w, q.w, n.x, q.x); Q.ConjTimesConj(n.w, q.w, n.y, q.y); Q.ConjTimesConj(n.w, q.w, n.z, q.z);
    Q.ConjTimesConj(n.x, q.x, n.y, q.y); Q.ConjTimesConj(n.x, q.x, n.z, q.z); Q.ConjTimesConj(n.y, q.y, n.z, q.z);
  }

  lemma RotationFromProducts(q: Q.Quat)
    ensures RotationOf(q) ==
      Mat(V.Vec(1.0 - 2.0 * (q.y * q.y) - 2.0 * (q.z * q.z), 2.0 * (q.x * q.y) + 2.0 * (q.w * q.z),
                2.0 * (q.x * q.z) - 2.0 * (q.w * q.y)),
          V.Vec(2.0 * (q.x * q.y) - 2.0 * (q.w * q.z), 1.0 - 2.0 * (q.x * q.x) - 2.0 * (q.z * q.z),
                2.0 * (q.y * q.z) + 2.0 * (q.w * q.x)),
          V.Vec(2.0 * (q.x * q.z) + 2.0 * (q.w * q.y), 2.0 * (q.y * q.z) - 2.0 * (q.w * q.x),
                1.0 - 2.0 * (q.x * q.x) - 2.0 * (q.y * q.y)))
  {}
}
