/** Quaternion arithmetic of the pose core (rotation.py), over exact reals. */
module Quaternions {
  import opened Prelude
  import R = Reals

  datatype Quat = Quat(w: real, x: real, y: real, z: real)

  const IDENTITY := Quat(1.0, 0.0, 0.0, 0.0)

  const ZERO_ANGLE := 0.000000000001

  /** Hamilton product: rotate by `b` first, then by `a`. */
  function Mul(a: Quat, b: Quat): Quat {
    Quat(a.w * b.w - a.x * b.x - a.y * b.y - a.z * b.z,
         a.w * b.x + a.x * b.w + a.y * b.z - a.z * b.y,
         a.w * b.y - a.x * b.z + a.y * b.w + a.z * b.x,
         a.w * b.z + a.x * b.y - a.y * b.x + a.z * b.w)
  }

  function Conj(a: Quat): Quat { Quat(a.w, -a.x, -a.y, -a.z) }

  function Neg(a: Quat): Quat { Quat(-a.w, -a.x, -a.y, -a.z) }

  function Scale(s: real, a: Quat): Quat { Quat(s * a.w, s * a.x, s * a.y, s * a.z) }

  function Add(a: Quat, b: Quat): Quat { Quat(a.w + b.w, a.x + b.x, a.y + b.y, a.z + b.z) }

  function Dot(a: Quat, b: Quat): real { a.w * b.w + a.x * b.x + a.y * b.y + a.z * b.z }

  function Over(a: Quat, n: real): Quat
    requires n != 0.0
  {
    Quat(a.w / n, a.x / n, a.y / n, a.z / n)
  }

  predicate Unit(a: Quat) { Dot(a, a) == 1.0 }

  /** `q` or its negation, whichever is nearer the reference. */
  function MakeSignCompatible(q: Quat, reference: Quat): Quat {
    if Dot(q, reference) < 0.0 then Neg(q) else q
  }

  /** A quaternion divided by its norm; a zero norm raises. */
  function Normalized(m: R.Library, q: Quat): Result<Quat> {
    var norm := m.sqrt(Dot(q, q));
    if norm < ZERO_ANGLE then Err("quaternion cannot have zero norm")
    else Ok(Over(q, norm))
  }

  /* ---- components of a product ---- */

  lemma MulW(a: Quat, b: Quat)
    ensures Mul(a, b).w == a.w * b.w - a.x * b.x - a.y * b.y - a.z * b.z
  {}

  lemma MulXYZ(a: Quat, b: Quat)
    ensures Mul(a, b).x == a.w * b.x + a.x * b.w + a.y * b.z - a.z * b.y
    ensures Mul(a, b).y == a.w * b.y - a.x * b.z + a.y * b.w + a.z * b.x
    ensures Mul(a, b).z == a.w * b.z + a.x * b.y - a.y * b.x + a.z * b.w
  {}

  /** The product with a second factor given by its components. */
  lemma MulBy(q: Quat, p: Quat, w: real, x: real, y: real, z: real)
    requires p == Quat(w, x, y, z)
    ensures Mul(q, p) == Quat(q.w * w - q.x * x - q.y * y - q.z * z,
                              q.w * x + q.x * w + q.y * z - q.z * y,
                              q.w * y - q.x * z + q.y * w + q.z * x,
                              q.w * z + q.x * y - q.y * x + q.z * w)
  {}

  /* ---- associativity ---- */

  lemma AssociativeParts(
    aw: real, ax: real, ay: real, az: real, bw: real, bx: real, b2: real, bz: real,
    cw: real, cx: real, cy: real, cz: real,
    pw: real, px: real, py: real, pz: real, qw: real, qx: real, qy: real, qz: real)
    requires pw == aw * bw - ax * bx - ay * b2 - az * bz
    requires px == aw * bx + ax * bw + ay * bz - az * b2
    requires py == aw * b2 - ax * bz + ay * bw + az * bx
    requires pz == aw * bz + ax * b2 - ay * bx + az * bw
    requires qw == bw * cw - bx * cx - b2 * cy - bz * cz
    requires qx == bw * cx + bx * cw + b2 * cz - bz * cy
    requires qy == bw * cy - bx * cz + b2 * cw + bz * cx
    requires qz == bw * cz + bx * cy - b2 * cx + bz * cw
    ensures pw * cw - px * cx - py * cy - pz * cz == aw * qw - ax * qx - ay * qy - az * qz
  {}

  lemma AssociativeW(a: Quat, b: Quat, c: Quat)
    ensures Mul(Mul(a, b), c).w == Mul(a, Mul(b, c)).w
  {
    hide Mul;
    var p, q := Mul(a, b), Mul(b, c);
    MulW(a, b);
    MulXYZ(a, b);
    MulW(b, c);
    MulXYZ(b, c);
    MulW(p, c);
    MulW(a, q);
    AssociativeParts(a.w, a.x, a.y, a.z, b.w, b.x, b.y, b.z, c.w, c.x, c.y, c.z,
                     p.w, p.x, p.y, p.z, q.w, q.x, q.y, q.z);
  }

  /* Right multiplication by the three imaginary units only permutes components, and
     brings each of them into the place of the real part. */

  function TimesI(c: Quat): Quat { Quat(-c.x, c.w, c.z, -c.y) }
  function TimesJ(c: Quat): Quat { Quat(-c.y, -c.z, c.w, c.x) }
  function TimesK(c: Quat): Quat { Quat(-c.z, c.y, -c.x, c.w) }

  lemma MulTimesI(q: Quat, c: Quat)
    ensures Mul(q, TimesI(c)) == TimesI(Mul(q, c))
  {
    hide Mul;
    MulW(q, c);
    MulXYZ(q, c);
    MulBy(q, TimesI(c), -c.x, c.w, c.z, -c.y);
  }

  lemma MulTimesJ(q: Quat, c: Quat)
    ensures Mul(q, TimesJ(c)) == TimesJ(Mul(q, c))
  {
    hide Mul;
    MulW(q, c);
    MulXYZ(q, c);
    MulBy(q, TimesJ(c), -c.y, -c.z, c.w, c.x);
  }

  lemma MulTimesK(q: Quat, c: Quat)
    ensures Mul(q, TimesK(c)) == TimesK(Mul(q, c))
  {
    hide Mul;
    MulW(q, c);
    MulXYZ(q, c);
    MulBy(q, TimesK(c), -c.z, c.y, -c.x, c.w);
  }

  lemma Associative(a: Quat, b: Quat, c: Quat)
    ensures Mul(Mul(a, b), c) == Mul(a, Mul(b, c))
  {
    hide Mul;
    AssociativeW(a, b, c);
    AssociativeW(a, b, TimesI(c));
    AssociativeW(a, b, TimesJ(c));
    AssociativeW(a, b, TimesK(c));
    var p, q := Mul(a, b), Mul(b, c);
    MulTimesI(p, c); MulTimesI(b, c); MulTimesI(a, q);
    MulTimesJ(p, c); MulTimesJ(b, c); MulTimesJ(a, q);
    MulTimesK(p, c); MulTimesK(b, c); MulTimesK(a, q);
  }

  /* ---- conjugation, identity, norm ---- */

  lemma TimesConj(s: real, c: Quat)
    ensures s * Conj(c).w == s * c.w && s * Conj(c).x == -(s * c.x)
    ensures s * Conj(c).y == -(s * c.y) && s * Conj(c).z == -(s * c.z)
  {}

  /** A product of two conjugated components. */
  lemma ConjTimesConj(p: real, b: real, q: real, a: real)
    requires (p == b && q == a) || (p == -b && q == -a)
    ensures p * q == a * b
  {}

  lemma ConjMulW(a: Quat, b: Quat)
    ensures Mul(Conj(b), Conj(a)).w == Mul(a, b).w
  {
    hide Mul;
    var p, q := Conj(b), Conj(a);
    MulW(a, b);
    MulW(p, q);
    ConjTimesConj(p.w, b.w, q.w, a.w); ConjTimesConj(p.x, b.x, q.x, a.x);
    ConjTimesConj(p.y, b.y, q.y, a.y); ConjTimesConj(p.z, b.z, q.z, a.z);
  }

  lemma ConjMul(a: Quat, b: Quat)
    ensures Conj(Mul(a, b)) == Mul(Conj(b), Conj(a))
  {
    hide Mul; hide Conj;
    ConjMulW(a, b);
    ConjMulXYZ(a, b);
    ConjOf(Mul(a, b));
  }

  lemma ConjOf(a: Quat)
    ensures Conj(a) == Quat(a.w, -a.x, -a.y, -a.z)
  {}

  lemma ConjMulXYZ(a: Quat, b: Quat)
    ensures var r, s := Mul(Conj(b), Conj(a)), Mul(a, b); r.x == -s.x && r.y == -s.y && r.z == -s.z
  {
    hide *;
    var p, q := Conj(b), Conj(a);
    MulXYZ(a, b);
    MulXYZ(p, q);
    TimesConj(b.w, a); TimesConj(a.w, b);
    ConjOf(a); ConjOf(b);
    ConjTimesConj(p.y, b.y, q.z, a.z); ConjTimesConj(p.z, b.z, q.y, a.y);
    ConjTimesConj(p.x, b.x, q.z, a.z); ConjTimesConj(p.z, b.z, q.x, a.x);
    ConjTimesConj(p.x, b.x, q.y, a.y); ConjTimesConj(p.y, b.y, q.x, a.x);
  }

  lemma MulIdentity(a: Quat)
    ensures Mul(a, IDENTITY) == a && Mul(IDENTITY, a) == a
  {}

  lemma IdentityUnit()
    ensures Unit(IDENTITY) && Conj(IDENTITY) == IDENTITY
  {
    hide Dot; hide Conj;
    DotSelf(IDENTITY);
    ConjOf(IDENTITY);
  }

  lemma MulConj(a: Quat)
    requires Unit(a)
    ensures Mul(a, Conj(a)) == IDENTITY && Mul(Conj(a), a) == IDENTITY
  {}

  lemma ConjUnit(a: Quat)
    ensures Unit(Conj(a)) == Unit(a) && Conj(Conj(a)) == a
  {}

  /** `a* (a b) == b` and `a (a* b) == b` for a unit `a`. */
  lemma CancelLeft(a: Quat, b: Quat)
    requires Unit(a)
    ensures Mul(Conj(a), Mul(a, b)) == b && Mul(a, Mul(Conj(a), b)) == b
  {
    hide Mul; hide Conj; hide Unit;
    MulConj(a);
    Associative(Conj(a), a, b);
    Associative(a, Conj(a), b);
    MulIdentity(b);
  }

  /** `(b a) a* == b` and `(b a*) a == b` for a unit `a`. */
  lemma CancelRight(a: Quat, b: Quat)
    requires Unit(a)
    ensures Mul(Mul(b, a), Conj(a)) == b && Mul(Mul(b, Conj(a)), a) == b
  {
    hide Mul; hide Conj; hide Unit;
    MulConj(a);
    Associative(b, a, Conj(a));
    Associative(b, Conj(a), a);
    MulIdentity(b);
  }

  lemma DotIsRealPart(a: Quat, b: Quat)
    ensures Dot(a, b) == Mul(a, Conj(b)).w == Mul(Conj(b), a).w
  {
    hide Mul;
    hide Conj;
    MulW(a, Conj(b));
    MulW(Conj(b), a);
    TimesConj(a.w, b); TimesConj(a.x, b); TimesConj(a.y, b); TimesConj(a.z, b);
  }

  lemma DotSymmetric(a: Quat, b: Quat)
    ensures Dot(a, b) == Dot(b, a)
  {}

  /** Left multiplication by a unit quaternion keeps dot products. */
  lemma DotLeft(c: Quat, a: Quat, b: Quat)
    requires Unit(c)
    ensures Dot(Mul(c, a), Mul(c, b)) == Dot(a, b)
  {
    hide *;
    var ca, cb := Mul(c, a), Mul(c, b);
    DotIsRealPart(ca, cb);
    ConjMul(c, b);
    Associative(Conj(b), Conj(c), ca);
    CancelLeft(c, a);
    DotIsRealPart(a, b);
  }

  /** Right multiplication by a unit quaternion keeps dot products. */
  lemma DotRight(c: Quat, a: Quat, b: Quat)
    requires Unit(c)
    ensures Dot(Mul(a, c), Mul(b, c)) == Dot(a, b)
  {
    hide *;
    var ac, bc := Mul(a, c), Mul(b, c);
    DotIsRealPart(ac, bc);
    ConjMul(b, c);
    Associative(ac, Conj(c), Conj(b));
    CancelRight(c, a);
    DotIsRealPart(a, b);
  }

  lemma UnitMul(a: Quat, b: Quat)
    requires Unit(a) && Unit(b)
    ensures Unit(Mul(a, b))
  {
    hide Mul; hide Dot;
    DotLeft(a, b, b);
  }

  /** Normalising a unit quaternion changes nothing and never raises. */
  lemma NormalizedUnit(m: R.Library, q: Quat)
    requires R.Sound(m) && Unit(q)
    ensures Normalized(m, q) == Ok(q)
  {
    hide R.Sound;
    R.SqrtUnique(m, 1.0, 1.0);
    OverOne(q);
  }

  lemma OverOne(q: Quat)
    ensures Over(q, 1.0) == q
  {}

  /** What normalising accepts, and that its result is a unit quaternion along `q`. */
  lemma NormalizedResult(m: R.Library, q: Quat)
    requires R.Sound(m)
    ensures Normalized(m, q).Ok? <==> m.sqrt(Dot(q, q)) >= 0.000000000001
    ensures Normalized(m, q).Ok? ==> Unit(Normalized(m, q).value)
    ensures Normalized(m, q).Ok? ==> Scale(m.sqrt(Dot(q, q)), Normalized(m, q).value) == q
  {
    hide R.Sound; hide Dot;
    DotSelf(q);
    SquaresSum(q.w, q.x, q.y, q.z);
    var n := R.Sqrt(m, Dot(q, q));
    if n >= ZERO_ANGLE { QuotientUnit(q, n); }
  }

  lemma QuotientUnit(q: Quat, n: real)
    requires n != 0.0 && n * n == Dot(q, q)
    ensures Unit(Over(q, n)) && Scale(n, Over(q, n)) == q
  {
    hide Dot; hide Over; hide Scale;
    ScaleOver(q, n);
    ScaleDot(n, Over(q, n));
    R.CancelSquare(n, Dot(Over(q, n), Over(q, n)), Dot(q, q));
  }

  lemma ScaleOver(q: Quat, n: real)
    requires n != 0.0
    ensures Scale(n, Over(q, n)) == q
  {}

  lemma ScaleDot(s: real, q: Quat)
    ensures Dot(Scale(s, q), Scale(s, q)) == s * s * Dot(q, q)
  {
    hide Dot;
    var t := Scale(s, q);
    DotSelf(q);
    DotSelf(t);
    assert t.w * t.w == s * s * (q.w * q.w) && t.x * t.x == s * s * (q.x * q.x);
    assert t.y * t.y == s * s * (q.y * q.y) && t.z * t.z == s * s * (q.z * q.z);
    assert s * s * (q.w * q.w + q.x * q.x + q.y * q.y + q.z * q.z) == s * s * Dot(q, q);
  }

  lemma DotSelf(a: Quat)
    ensures Dot(a, a) == a.w * a.w + a.x * a.x + a.y * a.y + a.z * a.z
  {}

  lemma SquaresSum(a: real, b: real, c: real, d: real)
    ensures a * a + b * b + c * c + d * d >= 0.0
  {}

  /* ---- linear combinations ---- */

  function Combine(a: real, p: Quat, b: real, q: Quat): Quat { Add(Scale(a, p), Scale(b, q)) }

  lemma DotScale(s: real, p: Quat, r: Quat)
    ensures Dot(Scale(s, p), r) == s * Dot(p, r)
  {
    var t := Scale(s, p);
    Distribute(t.w, t.x, t.y, t.z, s, p.w, p.x, p.y, p.z, r.w, r.x, r.y, r.z);
  }

  lemma Distribute(tw: real, tx: real, ty: real, tz: real, s: real, pw: real, px: real, py: real, pz: real,
                   rw: real, rx: real, ry: real, rz: real)
    requires tw == s * pw && tx == s * px && ty == s * py && tz == s * pz
    ensures tw * rw + tx * rx + ty * ry + tz * rz == s * (pw * rw + px * rx + py * ry + pz * rz)
  {
    assert tw * rw == s * pw * rw && tx * rx == s * px * rx && ty * ry == s * py * ry && tz * rz == s * pz * rz;
  }

  lemma DotAdd(p: Quat, q: Quat, r: Quat)
    ensures Dot(Add(p, q), r) == Dot(p, r) + Dot(q, r)
  {
    var t := Add(p, q);
    assert t.w * r.w == p.w * r.w + q.w * r.w && t.x * r.x == p.x * r.x + q.x * r.x;
    assert t.y * r.y == p.y * r.y + q.y * r.y && t.z * r.z == p.z * r.z + q.z * r.z;
  }

  lemma DotCombine(a: real, p: Quat, b: real, q: Quat, r: Quat)
    ensures Dot(Combine(a, p, b, q), r) == a * Dot(p, r) + b * Dot(q, r)
  {
    hide Dot; hide Scale; hide Add;
    DotAdd(Scale(a, p), Scale(b, q), r);
    DotScale(a, p, r);
    DotScale(b, q, r);
  }

  /** Unit quaternions have a dot product of at most one. */
  lemma DotAtMostOne(p: Quat, q: Quat)
    requires Unit(p) && Unit(q)
    ensures Dot(p, q) <= 1.0
  {
    hide Dot; hide Combine;
    var d := Combine(1.0, p, -1.0, q);
    DotCombine(1.0, p, -1.0, q, d);
    DotSymmetric(p, d);
    DotSymmetric(q, d);
    DotCombine(1.0, p, -1.0, q, p);
    DotCombine(1.0, p, -1.0, q, q);
    DotSymmetric(p, q);
    DotSelf(d);
    SquaresSum(d.w, d.x, d.y, d.z);
  }

  lemma DotParts(p: Quat, q: Quat)
    ensures Dot(p, q) == p.w * q.w + p.x * q.x + p.y * q.y + p.z * q.z
  {}

  /** Unit quaternions at dot product one are equal. */
  lemma UnitsEqual(p: Quat, q: Quat)
    requires Unit(p) && Unit(q) && Dot(p, q) == 1.0
    ensures p == q
  {
    hide Dot;
    DotSelf(p);
    DotSelf(q);
    DotParts(p, q);
    Difference(p.w, q.w); Difference(p.x, q.x); Difference(p.y, q.y); Difference(p.z, q.z);
    R.SquaresZero(p.w - q.w, p.x - q.x, p.y - q.y, p.z - q.z);
  }

  lemma Difference(a: real, b: real)
    ensures (a - b) * (a - b) == a * a - 2.0 * (a * b) + b * b
  {}

  /** Sign matching keeps the rotation up to sign and never leaves the hemisphere of the
      reference. */
  lemma SignCompatible(q: Quat, reference: Quat)
    ensures var r := MakeSignCompatible(q, reference);
      && (r == q || r == Neg(q))
      && Dot(r, reference) >= 0.0
      && (Dot(q, reference) >= 0.0 ==> r == q)
      && (Unit(q) ==> Unit(r))
  {
    DotNeg(q, reference);
    DotNeg(q, q);
  }

  lemma DotNeg(a: Quat, b: Quat)
    ensures Dot(Neg(a), b) == -Dot(a, b) && Dot(b, Neg(a)) == -Dot(b, a) && Dot(Neg(a), Neg(b)) == Dot(a, b)
  {}
}
