/** Quaternions of rotation matrices (landmark_pose.py) and matrices of quaternions. */
module MatrixQuaternion {
  import opened Prelude
  import R = Reals
  import V = Vectors
  import Q = Quaternions
  import A = AxisAngle
  import opened Matrices

  const EPSILON := 0.00000001

  /** Entry `m[row, column]`. */
  function At(m: Mat, row: nat, column: nat): real
    requires row < 3 && column < 3
  {
    var c := if column == 0 then m.x else if column == 1 then m.y else m.z;
    if row == 0 then c.x else if row == 1 then c.y else c.z
  }

  function Trace(m: Mat): real { m.x.x + m.y.y + m.z.z }

  /** The branch for a positive trace. */
  function FromPositiveTrace(lib: R.Library, m: Mat): Q.Quat {
    var scale := 2.0 * lib.sqrt(Trace(m) + 1.0);
    Q.Quat(0.25 * scale,
           R.Quotient(m.y.z - m.z.y, scale),
           R.Quotient(m.z.x - m.x.z, scale),
           R.Quotient(m.x.y - m.y.x, scale))
  }

  /** The first index of a largest diagonal entry. */
  function Dominant(m: Mat): nat {
    if m.x.x >= m.y.y && m.x.x >= m.z.z then 0 else if m.y.y >= m.z.z then 1 else 2
  }

  /** Four times the square of the component the dominant entry belongs to. */
  function DominantSquare(m: Mat): real {
    var i := Dominant(m);
    1.0 + At(m, i, i) - At(m, (i + 1) % 3, (i + 1) % 3) - At(m, (i + 2) % 3, (i + 2) % 3)
  }

  function DominantScale(lib: R.Library, m: Mat): real {
    2.0 * lib.sqrt(if DominantSquare(m) > EPSILON then DominantSquare(m) else EPSILON)
  }

  /** The branch for the dominant diagonal entry, spelt out per axis. */
  function FromDominantDiagonal(lib: R.Library, m: Mat): Q.Quat {
    var s := DominantScale(lib, m);
    if Dominant(m) == 0 then
      Q.Quat(R.Quotient(m.y.z - m.z.y, s), 0.25 * s, R.Quotient(m.x.y + m.y.x, s), R.Quotient(m.x.z + m.z.x, s))
    else if Dominant(m) == 1 then
      Q.Quat(R.Quotient(m.z.x - m.x.z, s), R.Quotient(m.x.y + m.y.x, s), 0.25 * s, R.Quotient(m.y.z + m.z.y, s))
    else
      Q.Quat(R.Quotient(m.x.y - m.y.x, s), R.Quotient(m.x.z + m.z.x, s), R.Quotient(m.y.z + m.z.y, s), 0.25 * s)
  }

  /** The branch as the program computes it, with index arithmetic and array slots. */
  method QuaternionFromDominantDiagonal(lib: R.Library, m: Mat) returns (q: Q.Quat)
    ensures q == FromDominantDiagonal(lib, m)
  {
    hide R.Quotient;
    var index := Dominant(m);
    var j, k := (index + 1) % 3, (index + 2) % 3;
    var square := 1.0 + At(m, index, index) - At(m, j, j) - At(m, k, k);
    var scale := 2.0 * lib.sqrt(if square > EPSILON then square else EPSILON);
    assert scale == DominantScale(lib, m);
    hide DominantScale; hide Dominant;
    assert (index, j, k) == (0, 1, 2) || (index, j, k) == (1, 2, 0) || (index, j, k) == (2, 0, 1);
    var quaternion := new real[4](_ => 0.0);
    quaternion[index + 1] := 0.25 * scale;
    quaternion[0] := R.Quotient(At(m, k, j) - At(m, j, k), scale);
    quaternion[j + 1] := R.Quotient(At(m, j, index) + At(m, index, j), scale);
    quaternion[k + 1] := R.Quotient(At(m, k, index) + At(m, index, k), scale);
    q := Q.Quat(quaternion[0], quaternion[1], quaternion[2], quaternion[3]);
  }

  function MatrixToQuaternion(lib: R.Library, m: Mat): Q.Quat {
    if Trace(m) > 0.0 then FromPositiveTrace(lib, m) else FromDominantDiagonal(lib, m)
  }

  function MatrixToAxisAngle(lib: R.Library, m: Mat): Result<V.Vec> {
    A.FromQuaternion(lib, MatrixToQuaternion(lib, m))
  }

  /** The rotation matrix of a unit quaternion. */
  function RotationOf(q: Q.Quat): Mat {
    Mat(V.Vec(1.0 - 2.0 * (q.y * q.y + q.z * q.z), 2.0 * (q.x * q.y + q.w * q.z), 2.0 * (q.x * q.z - q.w * q.y)),
        V.Vec(2.0 * (q.x * q.y - q.w * q.z), 1.0 - 2.0 * (q.x * q.x + q.z * q.z), 2.0 * (q.y * q.z + q.w * q.x)),
        V.Vec(2.0 * (q.x * q.z + q.w * q.y), 2.0 * (q.y * q.z - q.w * q.x), 1.0 - 2.0 * (q.x * q.x + q.y * q.y)))
  }

  /** The four diagonal and six mixed values of all products of two components, four times,
      read off a rotation matrix. */
  datatype Products = Products(ww: real, xx: real, yy: real, zz: real, wx: real, wy: real, wz: real, xy: real,
                               xz: real, yz: real)

  function ProductsOf(m: Mat): Products {
    Products(1.0 + m.x.x + m.y.y + m.z.z, 1.0 + m.x.x - m.y.y - m.z.z, 1.0 - m.x.x + m.y.y - m.z.z,
             1.0 - m.x.x - m.y.y + m.z.z,
             m.y.z - m.z.y, m.z.x - m.x.z, m.x.y - m.y.x, m.x.y + m.y.x, m.x.z + m.z.x, m.y.z + m.z.y)
  }

  predicate Matches(q: Q.Quat, p: Products) {
    && 4.0 * (q.w * q.w) == p.ww && 4.0 * (q.x * q.x) == p.xx && 4.0 * (q.y * q.y) == p.yy && 4.0 * (q.z * q.z) == p.zz
    && 4.0 * (q.w * q.x) == p.wx && 4.0 * (q.w * q.y) == p.wy && 4.0 * (q.w * q.z) == p.wz
    && 4.0 * (q.x * q.y) == p.xy && 4.0 * (q.x * q.z) == p.xz && 4.0 * (q.y * q.z) == p.yz
  }

  /** The products determine a unit quaternion's matrix, and are determined by it. */
  lemma ProductsAreRotation(q: Q.Quat, m: Mat)
    ensures Matches(q, ProductsOf(m)) <==> Q.Unit(q) && RotationOf(q) == m
  {
    hide *;
    UnitProducts(q);
    MatchesProducts(q, ProductsOf(m));
    RotationProducts(q);
    Readings(ComponentProducts(q), m);
  }

  function ComponentProducts(q: Q.Quat): Products {
    Products(q.w * q.w, q.x * q.x, q.y * q.y, q.z * q.z, q.w * q.x, q.w * q.y, q.w * q.z, q.x * q.y, q.x * q.z,
             q.y * q.z)
  }

  function FourTimes(t: Products): Products {
    Products(4.0 * t.ww, 4.0 * t.xx, 4.0 * t.yy, 4.0 * t.zz,
             4.0 * t.wx, 4.0 * t.wy, 4.0 * t.wz, 4.0 * t.xy, 4.0 * t.xz, 4.0 * t.yz)
  }

  function MatrixOf(t: Products): Mat {
    Mat(V.Vec(1.0 - 2.0 * (t.yy + t.zz), 2.0 * (t.xy + t.wz), 2.0 * (t.xz - t.wy)),
        V.Vec(2.0 * (t.xy - t.wz), 1.0 - 2.0 * (t.xx + t.zz), 2.0 * (t.yz + t.wx)),
        V.Vec(2.0 * (t.xz + t.wy), 2.0 * (t.yz - t.wx), 1.0 - 2.0 * (t.xx + t.yy)))
  }

  function Total(t: Products): real { t.ww + t.xx + t.yy + t.zz }

  lemma UnitProducts(q: Q.Quat)
    ensures Q.Unit(q) <==> Total(ComponentProducts(q)) == 1.0
  {
    hide Q.Dot;
    Q.DotSelf(q);
  }

  lemma MatchesProducts(q: Q.Quat, p: Products)
    ensures Matches(q, p) <==> FourTimes(ComponentProducts(q)) == p
  {}

  lemma RotationProducts(q: Q.Quat)
    ensures RotationOf(q) == MatrixOf(ComponentProducts(q))
  {}

  lemma Readings(t: Products, m: Mat)
    ensures FourTimes(t) == ProductsOf(m) <==> Total(t) == 1.0 && MatrixOf(t) == m
  {}

  /* ---- every principal product of a rotation matrix is of rank one ---- */

  /* The facts of degree two that hold of the nine entries of a rotation. */

  predicate ColumnFacts(a: real, b: real, c: real, d: real, e: real, f: real, g: real, h: real, i: real) {
    && a * a + d * d + g * g == 1.0 && b * b + e * e + h * h == 1.0 && c * c + f * f + i * i == 1.0
    && a * b + d * e + g * h == 0.0 && b * c + e * f + h * i == 0.0 && c * a + f * d + i * g == 0.0
  }

  predicate RowFacts(a: real, b: real, c: real, d: real, e: real, f: real, g: real, h: real, i: real) {
    && a * a + b * b + c * c == 1.0 && d * d + e * e + f * f == 1.0 && g * g + h * h + i * i == 1.0
    && a * d + b * e + c * f == 0.0 && d * g + e * h + f * i == 0.0 && g * a + h * b + i * c == 0.0
  }

  predicate MinorFacts(a: real, b: real, c: real, d: real, e: real, f: real, g: real, h: real, i: real) {
    && c == d * h - g * e && f == g * b - a * h && i == a * e - d * b
    && a == e * i - h * f && d == h * c - b * i && g == b * f - e * c
    && b == f * g - i * d && e == i * a - c * g && h == c * d - f * a
  }

  predicate Entries(a: real, b: real, c: real, d: real, e: real, f: real, g: real, h: real, i: real) {
    && ColumnFacts(a, b, c, d, e, f, g, h, i) && RowFacts(a, b, c, d, e, f, g, h, i)
         && MinorFacts(a, b, c, d, e, f, g, h, i)
  }

  lemma EntriesOf(m: Mat)
    requires IsRotation(m)
    ensures Entries(m.x.x, m.y.x, m.z.x, m.x.y, m.y.y, m.z.y, m.x.z, m.y.z, m.z.z)
  {
    hide V.Dot; hide V.Cross; hide Transpose; hide ColumnFacts; hide RowFacts; hide MinorFacts;
    TransposeRotation(m);
    ColumnsCross(m);
    ColumnsOf(m);
    RowsOf(m, Transpose(m));
    MinorsOf(m);
  }

  lemma ColumnsOf(m: Mat)
    requires IsRotation(m)
    ensures ColumnFacts(m.x.x, m.y.x, m.z.x, m.x.y, m.y.y, m.z.y, m.x.z, m.y.z, m.z.z)
  {
    hide V.Dot; hide V.Cross;
    V.DotParts(m.x, m.x); V.DotParts(m.y, m.y); V.DotParts(m.z, m.z);
    V.DotParts(m.x, m.y); V.DotParts(m.y, m.z); V.DotParts(m.z, m.x);
  }

  lemma MinorsOf(m: Mat)
    requires m.z == V.Cross(m.x, m.y) && m.x == V.Cross(m.y, m.z) && m.y == V.Cross(m.z, m.x)
    ensures MinorFacts(m.x.x, m.y.x, m.z.x, m.x.y, m.y.y, m.z.y, m.x.z, m.y.z, m.z.z)
  {
    hide V.Cross;
    V.CrossParts(m.x, m.y); V.CrossParts(m.y, m.z); V.CrossParts(m.z, m.x);
  }

  lemma RowsOf(m: Mat, t: Mat)
    requires t == Transpose(m) && IsRotation(t)
    ensures RowFacts(m.x.x, m.y.x, m.z.x, m.x.y, m.y.y, m.z.y, m.x.z, m.y.z, m.z.z)
  {
    hide V.Dot; hide V.Cross;
    RowDot(t.x, t.x, m.x.x, m.y.x, m.z.x, m.x.x, m.y.x, m.z.x);
    RowDot(t.y, t.y, m.x.y, m.y.y, m.z.y, m.x.y, m.y.y, m.z.y);
    RowDot(t.z, t.z, m.x.z, m.y.z, m.z.z, m.x.z, m.y.z, m.z.z);
    RowDot(t.x, t.y, m.x.x, m.y.x, m.z.x, m.x.y, m.y.y, m.z.y);
    RowDot(t.y, t.z, m.x.y, m.y.y, m.z.y, m.x.z, m.y.z, m.z.z);
    RowDot(t.z, t.x, m.x.z, m.y.z, m.z.z, m.x.x, m.y.x, m.z.x);
  }

  lemma RowDot(u: V.Vec, v: V.Vec, a: real, b: real, c: real, p: real, q: real, r: real)
    requires u == V.Vec(a, b, c) && v == V.Vec(p, q, r)
    ensures V.Dot(u, v) == a * p + b * q + c * r
  {}

  /** The six minors of the symmetric product table that contain one diagonal value `kk`. */
  predicate Pivot(kk: real, ka: real, kb: real, kc: real, aa: real, bb: real, cc: real, ab: real, ac: real, bc: real) {
    && ka * ka == kk * aa && kb * kb == kk * bb && kc * kc == kk * cc
    && ka * kb == kk * ab && ka * kc == kk * ac && kb * kc == kk * bc
  }

  lemma PivotWParts(a: real, b: real, c: real, d: real, e: real, f: real, g: real, h: real, i: real)
    requires Entries(a, b, c, d, e, f, g, h, i)
    ensures (h - f) * (h - f) == (1.0 + a + e + i) * (1.0 + a - e - i)
    ensures (c - g) * (c - g) == (1.0 + a + e + i) * (1.0 - a + e - i)
    ensures (d - b) * (d - b) == (1.0 + a + e + i) * (1.0 - a - e + i)
    ensures (h - f) * (c - g) == (1.0 + a + e + i) * (d + b)
    ensures (h - f) * (d - b) == (1.0 + a + e + i) * (g + c)
    ensures (c - g) * (d - b) == (1.0 + a + e + i) * (h + f)
  {}

  lemma PivotXParts(a: real, b: real, c: real, d: real, e: real, f: real, g: real, h: real, i: real)
    requires Entries(a, b, c, d, e, f, g, h, i)
    ensures (h - f) * (h - f) == (1.0 + a - e - i) * (1.0 + a + e + i)
    ensures (d + b) * (d + b) == (1.0 + a - e - i) * (1.0 - a + e - i)
    ensures (g + c) * (g + c) == (1.0 + a - e - i) * (1.0 - a - e + i)
    ensures (h - f) * (d + b) == (1.0 + a - e - i) * (c - g)
    ensures (h - f) * (g + c) == (1.0 + a - e - i) * (d - b)
    ensures (d + b) * (g + c) == (1.0 + a - e - i) * (h + f)
  {}

  lemma PivotYParts(a: real, b: real, c: real, d: real, e: real, f: real, g: real, h: real, i: real)
    requires Entries(a, b, c, d, e, f, g, h, i)
    ensures (c - g) * (c - g) == (1.0 - a + e - i) * (1.0 + a + e + i)
    ensures (d + b) * (d + b) == (1.0 - a + e - i) * (1.0 + a - e - i)
    ensures (h + f) * (h + f) == (1.0 - a + e - i) * (1.0 - a - e + i)
    ensures (c - g) * (d + b) == (1.0 - a + e - i) * (h - f)
    ensures (c - g) * (h + f) == (1.0 - a + e - i) * (d - b)
    ensures (d + b) * (h + f) == (1.0 - a + e - i) * (g + c)
  {}

  lemma PivotZParts(a: real, b: real, c: real, d: real, e: real, f: real, g: real, h: real, i: real)
    requires Entries(a, b, c, d, e, f, g, h, i)
    ensures (d - b) * (d - b) == (1.0 - a - e + i) * (1.0 + a + e + i)
    ensures (g + c) * (g + c) == (1.0 - a - e + i) * (1.0 + a - e - i)
    ensures (h + f) * (h + f) == (1.0 - a - e + i) * (1.0 - a + e - i)
    ensures (d - b) * (g + c) == (1.0 - a - e + i) * (h - f)
    ensures (d - b) * (h + f) == (1.0 - a - e + i) * (c - g)
    ensures (g + c) * (h + f) == (1.0 - a - e + i) * (d + b)
  {}

  lemma PivotW(m: Mat, p: Products)
    requires IsRotation(m) && p == ProductsOf(m)
    ensures Pivot(p.ww, p.wx, p.wy, p.wz, p.xx, p.yy, p.zz, p.xy, p.xz, p.yz)
  {
    hide IsRotation; hide Entries;
    EntriesOf(m);
    PivotWParts(m.x.x, m.y.x, m.z.x, m.x.y, m.y.y, m.z.y, m.x.z, m.y.z, m.z.z);
  }

  lemma Spread(kk: real, ka: real, kb: real, kc: real, aa: real, bb: real, cc: real, ab: real, ac: real, bc: real,
               s: real, u: real, va: real, vb: real, vc: real)
    requires Pivot(kk, ka, kb, kc, aa, bb, cc, ab, ac, bc)
    requires kk > 0.0 && s * s == 4.0 * kk && u == 0.25 * s && s * va == ka && s * vb == kb && s * vc == kc
    ensures 4.0 * (u * u) == kk && 4.0 * (u * va) == ka && 4.0 * (u * vb) == kb && 4.0 * (u * vc) == kc
    ensures 4.0 * (va * va) == aa && 4.0 * (vb * vb) == bb && 4.0 * (vc * vc) == cc
    ensures 4.0 * (va * vb) == ab && 4.0 * (va * vc) == ac && 4.0 * (vb * vc) == bc
  {
    assert 16.0 * (u * u) == s * s && 4.0 * (u * va) == s * va && 4.0 * (u * vb) == s * vb && 4.0 * (u * vc) == s * vc;
    Mixed(kk, ka, ka, aa, s, va, va); Mixed(kk, kb, kb, bb, s, vb, vb); Mixed(kk, kc, kc, cc, s, vc, vc);
    Mixed(kk, ka, kb, ab, s, va, vb); Mixed(kk, ka, kc, ac, s, va, vc); Mixed(kk, kb, kc, bc, s, vb, vc);
  }

  lemma Mixed(kk: real, ka: real, kb: real, ab: real, s: real, va: real, vb: real)
    requires kk > 0.0 && s * s == 4.0 * kk && s * va == ka && s * vb == kb && ka * kb == kk * ab
    ensures 4.0 * (va * vb) == ab
  {
    var w := va * vb;
    assert ka * kb == s * s * w by { assert ka * kb == (s * va) * (s * vb); }
    assert s * s * w == 4.0 * kk * w;
    assert kk * (4.0 * w - ab) == 0.0;
    R.ZeroProduct(kk, 4.0 * w - ab);
  }

  lemma PivotX(m: Mat, p: Products)
    requires IsRotation(m) && p == ProductsOf(m)
    ensures Pivot(p.xx, p.wx, p.xy, p.xz, p.ww, p.yy, p.zz, p.wy, p.wz, p.yz)
  {
    hide IsRotation; hide Entries;
    EntriesOf(m);
    PivotXParts(m.x.x, m.y.x, m.z.x, m.x.y, m.y.y, m.z.y, m.x.z, m.y.z, m.z.z);
  }

  lemma PivotY(m: Mat, p: Products)
    requires IsRotation(m) && p == ProductsOf(m)
    ensures Pivot(p.yy, p.wy, p.xy, p.yz, p.ww, p.xx, p.zz, p.wx, p.wz, p.xz)
  {
    hide IsRotation; hide Entries;
    EntriesOf(m);
    PivotYParts(m.x.x, m.y.x, m.z.x, m.x.y, m.y.y, m.z.y, m.x.z, m.y.z, m.z.z);
  }

  lemma PivotZ(m: Mat, p: Products)
    requires IsRotation(m) && p == ProductsOf(m)
    ensures Pivot(p.zz, p.wz, p.xz, p.yz, p.ww, p.xx, p.yy, p.wx, p.wy, p.xy)
  {
    hide IsRotation; hide Entries;
    EntriesOf(m);
    PivotZParts(m.x.x, m.y.x, m.z.x, m.x.y, m.y.y, m.z.y, m.x.z, m.y.z, m.z.z);
  }

  lemma PositiveTraceExact(lib: R.Library, m: Mat)
    requires R.Sound(lib) && IsRotation(m) && Trace(m) > 0.0
    ensures Matches(FromPositiveTrace(lib, m), ProductsOf(m))
  {
    hide R.Sound; hide IsRotation; hide R.Quotient; hide Pivot;
    var p, q := ProductsOf(m), FromPositiveTrace(lib, m);
    PivotW(m, p);
    var s := Scale(lib, p.ww);
    R.QuotientTimes(p.wx, s); R.QuotientTimes(p.wy, s); R.QuotientTimes(p.wz, s);
    assert Trace(m) + 1.0 == p.ww;
    Spread(p.ww, p.wx, p.wy, p.wz, p.xx, p.yy, p.zz, p.xy, p.xz, p.yz, s, q.w, q.x, q.y, q.z);
  }

  lemma Scale(lib: R.Library, kk: real) returns (s: real)
    requires R.Sound(lib) && kk > 0.0
    ensures s == 2.0 * lib.sqrt(kk) && s > 0.0 && s * s == 4.0 * kk
  {
    var r := R.Sqrt(lib, kk);
    hide R.Sound;
    R.ZeroProduct(r, r);
    s := 2.0 * r;
    assert s * s == 4.0 * (r * r);
  }

  /** With a trace of at most zero the square under the root is at least one, so the floor
      never changes a result that is used, and the divisor is at least two. */
  lemma FloorUnused(lib: R.Library, m: Mat)
    requires R.Sound(lib) && Trace(m) <= 0.0
    ensures DominantSquare(m) >= 1.0 && DominantScale(lib, m) == 2.0 * lib.sqrt(DominantSquare(m)) >= 2.0
  {
    assert DominantSquare(m) >= 1.0;
    hide DominantSquare;
    var r := R.Sqrt(lib, DominantSquare(m));
    hide R.Sound;
    R.Root(1.0, r);
  }

  lemma DominantExact(lib: R.Library, m: Mat)
    requires R.Sound(lib) && IsRotation(m) && Trace(m) <= 0.0
    ensures Matches(FromDominantDiagonal(lib, m), ProductsOf(m))
  {
    hide R.Sound; hide IsRotation; hide R.Quotient; hide Pivot; hide Matches; hide DominantScale;
    FloorUnused(lib, m);
    var kk := DominantSquare(m);
    var s := Scale(lib, kk);
    var p := ProductsOf(m);
    if Dominant(m) == 0 { AtX(m, p, s); } else if Dominant(m) == 1 { AtY(m, p, s); } else { AtZ(m, p, s); }
  }

  lemma AtX(m: Mat, p: Products, s: real)
    requires IsRotation(m) && p == ProductsOf(m) && p.xx > 0.0 && s > 0.0 && s * s == 4.0 * p.xx
    ensures Matches(Q.Quat(R.Quotient(m.y.z - m.z.y, s), 0.25 * s, R.Quotient(m.x.y + m.y.x, s),
                           R.Quotient(m.x.z + m.z.x, s)), p)
  {
    hide IsRotation; hide R.Quotient; hide Pivot;
    PivotX(m, p);
    R.QuotientTimes(p.wx, s); R.QuotientTimes(p.xy, s); R.QuotientTimes(p.xz, s);
    Spread(p.xx, p.wx, p.xy, p.xz, p.ww, p.yy, p.zz, p.wy, p.wz, p.yz, s,
           0.25 * s, R.Quotient(p.wx, s), R.Quotient(p.xy, s), R.Quotient(p.xz, s));
  }

  lemma AtY(m: Mat, p: Products, s: real)
    requires IsRotation(m) && p == ProductsOf(m) && p.yy > 0.0 && s > 0.0 && s * s == 4.0 * p.yy
    ensures Matches(Q.Quat(R.Quotient(m.z.x - m.x.z, s), R.Quotient(m.x.y + m.y.x, s), 0.25 * s,
                           R.Quotient(m.y.z + m.z.y, s)), p)
  {
    hide IsRotation; hide R.Quotient; hide Pivot;
    PivotY(m, p);
    R.QuotientTimes(p.wy, s); R.QuotientTimes(p.xy, s); R.QuotientTimes(p.yz, s);
    Spread(p.yy, p.wy, p.xy, p.yz, p.ww, p.xx, p.zz, p.wx, p.wz, p.xz, s,
           0.25 * s, R.Quotient(p.wy, s), R.Quotient(p.xy, s), R.Quotient(p.yz, s));
  }

  lemma AtZ(m: Mat, p: Products, s: real)
    requires IsRotation(m) && p == ProductsOf(m) && p.zz > 0.0 && s > 0.0 && s * s == 4.0 * p.zz
    ensures Matches(Q.Quat(R.Quotient(m.x.y - m.y.x, s), R.Quotient(m.x.z + m.z.x, s), R.Quotient(m.y.z + m.z.y, s),
                           0.25 * s), p)
  {
    hide IsRotation; hide R.Quotient; hide Pivot;
    PivotZ(m, p);
    R.QuotientTimes(p.wz, s); R.QuotientTimes(p.xz, s); R.QuotientTimes(p.yz, s);
    Spread(p.zz, p.wz, p.xz, p.yz, p.ww, p.xx, p.yy, p.wx, p.wy, p.xy, s,
           0.25 * s, R.Quotient(p.wz, s), R.Quotient(p.xz, s), R.Quotient(p.yz, s));
  }

  /** Exactness: for every rotation matrix the converter returns a unit quaternion whose
      rotation is that matrix, on whichever branch. */
  lemma MatrixToQuaternionExact(lib: R.Library, m: Mat)
    requires R.Sound(lib) && IsRotation(m)
    ensures Q.Unit(MatrixToQuaternion(lib, m)) && RotationOf(MatrixToQuaternion(lib, m)) == m
  {
    hide R.Sound; hide IsRotation; hide RotationOf; hide Q.Unit; hide FromPositiveTrace;
    hide FromDominantDiagonal; hide Matches; hide ProductsOf;
    var q := MatrixToQuaternion(lib, m);
    if Trace(m) > 0.0 { PositiveTraceExact(lib, m); } else { DominantExact(lib, m); }
    ProductsAreRotation(q, m);
  }

  /** The converse: a rotation determines its unit quaternion up to sign. */
  lemma RotationDeterminesQuaternion(p: Q.Quat, q: Q.Quat)
    requires Q.Unit(p) && Q.Unit(q) && RotationOf(p) == RotationOf(q)
    ensures p == q || p == Q.Neg(q)
  {
    hide Q.Dot; hide Q.Neg;
    hide RotationOf; hide ProductsOf; hide Matches;
    ProductsAreRotation(p, RotationOf(p));
    ProductsAreRotation(q, RotationOf(q));
    EqualProducts(p, q, ProductsOf(RotationOf(p)));
    Q.DotSelf(q);
    Q.DotParts(p, q);
    SameProducts(p.w, p.x, p.y, p.z, q.w, q.x, q.y, q.z, Q.Dot(p, q));
    Q.DotNeg(q, q); Q.DotNeg(q, p); Q.DotSymmetric(p, q);
    if Q.Dot(p, q) == 1.0 { Q.UnitsEqual(p, q); } else { Q.UnitsEqual(p, Q.Neg(q)); }
  }

  lemma EqualProducts(p: Q.Quat, q: Q.Quat, t: Products)
    requires Matches(p, t) && Matches(q, t)
    ensures p.w * p.w == q.w * q.w && p.x * p.x == q.x * q.x && p.y * p.y == q.y * q.y && p.z * p.z == q.z * q.z
    ensures p.w * p.x == q.w * q.x && p.w * p.y == q.w * q.y && p.w * p.z == q.w * q.z
    ensures p.x * p.y == q.x * q.y && p.x * p.z == q.x * q.z && p.y * p.z == q.y * q.z
  {}

  lemma SameProducts(pw: real, px: real, p2: real, pz: real, qw: real, qx: real, q2: real, qz: real, dot: real)
    requires dot == pw * qw + px * qx + p2 * q2 + pz * qz
    requires pw * pw == qw * qw && px * px == qx * qx && p2 * p2 == q2 * q2 && pz * pz == qz * qz
    requires pw * px == qw * qx && pw * p2 == qw * q2 && pw * pz == qw * qz
    requires px * p2 == qx * q2 && px * pz == qx * qz && p2 * pz == q2 * qz
    requires qw * qw + qx * qx + q2 * q2 + qz * qz == 1.0
    ensures dot == 1.0 || dot == -1.0
  {
    Term(pw, pw, qw, qw); Term(px, px, qx, qx); Term(p2, p2, q2, q2); Term(pz, pz, qz, qz);
    Term(pw, px, qw, qx); Term(pw, p2, qw, q2); Term(pw, pz, qw, qz);
    Term(px, p2, qx, q2); Term(px, pz, qx, qz); Term(p2, pz, q2, qz);
    SquareOfFour(pw, px, p2, pz, qw, qx, q2, qz, dot);
    SquareOfFour(qw, qx, q2, qz, qw, qx, q2, qz, 1.0);
    assert (dot - 1.0) * (dot + 1.0) == 0.0;
    R.ZeroProduct(dot - 1.0, dot + 1.0);
  }

  lemma Term(p: real, r: real, q: real, s: real)
    requires p * r == q * s
    ensures p * r * q * s == q * q * s * s
  {
    assert p * r * (q * s) == q * s * (q * s);
  }

  lemma SquareOfFour(a: real, b: real, c: real, d: real, p: real, q: real, r: real, s: real, t: real)
    requires t == a * p + b * q + c * r + d * s
    ensures t * t == a * a * p * p + b * b * q * q + c * c * r * r + d * d * s * s
      + 2.0 * (a * b * p * q) + 2.0 * (a * c * p * r) + 2.0 * (a * d * p * s)
      + 2.0 * (b * c * q * r) + 2.0 * (b * d * q * s) + 2.0 * (c * d * r * s)
  {}
}
