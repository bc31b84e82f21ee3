/** Three-dimensional vectors over the reals. */
module Vectors {
  import R = Reals

  datatype Vec = Vec(x: real, y: real, z: real)

  const ZERO := Vec(0.0, 0.0, 0.0)

  function FromRow(row: seq<real>): Vec
    requires |row| == 3
  {
    Vec(row[0], row[1], row[2])
  }

  function ToRow(a: Vec): seq<real> { [a.x, a.y, a.z] }

  function Plus(a: Vec, b: Vec): Vec { Vec(a.x + b.x, a.y + b.y, a.z + b.z) }

  function Sub(a: Vec, b: Vec): Vec { Vec(a.x - b.x, a.y - b.y, a.z - b.z) }

  function Times(s: real, a: Vec): Vec { Vec(s * a.x, s * a.y, s * a.z) }

  function Over(a: Vec, n: real): Vec
    requires n != 0.0
  {
    Vec(a.x / n, a.y / n, a.z / n)
  }

  function Dot(a: Vec, b: Vec): real { a.x * b.x + a.y * b.y + a.z * b.z }

  function Cross(a: Vec, b: Vec): Vec {
    Vec(a.y * b.z - a.z * b.y, a.z * b.x - a.x * b.z, a.x * b.y - a.y * b.x)
  }

  lemma DotSelf(a: Vec)
    ensures Dot(a, a) == a.x * a.x + a.y * a.y + a.z * a.z >= 0.0
  {}

  lemma TimesOver(a: Vec, n: real)
    requires n != 0.0
    ensures Times(n, Over(a, n)) == a
  {}

  lemma OverTimes(n: real, a: Vec)
    requires n != 0.0
    ensures Over(Times(n, a), n) == a
  {}

  lemma DotTimes(s: real, a: Vec, b: Vec)
    ensures Dot(Times(s, a), b) == s * Dot(a, b)
  {
    var t := Times(s, a);
    Distribute(t.x, t.y, t.z, s, a.x, a.y, a.z, b.x, b.y, b.z);
  }

  lemma Distribute(tx: real, t2: real, tz: real, s: real, ax: real, a2: real, az: real, bx: real, b2: real, bz: real)
    requires tx == s * ax && t2 == s * a2 && tz == s * az
    ensures tx * bx + t2 * b2 + tz * bz == s * (ax * bx + a2 * b2 + az * bz)
  {
    assert tx * bx == s * ax * bx && t2 * b2 == s * a2 * b2 && tz * bz == s * az * bz;
  }

  lemma DotSymmetric(a: Vec, b: Vec)
    ensures Dot(a, b) == Dot(b, a)
  {}

  /** Stretching by `s` multiplies the squared length by `s * s`. */
  lemma Stretch(s: real, a: Vec)
    ensures Dot(Times(s, a), Times(s, a)) == s * s * Dot(a, a)
  {
    hide *;
    var t := Times(s, a);
    DotTimes(s, a, t);
    DotSymmetric(a, t);
    DotTimes(s, a, a);
    assert s * Dot(a, t) == s * (s * Dot(a, a));
  }

  /** A vector divided by its length has length one. */
  lemma OverLength(a: Vec, n: real)
    requires n != 0.0 && n * n == Dot(a, a)
    ensures Dot(Over(a, n), Over(a, n)) == 1.0
  {
    hide *;
    var u := Over(a, n);
    TimesOver(a, n);
    Stretch(n, u);
    R.CancelSquare(n, Dot(u, u), Dot(a, a));
  }

  lemma DotPlus(a: Vec, b: Vec, c: Vec)
    ensures Dot(Plus(a, b), c) == Dot(a, c) + Dot(b, c)
  {
    var t := Plus(a, b);
    assert t.x * c.x == a.x * c.x + b.x * c.x && t.y * c.y == a.y * c.y + b.y * c.y
      && t.z * c.z == a.z * c.z + b.z * c.z;
  }

  /** Lagrange's identity. */
  lemma Lagrange(u: Vec, v: Vec)
    ensures Dot(u, u) * Dot(v, v) == Dot(u, v) * Dot(u, v) + Dot(Cross(u, v), Cross(u, v))
  {
    hide Dot; hide Cross;
    var c := Cross(u, v);
    CrossParts(u, v);
    DotParts(u, u); DotParts(v, v); DotParts(u, v); DotParts(c, c);
    LagrangeParts(u.x, u.y, u.z, v.x, v.y, v.z, c.x, c.y, c.z, Dot(u, u), Dot(v, v), Dot(u, v));
  }

  lemma DotParts(a: Vec, b: Vec)
    ensures Dot(a, b) == a.x * b.x + a.y * b.y + a.z * b.z
  {}

  lemma CrossParts(a: Vec, b: Vec)
    ensures Cross(a, b).x == a.y * b.z - a.z * b.y
    ensures Cross(a, b).y == a.z * b.x - a.x * b.z
    ensures Cross(a, b).z == a.x * b.y - a.y * b.x
  {}

  lemma LagrangeParts(a: real, b: real, c: real, p: real, q: real, r: real, x: real, y: real, z: real,
                      uu: real, vv: real, uv: real)
    requires x == b * r - c * q && y == c * p - a * r && z == a * q - b * p
    requires uu == a * a + b * b + c * c && vv == p * p + q * q + r * r && uv == a * p + b * q + c * r
    ensures uu * vv == uv * uv + (x * x + y * y + z * z)
  {
    MinusSquare(x, b, r, c, q);
    MinusSquare(y, c, p, a, r);
    MinusSquare(z, a, q, b, p);
    SumSquare(uv, a, p, b, q, c, r);
    NormProduct(uu, vv, a, b, c, p, q, r);
  }

  lemma MinusSquare(x: real, b: real, r: real, c: real, q: real)
    requires x == b * r - c * q
    ensures x * x == b * b * r * r - 2.0 * (b * r * c * q) + c * c * q * q
  {}

  lemma SumSquare(t: real, a: real, p: real, b: real, q: real, c: real, r: real)
    requires t == a * p + b * q + c * r
    ensures t * t == a * a * p * p + b * b * q * q + c * c * r * r
                   + 2.0 * (a * p * b * q) + 2.0 * (a * p * c * r) + 2.0 * (b * q * c * r)
  {}

  lemma NormProduct(uu: real, vv: real, a: real, b: real, c: real, p: real, q: real, r: real)
    requires uu == a * a + b * b + c * c && vv == p * p + q * q + r * r
    ensures uu * vv == a * a * p * p + a * a * q * q + a * a * r * r + b * b * p * p + b * b * q * q + b * b * r * r
                     + c * c * p * p + c * c * q * q + c * c * r * r
  {}
}
