/** Conversion between Rodrigues vectors and quaternions (rotation.py). */
module AxisAngle {
  import opened Prelude
  import R = Reals
  import V = Vectors
  import Q = Quaternions
  import Trigonometry

  function Compose(w: real, v: V.Vec): Q.Quat { Q.Quat(w, v.x, v.y, v.z) }

  function VectorPart(q: Q.Quat): V.Vec { V.Vec(q.x, q.y, q.z) }

  /** The unit quaternion of an axis scaled by an angle; a tiny vector maps to identity. */
  function ToQuaternion(m: R.Library, v: V.Vec): Q.Quat {
    var angle := m.sqrt(V.Dot(v, v));
    if angle < Q.ZERO_ANGLE then Q.IDENTITY
    else
      var axis := V.Over(v, angle);
      var half := angle / 2.0;
      Compose(m.cos(half), V.Times(m.sin(half), axis))
  }

  /** The sine of half the rotation angle, as the converter computes it. */
  function HalfSine(m: R.Library, w: real): real {
    m.sqrt(if 1.0 - w * w > 0.0 then 1.0 - w * w else 0.0)
  }

  /** Of `q` and `-q`, the one with a non-negative real part. */
  function ShortWay(q: Q.Quat): Q.Quat { if q.w < 0.0 then Q.Neg(q) else q }

  /** The Rodrigues vector of a quaternion taken the short way round; a zero norm raises. */
  function FromQuaternion(m: R.Library, quaternion: Q.Quat): Result<V.Vec> {
    var norm := m.sqrt(Q.Dot(quaternion, quaternion));
    if norm < Q.ZERO_ANGLE then Err("zero-norm quaternion cannot be converted to axis-angle")
    else
      var p := ShortWay(Q.Over(quaternion, norm));
      var w := if p.w > 1.0 then 1.0 else p.w;
      var sine := HalfSine(m, w);
      if sine < Q.ZERO_ANGLE then Ok(V.ZERO)
      else Ok(V.Times(2.0 * m.acos(w), V.Over(VectorPart(p), sine)))
  }

  lemma ComposeDot(w: real, v: V.Vec)
    ensures Q.Dot(Compose(w, v), Compose(w, v)) == w * w + V.Dot(v, v)
  {}

  lemma ComposeParts(q: Q.Quat)
    ensures Compose(q.w, VectorPart(q)) == q
    ensures Q.Dot(q, q) == q.w * q.w + V.Dot(VectorPart(q), VectorPart(q))
  {}

  /** Every Rodrigues vector becomes a unit quaternion. */
  lemma ToQuaternionUnit(m: R.Library, v: V.Vec)
    requires R.Sound(m)
    ensures Q.Unit(ToQuaternion(m, v))
  {
    hide R.Sound; hide V.Dot; hide V.Over; hide V.Times; hide Q.Dot; hide Compose;
    V.DotSelf(v);
    var angle := R.Sqrt(m, V.Dot(v, v));
    if angle >= Q.ZERO_ANGLE {
      var axis, s := V.Over(v, angle), m.sin(angle / 2.0);
      V.OverLength(v, angle);
      V.Stretch(s, axis);
      R.Pythagoras(m, angle / 2.0);
      assert s * s * V.Dot(axis, axis) == s * s;
      ComposeDot(m.cos(angle / 2.0), V.Times(s, axis));
    } else {
      Q.DotSelf(Q.IDENTITY);
    }
  }

  /** The quaternion turns about the vector by its length; below the cut-off not at all. */
  lemma ToQuaternionExactly(m: R.Library, v: V.Vec)
    requires R.Sound(m)
    ensures var q, angle := ToQuaternion(m, v), m.sqrt(V.Dot(v, v));
      if angle < 0.000000000001 then q == Q.Quat(1.0, 0.0, 0.0, 0.0)
      else
        && q.w == m.cos(angle / 2.0)
        && V.Times(angle, V.Vec(q.x, q.y, q.z)) == V.Times(m.sin(angle / 2.0), v)
  {
    hide R.Sound; hide V.Dot;
    var angle := m.sqrt(V.Dot(v, v));
    if angle >= Q.ZERO_ANGLE {
      var axis, s := V.Over(v, angle), m.sin(angle / 2.0);
      V.TimesOver(v, angle);
      Exchanged(angle, s, axis);
      hide V.Over; hide V.Times;
    }
  }

  lemma Exchanged(a: real, b: real, v: V.Vec)
    ensures V.Times(a, V.Times(b, v)) == V.Times(b, V.Times(a, v))
  {
    Swap(a, b, v.x); Swap(a, b, v.y); Swap(a, b, v.z);
  }

  lemma Swap(a: real, b: real, x: real)
    ensures a * (b * x) == b * (a * x)
  {}

  lemma ShortWayUnit(q: Q.Quat)
    requires Q.Unit(q)
    ensures Q.Unit(ShortWay(q)) && 0.0 <= ShortWay(q).w <= 1.0
  {
    hide Q.Dot;
    Q.DotNeg(q, q);
    var p := ShortWay(q);
    Q.DotSelf(p);
    Below(p.w, p.x, p.y, p.z);
  }

  lemma Below(w: real, x: real, y: real, z: real)
    requires w >= 0.0 && w * w + x * x + y * y + z * z == 1.0
    ensures w <= 1.0
  {
    if w > 1.0 { R.Square(1.0, w); }
  }

  /** The half sine of a unit quaternion is the length of its vector part. */
  lemma Sine(m: R.Library, p: Q.Quat) returns (sine: real)
    requires R.Sound(m) && Q.Unit(p) && 0.0 <= p.w <= 1.0
    ensures sine == HalfSine(m, p.w) == m.sin(m.acos(p.w)) >= 0.0
    ensures sine * sine == V.Dot(VectorPart(p), VectorPart(p))
    ensures m.cos(m.acos(p.w)) == p.w && sine <= m.acos(p.w)
  {
    hide R.Sound; hide Q.Dot; hide V.Dot; hide VectorPart;
    ComposeParts(p);
    R.Acos(m, p.w);
    R.SinNonNegative(m, m.acos(p.w));
    R.Pythagoras(m, m.acos(p.w));
    sine := m.sin(m.acos(p.w));
    CosineSquare(m, p.w, sine);
  }

  lemma CosineSquare(m: R.Library, w: real, sine: real)
    requires R.Sound(m) && sine >= 0.0 && sine * sine + w * w == 1.0
    ensures HalfSine(m, w) == sine
  {
    hide R.Sound;
    assert 1.0 - w * w == sine * sine >= 0.0;
    R.SqrtUnique(m, if 1.0 - w * w > 0.0 then 1.0 - w * w else 0.0, sine);
  }

  /** There and back: a unit quaternion comes back as its short-way representative, except
      that a rotation inside the cut-off comes back as exactly no rotation. */
  lemma RoundTrip(m: R.Library, q: Q.Quat)
    requires R.Sound(m) && Q.Unit(q)
    ensures FromQuaternion(m, q).Ok?
    ensures var back := ToQuaternion(m, FromQuaternion(m, q).value);
      && (HalfSine(m, ShortWay(q).w) >= Q.ZERO_ANGLE ==> back == ShortWay(q))
      && (HalfSine(m, ShortWay(q).w) < Q.ZERO_ANGLE ==> back == Q.IDENTITY)
  {
    hide R.Sound; hide Q.Dot; hide Q.Over; hide V.Dot; hide V.Over; hide V.Times;
    hide HalfSine; hide ShortWay; hide VectorPart; hide Compose;
    R.SqrtUnique(m, 1.0, 1.0);
    Q.OverOne(q);
    ShortWayUnit(q);
    var p := ShortWay(q);
    var sine := Sine(m, p);
    if sine < Q.ZERO_ANGLE {
      V.DotSelf(V.ZERO);
      R.SqrtUnique(m, 0.0, 0.0);
    } else {
      var angle, axis := 2.0 * m.acos(p.w), V.Over(VectorPart(p), sine);
      V.OverLength(VectorPart(p), sine);
      V.Stretch(angle, axis);
      assert angle * angle * V.Dot(axis, axis) == angle * angle;
      R.SqrtUnique(m, V.Dot(V.Times(angle, axis), V.Times(angle, axis)), angle);
      V.OverTimes(angle, axis);
      assert angle / 2.0 == m.acos(p.w);
      V.TimesOver(VectorPart(p), sine);
      ComposeParts(p);
    }
  }

  /** Any quaternion is read as the unit one along it; one too short to have a direction raises. */
  lemma FromQuaternionNormalizes(m: R.Library, q: Q.Quat)
    requires R.Sound(m)
    ensures FromQuaternion(m, q).Ok? <==> m.sqrt(Q.Dot(q, q)) >= 0.000000000001
    ensures Q.Normalized(m, q).Ok? ==> FromQuaternion(m, q) == FromQuaternion(m, Q.Normalized(m, q).value)
  {
    hide R.Sound; hide Q.Dot; hide Q.Over; hide HalfSine; hide ShortWay;
    Q.NormalizedResult(m, q);
    if Q.Normalized(m, q).Ok? {
      R.SqrtUnique(m, 1.0, 1.0);
      Q.OverOne(Q.Normalized(m, q).value);
    }
  }

  /** The vector is never longer than the half turn. */
  lemma ShortestVector(m: R.Library, q: Q.Quat)
    requires R.Sound(m) && Q.Unit(q)
    ensures FromQuaternion(m, q).Ok?
    ensures var v := FromQuaternion(m, q).value; V.Dot(v, v) <= m.pi * m.pi
  {
    hide R.Sound; hide Q.Dot; hide Q.Over; hide V.Dot; hide V.Over; hide V.Times; hide HalfSine; hide ShortWay;
    hide VectorPart;
    R.SqrtUnique(m, 1.0, 1.0);
    Q.OverOne(q);
    ShortWayUnit(q);
    var p := ShortWay(q);
    var sine := Sine(m, p);
    if sine < Q.ZERO_ANGLE {
      V.DotSelf(V.ZERO);
      R.SquareNonNegative(m.pi);
    } else {
      var angle, axis := 2.0 * m.acos(p.w), V.Over(VectorPart(p), sine);
      V.OverLength(VectorPart(p), sine);
      V.Stretch(angle, axis);
      R.Acos(m, p.w);
      assert angle / 2.0 == m.acos(p.w);
      Trigonometry.RightAngle(m, p.w, angle);
      AtMostSquare(angle, m.pi, V.Dot(axis, axis));
    }
  }

  lemma AtMostSquare(a: real, b: real, one: real)
    requires 0.0 <= a <= b && one == 1.0
    ensures a * a * one <= b * b
  {
    if a < b { R.Square(a, b); }
  }
}
