/** Orthonormal frames from two hint directions (landmark_pose.py). */
module HintFrames {
  import opened Prelude
  import R = Reals
  import V = Vectors
  import opened Matrices
  import opened MatrixQuaternion

  function Length(lib: R.Library, v: V.Vec): real { lib.sqrt(V.Dot(v, v)) }

  /** A vector divided by its length; a vector that is too short raises. */
  function UnitVector(lib: R.Library, v: V.Vec): Result<V.Vec> {
    var norm := Length(lib, v);
    if norm < EPSILON then Err("landmarks do not define a stable anatomical frame") else Ok(V.Over(v, norm))
  }

  /** The part of `hint` orthogonal to the unit vector `x`. */
  function Reject(x: V.Vec, hint: V.Vec): V.Vec { V.Sub(hint, V.Times(V.Dot(x, hint), x)) }

  function FrameFromXY(lib: R.Library, xHint: V.Vec, yHint: V.Vec): Result<Mat> {
    var x := UnitVector(lib, xHint);
    if x.Err? then Err(x.error)
    else
      var y := UnitVector(lib, Reject(x.value, yHint));
      if y.Err? then Err(y.error)
      else
        var z := UnitVector(lib, V.Cross(x.value, y.value));
        if z.Err? then Err(z.error)
        else
          var y' := UnitVector(lib, V.Cross(z.value, x.value));
          if y'.Err? then Err(y'.error) else Ok(Mat(x.value, y'.value, z.value))
  }

  function FrameFromXZ(lib: R.Library, xHint: V.Vec, zHint: V.Vec): Result<Mat> {
    var x := UnitVector(lib, xHint);
    if x.Err? then Err(x.error)
    else
      var z := UnitVector(lib, Reject(x.value, zHint));
      if z.Err? then Err(z.error)
      else
        var y := UnitVector(lib, V.Cross(z.value, x.value));
        if y.Err? then Err(y.error)
        else
          var z' := UnitVector(lib, V.Cross(x.value, y.value));
          if z'.Err? then Err(z'.error) else Ok(Mat(x.value, y.value, z'.value))
  }

  lemma UnitVectorResult(lib: R.Library, v: V.Vec)
    requires R.Sound(lib)
    ensures Length(lib, v) >= 0.0 && Length(lib, v) * Length(lib, v) == V.Dot(v, v)
    ensures UnitVector(lib, v).Ok? <==> Length(lib, v) >= 0.00000001
    ensures UnitVector(lib, v).Ok? ==>
      && V.Dot(UnitVector(lib, v).value, UnitVector(lib, v).value) == 1.0
      && V.Times(Length(lib, v), UnitVector(lib, v).value) == v
      && Length(lib, v) > 0.0
  {
    hide V.Dot; hide V.Over; hide V.Times;
    V.DotSelf(v);
    var norm := R.Sqrt(lib, V.Dot(v, v));
    hide R.Sound;
    if norm >= EPSILON {
      V.OverLength(v, norm);
      V.TimesOver(v, norm);
    }
  }

  /** Normalising a unit vector neither raises nor changes it. */
  lemma UnitVectorOfUnit(lib: R.Library, v: V.Vec)
    requires R.Sound(lib) && V.Dot(v, v) == 1.0
    ensures UnitVector(lib, v) == Ok(v)
  {
    hide V.Dot;
    R.SqrtUnique(lib, 1.0, 1.0);
    OverOne(v);
  }

  lemma OverOne(v: V.Vec)
    ensures V.Over(v, 1.0) == v
  {}

  /** The rejected part is orthogonal to `x`, and `hint` is its sum with a multiple of `x`. */
  lemma RejectOrthogonal(x: V.Vec, hint: V.Vec)
    requires V.Dot(x, x) == 1.0
    ensures V.Dot(x, Reject(x, hint)) == 0.0
    ensures V.Dot(Reject(x, hint), hint) == V.Dot(Reject(x, hint), Reject(x, hint))
  {
    hide V.Dot; hide V.Times; hide V.Sub;
    var s := V.Dot(x, hint);
    var t, r := V.Times(s, x), Reject(x, hint);
    DotSub(x, hint, t);
    V.DotSymmetric(x, t);
    V.DotTimes(s, x, x);
    DotSub(r, hint, t);
    V.DotSymmetric(r, t);
    V.DotTimes(s, x, r);
  }

  /** For orthonormal `x`, `y` the recomputed second axis is the first one. */
  lemma CrossBack(x: V.Vec, y: V.Vec)
    requires V.Dot(x, x) == 1.0 && V.Dot(y, y) == 1.0 && V.Dot(x, y) == 0.0
    ensures V.Cross(V.Cross(x, y), x) == y && V.Cross(y, V.Cross(x, y)) == x
    ensures V.Dot(V.Cross(x, y), V.Cross(x, y)) == 1.0
  {
    hide V.Dot; hide V.Cross; hide IsRotation;
    CompletedRotation(x, y);
    ColumnsCross(Mat(x, y, V.Cross(x, y)));
    V.Lagrange(x, y);
  }

  /** What a frame built from two hints is: defined exactly when the first hint and the rest
      of the second are long enough; then a proper rotation, with its first axis along the
      first hint and the second hint in the plane of its first two axes, on the side of the
      second. */
  lemma FrameXY(lib: R.Library, xHint: V.Vec, yHint: V.Vec)
    requires R.Sound(lib)
    ensures var x := V.Over(xHint, if Length(lib, xHint) < EPSILON then 1.0 else Length(lib, xHint));
      FrameFromXY(lib, xHint, yHint).Ok? <==> Length(lib, xHint) >= EPSILON && Length(lib, Reject(x, yHint)) >= EPSILON
    ensures FrameFromXY(lib, xHint, yHint).Ok? ==>
      var m := FrameFromXY(lib, xHint, yHint).value;
      && IsRotation(m)
      && V.Times(Length(lib, xHint), m.x) == xHint && Length(lib, xHint) > 0.0
      && V.Dot(m.y, yHint) > 0.0 && V.Dot(m.z, yHint) == 0.0
  {
    hide R.Sound; hide V.Dot; hide V.Cross; hide V.Times; hide V.Over; hide Reject; hide IsRotation;
    UnitVectorResult(lib, xHint);
    if Length(lib, xHint) >= EPSILON {
      var x := V.Over(xHint, Length(lib, xHint));
      var r := Reject(x, yHint);
      UnitVectorResult(lib, r);
      if Length(lib, r) >= EPSILON {
        var y := V.Over(r, Length(lib, r));
        Orthogonal(x, yHint, Length(lib, r), y);
        CrossBack(x, y);
        UnitVectorOfUnit(lib, V.Cross(x, y));
        UnitVectorOfUnit(lib, y);
        CompletedRotation(x, y);
        CrossOrthogonal(x, y);
        InPlane(x, yHint, Length(lib, r), y, V.Cross(x, y));
      }
    }
  }

  lemma Orthogonal(x: V.Vec, hint: V.Vec, n: real, y: V.Vec)
    requires V.Dot(x, x) == 1.0 && n > 0.0 && V.Times(n, y) == Reject(x, hint) && V.Dot(y, y) == 1.0
    ensures V.Dot(x, y) == 0.0 && V.Dot(y, hint) > 0.0
  {
    hide V.Dot; hide V.Times; hide Reject;
    var r := Reject(x, hint);
    RejectOrthogonal(x, hint);
    V.DotTimes(n, y, x);
    V.DotSymmetric(x, r); V.DotSymmetric(x, y);
    R.ZeroProduct(n, V.Dot(y, x));
    V.DotTimes(n, y, hint);
    V.Stretch(n, y);
    assert n * n * V.Dot(y, y) == n * n;
    SameFactor(n, V.Dot(y, hint));
  }

  /** What is orthogonal to `x` and to the rest of the hint is orthogonal to the hint. */
  lemma InPlane(x: V.Vec, hint: V.Vec, n: real, y: V.Vec, w: V.Vec)
    requires V.Times(n, y) == Reject(x, hint) && V.Dot(w, x) == 0.0 && V.Dot(w, y) == 0.0
    ensures V.Dot(w, hint) == 0.0
  {
    hide V.Dot; hide V.Times; hide V.Sub;
    var t := V.Times(V.Dot(x, hint), x);
    DotSub(w, hint, t);
    V.DotSymmetric(w, x); V.DotSymmetric(w, y); V.DotSymmetric(w, t); V.DotSymmetric(w, V.Times(n, y));
    V.DotTimes(V.Dot(x, hint), x, w);
    V.DotTimes(n, y, w);
  }

  lemma SameFactor(n: real, d: real)
    requires n > 0.0 && n * d == n * n
    ensures d > 0.0
  {
    assert n * n > 0.0;
    R.PositiveFactor(n, d);
  }

  lemma FrameXZ(lib: R.Library, xHint: V.Vec, zHint: V.Vec)
    requires R.Sound(lib)
    ensures var x := V.Over(xHint, if Length(lib, xHint) < EPSILON then 1.0 else Length(lib, xHint));
      FrameFromXZ(lib, xHint, zHint).Ok? <==> Length(lib, xHint) >= EPSILON && Length(lib, Reject(x, zHint)) >= EPSILON
    ensures FrameFromXZ(lib, xHint, zHint).Ok? ==>
      var m := FrameFromXZ(lib, xHint, zHint).value;
      && IsRotation(m)
      && V.Times(Length(lib, xHint), m.x) == xHint && Length(lib, xHint) > 0.0
      && V.Dot(m.z, zHint) > 0.0 && V.Dot(m.y, zHint) == 0.0
  {
    hide R.Sound; hide V.Dot; hide V.Cross; hide V.Times; hide V.Over; hide Reject; hide IsRotation;
    UnitVectorResult(lib, xHint);
    if Length(lib, xHint) >= EPSILON {
      var x := V.Over(xHint, Length(lib, xHint));
      var r := Reject(x, zHint);
      UnitVectorResult(lib, r);
      if Length(lib, r) >= EPSILON {
        var z := V.Over(r, Length(lib, r));
        Orthogonal(x, zHint, Length(lib, r), z);
        V.DotSymmetric(x, z);
        CrossBack(z, x);
        UnitVectorOfUnit(lib, V.Cross(z, x));
        UnitVectorOfUnit(lib, z);
        TurnedRotation(x, z);
        CrossOrthogonal(z, x);
        InPlane(x, zHint, Length(lib, r), z, V.Cross(z, x));
      }
    }
  }

  lemma TurnedRotation(x: V.Vec, z: V.Vec)
    requires V.Dot(x, x) == 1.0 && V.Dot(z, z) == 1.0 && V.Dot(z, x) == 0.0
    ensures IsRotation(Mat(x, V.Cross(z, x), z))
  {
    hide V.Dot; hide V.Cross;
    CrossBack(z, x);
    CrossOrthogonal(z, x);
    V.DotSymmetric(x, V.Cross(z, x));
  }
}
