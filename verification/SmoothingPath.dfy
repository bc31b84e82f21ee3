/** Where the smoother's output lies: the path from the kept rotation to the new sample, how far
    along it a sample gets, and that the output moves towards a sample it has not reached
    (smoothing.py). */
module SmoothingPath {
  import opened Prelude
  import R = Reals
  import V = Vectors
  import Q = Quaternions
  import opened MatrixQuaternion
  import opened Matrices
  import opened Smoothing
  import opened Trigonometry

  /* ---- the path between two rotations ---- */

  function Share(f: real, angle: real): real { f * angle }

  /** `r` is the rotation the fraction `f` of the way from `start` to `end`: up to a dot product
      of 0.9995 the angle to `start` is that fraction of the whole and the angle to `end` the
      rest; above it `r` points along the chord's point at that fraction. */
  ghost predicate OnPath(m: R.Library, start: Q.Quat, end: Q.Quat, f: real, r: Q.Quat) {
    var d := Q.Dot(start, end);
    && Q.Unit(r)
    && (d <= 0.9995 ==>
          Q.Dot(start, r) == m.cos(Share(f, m.acos(d))) && Q.Dot(r, end) == m.cos(Share(1.0 - f, m.acos(d))))
    && (d > 0.9995 ==> exists n: real :: n > 0.0 && Q.Scale(n, r) == Q.Add(Q.Scale(1.0 - f, start), Q.Scale(f, end)))
  }

  /** The nearer of a rotation's two signs. */
  function Nearer(q: Q.Quat, reference: Q.Quat): Q.Quat { if Q.Dot(reference, q) < 0.0 then Q.Neg(q) else q }

  /** Interpolation runs along that path to the nearer sign of its end. */
  lemma SlerpOnPath(m: R.Library, start: Q.Quat, end: Q.Quat, f: real)
    requires R.Sound(m) && Q.Unit(start) && Q.Unit(end) && 0.0 <= f <= 1.0
    ensures OnPath(m, start, Nearer(end, start), f, Slerp(m, start, end, f))
  {
    hide R.Sound; hide Q.Dot; hide Q.Unit; hide Nlerp; hide SineSlerp;
    var near := Nearer(end, start);
    Q.DotNeg(end, start);
    NegUnit(end);
    var d := Q.Dot(start, near);
    if d > 0.9995 {
      NlerpOnPath(m, start, near, f);
    } else {
      SineOnPath(m, start, near, f, d);
    }
  }

  lemma NegUnit(q: Q.Quat)
    requires Q.Unit(q)
    ensures Q.Unit(Q.Neg(q))
  {
    hide Q.Dot;
    Q.DotNeg(q, q);
  }

  lemma NlerpOnPath(m: R.Library, start: Q.Quat, end: Q.Quat, f: real)
    requires R.Sound(m) && Q.Unit(start) && Q.Unit(end) && Q.Dot(start, end) > 0.9995 && 0.0 <= f <= 1.0
    ensures OnPath(m, start, end, f, Nlerp(m, start, end, f))
  {
    hide R.Sound; hide Q.Dot; hide Q.Over; hide Q.Scale; hide Q.Add; hide Q.Unit;
    NlerpBetween(m, start, end, f);
    NlerpIsCombine(start, end, f);
    var x := Q.Combine(1.0 - f, start, f, end);
    var n := R.Sqrt(m, Q.Dot(x, x));
    R.ZeroProduct(n, n);
    Q.QuotientUnit(x, n);
    assert Q.Scale(n, Nlerp(m, start, end, f)) == x;
  }

  lemma SineOnPath(m: R.Library, start: Q.Quat, end: Q.Quat, f: real, d: real)
    requires R.Sound(m) && Q.Unit(start) && Q.Unit(end) && 0.0 <= f <= 1.0
    requires d == Q.Dot(start, end) && 0.0 <= d <= 0.9995
    ensures OnPath(m, start, end, f, SineSlerp(m, start, end, f, d))
  {
    hide R.Sound; hide Q.Dot; hide Q.Unit; hide Between; hide Weighted; hide Q.Scale; hide Q.Add; hide Share;
    SineBetween(m, start, end, f, d);
    R.Acos(m, d);
    WeightedOnPath(m, start, end, f, d, m.acos(d));
    Q.DotSymmetric(start, Weighted(m, start, end, f, m.acos(d)));
    UnitOfBetween(start, end, Weighted(m, start, end, f, m.acos(d)));
  }

  lemma UnitOfBetween(start: Q.Quat, end: Q.Quat, r: Q.Quat)
    requires Between(start, end, r)
    ensures Q.Unit(r)
  {}

  lemma WeightedOnPath(m: R.Library, start: Q.Quat, end: Q.Quat, f: real, d: real, theta: real)
    requires R.Sound(m) && Q.Unit(start) && Q.Unit(end) && 0.0 <= f <= 1.0 && d == Q.Dot(start, end)
    requires 0.0 <= theta <= m.pi && m.cos(theta) == d && m.sin(theta) > 0.0
    ensures var r := Weighted(m, start, end, f, theta);
      Q.Dot(r, start) == m.cos(Share(f, theta)) && Q.Dot(r, end) == m.cos(Share(1.0 - f, theta))
  {
    hide R.Sound; hide Q.Dot; hide Q.Combine; hide R.Quotient;
    var phi, rest := Fraction(f, theta);
    var s, c1, s1, sr := m.sin(theta), m.cos(phi), m.sin(phi), m.sin(rest);
    R.Subtraction(m, theta, phi);
    R.Pythagoras(m, theta);
    var ws, we := R.Quotient(sr, s), R.Quotient(s1, s);
    R.QuotientTimes(sr, s);
    R.QuotientTimes(s1, s);
    NearWeight(s, d, s1, c1, ws, we);
    FarWeight(s, d, s1, c1, ws, we);
    Q.DotCombine(ws, start, we, end, start);
    Q.DotCombine(ws, start, we, end, end);
    Q.DotSymmetric(start, end);
  }

  /** A rotation on the way to another is nearer to it than the start was, unless the start was
      already there or the fraction is zero. */
  lemma PathMoves(m: R.Library, start: Q.Quat, end: Q.Quat, f: real, r: Q.Quat)
    requires R.Sound(m) && Q.Unit(start) && Q.Unit(end) && Q.Dot(start, end) >= 0.0 && start != end
    requires 0.0 < f <= 1.0 && OnPath(m, start, end, f, r)
    ensures Q.Dot(r, end) > Q.Dot(start, end)
  {
    hide R.Sound; hide Q.Dot; hide Q.Unit; hide Q.Scale; hide Q.Add; hide Share;
    var d := Q.Dot(start, end);
    Q.DotAtMostOne(start, end);
    if d == 1.0 { Q.UnitsEqual(start, end); }
    if d <= 0.9995 {
      SineMoves(m, d, f);
    } else {
      var n: real :| n > 0.0 && Q.Scale(n, r) == Q.Add(Q.Scale(1.0 - f, start), Q.Scale(f, end));
      ChordMoves(start, end, f, d, n, r);
    }
  }

  lemma SineMoves(m: R.Library, d: real, f: real)
    requires R.Sound(m) && 0.0 <= d <= 0.9995 && 0.0 < f <= 1.0
    ensures m.cos(Share(1.0 - f, m.acos(d))) > d
  {
    hide R.Sound;
    var theta := m.acos(d);
    R.Acos(m, d);
    R.Pythagoras(m, theta);
    R.SinNonNegative(m, theta);
    var phi, rest := Fraction(f, theta);
    Corner(m, theta, d);
    R.PositiveFactor(f, theta);
    CosineFallsStrictly(m, theta, phi);
    SameCosine(m, theta - phi, Share(1.0 - f, m.acos(d)));
  }

  /** An angle with a cosine between zero and the threshold lies strictly inside the half turn. */
  lemma Corner(m: R.Library, theta: real, d: real)
    requires R.Sound(m) && 0.0 <= theta <= m.pi && m.cos(theta) == d && 0.0 <= d <= 0.9995
    ensures 0.0 < theta < m.pi
  {
    hide R.Sound;
    CosineOfZero(m);
    CosineOfPi(m);
  }

  lemma BeyondStart(f: real, d: real, one: real, toEnd: real)
    requires 0.0 < f && d < 1.0 && one == 1.0 && toEnd == (1.0 - f) * d + f * one
    ensures toEnd > d
  {
    R.PositiveFactor(f, 1.0 - d);
    assert toEnd == d + f * (1.0 - d);
  }

  lemma ChordMoves(start: Q.Quat, end: Q.Quat, f: real, d: real, n: real, r: Q.Quat)
    requires Q.Unit(start) && Q.Unit(end) && d == Q.Dot(start, end) && 0.0 <= d < 1.0 && 0.0 < f <= 1.0
    requires Q.Unit(r) && n > 0.0 && Q.Scale(n, r) == Q.Add(Q.Scale(1.0 - f, start), Q.Scale(f, end))
    ensures Q.Dot(r, end) > d
  {
    hide Q.Dot; hide Q.Scale; hide Q.Add;
    var x := Q.Combine(1.0 - f, start, f, end);
    var total, toStart, toEnd := BlendDots(start, end, f, d);
    assert x == Q.Scale(n, r);
    Q.ScaleDot(n, r);
    assert n * n * Q.Dot(r, r) == n * n;
    AtMostOne(n);
    Q.DotScale(n, r, end);
    Q.DotCombine(1.0 - f, start, f, end, end);
    BeyondStart(f, d, Q.Dot(end, end), toEnd);
    Enlarged(n, Q.Dot(r, end), toEnd);
  }

  /* ---- one sample, and whole streams ---- */

  /** The angle between two rotations is the angle of the rotation from one to the other, whose
      matrix has the trace `1 + 2 cos angle`. */
  lemma AngleOfRotation(m: R.Library, a: Q.Quat, b: Q.Quat)
    requires R.Sound(m) && Q.Unit(a) && Q.Unit(b)
    ensures var angle, turn := AngleBetween(m, a, b), RotationOf(Q.Mul(Q.Conj(a), b));
      0.0 <= angle <= m.pi && Trace(turn) == 1.0 + 2.0 * m.cos(angle)
  {
    hide R.Sound; hide Q.Dot; hide Q.Mul; hide Q.Conj; hide Q.Unit; hide AngleBetween; hide RotationOf; hide Trace;
    var d, angle := Q.Dot(a, b), AngleBetween(m, a, b);
    DotWithin(a, b);
    AngleExactly(m, a, b);
    var turn := Q.Mul(Q.Conj(a), b);
    Q.DotIsRealPart(b, a);
    Q.DotSymmetric(a, b);
    Q.ConjUnit(a);
    Q.UnitMul(Q.Conj(a), b);
    TraceOf(turn);
    DoubleAngle(m, angle, d);
    RightAngle(m, if d < 0.0 then -d else d, angle);
  }

  lemma DoubleAngle(m: R.Library, angle: real, d: real)
    requires R.Sound(m) && m.cos(angle / 2.0) == if d < 0.0 then -d else d
    ensures 2.0 * m.cos(angle) == 4.0 * (d * d) - 2.0
  {
    HalfAngle(m, angle / 2.0);
    hide R.Sound;
    SameCosine(m, 2.0 * (angle / 2.0), angle);
  }

  lemma TraceOf(q: Q.Quat)
    requires Q.Unit(q)
    ensures Trace(RotationOf(q)) == 4.0 * (q.w * q.w) - 1.0
  {
    hide Q.Dot;
    Q.DotSelf(q);
  }

  lemma DotWithin(a: Q.Quat, b: Q.Quat)
    requires Q.Unit(a) && Q.Unit(b)
    ensures -1.0 <= Q.Dot(a, b) <= 1.0
  {
    hide Q.Dot;
    Q.DotAtMostOne(a, b);
    NegUnit(b);
    Q.DotAtMostOne(a, Q.Neg(b));
    Q.DotNeg(b, a);
  }

  lemma AngleExactly(m: R.Library, a: Q.Quat, b: Q.Quat)
    requires R.Sound(m) && -1.0 <= Q.Dot(a, b) <= 1.0
    ensures var d, angle := Q.Dot(a, b), AngleBetween(m, a, b);
      0.0 <= angle <= 2.0 * m.pi && m.cos(angle / 2.0) == if d < 0.0 then -d else d
  {
    hide R.Sound; hide Q.Dot;
    var d := Q.Dot(a, b);
    var size := if d < 0.0 then -d else d;
    R.Acos(m, size);
    var half := m.acos(size);
    SameCosine(m, AngleBetween(m, a, b) / 2.0, half);
  }

  /** What a sample does to a bone's state, by the quantities of the filter: the interval, the
      angle to the nearer sign of the sample, the factor `g` of the speed and the factor `f` of
      the rotation, each `a / (a + 1)` for `a` its cut-off times the interval times `2 pi`. */
  ghost predicate FilterStep(m: R.Library, c: Config, before: BoneState, quaternion: Q.Quat, timestamp: real,
                             after: BoneState, angle: real, g: real, f: real)
  {
    var interval := if timestamp > before.timestamp then timestamp - before.timestamp else 1.0 / 30.0;
    var sample := Nearer(quaternion, before.filtered);
    var speedGain := 2.0 * m.pi * c.derivativeCutoff * interval;
    var gain := 2.0 * m.pi * (c.minCutoff + c.beta * after.speed) * interval;
    && 0.0 <= angle <= m.pi && m.cos(angle / 2.0) == Q.Dot(before.filtered, sample)
    && 0.0 < g < 1.0 && g * (speedGain + 1.0) == speedGain
    && after.speed == (1.0 - g) * before.speed + g * (angle / interval)
    && 0.0 < f < 1.0 && f * (gain + 1.0) == gain
    && OnPath(m, before.filtered, sample, f, after.filtered)
    && after.timestamp == timestamp
  }

  lemma SmoothExactly(m: R.Library, c: Config, before: BoneState, quaternion: Q.Quat, timestamp: real)
    returns (angle: real, g: real, f: real)
    requires R.Sound(m) && ValidConfig(c) && GoodState(before) && Q.Unit(quaternion)
    ensures FilterStep(m, c, before, quaternion, timestamp, Smooth(m, c, Some(before), quaternion, timestamp),
                       angle, g, f)
  {
    hide R.Sound; hide Q.Dot; hide Q.Unit; hide Slerp; hide SmoothingFactor; hide AngleBetween; hide OnPath;
    var after := Smooth(m, c, Some(before), quaternion, timestamp);
    SmoothKeeps(m, c, Some(before), quaternion, timestamp);
    Q.DotSymmetric(quaternion, before.filtered);
    var interval := Interval(before, timestamp);
    var sample := Nearer(quaternion, before.filtered);
    assert sample == Q.MakeSignCompatible(quaternion, before.filtered);
    Q.DotNeg(quaternion, before.filtered);
    Q.DotSymmetric(sample, before.filtered);
    NegUnit(quaternion);
    angle := AngleBetween(m, sample, before.filtered);
    DotWithin(sample, before.filtered);
    AngleExactly(m, sample, before.filtered);
    RightAngle(m, Q.Dot(before.filtered, sample), angle);
    g, f := SmoothingFactor(m, interval, c.derivativeCutoff), SmoothingFactor(m, interval, Cutoff(c, after.speed));
    FactorRange(m, interval, c.derivativeCutoff);
    CutoffFloor(c, after.speed);
    FactorRange(m, interval, Cutoff(c, after.speed));
    var a := FactorClosed(m, interval, c.derivativeCutoff, 2.0 * m.pi);
    var b := FactorClosed(m, interval, Cutoff(c, after.speed), 2.0 * m.pi);
    SlerpOnPath(m, before.filtered, sample, f);
    assert Nearer(sample, before.filtered) == sample;
  }

  /** Over every stream: the first sample is taken as it is, and each one after it moves the state
      as the filter says. */
  lemma RunExactly(m: R.Library, c: Config, samples: seq<Sample>, k: nat) returns (angle: real, g: real, f: real)
    requires R.Sound(m) && ValidConfig(c) && (forall s <- samples :: Q.Unit(s.quaternion)) && k + 1 < |samples|
    ensures Run(m, c, samples)[0] == BoneState(samples[0].quaternion, 0.0, samples[0].timestamp)
    ensures FilterStep(m, c, Run(m, c, samples)[k], samples[k + 1].quaternion, samples[k + 1].timestamp,
                       Run(m, c, samples)[k + 1], angle, g, f)
  {
    hide R.Sound; hide Q.Unit; hide FilterStep; hide Smooth; hide Run;
    RunKeeps(m, c, samples);
    RunStep(m, c, samples, k);
    RunFirst(m, c, samples);
    assert samples[k + 1] in samples && Run(m, c, samples)[k] in Run(m, c, samples);
    angle, g, f := SmoothExactly(m, c, Run(m, c, samples)[k], samples[k + 1].quaternion, samples[k + 1].timestamp);
  }

  lemma RunFirst(m: R.Library, c: Config, samples: seq<Sample>)
    requires samples != []
    ensures Run(m, c, samples)[0] == BoneState(samples[0].quaternion, 0.0, samples[0].timestamp)
  {
    RunPrefix(m, c, samples, 1);
    assert Run(m, c, samples)[0] == Run(m, c, samples)[..1][0];
    assert samples[..1][..0] == [];
  }

  /** And it never stands still: every output is strictly nearer to its sample than the one before
      was, unless that one was already there. */
  lemma RunMoves(m: R.Library, c: Config, samples: seq<Sample>, k: nat)
    requires R.Sound(m) && ValidConfig(c) && (forall s <- samples :: Q.Unit(s.quaternion)) && k + 1 < |samples|
    ensures var before, after := Run(m, c, samples)[k].filtered, Run(m, c, samples)[k + 1].filtered;
      var sample := Nearer(samples[k + 1].quaternion, before);
      if before == sample then after == before else Q.Dot(after, sample) > Q.Dot(before, sample)
  {
    hide R.Sound; hide Q.Dot; hide Smooth; hide Run; hide Q.Unit; hide OnPath;
    RunKeeps(m, c, samples);
    var before, after := Run(m, c, samples)[k], Run(m, c, samples)[k + 1];
    assert samples[k + 1] in samples && before in Run(m, c, samples) && after in Run(m, c, samples);
    var q := samples[k + 1].quaternion;
    var sample := Nearer(q, before.filtered);
    Q.DotNeg(q, before.filtered);
    NegUnit(q);
    var _, _, f := RunExactly(m, c, samples, k);
    if before.filtered != sample {
      PathMoves(m, before.filtered, sample, f, after.filtered);
    } else {
      RunStep(m, c, samples, k);
      Back(q, sample);
      Fixed(m, c, before, q, samples[k + 1].timestamp);
    }
  }

  lemma Back(q: Q.Quat, sample: Q.Quat)
    requires sample == q || sample == Q.Neg(q)
    ensures q == sample || q == Q.Neg(sample)
  {}
}
