/** One Euro smoothing of pose quaternions (smoothing.py). */
module Smoothing {
  import opened Prelude
  import R = Reals
  import V = Vectors
  import Q = Quaternions
  import opened Skeleton

  const FALLBACK_INTERVAL := 1.0 / 30.0

  const NEARLY_PARALLEL := 0.9995

  datatype BoneState = BoneState(filtered: Q.Quat, speed: real, timestamp: real)

  datatype Config = Config(minCutoff: real, beta: real, derivativeCutoff: real)

  /** What the smoother's constructor accepts. */
  predicate ValidConfig(c: Config) { c.minCutoff > 0.0 && c.derivativeCutoff > 0.0 && c.beta >= 0.0 }

  function QuotientQ(a: Q.Quat, n: real): Q.Quat {
    if n == 0.0 then Q.Quat(0.0, 0.0, 0.0, 0.0) else Q.Over(a, n)
  }

  function SmoothingFactor(m: R.Library, interval: real, cutoff: real): real {
    var tau := R.Quotient(1.0, 2.0 * m.pi * cutoff);
    R.Quotient(1.0, 1.0 + R.Quotient(tau, interval))
  }

  function AngleBetween(m: R.Library, a: Q.Quat, b: Q.Quat): real {
    var d := Q.Dot(a, b);
    var size := if d < 0.0 then -d else d;
    2.0 * m.acos(if size < 1.0 then size else 1.0)
  }

  function Nlerp(m: R.Library, start: Q.Quat, end: Q.Quat, fraction: real): Q.Quat {
    var blended := Q.Add(start, Q.Scale(fraction, Q.Add(end, Q.Neg(start))));
    QuotientQ(blended, m.sqrt(Q.Dot(blended, blended)))
  }

  function SineSlerp(m: R.Library, start: Q.Quat, end: Q.Quat, fraction: real, dot: real): Q.Quat {
    Weighted(m, start, end, fraction, m.acos(if dot < 1.0 then dot else 1.0))
  }

  function Weighted(m: R.Library, start: Q.Quat, end: Q.Quat, fraction: real, theta: real): Q.Quat {
    var sine := m.sin(theta);
    Q.Combine(R.Quotient(m.sin((1.0 - fraction) * theta), sine), start, R.Quotient(m.sin(fraction * theta), sine), end)
  }

  function Slerp(m: R.Library, start: Q.Quat, end: Q.Quat, fraction: real): Q.Quat {
    var signed := Q.Dot(start, end);
    var near := if signed < 0.0 then Q.Neg(end) else end;
    var dot := if signed < 0.0 then -signed else signed;
    if dot > NEARLY_PARALLEL then Nlerp(m, start, near, fraction)
    else SineSlerp(m, start, near, fraction, dot)
  }

  function Interval(state: BoneState, timestamp: real): real {
    if timestamp - state.timestamp <= 0.0 then FALLBACK_INTERVAL else timestamp - state.timestamp
  }

  /** One sample of one bone: the new state, whose `filtered` is what the caller gets. */
  function Smooth(m: R.Library, c: Config, previous: Option<BoneState>, quaternion: Q.Quat,
                  timestamp: real): BoneState {
    match previous
    case None => BoneState(quaternion, 0.0, timestamp)
    case Some(state) =>
      var interval := Interval(state, timestamp);
      var sample := Q.MakeSignCompatible(quaternion, state.filtered);
      var speed := R.Quotient(AngleBetween(m, sample, state.filtered), interval);
      var speedHat := LowPass(SmoothingFactor(m, interval, c.derivativeCutoff), speed, state.speed);
      var alpha := SmoothingFactor(m, interval, Cutoff(c, speedHat));
      BoneState(Slerp(m, state.filtered, sample, alpha), speedHat, timestamp)
  }

  function Cutoff(c: Config, speed: real): real { c.minCutoff + c.beta * speed }

  function LowPass(alpha: real, sample: real, previous: real): real { alpha * sample + (1.0 - alpha) * previous }

  /* ---- the smoothing factor ---- */

  /** With all divisors positive the factor is `a / (a + 1)` for `a = 2 pi cutoff interval`. */
  lemma FactorClosed(m: R.Library, interval: real, cutoff: real, tau: real) returns (a: real)
    requires R.Sound(m) && interval > 0.0 && cutoff > 0.0 && tau == 2.0 * m.pi
    ensures a == tau * cutoff * interval && a > 0.0
    ensures SmoothingFactor(m, interval, cutoff) * (a + 1.0) == a
  {
    var p := 2.0 * m.pi * cutoff;
    assert tau * cutoff > 0.0;
    a := p * interval;
    assert p * interval > 0.0;
    FactorParts(p, interval, a, R.Quotient(1.0, p), R.Quotient(R.Quotient(1.0, p), interval),
                R.Quotient(1.0, 1.0 + R.Quotient(R.Quotient(1.0, p), interval)));
  }

  lemma FactorParts(p: real, t: real, a: real, tau: real, u: real, f: real)
    requires p > 0.0 && t > 0.0 && a > 0.0 && a == p * t
    requires tau == 1.0 / p && u == tau / t && (1.0 + u != 0.0 ==> f == 1.0 / (1.0 + u))
    requires 1.0 + u == 0.0 ==> f == 0.0
    ensures 1.0 + u > 1.0 && f * (a + 1.0) == a
  {
    assert tau * p == 1.0 && u * t == tau;
    assert u * a == 1.0 by {
      assert u * a == (u * t) * p;
      assert (u * t) * p == tau * p;
    }
    R.PositiveFactor(a, u);
    assert f * (1.0 + u) == 1.0;
    assert f * (1.0 + u) * a == f * (a + u * a);
  }

  /** The factor lies strictly between 0 and 1. */
  lemma FactorRange(m: R.Library, interval: real, cutoff: real)
    requires R.Sound(m) && interval > 0.0 && cutoff > 0.0
    ensures 0.0 < SmoothingFactor(m, interval, cutoff) < 1.0
  {
    var a := FactorClosed(m, interval, cutoff, 2.0 * m.pi);
    hide R.Sound; hide SmoothingFactor;
    Ratio(SmoothingFactor(m, interval, cutoff), a);
  }

  lemma Ratio(f: real, a: real)
    requires a > 0.0 && f * (a + 1.0) == a
    ensures 0.0 < f < 1.0
  {
    R.PositiveFactor(a + 1.0, f);
    R.PositiveFactor(a + 1.0, 1.0 - f);
    assert (a + 1.0) * (1.0 - f) == 1.0;
  }

  /** A longer interval or a higher cut-off never lowers the factor. */
  lemma FactorMonotone(m: R.Library, interval: real, cutoff: real, interval': real, cutoff': real)
    requires R.Sound(m) && 0.0 < interval <= interval' && 0.0 < cutoff <= cutoff'
    ensures SmoothingFactor(m, interval, cutoff) <= SmoothingFactor(m, interval', cutoff')
  {
    hide SmoothingFactor;
    var p := 2.0 * m.pi;
    assert p > 0.0;
    hide R.Sound;
    var a := FactorClosed(m, interval, cutoff, p);
    var b := FactorClosed(m, interval', cutoff', p);
    Grow(p, interval, cutoff, interval', cutoff');
    RatioMonotone(SmoothingFactor(m, interval, cutoff), a, SmoothingFactor(m, interval', cutoff'), b);
  }

  lemma Grow(p: real, t: real, c: real, t': real, c': real)
    requires p > 0.0 && 0.0 < t <= t' && 0.0 < c <= c'
    ensures p * c * t <= p * c' * t'
  {
    assert p * (c' - c) >= 0.0;
    assert p * c * t <= p * c' * t;
    assert p * c' > 0.0;
    assert p * c' * (t' - t) >= 0.0;
  }

  lemma RatioMonotone(f: real, a: real, g: real, b: real)
    requires 0.0 < a <= b && f * (a + 1.0) == a && g * (b + 1.0) == b
    ensures f <= g
  {
    Ratio(f, a);
    assert (b - a) * (1.0 - f) >= 0.0;
    assert (b + 1.0) * (g - f) == (b - a) * (1.0 - f);
    R.PositiveFactor(b + 1.0, g - f);
  }

  /* ---- interpolation between unit quaternions ---- */

  /** What a smoothed quaternion `r` between `start` and `end` must be: a rotation, in the
      hemisphere of `start`, and no further from `end` than `start` was. */
  predicate Between(start: Q.Quat, end: Q.Quat, r: Q.Quat) {
    Q.Unit(r) && Q.Dot(r, start) >= 0.0 && Q.Dot(r, end) >= Q.Dot(start, end)
  }

  lemma NlerpIsCombine(start: Q.Quat, end: Q.Quat, f: real)
    ensures Q.Add(start, Q.Scale(f, Q.Add(end, Q.Neg(start)))) == Q.Combine(1.0 - f, start, f, end)
  {
    Blend(start.w, end.w, f); Blend(start.x, end.x, f); Blend(start.y, end.y, f); Blend(start.z, end.z, f);
    var e := Q.Add(end, Q.Neg(start));
    assert e == Q.Quat(end.w - start.w, end.x - start.x, end.y - start.y, end.z - start.z);
    hide Q.Neg; hide Q.Add;
    ScaleParts(f, e, end.w - start.w, end.x - start.x, end.y - start.y, end.z - start.z);
    AddParts(start, Q.Scale(f, e)); AddParts(Q.Scale(1.0 - f, start), Q.Scale(f, end));
  }

  lemma AddParts(a: Q.Quat, b: Q.Quat)
    ensures Q.Add(a, b) == Q.Quat(a.w + b.w, a.x + b.x, a.y + b.y, a.z + b.z)
  {}

  lemma ScaleParts(f: real, q: Q.Quat, w: real, x: real, y: real, z: real)
    requires q == Q.Quat(w, x, y, z)
    ensures Q.Scale(f, q) == Q.Quat(f * w, f * x, f * y, f * z)
  {}

  lemma Blend(a: real, b: real, f: real)
    ensures a + f * (b - a) == (1.0 - f) * a + f * b
  {}

  /** The nearly-parallel branch: the blend is never zero, so normalising it is defined. */
  lemma NlerpBetween(m: R.Library, start: Q.Quat, end: Q.Quat, f: real)
    requires R.Sound(m) && Q.Unit(start) && Q.Unit(end) && Q.Dot(start, end) >= 0.0 && 0.0 <= f <= 1.0
    ensures Q.Dot(Q.Combine(1.0 - f, start, f, end), Q.Combine(1.0 - f, start, f, end)) > 0.0
    ensures Between(start, end, Nlerp(m, start, end, f))
  {
    hide R.Sound; hide Q.Dot; hide Q.Combine; hide Q.Over; hide Q.Scale; hide Q.Unit;
    var x := Q.Combine(1.0 - f, start, f, end);
    NlerpIsCombine(start, end, f);
    Q.DotAtMostOne(start, end);
    var total, toStart, toEnd := BlendDots(start, end, f, Q.Dot(start, end));
    var n := R.Sqrt(m, total);
    AtMostOne(n);
    R.ZeroProduct(n, n);
    Q.QuotientUnit(x, n);
    var r := Q.Over(x, n);
    Q.DotScale(n, r, start);
    Q.DotScale(n, r, end);
    R.PositiveFactor(n, Q.Dot(r, start));
    Enlarged(n, Q.Dot(r, end), toEnd);
  }

  lemma BlendDots(start: Q.Quat, end: Q.Quat, f: real, d: real) returns (total: real, toStart: real, toEnd: real)
    requires Q.Unit(start) && Q.Unit(end) && d == Q.Dot(start, end) && 0.0 <= d <= 1.0 && 0.0 <= f <= 1.0
    ensures var x := Q.Combine(1.0 - f, start, f, end);
      total == Q.Dot(x, x) && toStart == Q.Dot(x, start) && toEnd == Q.Dot(x, end)
    ensures 0.0 < total <= 1.0 && toStart >= 0.0 && toEnd >= d
  {
    hide Q.Dot; hide Q.Combine;
    var x, h := Q.Combine(1.0 - f, start, f, end), 1.0 - f;
    Q.DotSymmetric(start, end);
    Q.DotSymmetric(start, x);
    Q.DotSymmetric(end, x);
    Q.DotCombine(h, start, f, end, start);
    Q.DotCombine(h, start, f, end, end);
    Q.DotCombine(h, start, f, end, x);
    total, toStart, toEnd := Q.Dot(x, x), Q.Dot(x, start), Q.Dot(x, end);
    BlendLength(f, h, d, toStart, toEnd, total);
  }

  lemma BlendLength(f: real, h: real, d: real, toStart: real, toEnd: real, total: real)
    requires 0.0 <= f && 0.0 <= h && f + h == 1.0 && 0.0 <= d <= 1.0
    requires toStart == h + f * d && toEnd == h * d + f && total == h * toStart + f * toEnd
    ensures 0.0 < total <= 1.0 && toStart >= 0.0 && toEnd >= d
  {
    var g := f * h;
    R.NonNegative(f, d); R.NonNegative(f, 1.0 - d);
    R.NonNegative(f, h); R.NonNegative(g, d); R.NonNegative(g, 1.0 - d);
    Shared(f, d); Shared(g, d);
    Halves(f, h, d);
    BlendTotal(f, h, d);
    R.SquareNonNegative(f - h);
  }

  lemma Shared(f: real, d: real)
    ensures f * d + f * (1.0 - d) == f
  {}

  lemma Halves(f: real, h: real, d: real)
    requires f + h == 1.0
    ensures h * d + f * d == d
  {
    assert (h + f) * d == d;
  }

  lemma BlendTotal(f: real, h: real, d: real)
    ensures h * (h + f * d) + f * (h * d + f) == h * h + f * f + 2.0 * (f * h * d)
    ensures (f + h) * (f + h) == h * h + f * f + 2.0 * (f * h)
    ensures (f - h) * (f - h) == h * h + f * f - 2.0 * (f * h)
  {}

  lemma AtMostOne(n: real)
    requires n >= 0.0 && n * n <= 1.0
    ensures n <= 1.0
  {
    if n > 1.0 { R.Square(1.0, n); }
  }

  /** Dividing a non-negative number by at most one does not shrink it. */
  lemma Enlarged(n: real, r: real, v: real)
    requires 0.0 < n <= 1.0 && n * r == v && v >= 0.0
    ensures r >= v
  {
    R.PositiveFactor(n, r);
    assert (1.0 - n) * r >= 0.0;
  }

  /** The sine branch: the divisor is positive and the weights keep the unit sphere. */
  lemma SineBetween(m: R.Library, start: Q.Quat, end: Q.Quat, f: real, d: real)
    requires R.Sound(m) && Q.Unit(start) && Q.Unit(end) && 0.0 <= f <= 1.0
    requires d == Q.Dot(start, end) && 0.0 <= d <= NEARLY_PARALLEL
    ensures m.sin(m.acos(d)) > 0.0
    ensures Between(start, end, SineSlerp(m, start, end, f, d))
  {
    hide R.Sound; hide Q.Dot; hide Q.Unit; hide Between; hide Weighted;
    R.Acos(m, d);
    R.Pythagoras(m, m.acos(d));
    R.SinNonNegative(m, m.acos(d));
    Positive(m.sin(m.acos(d)), d);
    WeightedBetween(m, start, end, f, d, m.acos(d));
  }

  lemma WeightedBetween(m: R.Library, start: Q.Quat, end: Q.Quat, f: real, d: real, theta: real)
    requires R.Sound(m) && Q.Unit(start) && Q.Unit(end) && 0.0 <= f <= 1.0 && d == Q.Dot(start, end)
    requires 0.0 <= theta <= m.pi && m.cos(theta) == d >= 0.0 && m.sin(theta) > 0.0
    ensures Between(start, end, Weighted(m, start, end, f, theta))
  {
    hide R.Sound; hide Q.Dot; hide Q.Unit; hide Q.Combine; hide Between; hide R.Quotient;
    var ws, we := Weights(m, theta, f, d);
    WeightedDots(start, end, ws, we, d);
  }

  /** Weights that keep the unit sphere, for vectors of dot product `d`. */
  predicate OnSphere(a: real, b: real, d: real) {
    var near, far := a + b * d, a * d + b;
    near >= 0.0 && far >= d && a * near + b * far == 1.0
  }

  lemma Weights(m: R.Library, theta: real, f: real, d: real) returns (ws: real, we: real)
    requires R.Sound(m) && 0.0 <= f <= 1.0 && 0.0 <= theta <= m.pi && m.cos(theta) == d >= 0.0 && m.sin(theta) > 0.0
    ensures ws == R.Quotient(m.sin((1.0 - f) * theta), m.sin(theta)) && we == R.Quotient(m.sin(f * theta), m.sin(theta))
    ensures OnSphere(ws, we, d)
  {
    hide R.Sound; hide R.Quotient; hide OnSphere; hide TwoAngles;
    var phi, rest := Fraction(f, theta);
    Angles(m, theta, d, phi, rest);
    ws, we := SineWeights(m.sin(theta), d, m.sin(phi), m.cos(phi), m.sin(rest));
  }

  /** Sine and cosine of an angle, of a part of it, and the sine of the rest. */
  predicate TwoAngles(s: real, c: real, s1: real, c1: real, rest: real) {
    && s * s + c * c == 1.0 && s1 * s1 + c1 * c1 == 1.0
    && rest == s * c1 - c * s1
    && c * c1 + s * s1 >= c && c1 >= c
  }

  lemma Angles(m: R.Library, theta: real, c: real, phi: real, rest: real)
    requires R.Sound(m) && 0.0 <= phi <= theta <= m.pi && rest == theta - phi && c == m.cos(theta)
    ensures TwoAngles(m.sin(theta), c, m.sin(phi), m.cos(phi), m.sin(rest))
  {
    hide R.Sound;
    R.Pythagoras(m, theta);
    R.Pythagoras(m, phi);
    R.Subtraction(m, theta, phi);
    R.CosineFalls(m, theta, phi);
    R.CosineFalls(m, theta, theta - phi);
    assert theta - (theta - phi) == phi;
  }

  lemma Fraction(f: real, theta: real) returns (phi: real, rest: real)
    requires 0.0 <= f <= 1.0 && theta >= 0.0
    ensures phi == f * theta && rest == (1.0 - f) * theta && 0.0 <= phi <= theta && rest == theta - phi
  {
    phi, rest := f * theta, (1.0 - f) * theta;
    R.NonNegative(f, theta);
    R.NonNegative(1.0 - f, theta);
  }

  lemma Positive(s: real, d: real)
    requires s >= 0.0 && 0.0 <= d <= NEARLY_PARALLEL && s * s + d * d == 1.0
    ensures s > 0.0
  {
    assert d * d <= NEARLY_PARALLEL * d <= NEARLY_PARALLEL;
    R.ZeroProduct(s, s);
  }

  lemma SineWeights(s: real, d: real, s1: real, c1: real, rest: real) returns (ws: real, we: real)
    requires s > 0.0 && d >= 0.0 && TwoAngles(s, d, s1, c1, rest)
    ensures ws == R.Quotient(rest, s) && we == R.Quotient(s1, s) && OnSphere(ws, we, d)
  {
    hide TwoAngles; hide OnSphere; hide R.Quotient;
    ws, we := R.Quotient(rest, s), R.Quotient(s1, s);
    R.QuotientTimes(rest, s);
    R.QuotientTimes(s1, s);
    Together(s, d, s1, c1, rest, ws, we);
  }

  lemma Together(s: real, d: real, s1: real, c1: real, rest: real, ws: real, we: real)
    requires s > 0.0 && d >= 0.0 && TwoAngles(s, d, s1, c1, rest) && s * ws == rest && s * we == s1
    ensures OnSphere(ws, we, d)
  {
    NearWeight(s, d, s1, c1, ws, we);
    FarWeight(s, d, s1, c1, ws, we);
    UnitWeight(s, d, s1, c1, ws, we);
  }

  lemma NearWeight(s: real, d: real, s1: real, c1: real, ws: real, we: real)
    requires s > 0.0 && s * ws == s * c1 - d * s1 && s * we == s1
    ensures ws + we * d == c1
  {
    assert s * (we * d) == s1 * d;
    var k := ws + we * d - c1;
    assert s * k == 0.0;
    R.ZeroProduct(s, k);
  }

  lemma FarWeight(s: real, d: real, s1: real, c1: real, ws: real, we: real)
    requires s > 0.0 && s * s + d * d == 1.0 && s * ws == s * c1 - d * s1 && s * we == s1
    ensures ws * d + we == d * c1 + s * s1
  {
    assert s * (ws * d) == (s * c1 - d * s1) * d;
    assert d * d * s1 == s1 - s * s * s1;
    var k := ws * d + we - d * c1 - s * s1;
    assert s * k == s * (ws * d) + s * we - s * d * c1 - s * s * s1;
    R.ZeroProduct(s, k);
  }

  lemma UnitWeight(s: real, d: real, s1: real, c1: real, ws: real, we: real)
    requires s > 0.0 && s1 * s1 + c1 * c1 == 1.0 && s * ws == s * c1 - d * s1 && s * we == s1
    ensures ws * c1 + we * (d * c1 + s * s1) == 1.0
  {
    assert s * (ws * c1) == (s * c1 - d * s1) * c1;
    assert s * (we * (d * c1 + s * s1)) == s1 * (d * c1 + s * s1);
    assert s * (s1 * s1) + s * (c1 * c1) == s * (s1 * s1 + c1 * c1) == s;
    var k := ws * c1 + we * (d * c1 + s * s1) - 1.0;
    assert s * k == s * (ws * c1) + s * (we * (d * c1 + s * s1)) - s;
    R.ZeroProduct(s, k);
  }

  lemma WeightedDots(start: Q.Quat, end: Q.Quat, a: real, b: real, d: real)
    requires Q.Unit(start) && Q.Unit(end) && d == Q.Dot(start, end) && OnSphere(a, b, d)
    ensures Between(start, end, Q.Combine(a, start, b, end))
  {
    hide Q.Dot; hide Q.Combine;
    var x := Q.Combine(a, start, b, end);
    Q.DotSymmetric(start, end);
    Q.DotSymmetric(start, x);
    Q.DotSymmetric(end, x);
    Q.DotCombine(a, start, b, end, start);
    Q.DotCombine(a, start, b, end, end);
    Q.DotCombine(a, start, b, end, x);
  }

  /** Spherical interpolation from `start` towards whichever of `end`, `-end` is nearer. */
  lemma SlerpBetween(m: R.Library, start: Q.Quat, end: Q.Quat, f: real)
    requires R.Sound(m) && Q.Unit(start) && Q.Unit(end) && Q.Dot(start, end) >= 0.0 && 0.0 <= f <= 1.0
    ensures Between(start, end, Slerp(m, start, end, f))
  {
    hide R.Sound; hide Q.Dot; hide Q.Unit; hide Nlerp; hide SineSlerp; hide Between;
    var d := Q.Dot(start, end);
    if d > NEARLY_PARALLEL { NlerpBetween(m, start, end, f); } else { SineBetween(m, start, end, f, d); }
  }

  /* ---- what one sample keeps ---- */

  predicate GoodState(s: BoneState) { Q.Unit(s.filtered) && s.speed >= 0.0 }

  lemma LowPassNonNegative(alpha: real, sample: real, previous: real)
    requires 0.0 <= alpha <= 1.0 && sample >= 0.0 && previous >= 0.0
    ensures LowPass(alpha, sample, previous) >= 0.0
  {
    var rest := 1.0 - alpha;
    assert alpha * sample >= 0.0 && rest * previous >= 0.0;
  }

  lemma SpeedNonNegative(m: R.Library, a: Q.Quat, b: Q.Quat, interval: real)
    requires R.Sound(m) && interval > 0.0
    ensures R.Quotient(AngleBetween(m, a, b), interval) >= 0.0
  {
    hide R.Sound; hide Q.Dot;
    var d := Q.Dot(a, b);
    var size := if d < 0.0 then -d else d;
    R.Acos(m, if size < 1.0 then size else 1.0);
    var angle := AngleBetween(m, a, b);
    R.Divide(angle, interval);
    R.PositiveFactor(interval, R.Quotient(angle, interval));
  }

  /** One smoothed sample: the stored rotation stays a unit quaternion and the speed
      non-negative, the output lies in the hemisphere of the previous output, and it is no
      further from the sign-matched sample than the previous output was. */
  lemma SmoothKeeps(m: R.Library, c: Config, previous: Option<BoneState>, quaternion: Q.Quat, timestamp: real)
    requires R.Sound(m) && ValidConfig(c) && Q.Unit(quaternion)
    requires previous.Some? ==> GoodState(previous.value)
    ensures GoodState(Smooth(m, c, previous, quaternion, timestamp))
    ensures previous.Some? ==>
      Between(previous.value.filtered, Q.MakeSignCompatible(quaternion, previous.value.filtered),
              Smooth(m, c, previous, quaternion, timestamp).filtered)
  {
    hide R.Sound; hide Q.Dot; hide Q.Unit; hide Slerp; hide SmoothingFactor; hide AngleBetween; hide LowPass;
    hide Q.MakeSignCompatible; hide R.Quotient; hide Cutoff;
    if previous.Some? {
      var state := previous.value;
      var interval := Interval(state, timestamp);
      var sample := Q.MakeSignCompatible(quaternion, state.filtered);
      Q.SignCompatible(quaternion, state.filtered);
      Q.DotSymmetric(sample, state.filtered);
      SpeedNonNegative(m, sample, state.filtered, interval);
      FactorRange(m, interval, c.derivativeCutoff);
      var speedHat := Smooth(m, c, previous, quaternion, timestamp).speed;
      LowPassNonNegative(SmoothingFactor(m, interval, c.derivativeCutoff),
                         R.Quotient(AngleBetween(m, sample, state.filtered), interval), state.speed);
      CutoffFloor(c, speedHat);
      FactorRange(m, interval, Cutoff(c, speedHat));
      SlerpBetween(m, state.filtered, sample, SmoothingFactor(m, interval, Cutoff(c, speedHat)));
    }
  }

  /** The adaptive cut-off never falls below the configured minimum. */
  lemma CutoffFloor(c: Config, speed: real)
    requires ValidConfig(c) && speed >= 0.0
    ensures Cutoff(c, speed) >= c.minCutoff > 0.0
  {}

  /* ---- whole streams ---- */

  datatype Sample = Sample(quaternion: Q.Quat, timestamp: real)

  /** The states after each sample of a stream, starting from nothing. */
  function Run(m: R.Library, c: Config, samples: seq<Sample>): (states: seq<BoneState>)
    ensures |states| == |samples|
  {
    if samples == [] then []
    else
      var n := |samples| - 1;
      var before := Run(m, c, samples[..n]);
      before + [Smooth(m, c, if n == 0 then None else Some(before[n - 1]), samples[n].quaternion, samples[n].timestamp)]
  }

  /** Over every stream of unit quaternions, whatever the timestamps do, all states are good
      and consecutive outputs share a hemisphere. */
  lemma {:induction false} RunKeeps(m: R.Library, c: Config, samples: seq<Sample>)
    requires R.Sound(m) && ValidConfig(c)
    requires forall s <- samples :: Q.Unit(s.quaternion)
    ensures forall s <- Run(m, c, samples) :: GoodState(s)
    ensures forall k | 0 < k < |samples| ::
      Between(Run(m, c, samples)[k - 1].filtered,
              Q.MakeSignCompatible(samples[k].quaternion, Run(m, c, samples)[k - 1].filtered),
              Run(m, c, samples)[k].filtered)
  {
    hide R.Sound; hide Smooth; hide GoodState; hide Between; hide Q.Unit; hide Q.MakeSignCompatible;
    if samples != [] {
      var n := |samples| - 1;
      RunKeeps(m, c, samples[..n]);
      var before := Run(m, c, samples[..n]);
      SmoothKeeps(m, c, if n == 0 then None else Some(before[n - 1]), samples[n].quaternion, samples[n].timestamp);
      forall k | 0 < k < n
        ensures samples[..n][k] == samples[k]
      {}
    }
  }

  /** A stream that only ever shows one rotation, in either sign, is answered with its first
      sample for ever. */
  lemma {:induction false} RunConstant(m: R.Library, c: Config, samples: seq<Sample>, k: nat)
    requires R.Sound(m) && ValidConfig(c) && k < |samples| && Q.Unit(samples[0].quaternion)
    requires forall s <- samples ::
      s.quaternion == samples[0].quaternion || s.quaternion == Q.Neg(samples[0].quaternion)
    ensures Run(m, c, samples)[k].filtered == samples[0].quaternion
  {
    hide R.Sound; hide Smooth; hide Q.Unit; hide Q.Neg;
    var n := |samples| - 1;
    var before := Run(m, c, samples[..n]);
    if n > 0 {
      var q := samples[0].quaternion;
      if k < n { RunConstant(m, c, samples[..n], k); } else {
        RunConstant(m, c, samples[..n], n - 1);
        assert before[n - 1].filtered == q;
        Fixed(m, c, before[n - 1], samples[n].quaternion, samples[n].timestamp);
      }
    } else {
      First(m, c, samples[0].quaternion, samples[0].timestamp);
    }
  }

  lemma First(m: R.Library, c: Config, q: Q.Quat, t: real)
    ensures Smooth(m, c, None, q, t).filtered == q
  {}

  lemma Fixed(m: R.Library, c: Config, state: BoneState, quaternion: Q.Quat, t: real)
    requires R.Sound(m) && Q.Unit(state.filtered)
    requires quaternion == state.filtered || quaternion == Q.Neg(state.filtered)
    ensures Smooth(m, c, Some(state), quaternion, t).filtered == state.filtered
  {
    hide R.Sound; hide Q.Dot; hide SineSlerp; hide SmoothingFactor;
    var q := state.filtered;
    Q.DotNeg(q, q);
    assert Q.Neg(Q.Neg(q)) == q;
    assert Q.MakeSignCompatible(quaternion, q) == q;
    R.SqrtUnique(m, 1.0, 1.0);
    Q.OverOne(q);
    forall f: real ensures Q.Add(q, Q.Scale(f, Q.Add(q, Q.Neg(q)))) == q {
      assert Q.Add(q, Q.Neg(q)) == Q.Quat(0.0, 0.0, 0.0, 0.0);
    }
  }

  /* ---- the scalar speed against the vector low-pass of the reference filter ---- */

  datatype Motion = Motion(velocity: V.Vec, speed: real, interval: real)

  function VectorLowPass(alpha: real, sample: V.Vec, previous: V.Vec): V.Vec {
    V.Plus(V.Times(alpha, sample), V.Times(1.0 - alpha, previous))
  }

  function ScalarRun(m: R.Library, c: Config, motions: seq<Motion>): real {
    if motions == [] then 0.0
    else
      var last := motions[|motions| - 1];
      LowPass(SmoothingFactor(m, last.interval, c.derivativeCutoff), last.speed,
              ScalarRun(m, c, motions[..|motions| - 1]))
  }

  function VectorRun(m: R.Library, c: Config, motions: seq<Motion>): V.Vec {
    if motions == [] then V.ZERO
    else
      var last := motions[|motions| - 1];
      VectorLowPass(SmoothingFactor(m, last.interval, c.derivativeCutoff), last.velocity,
                    VectorRun(m, c, motions[..|motions| - 1]))
  }

  /** The scalar estimate is at least the length of the vector estimate, for every motion. */
  lemma {:induction false} ScalarDominates(m: R.Library, c: Config, motions: seq<Motion>)
    requires R.Sound(m) && ValidConfig(c)
    requires forall x <- motions ::
      x.interval > 0.0 && x.speed >= 0.0 && x.speed * x.speed == V.Dot(x.velocity, x.velocity)
    ensures ScalarRun(m, c, motions) >= 0.0
    ensures var v := VectorRun(m, c, motions); V.Dot(v, v) <= ScalarRun(m, c, motions) * ScalarRun(m, c, motions)
  {
    hide R.Sound; hide V.Dot; hide SmoothingFactor; hide LowPass; hide VectorLowPass;
    if motions == [] {
      V.DotSelf(V.ZERO);
    } else {
      var last, before := motions[|motions| - 1], motions[..|motions| - 1];
      ScalarDominates(m, c, before);
      FactorRange(m, last.interval, c.derivativeCutoff);
      var a, s := SmoothingFactor(m, last.interval, c.derivativeCutoff), ScalarRun(m, c, before);
      LowPassNonNegative(a, last.speed, s);
      LowPassDominates(a, last.velocity, last.speed, VectorRun(m, c, before), s);
    }
  }

  lemma LowPassDominates(a: real, w: V.Vec, n: real, v: V.Vec, s: real)
    requires 0.0 <= a <= 1.0 && n >= 0.0 && s >= 0.0 && n * n == V.Dot(w, w) && V.Dot(v, v) <= s * s
    ensures var u := VectorLowPass(a, w, v); V.Dot(u, u) <= LowPass(a, n, s) * LowPass(a, n, s)
  {
    hide V.Dot;
    var b := 1.0 - a;
    CauchySchwarz(w, v, n, s);
    SumLength(a, w, b, v);
    LowPassSquares(a, b, n, s, V.Dot(w, w), V.Dot(w, v), V.Dot(v, v));
  }

  lemma SumLength(a: real, w: V.Vec, b: real, v: V.Vec)
    ensures var u := V.Plus(V.Times(a, w), V.Times(b, v));
      V.Dot(u, u) == a * a * V.Dot(w, w) + 2.0 * (a * b * V.Dot(w, v)) + b * b * V.Dot(v, v)
  {
    hide V.Dot; hide V.Times; hide V.Plus;
    var p, q := V.Times(a, w), V.Times(b, v);
    var u := V.Plus(p, q);
    V.DotPlus(p, q, u); V.DotSymmetric(p, u); V.DotSymmetric(q, u);
    V.DotPlus(p, q, p); V.DotPlus(p, q, q); V.DotSymmetric(p, q);
    V.Stretch(a, w); V.Stretch(b, v);
    V.DotTimes(a, w, q); V.DotSymmetric(w, q); V.DotTimes(b, v, w); V.DotSymmetric(v, w);
    assert a * V.Dot(q, w) == a * (b * V.Dot(v, w));
  }

  lemma LowPassSquares(a: real, b: real, n: real, s: real, ww: real, wv: real, vv: real)
    requires a >= 0.0 && b >= 0.0 && ww == n * n && wv <= n * s && vv <= s * s
    ensures a * a * ww + 2.0 * (a * b * wv) + b * b * vv <= (a * n + b * s) * (a * n + b * s)
  {
    var ab, bb, d, e := a * b, b * b, n * s - wv, s * s - vv;
    assert a * b >= 0.0 && b * b >= 0.0;
    assert ab * d >= 0.0 && bb * e >= 0.0;
    assert a * a * ww == a * a * (n * n);
    assert ab * d == a * b * (n * s) - a * b * wv;
    assert bb * e == b * b * (s * s) - b * b * vv;
  }

  /** `u . v <= |u| |v|`, with `n`, `s` at least the two lengths. */
  lemma CauchySchwarz(u: V.Vec, v: V.Vec, n: real, s: real)
    requires n >= 0.0 && s >= 0.0 && n * n == V.Dot(u, u) && V.Dot(v, v) <= s * s
    ensures V.Dot(u, v) <= n * s
  {
    hide V.Dot;
    V.Lagrange(u, v);
    V.DotSelf(V.Cross(u, v));
    BelowProduct(n, s, V.Dot(u, u), V.Dot(v, v), V.Dot(u, v), V.Dot(V.Cross(u, v), V.Cross(u, v)));
  }

  lemma BelowProduct(n: real, s: real, uu: real, vv: real, uv: real, cross: real)
    requires n >= 0.0 && s >= 0.0 && n * n == uu && vv <= s * s && cross >= 0.0 && uu * vv == uv * uv + cross
    ensures uv <= n * s
  {
    var k, ss := n * s, s * s;
    assert n * s >= 0.0 && n * n >= 0.0;
    Bounded(uu, vv, ss);
    assert k * k == uu * ss by { assert k * k == n * n * (s * s); assert uu * ss == n * n * (s * s); }
    R.Root(uv, k);
  }

  lemma Bounded(k: real, x: real, y: real)
    requires k >= 0.0 && x <= y
    ensures k * x <= k * y
  {
    assert k * (y - x) >= 0.0;
  }

  /** `motions` lists the speeds and intervals a smoothed stream runs through. */
  ghost predicate Describes(m: R.Library, c: Config, samples: seq<Sample>, motions: seq<Motion>) {
    && |samples| == |motions| + 1
    && forall k | 0 <= k < |motions| ::
         var state := Run(m, c, samples)[k];
         var sample := Q.MakeSignCompatible(samples[k + 1].quaternion, state.filtered);
         && motions[k].interval == Interval(state, samples[k + 1].timestamp)
         && motions[k].speed == R.Quotient(AngleBetween(m, sample, state.filtered), motions[k].interval)
  }

  /** The speed the smoother keeps is the scalar low-pass of those motions. */
  lemma {:induction false} RunSpeed(m: R.Library, c: Config, samples: seq<Sample>, motions: seq<Motion>)
    requires Describes(m, c, samples, motions)
    ensures Run(m, c, samples)[|motions|].speed == ScalarRun(m, c, motions)
  {
    hide Q.MakeSignCompatible; hide AngleBetween; hide R.Quotient; hide SmoothingFactor; hide LowPass; hide Slerp;
    var n := |motions|;
    if n > 0 {
      assert samples[..n + 1] == samples;
      var before := Run(m, c, samples[..n]);
      assert Run(m, c, samples)[..n] == before;
      forall k | 0 <= k < n - 1
        ensures Run(m, c, samples[..n])[k] == Run(m, c, samples)[k] && samples[..n][k + 1] == samples[k + 1]
      {}
      assert motions[..n - 1] == motions[..|motions| - 1];
      RunSpeed(m, c, samples[..n], motions[..n - 1]);
      assert motions[n - 1] == motions[|motions| - 1];
      assert Run(m, c, samples)[n - 1] == before[n - 1];
    }
  }

  /** So the smoothing factor used is never below the one the reference filter would use. */
  lemma NeverMoreLag(m: R.Library, c: Config, motions: seq<Motion>, length: real, speed: real, interval: real)
    requires R.Sound(m) && ValidConfig(c) && interval > 0.0 && speed == ScalarRun(m, c, motions)
    requires forall x <- motions ::
      x.interval > 0.0 && x.speed >= 0.0 && x.speed * x.speed == V.Dot(x.velocity, x.velocity)
    requires length >= 0.0 && length * length == V.Dot(VectorRun(m, c, motions), VectorRun(m, c, motions))
    ensures SmoothingFactor(m, interval, Cutoff(c, length))
         <= SmoothingFactor(m, interval, Cutoff(c, speed))
  {
    hide R.Sound; hide V.Dot; hide SmoothingFactor; hide ScalarRun; hide VectorRun;
    ScalarDominates(m, c, motions);
    R.Root(length, speed);
    Bounded(c.beta, length, speed);
    CutoffFloor(c, length);
    FactorMonotone(m, interval, Cutoff(c, length), interval, Cutoff(c, speed));
  }

  /** And the factor that each sample of a stream is smoothed with is such a factor, whatever
      velocities of those speeds the reference filter would have seen. */
  lemma StreamNeverMoreLag(m: R.Library, c: Config, samples: seq<Sample>, motions: seq<Motion>, k: nat, length: real)
    requires R.Sound(m) && ValidConfig(c)
    requires Describes(m, c, samples, motions) && k < |motions|
    requires forall x <- motions :: x.speed * x.speed == V.Dot(x.velocity, x.velocity)
    requires var v := VectorRun(m, c, motions[..k + 1]); length >= 0.0 && length * length == V.Dot(v, v)
    ensures var states, t := Run(m, c, samples), motions[k].interval;
      var used, reference :=
        SmoothingFactor(m, t, Cutoff(c, states[k + 1].speed)), SmoothingFactor(m, t, Cutoff(c, length));
      && states[k + 1].filtered ==
           Slerp(m, states[k].filtered, Q.MakeSignCompatible(samples[k + 1].quaternion, states[k].filtered), used)
      && reference <= used
  {
    hide R.Sound; hide Q.Unit; hide Q.MakeSignCompatible; hide V.Dot; hide Slerp; hide SmoothingFactor;
    hide AngleBetween;
    hide LowPass; hide R.Quotient; hide Cutoff; hide ScalarRun; hide VectorRun; hide Interval; hide Run; hide Describes;
    var before := motions[..k + 1];
    DescribesAt(m, c, samples, motions, k);
    DescribesPrefix(m, c, samples, motions, k + 1);
    RunSpeed(m, c, samples[..k + 2], before);
    RunPrefix(m, c, samples, k + 2);
    RunStep(m, c, samples, k);
    MotionsForward(m, c, samples, motions);
    assert Run(m, c, samples)[..k + 2][k + 1] == Run(m, c, samples)[k + 1];
    assert motions[k] in motions && forall x <- before :: x in motions;
    NeverMoreLag(m, c, before, length, Run(m, c, samples)[k + 1].speed, motions[k].interval);
  }

  lemma {:induction false} RunPrefix(m: R.Library, c: Config, samples: seq<Sample>, n: nat)
    requires n <= |samples|
    ensures Run(m, c, samples)[..n] == Run(m, c, samples[..n])
  {
    hide Smooth;
    if n < |samples| {
      var before := samples[..|samples| - 1];
      RunPrefix(m, c, before, n);
      assert before[..n] == samples[..n];
      assert Run(m, c, samples)[..n] == Run(m, c, before)[..n];
    } else {
      assert samples[..n] == samples;
    }
  }

  lemma RunStep(m: R.Library, c: Config, samples: seq<Sample>, k: nat)
    requires k + 1 < |samples|
    ensures var states := Run(m, c, samples);
      states[k + 1] == Smooth(m, c, Some(states[k]), samples[k + 1].quaternion, samples[k + 1].timestamp)
  {
    hide Smooth;
    RunPrefix(m, c, samples, k + 2);
    var these := samples[..k + 2];
    assert Run(m, c, samples)[..k + 2][k + 1] == Run(m, c, samples)[k + 1];
    assert Run(m, c, samples)[..k + 2][k] == Run(m, c, samples)[k];
    assert these[..k + 1][..k + 1] == these[..k + 1];
  }

  lemma DescribesPrefix(m: R.Library, c: Config, samples: seq<Sample>, motions: seq<Motion>, n: nat)
    requires Describes(m, c, samples, motions) && n <= |motions|
    ensures Describes(m, c, samples[..n + 1], motions[..n])
  {
    hide Run; hide Q.MakeSignCompatible; hide AngleBetween; hide R.Quotient; hide Interval;
    RunPrefix(m, c, samples, n + 1);
    forall k | 0 <= k < n
      ensures Run(m, c, samples[..n + 1])[k] == Run(m, c, samples)[k] && samples[..n + 1][k + 1] == samples[k + 1]
    {
      assert Run(m, c, samples)[..n + 1][k] == Run(m, c, samples)[k];
    }
  }

  lemma DescribesAt(m: R.Library, c: Config, samples: seq<Sample>, motions: seq<Motion>, k: nat)
    requires Describes(m, c, samples, motions) && k < |motions|
    ensures |samples| == |motions| + 1
    ensures motions[k].interval == Interval(Run(m, c, samples)[k], samples[k + 1].timestamp)
  {
    hide Run;
  }

  /** The motions of a stream take time and have a speed. */
  lemma MotionsForward(m: R.Library, c: Config, samples: seq<Sample>, motions: seq<Motion>)
    requires R.Sound(m) && Describes(m, c, samples, motions)
    ensures forall x <- motions :: x.interval > 0.0 && x.speed >= 0.0
  {
    hide R.Sound; hide Q.MakeSignCompatible; hide AngleBetween; hide R.Quotient; hide Run; hide Q.Dot;
    forall k | 0 <= k < |motions|
      ensures motions[k].interval > 0.0 && motions[k].speed >= 0.0
    {
      var state := Run(m, c, samples)[k];
      SpeedNonNegative(m, Q.MakeSignCompatible(samples[k + 1].quaternion, state.filtered), state.filtered,
                       motions[k].interval);
    }
  }

  /** The smoother object: one state per bone, updated by every sample. */
  class PoseSmoother {
    const m: R.Library
    const config: Config
    var states: map<Name, BoneState>

    ghost predicate Valid()
      reads this
    {
      R.Sound(m) && ValidConfig(config) && forall bone <- states :: GoodState(states[bone])
    }

    constructor (m: R.Library, config: Config)
      requires R.Sound(m) && ValidConfig(config)
      ensures Valid() && states == map[] && this.m == m && this.config == config
    {
      this.m, this.config, states := m, config, map[];
    }

    method SmoothBone(bone: Name, quaternion: Q.Quat, timestamp: real) returns (filtered: Q.Quat)
      requires Valid() && Q.Unit(quaternion)
      modifies this
      ensures Valid() && Q.Unit(filtered)
      ensures filtered == Smooth(m, config, Lookup(old(states), bone), quaternion, timestamp).filtered
      ensures states == old(states)[bone := Smooth(m, config, Lookup(old(states), bone), quaternion, timestamp)]
    {
      SmoothKeeps(m, config, Lookup(states, bone), quaternion, timestamp);
      hide R.Sound; hide Q.Unit; hide Q.Dot; hide SmoothingFactor; hide AngleBetween; hide Slerp; hide LowPass;
      hide R.Quotient; hide Between; hide Q.Neg; hide Cutoff;
      if bone !in states {
        states := states[bone := BoneState(quaternion, 0.0, timestamp)];
        return quaternion;
      }
      var state := states[bone];
      var interval := timestamp - state.timestamp;
      if interval <= 0.0 {
        interval := FALLBACK_INTERVAL;
      }
      var sample := quaternion;
      if Q.Dot(sample, state.filtered) < 0.0 {
        sample := Q.Neg(sample);
      }
      var speed := R.Quotient(AngleBetween(m, sample, state.filtered), interval);
      var speedAlpha := SmoothingFactor(m, interval, config.derivativeCutoff);
      var speedHat := LowPass(speedAlpha, speed, state.speed);
      var cutoff := Cutoff(config, speedHat);
      filtered := Slerp(m, state.filtered, sample, SmoothingFactor(m, interval, cutoff));
      states := states[bone := BoneState(filtered, speedHat, timestamp)];
    }
  }

  function Lookup<T>(m: map<Name, T>, bone: Name): Option<T> { if bone in m then Some(m[bone]) else None }

  /** The smoother's constructor refuses a configuration exactly when it is not valid. */
  method NewSmoother(m: R.Library, config: Config) returns (r: Result<PoseSmoother>)
    requires R.Sound(m)
    ensures r.Ok? <==> config.minCutoff > 0.0 && config.derivativeCutoff > 0.0 && config.beta >= 0.0
    ensures r.Ok? ==>
      && r.value.Valid() && fresh(r.value)
      && r.value.m == m && r.value.config == config && r.value.states == map[]
  {
    if config.minCutoff <= 0.0 || config.derivativeCutoff <= 0.0 {
      return Err("cutoff frequencies must be positive");
    }
    if config.beta < 0.0 {
      return Err("beta must not be negative");
    }
    var smoother := new PoseSmoother(m, config);
    r := Ok(smoother);
  }
}
