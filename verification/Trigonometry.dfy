/** Facts of sine and cosine that follow from those assumed of the library: the sine is positive
    strictly inside the half turn, and the cosine falls strictly there. */
module Trigonometry {
  import R = Reals

  /* ---- the sine is positive inside the half turn ---- */

  /** Shifting by a zero of the sine keeps the sine up to sign. */
  lemma {:induction false} Shifted(m: R.Library, x: real, h: real, k: nat)
    requires R.Sound(m) && m.sin(h) == 0.0 && (m.cos(h) == 1.0 || m.cos(h) == -1.0)
    ensures var y := x - k as real * h;
      m.sin(y) == m.sin(x) || (m.cos(h) == -1.0 && m.sin(y) == -m.sin(x))
  {
    hide R.Sound;
    if k > 0 {
      var before := x - (k - 1) as real * h;
      Shifted(m, x, h, k - 1);
      R.Subtraction(m, before, h);
      assert x - k as real * h == before - h by { assert k as real * h == (k - 1) as real * h + h; }
    }
  }

  /** Reducing a number modulo a positive one. */
  lemma Reduced(x: real, h: real) returns (k: nat)
    requires x >= 0.0 && h > 0.0
    ensures 0.0 <= x - k as real * h < h
  {
    var ratio := x / h;
    k := ratio.Floor;
    assert ratio * h == x;
    var f := ratio - k as real;
    assert 0.0 <= f < 1.0;
    assert f * h == x - k as real * h;
    R.NonNegative(f, h);
    R.PositiveFactor(h, 1.0 - f);
    assert (1.0 - f) * h == h - f * h;
  }

  lemma FlatCosine(m: R.Library, x: real)
    requires R.Sound(m) && m.sin(x) == 0.0
    ensures m.cos(x) == 1.0 || m.cos(x) == -1.0
  {
    R.Pythagoras(m, x);
    hide R.Sound;
    assert (m.cos(x) - 1.0) * (m.cos(x) + 1.0) == 0.0;
    R.ZeroProduct(m.cos(x) - 1.0, m.cos(x) + 1.0);
  }

  /** The quarter turn: the angle whose cosine is zero. */
  lemma QuarterTurn(m: R.Library) returns (q: real)
    requires R.Sound(m)
    ensures 0.0 <= q <= m.pi && m.sin(q) == 1.0
  {
    q := m.acos(0.0);
    R.Acos(m, 0.0);
    R.Pythagoras(m, q);
    R.SinNonNegative(m, q);
    hide R.Sound;
    assert (m.sin(q) - 1.0) * (m.sin(q) + 1.0) == 0.0;
    R.ZeroProduct(m.sin(q) - 1.0, m.sin(q) + 1.0);
  }

  /** No full period is shorter than the half turn. */
  lemma NoShortPeriod(m: R.Library, h: real)
    requires R.Sound(m) && 0.0 < h <= m.pi && m.sin(h) == 0.0
    ensures m.cos(h) == -1.0
  {
    FlatCosine(m, h);
    if m.cos(h) == 1.0 {
      var q := QuarterTurn(m);
      var k := Reduced(q, h);
      Shifted(m, q, h, k);
      var r := q - k as real * h;
      R.Subtraction(m, h, r);
      R.SinNonNegative(m, h - r);
      assert false;
    }
  }

  /** The sine vanishes nowhere strictly inside the half turn. */
  lemma SinePositive(m: R.Library, x: real)
    requires R.Sound(m) && 0.0 < x < m.pi
    ensures m.sin(x) > 0.0
  {
    R.SinNonNegative(m, x);
    if m.sin(x) == 0.0 {
      NoShortPeriod(m, x);
      var t := m.pi - x;
      StillZero(m, x, t);
      StillZero(m, x, t / 2.0);
      HalfAngle(m, t / 2.0);
      NoShortPeriod(m, t);
      assert false;
    }
  }

  lemma StillZero(m: R.Library, x: real, t: real)
    requires R.Sound(m) && 0.0 < x && 0.0 <= t && x + t <= m.pi && m.sin(x) == 0.0 && m.cos(x) == -1.0
    ensures m.sin(t) == 0.0
  {
    R.SinNonNegative(m, t);
    R.SinNonNegative(m, x + t);
    R.Opposite(m, t);
    R.Subtraction(m, x, -t);
    hide R.Sound;
    assert x - (-t) == x + t;
  }

  lemma HalfAngle(m: R.Library, h: real)
    requires R.Sound(m)
    ensures m.cos(2.0 * h) == 1.0 - 2.0 * (m.sin(h) * m.sin(h)) == 2.0 * (m.cos(h) * m.cos(h)) - 1.0
  {
    R.Opposite(m, h);
    R.Subtraction(m, h, -h);
    R.Pythagoras(m, h);
    hide R.Sound;
    assert h - (-h) == 2.0 * h;
  }

  /** Strictly inside the half turn the cosine falls strictly. */
  lemma CosineFallsStrictly(m: R.Library, theta: real, phi: real)
    requires R.Sound(m) && 0.0 < phi <= theta < m.pi
    ensures m.cos(theta - phi) > m.cos(theta)
  {
    hide R.Sound;
    var h := phi / 2.0;
    var a := theta - h;
    R.Subtraction(m, theta, h);
    R.Subtraction(m, a, h);
    R.Pythagoras(m, h);
    SinePositive(m, h);
    SinePositive(m, a);
    assert a - h == theta - phi;
    StrictGap(m.sin(theta), m.cos(theta), m.sin(h), m.cos(h), m.sin(a), m.cos(a));
  }

  lemma StrictGap(s: real, c: real, sh: real, ch: real, sa: real, ca: real)
    requires sa == s * ch - c * sh && ca == c * ch + s * sh
    requires sh * sh + ch * ch == 1.0 && sa > 0.0 && sh > 0.0
    ensures ca * ch + sa * sh > c
  {
    R.CosineBack(s, c, sh, ch, sa, ca);
    assert sa * sh > 0.0;
  }

  /* ---- special angles ---- */

  lemma SameCosine(m: R.Library, a: real, b: real)
    requires a == b
    ensures m.cos(a) == m.cos(b)
  {}

  lemma CosineOfZero(m: R.Library)
    requires R.Sound(m)
    ensures m.sin(0.0) == 0.0 && m.cos(0.0) == 1.0
  {
    R.SinNonNegative(m, 0.0);
    R.Subtraction(m, 0.0, 0.0);
    R.Pythagoras(m, 0.0);
    hide R.Sound;
  }

  /** The half turn is the angle of cosine minus one. */
  lemma CosineOfPi(m: R.Library)
    requires R.Sound(m)
    ensures m.cos(m.pi) == -1.0
  {
    hide R.Sound;
    var p := m.acos(-1.0);
    R.Acos(m, -1.0);
    R.Pythagoras(m, p);
    CosineOfZero(m);
    R.ZeroProduct(m.sin(p), m.sin(p));
    if p < m.pi { SinePositive(m, p); }
  }

  /** A half angle of non-negative cosine is at most a quarter turn. */
  lemma RightAngle(m: R.Library, size: real, angle: real)
    requires R.Sound(m) && size >= 0.0 && 0.0 <= angle <= 2.0 * m.pi && m.cos(angle / 2.0) == size
    ensures angle <= m.pi
  {
    if angle > m.pi {
      hide R.Sound;
      PastQuarter(m, angle / 2.0);
    }
  }

  lemma PastQuarter(m: R.Library, x: real)
    requires R.Sound(m) && m.pi / 2.0 < x <= m.pi
    ensures m.cos(x) < 0.0
  {
    hide R.Sound;
    var q := m.pi / 2.0;
    HalfAngle(m, q);
    CosineOfPi(m);
    SameCosine(m, 2.0 * q, m.pi);
    R.ZeroProduct(m.cos(q), m.cos(q));
    if x < m.pi {
      CosineFallsStrictly(m, x, x - q);
      SameCosine(m, x - (x - q), q);
    }
  }
}
