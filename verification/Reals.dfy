/** The real functions the pose core takes from its mathematics library.  They are a
    parameter of every function that uses them; `Sound` lists the textbook facts about
    square root, sine, cosine and arc cosine that the proofs rest on. */
module Reals {
  datatype Library = Library(
    sqrt: real -> real,
    sin: real -> real,
    cos: real -> real,
    acos: real -> real,
    pi: real)

  /** A name for `a - b` that the subtraction formulas below are triggered by. */
  function Minus(a: real, b: real): real { a - b }

  ghost predicate Sound(m: Library) {
    && m.pi > 3.0
    && (forall x: real {:trigger m.sqrt(x)} :: x >= 0.0 ==> m.sqrt(x) >= 0.0 && m.sqrt(x) * m.sqrt(x) == x)
    && (forall x: real {:trigger m.sin(x)} :: m.sin(x) * m.sin(x) + m.cos(x) * m.cos(x) == 1.0)
    && (forall x: real {:trigger m.sin(x)} :: 0.0 <= x <= m.pi ==> 0.0 <= m.sin(x) <= x)
    && (forall d: real {:trigger m.acos(d)} ::
          -1.0 <= d <= 1.0 ==> 0.0 <= m.acos(d) <= m.pi && m.cos(m.acos(d)) == d)
    && (forall a: real, b: real {:trigger Minus(a, b)} ::
          && m.sin(Minus(a, b)) == m.sin(a) * m.cos(b) - m.cos(a) * m.sin(b)
          && m.cos(Minus(a, b)) == m.cos(a) * m.cos(b) + m.sin(a) * m.sin(b))
  }

  /** Floating-point division by zero has no real value; 0 stands for it, and the proofs
      about each use show that its divisor is never zero. */
  function Quotient(a: real, b: real): real { if b == 0.0 then 0.0 else a / b }

  lemma QuotientTimes(a: real, n: real)
    requires n != 0.0
    ensures n * Quotient(a, n) == a
  {}

  /* Each fact on its own, so that a proof takes in no more than it needs. */

  lemma Sqrt(m: Library, x: real) returns (r: real)
    requires Sound(m) && x >= 0.0
    ensures r == m.sqrt(x) >= 0.0 && r * r == x
  {
    r := m.sqrt(x);
  }

  lemma Pythagoras(m: Library, x: real)
    requires Sound(m)
    ensures m.sin(x) * m.sin(x) + m.cos(x) * m.cos(x) == 1.0
  {
    var _ := m.sin(x);
  }

  lemma SinNonNegative(m: Library, x: real)
    requires Sound(m) && 0.0 <= x <= m.pi
    ensures 0.0 <= m.sin(x) <= x
  {}

  lemma Acos(m: Library, d: real)
    requires Sound(m) && -1.0 <= d <= 1.0
    ensures 0.0 <= m.acos(d) <= m.pi && m.cos(m.acos(d)) == d
  {}

  lemma Subtraction(m: Library, a: real, b: real)
    requires Sound(m)
    ensures m.sin(a - b) == m.sin(a) * m.cos(b) - m.cos(a) * m.sin(b)
    ensures m.cos(a - b) == m.cos(a) * m.cos(b) + m.sin(a) * m.sin(b)
  {
    assert Minus(a, b) == a - b;
  }

  /** Sine is odd and cosine even. */
  lemma Opposite(m: Library, x: real)
    requires Sound(m)
    ensures m.sin(-x) == -m.sin(x) && m.cos(-x) == m.cos(x)
  {
    SinNonNegative(m, 0.0);
    Subtraction(m, 0.0, 0.0);
    Subtraction(m, 0.0, x);
    hide Sound;
    assert 0.0 - x == -x;
  }

  /** Square roots are unique, so a non-negative square root is the library's. */
  lemma SqrtUnique(m: Library, x: real, r: real)
    requires Sound(m) && r >= 0.0 && r * r == x
    ensures m.sqrt(x) == r
  {
    var s := Sqrt(m, x);
    hide Sound;
    if s < r { Square(s, r); } else if r < s { Square(r, s); }
  }

  /** Of two squares the smaller belongs to the smaller number. */
  lemma Root(a: real, b: real)
    requires b >= 0.0 && a * a <= b * b
    ensures a <= b
  {
    if a > b { Square(b, a); }
  }

  lemma ZeroProduct(a: real, b: real)
    ensures a * b == 0.0 <==> a == 0.0 || b == 0.0
  {}

  lemma SquaresZero(a: real, b: real, c: real, d: real)
    requires a * a + b * b + c * c + d * d == 0.0
    ensures a == 0.0 && b == 0.0 && c == 0.0 && d == 0.0
  {
    assert a * a >= 0.0 && b * b >= 0.0 && c * c >= 0.0 && d * d >= 0.0;
    ZeroProduct(a, a); ZeroProduct(b, b); ZeroProduct(c, c); ZeroProduct(d, d);
  }

  lemma CancelSquare(n: real, t: real, total: real)
    requires n != 0.0 && total == n * n && total == n * n * t
    ensures t == 1.0
  {
    assert n * (n * (t - 1.0)) == 0.0;
    var u := n * (t - 1.0);
    ZeroProduct(n, u);
    ZeroProduct(n, t - 1.0);
  }

  lemma NonNegative(a: real, b: real)
    requires a >= 0.0 && b >= 0.0
    ensures a * b >= 0.0
  {}

  lemma SquareNonNegative(a: real)
    ensures a * a >= 0.0
  {}

  lemma PositiveFactor(a: real, b: real)
    requires a > 0.0
    ensures (a * b > 0.0 <==> b > 0.0) && (a * b >= 0.0 <==> b >= 0.0)
  {}

  lemma Divide(a: real, n: real)
    requires n != 0.0
    ensures n * (a / n) == a
  {}

  /** Squaring is strictly monotone on the non-negative reals. */
  lemma Square(a: real, b: real)
    requires 0.0 <= a < b
    ensures a * a < b * b
  {
    assert (b - a) * b > 0.0 && (b - a) * a >= 0.0;
  }

  /** Cosine falls on the first half turn: moving back from `theta` by `phi` raises it. */
  lemma CosineFalls(m: Library, theta: real, phi: real)
    requires Sound(m) && 0.0 <= phi <= theta <= m.pi
    ensures m.cos(theta - phi) >= m.cos(theta)
  {
    hide Sound;
    var h := phi / 2.0;
    var a := theta - h;
    Subtraction(m, theta, h);
    Subtraction(m, a, h);
    Pythagoras(m, h);
    SinNonNegative(m, h);
    SinNonNegative(m, a);
    assert a - h == theta - phi;
    CosineGap(m.sin(theta), m.cos(theta), m.sin(h), m.cos(h), m.sin(a), m.cos(a));
  }

  lemma CosineGap(s: real, c: real, sh: real, ch: real, sa: real, ca: real)
    requires sa == s * ch - c * sh && ca == c * ch + s * sh
    requires sh * sh + ch * ch == 1.0 && sa >= 0.0 && sh >= 0.0
    ensures ca * ch + sa * sh >= c
  {
    CosineBack(s, c, sh, ch, sa, ca);
    assert sa * sh >= 0.0;
  }

  lemma CosineBack(s: real, c: real, sh: real, ch: real, sa: real, ca: real)
    requires sa == s * ch - c * sh && ca == c * ch + s * sh && sh * sh + ch * ch == 1.0
    ensures ca * ch - sa * sh == c
  {
    calc {
      ca * ch - sa * sh;
      (c * ch + s * sh) * ch - (s * ch - c * sh) * sh;
      c * (sh * sh + ch * ch);
      c;
    }
  }
}
