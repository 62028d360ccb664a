/** Angles on the dial: JavaScript's truncating `%`, the normalisation to [0, 2π)
    that the game applies before every comparison, and the shortest circular distance. */
module Angles {

  /** JavaScript's `Math.PI`, as its decimal value; arithmetic on it is exact here. */
  const PI: real := 3.141592653589793
  /** `Math.PI * 2` */
  const TwoPi: real := 6.283185307179586

  function Abs(x: real): real { if x < 0.0 then -x else x }

  /** Truncation toward zero, as JavaScript's `%` uses it. */
  function Trunc(x: real): (n: int)
    ensures 0.0 <= x ==> n as real <= x < n as real + 1.0
    ensures x < 0.0 ==> n as real - 1.0 < x <= n as real
  {
    if x >= 0.0 then x.Floor else -((-x).Floor)
  }

  /** `x % (Math.PI * 2)`: the remainder takes the sign of the dividend. */
  function RemTwoPi(x: real): (r: real)
    ensures 0.0 <= x ==> 0.0 <= r < TwoPi
    ensures x < 0.0 ==> -TwoPi < r <= 0.0
  {
    x - TwoPi * (Trunc(x / TwoPi) as real)
  }

  /** The representative of `a` in [0, 2π): `a` minus the whole turns below it. */
  function Normalize(a: real): (r: real)
    ensures 0.0 <= r < TwoPi
  {
    a - TwoPi * ((a / TwoPi).Floor as real)
  }

  /** The game's normalisation `((a % (2π)) + 2π) % (2π)`, with both remainders
      truncating, is exactly `Normalize`. */
  lemma NormalizeClosedForm(a: real)
    ensures RemTwoPi(RemTwoPi(a) + TwoPi) == Normalize(a)
  {
    var q := a / TwoPi;
    assert q * TwoPi == a;
    var m := RemTwoPi(a);
    var n := (m + TwoPi) / TwoPi;
    assert n * TwoPi == m + TwoPi;
    if a >= 0.0 {
      assert Trunc(q) == q.Floor;
      assert 1.0 <= n < 2.0;
      assert Trunc(n) == 1;
    } else {
      var c := Trunc(q);
      assert m == a - TwoPi * (c as real);
      if m + TwoPi < TwoPi {
        assert 0.0 < n < 1.0;
        assert Trunc(n) == 0;
        assert q < c as real && c as real - 1.0 < q;
        assert q.Floor == c - 1;
      } else {
        assert n == 1.0;
        assert q == c as real;
        assert q.Floor == c;
      }
    }
  }

  /** The normal form is the only value in [0, 2π) that differs from `a` by whole turns. */
  lemma NormalizeUnique(a: real, r: real, k: int)
    requires 0.0 <= r < TwoPi
    requires r == a - TwoPi * (k as real)
    ensures Normalize(a) == r
  {
    var f := (a / TwoPi).Floor;
    assert a / TwoPi == r / TwoPi + k as real;
    assert 0.0 <= r / TwoPi < 1.0;
    assert f == k;
  }

  /** Whole turns added to an angle do not change its normal form. */
  lemma NormalizeTurns(a: real, k: int)
    ensures Normalize(a + TwoPi * (k as real)) == Normalize(a)
  {
    var r := Normalize(a);
    var f := (a / TwoPi).Floor;
    NormalizeUnique(a + TwoPi * (k as real), r, f + k);
  }

  /** An angle already in [0, 2π) is its own normal form. */
  lemma NormalizeIdempotent(a: real)
    requires 0.0 <= a < TwoPi
    ensures Normalize(a) == a
  {
    NormalizeUnique(a, a, 0);
  }

  /** The distance folding of lines 291-294: `|p - w|`, replaced by `2π - |p - w|`
      when it exceeds π. Both arguments are normal forms. */
  function Fold(p: real, w: real): (d: real)
    requires 0.0 <= p < TwoPi && 0.0 <= w < TwoPi
    ensures 0.0 <= d <= PI
    ensures d == Abs(p - w) || d == TwoPi - Abs(p - w)
  {
    var diff := Abs(p - w);
    if diff > PI then TwoPi - diff else diff
  }

  /** The shortest circular distance between two angles, computed as the game does:
      normalise both, then fold their difference. */
  function CircularDistance(pointer: real, window: real): (d: real)
    ensures 0.0 <= d <= PI
  {
    Fold(Normalize(pointer), Normalize(window))
  }

  /** The distance is symmetric. */
  lemma CircularDistanceSymmetric(a: real, b: real)
    ensures CircularDistance(a, b) == CircularDistance(b, a)
  {
    assert Abs(Normalize(a) - Normalize(b)) == Abs(Normalize(b) - Normalize(a));
  }

  /** Turning either angle by whole turns leaves the distance unchanged. */
  lemma CircularDistanceTurns(a: real, b: real, j: int, k: int)
    ensures CircularDistance(a + TwoPi * (j as real), b + TwoPi * (k as real)) == CircularDistance(a, b)
  {
    NormalizeTurns(a, j);
    NormalizeTurns(b, k);
  }

  /** Offsetting a normalised angle by `d` with `|d| <= π` and normalising again puts it
      at circular distance exactly `|d|`: the fallback placement of the scheduler. */
  lemma DistanceOfOffset(p: real, d: real)
    requires 0.0 <= p < TwoPi
    requires Abs(d) <= PI
    ensures CircularDistance(p, Normalize(p + d)) == Abs(d)
  {
    NormalizeIdempotent(p);
    var w := Normalize(p + d);
    NormalizeIdempotent(w);
    if p + d < 0.0 {
      NormalizeUnique(p + d, p + d + TwoPi, -1);
    } else if p + d < TwoPi {
      NormalizeUnique(p + d, p + d, 0);
    } else {
      NormalizeUnique(p + d, p + d - TwoPi, 1);
    }
  }
}
