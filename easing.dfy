/** Time-to-progress helpers shared by the render path and the hit test. */
module Easing {

  function Clamp01(v: real): (r: real)
    ensures 0.0 <= r <= 1.0
    ensures 0.0 <= v <= 1.0 ==> r == v
    ensures v < 0.0 ==> r == 0.0
    ensures v > 1.0 ==> r == 1.0
  {
    if v < 0.0 then 0.0 else if v > 1.0 then 1.0 else v
  }

  function Cube(v: real): real { v * v * v }

  /** The input is clamped to [0,1] first; below 0.5 the curve is 4t^3, from 0.5 on
      it is 1 - (2 - 2t)^3 / 2. */
  function EaseInOutCubic(t0: real): real {
    var t := Clamp01(t0);
    if t < 0.5 then 4.0 * Cube(t) else 1.0 - Cube(-2.0 * t + 2.0) / 2.0
  }

  function Lerp(a: real, b: real, t: real): real {
    a + (b - a) * t
  }

  // ---------------------------------------------------------------------------
  // Arithmetic facts about the cube

  lemma {:induction false} MulMono(a: real, b: real, c: real)
    requires 0.0 <= a <= b && 0.0 <= c
    ensures a * c <= b * c
  {
    assert b * c - a * c == (b - a) * c;
  }

  lemma {:induction false} CubeMono(a: real, b: real)
    requires 0.0 <= a <= b
    ensures Cube(a) <= Cube(b)
  {
    MulMono(a, b, a);
    MulMono(a, b, b);
    assert a * a <= b * b;
    MulMono(a * a, b * b, a);
    MulMono(a, b, b * b);
    assert a * a * a <= b * b * a;
    assert b * b * a == a * (b * b);
    assert a * (b * b) <= b * (b * b);
  }

  lemma {:induction false} CubeUnit(a: real)
    requires 0.0 <= a <= 1.0
    ensures 0.0 <= Cube(a) <= 1.0
  {
    CubeMono(0.0, a);
    CubeMono(a, 1.0);
  }

  // ---------------------------------------------------------------------------
  // Properties of the easing curve

  /** Out-of-range inputs are clamped before the curve is applied. */
  lemma EaseClampsFirst(t: real)
    ensures EaseInOutCubic(t) == EaseInOutCubic(Clamp01(t))
  {
  }

  /** The curve starts at 0, ends at 1, and both pieces meet at 0.5. */
  lemma EaseEndpoints()
    ensures EaseInOutCubic(0.0) == 0.0
    ensures EaseInOutCubic(1.0) == 1.0
    ensures EaseInOutCubic(0.5) == 0.5
    ensures 4.0 * Cube(0.5) == 0.5
  {
  }

  /** For every input the eased progress lies in [0,1]; the first piece stays
      below one half and the second piece at or above it. */
  lemma {:induction false} EaseInUnit(t: real)
    ensures 0.0 <= EaseInOutCubic(t) <= 1.0
    ensures Clamp01(t) < 0.5 ==> EaseInOutCubic(t) < 0.5
    ensures Clamp01(t) >= 0.5 ==> EaseInOutCubic(t) >= 0.5
  {
    var c := Clamp01(t);
    if c < 0.5 {
      CubeMono(0.0, c);
      CubeStrict(c, 0.5);
    } else {
      CubeUnit(-2.0 * c + 2.0);
    }
  }

  lemma {:induction false} CubeStrict(a: real, b: real)
    requires 0.0 <= a < b
    ensures Cube(a) < Cube(b)
  {
    CubeMono(a, b);
    assert Cube(b) - Cube(a) == (b - a) * (b * b + a * b + a * a);
    assert b * b > 0.0;
    assert a * b >= 0.0 && a * a >= 0.0;
    assert (b - a) * (b * b + a * b + a * a) > 0.0;
  }

  /** The eased progress never decreases as time goes on. */
  lemma {:induction false} EaseMonotone(t1: real, t2: real)
    requires t1 <= t2
    ensures EaseInOutCubic(t1) <= EaseInOutCubic(t2)
  {
    var c1, c2 := Clamp01(t1), Clamp01(t2);
    assert c1 <= c2;
    EaseInUnit(t1);
    EaseInUnit(t2);
    if c1 < 0.5 && c2 < 0.5 {
      CubeMono(c1, c2);
    } else if c1 >= 0.5 && c2 >= 0.5 {
      CubeMono(-2.0 * c2 + 2.0, -2.0 * c1 + 2.0);
    }
  }

  lemma {:induction false} ScaleUnit(t: real, d: real)
    requires 0.0 <= t <= 1.0 && 0.0 <= d
    ensures 0.0 <= d * t <= d
  {
    assert d - d * t == d * (1.0 - t);
  }

  /** Interpolation hits both ends and stays between them for t in [0,1]. */
  lemma {:induction false} LerpBetween(a: real, b: real, t: real)
    ensures Lerp(a, b, 0.0) == a && Lerp(a, b, 1.0) == b
    ensures 0.0 <= t <= 1.0 && a <= b ==> a <= Lerp(a, b, t) <= b
    ensures 0.0 <= t <= 1.0 && b <= a ==> b <= Lerp(a, b, t) <= a
  {
    if 0.0 <= t <= 1.0 {
      if a <= b {
        LerpUp(a, b, t);
      }
      if b <= a {
        LerpDown(a, b, t);
      }
    }
  }

  lemma {:induction false} LerpUp(a: real, b: real, t: real)
    requires 0.0 <= t <= 1.0 && a <= b
    ensures a <= Lerp(a, b, t) <= b
  {
    var d := b - a;
    ScaleUnit(t, d);
    var p := d * t;
    assert Lerp(a, b, t) == a + p;
  }

  lemma {:induction false} LerpDown(a: real, b: real, t: real)
    requires 0.0 <= t <= 1.0 && b <= a
    ensures b <= Lerp(a, b, t) <= a
  {
    var d := a - b;
    ScaleUnit(t, d);
    var p := d * t;
    assert (b - a) * t == -p;
    assert Lerp(a, b, t) == a - p;
  }

  /** With a <= b, interpolation is non-decreasing in t. */
  lemma {:induction false} LerpMonotone(a: real, b: real, t1: real, t2: real)
    requires a <= b && t1 <= t2
    ensures Lerp(a, b, t1) <= Lerp(a, b, t2)
  {
    assert Lerp(a, b, t2) - Lerp(a, b, t1) == (b - a) * (t2 - t1);
    MulMono(0.0, b - a, t2 - t1);
  }
}
