/**
 * Angle bookkeeping shared by the camera: the constant 2π and the two
 * wrapping loops of camera.cpp (the full wrap into [0, 2π) used after a
 * drag, and the one-sided reduction used after an auto-rotation step).
 * Angles are `real`s; the source's float and double copies of 2π are one
 * constant here.
 */
module Angles {

  /** 2π, the period of every rotation angle. */
  const TwoPi: real := 6.283185307179586

  /** k whole turns. */
  function Turns(k: int): real
  {
    k as real * TwoPi
  }

  /** a and b name the same direction: they differ by a whole number of turns. */
  ghost predicate Coterminal(a: real, b: real)
  {
    exists k: int :: b == a + Turns(k)
  }

  /** The representative of `angle` in [0, 2π): a reference definition by floor division. */
  function Wrapped(angle: real): (r: real)
    ensures 0.0 <= r < TwoPi
    ensures Coterminal(angle, r)
  {
    var q := (angle / TwoPi).Floor;
    assert angle - q as real * TwoPi == angle + Turns(-q);
    angle - q as real * TwoPi
  }

  /** Two angles of the same direction that lie less than one turn apart are equal. */
  lemma SameDirectionClose(a: real, r1: real, r2: real)
    requires Coterminal(a, r1) && Coterminal(a, r2)
    requires r1 - TwoPi < r2 < r1 + TwoPi
    ensures r1 == r2
  {
    var k1: int :| r1 == a + Turns(k1);
    var k2: int :| r2 == a + Turns(k2);
    assert r2 - r1 == Turns(k2 - k1);
  }

  /** Wrapping fixes every angle already in [0, 2π). */
  lemma WrappedFixes(angle: real)
    requires 0.0 <= angle < TwoPi
    ensures Wrapped(angle) == angle
  {
    assert Coterminal(angle, angle) by { assert angle == angle + Turns(0); }
    SameDirectionClose(angle, angle, Wrapped(angle));
  }

  /** Wrapping is idempotent. */
  lemma WrappedIdempotent(angle: real)
    ensures Wrapped(Wrapped(angle)) == Wrapped(angle)
  {
    WrappedFixes(Wrapped(angle));
  }

  /** Wrapping before adding an offset changes nothing once the sum is wrapped again. */
  lemma WrappedShift(angle: real, delta: real)
    ensures Wrapped(Wrapped(angle) + delta) == Wrapped(angle + delta)
  {
    var w := Wrapped(angle);
    var k: int :| w == angle + Turns(k);
    var r1 := Wrapped(w + delta);
    var r2 := Wrapped(angle + delta);
    var j1: int :| r1 == w + delta + Turns(j1);
    assert r1 == angle + delta + Turns(k + j1);
    assert Coterminal(angle + delta, r1);
    SameDirectionClose(angle + delta, r1, r2);
  }

  /**
   * The pitch/yaw wrap of updateModelRotation: add 2π while negative, then
   * subtract 2π while at least 2π. The result is the [0, 2π) representative.
   */
  method WrapAngle(angle: real) returns (r: real)
    ensures 0.0 <= r < TwoPi
    ensures r == Wrapped(angle)
  {
    r := angle;
    ghost var k: int := 0;
    while r < 0.0
      invariant r == angle + Turns(k)
      decreases (-r).Floor
    {
      r := r + TwoPi;
      k := k + 1;
    }
    while r >= TwoPi
      invariant 0.0 <= r
      invariant r == angle + Turns(k)
      decreases r.Floor
    {
      r := r - TwoPi;
      k := k - 1;
    }
    assert Coterminal(angle, r);
    SameDirectionClose(angle, r, Wrapped(angle));
  }

  /**
   * Reference for the auto-rotation reduction: an angle at most 2π is kept
   * as it is (negative ones included); a larger one is brought into (0, 2π],
   * so an exact multiple of 2π becomes 2π rather than 0.
   */
  function ReducedAbove(angle: real): (r: real)
    ensures r <= TwoPi
    ensures angle <= TwoPi ==> r == angle
    ensures angle > TwoPi ==> 0.0 < r
    ensures Coterminal(angle, r)
  {
    if angle <= TwoPi then
      assert angle == angle + Turns(0);
      angle
    else
      var w := Wrapped(angle);
      if w == 0.0 then
        assert Coterminal(angle, TwoPi) by {
          var k: int :| w == angle + Turns(k);
          assert TwoPi == angle + Turns(k + 1);
        }
        TwoPi
      else
        w
  }

  /** The loop of updateAutoRotation: subtract 2π while strictly above 2π. */
  method ReduceAbove(angle: real) returns (r: real)
    ensures r <= TwoPi
    ensures r == ReducedAbove(angle)
  {
    r := angle;
    ghost var k: int := 0;
    while r > TwoPi
      invariant r == angle + Turns(k)
      invariant angle <= TwoPi ==> r == angle
      invariant angle > TwoPi ==> 0.0 < r
      decreases r.Floor
    {
      r := r - TwoPi;
      k := k - 1;
    }
    assert Coterminal(angle, r);
    if angle > TwoPi {
      SameDirectionClose(angle, r, ReducedAbove(angle));
    }
  }
}
