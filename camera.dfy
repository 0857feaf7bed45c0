/** The camera: a viewport that eases toward a follow point, moving a tenth of
    the remaining way each tick. */
module Cameras {

  /** The fraction of the remaining gap covered per tick. */
  const Smoothing: real := 0.1

  /** One easing step of a coordinate toward `target`: the gap left is 0.9 of
      the gap before, on the same side, so the step never overshoots. */
  function Approach(pos: real, target: real): (r: real)
    ensures r - target == (1.0 - Smoothing) * (pos - target)
    ensures pos <= target ==> pos <= r <= target
    ensures target <= pos ==> target <= r <= pos
    ensures r == target <==> pos == target
  {
    pos + (target - pos) * Smoothing
  }

  /** Easing `n` times from `pos`. */
  function ApproachTimes(pos: real, target: real, n: nat): real
  {
    if n == 0 then pos else Approach(ApproachTimes(pos, target, n - 1), target)
  }

  /** 0.9 to the power `n`. */
  function Decay(n: nat): (r: real)
    ensures 0.0 < r <= 1.0
  {
    if n == 0 then 1.0 else (1.0 - Smoothing) * Decay(n - 1)
  }

  /** A gap `g` shrunk by 0.9, `n` times over. */
  function Shrunk(g: real, n: nat): real
  {
    if n == 0 then g else (1.0 - Smoothing) * Shrunk(g, n - 1)
  }

  /** After `n` ticks toward a fixed target the gap is 0.9^n of the first one. */
  lemma ApproachTimesGap(pos: real, target: real, n: nat)
    ensures ApproachTimes(pos, target, n) - target == Decay(n) * (pos - target)
  {
    ApproachTimesShrinks(pos, target, n);
    ShrunkIsDecay(pos - target, n);
  }

  /** Each tick shrinks the gap to the target by the factor 0.9. */
  lemma {:induction false} ApproachTimesShrinks(pos: real, target: real, n: nat)
    ensures ApproachTimes(pos, target, n) - target == Shrunk(pos - target, n)
  {
    if n > 0 {
      ApproachTimesShrinks(pos, target, n - 1);
    }
  }

  /** Shrinking `n` times is multiplying by 0.9^n. */
  lemma {:induction false} ShrunkIsDecay(g: real, n: nat)
    ensures Shrunk(g, n) == Decay(n) * g
  {
    if n > 0 {
      ShrunkIsDecay(g, n - 1);
      var d := Decay(n - 1);
      assert (1.0 - Smoothing) * (d * g) == ((1.0 - Smoothing) * d) * g;
    }
  }

  /** A shrunk gap is zero exactly when the gap was. */
  lemma {:induction false} ShrunkZero(g: real, n: nat)
    ensures Shrunk(g, n) == 0.0 <==> g == 0.0
  {
    if n > 0 {
      ShrunkZero(g, n - 1);
    }
  }

  /** The camera closes in geometrically but never reaches a target it did not
      start on. */
  lemma ApproachTimesReaches(pos: real, target: real, n: nat)
    ensures ApproachTimes(pos, target, n) == target <==> pos == target
  {
    ApproachTimesShrinks(pos, target, n);
    ShrunkZero(pos - target, n);
  }

  class Camera {
    var x: real
    var y: real
    var width: real
    var height: real
    /** The point the viewport centres on. */
    var followX: real
    var followY: real

    /** A camera at the origin following the origin. */
    constructor (width0: real, height0: real)
      ensures x == 0.0 && y == 0.0 && followX == 0.0 && followY == 0.0
      ensures width == width0 && height == height0
    {
      x, y := 0.0, 0.0;
      width, height := width0, height0;
      followX, followY := 0.0, 0.0;
    }

    /** The top-left corner that centres the viewport on the follow point. */
    function Target(): (real, real)
      reads this
    {
      (followX - width / 2.0, followY - height / 2.0)
    }

    /** One easing step of both coordinates toward the target. */
    method Update()
      modifies this`x, this`y
      ensures x == Approach(old(x), Target().0) && y == Approach(old(y), Target().1)
      ensures old(x) == Target().0 && old(y) == Target().1 ==> x == old(x) && y == old(y)
    {
      var targetX := followX - width / 2.0;
      var targetY := followY - height / 2.0;
      x := x + (targetX - x) * Smoothing;
      y := y + (targetY - y) * Smoothing;
    }

    method SetFollowTarget(x0: real, y0: real)
      modifies this`followX, this`followY
      ensures followX == x0 && followY == y0
    {
      followX, followY := x0, y0;
    }
  }
}
