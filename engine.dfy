/** The starfield's shared state and the operations that change it: the
    population (filled at start-up, padded or trimmed on resize), the
    per-frame motion step and the frame driver that computes the time step,
    draws and then advances. */
module Engine {
  import opened Stars

  class Starfield {
    /** Viewport size in CSS pixels (Math.floor of the window size). */
    var width: nat
    var height: nat
    /** The population, in array order. */
    var stars: seq<Star>
    /** Timestamp of the previous frame, in milliseconds. */
    var lastT: real

    /** Every star keeps the attribute bounds it was built with. */
    ghost predicate Valid()
      reads this
    {
      AllWellFormed(stars)
    }

    /** Start-up: the viewport is measured, then the population is filled.
        rng supplies the draws of each star built. */
    constructor (initialWidth: nat, initialHeight: nat, rng: nat -> StarDraws)
      ensures Valid()
      ensures width == initialWidth && height == initialHeight && lastT == 0.0
      ensures stars == NewStars(rng, TargetStarCount(initialWidth, initialHeight), initialWidth, initialHeight)
    {
      width := initialWidth;
      height := initialHeight;
      stars := [];
      lastT := 0.0;
      new;
      InitStars(rng);
    }

    /** initStars: discard every star, then push targetStarCount() new ones. */
    method InitStars(rng: nat -> StarDraws)
      modifies this`stars
      ensures Valid()
      ensures |stars| == TargetStarCount(width, height)
      ensures stars == NewStars(rng, TargetStarCount(width, height), width, height)
    {
      var filled: seq<Star> := [];
      var count := TargetStarCount(width, height);
      var i := 0;
      while i < count
        invariant 0 <= i <= count
        invariant filled == NewStars(rng, i, width, height)
      {
        filled := filled + [MakeStar(rng(i), width, height)];
        i := i + 1;
      }
      stars := filled;
    }

    /** updateStarCount: bring the population to targetStarCount(), pushing
        new stars at the tail or truncating the tail. */
    method UpdateStarCount(rng: nat -> StarDraws)
      requires Valid()
      modifies this`stars
      ensures Valid()
      ensures |stars| == TargetStarCount(width, height)
      ensures stars == Resized(old(stars), TargetStarCount(width, height), rng, width, height)
    {
      var target := TargetStarCount(width, height);
      if |stars| < target {
        var grown := stars;
        var toAdd := target - |stars|;
        var i := 0;
        while i < toAdd
          invariant 0 <= i <= toAdd
          invariant grown == stars + NewStars(rng, i, width, height)
        {
          grown := grown + [MakeStar(rng(i), width, height)];
          i := i + 1;
        }
        stars := grown;
      } else if |stars| > target {
        stars := stars[..target];
      }
    }

    /** The resize handler: take the new viewport size, then adjust the
        population to it. */
    method OnResize(newWidth: nat, newHeight: nat, rng: nat -> StarDraws)
      requires Valid()
      modifies this
      ensures Valid()
      ensures width == newWidth && height == newHeight && lastT == old(lastT)
      ensures |stars| == TargetStarCount(newWidth, newHeight)
      ensures stars == Resized(old(stars), TargetStarCount(newWidth, newHeight), rng, newWidth, newHeight)
    {
      width := newWidth;
      height := newHeight;
      UpdateStarCount(rng);
    }

    /** update(dt): move every star one step in place. sin stands for
        Math.sin; rnd(i) is the draw star i takes if it wraps at the left. */
    method Update(dt: real, sin: real -> real, rnd: nat -> Draw)
      requires Valid()
      modifies this`stars
      ensures Valid()
      ensures |stars| == |old(stars)|
      ensures stars == StepAll(old(stars), dt, width, height, sin, rnd)
    {
      var moved := stars;
      var i := 0;
      while i < |moved|
        invariant 0 <= i <= |moved| == |stars|
        invariant forall k :: 0 <= k < i ==>
                    moved[k] == StepStar(stars[k], dt, width, height, sin((stars[k].twinklePhase + k as real) * 0.35), rnd(k))
        invariant forall k :: i <= k < |moved| ==> moved[k] == stars[k]
      {
        var s := moved[i];
        var shimmer := sin((s.twinklePhase + i as real) * 0.35);
        moved := moved[i := StepStar(s, dt, width, height, shimmer, rnd(i))];
        i := i + 1;
      }
      stars := moved;
    }

    /** render(t): the time step from the previous frame, then the discs of
        the current positions, then one update step with that time step. */
    method Render(t: real, sin: real -> real, rnd: nat -> Draw) returns (frame: seq<Dot>)
      requires Valid()
      modifies this`stars, this`lastT
      ensures Valid()
      ensures lastT == t
      ensures frame == Picture(old(stars), sin)
      ensures stars == StepAll(old(stars), FrameDelta(t, old(lastT)), width, height, sin, rnd)
    {
      var dt := FrameDelta(t, lastT);
      lastT := t;
      frame := [];
      var i := 0;
      while i < |stars|
        invariant 0 <= i <= |stars|
        invariant |frame| == i
        invariant forall k :: 0 <= k < i ==> frame[k] == DrawStar(stars[k], sin(stars[k].twinklePhase))
      {
        frame := frame + [DrawStar(stars[i], sin(stars[i].twinklePhase))];
        i := i + 1;
      }
      Update(dt, sin, rnd);
    }
  }
}
