/** The pure part of the starfield: its constants, the star record, star
    construction from random draws, the population arithmetic, the
    per-star motion step, the frame delta and the opacity of a drawn star.

    Math.random() is modelled as draws passed in as parameters, each in
    [0, 1); Math.sin as a value (or a function) passed in. Arithmetic is on
    reals: the model says nothing about IEEE-754 rounding. */
module Stars {

  /** Stars per square CSS pixel. */
  const StarDensity: real := 0.00045
  /** The population never drops below this many stars. */
  const MinStars: nat := 50
  /** Math.PI, as its shortest decimal literal. */
  const Pi: real := 3.141592653589793
  /** Upper bound on the time step of one frame, in milliseconds. */
  const MaxFrameDelta: real := 32.0
  /** The time step used when two frame timestamps coincide. */
  const DefaultFrameDelta: real := 16.7
  /** The three parallax layers. */
  const Layers: nat := 3
  /** Half-width of the random speed jitter added to a layer's base speed. */
  const Jitter: real := 0.008

  datatype Rgb = Rgb(r: nat, g: nat, b: nat)

  /** The four near-white star colours. */
  const Palette: seq<Rgb> :=
    [Rgb(255, 255, 255), Rgb(250, 240, 255), Rgb(235, 215, 255), Rgb(220, 200, 255)]

  /** One star. The colour is the palette entry itself, as in script.js:42, 51. */
  datatype Star = Star(
    x: real, y: real,
    size: real,
    speed: real,
    aBase: real,
    twinklePhase: real,
    twinkleSpeed: real,
    color: Rgb)

  /** A value Math.random() can return. */
  type Draw = u: real | 0.0 <= u < 1.0 witness 0.0

  /** The eight Math.random() draws one star construction consumes, in the
      order they are made: size, jitter, colour, then the fields of the
      record in the order they are written. */
  datatype StarDraws = StarDraws(
    size: Draw, jitter: Draw, hue: Draw,
    x: Draw, y: Draw, aBase: Draw, phase: Draw, twinkleSpeed: Draw)

  // ---------------------------------------------------------------------
  // Population size

  /** Math.round on the non-negative values it is given here: the nearest
      integer, halves rounded up. */
  function Round(v: real): (n: int)
    ensures v - 0.5 < n as real <= v + 0.5
    ensures v >= 0.0 ==> n >= 0
  {
    (v + 0.5).Floor
  }

  /** Rounding never reverses the order of two values. */
  lemma RoundMonotone(v1: real, v2: real)
    requires v1 <= v2
    ensures Round(v1) <= Round(v2)
  {
  }

  /** The population the viewport calls for: the area times the density,
      rounded, but never fewer than MinStars. */
  function TargetStarCount(width: nat, height: nat): (n: nat)
    ensures n >= MinStars
  {
    var r := Round(width as real * height as real * StarDensity);
    if MinStars >= r then MinStars else r
  }

  /** The target is the area times the density rounded to the nearest
      integer (halves up) whenever that exceeds MinStars, and MinStars
      otherwise. */
  lemma TargetStarCountRounds(width: nat, height: nat)
    ensures var expected := width as real * height as real * StarDensity;
            var n := TargetStarCount(width, height) as real;
            && n >= expected - 0.5
            && (n == MinStars as real || expected - 0.5 < n <= expected + 0.5)
            && (expected + 0.5 >= MinStars as real + 1.0 ==> expected - 0.5 < n <= expected + 0.5)
  {
  }

  /** A larger viewport never calls for fewer stars. */
  lemma TargetStarCountMonotone(w1: nat, h1: nat, w2: nat, h2: nat)
    requires w1 <= w2 && h1 <= h2
    ensures TargetStarCount(w1, h1) <= TargetStarCount(w2, h2)
  {
    AreaMonotone(w1, h1, w2, h2);
    RoundMonotone(w1 as real * h1 as real * StarDensity, w2 as real * h2 as real * StarDensity);
  }

  lemma AreaMonotone(w1: nat, h1: nat, w2: nat, h2: nat)
    requires w1 <= w2 && h1 <= h2
    ensures w1 as real * h1 as real * StarDensity <= w2 as real * h2 as real * StarDensity
  {
    MulMono(w1 as real, w2 as real, h1 as real);
    MulMono(h1 as real, h2 as real, w2 as real);
    assert w1 as real * h1 as real <= w2 as real * h2 as real;
  }

  /** A full-HD viewport holds 933 stars. */
  lemma FullHdTarget()
    ensures TargetStarCount(1920, 1080) == 933
  {
    assert 1920 as real * 1080 as real * StarDensity + 0.5 == 933.62;
  }

  // ---------------------------------------------------------------------
  // Star construction

  /** rand(min, max): a draw scaled into [min, max). */
  function Rand(u: Draw, lo: real, hi: real): (r: real)
    ensures lo <= hi ==> lo <= r <= hi
    ensures lo < hi ==> r < hi
    ensures lo == hi ==> r == lo
  {
    var w := hi - lo;
    var p := u * w;
    if w > 0.0 then
      MulNonneg(u, w);
      MulPos(1.0 - u, w);
      assert (1.0 - u) * w == w - p;
      p + lo
    else if w == 0.0 then
      assert p == 0.0;
      p + lo
    else
      p + lo
  }

  lemma MulMono(a: real, b: real, c: real)
    requires a <= b && c >= 0.0
    ensures a * c <= b * c
  {
    MulNonneg(b - a, c);
  }

  lemma MulNonneg(a: real, b: real)
    requires a >= 0.0 && b >= 0.0
    ensures a * b >= 0.0
  {
  }

  lemma MulPos(a: real, b: real)
    requires a > 0.0 && b > 0.0
    ensures a * b > 0.0
  {
  }

  /** The radius: the square of a draw, stretched to [0.2, 2.4), so that
      small stars are the more frequent. */
  function Size(u: Draw): (size: real)
    ensures 0.2 <= size < 2.4
  {
    assert 0.0 <= u * u <= u;
    u * u * 2.2 + 0.2
  }

  /** The parallax layer of a star of the given radius. */
  function Layer(size: real): (layer: nat)
    ensures layer < Layers
    ensures layer == 0 <==> size < 0.6
    ensures layer == 1 <==> 0.6 <= size < 1.2
    ensures layer == 2 <==> 1.2 <= size
  {
    if size < 0.6 then 0 else if size < 1.2 then 1 else 2
  }

  /** The drift speed of a layer before jitter, in pixels per millisecond. */
  function BaseSpeed(layer: nat): (v: real)
    requires layer < Layers
    ensures 0.015 <= v <= 0.06
  {
    [0.015, 0.03, 0.06][layer]
  }

  /** Parallax: a star that is no smaller drifts with a base speed that is no
      smaller, and a star in a higher layer drifts strictly faster. */
  lemma ParallaxOrder(s1: real, s2: real)
    requires s1 <= s2
    ensures BaseSpeed(Layer(s1)) <= BaseSpeed(Layer(s2))
    ensures Layer(s1) < Layer(s2) ==> BaseSpeed(Layer(s1)) < BaseSpeed(Layer(s2))
  {
  }

  /** (Math.random() * palettes.length) | 0: an index into the palette. The
      bitwise truncation agrees with Floor on these non-negative values. */
  function PaletteIndex(u: Draw): (i: nat)
    ensures i < |Palette|
    ensures i as real <= u * |Palette| as real < i as real + 1.0
  {
    (u * |Palette| as real).Floor
  }

  /** The attribute bounds every star satisfies from its construction on:
      the ones makeStar establishes and that no frame changes. */
  predicate WellFormed(s: Star): (ok: bool)
    // A well-formed star is visible and always drifts leftward.
    ensures ok ==> s.size > 0.0 && 0.007 <= s.speed < 0.068
  {
    && 0.2 <= s.size < 2.4
    && BaseSpeed(Layer(s.size)) - Jitter <= s.speed < BaseSpeed(Layer(s.size)) + Jitter
    && 0.35 <= s.aBase < 0.95
    && 0.2 <= s.twinkleSpeed < 0.6
    && s.color in Palette
  }

  predicate AllWellFormed(ss: seq<Star>) {
    forall i :: 0 <= i < |ss| ==> WellFormed(ss[i])
  }

  /** makeStar: a fresh star placed uniformly over the viewport. */
  function MakeStar(d: StarDraws, width: nat, height: nat): (s: Star)
    ensures WellFormed(s)
    ensures 0.0 <= s.x <= width as real && (width > 0 ==> s.x < width as real)
    ensures 0.0 <= s.y <= height as real && (height > 0 ==> s.y < height as real)
    ensures 0.0 <= s.twinklePhase < 2.0 * Pi
  {
    var size := Size(d.size);
    var layer := Layer(size);
    var baseSpeed := BaseSpeed(layer);
    var jitter := Rand(d.jitter, -Jitter, Jitter);
    var speed := baseSpeed + jitter;
    var hue := Palette[PaletteIndex(d.hue)];
    Star(
      Rand(d.x, 0.0, width as real),
      Rand(d.y, 0.0, height as real),
      size,
      speed,
      Rand(d.aBase, 0.35, 0.95),
      Rand(d.phase, 0.0, Pi * 2.0),
      Rand(d.twinkleSpeed, 0.2, 0.6),
      hue)
  }

  /** The stars that n successive makeStar calls push, star k taking the
      k-th set of draws of the stream rng. */
  function NewStars(rng: nat -> StarDraws, n: nat, width: nat, height: nat): (r: seq<Star>)
    ensures |r| == n
    ensures forall k :: 0 <= k < n ==> r[k] == MakeStar(rng(k), width, height)
    ensures AllWellFormed(r)
    decreases n
  {
    if n == 0 then [] else NewStars(rng, n - 1, width, height) + [MakeStar(rng(n - 1), width, height)]
  }

  /** The population after it is brought to target stars: padded at the tail
      with new stars, or truncated at the tail. */
  function Resized(ss: seq<Star>, target: nat, rng: nat -> StarDraws, width: nat, height: nat): (r: seq<Star>)
    ensures |r| == target
    ensures |ss| >= target ==> r == ss[..target]
    ensures |ss| == target ==> r == ss
    ensures |ss| <= target ==> r[..|ss|] == ss
    ensures forall k :: |ss| <= k < target ==> r[k] == MakeStar(rng(k - |ss|), width, height)
    ensures AllWellFormed(ss) ==> AllWellFormed(r)
  {
    if |ss| < target then ss + NewStars(rng, target - |ss|, width, height) else ss[..target]
  }

  /** Resizing to the size the population already has changes nothing, so
      a second resize to the same viewport is idempotent. */
  lemma ResizedIdempotent(ss: seq<Star>, target: nat, rng1: nat -> StarDraws, rng2: nat -> StarDraws, width: nat, height: nat)
    ensures Resized(Resized(ss, target, rng1, width, height), target, rng2, width, height)
         == Resized(ss, target, rng1, width, height)
  {
  }

  /** A resize keeps the first m stars untouched, for every m up to both
      the old size and the target. */
  lemma ResizedKeepsPrefix(ss: seq<Star>, target: nat, rng: nat -> StarDraws, width: nat, height: nat, m: nat)
    requires m <= |ss| && m <= target
    ensures Resized(ss, target, rng, width, height)[..m] == ss[..m]
  {
    var r := Resized(ss, target, rng, width, height);
    if |ss| >= target {
      assert r == ss[..target];
    } else {
      assert r[..|ss|] == ss;
      assert r[..m] == r[..|ss|][..m];
    }
  }

  /** Over two successive resizes the stars that survive both are the
      original ones, untouched, at the head of the population. */
  lemma ResizedTwiceKeepsSurvivors(ss: seq<Star>, t1: nat, t2: nat,
                                   rng1: nat -> StarDraws, rng2: nat -> StarDraws,
                                   w1: nat, h1: nat, w2: nat, h2: nat, m: nat)
    requires m <= |ss| && m <= t1 && m <= t2
    ensures Resized(Resized(ss, t1, rng1, w1, h1), t2, rng2, w2, h2)[..m] == ss[..m]
  {
    var once := Resized(ss, t1, rng1, w1, h1);
    ResizedKeepsPrefix(ss, t1, rng1, w1, h1, m);
    ResizedKeepsPrefix(once, t2, rng2, w2, h2, m);
  }

  // ---------------------------------------------------------------------
  // One frame of motion

  /** Whether a star leaves through the left edge during a step of dt. */
  predicate LeftExit(s: Star, dt: real): (exits: bool)
    // A well-formed star moves at least 0.007 * dt leftward in a step forward
    // in time, so one that close to the left edge is sure to wrap.
    ensures WellFormed(s) && dt > 0.0 && s.x < -s.size + 0.007 * dt ==> exits
  {
    assert WellFormed(s) && dt > 0.0 ==> 0.007 * dt <= s.speed * dt by {
      if WellFormed(s) && dt > 0.0 { MulMono(0.007, s.speed, dt); }
    }
    s.x - s.speed * dt < -s.size
  }

  /** The vertical position a step of dt gives a star before the wrap rules:
      the shimmer term (shimmer standing for the sine it is built from) plus
      the constant downward drift. */
  function Drifted(s: Star, dt: real, shimmer: real): (y: real)
    // Without shimmer the star moves down by exactly 0.0035 * dt; a sine in
    // [-1, 1] moves it at most 0.01 * |dt| away from that.
    ensures shimmer == 0.0 ==> y == s.y + 0.0035 * dt
    ensures -1.0 <= shimmer <= 1.0 ==> -0.01 * Abs(dt) <= y - s.y - 0.0035 * dt <= 0.01 * Abs(dt)
  {
    assert -1.0 <= shimmer <= 1.0 ==> -0.01 * Abs(dt) <= shimmer * 0.01 * dt <= 0.01 * Abs(dt) by {
      if -1.0 <= shimmer <= 1.0 {
        SineScaled(shimmer, dt);
        assert shimmer * 0.01 * dt == 0.01 * (shimmer * dt);
      }
    }
    s.y + shimmer * 0.01 * dt + 0.0035 * dt
  }

  /** The body of update's loop for one star: drift left, shimmer and drift
      down, advance the twinkle, then wrap at the left and at the bottom. u is
      the draw rand(0, height) uses when the star wraps at the left. */
  function StepStar(s: Star, dt: real, width: nat, height: nat, shimmer: real, u: Draw): (r: Star)
    // Only the position and the twinkle phase change.
    ensures r == s.(x := r.x, y := r.y, twinklePhase := r.twinklePhase)
    ensures r.twinklePhase == s.twinklePhase + s.twinkleSpeed * 0.0025 * dt
    // After the step the star is never past the left or the bottom edge.
    ensures s.size >= 0.0 ==> r.x >= -r.size && r.y <= height as real + r.size
    // Left wrap: back at the right edge, at a fresh height inside the viewport.
    ensures LeftExit(s, dt) ==> r.x == width as real + s.size
    ensures LeftExit(s, dt) && s.size >= 0.0 ==>
              0.0 <= r.y <= height as real && (height > 0 ==> r.y < height as real)
    ensures !LeftExit(s, dt) ==> r.x == s.x - s.speed * dt
    // Bottom wrap: back at the top edge.
    ensures !LeftExit(s, dt) && Drifted(s, dt, shimmer) > height as real + s.size ==> r.y == -s.size
    ensures !LeftExit(s, dt) && Drifted(s, dt, shimmer) <= height as real + s.size ==>
              r.y == Drifted(s, dt, shimmer)
    // A star that wraps at neither edge moves vertically by the drift plus a
    // shimmer of at most 0.01 * |dt| when the sine lies in [-1, 1].
    ensures -1.0 <= shimmer <= 1.0 && !LeftExit(s, dt) && Drifted(s, dt, shimmer) <= height as real + s.size ==>
              -0.01 * Abs(dt) <= r.y - s.y - 0.0035 * dt <= 0.01 * Abs(dt)
  {
    var x1 := s.x - s.speed * dt;
    var y1 := Drifted(s, dt, shimmer);
    var phase := s.twinklePhase + s.twinkleSpeed * 0.0025 * dt;
    var x2 := if x1 < -s.size then width as real + s.size else x1;
    var y2 := if x1 < -s.size then Rand(u, 0.0, height as real) else y1;
    assert x1 < -s.size ==> 0.0 <= y2 <= height as real && (height > 0 ==> y2 < height as real);
    var y3 := if y2 > height as real + s.size then -s.size else y2;
    s.(x := x2, y := y3, twinklePhase := phase)
  }

  /** A factor in [-1, 1] never scales b beyond its magnitude. */
  lemma SineScaled(a: real, b: real)
    requires -1.0 <= a <= 1.0
    ensures -Abs(b) <= a * b <= Abs(b)
  {
    if b >= 0.0 {
      MulNonneg(1.0 - a, b);
      MulNonneg(1.0 + a, b);
      assert -b <= a * b <= b;
    } else {
      MulNonneg(1.0 - a, -b);
      MulNonneg(1.0 + a, -b);
      assert b <= a * b <= -b;
    }
  }

  function Abs(v: real): (r: real)
    ensures r >= 0.0 && (r == v || r == -v)
  {
    if v < 0.0 then -v else v
  }

  /** update(dt) on a whole population: star i shimmers by the sine of
      (twinklePhase + i) * 0.35, taken before its phase advances, and wraps at
      the left with the i-th draw of rnd. */
  function StepAll(ss: seq<Star>, dt: real, width: nat, height: nat, sin: real -> real, rnd: nat -> Draw): (r: seq<Star>)
    ensures |r| == |ss|
    ensures forall i :: 0 <= i < |ss| ==>
              r[i] == StepStar(ss[i], dt, width, height, sin((ss[i].twinklePhase + i as real) * 0.35), rnd(i))
    ensures AllWellFormed(ss) ==> AllWellFormed(r)
    ensures AllWellFormed(ss) ==>
              forall i :: 0 <= i < |r| ==> r[i].x >= -r[i].size && r[i].y <= height as real + r[i].size
  {
    seq(|ss|, i requires 0 <= i < |ss| =>
      StepStar(ss[i], dt, width, height, sin((ss[i].twinklePhase + i as real) * 0.35), rnd(i)))
  }

  // ---------------------------------------------------------------------
  // Frame timing

  /** Math.min(32, t - lastT || 16.7): the elapsed time since the last
      frame, 16.7 when the two timestamps coincide, and never above 32. */
  function FrameDelta(t: real, lastT: real): (dt: real)
    ensures dt <= MaxFrameDelta
    ensures t == lastT ==> dt == DefaultFrameDelta
    ensures t != lastT && t - lastT <= MaxFrameDelta ==> dt == t - lastT
    ensures t - lastT >= MaxFrameDelta ==> dt == MaxFrameDelta
  {
    var elapsed := t - lastT;
    var d := if elapsed != 0.0 then elapsed else DefaultFrameDelta;
    if MaxFrameDelta < d then MaxFrameDelta else d
  }

  // ---------------------------------------------------------------------
  // Opacity of a drawn star

  /** The twinkle factor for the sine of the star's phase. */
  function Twinkle(sinPhase: real): (f: real)
    ensures -1.0 <= sinPhase <= 1.0 ==> 0.35 <= f <= 1.0
    ensures sinPhase == 1.0 ==> f == 1.0
    ensures sinPhase == -1.0 ==> f == 0.35
  {
    0.35 + 0.65 * (0.5 + 0.5 * sinPhase)
  }

  /** The fill opacity: aBase times the twinkle factor, clamped to
      [0.08, 1] whatever the inputs. */
  function Opacity(aBase: real, sinPhase: real): (alpha: real)
    ensures 0.08 <= alpha <= 1.0
    ensures 0.08 <= aBase * Twinkle(sinPhase) <= 1.0 ==> alpha == aBase * Twinkle(sinPhase)
    ensures aBase * Twinkle(sinPhase) < 0.08 ==> alpha == 0.08
    ensures aBase * Twinkle(sinPhase) > 1.0 ==> alpha == 1.0
  {
    var twinkle := Twinkle(sinPhase);
    var lower := if 0.08 >= aBase * twinkle then 0.08 else aBase * twinkle;
    if 1.0 <= lower then 1.0 else lower
  }

  /** The glow opacity: 0.2 above the fill, capped at 0.8. */
  function GlowOpacity(alpha: real): (glow: real)
    ensures glow <= 0.8
    ensures glow <= alpha + 0.2
    ensures glow == 0.8 || glow == alpha + 0.2
  {
    if 0.8 <= alpha + 0.2 then 0.8 else alpha + 0.2
  }

  /** For a well-formed star and a real sine the clamp never engages: the
      opacity is exactly aBase times the twinkle factor, in [0.1225, 0.95). */
  lemma OpacityUnclamped(s: Star, sinPhase: real)
    requires WellFormed(s) && -1.0 <= sinPhase <= 1.0
    ensures Opacity(s.aBase, sinPhase) == s.aBase * Twinkle(sinPhase)
    ensures 0.1225 <= Opacity(s.aBase, sinPhase) < 0.95
  {
    ProductBounds(s.aBase, Twinkle(sinPhase));
  }

  lemma ProductBounds(a: real, f: real)
    requires 0.35 <= a < 0.95 && 0.35 <= f <= 1.0
    ensures 0.1225 <= a * f < 0.95
  {
    MulMono(0.35, a, f);
    assert 0.1225 <= 0.35 * f <= a * f;
    MulMono(f, 1.0, a);
    assert f * a <= a;
  }

  /** What one drawStar call puts on the canvas: a disc at the star's
      position with its radius and colour, a fill opacity and a glow opacity. */
  datatype Dot = Dot(x: real, y: real, radius: real, color: Rgb, alpha: real, glow: real)

  /** drawStar: the disc for a star whose phase has the given sine. */
  function DrawStar(s: Star, sinPhase: real): (d: Dot)
    ensures d.x == s.x && d.y == s.y && d.radius == s.size && d.color == s.color
    ensures 0.08 <= d.alpha <= 1.0
    ensures 0.28 <= d.glow <= 0.8
    ensures WellFormed(s) && -1.0 <= sinPhase <= 1.0 ==> d.alpha == s.aBase * Twinkle(sinPhase)
  {
    var alpha := Opacity(s.aBase, sinPhase);
    assert WellFormed(s) && -1.0 <= sinPhase <= 1.0 ==> alpha == s.aBase * Twinkle(sinPhase) by {
      if WellFormed(s) && -1.0 <= sinPhase <= 1.0 { OpacityUnclamped(s, sinPhase); }
    }
    Dot(s.x, s.y, s.size, s.color, alpha, GlowOpacity(alpha))
  }

  /** The discs of one frame, in population order. */
  function Picture(ss: seq<Star>, sin: real -> real): (dots: seq<Dot>)
    ensures |dots| == |ss|
    // One disc per star, in population order, at the star's place and size.
    ensures forall i :: 0 <= i < |ss| ==>
              dots[i].x == ss[i].x && dots[i].y == ss[i].y && dots[i].radius == ss[i].size &&
              dots[i].color == ss[i].color
    ensures forall i :: 0 <= i < |ss| ==> 0.08 <= dots[i].alpha <= 1.0 && 0.28 <= dots[i].glow <= 0.8
    // For a well-formed population under a real sine no clamp engages.
    ensures AllWellFormed(ss) && (forall i :: 0 <= i < |ss| ==> -1.0 <= sin(ss[i].twinklePhase) <= 1.0) ==>
              forall i :: 0 <= i < |ss| ==> dots[i].alpha == ss[i].aBase * Twinkle(sin(ss[i].twinklePhase))
  {
    var dots := seq(|ss|, i requires 0 <= i < |ss| => DrawStar(ss[i], sin(ss[i].twinklePhase)));
    assert forall i :: 0 <= i < |ss| ==> dots[i] == DrawStar(ss[i], sin(ss[i].twinklePhase));
    dots
  }
}
