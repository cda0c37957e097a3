# Starfield background and audio toggle

The page draws an animated starfield on a full-window canvas. The
population of stars scales with the viewport area. Each star is built from
random draws: a radius biased towards small, a parallax layer with a base
drift speed, a colour from a near-white palette, a position, a base
opacity and a twinkle phase and speed. Every frame the driver computes a
capped time step, draws each star as a disc whose opacity twinkles, and
moves every star: leftward drift, a small vertical shimmer plus a downward
drift, and wrapping at the left and bottom edges. On resize the population
is padded or trimmed to the new target. A second, independent piece is a
button that toggles an ambient audio element. The button carries a
"playing" marker that appears only after playback has started.

The project has three modules:

- `Stars` (stars.dfy) holds the pure part:
  - the constants, the `Star` record and the draws a star consumes;
  - `TargetStarCount`, `MakeStar`, the population functions `NewStars` and `Resized`;
  - the per-star step `StepStar` and its whole-population form `StepAll`;
  - the frame delta `FrameDelta`;
  - the opacity of a drawn star, `Opacity`, `GlowOpacity` and `DrawStar`.
- `Engine` (engine.dfy) holds the class `Starfield`. It owns the viewport
  size, the star sequence and the last frame timestamp. Its methods are the
  source's in-place operations, each proved against the `Stars` function
  that specifies it: `InitStars`, `UpdateStarCount`, the resize handler
  `OnResize`, `Update` and the frame driver `Render`.
- `Audio` (audio.dfy) holds the class `AudioToggle`. It is a state
  machine over four things: the media element's paused flag as the browser
  keeps it, the button's marker, the play requests that will resolve, and
  the play requests that will be rejected. The browser clears the paused
  flag as soon as `play()` is allowed, and a pause rejects every request
  still outstanding. Three scenario methods show the marker's behaviour:
  when autoplay is refused, when the button is clicked twice before
  playback starts, and when the media ends on its own.

`Math.random()` is modelled by draws passed in as parameters. Each draw
has the type `Stars.Draw`, a real in [0, 1). A population operation takes
a stream `rng: nat -> StarDraws`, where star k of a batch uses `rng(k)`.
`Math.sin` is a parameter `sin: real -> real`. All arithmetic is on reals.

Two details of the code, which the model follows exactly:

- A star that wraps at the left edge is placed at exactly `width + size`
  (script.js:83). It is not placed strictly below `width + size`.
- The time step falls back to 16.7 ms only when `t - lastT` is zero.
  There is no special case for the first frame: with `lastT` starting at 0,
  the first frame's step is `min(32, t)` (script.js:10, 89).

## Model

| member | source | states |
|---|---|---|
| Stars.Round | script.js:22 | Math.round: the result is within half of the value, with halves going up, and it is non-negative for non-negative values |
| Stars.RoundMonotone | script.js:22 | rounding preserves order |
| Stars.TargetStarCount | script.js:21-23 | the target is never below 50 |
| Stars.TargetStarCountRounds | script.js:21-23 | the target is the area times 0.00045, rounded to the nearest integer, whenever that exceeds 50; otherwise it is 50 |
| Stars.TargetStarCountMonotone | script.js:21-23 | a viewport that is no smaller in either dimension never calls for fewer stars |
| Stars.FullHdTarget | script.js:21-23 | a 1920x1080 viewport calls for 933 stars |
| Stars.Rand | script.js:19 | rand(min, max) lies in [min, max), and equals min when min == max |
| Stars.Size | script.js:37 | a star's radius lies in [0.2, 2.4) |
| Stars.Layer | script.js:38 | the layer is 0 iff the radius is below 0.6, 1 iff it is in [0.6, 1.2), and 2 iff it is at least 1.2 |
| Stars.BaseSpeed | script.js:39 | every layer's base speed lies in [0.015, 0.06] |
| Stars.ParallaxOrder | script.js:38-39 | a star that is no smaller has a base speed that is no smaller; a higher layer is strictly faster |
| Stars.WellFormed | script.js:36-53 | the bounds every well-formed star satisfies, as makeStar sets them and as no frame changes them. A well-formed star has a positive size and a speed in [0.007, 0.068), so it always drifts leftward |
| Stars.PaletteIndex | script.js:42 | the colour index is a valid palette index, and it is the integer part of the draw times 4 |
| Stars.MakeStar | script.js:36-53 | the new star is well formed: radius in [0.2, 2.4), speed within 0.008 of its layer's base speed, aBase in [0.35, 0.95), twinkle speed in [0.2, 0.6), colour from the palette. Its position lies in [0, width) x [0, height), and its twinkle phase lies in [0, 2π) |
| Stars.NewStars | script.js:55-59 | n pushes of makeStar yield n stars; star k is built from the k-th draws, and every star is well formed |
| Stars.Resized | script.js:107-115 | the result has exactly target stars. Shrinking keeps exactly the old prefix. Growing keeps the old stars as an unchanged prefix followed by new stars. Equal sizes change nothing. Well-formedness is preserved |
| Stars.ResizedIdempotent | script.js:107-115 | a second resize to the same target changes nothing |
| Stars.ResizedKeepsPrefix | script.js:107-115 | every star within both the old size and the target keeps its place and its value |
| Stars.ResizedTwiceKeepsSurvivors | script.js:107-121 | across two successive resizes, the stars within all three sizes are the original ones |
| Stars.LeftExit | script.js:79-83 | the left-wrap test: a well-formed star moves at least 0.007 * dt leftward in a step forward in time, so a star closer than that to the left edge wraps |
| Stars.Drifted | script.js:76-81 | the y position before the wrap rules: with no shimmer the star moves down by exactly 0.0035 * dt, and a sine in [-1, 1] moves it at most 0.01 * abs(dt) from that |
| Stars.StepStar | script.js:78-84 | only x, y and twinklePhase change, and the phase advances by exactly twinkleSpeed * 0.0025 * dt. Afterwards x >= -size and y <= height + size. A left-wrapped star sits at x == width + size with y in [0, height). Otherwise x moves by -speed * dt. A bottom-wrapped star has y == -size. A star that wraps at neither edge moves vertically by the drift 0.0035 * dt plus at most 0.01 * abs(dt) for a sine in [-1, 1] |
| Stars.SineScaled | script.js:81 | the sine-times-dt product in the shimmer term is at most abs(dt) in magnitude |
| Stars.StepAll | script.js:75-86 | update keeps the length. Star i takes one StepStar step, its shimmer taken from sin((twinklePhase + i) * 0.35). Well-formedness is preserved, and every star ends inside the left and bottom bounds |
| Stars.FrameDelta | script.js:89 | the step is never above 32. It is 16.7 when t - lastT is zero, the elapsed time when that is non-zero and at most 32, and 32 when the elapsed time is at least 32 |
| Stars.Twinkle | script.js:62 | the twinkle factor lies in [0.35, 1] for a sine in [-1, 1]. It is 1 at sine 1 and 0.35 at sine -1 |
| Stars.Opacity | script.js:63 | the fill opacity lies in [0.08, 1] for every input. It equals aBase * twinkle inside that range, and otherwise the nearest bound |
| Stars.GlowOpacity | script.js:67 | the glow opacity is at most 0.8 and at most alpha + 0.2, and equals one of them |
| Stars.OpacityUnclamped | script.js:62-63 | for a well-formed star and a sine in [-1, 1], the clamp never engages, and the opacity lies in [0.1225, 0.95) |
| Stars.Picture | script.js:96 | the draw loop gives one disc per star, in population order, at the star's place, size and colour. Every fill lies in [0.08, 1] and every glow in [0.28, 0.8]. For a well-formed population under a sine in [-1, 1], every fill is aBase * twinkle |
| Stars.DrawStar | script.js:61-73 | the disc has the star's position, radius and colour. Its fill opacity lies in [0.08, 1] and its glow in [0.28, 0.8]. For a well-formed star the fill is aBase * twinkle |
| Engine.Starfield.constructor | script.js:102-104 | start-up measures the viewport, sets lastT to 0 and fills the population with TargetStarCount new stars |
| Engine.Starfield.InitStars | script.js:55-59 | the previous contents are discarded. The population is exactly TargetStarCount(width, height) new stars from the stream, and it is well formed |
| Engine.Starfield.UpdateStarCount | script.js:107-115 | the population becomes Resized of the old one at the current target, so its length equals the target, and it stays well formed |
| Engine.Starfield.OnResize | script.js:118-121 | the new viewport size is stored, the frame timestamp is unchanged, and the population is resized to the new target |
| Engine.Starfield.Update | script.js:75-86 | the loop leaves the population equal to StepAll of the old one, and it stays well formed |
| Engine.Starfield.Render | script.js:88-100 | lastT becomes t. The frame shows the discs of the pre-step population. The population is then advanced by StepAll with FrameDelta(t, old lastT) |
| Audio.AudioToggle.constructor | script.js:125-129 | the media starts paused, with no marker and no outstanding play request. The invariant holds: the marker only while the media plays, a resolvable request only while it plays, and playing only with the marker or a resolvable request |
| Audio.AudioToggle.Click | script.js:131-142 | a click while paused calls play(). If playback is allowed the media plays at once with a request to resolve; otherwise the request is refused and the media stays paused. Either way the marker is unchanged. A click while playing pauses, removes the marker and dooms every outstanding request to rejection. The invariant is kept |
| Audio.AudioToggle.PlayResolved | script.js:133-134 | a request resolves only while the media plays, and it sets the marker |
| Audio.AudioToggle.PlayRejected | script.js:135-137 | a rejected request, refused or aborted, changes neither the media nor the marker |
| Audio.AudioToggle.MediaPaused | script.js:145-147 | any pause leaves the media paused and the marker absent, and every outstanding request is rejected, so none can set the marker later |
| Audio.AutoplayBlocked | script.js:131-137 | after a refused play there is no marker and the media is paused, and a further click requests playback again |
| Audio.ClickedTwiceQuickly | script.js:131-142 | a second click before the first request resolves pauses the media. The marker is absent, and the first request can now only be rejected |
| Audio.MediaEnds | script.js:133-147 | the marker is present while the media plays and gone after it pauses by itself |

## Left out

- `resize` (script.js:25-34): it reads the window size and the device
  pixel ratio and sets the canvas size, style and transform. It is
  browser-side plumbing. The model takes the floored viewport size as a
  natural-number input to `OnResize` and the constructor.
- The canvas calls in `drawStar` and `render` (script.js:64-72, 93): the
  fill and shadow styles, save/restore, arc and clearRect. `DrawStar`
  returns the disc and the two opacities that these calls would paint.
- `requestAnimationFrame` and `addEventListener` wiring (script.js:99, 105,
  118-121, 131, 145): each event is an explicit method call.
- `console.log` on a refused play, and the asynchrony of the play promise
  (script.js:133-137). Resolution and rejection are separate events,
  `PlayResolved` and `PlayRejected`.
- The guard for a missing button or media element (script.js:129): the
  model assumes both exist.
- `Math.random` and `Math.sin` are parameters. The model does not
  describe their distribution or their shape. `sin` is not even required
  to lie in [-1, 1], except in the lemmas that say so.
- IEEE-754 doubles: all arithmetic is exact real arithmetic. `Math.PI` is its
  shortest decimal literal, 3.141592653589793. That value affects only the
  2π bound on the twinkle phase. `| 0` on the palette index is
  written as Floor, which agrees with it on values in [0, 4). A NaN time
  difference, which is also falsy for `||`, is not modelled.
- Audio.AudioToggle.Click: the browser's reasons for refusing playback
  are the parameter `allowed`. A request that is allowed but fails later,
  for example because the media cannot load, is not modelled.
- Playback started from the media element's native controls: the source
  has no handler for it, and the model leaves it out. So the model never
  reaches a state where the media plays with no marker and no request
  outstanding.
- Audio.AudioToggle.MediaPaused: the browser sets the paused flag at once
  and fires the pause event in a later task. The model treats the two as one
  event. When the button pauses the media, the later pause event changes
  nothing further.
- Engine.Starfield.Update: a star is an object that the source updates field
  by field in place. The model replaces the whole record at index i with the
  updated one. Nothing else holds a reference to a star, so no aliasing is
  lost.
