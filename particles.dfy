/**
 * The value-level behaviour of the sparkle field of src/vortex.js:
 * option defaults, particle generation from random draws, the per-frame
 * motion with teleport wraparound, and the twinkle opacity. The class that
 * holds this state and changes it in place is in module VortexField.
 */
module Particles {
  import opened Optional

  /**
   * Math.PI as the shortest decimal JavaScript prints for it; the double itself
   * is 3.14159265358979311599796..., so this real differs from it slightly.
   */
  const PI: real := 3.141592653589793

  const DefaultParticleCount: int := 120
  const DefaultMinSize: real := 0.5
  const DefaultMaxSize: real := 1.5

  /** The options a field works with once the defaults are filled in. */
  datatype Options = Options(isDark: bool, particleCount: int, minSize: real, maxSize: real)

  /** The options object a caller passes; an absent property is None. */
  datatype Overrides = Overrides(
    isDark: Option<bool>,
    particleCount: Option<int>,
    minSize: Option<real>,
    maxSize: Option<real>)

  const NoOverrides: Overrides := Overrides(None, None, None, None)

  const Defaults: Options := Options(false, DefaultParticleCount, DefaultMinSize, DefaultMaxSize)

  /**
   * The constructor's merge: a literal with the defaults, then the caller's
   * properties spread over it, so every property present wins.
   */
  function Merge(o: Overrides): (r: Options)
    ensures o.isDark.Some? ==> r.isDark == o.isDark.value
    ensures o.isDark.None? ==> r.isDark == false
    ensures o.particleCount.Some? ==> r.particleCount == o.particleCount.value
    ensures o.particleCount.None? ==> r.particleCount == DefaultParticleCount
    ensures o.minSize.Some? ==> r.minSize == o.minSize.value
    ensures o.minSize.None? ==> r.minSize == DefaultMinSize
    ensures o.maxSize.Some? ==> r.maxSize == o.maxSize.value
    ensures o.maxSize.None? ==> r.maxSize == DefaultMaxSize
  {
    Options(
      o.isDark.GetOr(false),
      o.particleCount.GetOr(DefaultParticleCount),
      o.minSize.GetOr(DefaultMinSize),
      o.maxSize.GetOr(DefaultMaxSize))
  }

  /** The overrides that name every property of the given options. */
  function Full(opts: Options): Overrides
  {
    Overrides(Some(opts.isDark), Some(opts.particleCount), Some(opts.minSize), Some(opts.maxSize))
  }

  /** No overrides give the defaults; overriding everything gives exactly what was passed. */
  lemma MergeExtremes(opts: Options)
    ensures Merge(NoOverrides) == Defaults
    ensures Merge(Full(opts)) == opts
  {
  }

  /** Merging is stable: feeding a merged result back in as overrides changes nothing. */
  lemma MergeIdempotent(o: Overrides)
    ensures Merge(Full(Merge(o))) == Merge(o)
  {
  }

  /** How many times the generation loop runs: `i < particleCount` fails at once for a negative count. */
  function Count(opts: Options): (n: nat)
    ensures opts.particleCount >= 0 ==> n == opts.particleCount
    ensures opts.particleCount < 0 ==> n == 0
  {
    if opts.particleCount < 0 then 0 else opts.particleCount
  }

  /** One particle record. */
  datatype ParticleState = ParticleState(
    x: real, y: real,
    size: real,
    speedX: real, speedY: real,
    opacity: real,
    twinkleSpeed: real,
    twinklePhase: real)

  /** A value Math.random can return. */
  predicate IsDraw(d: real) { 0.0 <= d < 1.0 }

  predicate UnitDraws(draws: seq<real>)
  {
    forall i :: 0 <= i < |draws| ==> IsDraw(draws[i])
  }

  /** Draws per particle: the object literal calls Math.random eight times. */
  const DrawsPerParticle: nat := 8

  /** A coordinate scaled from a draw lies on the canvas, strictly below its extent when that is positive. */
  predicate OnAxis(v: real, extent: real)
  {
    0.0 <= v <= extent && (extent > 0.0 ==> v < extent)
  }

  /** The ranges every freshly generated particle lies in. */
  predicate FreshInRange(p: ParticleState, w: real, h: real, opts: Options)
  {
    && OnAxis(p.x, w)
    && OnAxis(p.y, h)
    && (opts.minSize <= opts.maxSize ==> opts.minSize <= p.size <= opts.maxSize)
    && -0.15 <= p.speedX < 0.15
    && -0.15 <= p.speedY < 0.15
    && 0.3 <= p.opacity < 0.8
    && 0.01 <= p.twinkleSpeed < 0.03
    && 0.0 <= p.twinklePhase < 2.0 * PI
  }

  lemma ScaledDraw(d: real, extent: real)
    requires IsDraw(d) && extent >= 0.0
    ensures 0.0 <= d * extent <= extent
    ensures extent > 0.0 ==> d * extent < extent
  {
    assert extent - d * extent == (1.0 - d) * extent;
  }

  /**
   * The particle built from eight draws, taken in the literal's property
   * order, on a w-by-h canvas. Draws in [0,1) give a particle within the
   * ranges of FreshInRange.
   */
  function Spawn(d: seq<real>, w: real, h: real, opts: Options): (p: ParticleState)
    requires |d| == DrawsPerParticle
    ensures UnitDraws(d) && w >= 0.0 && h >= 0.0 ==> FreshInRange(p, w, h, opts)
  {
    var spread := opts.maxSize - opts.minSize;
    var turn := 2.0 * PI;
    var p := ParticleState(
      x := d[0] * w,
      y := d[1] * h,
      size := opts.minSize + d[2] * spread,
      speedX := (d[3] - 0.5) * 0.3,
      speedY := (d[4] - 0.5) * 0.3,
      opacity := d[5] * 0.5 + 0.3,
      twinkleSpeed := d[6] * 0.02 + 0.01,
      twinklePhase := d[7] * PI * 2.0);
    assert UnitDraws(d) && w >= 0.0 && h >= 0.0 ==> FreshInRange(p, w, h, opts) by {
      if UnitDraws(d) && w >= 0.0 && h >= 0.0 {
        assert IsDraw(d[0]) && IsDraw(d[1]) && IsDraw(d[2]) && IsDraw(d[7]);
        ScaledDraw(d[0], w);
        ScaledDraw(d[1], h);
        if opts.minSize <= opts.maxSize {
          ScaledDraw(d[2], spread);
        }
        ScaledDraw(d[7], turn);
        assert p.twinklePhase == d[7] * turn;
      }
    }
    p
  }

  /** The eight draws the i-th particle consumes. */
  function Chunk(draws: seq<real>, i: nat): (d: seq<real>)
    requires |draws| >= DrawsPerParticle * (i + 1)
    ensures |d| == DrawsPerParticle
    ensures forall k :: 0 <= k < DrawsPerParticle ==> d[k] == draws[DrawsPerParticle * i + k]
  {
    draws[DrawsPerParticle * i .. DrawsPerParticle * i + DrawsPerParticle]
  }

  /**
   * The list createParticles builds from the draw stream: the first n
   * particles, appended in loop order, particle i from draws 8i .. 8i+7.
   */
  function Generated(draws: seq<real>, n: nat, w: real, h: real, opts: Options): (r: seq<ParticleState>)
    requires |draws| >= DrawsPerParticle * n
    ensures |r| == n
    ensures forall i :: 0 <= i < n ==> r[i] == Spawn(Chunk(draws, i), w, h, opts)
  {
    if n == 0 then []
    else Generated(draws, n - 1, w, h, opts) + [Spawn(Chunk(draws, n - 1), w, h, opts)]
  }

  /** Every generated particle lies within the ranges of FreshInRange when the draws come from Math.random. */
  lemma GeneratedInRange(draws: seq<real>, n: nat, w: real, h: real, opts: Options)
    requires |draws| >= DrawsPerParticle * n && UnitDraws(draws)
    requires w >= 0.0 && h >= 0.0
    ensures |Generated(draws, n, w, h, opts)| == n
    ensures forall i :: 0 <= i < n ==> FreshInRange(Generated(draws, n, w, h, opts)[i], w, h, opts)
  {
    var r := Generated(draws, n, w, h, opts);
    forall i | 0 <= i < n
      ensures FreshInRange(r[i], w, h, opts)
    {
      assert UnitDraws(Chunk(draws, i));
    }
  }

  /**
   * One axis of updateParticle after the move: below 0 snaps to the maximum,
   * then anything above the maximum snaps to 0. The second test sees the
   * snapped value, so an underflow lands on the maximum itself.
   */
  function Wrap(pos: real, max: real): (r: real)
    ensures max >= 0.0 ==> 0.0 <= r <= max
    ensures max >= 0.0 && 0.0 <= pos <= max ==> r == pos
    ensures max >= 0.0 && pos < 0.0 ==> r == max
    ensures pos > max && pos >= 0.0 ==> r == 0.0
  {
    var snapped := if pos < 0.0 then max else pos;
    if snapped > max then 0.0 else snapped
  }

  predicate InBounds(p: ParticleState, w: real, h: real)
  {
    0.0 <= p.x <= w && 0.0 <= p.y <= h
  }

  /** The fields updateParticle never writes agree. */
  predicate SameBody(p: ParticleState, q: ParticleState)
  {
    p.size == q.size && p.speedX == q.speedX && p.speedY == q.speedY
    && p.opacity == q.opacity && p.twinkleSpeed == q.twinkleSpeed
  }

  /** updateParticle on a w-by-h canvas: move by the velocity, wrap each axis, advance the phase. */
  function Stepped(p: ParticleState, w: real, h: real): (r: ParticleState)
    ensures SameBody(r, p)
    ensures r.twinklePhase - p.twinklePhase == p.twinkleSpeed
    ensures w >= 0.0 && h >= 0.0 ==> InBounds(r, w, h)
    ensures w >= 0.0 && 0.0 <= p.x + p.speedX <= w ==> r.x == p.x + p.speedX
    ensures h >= 0.0 && 0.0 <= p.y + p.speedY <= h ==> r.y == p.y + p.speedY
  {
    p.(x := Wrap(p.x + p.speedX, w),
       y := Wrap(p.y + p.speedY, h),
       twinklePhase := p.twinklePhase + p.twinkleSpeed)
  }

  /** One frame's updates: every particle stepped once, in list order. */
  function FrameStates(ps: seq<ParticleState>, w: real, h: real): (r: seq<ParticleState>)
    ensures |r| == |ps|
    ensures forall i :: 0 <= i < |ps| ==>
      SameBody(r[i], ps[i]) && r[i].twinklePhase == ps[i].twinklePhase + ps[i].twinkleSpeed
    ensures w >= 0.0 && h >= 0.0 ==> forall i :: 0 <= i < |ps| ==> InBounds(r[i], w, h)
  {
    seq(|ps|, i requires 0 <= i < |ps| => Stepped(ps[i], w, h))
  }

  /** n frames on a canvas whose size stays w-by-h. */
  function Frames(ps: seq<ParticleState>, w: real, h: real, n: nat): (r: seq<ParticleState>)
    ensures |r| == |ps|
  {
    if n == 0 then ps else FrameStates(Frames(ps, w, h, n - 1), w, h)
  }

  /**
   * Over any number of frames the count never changes, no particle's body
   * changes, each phase grows by exactly n times its speed, and after at
   * least one frame every particle is on the canvas, wherever it started.
   */
  lemma {:induction false} FramesKeepInvariants(ps: seq<ParticleState>, w: real, h: real, n: nat)
    requires w >= 0.0 && h >= 0.0
    ensures |Frames(ps, w, h, n)| == |ps|
    ensures forall i :: 0 <= i < |ps| ==> SameBody(Frames(ps, w, h, n)[i], ps[i])
    ensures forall i :: 0 <= i < |ps| ==>
      Frames(ps, w, h, n)[i].twinklePhase == ps[i].twinklePhase + (n as real) * ps[i].twinkleSpeed
    ensures n > 0 ==> forall i :: 0 <= i < |ps| ==> InBounds(Frames(ps, w, h, n)[i], w, h)
  {
    if n > 0 {
      FramesKeepInvariants(ps, w, h, n - 1);
      var prev := Frames(ps, w, h, n - 1);
      forall i | 0 <= i < |ps|
        ensures Frames(ps, w, h, n)[i].twinklePhase == ps[i].twinklePhase + (n as real) * ps[i].twinkleSpeed
      {
        assert Frames(ps, w, h, n)[i] == Stepped(prev[i], w, h);
        assert ((n - 1) as real) * ps[i].twinkleSpeed + ps[i].twinkleSpeed == (n as real) * ps[i].twinkleSpeed;
      }
    }
  }

  /** The twinkle multiplier for a sine value s. */
  function Twinkle(s: real): (t: real)
    ensures -1.0 <= s <= 1.0 ==> 0.4 <= t <= 1.0
  {
    s * 0.3 + 0.7
  }

  /** The opacity drawParticle paints with: the base opacity scaled by the twinkle. */
  function FinalOpacity(opacity: real, s: real): (r: real)
    ensures -1.0 <= s <= 1.0 && opacity >= 0.0 ==> 0.4 * opacity <= r <= opacity
  {
    var t := Twinkle(s);
    assert opacity >= 0.0 && 0.4 <= t <= 1.0 ==> opacity * 0.4 <= opacity * t <= opacity * 1.0;
    opacity * t
  }

  /** A sine function as Math.sin behaves: every value in [-1, 1]. */
  ghost predicate Bounded(sin: real -> real)
  {
    forall t :: -1.0 <= sin(t) <= 1.0
  }

  /**
   * What drawing one particle leaves on the canvas: a glow of radius 4*size
   * and a core of radius size centred on the particle, painted with the
   * final opacity in the dark or the light palette.
   */
  datatype Sparkle = Sparkle(x: real, y: real, glowRadius: real, coreRadius: real, alpha: real, dark: bool)

  function Drawn(p: ParticleState, sin: real -> real, dark: bool): (r: Sparkle)
    ensures r.x == p.x && r.y == p.y && r.dark == dark
    ensures r.coreRadius == p.size && r.glowRadius == 4.0 * p.size
    ensures Bounded(sin) && p.opacity >= 0.0 ==> 0.4 * p.opacity <= r.alpha <= p.opacity
  {
    Sparkle(p.x, p.y, p.size * 4.0, p.size, FinalOpacity(p.opacity, sin(p.twinklePhase)), dark)
  }

  /**
   * The canvas after a frame: cleared, then one sparkle per particle in list
   * order, each keeping between 40% and 100% of its particle's base opacity.
   */
  function Rendered(ps: seq<ParticleState>, sin: real -> real, dark: bool): (r: seq<Sparkle>)
    ensures |r| == |ps|
    ensures forall i :: 0 <= i < |ps| ==> r[i].x == ps[i].x && r[i].y == ps[i].y && r[i].coreRadius == ps[i].size
    ensures Bounded(sin) ==> forall i :: 0 <= i < |ps| && ps[i].opacity >= 0.0 ==>
      0.4 * ps[i].opacity <= r[i].alpha <= ps[i].opacity
  {
    seq(|ps|, i requires 0 <= i < |ps| => Drawn(ps[i], sin, dark))
  }
}
