/**
 * The Vortex class of src/vortex.js: a canvas overlaid on a host element,
 * a list of particle records updated in place every frame, the handle of
 * the pending animation frame, and the lifecycle Running -> Destroyed.
 */
module VortexField {
  import opened Optional
  import opened Particles

  /** A requestAnimationFrame handle; the browser never hands out 0. */
  type FrameHandle = h: int | h > 0 witness 1

  /** What getBoundingClientRect reports for the host element. */
  datatype Rect = Rect(width: real, height: real)

  /** One particle record; updateParticle writes its fields in place. */
  class Particle {
    var x: real
    var y: real
    var size: real
    var speedX: real
    var speedY: real
    var opacity: real
    var twinkleSpeed: real
    var twinklePhase: real

    function State(): ParticleState
      reads this
    {
      ParticleState(x, y, size, speedX, speedY, opacity, twinkleSpeed, twinklePhase)
    }

    constructor (s: ParticleState)
      ensures State() == s
    {
      x, y, size := s.x, s.y, s.size;
      speedX, speedY := s.speedX, s.speedY;
      opacity, twinkleSpeed, twinklePhase := s.opacity, s.twinkleSpeed, s.twinklePhase;
    }
  }

  /** No record appears twice in the list. */
  ghost predicate Distinct(ps: seq<Particle>)
  {
    forall i, j :: 0 <= i < j < |ps| ==> ps[i] != ps[j]
  }

  /** The values held by a list of records, position by position. */
  function StatesOf(ps: seq<Particle>): (r: seq<ParticleState>)
    reads ps
    ensures |r| == |ps|
    ensures forall i :: 0 <= i < |ps| ==> r[i] == ps[i].State()
  {
    if ps == [] then [] else StatesOf(ps[..|ps| - 1]) + [ps[|ps| - 1].State()]
  }

  class Vortex {
    /** The merged options; the source never reassigns them. */
    const options: Options
    /** canvas.width and canvas.height. */
    var width: real
    var height: real
    var particles: seq<Particle>
    /** this.animationId: null until the first frame, then the latest handle. */
    var animationId: Option<FrameHandle>
    /** Whether the canvas is a child of the host element. */
    var attached: bool
    /** Whether the browser holds a frame callback requested by this field and not cancelled. */
    var frameScheduled: bool
    /** How many resize listeners this field has left registered on the window. */
    var resizeListeners: nat
    /** What the canvas bitmap shows, in painting order. */
    var canvas: seq<Sparkle>

    ghost predicate Valid()
      reads this, particles
    {
      && width >= 0.0 && height >= 0.0
      && (frameScheduled ==> animationId.Some?)
      && Distinct(particles)
    }

    function Snapshot(): seq<ParticleState>
      reads this, particles
    {
      StatesOf(particles)
    }

    /** Animating on an attached canvas. */
    predicate Running()
      reads this
    {
      attached && frameScheduled
    }

    /** After destroy: nothing scheduled and no canvas in the document. */
    predicate Destroyed()
      reads this
    {
      !attached && !frameScheduled
    }

    /**
     * new Vortex(container, options): merge the options over the defaults,
     * start with no particles and no frame, then run init.
     */
    constructor (overrides: Overrides, rect: Rect, draws: seq<real>, handle: FrameHandle, sin: real -> real)
      requires rect.width >= 0.0 && rect.height >= 0.0
      requires |draws| >= DrawsPerParticle * Count(Merge(overrides))
      ensures Valid() && Running()
      ensures options == Merge(overrides)
      ensures width == rect.width && height == rect.height
      ensures animationId == Some(handle) && resizeListeners == 1
      ensures forall i :: 0 <= i < |particles| ==> fresh(particles[i])
      ensures Snapshot() == FrameStates(Generated(draws, Count(options), width, height, options), width, height)
      ensures canvas == Rendered(Snapshot(), sin, options.isDark)
    {
      options := Merge(overrides);
      particles := [];
      animationId := None;
      // A new canvas element is 300 by 150 until resize runs.
      width, height := 300.0, 150.0;
      attached, frameScheduled := false, false;
      resizeListeners := 0;
      canvas := [];
      new;
      Init(rect, draws, handle, sin);
    }

    /**
     * init: attach the canvas to the container, size it, register the resize
     * listener, generate the particles and run the first frame.
     */
    method Init(rect: Rect, draws: seq<real>, handle: FrameHandle, sin: real -> real)
      requires Valid()
      requires rect.width >= 0.0 && rect.height >= 0.0
      requires |draws| >= DrawsPerParticle * Count(options)
      modifies this
      ensures Valid() && Running()
      ensures width == rect.width && height == rect.height
      ensures animationId == Some(handle) && resizeListeners == old(resizeListeners) + 1
      ensures forall i :: 0 <= i < |particles| ==> fresh(particles[i])
      ensures Snapshot() == FrameStates(Generated(draws, Count(options), width, height, options), width, height)
      ensures canvas == Rendered(Snapshot(), sin, options.isDark)
    {
      attached := true;
      Resize(rect);
      resizeListeners := resizeListeners + 1;
      CreateParticles(draws);
      ghost var spawned := Snapshot();
      Animate(handle, sin);
      assert Snapshot() == FrameStates(spawned, width, height);
    }

    /**
     * Size the canvas to the container's rectangle. Setting a canvas's
     * dimensions also clears its bitmap. The particles are left where they
     * are, possibly outside the new bounds.
     */
    method Resize(rect: Rect)
      requires Valid()
      requires rect.width >= 0.0 && rect.height >= 0.0
      modifies this`width, this`height, this`canvas
      ensures Valid()
      ensures width == rect.width && height == rect.height && canvas == []
    {
      width := rect.width;
      height := rect.height;
      canvas := [];
    }

    /** Replace the particle list with Count(options) new records built from the draw stream. */
    method CreateParticles(draws: seq<real>)
      requires Valid()
      requires |draws| >= DrawsPerParticle * Count(options)
      modifies this`particles
      ensures Valid()
      ensures forall i :: 0 <= i < |particles| ==> fresh(particles[i])
      ensures Snapshot() == Generated(draws, Count(options), width, height, options)
    {
      particles := [];
      var n := Count(options);
      for i := 0 to n
        invariant Distinct(particles)
        invariant forall k :: 0 <= k < |particles| ==> fresh(particles[k])
        invariant |particles| == i
        invariant forall k :: 0 <= k < i ==> particles[k].State() == Spawn(Chunk(draws, k), width, height, options)
      {
        var p := new Particle(Spawn(Chunk(draws, i), width, height, options));
        particles := particles + [p];
      }
      assert Snapshot() == Generated(draws, n, width, height, options);
    }

    /** Move one record by its velocity, wrap it onto the canvas and advance its phase. */
    method UpdateParticle(p: Particle)
      modifies p
      ensures p.State() == Stepped(old(p.State()), width, height)
    {
      p.x := p.x + p.speedX;
      p.y := p.y + p.speedY;
      if p.x < 0.0 { p.x := width; }
      if p.x > width { p.x := 0.0; }
      if p.y < 0.0 { p.y := height; }
      if p.y > height { p.y := 0.0; }
      p.twinklePhase := p.twinklePhase + p.twinkleSpeed;
    }

    /** Paint one record with its twinkled opacity, in the palette of the theme. */
    method DrawParticle(p: Particle, sin: real -> real)
      modifies this`canvas
      ensures canvas == old(canvas) + [Drawn(p.State(), sin, options.isDark)]
    {
      var twinkle := sin(p.twinklePhase) * 0.3 + 0.7;
      var finalOpacity := p.opacity * twinkle;
      assert finalOpacity == FinalOpacity(p.opacity, sin(p.twinklePhase));
      canvas := canvas + [Sparkle(p.x, p.y, p.size * 4.0, p.size, finalOpacity, options.isDark)];
    }

    /**
     * One frame: clear the canvas, update-then-draw every record in list
     * order, and request the next frame, whose handle is `handle`.
     */
    method Animate(handle: FrameHandle, sin: real -> real)
      requires Valid()
      modifies this`canvas, this`animationId, this`frameScheduled, particles
      ensures Valid() && particles == old(particles)
      ensures Snapshot() == FrameStates(old(Snapshot()), width, height)
      ensures forall i :: 0 <= i < |particles| ==> InBounds(particles[i].State(), width, height)
      ensures canvas == Rendered(Snapshot(), sin, options.isDark)
      ensures animationId == Some(handle) && frameScheduled
    {
      canvas := [];
      for i := 0 to |particles|
        invariant forall k :: 0 <= k < i ==> particles[k].State() == Stepped(old(particles[k].State()), width, height)
        invariant forall k :: i <= k < |particles| ==> particles[k].State() == old(particles[k].State())
        invariant |canvas| == i
        invariant forall k :: 0 <= k < i ==> canvas[k] == Drawn(particles[k].State(), sin, options.isDark)
      {
        UpdateParticle(particles[i]);
        DrawParticle(particles[i], sin);
      }
      animationId := Some(handle);
      frameScheduled := true;
    }

    /**
     * Cancel the pending frame when a handle is set and take the canvas out
     * of the document. The listener removal passes a new closure, so the one
     * that was registered stays.
     */
    method Destroy()
      requires Valid()
      modifies this`frameScheduled, this`attached
      ensures Valid() && Destroyed()
      ensures resizeListeners == old(resizeListeners)
      ensures old(Destroyed()) ==> unchanged(this)
    {
      if animationId.Some? {
        frameScheduled := false;
      }
      if attached {
        attached := false;
      }
    }
  }
}
