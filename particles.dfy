/** One aura particle (`class Particle` inside `initAura`): its state, `reset` and `update`. */
module Particles {
  import opened Palettes

  /** The seven `Math.random()` draws `reset` makes, in the order it makes them. */
  datatype Draws = Draws(x: real, y: real, size: real, speedX: real, speedY: real, alpha: real, color: real)
  {
    predicate Valid() {
      IsDraw(x) && IsDraw(y) && IsDraw(size) && IsDraw(speedX) && IsDraw(speedY) && IsDraw(alpha) && IsDraw(color)
    }
  }

  /** The value of a particle's fields at one moment. */
  datatype ParticleState = ParticleState(x: real, y: real, size: real, speedX: real, speedY: real,
                                         alpha: real, color: string)

  /** The ranges `reset` draws size, velocity and opacity from; `update` never changes them. */
  predicate InRanges(p: ParticleState) {
    50.0 <= p.size < 200.0 &&
    -0.1 <= p.speedX < 0.1 && -0.1 <= p.speedY < 0.1 &&
    0.0 <= p.alpha < 0.1
  }

  /** The band inside which wrap-around keeps a particle's centre. */
  predicate OnSurface(p: ParticleState, width: nat, height: nat) {
    -p.size <= p.x <= width as real + p.size && -p.size <= p.y <= height as real + p.size
  }

  /** The state `reset` produces on a canvas of the given size, with `mode` as the aura mode. */
  function Spawn(width: nat, height: nat, mode: string, d: Draws): (p: ParticleState)
    requires d.Valid()
    ensures InRanges(p)
    ensures p.color in Palette(mode)
    ensures 0.0 <= p.x <= width as real && (0 < width ==> p.x < width as real)
    ensures 0.0 <= p.y <= height as real && (0 < height ==> p.y < height as real)
  {
    DrawnRanges(d);
    ParticleState(Scaled(d.x, width), Scaled(d.y, height), d.size * 150.0 + 50.0,
                  (d.speedX - 0.5) * 0.2, (d.speedY - 0.5) * 0.2, d.alpha * 0.1, ColorFor(mode, d.color))
  }

  /** The affine maps `reset` applies to its draws land in the ranges of `InRanges`. */
  lemma DrawnRanges(d: Draws)
    requires d.Valid()
    ensures 50.0 <= d.size * 150.0 + 50.0 < 200.0
    ensures -0.1 <= (d.speedX - 0.5) * 0.2 < 0.1 && -0.1 <= (d.speedY - 0.5) * 0.2 < 0.1
    ensures 0.0 <= d.alpha * 0.1 < 0.1
  {
  }

  /** `Math.random() * extent`: a coordinate in [0, extent), or 0 on an empty axis. */
  function Scaled(r: real, extent: nat): (v: real)
    requires IsDraw(r)
    ensures 0.0 <= v <= extent as real
    ensures 0 < extent ==> v < extent as real
  {
    var e := extent as real;
    assert 0.0 <= r * e;
    assert e - r * e == (1.0 - r) * e;
    assert 0.0 <= (1.0 - r) * e;
    assert 0 < extent ==> 0.0 < (1.0 - r) * e;
    r * e
  }

  /** One axis of `update` after the move: past the low edge jumps to the high edge, then past the high edge jumps to the low edge. */
  function Wrap(pos: real, size: real, extent: real): (r: real)
    ensures r == pos || r == extent + size || r == -size
  {
    var low := if pos < -size then extent + size else pos;
    if low > extent + size then -size else low
  }

  /** `update`: move by the velocity, then wrap each axis against the canvas size. */
  function Step(p: ParticleState, width: nat, height: nat): (q: ParticleState)
    ensures q.(x := p.x, y := p.y) == p
    ensures q.x == p.x + p.speedX || q.x == width as real + p.size || q.x == -p.size
    ensures q.y == p.y + p.speedY || q.y == height as real + p.size || q.y == -p.size
  {
    p.(x := Wrap(p.x + p.speedX, p.size, width as real),
       y := Wrap(p.y + p.speedY, p.size, height as real))
  }

  /** Wrap-around lands inside [-size, extent + size] wherever the particle was. */
  lemma WrapBounded(pos: real, size: real, extent: real)
    requires 0.0 <= size && 0.0 <= extent
    ensures -size <= Wrap(pos, size, extent) <= extent + size
  {
  }

  /** The three cases of wrap-around: a position inside the band stays, one below goes to the top, one above goes to the bottom. */
  lemma WrapCases(pos: real, size: real, extent: real)
    requires 0.0 <= size && 0.0 <= extent
    ensures -size <= pos <= extent + size ==> Wrap(pos, size, extent) == pos
    ensures pos < -size ==> Wrap(pos, size, extent) == extent + size
    ensures pos > extent + size ==> Wrap(pos, size, extent) == -size
  {
  }

  /** After `update` a particle is inside the wrap band, whatever its position was before. */
  lemma StepOnSurface(p: ParticleState, width: nat, height: nat)
    requires 0.0 <= p.size
    ensures OnSurface(Step(p, width, height), width, height)
  {
  }

  /** `update` changes only the position: size, velocity, opacity and colour are kept. */
  lemma StepKeepsAppearance(p: ParticleState, width: nat, height: nat)
    ensures Step(p, width, height).(x := p.x, y := p.y) == p
    ensures InRanges(p) ==> InRanges(Step(p, width, height))
  {
  }

  /** A particle inside the band that does not reach an edge simply moves by its velocity. */
  lemma StepMovesInside(p: ParticleState, width: nat, height: nat)
    requires 0.0 <= p.size
    requires OnSurface(p.(x := p.x + p.speedX, y := p.y + p.speedY), width, height)
    ensures Step(p, width, height) == p.(x := p.x + p.speedX, y := p.y + p.speedY)
  {
  }

  /** On a 100-wide canvas a particle of size 50 at x = -51 that does not move wraps to x = 150. */
  lemma WrapLowEdgeExample(p: ParticleState)
    requires p.x == -51.0 && p.speedX == 0.0 && p.size == 50.0
    ensures Step(p, 100, 100).x == 150.0
  {
  }

  /** Symmetrically, past the high edge it wraps to -size. */
  lemma WrapHighEdgeExample(p: ParticleState)
    requires p.x == 151.0 && p.speedX == 0.0 && p.size == 50.0
    ensures Step(p, 100, 100).x == -50.0
  {
  }

  /** A particle object; `reset` and `update` assign its fields in place. */
  class Particle {
    var x: real
    var y: real
    var size: real
    var speedX: real
    var speedY: real
    var alpha: real
    var color: string

    function State(): ParticleState
      reads this
    {
      ParticleState(x, y, size, speedX, speedY, alpha, color)
    }

    /** `new Particle()`: a particle fresh from `reset`. */
    constructor (width: nat, height: nat, mode: string, d: Draws)
      requires d.Valid()
      ensures State() == Spawn(width, height, mode, d)
    {
      new;
      Reset(width, height, mode, d);
    }

    /** `reset`: draw position, size, velocity, opacity and colour. */
    method Reset(width: nat, height: nat, mode: string, d: Draws)
      requires d.Valid()
      modifies this
      ensures State() == Spawn(width, height, mode, d)
    {
      x := Scaled(d.x, width);
      y := Scaled(d.y, height);
      size := d.size * 150.0 + 50.0;
      speedX := (d.speedX - 0.5) * 0.2;
      speedY := (d.speedY - 0.5) * 0.2;
      alpha := d.alpha * 0.1;
      color := ColorFor(mode, d.color);
    }

    /** `p.color = p.getColor()`, as `updateAura` does for each particle. */
    method Recolor(mode: string, r: real)
      requires IsDraw(r)
      modifies this
      ensures State() == old(State()).(color := ColorFor(mode, r))
    {
      color := ColorFor(mode, r);
    }

    /** `update`: one frame of drift with wrap-around on the canvas of the given size. */
    method Update(width: nat, height: nat)
      modifies this
      ensures State() == Step(old(State()), width, height)
    {
      x := x + speedX;
      y := y + speedY;
      if x < -size { x := width as real + size; }
      if x > width as real + size { x := -size; }
      if y < -size { y := height as real + size; }
      if y > height as real + size { y := -size; }
    }
  }
}
