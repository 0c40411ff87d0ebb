/** The aura engine of `initAura` / `updateAura`: the mode, the canvas size and the pool of particles. */
module Aura {
  import opened Palettes
  import opened Particles

  /** `initAura` creates this many particles. */
  const PoolSize: nat := 20

  /** The aura's global state (`auraMode`, `auraParticles` and the canvas size). */
  class AuraEngine {
    var mode: string
    var width: nat
    var height: nat
    var pool: seq<Particle>

    /** The pool holds 20 distinct particles, each with the ranges `reset` drew and a colour of the current mode's palette. */
    ghost predicate Valid()
      reads this, pool
    {
      |pool| == PoolSize && Distinct() &&
      (forall i :: 0 <= i < |pool| ==> InRanges(pool[i].State()) && pool[i].color in Palette(mode))
    }

    /** No particle object occurs twice in the pool, so updating one leaves the others alone. */
    ghost predicate Distinct()
      reads this
    {
      forall i, j :: 0 <= i < j < |pool| ==> pool[i] != pool[j]
    }

    /** Every particle lies inside the wrap band of the current canvas. */
    ghost predicate AllOnSurface()
      reads this, pool
    {
      forall i :: 0 <= i < |pool| ==> OnSurface(pool[i].State(), width, height)
    }

    /** The pool creation of `initAura` (app.js:324-326): fill the pool with 20 particles drawn in mode `default`.
        Its first `animate()` pass is one `Frame`. */
    constructor (width: nat, height: nat, draws: seq<Draws>)
      requires |draws| == PoolSize
      requires forall k :: 0 <= k < |draws| ==> draws[k].Valid()
      ensures Valid() && AllOnSurface()
      ensures mode == "default" && this.width == width && this.height == height
      ensures forall k :: 0 <= k < |pool| ==> fresh(pool[k]) && pool[k].State() == Spawn(width, height, "default", draws[k])
    {
      var ps: seq<Particle> := [];
      for i := 0 to PoolSize
        invariant |ps| == i
        invariant forall a, b :: 0 <= a < b < i ==> ps[a] != ps[b]
        invariant forall k :: 0 <= k < i ==> fresh(ps[k]) && ps[k].State() == Spawn(width, height, "default", draws[k])
      {
        var p := new Particle(width, height, "default", draws[i]);
        ps := ps + [p];
      }
      mode := "default";
      this.width := width;
      this.height := height;
      pool := ps;
    }

    /** One frame of `animate`: `update` every particle in pool order (drawing is not modelled). */
    method Frame()
      requires Valid()
      modifies pool
      ensures Valid() && AllOnSurface()
      ensures forall k :: 0 <= k < |pool| ==> pool[k].State() == Step(old(pool[k].State()), width, height)
    {
      for i := 0 to |pool|
        invariant forall k :: 0 <= k < i ==> pool[k].State() == Step(old(pool[k].State()), width, height)
        invariant forall k :: i <= k < |pool| ==> pool[k].State() == old(pool[k].State())
      {
        pool[i].Update(width, height);
      }
      forall k | 0 <= k < |pool|
        ensures InRanges(pool[k].State()) && pool[k].color in Palette(mode)
        ensures OnSurface(pool[k].State(), width, height)
      {
        StepKeepsAppearance(old(pool[k].State()), width, height);
        StepOnSurface(old(pool[k].State()), width, height);
      }
    }

    /** `updateAura`: switch the mode, then give every particle a colour drawn from the new palette. */
    method UpdateAura(condition: string, draws: seq<real>)
      requires Valid()
      requires |draws| == |pool|
      requires forall k :: 0 <= k < |draws| ==> IsDraw(draws[k])
      modifies this`mode, pool
      ensures Valid() && mode == condition
      ensures old(AllOnSurface()) ==> AllOnSurface()
      ensures forall k :: 0 <= k < |pool| ==>
        pool[k].State() == old(pool[k].State()).(color := ColorFor(condition, draws[k]))
    {
      mode := condition;
      RecolorAll(draws);
    }

    /** The `forEach` of `updateAura`: `p.color = p.getColor()` for every particle, under the current mode. */
    method RecolorAll(draws: seq<real>)
      requires Distinct()
      requires |draws| == |pool|
      requires forall k :: 0 <= k < |draws| ==> IsDraw(draws[k])
      modifies pool
      ensures forall k :: 0 <= k < |pool| ==>
        pool[k].State() == old(pool[k].State()).(color := ColorFor(mode, draws[k]))
    {
      for i := 0 to |pool|
        invariant forall k :: 0 <= k < i ==>
          pool[k].State() == old(pool[k].State()).(color := ColorFor(mode, draws[k]))
        invariant forall k :: i <= k < |pool| ==> pool[k].State() == old(pool[k].State())
      {
        pool[i].Recolor(mode, draws[i]);
      }
    }
  }
}
