/** Floating score popups: a buffer of at most 16 entries that drops the
    oldest when full, and that ages every entry and removes the expired
    ones on each update. */
module Popups {

  /** The buffer's capacity (`maxParticles`). */
  const MaxParticles: nat := 16
  /** The default popup colour. */
  const Cyan: string := "#00FFFF"

  /** One popup: where it is drawn, the points shown, its colour, the
      seconds it has left out of its full life, and its upward speed. */
  datatype Particle = Particle(x: real, y: real, text: int, color: string, life: real, maxLife: real, vy: real)

  /** A fresh popup: one second of life, rising 15 pixels per second. */
  function NewPop(x: real, y: real, text: int, color: string): (p: Particle)
    ensures p.x == x && p.y == y && p.text == text && p.color == color
    ensures p.life == 1.0 && p.maxLife == 1.0 && p.vy == -15.0
  {
    Particle(x, y, text, color, 1.0, 1.0, -15.0)
  }

  /** `addPop`: at capacity the oldest entry (the front) is dropped first;
      the new one goes at the end. */
  function Pushed(ps: seq<Particle>, p: Particle): (r: seq<Particle>)
    ensures |ps| <= MaxParticles ==> |r| <= MaxParticles
    ensures |r| > 0 && r[|r| - 1] == p
    ensures |ps| < MaxParticles ==> r == ps + [p]
    ensures |ps| >= MaxParticles ==> r == ps[1..] + [p]
  {
    (if |ps| >= MaxParticles then ps[1..] else ps) + [p]
  }

  /** Adding to a full buffer keeps it full: the length stays at the
      capacity, and the entries kept are the newest ones, in order. */
  lemma PushedKeepsNewest(ps: seq<Particle>, p: Particle)
    requires |ps| == MaxParticles
    ensures |Pushed(ps, p)| == MaxParticles
    ensures forall i :: 0 <= i < MaxParticles - 1 ==> Pushed(ps, p)[i] == ps[i + 1]
  {
  }

  /** One update of one popup: `dt` seconds less to live, and risen by
      `vy * dt`. */
  function Aged(p: Particle, dt: real): (q: Particle)
    ensures q.life == p.life - dt && q.y == p.y + p.vy * dt
    ensures q.x == p.x && q.text == p.text && q.color == p.color && q.vy == p.vy && q.maxLife == p.maxLife
  {
    p.(life := p.life - dt, y := p.y + p.vy * dt)
  }

  /** The popups left after `update(dt)`: every entry aged, and those whose
      life is then over (at most 0) removed, the rest in their order. */
  function Survivors(ps: seq<Particle>, dt: real): seq<Particle>
    decreases |ps|
  {
    if |ps| == 0 then []
    else
      var q := Aged(ps[0], dt);
      (if q.life > 0.0 then [q] else []) + Survivors(ps[1..], dt)
  }

  /** Survivors keeps exactly the entries still alive after ageing: none of
      them is expired, each is an aged entry of the buffer, and an entry
      whose life outlasts `dt` survives. The buffer never grows. */
  lemma {:induction false} SurvivorsAreLive(ps: seq<Particle>, dt: real)
    ensures var r := Survivors(ps, dt);
            && |r| <= |ps|
            && (forall q :: q in r ==> q.life > 0.0)
            && (forall q :: q in r ==> exists p :: p in ps && q == Aged(p, dt))
            && (forall p :: p in ps && p.life - dt > 0.0 ==> Aged(p, dt) in r)
    decreases |ps|
  {
    if |ps| > 0 {
      SurvivorsAreLive(ps[1..], dt);
      var r := Survivors(ps, dt);
      forall p | p in ps && p.life - dt > 0.0
        ensures Aged(p, dt) in r
      {
        if p != ps[0] {
          assert p in ps[1..];
        }
      }
      forall q | q in r
        ensures exists p :: p in ps && q == Aged(p, dt)
      {
        if q in Survivors(ps[1..], dt) {
          var p :| p in ps[1..] && q == Aged(p, dt);
          assert p in ps;
        } else {
          assert q == Aged(ps[0], dt);
        }
      }
    }
  }

  /** Survivors of a suffix, unfolded once. */
  lemma SurvivorsFrom(ps: seq<Particle>, i: nat, dt: real)
    requires i < |ps|
    ensures Survivors(ps[i..], dt)
            == (if Aged(ps[i], dt).life > 0.0 then [Aged(ps[i], dt)] else []) + Survivors(ps[i + 1..], dt)
  {
    assert ps[i..][1..] == ps[i + 1..];
  }

  /** When no entry expires, ageing keeps every entry in place. */
  lemma {:induction false} NoneExpire(ps: seq<Particle>, dt: real)
    requires forall i :: 0 <= i < |ps| ==> ps[i].life - dt > 0.0
    ensures |Survivors(ps, dt)| == |ps|
    ensures forall i :: 0 <= i < |ps| ==> Survivors(ps, dt)[i] == Aged(ps[i], dt)
    decreases |ps|
  {
    if |ps| > 0 {
      NoneExpire(ps[1..], dt);
    }
  }

  class ParticleSystem {
    var particles: seq<Particle>

    /** The buffer stays within its capacity. */
    ghost predicate Valid()
      reads this
    {
      |particles| <= MaxParticles
    }

    /** `new ParticleSystem()`: empty. */
    constructor ()
      ensures Valid() && particles == []
    {
      particles := [];
    }

    /** `addPop(x, y, text, color)`. */
    method AddPop(x: real, y: real, text: int, color: string)
      requires Valid()
      modifies this
      ensures Valid()
      ensures particles == Pushed(old(particles), NewPop(x, y, text, color))
    {
      if |particles| >= MaxParticles {
        particles := particles[1..];
      }
      particles := particles + [Particle(x, y, text, color, 1.0, 1.0, -15.0)];
    }

    /** `update(dt)`: walks the buffer from the back, ageing each entry and
        splicing out those whose life is over. */
    method Update(dt: real)
      requires Valid()
      modifies this
      ensures Valid()
      ensures particles == Survivors(old(particles), dt)
    {
      ghost var start := particles;
      var i := |particles|;
      while i > 0
        invariant 0 <= i <= |start|
        invariant particles == start[..i] + Survivors(start[i..], dt)
        decreases i
      {
        i := i - 1;
        ghost var rest := Survivors(start[i + 1..], dt);
        SurvivorsFrom(start, i, dt);
        assert particles == start[..i] + [start[i]] + rest by {
          assert start[..i + 1] == start[..i] + [start[i]];
        }
        var p := Aged(particles[i], dt);
        if p.life <= 0.0 {
          particles := particles[..i] + particles[i + 1..];
          assert particles == start[..i] + rest;
        } else {
          particles := particles[i := p];
          assert particles == start[..i] + [p] + rest;
        }
      }
      assert start[0..] == start;
      SurvivorsAreLive(start, dt);
    }
  }
}
