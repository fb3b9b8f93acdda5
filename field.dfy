/** The particle field: a pool of particles that the animation loop pushes
    around every frame from the current simulation state. */
module Field {
  import opened Common
  import opened VacuumSimulation

  /** A colour in HSL terms: hue in degrees, saturation and lightness in percent. */
  datatype Hsl = Hsl(hue: real, saturation: real, lightness: real)

  /** The colour of a chirality: warm for right-handed, cool for left-handed,
      purple for none. */
  function ChiralColor(chirality: real): (col: Hsl)
    ensures chirality == 0.0 ==> col == Hsl(280.0, 60.0, 60.0)
    ensures chirality != 0.0 ==>
              col.saturation == 80.0 && col.lightness == 50.0 + 30.0 * Abs(chirality)
    ensures 0.0 < chirality ==> col.hue == 20.0 + 20.0 * Abs(chirality)
    ensures chirality < 0.0 ==> col.hue == 200.0 + 20.0 * Abs(chirality)
  {
    var intensity := Abs(chirality);
    if chirality > 0.0 then Hsl(20.0 + intensity * 20.0, 80.0, 50.0 + intensity * 30.0)
    else if chirality < 0.0 then Hsl(200.0 + intensity * 20.0, 80.0, 50.0 + intensity * 30.0)
    else Hsl(280.0, 60.0, 60.0)
  }

  /** For chirality of magnitude at most 1 the hue stays in its band (warm
      20-40, cool 200-220), the lightness in 50-80, and opposite chiralities
      differ only by a hue shift of 180 degrees. */
  lemma ChiralColorBands(c: real)
    requires 0.0 < Abs(c) <= 1.0
    ensures 0.0 < c ==> 20.0 < ChiralColor(c).hue <= 40.0
    ensures c < 0.0 ==> 200.0 < ChiralColor(c).hue <= 220.0
    ensures 50.0 < ChiralColor(c).lightness <= 80.0
    ensures 0.0 < c ==> ChiralColor(-c) == ChiralColor(c).(hue := ChiralColor(c).hue + 180.0)
  {
  }

  /** A particle of the pool. `color` and `alpha` are recomputed every frame;
      `chirality` is the state's chirality when the particle was created. */
  datatype Particle = Particle(
    x: real,
    y: real,
    vx: real,
    vy: real,
    size: real,
    color: Hsl,
    alpha: real,
    life: real,
    chirality: real)

  predicate InUnit(r: real) {
    0.0 <= r < 1.0
  }

  /** The seven `Math.random()` results a new particle consumes, in the order
      the particle's fields are written. */
  datatype Draw = Draw(x: real, y: real, vx: real, vy: real, size: real, alpha: real, life: real)
  {
    predicate Valid() {
      InUnit(x) && InUnit(y) && InUnit(vx) && InUnit(vy) && InUnit(size) && InUnit(alpha) && InUnit(life)
    }
  }

  predicate ValidDraws(draws: seq<Draw>) {
    forall i :: 0 <= i < |draws| ==> draws[i].Valid()
  }

  predicate InBounds(p: Particle, width: real, height: real) {
    0.0 <= p.x <= width && 0.0 <= p.y <= height
  }

  lemma UnitScale(r: real, w: real)
    requires InUnit(r) && 0.0 <= w
    ensures 0.0 <= r * w <= w
    ensures 0.0 < w ==> r * w < w
  {
    assert (1.0 - r) * w >= 0.0;
    if 0.0 < w { assert (1.0 - r) * w > 0.0; }
  }

  lemma CenteredScale(r: real, e: real)
    requires InUnit(r)
    ensures Abs((r - 0.5) * e * 2.0) <= Abs(e)
  {
    var u := (r - 0.5) * 2.0;
    var v := (r - 0.5) * e * 2.0;
    assert v == u * e;
    if 0.0 <= e {
      ScaledUnitBound(u, e);
      assert -e <= v <= e;
    } else {
      ScaledUnitBound(u, -e);
      assert u * e == -(u * (-e));
      assert e <= v <= -e;
    }
  }

  /** `Math.random() * extent`: a coordinate in [0, extent). */
  function Spread(r: real, extent: real): (v: real)
    requires InUnit(r) && 0.0 <= extent
    ensures 0.0 <= v <= extent
    ensures 0.0 < extent ==> v < extent
  {
    UnitScale(r, extent);
    r * extent
  }

  /** `(Math.random() - 0.5) * energy * 2`: a speed of magnitude at most |energy|. */
  function Jitter(r: real, energy: real): (v: real)
    requires InUnit(r)
    ensures Abs(v) <= Abs(energy)
  {
    CenteredScale(r, energy);
    (r - 0.5) * energy * 2.0
  }

  /** A new particle: anywhere on the canvas, speed scaled by energy / 100,
      size in [1, 4), life in [50, 150), carrying the state's chirality. */
  function CreateParticle(s: SimulationState, width: real, height: real, d: Draw): (p: Particle)
    requires d.Valid() && 0.0 <= width && 0.0 <= height
    ensures InBounds(p, width, height)
    ensures 0.0 < width ==> p.x < width
    ensures 0.0 < height ==> p.y < height
    ensures Abs(p.vx) <= Abs(s.energy as real) / 100.0
    ensures Abs(p.vy) <= Abs(s.energy as real) / 100.0
    ensures 1.0 <= p.size < 4.0
    ensures 50.0 <= p.life < 150.0
    ensures 0.2 <= p.alpha < 1.0
    ensures p.chirality == s.chirality && p.color == ChiralColor(s.chirality)
  {
    var energy := s.energy as real / 100.0;
    assert Abs(energy) == Abs(s.energy as real) / 100.0;
    Particle(
      Spread(d.x, width),
      Spread(d.y, height),
      Jitter(d.vx, energy),
      Jitter(d.vy, energy),
      d.size * 3.0 + 1.0,
      ChiralColor(s.chirality),
      d.alpha * 0.8 + 0.2,
      d.life * 100.0 + 50.0,
      s.chirality)
  }

  /** The velocity after the chiral drift and then the magnetic drift. */
  function Drift(p: Particle, s: SimulationState, trig: Trig): (v: (real, real)) {
    var chiralForce := s.chirality * 0.01;
    var vx1 := p.vx + chiralForce * trig.sin(p.y * 0.01);
    var vy1 := p.vy + chiralForce * trig.cos(p.x * 0.01);
    var magneticForce := s.magneticField * 0.05;
    var direction := Radians(s.fieldDirection);
    (vx1 + magneticForce * trig.cos(direction), vy1 + magneticForce * trig.sin(direction))
  }

  /** One frame of one particle: drift, move, damp, bounce off the walls with
      energy loss, clamp into the canvas, age by one, fade and recolour. */
  function Tick(p: Particle, s: SimulationState, trig: Trig, width: real, height: real): (q: Particle)
    requires 0.0 <= width && 0.0 <= height
    ensures InBounds(q, width, height)
    ensures q.life == p.life - 1.0
    ensures q.alpha == (q.life / 150.0) * (s.coherence as real / 100.0)
    ensures q.color == ChiralColor(s.chirality)
    ensures q.size == p.size && q.chirality == p.chirality
  {
    var (vx, vy) := Drift(p, s, trig);
    var x := p.x + vx;
    var y := p.y + vy;
    var dampedX := vx * 0.98;
    var dampedY := vy * 0.98;
    var bouncedX := if x < 0.0 || x > width then dampedX * -0.8 else dampedX;
    var bouncedY := if y < 0.0 || y > height then dampedY * -0.8 else dampedY;
    var life := p.life - 1.0;
    Particle(
      Max(0.0, Min(width, x)),
      Max(0.0, Min(height, y)),
      bouncedX,
      bouncedY,
      p.size,
      ChiralColor(s.chirality),
      (life / 150.0) * (s.coherence as real / 100.0),
      life,
      p.chirality)
  }

  /** The velocity is updated in the order drift, move, damp by 0.98, bounce
      by -0.8 on each axis whose new position left the canvas. */
  lemma TickOrder(p: Particle, s: SimulationState, trig: Trig, width: real, height: real)
    requires 0.0 <= width && 0.0 <= height
    ensures var (vx, vy) := Drift(p, s, trig);
            var q := Tick(p, s, trig, width, height);
            && q.vx == vx * 0.98 * (if p.x + vx < 0.0 || p.x + vx > width then -0.8 else 1.0)
            && q.vy == vy * 0.98 * (if p.y + vy < 0.0 || p.y + vy > height then -0.8 else 1.0)
            && q.x == Max(0.0, Min(width, p.x + vx))
            && q.y == Max(0.0, Min(height, p.y + vy))
  {
  }

  /** A particle inside the canvas that is driven past the left wall ends on
      the wall, moving back inward at 0.8 of its damped speed; likewise at the
      right wall. */
  lemma WallBounce(p: Particle, s: SimulationState, trig: Trig, width: real, height: real)
    requires 0.0 <= width && 0.0 <= height && InBounds(p, width, height)
    ensures var (vx, _) := Drift(p, s, trig);
            var q := Tick(p, s, trig, width, height);
            && (p.x + vx < 0.0 ==> q.x == 0.0 && 0.0 < q.vx && q.vx == -0.8 * (0.98 * vx))
            && (p.x + vx > width ==> q.x == width && q.vx < 0.0 && q.vx == -0.8 * (0.98 * vx))
  {
  }

  /** One slot of the pool for one frame: the particle ticks, and one whose
      life ran out is replaced in the same slot by a new particle. */
  function TickSlot(p: Particle, s: SimulationState, trig: Trig, width: real, height: real, d: Draw): (r: Particle)
    requires 0.0 <= width && 0.0 <= height && d.Valid()
    ensures InBounds(r, width, height)
    ensures 0.0 < r.life
    ensures r.color == ChiralColor(s.chirality)
    ensures 1.0 < p.life ==> r == Tick(p, s, trig, width, height)
    ensures 1.0 < p.life ==> r.life == p.life - 1.0 && r.size == p.size && r.chirality == p.chirality
    ensures p.life <= 1.0 ==> r == CreateParticle(s, width, height, d)
  {
    var q := Tick(p, s, trig, width, height);
    if q.life <= 0.0 then CreateParticle(s, width, height, d) else q
  }

  /** `Math.max(50, coherence)`: the pool size. */
  function PoolSize(coherence: int): (n: nat)
    ensures 50 <= n && coherence <= n
    ensures n == 50 || n == coherence
  {
    if coherence < 50 then 50 else coherence
  }

  /** The field component: its particle pool and its canvas size. The state and
      the running flag are its inputs, passed to each method. */
  class QuantumField {
    var particles: array<Particle>
    var width: real
    var height: real

    ghost predicate Valid()
      reads this
    {
      0.0 <= width && 0.0 <= height
    }

    /** An empty pool on the default 800 x 400 canvas. */
    constructor ()
      ensures Valid() && width == 800.0 && height == 400.0
      ensures fresh(particles) && particles.Length == 0
    {
      particles := new Particle[0];
      width := 800.0;
      height := 400.0;
    }

    /** Discards the pool and fills a new one with `Math.max(50, coherence)`
        new particles, the i-th drawn from `draws[i]`. */
    method InitParticles(s: SimulationState, draws: seq<Draw>)
      requires Valid()
      requires PoolSize(s.coherence) <= |draws| && ValidDraws(draws)
      modifies this`particles
      ensures Valid()
      ensures fresh(particles) && particles.Length == PoolSize(s.coherence)
      ensures forall i :: 0 <= i < particles.Length ==>
                particles[i] == CreateParticle(s, width, height, draws[i])
    {
      var count := PoolSize(s.coherence);
      var pool := new Particle[count];
      var i := 0;
      while i < count
        invariant 0 <= i <= count
        invariant forall k :: 0 <= k < i ==> pool[k] == CreateParticle(s, width, height, draws[k])
      {
        pool[i] := CreateParticle(s, width, height, draws[i]);
        i := i + 1;
      }
      particles := pool;
    }

    /** One physics frame over the whole pool, slot by slot in place; slot i
        draws from `draws[i]` if its particle dies. */
    method UpdateParticles(s: SimulationState, trig: Trig, draws: seq<Draw>)
      requires Valid()
      requires particles.Length <= |draws| && ValidDraws(draws)
      modifies particles
      ensures forall i :: 0 <= i < particles.Length ==>
                particles[i] == TickSlot(old(particles[i]), s, trig, width, height, draws[i])
      ensures forall i :: 0 <= i < particles.Length ==>
                && InBounds(particles[i], width, height)
                && particles[i].color == ChiralColor(s.chirality)
                && 0.0 < particles[i].life
    {
      for i := 0 to particles.Length
        invariant forall k :: 0 <= k < i ==>
                    particles[k] == TickSlot(old(particles[k]), s, trig, width, height, draws[k])
        invariant forall k :: i <= k < particles.Length ==> particles[k] == old(particles[k])
      {
        particles[i] := TickSlot(particles[i], s, trig, width, height, draws[i]);
      }
    }

    /** One animation frame. Without a drawing surface it returns at once;
        otherwise it updates the pool and asks for the next frame only while
        running. Drawing is not modelled. */
    method Animate(s: SimulationState, isRunning: bool, surfaceReady: bool, trig: Trig, draws: seq<Draw>)
      returns (scheduled: bool)
      requires Valid()
      requires particles.Length <= |draws| && ValidDraws(draws)
      modifies particles
      ensures scheduled <==> surfaceReady && isRunning
      ensures !scheduled ==> unchanged(particles)
      ensures scheduled ==> forall i :: 0 <= i < particles.Length ==>
                particles[i] == TickSlot(old(particles[i]), s, trig, width, height, draws[i])
    {
      if !surfaceReady {
        return false;
      }
      if isRunning {
        UpdateParticles(s, trig, draws);
      }
      scheduled := isRunning;
    }
  }
}
