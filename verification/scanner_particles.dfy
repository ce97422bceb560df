/** The two particle systems of the scanner: the pool of scanner particles,
    whose size eases towards a target that rises while a card is being scanned,
    and the ambient particles, which drift right, wrap around and flicker within
    fixed opacity bounds. Random numbers and the sine sway are inputs. */
module ScannerParticles {
  import opened ScannerCode
  import opened Arith

  /** One scanner particle. */
  datatype Particle = Particle(x: real, y: real, vx: real, vy: real, radius: real, alpha: real, life: real, decay: real)

  /** Random draws a new particle takes. */
  const DrawsPerParticle: nat := 7

  /** The fraction of the distance to its target the pool size covers per frame. */
  const Easing: real := 0.05

  /** `createScannerParticle`: a particle near the beam, with position, speed,
      size, opacity and decay each drawn from its own range. */
  function CreateScannerParticle(width: real, d: seq<real>): (p: Particle)
    requires |d| == DrawsPerParticle && AllDraws(d)
    ensures width / 2.0 - 61.5 <= p.x < width / 2.0 - 58.5
    ensures 0.0 <= p.y < 300.0
    ensures 0.2 <= p.vx < 1.0 && -0.15 <= p.vy < 0.15
    ensures 0.4 <= p.radius < 1.0 && 0.6 <= p.alpha < 1.0
    ensures p.life == 1.0 && 0.005 <= p.decay < 0.025
  {
    Particle(
      (width / 2.0 - 60.0) + (d[0] - 0.5) * 3.0,
      d[1] * 300.0,
      d[2] * 0.8 + 0.2,
      (d[3] - 0.5) * 0.3,
      d[4] * 0.6 + 0.4,
      d[5] * 0.4 + 0.6,
      1.0,
      d[6] * 0.02 + 0.005)
  }

  /** The `k`-th run of seven draws. */
  function Chunk(draws: seq<real>, k: nat): (d: seq<real>)
    requires DrawsPerParticle * (k + 1) <= |draws| && AllDraws(draws)
    ensures |d| == DrawsPerParticle && AllDraws(d)
  {
    draws[DrawsPerParticle * k .. DrawsPerParticle * (k + 1)]
  }

  /** The pool size after one frame: `current` moves 5% of the way to `target`. */
  function Eased(current: real, target: real): (e: real)
    // it stays between where it was and where it is going
    ensures current <= target ==> current <= e <= target
    ensures target <= current ==> target <= e <= current
    // and the remaining distance shrinks to 95%
    ensures target - e == (1.0 - Easing) * (target - current)
  {
    current + (target - current) * Easing
  }

  /** `Math.floor` of a non-negative width scaled by a factor. */
  function Scaled(width: real, factor: real): (n: nat)
    requires 0.0 <= width && 0.0 <= factor
    ensures n as real <= width * factor < n as real + 1.0
  {
    assert 0.0 <= width * factor;
    (width * factor).Floor
  }

  /** The scanner-particle pool and the eased bound on its size. */
  class ParticlePool {
    var pool: seq<Particle>
    var currentMax: real
    const width: real
    const baseMax: nat
    const scanTargetMax: nat

    /** The size bound lies between the idle and the scanning target, and
        the pool holds `floor(currentMax)` particles. */
    predicate Valid()
      reads this
    {
      baseMax <= scanTargetMax
      && baseMax as real <= currentMax <= scanTargetMax as real
      && |pool| == currentMax.Floor
    }

    /** The target of the size bound: higher while a card is being scanned. */
    function Target(isScanning: bool): (t: nat)
      reads this
      ensures isScanning ==> t == scanTargetMax
      ensures !isScanning ==> t == baseMax
    {
      if isScanning then scanTargetMax else baseMax
    }

    /** The pool at the start: `floor(width * 0.8)` fresh particles. */
    constructor (width: real, draws: seq<real>)
      requires 0.0 <= width && AllDraws(draws)
      requires DrawsPerParticle * Scaled(width, 0.8) <= |draws|
      ensures Valid()
      ensures this.width == width && baseMax == Scaled(width, 0.8) && scanTargetMax == Scaled(width, 2.5)
      ensures currentMax == baseMax as real
      ensures forall k :: 0 <= k < |pool| ==> pool[k] == CreateScannerParticle(width, Chunk(draws, k))
    {
      this.width := width;
      baseMax := Scaled(width, 0.8);
      scanTargetMax := Scaled(width, 2.5);
      currentMax := Scaled(width, 0.8) as real;
      new;
      var particles: seq<Particle> := [];
      for i := 0 to baseMax
        invariant |particles| == i
        invariant forall k :: 0 <= k < i ==> particles[k] == CreateScannerParticle(width, Chunk(draws, k))
      {
        particles := particles + [CreateScannerParticle(width, Chunk(draws, i))];
      }
      pool := particles;
    }

    /** One frame of pool sizing: the bound eases towards its target, then
        particles are pushed while the pool is below the bound and popped while
        it is above it. The pool ends at `floor` of the new bound, its old
        particles kept in order; new ones are made from successive draws. */
    method Resize(isScanning: bool, draws: seq<real>)
      requires Valid() && AllDraws(draws)
      requires DrawsPerParticle * (Eased(currentMax, Target(isScanning) as real).Floor + 1) <= |draws|
      modifies this
      ensures Valid()
      ensures currentMax == Eased(old(currentMax), Target(isScanning) as real)
      ensures |pool| == currentMax.Floor
      ensures |pool| <= |old(pool)| ==> pool == old(pool)[..|pool|]
      ensures |old(pool)| <= |pool| ==> pool[..|old(pool)|] == old(pool)
      ensures forall k :: |old(pool)| <= k < |pool| ==>
                pool[k] == CreateScannerParticle(width, Chunk(draws, k - |old(pool)|))
    {
      var targetCount := Target(isScanning);
      currentMax := currentMax + (targetCount as real - currentMax) * Easing;
      var bound := currentMax;
      assert bound == Eased(old(currentMax), targetCount as real);
      var grown := GrowPool(pool, bound, width, draws);
      var particles := ShrinkPool(grown, bound);
      pool := particles;
    }
  }

  /** The pushing loop of pool sizing: fresh particles are appended while
      the pool is below `bound`. The old particles stay in front, the new ones
      come from successive runs of draws, and at most one more than the bound
      allows is made. */
  method GrowPool(particles: seq<Particle>, bound: real, width: real, draws: seq<real>) returns (r: seq<Particle>)
    requires AllDraws(draws)
    requires bound >= 0.0 && DrawsPerParticle * (bound.Floor + 1) <= |draws|
    ensures |particles| <= |r| && r[..|particles|] == particles
    ensures bound <= |r| as real
    ensures |r| == |particles| || (|r| as real) < bound + 1.0
    ensures forall k :: |particles| <= k < |r| ==>
              r[k] == CreateScannerParticle(width, Chunk(draws, k - |particles|))
  {
    r := particles;
    var n0 := |particles|;
    while (|r| as real) < bound
      invariant n0 <= |r| && r[..n0] == particles
      invariant |r| == n0 || (|r| as real) < bound + 1.0
      invariant DrawsPerParticle * (|r| - n0) <= |draws|
      invariant forall k :: n0 <= k < |r| ==> r[k] == CreateScannerParticle(width, Chunk(draws, k - n0))
      decreases bound.Floor + 1 - |r|
    {
      r := r + [CreateScannerParticle(width, Chunk(draws, |r| - n0))];
    }
  }

  /** The popping loop of pool sizing: the last particle is dropped while the
      pool is above `bound`, so what remains is a prefix no longer than the
      bound; a pool already within the bound is kept whole. */
  method ShrinkPool(particles: seq<Particle>, bound: real) returns (r: seq<Particle>)
    requires bound >= 0.0
    ensures |r| <= |particles| && r == particles[..|r|]
    ensures (|r| as real) <= bound
    ensures (|particles| as real) <= bound ==> r == particles
    ensures bound - 1.0 < |particles| as real ==> bound - 1.0 < |r| as real
  {
    r := particles;
    while (|r| as real) > bound
      invariant |r| <= |particles| && r == particles[..|r|]
      invariant (|particles| as real) <= bound ==> r == particles
      invariant bound - 1.0 < |particles| as real ==> bound - 1.0 < |r| as real
      decreases |r|
    {
      r := r[..|r| - 1];
    }
  }

  /** `Math.max(0.1, Math.min(1, a))`. */
  function ClampAlpha(a: real): (c: real)
    ensures 0.1 <= c <= 1.0
    ensures 0.1 <= a <= 1.0 ==> c == a
  {
    Max(0.1, Min(1.0, a))
  }

  /** The next opacity of an ambient particle: a random nudge of at most
      0.025 either way, clamped to [0.1, 1]. */
  function Flicker(alpha: real, r: real): (a: real)
    requires IsDraw(r)
    ensures 0.1 <= a <= 1.0
    ensures 0.1 <= alpha <= 1.0 ==> -0.025 <= a - alpha <= 0.025
  {
    ClampAlpha(alpha + (r - 0.5) * 0.05)
  }

  /** The next horizontal position of an ambient particle: 16 ms of drift,
      and back to 100 pixels left of the view once 100 pixels right of it. */
  function DriftX(x: real, speed: real, width: real): (nx: real)
    ensures nx == x + speed * 0.016 || nx == -width / 2.0 - 100.0
    ensures 0.0 <= width ==> nx <= width / 2.0 + 100.0
    // a particle is sent back only once it has drifted past the right margin
    ensures 0.0 <= width ==> (x + speed * 0.016 <= width / 2.0 + 100.0 <==> nx == x + speed * 0.016)
  {
    var moved := x + speed * 0.016;
    if moved > width / 2.0 + 100.0 then -width / 2.0 - 100.0 else moved
  }

  /** The ambient particles at the start: spread over twice the width and the
      full height, with speeds in [30, 90) and opacities in [0.2, 1). */
  method InitAmbient(positions: array<real>, velocities: array<real>, alphas: array<real>, width: real, draws: seq<real>)
    requires positions.Length == 3 * velocities.Length && alphas.Length == velocities.Length
    requires 4 * velocities.Length <= |draws| && AllDraws(draws)
    requires positions != velocities && positions != alphas && velocities != alphas
    modifies positions, velocities, alphas
    ensures forall i :: 0 <= i < velocities.Length ==>
              positions[3 * i] == (draws[4 * i] - 0.5) * width * 2.0
              && positions[3 * i + 1] == (draws[4 * i + 1] - 0.5) * 250.0
              && velocities[i] == draws[4 * i + 2] * 60.0 + 30.0
              && alphas[i] == (draws[4 * i + 3] * 8.0 + 2.0) / 10.0
              && 30.0 <= velocities[i] < 90.0 && 0.2 <= alphas[i] < 1.0
    ensures forall i :: 0 <= i < velocities.Length ==> positions[3 * i + 2] == old(positions[3 * i + 2])
  {
    for i := 0 to velocities.Length
      invariant forall k :: 0 <= k < i ==>
                  positions[3 * k] == (draws[4 * k] - 0.5) * width * 2.0
                  && positions[3 * k + 1] == (draws[4 * k + 1] - 0.5) * 250.0
                  && velocities[k] == draws[4 * k + 2] * 60.0 + 30.0
                  && alphas[k] == (draws[4 * k + 3] * 8.0 + 2.0) / 10.0
                  && 30.0 <= velocities[k] < 90.0 && 0.2 <= alphas[k] < 1.0
      invariant forall k :: 0 <= k < velocities.Length ==> positions[3 * k + 2] == old(positions[3 * k + 2])
    {
      positions[3 * i] := (draws[4 * i] - 0.5) * width * 2.0;
      positions[3 * i + 1] := (draws[4 * i + 1] - 0.5) * 250.0;
      velocities[i] := draws[4 * i + 2] * 60.0 + 30.0;
      alphas[i] := (draws[4 * i + 3] * 8.0 + 2.0) / 10.0;
    }
  }

  /** One frame of the ambient particles: each drifts right and wraps, sways
      vertically by its input `sway` (the sine term), and flickers; depth is
      untouched and every opacity stays in [0.1, 1]. */
  method DriftAmbient(positions: array<real>, velocities: array<real>, alphas: array<real>, width: real,
                      sway: seq<real>, jitter: seq<real>)
    requires positions.Length == 3 * velocities.Length && alphas.Length == velocities.Length
    requires |sway| == velocities.Length && |jitter| == velocities.Length && AllDraws(jitter)
    requires positions != velocities && positions != alphas && velocities != alphas
    modifies positions, alphas
    ensures forall i :: 0 <= i < velocities.Length ==>
              positions[3 * i] == DriftX(old(positions[3 * i]), velocities[i], width)
              && positions[3 * i + 1] == old(positions[3 * i + 1]) + sway[i]
              && positions[3 * i + 2] == old(positions[3 * i + 2])
    ensures forall i :: 0 <= i < alphas.Length ==> alphas[i] == Flicker(old(alphas[i]), jitter[i])
    ensures forall i :: 0 <= i < alphas.Length ==> 0.1 <= alphas[i] <= 1.0
  {
    for i := 0 to velocities.Length
      invariant forall k :: 0 <= k < i ==>
                  positions[3 * k] == DriftX(old(positions[3 * k]), velocities[k], width)
                  && positions[3 * k + 1] == old(positions[3 * k + 1]) + sway[k]
      invariant forall k :: 0 <= k < i ==> positions[3 * k + 2] == old(positions[3 * k + 2])
      invariant forall j :: 3 * i <= j < positions.Length ==> positions[j] == old(positions[j])
      invariant forall k :: 0 <= k < i ==> alphas[k] == Flicker(old(alphas[k]), jitter[k])
      invariant forall k :: i <= k < alphas.Length ==> alphas[k] == old(alphas[k])
    {
      var x := positions[3 * i] + velocities[i] * 0.016;
      if x > width / 2.0 + 100.0 {
        x := -width / 2.0 - 100.0;
      }
      positions[3 * i] := x;
      positions[3 * i + 1] := positions[3 * i + 1] + sway[i];
      alphas[i] := ClampAlpha(alphas[i] + (jitter[i] - 0.5) * 0.05);
    }
  }
}
