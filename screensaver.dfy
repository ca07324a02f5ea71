/**
 * The screensaver's particle simulation: a regime classifier over CPU and memory load, the
 * particles with their per-frame kinetics, and one animation run that keeps a pool of particles
 * at or below the regime's target size.
 */
module Screensaver {
  import opened Wrappers
  import opened Telemetry
  import opened Proximity

  datatype Regime = Idle | Normal | Busy | Intense

  /** What getSystemState returns: regime, colour, speed multiplier and target particle count. */
  datatype SystemState = SystemState(regime: Regime, color: string, speed: real, particles: nat)

  /** The regime of a load figure, the mean of CPU and memory percentages. */
  function Classify(load: real): (r: Regime)
    ensures r == Idle <==> load < 30.0
    ensures r == Normal <==> 30.0 <= load < 50.0
    ensures r == Busy <==> 50.0 <= load < 70.0
    ensures r == Intense <==> 70.0 <= load
  {
    if load < 30.0 then Idle
    else if load < 50.0 then Normal
    else if load < 70.0 then Busy
    else Intense
  }

  /** The fixed parameters of each regime. */
  function Profile(r: Regime): (s: SystemState)
    ensures s.regime == r
    ensures r == Idle ==> s.color == "#00FF88" && s.speed == 0.5 && s.particles == 30
    ensures r == Normal ==> s.color == "#00D9FF" && s.speed == 1.0 && s.particles == 50
    ensures r == Busy ==> s.color == "#FFD700" && s.speed == 2.0 && s.particles == 80
    ensures r == Intense ==> s.color == "#FF00FF" && s.speed == 3.0 && s.particles == 120
    ensures 0.0 < s.speed && 0 < s.particles
  {
    match r
    case Idle => SystemState(Idle, "#00FF88", 0.5, 30)
    case Normal => SystemState(Normal, "#00D9FF", 1.0, 50)
    case Busy => SystemState(Busy, "#FFD700", 2.0, 80)
    case Intense => SystemState(Intense, "#FF00FF", 3.0, 120)
  }

  function Load(avgCpu: real, memoryPercent: real): real
  {
    (avgCpu + memoryPercent) / 2.0
  }

  function GetSystemState(avgCpu: real, memoryPercent: real): (s: SystemState)
    ensures s.regime == Classify(Load(avgCpu, memoryPercent)) && s == Profile(s.regime)
  {
    Profile(Classify(Load(avgCpu, memoryPercent)))
  }

  /** More load never means fewer or slower particles. */
  lemma SystemStateMonotone(cpu1: real, mem1: real, cpu2: real, mem2: real)
    requires Load(cpu1, mem1) <= Load(cpu2, mem2)
    ensures GetSystemState(cpu1, mem1).speed <= GetSystemState(cpu2, mem2).speed
    ensures GetSystemState(cpu1, mem1).particles <= GetSystemState(cpu2, mem2).particles
  {
  }

  /** The state depends on the two inputs only through their mean. */
  lemma SystemStateDependsOnLoadOnly(cpu1: real, mem1: real, cpu2: real, mem2: real)
    requires cpu1 + mem1 == cpu2 + mem2
    ensures GetSystemState(cpu1, mem1) == GetSystemState(cpu2, mem2)
  {
  }

  lemma SystemStateExamples()
    ensures GetSystemState(20.0, 20.0) == SystemState(Idle, "#00FF88", 0.5, 30)
    ensures GetSystemState(40.0, 40.0) == SystemState(Normal, "#00D9FF", 1.0, 50)
    ensures GetSystemState(60.0, 60.0) == SystemState(Busy, "#FFD700", 2.0, 80)
    ensures GetSystemState(85.0, 90.0) == SystemState(Intense, "#FF00FF", 3.0, 120)
  {
  }

  predicate Unit(r: real)
  {
    0.0 <= r < 1.0
  }

  /** The six Math.random() results the Particle constructor draws, in call order. */
  datatype SpawnDraw = SpawnDraw(x: real, y: real, vx: real, vy: real, size: real, life: real)
  {
    predicate InUnit()
    {
      Unit(x) && Unit(y) && Unit(vx) && Unit(vy) && Unit(size) && Unit(life)
    }
  }

  /** The two Math.random() results one call of update draws. */
  datatype JitterDraw = JitterDraw(vx: real, vy: real)
  {
    predicate InUnit()
    {
      Unit(vx) && Unit(vy)
    }
  }

  /** A coordinate after it leaves the canvas on one side reappears on the other. */
  function Wrap(v: real, limit: real): (r: real)
    requires 0.0 <= limit
    ensures 0.0 <= r <= limit
    ensures 0.0 <= v <= limit ==> r == v
    ensures v < 0.0 ==> r == limit
    ensures limit < v ==> r == 0.0
  {
    if v < 0.0 then limit else if v > limit then 0.0 else v
  }

  /** The organic velocity change, scaled by the CPU load. */
  function Jitter(draw: real, avgCpu: real): (dv: real)
    requires Unit(draw)
    ensures avgCpu == 0.0 ==> dv == 0.0
    ensures 0.0 <= avgCpu ==> -0.05 * (avgCpu / 100.0) <= dv <= 0.05 * (avgCpu / 100.0)
  {
    var load := avgCpu / 100.0;
    assert 0.0 <= load ==> -0.5 * load <= (draw - 0.5) * load <= 0.5 * load;
    (draw - 0.5) * 0.1 * load
  }

  function MaxReal(a: real, b: real): real { if a < b then b else a }

  function MinReal(a: real, b: real): real { if a < b then a else b }

  /** `Math.max(-bound, Math.min(bound, v))`. */
  function Clamp(v: real, bound: real): (r: real)
    requires 0.0 <= bound
    ensures -bound <= r <= bound
    ensures -bound <= v <= bound ==> r == v
    ensures bound < v ==> r == bound
    ensures v < -bound ==> r == -bound
  {
    MaxReal(-bound, MinReal(bound, v))
  }

  lemma ScaleBelow(r: real, m: real)
    requires Unit(r) && 0.0 <= m
    ensures 0.0 <= r * m <= m
    ensures 0.0 < m ==> r * m < m
  {
    assert r * m <= 1.0 * m;
    if 0.0 < m {
      assert r * m < 1.0 * m;
    }
  }

  lemma ScaleCentered(r: real, m: real)
    requires Unit(r) && 0.0 < m
    ensures -m / 2.0 <= (r - 0.5) * m < m / 2.0
  {
    ScaleBelow(r, m);
    assert (r - 0.5) * m == r * m - 0.5 * m;
  }

  /** The ranges of a freshly drawn particle, named by the values it is given. */
  predicate FreshRanges(x: real, y: real, vx: real, vy: real, size: real, maxLife: real,
                        width: real, height: real, speed: real)
  {
    && 0.0 <= x <= width && (0.0 < width ==> x < width)
    && 0.0 <= y <= height && (0.0 < height ==> y < height)
    && -speed / 2.0 <= vx < speed / 2.0
    && -speed / 2.0 <= vy < speed / 2.0
    && 1.0 <= size < 4.0 && 100.0 <= maxLife < 200.0
  }

  lemma SpawnBounds(width: real, height: real, speed: real, d: SpawnDraw)
    requires 0.0 <= width && 0.0 <= height && 0.0 < speed && d.InUnit()
    ensures FreshRanges(d.x * width, d.y * height, (d.vx - 0.5) * speed, (d.vy - 0.5) * speed,
                        d.size * 3.0 + 1.0, d.life * 100.0 + 100.0, width, height, speed)
  {
    ScaleBelow(d.x, width);
    ScaleBelow(d.y, height);
    ScaleCentered(d.vx, speed);
    ScaleCentered(d.vy, speed);
  }

  /** Where a particle constructed from draw `d` starts: `Math.random() * width` and likewise y. */
  function SpawnPoint(d: SpawnDraw, width: real, height: real): Point
  {
    Point(d.x * width, d.y * height)
  }

  class Particle {
    var x: real
    var y: real
    var vx: real
    var vy: real
    var size: real
    var color: string
    var life: real
    var maxLife: real

    /** A particle at a uniform position with a velocity, size and lifetime drawn from `d`. */
    constructor (width: real, height: real, state: SystemState, d: SpawnDraw)
      requires 0.0 <= width && 0.0 <= height && 0.0 < state.speed && d.InUnit()
      ensures Point(x, y) == SpawnPoint(d, width, height)
      ensures vx == (d.vx - 0.5) * state.speed && vy == (d.vy - 0.5) * state.speed
      ensures size == d.size * 3.0 + 1.0 && color == state.color
      ensures maxLife == d.life * 100.0 + 100.0 && life == maxLife
      ensures FreshRanges(x, y, vx, vy, size, maxLife, width, height, state.speed)
    {
      SpawnBounds(width, height, state.speed, d);
      x := d.x * width;
      y := d.y * height;
      vx := (d.vx - 0.5) * state.speed;
      vy := (d.vy - 0.5) * state.speed;
      size := d.size * 3.0 + 1.0;
      color := state.color;
      maxLife := d.life * 100.0 + 100.0;
      life := maxLife;
    }

    /** One frame: move by the current velocity, age by one, wrap, jitter, clamp the velocity. */
    method Update(width: real, height: real, avgCpu: real, speed: real, d: JitterDraw)
      requires 0.0 <= width && 0.0 <= height && 0.0 <= speed && d.InUnit()
      modifies this
      ensures x == Wrap(old(x) + old(vx), width) && y == Wrap(old(y) + old(vy), height)
      ensures life == old(life) - 1.0
      ensures vx == Clamp(old(vx) + Jitter(d.vx, avgCpu), 2.0 * speed)
      ensures vy == Clamp(old(vy) + Jitter(d.vy, avgCpu), 2.0 * speed)
      ensures size == old(size) && color == old(color) && maxLife == old(maxLife)
    {
      x := x + vx;
      y := y + vy;
      life := life - 1.0;

      if x < 0.0 { x := width; }
      if x > width { x := 0.0; }
      if y < 0.0 { y := height; }
      if y > height { y := 0.0; }

      vx := vx + Jitter(d.vx, avgCpu);
      vy := vy + Jitter(d.vy, avgCpu);

      var maxVel := speed * 2.0;
      vx := Clamp(vx, maxVel);
      vy := Clamp(vy, maxVel);
    }
  }

  /** With no CPU load, a velocity within the bound is left exactly as it was. */
  lemma NoJitterWhenIdleCpu(v: real, draw: real, speed: real)
    requires Unit(draw) && 0.0 <= speed && -2.0 * speed <= v <= 2.0 * speed
    ensures Clamp(v + Jitter(draw, 0.0), 2.0 * speed) == v
  {
  }

  /** No two positions of the pool hold the same object. */
  predicate Distinct<T(==)>(s: seq<T>)
  {
    forall a, b :: 0 <= a < b < |s| ==> s[a] != s[b]
  }

  /** `a` is `b` with some elements left out, the rest in their original order. */
  ghost predicate Subsequence<T>(a: seq<T>, b: seq<T>)
    decreases |b|
  {
    if a == [] then true
    else if b == [] then false
    else (a[0] == b[0] && Subsequence(a[1..], b[1..])) || Subsequence(a, b[1..])
  }

  lemma {:induction false} SubsequenceDistinct<T>(a: seq<T>, b: seq<T>)
    requires Subsequence(a, b) && Distinct(b)
    ensures Distinct(a) && |a| <= |b|
    ensures forall k :: 0 <= k < |a| ==> a[k] in b
    decreases |b|
  {
    if a != [] {
      assert Distinct(b[1..]) by {
        forall p, q | 0 <= p < q < |b[1..]| ensures b[1..][p] != b[1..][q] {
          assert b[1..][p] == b[p + 1] && b[1..][q] == b[q + 1];
        }
      }
      if a[0] == b[0] && Subsequence(a[1..], b[1..]) {
        SubsequenceDistinct(a[1..], b[1..]);
        forall p, q | 0 <= p < q < |a| ensures a[p] != a[q] {
          assert a[q] == a[1..][q - 1];
          if p == 0 {
            assert a[q] in b[1..];
            var m :| 0 <= m < |b[1..]| && b[1..][m] == a[q];
            assert b[m + 1] == a[q];
          } else {
            assert a[p] == a[1..][p - 1];
          }
        }
        forall k | 0 <= k < |a| ensures a[k] in b {
          if k > 0 {
            assert a[k] == a[1..][k - 1];
          }
        }
      } else {
        SubsequenceDistinct(a, b[1..]);
      }
    }
  }

  /** `filter(p => p.life > 0)`. */
  function Alive(ps: seq<Particle>): (r: seq<Particle>)
    reads ps
    ensures forall k :: 0 <= k < |r| ==> r[k].life > 0.0
    decreases |ps|
  {
    if ps == [] then []
    else
      var rest := Alive(ps[1..]);
      if ps[0].life > 0.0 then [ps[0]] + rest else rest
  }

  /** `filter` keeps a subsequence: the order of the survivors is the pool's order. */
  lemma {:induction false} AliveSubsequence(ps: seq<Particle>)
    ensures Subsequence(Alive(ps), ps)
    decreases |ps|
  {
    if ps != [] {
      AliveSubsequence(ps[1..]);
    }
  }

  /** `filter` keeps every particle that is still alive. */
  lemma {:induction false} AliveKeepsLive(ps: seq<Particle>)
    ensures forall k :: 0 <= k < |ps| && ps[k].life > 0.0 ==> ps[k] in Alive(ps)
    decreases |ps|
  {
    if ps != [] {
      AliveKeepsLive(ps[1..]);
      forall k | 1 <= k < |ps| && ps[k].life > 0.0 ensures ps[k] in Alive(ps) {
        assert ps[k] == ps[1..][k - 1];
      }
    }
  }

  function Positions(ps: seq<Particle>): (pts: seq<Point>)
    reads ps
    ensures |pts| == |ps|
    ensures forall k :: 0 <= k < |ps| ==> pts[k] == Point(ps[k].x, ps[k].y)
  {
    seq(|ps|, k reads ps requires 0 <= k < |ps| => Point(ps[k].x, ps[k].y))
  }

  lemma PositionsAppend(ps: seq<Particle>, p: Particle)
    ensures Positions(ps + [p]) == Positions(ps) + [Point(p.x, p.y)]
  {
    assert forall k :: 0 <= k < |ps| ==> (ps + [p])[k] == ps[k];
  }

  lemma DistinctAppend<T>(s: seq<T>, x: T)
    requires Distinct(s) && x !in s
    ensures Distinct(s + [x])
  {
    forall a, b | 0 <= a < b < |s + [x]| ensures (s + [x])[a] != (s + [x])[b] {
      assert (s + [x])[a] == s[a];
      if b == |s| {
        assert (s + [x])[b] == x;
      } else {
        assert (s + [x])[b] == s[b];
      }
    }
  }

  /** Where particles constructed from `draws` start. */
  function SpawnPositions(draws: seq<SpawnDraw>, width: real, height: real): (pts: seq<Point>)
    ensures |pts| == |draws|
    ensures forall k :: 0 <= k < |draws| ==> pts[k] == SpawnPoint(draws[k], width, height)
  {
    seq(|draws|, k requires 0 <= k < |draws| => SpawnPoint(draws[k], width, height))
  }

  lemma SpawnPositionsStep(draws: seq<SpawnDraw>, i: nat, width: real, height: real)
    requires i < |draws|
    ensures SpawnPositions(draws[..i + 1], width, height)
         == SpawnPositions(draws[..i], width, height) + [SpawnPoint(draws[i], width, height)]
  {
    var a := SpawnPositions(draws[..i + 1], width, height);
    var b := SpawnPositions(draws[..i], width, height) + [SpawnPoint(draws[i], width, height)];
    assert |a| == |b|;
    forall k | 0 <= k < |a| ensures a[k] == b[k] {
      assert draws[..i + 1][k] == draws[k];
      if k < i {
        assert draws[..i][k] == draws[k];
      }
    }
  }

  /**
   * The number of particles one frame adds to a pool of `count`: when below `target`,
   * `Math.min(Math.floor(net / 10) + 1, target - count)` iterations of the push loop (none when
   * that is not positive); otherwise none.
   */
  function ParticlesToAdd(count: nat, target: nat, networkActivity: real): (n: nat)
    ensures target <= count ==> n == 0
    ensures count < target && 0.0 <= networkActivity ==> n == Min((networkActivity / 10.0).Floor + 1, target - count)
    ensures count < target && 0.0 <= networkActivity ==> 1 <= n
    ensures count + n <= target || n == 0
  {
    if count < target then
      var budget := Min((networkActivity / 10.0).Floor + 1, target - count);
      if budget > 0 then budget else 0
    else 0
  }

  /** From any pool at or below target, each frame ends at or below target again. */
  lemma FrameKeepsBound(count: nat, target: nat, networkActivity: real)
    requires count <= target
    ensures count + ParticlesToAdd(count, target, networkActivity) <= target
  {
  }

  /** With no traffic, a pool below target grows by exactly one particle per frame. */
  lemma QuietNetworkAddsOne(count: nat, target: nat)
    requires count < target
    ensures ParticlesToAdd(count, target, 0.0) == 1
  {
  }

  /** Heavy traffic refills the whole deficit in one frame once the budget covers it. */
  lemma BusyNetworkFillsDeficit(count: nat, target: nat, networkActivity: real)
    requires count < target && 10.0 * ((target - count) as real) <= networkActivity
    ensures count + ParticlesToAdd(count, target, networkActivity) == target
  {
    var q := networkActivity / 10.0;
    assert (target - count) as real <= q;
    assert target - count <= q.Floor;
  }

  /**
   * One run of the animation effect: the canvas size and the telemetry figures it was started
   * with stay fixed, and `particles` is the pool (particlesRef.current).
   */
  class Simulation {
    const width: real
    const height: real
    const avgCpu: real
    const memoryPercent: real
    const networkActivity: real
    const state: SystemState
    var particles: seq<Particle>
    var active: bool     // a frame is scheduled (requestAnimationFrame not cancelled)

    /** What update and the constructor guarantee about each particle of this run. */
    ghost predicate Healthy(p: Particle)
      reads p
    {
      && 0.0 <= p.x <= width && 0.0 <= p.y <= height
      && -2.0 * state.speed <= p.vx <= 2.0 * state.speed
      && -2.0 * state.speed <= p.vy <= 2.0 * state.speed
      && 1.0 <= p.size < 4.0 && 100.0 <= p.maxLife < 200.0 && p.life <= p.maxLife
      && p.color == state.color
    }

    /** `p` is what `new Particle()` builds in this run from the draws `d`. */
    ghost predicate Spawned(p: Particle, d: SpawnDraw)
      reads p
    {
      && Point(p.x, p.y) == SpawnPoint(d, width, height)
      && p.vx == (d.vx - 0.5) * state.speed && p.vy == (d.vy - 0.5) * state.speed
      && p.size == d.size * 3.0 + 1.0 && p.color == state.color
      && p.maxLife == d.life * 100.0 + 100.0 && p.life == p.maxLife
    }

    /** `p` is what `new Particle()` builds from `d`, after one `update()` with the draws `j`. */
    ghost predicate SpawnedThenStepped(p: Particle, d: SpawnDraw, j: JitterDraw)
      requires j.InUnit() && 0.0 <= width && 0.0 <= height && 0.0 <= state.speed
      reads p
    {
      var vx, vy := (d.vx - 0.5) * state.speed, (d.vy - 0.5) * state.speed;
      && p.x == Wrap(d.x * width + vx, width) && p.y == Wrap(d.y * height + vy, height)
      && p.vx == Clamp(vx + Jitter(j.vx, avgCpu), 2.0 * state.speed)
      && p.vy == Clamp(vy + Jitter(j.vy, avgCpu), 2.0 * state.speed)
      && p.size == d.size * 3.0 + 1.0 && p.color == state.color
      && p.maxLife == d.life * 100.0 + 100.0 && p.life == p.maxLife - 1.0
    }

    ghost predicate Valid()
      reads this, particles
    {
      && 0.0 <= width && 0.0 <= height && 0.0 < state.speed
      && |particles| <= state.particles
      && Distinct(particles)
      && forall k :: 0 <= k < |particles| ==> Healthy(particles[k])
    }

    /** Starting the effect: read the snapshot, size the canvas, seed `target` particles. */
    constructor (m: Snapshot, canvasWidth: nat, canvasHeight: nat, seed: seq<SpawnDraw>)
      requires |m.cpuUsage| > 0
      requires |seed| >= GetSystemState(AvgCpu(m.cpuUsage), m.memoryUsedPercent).particles
      requires forall k :: 0 <= k < |seed| ==> seed[k].InUnit()
      ensures Valid() && active
      ensures width == canvasWidth as real && height == canvasHeight as real
      ensures avgCpu == AvgCpu(m.cpuUsage) && memoryPercent == m.memoryUsedPercent
      ensures networkActivity == NetworkActivity(m.bytesSent, m.bytesRecv)
      ensures state == GetSystemState(avgCpu, memoryPercent)
      ensures |particles| == state.particles
      ensures forall k :: 0 <= k < |particles| ==> fresh(particles[k]) && Spawned(particles[k], seed[k])
    {
      width := canvasWidth as real;
      height := canvasHeight as real;
      avgCpu := AvgCpu(m.cpuUsage);
      memoryPercent := m.memoryUsedPercent;
      networkActivity := NetworkActivity(m.bytesSent, m.bytesRecv);
      state := GetSystemState(AvgCpu(m.cpuUsage), m.memoryUsedPercent);
      particles := [];
      active := true;
      new;
      var i := 0;
      while i < state.particles
        invariant 0 <= i <= state.particles && |particles| == i
        invariant Valid() && active
        invariant forall k :: 0 <= k < |particles| ==> fresh(particles[k]) && Spawned(particles[k], seed[k])
      {
        Push(seed[i]);
        i := i + 1;
      }
    }

    /** `particlesRef.current.filter(p => p.life > 0)`. */
    method RemoveDead()
      requires Valid()
      modifies this
      ensures Valid() && active == old(active)
      ensures particles == old(Alive(particles))
      ensures Positions(particles) == old(Positions(Alive(particles)))
      ensures forall k :: 0 <= k < |particles| ==> particles[k].life > 0.0 && particles[k] in old(particles)
    {
      AliveSubsequence(particles);
      SubsequenceDistinct(Alive(particles), particles);
      particles := Alive(particles);
    }

    /** `particlesRef.current.push(new Particle())` with the constructor's draws `d`. */
    method Push(d: SpawnDraw)
      requires Valid() && |particles| < state.particles && d.InUnit()
      modifies this
      ensures Valid() && active == old(active)
      ensures |particles| == old(|particles|) + 1 && particles[..old(|particles|)] == old(particles)
      ensures fresh(particles[old(|particles|)]) && Spawned(particles[old(|particles|)], d)
      ensures Positions(particles) == old(Positions(particles)) + [SpawnPoint(d, width, height)]
    {
      var p := new Particle(width, height, state, d);
      assert Healthy(p);
      DistinctAppend(particles, p);
      PositionsAppend(particles, p);
      particles := particles + [p];
    }

    /** The push loop: add ParticlesToAdd particles built from the first draws. */
    method Spawn(draws: seq<SpawnDraw>)
      requires Valid()
      requires |draws| >= state.particles
      requires forall k :: 0 <= k < |draws| ==> draws[k].InUnit()
      modifies this
      ensures Valid() && active == old(active)
      ensures |particles| == old(|particles|) + ParticlesToAdd(old(|particles|), state.particles, networkActivity)
      ensures particles[..old(|particles|)] == old(particles)
      ensures forall k :: old(|particles|) <= k < |particles| ==> fresh(particles[k])
      ensures SpawnedFrom(draws, old(|particles|))
      ensures Positions(particles) == old(Positions(particles))
                + SpawnPositions(draws[..|particles| - old(|particles|)], width, height)
    {
      ghost var before := particles;
      if |particles| < state.particles {
        var particlesToAdd := Min((networkActivity / 10.0).Floor + 1, state.particles - |particles|);
        var i := 0;
        while i < particlesToAdd
          invariant 0 <= i <= Max(particlesToAdd, 0)
          invariant |particles| == |before| + i
          invariant particles[..|before|] == before
          invariant Valid() && active == old(active)
          invariant forall k :: |before| <= k < |particles| ==>
            fresh(particles[k]) && Spawned(particles[k], draws[k - |before|])
          invariant Positions(particles) == old(Positions(particles)) + SpawnPositions(draws[..i], width, height)
        {
          SpawnPositionsStep(draws, i, width, height);
          Push(draws[i]);
          i := i + 1;
        }
      }
    }

    /** update() of every particle, in pool order, each with its own jitter draws. */
    method UpdateAll(draws: seq<JitterDraw>)
      requires Valid()
      requires |draws| >= |particles|
      requires forall k :: 0 <= k < |draws| ==> draws[k].InUnit()
      modifies particles
      ensures Valid()
      ensures forall k :: 0 <= k < |particles| ==> Stepped(particles[k], draws[k])
    {
      var i := 0;
      while i < |particles|
        invariant 0 <= i <= |particles|
        invariant Valid()
        invariant forall k :: 0 <= k < i ==> Stepped(particles[k], draws[k])
        invariant forall k :: i <= k < |particles| ==> unchanged(particles[k])
      {
        particles[i].Update(width, height, avgCpu, state.speed, draws[i]);
        i := i + 1;
      }
    }

    /** `p` has made exactly one update step since the method began. */
    twostate predicate Stepped(p: Particle, d: JitterDraw)
      requires d.InUnit() && 0.0 <= width && 0.0 <= height && 0.0 <= state.speed
      reads p
    {
      && p.x == Wrap(old(p.x) + old(p.vx), width) && p.y == Wrap(old(p.y) + old(p.vy), height)
      && p.life == old(p.life) - 1.0
      && p.vx == Clamp(old(p.vx) + Jitter(d.vx, avgCpu), 2.0 * state.speed)
      && p.vy == Clamp(old(p.vy) + Jitter(d.vy, avgCpu), 2.0 * state.speed)
      && p.size == old(p.size) && p.color == old(p.color) && p.maxLife == old(p.maxLife)
    }

    /**
     * The pool after `filter` and the push loop: the survivors, in order, followed by
     * ParticlesToAdd fresh particles.
     */
    twostate predicate Refilled()
      reads this
    {
      var survivors := old(Alive(particles));
      && |particles| == |survivors| + ParticlesToAdd(|survivors|, state.particles, networkActivity)
      && particles[..|survivors|] == survivors
      && (forall k :: |survivors| <= k < |particles| ==> fresh(particles[k]))
    }

    /**
     * `drawn` lists where the refilled pool stands: the survivors' positions, then the
     * start positions of the spawned particles, taken from the first `spawnDraws`.
     */
    twostate predicate DrawnFrom(drawn: seq<Point>, spawnDraws: seq<SpawnDraw>)
      reads this
    {
      var added := |particles| - |old(Alive(particles))|;
      && 0 <= added <= |spawnDraws|
      && drawn == old(Positions(Alive(particles))) + SpawnPositions(spawnDraws[..added], width, height)
    }

    /** The first half of a frame: `filter` out the dead particles, then the push loop. */
    method Refill(spawnDraws: seq<SpawnDraw>)
      requires Valid()
      requires |spawnDraws| >= state.particles
      requires forall k :: 0 <= k < |spawnDraws| ==> spawnDraws[k].InUnit()
      modifies this
      ensures Valid() && active == old(active)
      ensures Refilled()
      ensures forall k :: 0 <= k < |particles| ==> particles[k] in old(particles) || fresh(particles[k])
      ensures DrawnFrom(Positions(particles), spawnDraws)
      ensures SpawnedFrom(spawnDraws, |old(Alive(particles))|)
    {
      ghost var survivors, survivorPositions := Alive(particles), Positions(Alive(particles));
      RemoveDead();
      assert particles == survivors && Positions(particles) == survivorPositions;
      Spawn(spawnDraws);
    }

    /** From index `from` on, the pool holds the particles built from `spawnDraws`, in order. */
    ghost predicate SpawnedFrom(spawnDraws: seq<SpawnDraw>, from: nat)
      reads this, particles
    {
      && from <= |particles| <= from + |spawnDraws|
      && forall k :: from <= k < |particles| ==> Spawned(particles[k], spawnDraws[k - from])
    }

    /**
     * The second half of a frame: `drawConnections()` on the pool, then `update()` of each
     * particle. The particles spawned this frame (from index `from` on) end as SpawnedThenStepped.
     */
    method Advance(jitterDraws: seq<JitterDraw>, ghost spawnDraws: seq<SpawnDraw>, ghost from: nat)
      returns (lines: seq<Connection>)
      requires Valid() && |jitterDraws| >= state.particles
      requires forall k :: 0 <= k < |jitterDraws| ==> jitterDraws[k].InUnit()
      requires SpawnedFrom(spawnDraws, from)
      modifies particles
      ensures Valid() && particles == old(particles)
      ensures lines == Pairs(old(Positions(particles)))
      ensures forall k :: 0 <= k < |particles| ==> Stepped(particles[k], jitterDraws[k])
      ensures forall k :: from <= k < |particles| ==>
        SpawnedThenStepped(particles[k], spawnDraws[k - from], jitterDraws[k])
    {
      lines := DrawConnections(Positions(particles));
      UpdateAll(jitterDraws);
      forall k | from <= k < |particles|
        ensures SpawnedThenStepped(particles[k], spawnDraws[k - from], jitterDraws[k])
      {
        assert old(Spawned(particles[k], spawnDraws[k - from]));
      }
    }

    /**
     * One frame of `animate`: drop dead particles, spawn, compute the connection lines on the
     * pool as it is then, and move every particle; each particle spawned this frame ends as
     * the constructor built it, moved by one `update()`.
     */
    method Animate(spawnDraws: seq<SpawnDraw>, jitterDraws: seq<JitterDraw>)
      returns (lines: seq<Connection>, ghost drawn: seq<Point>)
      requires Valid() && active
      requires |spawnDraws| >= state.particles && |jitterDraws| >= state.particles
      requires forall k :: 0 <= k < |spawnDraws| ==> spawnDraws[k].InUnit()
      requires forall k :: 0 <= k < |jitterDraws| ==> jitterDraws[k].InUnit()
      modifies this, particles
      ensures Valid() && active
      ensures Refilled()
      ensures DrawnFrom(drawn, spawnDraws) && lines == Pairs(drawn)
      ensures forall k :: |old(Alive(particles))| <= k < |particles| ==>
        SpawnedThenStepped(particles[k], spawnDraws[k - |old(Alive(particles))|], jitterDraws[k])
    {
      ghost var survivors := Alive(particles);
      Refill(spawnDraws);
      drawn := Positions(particles);
      lines := Advance(jitterDraws, spawnDraws, |survivors|);
    }

    /** The effect's cleanup: cancel the scheduled frame. Cancelling twice is harmless. */
    method Cancel()
      modifies this
      ensures !active && particles == old(particles)
    {
      active := false;
    }
  }
}
