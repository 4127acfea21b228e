/** The per-tooth physics of the simulator: each tooth is a point mass whose
    displacement from its rest position is driven by an applied force, damped,
    and hard-clamped. All quantities are mathematical reals. */
module Physics {

  /** Mass given to every tooth when the row is built. */
  const Mass: real := 0.01
  /** Largest displacement, in either direction, on each axis. */
  const Limit: real := 0.02
  /** Tuned multiplier of the damping rate in the per-frame decay. */
  const DampingGain: real := 6.0

  /** One tooth: displacement (x, y), velocity (vx, vy), mass and rest position. */
  datatype Body = Body(x: real, y: real, vx: real, vy: real, mass: real, baseX: real, baseY: real)

  /** The applied force and frame parameters of one physics step. */
  datatype Frame = Frame(dt: real, fx: real, fy: real, damping: real)

  function Abs(v: real): (r: real)
    ensures r >= 0.0 && (r == v || r == -v)
  {
    if v < 0.0 then -v else v
  }

  /** Both displacement components lie within [-Limit, Limit]. */
  predicate InLimit(b: Body)
  {
    -Limit <= b.x <= Limit && -Limit <= b.y <= Limit
  }

  predicate MassesNonZero(ts: seq<Body>)
  {
    forall i :: 0 <= i < |ts| ==> ts[i].mass != 0.0
  }

  predicate AllInLimit(ts: seq<Body>)
  {
    forall i :: 0 <= i < |ts| ==> InLimit(ts[i])
  }

  // ---------------------------------------------------------------------
  // Saturation of the displacement

  /** max(-Limit, min(Limit, v)): the value lands in the interval and is left
      alone when it is already there. */
  function Clamp(v: real): (r: real)
    ensures -Limit <= r <= Limit
    ensures -Limit <= v <= Limit ==> r == v
  {
    var upper := if Limit < v then Limit else v;
    if -Limit < upper then upper else -Limit
  }

  /** The clamp moves a value to the nearest point of the interval. */
  lemma ClampIsNearest(v: real, w: real)
    requires -Limit <= w <= Limit
    ensures Abs(Clamp(v) - v) <= Abs(w - v)
  {
  }

  // ---------------------------------------------------------------------
  // Edge weighting of the applied force

  /** 1 - |idx - centre| / n, with centre = (n - 1) / 2: closer to 1 near the
      middle of the row. No tooth is as far as half the row's length from the
      centre, so the factor lies in (0.5, 1]. */
  function DistFactor(idx: int, n: int): (r: real)
    requires 0 <= idx < n
    ensures 0.5 < r <= 1.0
  {
    var d := Abs(idx as real - (n - 1) as real / 2.0);
    DistanceBelowHalf(d, n);
    1.0 - d / n as real
  }

  /** Fraction of the nominal force that reaches tooth idx of n: more than 80%
      (so well above the 60% floor of the formula 0.6 + 0.4 * distFactor) and
      at most all of it. */
  function Weight(idx: int, n: int): (r: real)
    requires 0 <= idx < n
    ensures 0.8 < r <= 1.0
  {
    0.6 + 0.4 * DistFactor(idx, n)
  }

  /** A distance from the centre is strictly less than half the row's length. */
  lemma DistanceBelowHalf(d: real, n: int)
    requires n >= 1 && 0.0 <= d <= (n - 1) as real / 2.0
    ensures 0.0 <= d / n as real < 0.5
  {
    var m := n as real;
    assert d < m / 2.0;
    assert d / m * m == d;
  }

  /** Mirror-image teeth receive the same fraction of the force. */
  lemma WeightSymmetric(idx: int, n: int)
    requires 0 <= idx < n
    ensures Weight(idx, n) == Weight(n - 1 - idx, n)
  {
    var c := (n - 1) as real / 2.0;
    assert (n - 1 - idx) as real - c == -(idx as real - c);
  }

  /** A tooth at least as close to the centre receives at least as much force. */
  lemma WeightCloserIsLarger(i: int, j: int, n: int)
    requires 0 <= i < n && 0 <= j < n
    requires Abs(i as real - (n - 1) as real / 2.0) <= Abs(j as real - (n - 1) as real / 2.0)
    ensures Weight(i, n) >= Weight(j, n)
  {
    var c := (n - 1) as real / 2.0;
    var m := n as real;
    DivideMonotone(Abs(i as real - c), Abs(j as real - c), m);
  }

  lemma DivideMonotone(a: real, b: real, m: real)
    requires 0.0 <= a <= b && m > 0.0
    ensures a / m <= b / m
  {
    assert b / m - a / m == (b - a) / m;
  }

  /** With an odd count the middle tooth receives the full force. */
  lemma MiddleToothFullWeight(n: int)
    requires n >= 1 && n % 2 == 1
    ensures Weight((n - 1) / 2, n) == 1.0
  {
    assert ((n - 1) / 2) as real == (n - 1) as real / 2.0;
  }

  // ---------------------------------------------------------------------
  // Damping

  /** max(0, 1 - damping * dt * 6): never negative, at least the linear decay,
      and a proper decay (at most 1, below 1 once rate and step are positive)
      for a non-negative rate and time step. */
  function DampFactor(damping: real, dt: real): (r: real)
    ensures r >= 0.0 && r >= 1.0 - damping * dt * DampingGain
    ensures r == 0.0 || r == 1.0 - damping * dt * DampingGain
    ensures damping >= 0.0 && dt >= 0.0 ==> r <= 1.0
    ensures damping > 0.0 && dt > 0.0 ==> r < 1.0
  {
    ProductSign(damping, dt);
    var linear := 1.0 - damping * dt * DampingGain;
    if 0.0 < linear then linear else 0.0
  }

  lemma ProductSign(a: real, b: real)
    ensures a >= 0.0 && b >= 0.0 ==> a * b >= 0.0
    ensures a > 0.0 && b > 0.0 ==> a * b > 0.0
  {
  }

  // ---------------------------------------------------------------------
  // One step of one tooth

  /** One step of tooth idx of n: the nominal force scaled by the tooth's weight. */
  function StepBody(b: Body, idx: int, n: int, f: Frame): (r: Body)
    requires 0 <= idx < n && b.mass != 0.0
    ensures InLimit(r)
    ensures r.mass == b.mass && r.baseX == b.baseX && r.baseY == b.baseY
  {
    Advance(b, Weight(idx, n), f)
  }

  /** Explicit Euler from the weighted force to velocity, damping, Euler from
      velocity to displacement, then the clamp. Only x, y, vx and vy change. */
  function Advance(b: Body, w: real, f: Frame): (r: Body)
    requires b.mass != 0.0
    ensures InLimit(r)
    ensures r.mass == b.mass && r.baseX == b.baseX && r.baseY == b.baseY
  {
    var vx := NewVelocity(b.vx, f.fx, w, b.mass, f);
    var vy := NewVelocity(b.vy, f.fy, w, b.mass, f);
    b.(x := Clamp(Euler(b.x, vx, f.dt)), y := Clamp(Euler(b.y, vy, f.dt)), vx := vx, vy := vy)
  }

  /** One explicit Euler step: q += rate * dt. */
  function Euler(q: real, rate: real, dt: real): real
  {
    q + rate * dt
  }

  /** One velocity component: Euler step with acceleration force * w / mass,
      then multiplied by the damping factor. Without force it never grows in
      magnitude and, with a positive rate and time step, strictly shrinks;
      once damping * dt * 6 reaches 1 it is exactly 0, whatever the force. */
  function NewVelocity(v: real, force: real, w: real, mass: real, f: Frame): (r: real)
    requires mass != 0.0
    ensures force == 0.0 && f.damping >= 0.0 && f.dt >= 0.0 ==> Abs(r) <= Abs(v)
    ensures force == 0.0 && f.damping > 0.0 && f.dt > 0.0 && v != 0.0 ==> Abs(r) < Abs(v)
    ensures f.damping * f.dt * DampingGain >= 1.0 ==> r == 0.0
  {
    var u := Euler(v, force * w / mass, f.dt);
    var d := DampFactor(f.damping, f.dt);
    assert force == 0.0 ==> u == v by {
      if force == 0.0 {
        assert force * w / mass == 0.0;
      }
    }
    DampedMagnitude(u, d);
    u * d
  }

  /** Multiplying by a factor in [0, 1] never increases magnitude, and one
      below 1 strictly decreases a non-zero magnitude. */
  lemma DampedMagnitude(u: real, d: real)
    ensures 0.0 <= d <= 1.0 ==> Abs(u * d) <= Abs(u)
    ensures 0.0 <= d < 1.0 && u != 0.0 ==> Abs(u * d) < Abs(u)
  {
    if 0.0 <= d <= 1.0 {
      var a := Abs(u);
      ProductSign(a, d);
      ProductSign(a, 1.0 - d);
      assert a * (1.0 - d) == a - a * d;
      assert Abs(u * d) == a * d;
    }
  }

  /** Without force, a step never makes a tooth move faster on either axis. */
  lemma ZeroForceVelocityNoGrowth(b: Body, idx: int, n: int, f: Frame)
    requires 0 <= idx < n && b.mass != 0.0
    requires f.fx == 0.0 && f.fy == 0.0 && f.damping >= 0.0 && f.dt >= 0.0
    ensures Abs(StepBody(b, idx, n, f).vx) <= Abs(b.vx)
    ensures Abs(StepBody(b, idx, n, f).vy) <= Abs(b.vy)
  {
  }

  /** Without force, with a positive damping rate and time step, every moving
      velocity component strictly shrinks in a step: the tooth slows down. */
  lemma ZeroForceVelocityDecays(b: Body, idx: int, n: int, f: Frame)
    requires 0 <= idx < n && b.mass != 0.0
    requires f.fx == 0.0 && f.fy == 0.0 && f.damping > 0.0 && f.dt > 0.0
    ensures b.vx != 0.0 ==> Abs(StepBody(b, idx, n, f).vx) < Abs(b.vx)
    ensures b.vy != 0.0 ==> Abs(StepBody(b, idx, n, f).vy) < Abs(b.vy)
  {
  }

  /** Once damping * dt * 6 reaches 1 the tooth stops, whatever the force. */
  lemma HeavyDampingStops(b: Body, idx: int, n: int, f: Frame)
    requires 0 <= idx < n && b.mass != 0.0
    requires f.damping * f.dt * DampingGain >= 1.0
    ensures StepBody(b, idx, n, f).vx == 0.0 && StepBody(b, idx, n, f).vy == 0.0
    ensures StepBody(b, idx, n, f).x == Clamp(b.x) && StepBody(b, idx, n, f).y == Clamp(b.y)
  {
    assert 0.0 * f.dt == 0.0;
  }

  /** Two teeth in mirror positions with the same state move alike. */
  lemma MirrorTeethMoveAlike(b: Body, idx: int, n: int, f: Frame)
    requires 0 <= idx < n && b.mass != 0.0
    ensures StepBody(b, idx, n, f) == StepBody(b, n - 1 - idx, n, f)
  {
    WeightSymmetric(idx, n);
  }

  // ---------------------------------------------------------------------
  // One step of the whole row, and a run of steps

  /** Every tooth advanced by one step, each from its own state, index and the count. */
  function StepAll(ts: seq<Body>, f: Frame): (r: seq<Body>)
    requires MassesNonZero(ts)
    ensures |r| == |ts| && MassesNonZero(r) && AllInLimit(r)
    ensures forall i :: 0 <= i < |r| ==>
              r[i].mass == ts[i].mass && r[i].baseX == ts[i].baseX && r[i].baseY == ts[i].baseY
  {
    seq(|ts|, i requires 0 <= i < |ts| => StepBody(ts[i], i, |ts|, f))
  }

  /** The row after the given frames, in order, one step per animation frame:
      the count is kept and no mass becomes zero, so every later frame can
      still divide by it. */
  function Simulate(ts: seq<Body>, frames: seq<Frame>): (r: seq<Body>)
    requires MassesNonZero(ts)
    ensures |r| == |ts| && MassesNonZero(r)
    decreases |frames|
  {
    if frames == [] then ts else Simulate(StepAll(ts, frames[0]), frames[1..])
  }

  /** Clamp invariant over any number of steps: after at least one frame, all
      displacements are within the limit whatever the starting state. */
  lemma {:induction false} SimulateStaysInLimit(ts: seq<Body>, frames: seq<Frame>)
    requires MassesNonZero(ts) && (frames != [] || AllInLimit(ts))
    ensures |Simulate(ts, frames)| == |ts| && AllInLimit(Simulate(ts, frames))
    decreases |frames|
  {
    if frames != [] {
      SimulateStaysInLimit(StepAll(ts, frames[0]), frames[1..]);
    }
  }

  /** A run of steps keeps every tooth's mass and rest position. */
  lemma {:induction false} SimulateKeepsLayout(ts: seq<Body>, frames: seq<Frame>)
    requires MassesNonZero(ts)
    ensures |Simulate(ts, frames)| == |ts|
    ensures forall i :: 0 <= i < |ts| ==>
              Simulate(ts, frames)[i].mass == ts[i].mass &&
              Simulate(ts, frames)[i].baseX == ts[i].baseX &&
              Simulate(ts, frames)[i].baseY == ts[i].baseY
    decreases |frames|
  {
    if frames != [] {
      SimulateKeepsLayout(StepAll(ts, frames[0]), frames[1..]);
    }
  }

  /** Force-free frames: every frame has no force and non-negative damping and dt. */
  predicate ForceFree(frames: seq<Frame>)
  {
    forall k :: 0 <= k < |frames| ==>
      frames[k].fx == 0.0 && frames[k].fy == 0.0 && frames[k].damping >= 0.0 && frames[k].dt >= 0.0
  }

  /** Without force, no tooth ever moves faster than it started, over any run. */
  lemma {:induction false} SimulateZeroForceVelocityNoGrowth(ts: seq<Body>, frames: seq<Frame>)
    requires MassesNonZero(ts) && ForceFree(frames)
    ensures |Simulate(ts, frames)| == |ts|
    ensures forall i :: 0 <= i < |ts| ==>
              Abs(Simulate(ts, frames)[i].vx) <= Abs(ts[i].vx) &&
              Abs(Simulate(ts, frames)[i].vy) <= Abs(ts[i].vy)
    decreases |frames|
  {
    if frames != [] {
      var next := StepAll(ts, frames[0]);
      forall i | 0 <= i < |ts|
        ensures Abs(next[i].vx) <= Abs(ts[i].vx) && Abs(next[i].vy) <= Abs(ts[i].vy)
      {
        ZeroForceVelocityNoGrowth(ts[i], i, |ts|, frames[0]);
      }
      SimulateZeroForceVelocityNoGrowth(next, frames[1..]);
    }
  }
}
