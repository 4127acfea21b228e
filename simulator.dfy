/** The simulator's mutable state: the array of teeth, rebuilt on a count
    change and advanced in place once per animation frame, and the timestamp
    of the previous frame. */
module Simulator {
  import opened Physics
  import opened Layout

  /** Longest frame time handed to the physics, in seconds. */
  const MaxFrameTime: real := 0.035

  /** min(0.035, (now - last) / 1000): the elapsed time in seconds, capped.
      Never above the cap nor above the elapsed time, and one of the two. */
  function FrameTime(now: real, last: real): (dt: real)
    ensures dt <= MaxFrameTime && dt <= (now - last) / 1000.0
    ensures dt == MaxFrameTime || dt == (now - last) / 1000.0
  {
    var elapsed := (now - last) / 1000.0;
    if MaxFrameTime < elapsed then MaxFrameTime else elapsed
  }

  /** A clock that does not run backwards yields a non-negative frame time,
      the condition the damping lemmas ask for. */
  lemma FrameTimeNonNegative(now: real, last: real)
    requires last <= now
    ensures 0.0 <= FrameTime(now, last) <= MaxFrameTime
  {
  }

  class Simulator {
    /** The teeth, in row order. */
    var teeth: seq<Body>
    /** Timestamp, in milliseconds, of the previous frame. */
    var last: real

    /** Every tooth has the standard mass and a displacement within the limit. */
    ghost predicate Valid()
      reads this
    {
      forall i :: 0 <= i < |teeth| ==> teeth[i].mass == Mass && InLimit(teeth[i])
    }

    /** No teeth yet; the clock reading taken at start-up. */
    constructor (now: real)
      ensures Valid() && teeth == [] && last == now
    {
      teeth := [];
      last := now;
    }

    /** Discards every tooth and builds a fresh centred row of n teeth. */
    method InitTeeth(n: int, width: real, height: real)
      modifies this`teeth
      ensures Valid() && last == old(last)
      ensures teeth == RowLayout(n, width, height)
    {
      teeth := [];
      var spacing := Spacing;
      var totalWidth := spacing * (n - 1) as real;
      var startX := (width - totalWidth) / 2.0;

      var count := if n < 0 then 0 else n;
      var i := 0;
      while i < n
        invariant 0 <= i <= count
        invariant |teeth| == i
        invariant forall j :: 0 <= j < i ==> teeth[j] == Body(0.0, 0.0, 0.0, 0.0, Mass, 0.0, 0.0)
      {
        teeth := teeth + [Body(0.0, 0.0, 0.0, 0.0, Mass, 0.0, 0.0)];
        i := i + 1;
      }

      var row := RowLayout(n, width, height);
      i := 0;
      while i < |teeth|
        invariant 0 <= i <= |teeth| == count
        invariant forall j :: 0 <= j < i ==> teeth[j] == row[j]
        invariant forall j :: i <= j < |teeth| ==> teeth[j] == Body(0.0, 0.0, 0.0, 0.0, Mass, 0.0, 0.0)
      {
        var baseX := startX + i as real * spacing;
        var baseY := height / 2.0 - RaiseAboveMiddle;
        teeth := teeth[i := teeth[i].(baseX := baseX, baseY := baseY)];
        i := i + 1;
      }
      assert teeth == row;
    }

    /** Advances every tooth by one frame of length dt under the force
        (fx, fy); each tooth's new state depends only on its own old state,
        its index and the number of teeth. */
    method StepPhysics(dt: real, fx: real, fy: real, damping: real)
      requires Valid()
      modifies this`teeth
      ensures Valid() && last == old(last) && |teeth| == |old(teeth)|
      ensures forall i :: 0 <= i < |teeth| ==>
                teeth[i] == StepBody(old(teeth)[i], i, |teeth|, Frame(dt, fx, fy, damping))
      ensures teeth == StepAll(old(teeth), Frame(dt, fx, fy, damping))
    {
      var n := |teeth|;
      var idx := 0;
      while idx < n
        invariant 0 <= idx <= n == |teeth|
        invariant forall i :: 0 <= i < idx ==>
                    teeth[i] == StepBody(old(teeth)[i], i, n, Frame(dt, fx, fy, damping))
        invariant forall i :: idx <= i < n ==> teeth[i] == old(teeth)[i]
        invariant Valid()
      {
        var w := Weight(idx, n);
        var moved := ApplyForce(teeth[idx], w, dt, fx, fy, damping);
        teeth := teeth[idx := moved];
        idx := idx + 1;
      }
    }

    /** The drawing position of every tooth at gain k; changes nothing. */
    method Render(k: real) returns (frame: seq<Point>)
      requires Valid()
      ensures |frame| == |teeth|
      ensures forall i :: 0 <= i < |teeth| ==> frame[i] == RenderPosition(teeth[i], k)
      ensures forall i :: 0 <= i < |teeth| ==>
                Abs(frame[i].x - teeth[i].baseX) <= 24.0 * Abs(k) + 0.5 &&
                Abs(frame[i].y - teeth[i].baseY) <= 12.0 * Abs(k) + 0.5
    {
      frame := [];
      var i := 0;
      while i < |teeth|
        invariant 0 <= i <= |teeth| && |frame| == i
        invariant forall j :: 0 <= j < i ==> frame[j] == RenderPosition(teeth[j], k)
      {
        var t := teeth[i];
        var pxX := Round(k * t.x * PixelScale);
        var pxY := Round(k * t.y * PixelScale / 2.0);
        frame := frame + [Point(t.baseX + pxX as real, t.baseY + pxY as real)];
        i := i + 1;
      }
    }

    /** One animation frame at clock reading now: the capped frame time,
        one physics step, and the drawing positions. */
    method Tick(now: real, fx: real, fy: real, damping: real, k: real) returns (frame: seq<Point>)
      requires Valid()
      modifies this
      ensures Valid() && last == now
      ensures teeth == StepAll(old(teeth), Frame(FrameTime(now, old(last)), fx, fy, damping))
      ensures |frame| == |teeth|
      ensures forall i :: 0 <= i < |teeth| ==> frame[i] == RenderPosition(teeth[i], k)
    {
      var elapsed := (now - last) / 1000.0;
      var dt := if MaxFrameTime < elapsed then MaxFrameTime else elapsed;
      last := now;
      StepPhysics(dt, fx, fy, damping);
      frame := Render(k);
    }
  }

  /** The per-tooth work of a physics step once the tooth's weight w is known:
      weighted force, Euler step to velocity, damping, Euler step to
      displacement, clamp. */
  method ApplyForce(t: Body, w: real, dt: real, fx: real, fy: real, damping: real)
    returns (moved: Body)
    requires t.mass != 0.0
    ensures moved == Advance(t, w, Frame(dt, fx, fy, damping))
  {
    var appliedFx := fx * w;
    var appliedFy := fy * w;
    var ax := appliedFx / t.mass;
    var ay := appliedFy / t.mass;
    var vx := Euler(t.vx, ax, dt);
    var vy := Euler(t.vy, ay, dt);
    var damp := DampFactor(damping, dt);
    vx := vx * damp;
    vy := vy * damp;
    var x := Clamp(Euler(t.x, vx, dt));
    var y := Clamp(Euler(t.y, vy, dt));
    moved := t.(x := x, y := y, vx := vx, vy := vy);
  }
}
