/** The worked example of a three-tooth jaw: its layout, and the first
    physics step under a horizontal force, computed exactly. */
module WorkedExample {
  import opened Physics
  import opened Layout

  /** Three teeth in a 900 x 400 area stand at x = 350, 450, 550 and y = 160. */
  lemma ThreeTeethLayout()
    ensures var row := RowLayout(3, 900.0, 400.0);
      |row| == 3 && row[0].baseX == 350.0 && row[1].baseX == 450.0 && row[2].baseX == 550.0 &&
      row[0].baseY == 160.0 && row[1].baseY == 160.0 && row[2].baseY == 160.0
  {
  }

  /** The frame of the worked example: a force of 10 along x for a 60th of a
      second, with damping 0.1. */
  function ExampleFrame(): Frame
  {
    Frame(1.0 / 60.0, 10.0, 0.0, 0.1)
  }

  /** A resting tooth of the row's standard mass, pushed with weight w in the
      example frame, moves at vx and is displaced by vx / 60 before the clamp. */
  lemma ExamplePush(b: Body, w: real, vx: real)
    requires AtRest(b) && vx == 10.0 * w / 0.01 * (1.0 / 60.0) * 0.99
    ensures Advance(b, w, ExampleFrame()) == b.(x := Clamp(vx * (1.0 / 60.0)), y := 0.0, vx := vx, vy := 0.0)
  {
    var f := ExampleFrame();
    assert DampFactor(f.damping, f.dt) == 0.99;
    var uy := NewVelocity(0.0, 0.0, w, 0.01, f);
    assert uy == Euler(0.0, 0.0 * w / 0.01, f.dt) * 0.99;
    assert Euler(0.0, 0.0 * w / 0.01, f.dt) == 0.0;
    var ux := NewVelocity(0.0, 10.0, w, 0.01, f);
    assert ux == Euler(0.0, 10.0 * w / 0.01, f.dt) * 0.99 == vx;
    assert Euler(0.0, vx, f.dt) == vx * (1.0 / 60.0);
    assert Euler(0.0, 0.0, f.dt) == 0.0;
  }

  /** The middle tooth of three gets the whole force. */
  lemma ExampleMiddleWeight(b: Body)
    requires AtRest(b)
    ensures StepBody(b, 1, 3, ExampleFrame()) == Advance(b, 1.0, ExampleFrame())
  {
    assert Weight(1, 3) == 1.0;
  }

  /** The first tooth of three gets 13/15 of the force. */
  lemma ExampleEndWeight(b: Body)
    requires AtRest(b)
    ensures StepBody(b, 0, 3, ExampleFrame()) == Advance(b, 13.0 / 15.0, ExampleFrame())
  {
    assert DistFactor(0, 3) == 2.0 / 3.0;
    assert Weight(0, 3) == 13.0 / 15.0;
  }

  /** With the whole force the velocity becomes 1000 / 60 * 0.99 = 16.5, which
      would carry the tooth 0.275; it is clamped to 0.02. */
  lemma ExampleFullPush(b: Body)
    requires AtRest(b)
    ensures Advance(b, 1.0, ExampleFrame()) == b.(x := Limit, y := 0.0, vx := 16.5, vy := 0.0)
  {
    assert 10.0 * 1.0 / 0.01 * (1.0 / 60.0) * 0.99 == 16.5;
    ExamplePush(b, 1.0, 16.5);
    assert Clamp(16.5 * (1.0 / 60.0)) == Limit;
  }

  /** With 13/15 of the force the velocity becomes 14.3 and the tooth is
      clamped to 0.02 as well. */
  lemma ExampleEndPush(b: Body)
    requires AtRest(b)
    ensures Advance(b, 13.0 / 15.0, ExampleFrame()) == b.(x := Limit, y := 0.0, vx := 14.3, vy := 0.0)
  {
    assert 10.0 * (13.0 / 15.0) / 0.01 * (1.0 / 60.0) * 0.99 == 14.3;
    ExamplePush(b, 13.0 / 15.0, 14.3);
    assert Clamp(14.3 * (1.0 / 60.0)) == Limit;
  }

  /** The middle tooth moves at 16.5 and is pinned at the limit. */
  lemma ExampleMiddleTooth(b: Body)
    requires AtRest(b)
    ensures StepBody(b, 1, 3, ExampleFrame()) == b.(x := Limit, vx := 16.5)
  {
    ExampleMiddleWeight(b);
    ExampleFullPush(b);
  }

  /** The first tooth moves at 14.3 and is pinned at the limit. */
  lemma ExampleFirstTooth(b: Body)
    requires AtRest(b)
    ensures StepBody(b, 0, 3, ExampleFrame()) == b.(x := Limit, vx := 14.3)
  {
    ExampleEndWeight(b);
    ExampleEndPush(b);
  }

  /** The last tooth, the mirror image of the first, moves as the first does. */
  lemma ExampleLastTooth(b: Body)
    requires AtRest(b)
    ensures StepBody(b, 2, 3, ExampleFrame()) == b.(x := Limit, vx := 14.3)
  {
    LastMovesAsFirst(b, ExampleFrame());
    ExampleFirstTooth(b);
  }

  lemma LastMovesAsFirst(b: Body, f: Frame)
    requires AtRest(b)
    ensures StepBody(b, 2, 3, f) == StepBody(b, 0, 3, f)
  {
    MirrorTeethMoveAlike(b, 0, 3, f);
  }

  lemma StepOfThree(row: seq<Body>, f: Frame)
    requires |row| == 3 && AtRest(row[0]) && AtRest(row[1]) && AtRest(row[2])
    ensures StepAll(row, f) == [StepBody(row[0], 0, 3, f), StepBody(row[1], 1, 3, f), StepBody(row[2], 2, 3, f)]
  {
  }

  /** One step of the example frame on three resting teeth pins all three at
      the right-hand limit; the middle one moves at 16.5, the others at 14.3. */
  lemma ExampleStep(row: seq<Body>)
    requires |row| == 3 && AtRest(row[0]) && AtRest(row[1]) && AtRest(row[2])
    ensures StepAll(row, ExampleFrame()) ==
      [row[0].(x := Limit, vx := 14.3), row[1].(x := Limit, vx := 16.5), row[2].(x := Limit, vx := 14.3)]
  {
    ExampleFirstTooth(row[0]);
    ExampleMiddleTooth(row[1]);
    ExampleLastTooth(row[2]);
    StepOfThree(row, ExampleFrame());
  }

  /** The worked example: three teeth in a 900 x 400 area stand at
      x = 350, 450, 550 and y = 160; after one step of a force of 10 along x
      for a 60th of a second with damping 0.1, every tooth is pinned at the
      right-hand limit, and the middle one moves at 16.5 (it would have
      travelled 0.275). */
  lemma ThreeTeethScenario()
    ensures var row := RowLayout(3, 900.0, 400.0);
      |row| == 3 && row[0].baseX == 350.0 && row[1].baseX == 450.0 && row[2].baseX == 550.0 &&
      row[0].baseY == 160.0 && row[1].baseY == 160.0 && row[2].baseY == 160.0 &&
      StepAll(row, ExampleFrame()) ==
        [row[0].(x := Limit, vx := 14.3), row[1].(x := Limit, vx := 16.5), row[2].(x := Limit, vx := 14.3)]
  {
    ThreeTeethLayout();
    ExampleStep(RowLayout(3, 900.0, 400.0));
  }
}
