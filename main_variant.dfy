// The earlier single-file version of the game in src/main.rs. Its `handle_input`,
// `handle_velocity` and `handle_scored` are copies of the plugin systems and are proved against
// the same specifications. Its `check_for_collisions` flips vy at a wall without looking at the
// direction of travel, and `main` registers the three fixed-tick systems without ordering them.
module MainVariant {
  import opened Math
  import opened Constants
  import opened Components
  import opened Utils
  import opened Game
  import FixedUpdate
  import Update

  // ---------------------------------------------------------------- the copied systems

  /** The copy of `handle_input`: the same serve edge, key pairs and clamp as the plugin's. */
  method HandleInput(w: World, keys: Keys, dt: real)
    modifies w
    ensures w.State() == FixedUpdate.Input(old(w.State()), keys, dt)
  {
    if w.paused {
      if keys.spaceJustPressed {
        w.paused := false;
      }
      return;
    }

    ghost var before := w.paddles;
    var i := 0;
    while i < |w.paddles|
      invariant 0 <= i <= |w.paddles| == |before|
      invariant forall k :: 0 <= k < i ==> w.paddles[k] == FixedUpdate.MovePaddle(before[k], keys, dt)
      invariant w.paddles[i..] == before[i..]
      invariant w.State() == old(w.State()).(paddles := w.paddles)
    {
      var paddle := w.paddles[i];
      var direction := 0.0;
      match paddle.side {
        case Left =>
          if keys.keyW {
            direction := direction + 1.0;
          }
          if keys.keyS {
            direction := direction - 1.0;
          }
        case Right =>
          if keys.arrowUp {
            direction := direction + 1.0;
          }
          if keys.arrowDown {
            direction := direction - 1.0;
          }
      }

      if direction != 0.0 {
        var y := paddle.pos.y + direction * PaddleSpeed * dt;
        y := Clamp(y, BottomWall + PaddleSize.y / 2.0, TopWall - PaddleSize.y / 2.0);
        w.paddles := w.paddles[i := Paddle(paddle.side, Vec2(paddle.pos.x, y))];
      }
      assert before[i] == paddle;
      i := i + 1;
    }
  }

  /** The copy of `handle_velocity`. */
  method HandleVelocity(w: World, dt: real)
    modifies w
    ensures w.State() == FixedUpdate.Integrate(old(w.State()), dt)
  {
    if !w.paused {
      w.ballPos := Vec2(w.ballPos.x + w.ballVel.x * dt, w.ballPos.y + w.ballVel.y * dt);
    }
  }

  /** The copy of `handle_scored`. */
  method HandleScored(w: World)
    modifies w
    ensures w.State() == Update.Scored(old(w.State()))
  {
    if w.events != [] {
      w.paused := true;

      w.ballPos := Origin;
      ServeVelocityIsNormalizedDirection();
      w.ballVel := NormalizeHorizontal(InitialBallDirection).Times(BallSpeed);

      ghost var before := w.paddles;
      var i := 0;
      while i < |w.paddles|
        invariant 0 <= i <= |w.paddles| == |before|
        invariant forall k :: 0 <= k < i ==> w.paddles[k] == before[k].(pos := Vec2(before[k].pos.x, 0.0))
        invariant w.paddles[i..] == before[i..]
        invariant w.State() == old(w.State()).(paused := true, ballPos := Origin,
                                               ballVel := InitialBallVelocity, paddles := w.paddles)
      {
        var transform := w.paddles[i].pos;
        w.paddles := w.paddles[i := w.paddles[i].(pos := transform.(y := 0.0))];
        i := i + 1;
      }
      assert w.paddles == Update.Recentred(before);

      var event := w.events[0];
      match event {
        case Left =>
          w.score := w.score.(left := w.score.left + 1);
        case Right =>
          w.score := w.score.(right := w.score.right + 1);
      }
      w.events := [];
    }
  }

  // ---------------------------------------------------------------- check_for_collisions

  /**
   * The unguarded wall flip: vy is negated whenever the ball is past the top or the bottom wall,
   * whichever way it is travelling.
   */
  function UnguardedWallBounce(pos: Vec2, vel: Vec2): (r: Vec2)
    ensures r.x == vel.x
    ensures pos.y > TopWall || pos.y < BottomWall ==> r.y == -vel.y
    ensures BottomWall <= pos.y <= TopWall ==> r == vel
  {
    var v := if pos.y > TopWall then vel.(y := -vel.y) else vel;
    if pos.y < BottomWall then v.(y := -v.y) else v
  }

  /** This version's `check_for_collisions` as a state transition. */
  function VariantCollide(s: GameState, launch: Vec2 -> Vec2): (r: GameState)
    requires KeepsHorizontalSign(launch)
    ensures r.paused == s.paused && r.score == s.score && r.ballPos == s.ballPos && r.paddles == s.paddles
    ensures s.ballPos.x < LeftEdge ==> r.events == s.events + [Right] && r.ballVel == s.ballVel
    ensures s.ballPos.x > RightEdge ==> r.events == s.events + [Left] && r.ballVel == s.ballVel
    ensures LeftEdge <= s.ballPos.x <= RightEdge ==>
              r.events == s.events
              && r.ballVel == FixedUpdate.PaddlePass(s.ballPos, UnguardedWallBounce(s.ballPos, s.ballVel), s.paddles, launch)
  {
    if s.ballPos.x < LeftEdge then s.(events := s.events + [Right])
    else if s.ballPos.x > RightEdge then s.(events := s.events + [Left])
    else s.(ballVel := FixedUpdate.PaddlePass(s.ballPos, UnguardedWallBounce(s.ballPos, s.ballVel), s.paddles, launch))
  }

  method CheckForCollisions(w: World, launch: Vec2 -> Vec2)
    requires KeepsHorizontalSign(launch)
    modifies w
    ensures w.State() == VariantCollide(old(w.State()), launch)
  {
    if w.ballPos.x < LeftEdge {
      w.events := w.events + [Right];
      return;
    } else if w.ballPos.x > RightEdge {
      w.events := w.events + [Left];
      return;
    }

    if w.ballPos.y > TopWall {
      w.ballVel := w.ballVel.(y := -w.ballVel.y);
    }
    if w.ballPos.y < BottomWall {
      w.ballVel := w.ballVel.(y := -w.ballVel.y);
    }

    ghost var bounced := w.State();
    assert bounced.ballVel == UnguardedWallBounce(old(w.ballPos), old(w.ballVel));
    var i := 0;
    while i < |w.paddles|
      invariant 0 <= i <= |w.paddles|
      invariant w.State() == bounced.(ballVel := w.ballVel)
      invariant FixedUpdate.PaddlePass(w.ballPos, w.ballVel, w.paddles[i..], launch)
             == FixedUpdate.PaddlePass(w.ballPos, bounced.ballVel, w.paddles, launch)
    {
      var collider := w.paddles[i];
      ghost var hit := FixedUpdate.HitPaddle(w.ballPos, w.ballVel, collider, launch);
      if FixedUpdate.Intersects(w.ballPos, collider.pos) {
        var isLeftPaddle := collider.pos.x < 0.0;
        var shouldReflect := (isLeftPaddle && w.ballVel.x < 0.0) || (!isLeftPaddle && w.ballVel.x > 0.0);
        if shouldReflect {
          var offset := Clamp((w.ballPos.y - collider.pos.y) / (PaddleSize.y / 2.0), -1.0, 1.0);
          var newVelocity := Vec2(-w.ballVel.x, w.ballVel.y);
          var spinFactor := 0.50;
          newVelocity := newVelocity.(y := newVelocity.y + offset * BallSpeed * spinFactor);
          assert newVelocity == FixedUpdate.Deflected(w.ballPos, w.ballVel, collider.pos);
          newVelocity := launch(newVelocity);
          w.ballVel := newVelocity;
        }
      }
      assert w.ballVel == hit;
      assert w.paddles[i..][1..] == w.paddles[i + 1..];
      i := i + 1;
    }
  }

  /** Flipping twice at the same position restores the velocity: the flip is its own inverse. */
  lemma UnguardedFlipIsInvolution(pos: Vec2, vel: Vec2)
    ensures UnguardedWallBounce(pos, UnguardedWallBounce(pos, vel)) == vel
  {
  }

  /**
   * The two collision systems agree except on a ball past a wall that is already heading back
   * into the court: there the plugin leaves vy alone and this version turns the ball outwards.
   */
  lemma VariantCollideAgreement(s: GameState, launch: Vec2 -> Vec2)
    requires KeepsHorizontalSign(launch)
    ensures (s.ballPos.y > TopWall && s.ballVel.y < 0.0) || (s.ballPos.y < BottomWall && s.ballVel.y > 0.0)
            || VariantCollide(s, launch) == FixedUpdate.Collide(s, launch)
  {
    var pos, vel := s.ballPos, s.ballVel;
    if !((pos.y > TopWall && vel.y < 0.0) || (pos.y < BottomWall && vel.y > 0.0)) {
      assert UnguardedWallBounce(pos, vel) == FixedUpdate.WallBounce(pos, vel);
    }
  }

  /**
   * The unguarded flip as written: a ball one unit above the top wall and already travelling
   * back down at 10 units/s is sent upwards again, further out, while the guarded bounce of
   * the plugin leaves it heading inwards.
   */
  lemma UnguardedFlipTurnsBallOutwards()
    ensures var pos, vel := Vec2(0.0, TopWall + 1.0), Vec2(700.0, -10.0);
            UnguardedWallBounce(pos, vel).y > 0.0 && FixedUpdate.WallBounce(pos, vel) == vel
  {
  }

  // ---------------------------------------------------------------- the unordered schedule

  /** The three systems `main` adds to `FixedUpdate`. */
  datatype System = HandleInputSystem | HandleVelocitySystem | CheckForCollisionsSystem

  /**
   * An order the scheduler may pick for them: `main` adds them as a plain tuple, without `.chain()`,
   * so every order of the three is possible.
   */
  predicate IsSchedule(order: seq<System>) {
    |order| == 3
    && HandleInputSystem in order && HandleVelocitySystem in order && CheckForCollisionsSystem in order
  }

  /** How many times `order` runs the collision check, the only system that queues events. */
  function Collisions(order: seq<System>): (n: nat)
    ensures n <= |order|
    ensures n == 0 <==> CheckForCollisionsSystem !in order
  {
    if order == [] then 0
    else (if order[0] == CheckForCollisionsSystem then 1 else 0) + Collisions(order[1..])
  }

  /** Every order the scheduler may pick runs the collision check exactly once. */
  lemma ScheduleCollidesOnce(order: seq<System>)
    requires IsSchedule(order)
    ensures Collisions(order) == 1
  {
    assert order == [order[0], order[1], order[2]];
    assert order[1..] == [order[1], order[2]] && order[2..] == [order[2]] && order[3..] == [];
  }

  function RunSystem(sys: System, s: GameState, keys: Keys, dt: real, launch: Vec2 -> Vec2): GameState
    requires KeepsHorizontalSign(launch)
  {
    match sys
    case HandleInputSystem => FixedUpdate.Input(s, keys, dt)
    case HandleVelocitySystem => FixedUpdate.Integrate(s, dt)
    case CheckForCollisionsSystem => VariantCollide(s, launch)
  }

  /**
   * The systems run one after another in `order`. Whatever the order, the pause flag is never
   * set, the score is not touched, every paddle keeps its side and x, and each collision check
   * queues at most one event behind the waiting ones.
   */
  function RunSchedule(order: seq<System>, s: GameState, keys: Keys, dt: real, launch: Vec2 -> Vec2): (r: GameState)
    requires KeepsHorizontalSign(launch)
    ensures r.paused ==> s.paused
    ensures r.score == s.score
    ensures |r.paddles| == |s.paddles|
    ensures forall i :: 0 <= i < |s.paddles| ==>
              r.paddles[i].side == s.paddles[i].side && r.paddles[i].pos.x == s.paddles[i].pos.x
    ensures |s.events| <= |r.events| <= |s.events| + Collisions(order) && r.events[..|s.events|] == s.events
    decreases |order|
  {
    if order == [] then s
    else RunSchedule(order[1..], RunSystem(order[0], s, keys, dt, launch), keys, dt, launch)
  }

  /** This version's `FixedUpdate` schedule, run in the order the scheduler picked. */
  method RunFixedUpdate(w: World, order: seq<System>, keys: Keys, dt: real, launch: Vec2 -> Vec2)
    requires IsSchedule(order)
    requires KeepsHorizontalSign(launch)
    modifies w
    ensures w.State() == RunSchedule(order, old(w.State()), keys, dt, launch)
    ensures |old(w.events)| <= |w.events| <= |old(w.events)| + 1
  {
    ScheduleCollidesOnce(order);
    var i := 0;
    while i < |order|
      invariant 0 <= i <= |order|
      invariant RunSchedule(order[i..], w.State(), keys, dt, launch)
             == RunSchedule(order, old(w.State()), keys, dt, launch)
    {
      match order[i] {
        case HandleInputSystem => HandleInput(w, keys, dt);
        case HandleVelocitySystem => HandleVelocity(w, dt);
        case CheckForCollisionsSystem => CheckForCollisions(w, launch);
      }
      assert order[i..][1..] == order[i + 1..];
      i := i + 1;
    }
  }

  /**
   * The order is observable: on the tick that serves, input before integration moves the ball
   * at once, integration before input leaves it where it was until the next tick.
   */
  lemma ScheduleOrderMatters(s: GameState, keys: Keys, dt: real, launch: Vec2 -> Vec2)
    requires KeepsHorizontalSign(launch)
    requires s.paused && keys.spaceJustPressed
    ensures RunSchedule([HandleInputSystem, HandleVelocitySystem, CheckForCollisionsSystem], s, keys, dt, launch).ballPos
            == s.ballPos.Plus(s.ballVel.Times(dt))
    ensures RunSchedule([HandleVelocitySystem, HandleInputSystem, CheckForCollisionsSystem], s, keys, dt, launch).ballPos
            == s.ballPos
    ensures s.ballVel.x != 0.0 && dt != 0.0 ==>
              RunSchedule([HandleInputSystem, HandleVelocitySystem, CheckForCollisionsSystem], s, keys, dt, launch)
              != RunSchedule([HandleVelocitySystem, HandleInputSystem, CheckForCollisionsSystem], s, keys, dt, launch)
  {
    var i, v, c := HandleInputSystem, HandleVelocitySystem, CheckForCollisionsSystem;

    var served := FixedUpdate.Input(s, keys, dt);
    var moved := FixedUpdate.Integrate(served, dt);
    assert [i, v, c][1..] == [v, c] && [v, c][1..] == [c] && [c][1..] == [];
    assert RunSchedule([c], moved, keys, dt, launch) == VariantCollide(moved, launch);
    assert RunSchedule([i, v, c], s, keys, dt, launch) == RunSchedule([c], moved, keys, dt, launch);

    var still := FixedUpdate.Integrate(s, dt);
    var late := FixedUpdate.Input(still, keys, dt);
    assert [v, i, c][1..] == [i, c] && [i, c][1..] == [c];
    assert RunSchedule([c], late, keys, dt, launch) == VariantCollide(late, launch);
    assert RunSchedule([v, i, c], s, keys, dt, launch) == RunSchedule([c], late, keys, dt, launch);
    if s.ballVel.x != 0.0 && dt != 0.0 {
      assert s.ballVel.x * dt != 0.0;
    }
  }
}
