// The fixed-tick systems of src/game/systems/fixed_update.rs: `handle_velocity`, `handle_input`
// and `check_for_collisions`, chained in that order by `FixedUpdatePlugin`. Each system is a
// method that changes the world in place, proved against a function on `GameState` whose own
// contract states what the system promises.
module FixedUpdate {
  import opened Math
  import opened Constants
  import opened Components
  import opened Bounding
  import opened Utils
  import opened Game

  // ---------------------------------------------------------------- handle_velocity

  /** One integration step: the ball moves by its velocity times `dt`, unless the game is paused. */
  function Integrate(s: GameState, dt: real): (r: GameState)
    ensures r.(ballPos := s.ballPos) == s
    ensures s.paused ==> r == s
    ensures !s.paused ==>
              r.ballPos.x - s.ballPos.x == s.ballVel.x * dt && r.ballPos.y - s.ballPos.y == s.ballVel.y * dt
  {
    if s.paused then s else s.(ballPos := s.ballPos.Plus(s.ballVel.Times(dt)))
  }

  method HandleVelocity(w: World, dt: real)
    modifies w
    ensures w.State() == Integrate(old(w.State()), dt)
  {
    if !w.paused {
      w.ballPos := Vec2(w.ballPos.x + w.ballVel.x * dt, w.ballPos.y + w.ballVel.y * dt);
    }
  }

  /** Integration does not depend on how time is cut into ticks: two steps equal one of their sum. */
  lemma IntegrateSplits(s: GameState, dt1: real, dt2: real)
    ensures Integrate(Integrate(s, dt1), dt2) == Integrate(s, dt1 + dt2)
  {
    if !s.paused {
      var v := s.ballVel;
      assert v.x * dt1 + v.x * dt2 == v.x * (dt1 + dt2);
      assert v.y * dt1 + v.y * dt2 == v.y * (dt1 + dt2);
    }
  }

  // ---------------------------------------------------------------- handle_input

  /** The vertical direction a paddle's two keys ask for: +1 up, -1 down, 0 for both or neither. */
  function Direction(side: Player, keys: Keys): (d: real)
    ensures d == 1.0 || d == 0.0 || d == -1.0
    ensures d == 0.0 <==> UpHeld(side, keys) == DownHeld(side, keys)
    ensures d == 1.0 <==> UpHeld(side, keys) && !DownHeld(side, keys)
  {
    (if UpHeld(side, keys) then 1.0 else 0.0) - (if DownHeld(side, keys) then 1.0 else 0.0)
  }

  /** W moves the left paddle up, the up arrow the right one. */
  predicate UpHeld(side: Player, keys: Keys) {
    match side
    case Left => keys.keyW
    case Right => keys.arrowUp
  }

  /** S moves the left paddle down, the down arrow the right one. */
  predicate DownHeld(side: Player, keys: Keys) {
    match side
    case Left => keys.keyS
    case Right => keys.arrowDown
  }

  /**
   * One paddle's move in an unpaused tick: a paddle with a direction moves by
   * `direction * PaddleSpeed * dt` and is clamped into `[PaddleMinY, PaddleMaxY]`; one without
   * is left exactly as it was. Only y ever changes.
   */
  function MovePaddle(p: Paddle, keys: Keys, dt: real): (r: Paddle)
    ensures r.side == p.side && r.pos.x == p.pos.x
    ensures Direction(p.side, keys) == 0.0 ==> r == p
    ensures Direction(p.side, keys) != 0.0 ==> InPaddleRange(r.pos.y)
    ensures InPaddleRange(p.pos.y) ==> InPaddleRange(r.pos.y)
    ensures var target := p.pos.y + Direction(p.side, keys) * PaddleSpeed * dt;
            Direction(p.side, keys) != 0.0 ==> r.pos.y == Clamp(target, PaddleMinY, PaddleMaxY)
    ensures var target := p.pos.y + Direction(p.side, keys) * PaddleSpeed * dt;
            InPaddleRange(target) ==> r.pos.y == target
    ensures var target := p.pos.y + Direction(p.side, keys) * PaddleSpeed * dt;
            Direction(p.side, keys) != 0.0 && target > PaddleMaxY ==> r.pos.y == PaddleMaxY
    ensures var target := p.pos.y + Direction(p.side, keys) * PaddleSpeed * dt;
            Direction(p.side, keys) != 0.0 && target < PaddleMinY ==> r.pos.y == PaddleMinY
    ensures dt >= 0.0 && UpHeld(p.side, keys) && !DownHeld(p.side, keys) && InPaddleRange(p.pos.y)
            ==> r.pos.y >= p.pos.y
    ensures dt >= 0.0 && DownHeld(p.side, keys) && !UpHeld(p.side, keys) && InPaddleRange(p.pos.y)
            ==> r.pos.y <= p.pos.y
  {
    var d := Direction(p.side, keys);
    if d == 0.0 then p
    else p.(pos := Vec2(p.pos.x, Clamp(p.pos.y + d * PaddleSpeed * dt, PaddleMinY, PaddleMaxY)))
  }

  /** Every paddle of the query moved as `MovePaddle` says, in the same order. */
  function MovePaddles(ps: seq<Paddle>, keys: Keys, dt: real): (r: seq<Paddle>)
    ensures |r| == |ps|
    ensures forall i :: 0 <= i < |ps| ==> r[i] == MovePaddle(ps[i], keys, dt)
  {
    if ps == [] then [] else [MovePaddle(ps[0], keys, dt)] + MovePaddles(ps[1..], keys, dt)
  }

  /**
   * `handle_input` as a state transition. While paused only the Space edge is heard: it clears the
   * flag, and no paddle moves. Otherwise the flag stays clear and every paddle moves. The ball, the
   * score and the event queue are never touched.
   */
  function Input(s: GameState, keys: Keys, dt: real): (r: GameState)
    ensures r.score == s.score && r.ballPos == s.ballPos && r.ballVel == s.ballVel && r.events == s.events
    ensures s.paused ==> r.paddles == s.paddles && (r.paused <==> !keys.spaceJustPressed)
    ensures !s.paused ==> !r.paused && r.paddles == MovePaddles(s.paddles, keys, dt)
    ensures |r.paddles| == |s.paddles|
    ensures forall i :: 0 <= i < |s.paddles| ==>
              r.paddles[i].side == s.paddles[i].side && r.paddles[i].pos.x == s.paddles[i].pos.x
    ensures forall i :: 0 <= i < |s.paddles| && InPaddleRange(s.paddles[i].pos.y) ==>
              InPaddleRange(r.paddles[i].pos.y)
  {
    if s.paused then s.(paused := !keys.spaceJustPressed)
    else s.(paddles := MovePaddles(s.paddles, keys, dt))
  }

  method HandleInput(w: World, keys: Keys, dt: real)
    modifies w
    ensures w.State() == Input(old(w.State()), keys, dt)
  {
    if w.paused {
      if keys.spaceJustPressed {
        w.paused := false;
      }
      return;
    }

    ghost var before := w.paddles;
    var i := 0;
    while i < |w.paddles|
      invariant 0 <= i <= |w.paddles| == |before|
      invariant forall k :: 0 <= k < i ==> w.paddles[k] == MovePaddle(before[k], keys, dt)
      invariant w.paddles[i..] == before[i..]
      invariant w.State() == old(w.State()).(paddles := w.paddles)
    {
      var paddle := w.paddles[i];
      var direction := 0.0;
      match paddle.side {
        case Left =>
          if keys.keyW {
            direction := direction + 1.0;
          }
          if keys.keyS {
            direction := direction - 1.0;
          }
        case Right =>
          if keys.arrowUp {
            direction := direction + 1.0;
          }
          if keys.arrowDown {
            direction := direction - 1.0;
          }
      }

      if direction != 0.0 {
        var y := paddle.pos.y + direction * PaddleSpeed * dt;
        y := Clamp(y, BottomWall + PaddleSize.y / 2.0, TopWall - PaddleSize.y / 2.0);
        w.paddles := w.paddles[i := Paddle(paddle.side, Vec2(paddle.pos.x, y))];
      }
      assert before[i] == paddle;
      i := i + 1;
    }
  }

  // ---------------------------------------------------------------- check_for_collisions

  /** The Bevy intersection test between the ball's circle and a paddle's collider box. */
  predicate Intersects(ballPos: Vec2, paddlePos: Vec2) {
    CircleIntersectsAabb(ballPos, BallRadius, paddlePos, PaddleHalfSize)
  }

  /** The paddle is on the left when its x is negative; the ball must be travelling towards it. */
  predicate MovingToward(paddleX: real, vx: real) {
    (paddleX < 0.0 && vx < 0.0) || (!(paddleX < 0.0) && vx > 0.0)
  }

  /**
   * The wall bounces: vy is negated exactly when the ball is past the top wall moving up, or
   * past the bottom wall moving down. Afterwards it never travels further out past a wall.
   */
  function WallBounce(pos: Vec2, vel: Vec2): (r: Vec2)
    ensures r.x == vel.x && (r.y == vel.y || r.y == -vel.y)
    ensures r.y != vel.y <==> (pos.y > TopWall && vel.y > 0.0) || (pos.y < BottomWall && vel.y < 0.0)
    ensures !(pos.y > TopWall && r.y > 0.0) && !(pos.y < BottomWall && r.y < 0.0)
  {
    var v := if pos.y > TopWall && vel.y > 0.0 then vel.(y := -vel.y) else vel;
    if pos.y < BottomWall && v.y < 0.0 then v.(y := -v.y) else v
  }

  /** Where on the paddle face the ball struck: -1 at the bottom edge, +1 at the top, 0 at centre. */
  function HitOffset(ballY: real, paddleY: real): (o: real)
    ensures -1.0 <= o <= 1.0
    ensures o > 0.0 <==> ballY > paddleY
    ensures o < 0.0 <==> ballY < paddleY
    ensures -PaddleHalfSize.y <= ballY - paddleY <= PaddleHalfSize.y ==> o * PaddleHalfSize.y == ballY - paddleY
    ensures ballY - paddleY >= PaddleHalfSize.y ==> o == 1.0
    ensures ballY - paddleY <= -PaddleHalfSize.y ==> o == -1.0
  {
    Clamp((ballY - paddleY) / (PaddleSize.y / 2.0), -1.0, 1.0)
  }

  /**
   * The reflected velocity before normalising and angle clamping: x mirrored, and spin added to
   * y in proportion to how far from the centre the ball struck, the full `BallSpeed * SpinFactor`
   * at or beyond the paddle's edge, upwards when the ball struck above the centre.
   */
  function Deflected(ballPos: Vec2, vel: Vec2, paddlePos: Vec2): (r: Vec2)
    ensures r.x == -vel.x
    ensures -BallSpeed * SpinFactor <= r.y - vel.y <= BallSpeed * SpinFactor
    ensures r.y > vel.y <==> ballPos.y > paddlePos.y
    ensures r.y == vel.y <==> ballPos.y == paddlePos.y
    ensures -PaddleHalfSize.y <= ballPos.y - paddlePos.y <= PaddleHalfSize.y
            ==> (r.y - vel.y) * PaddleHalfSize.y == (ballPos.y - paddlePos.y) * BallSpeed * SpinFactor
    ensures ballPos.y - paddlePos.y >= PaddleHalfSize.y ==> r.y - vel.y == BallSpeed * SpinFactor
    ensures ballPos.y - paddlePos.y <= -PaddleHalfSize.y ==> r.y - vel.y == -BallSpeed * SpinFactor
  {
    var offset := HitOffset(ballPos.y, paddlePos.y);
    Vec2(-vel.x, vel.y + offset * BallSpeed * SpinFactor)
  }

  /**
   * One pass of the collider loop over one paddle. The velocity changes only when the ball
   * intersects the paddle and travels towards it; it is then replaced by the launched
   * reflection, which travels away from that paddle.
   */
  function HitPaddle(ballPos: Vec2, vel: Vec2, p: Paddle, launch: Vec2 -> Vec2): (r: Vec2)
    requires KeepsHorizontalSign(launch)
    ensures r != vel ==> Intersects(ballPos, p.pos) && MovingToward(p.pos.x, vel.x)
    ensures Intersects(ballPos, p.pos) && MovingToward(p.pos.x, vel.x) ==>
              r == launch(Deflected(ballPos, vel, p.pos)) && !MovingToward(p.pos.x, r.x) && r.x != 0.0
    ensures Intersects(ballPos, p.pos) ==> !MovingToward(p.pos.x, r.x)
  {
    if Intersects(ballPos, p.pos) && MovingToward(p.pos.x, vel.x) then
      var r := launch(Deflected(ballPos, vel, p.pos));
      assert vel.x != 0.0;
      r
    else vel
  }

  /**
   * The collider loop: `HitPaddle` applied to each paddle in query order, each seeing the velocity
   * the previous one left. With no intersected paddle nothing changes, and the ball is at rest
   * horizontally afterwards exactly when it was before.
   */
  function PaddlePass(ballPos: Vec2, vel: Vec2, ps: seq<Paddle>, launch: Vec2 -> Vec2): (r: Vec2)
    requires KeepsHorizontalSign(launch)
    ensures (forall i :: 0 <= i < |ps| ==> !Intersects(ballPos, ps[i].pos)) ==> r == vel
    ensures r.x == 0.0 <==> vel.x == 0.0
    decreases |ps|
  {
    if ps == [] then vel
    else PaddlePass(ballPos, HitPaddle(ballPos, vel, ps[0], launch), ps[1..], launch)
  }

  /**
   * `check_for_collisions` as a state transition. A ball past the left edge queues one point for
   * the right player, past the right edge one for the left, and nothing else happens. Otherwise no
   * event is queued and the velocity is the wall bounce followed by the paddle pass. Only the
   * velocity and the queue can change.
   */
  function Collide(s: GameState, launch: Vec2 -> Vec2): (r: GameState)
    requires KeepsHorizontalSign(launch)
    ensures r.paused == s.paused && r.score == s.score && r.ballPos == s.ballPos && r.paddles == s.paddles
    ensures s.ballPos.x < LeftEdge ==> r.events == s.events + [Right] && r.ballVel == s.ballVel
    ensures s.ballPos.x > RightEdge ==> r.events == s.events + [Left] && r.ballVel == s.ballVel
    ensures LeftEdge <= s.ballPos.x <= RightEdge ==>
              r.events == s.events
              && r.ballVel == PaddlePass(s.ballPos, WallBounce(s.ballPos, s.ballVel), s.paddles, launch)
  {
    if s.ballPos.x < LeftEdge then s.(events := s.events + [Right])
    else if s.ballPos.x > RightEdge then s.(events := s.events + [Left])
    else s.(ballVel := PaddlePass(s.ballPos, WallBounce(s.ballPos, s.ballVel), s.paddles, launch))
  }

  method CheckForCollisions(w: World, launch: Vec2 -> Vec2)
    requires KeepsHorizontalSign(launch)
    modifies w
    ensures w.State() == Collide(old(w.State()), launch)
  {
    if w.ballPos.x < LeftEdge {
      w.events := w.events + [Right];
      return;
    } else if w.ballPos.x > RightEdge {
      w.events := w.events + [Left];
      return;
    }

    if w.ballPos.y > TopWall && w.ballVel.y > 0.0 {
      w.ballVel := w.ballVel.(y := -w.ballVel.y);
    }
    if w.ballPos.y < BottomWall && w.ballVel.y < 0.0 {
      w.ballVel := w.ballVel.(y := -w.ballVel.y);
    }

    ghost var bounced := w.State();
    assert bounced.ballVel == WallBounce(old(w.ballPos), old(w.ballVel));
    var i := 0;
    while i < |w.paddles|
      invariant 0 <= i <= |w.paddles|
      invariant w.State() == bounced.(ballVel := w.ballVel)
      invariant PaddlePass(w.ballPos, w.ballVel, w.paddles[i..], launch)
             == PaddlePass(w.ballPos, bounced.ballVel, w.paddles, launch)
    {
      var collider := w.paddles[i];
      ghost var hit := HitPaddle(w.ballPos, w.ballVel, collider, launch);
      if Intersects(w.ballPos, collider.pos) {
        var isLeftPaddle := collider.pos.x < 0.0;
        var shouldReflect := (isLeftPaddle && w.ballVel.x < 0.0) || (!isLeftPaddle && w.ballVel.x > 0.0);
        if shouldReflect {
          var offset := Clamp((w.ballPos.y - collider.pos.y) / (PaddleSize.y / 2.0), -1.0, 1.0);
          var newVelocity := Vec2(-w.ballVel.x, w.ballVel.y);
          newVelocity := newVelocity.(y := newVelocity.y + offset * BallSpeed * SpinFactor);
          assert newVelocity == Deflected(w.ballPos, w.ballVel, collider.pos);
          newVelocity := launch(newVelocity);
          w.ballVel := newVelocity;
        }
      }
      assert w.ballVel == hit;
      assert w.paddles[i..][1..] == w.paddles[i + 1..];
      i := i + 1;
    }
  }

  /**
   * A ball touching the left paddle's face at its centre height, travelling straight at it, is
   * mirrored without spin: `launch` receives (700, 0) and the ball leaves to the right.
   */
  lemma CentreHit(launch: Vec2 -> Vec2)
    requires KeepsHorizontalSign(launch)
    ensures var p := Paddle(Left, Vec2(LeftPaddleX, 0.0));
            var r := HitPaddle(Vec2(LeftPaddleX + PaddleHalfSize.x + BallRadius, 0.0), Vec2(-BallSpeed, 0.0), p, launch);
            r == launch(Vec2(BallSpeed, 0.0)) && r.x > 0.0
  {
    var pos := Vec2(LeftPaddleX + PaddleHalfSize.x + BallRadius, 0.0);
    var q := ClosestPoint(Vec2(LeftPaddleX, 0.0), PaddleHalfSize, pos);
    assert q == Vec2(LeftPaddleX + PaddleHalfSize.x, 0.0);
    assert Intersects(pos, Vec2(LeftPaddleX, 0.0));
  }

  /**
   * The same hit 50 units above the paddle's centre (offset 5/6) adds 5/6 of the full spin,
   * 875/3 units/s upwards, before `launch`.
   */
  lemma OffCentreHit(launch: Vec2 -> Vec2)
    requires KeepsHorizontalSign(launch)
    ensures var p := Paddle(Left, Vec2(LeftPaddleX, 0.0));
            var r := HitPaddle(Vec2(LeftPaddleX + PaddleHalfSize.x + BallRadius, 50.0), Vec2(-BallSpeed, 0.0), p, launch);
            HitOffset(50.0, 0.0) == 5.0 / 6.0 && r == launch(Vec2(BallSpeed, 875.0 / 3.0)) && r.x > 0.0
  {
    var pos := Vec2(LeftPaddleX + PaddleHalfSize.x + BallRadius, 50.0);
    var q := ClosestPoint(Vec2(LeftPaddleX, 0.0), PaddleHalfSize, pos);
    assert q == Vec2(LeftPaddleX + PaddleHalfSize.x, 50.0);
    assert Intersects(pos, Vec2(LeftPaddleX, 0.0));
  }

  // ---------------------------------------------------------------- the chained schedule

  /**
   * One fixed tick: integrate, then input, then collisions. A tick never sets the pause flag,
   * never touches the score, keeps every paddle's side and x, and queues at most one event
   * behind the ones already waiting.
   */
  function Tick(s: GameState, keys: Keys, dt: real, launch: Vec2 -> Vec2): (r: GameState)
    requires KeepsHorizontalSign(launch)
    ensures r.paused ==> s.paused
    ensures r.score == s.score
    ensures |r.paddles| == |s.paddles|
    ensures forall i :: 0 <= i < |s.paddles| ==>
              r.paddles[i].side == s.paddles[i].side && r.paddles[i].pos.x == s.paddles[i].pos.x
    ensures |s.events| <= |r.events| <= |s.events| + 1 && r.events[..|s.events|] == s.events
  {
    Collide(Input(Integrate(s, dt), keys, dt), launch)
  }

  /** The `FixedUpdate` schedule of `FixedUpdatePlugin`: the three systems chained in order. */
  method RunFixedUpdate(w: World, keys: Keys, dt: real, launch: Vec2 -> Vec2)
    requires KeepsHorizontalSign(launch)
    modifies w
    ensures w.State() == Tick(old(w.State()), keys, dt, launch)
  {
    HandleVelocity(w, dt);
    HandleInput(w, keys, dt);
    CheckForCollisions(w, launch);
  }
}
