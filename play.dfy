// Properties of whole rounds: the fixed tick of `FixedUpdatePlugin` together with the round reset
// of `UpdatePlugin`, over the states a running game can be in.
module Play {
  import opened Math
  import opened Constants
  import opened Components
  import opened Bounding
  import opened Utils
  import opened Game
  import opened FixedUpdate
  import opened Update

  // ---------------------------------------------------------------- the game's configuration

  /** A fixed tick keeps a running game's configuration: paddles stay pinned and inside the clamp range. */
  lemma TickKeepsStandard(s: GameState, keys: Keys, dt: real, launch: Vec2 -> Vec2)
    requires KeepsHorizontalSign(launch)
    requires Standard(s)
    ensures Standard(Tick(s, keys, dt, launch))
  {
    var a := Integrate(s, dt);
    var b := Input(a, keys, dt);
    assert InPaddleRange(b.paddles[0].pos.y) && InPaddleRange(b.paddles[1].pos.y);
  }

  /** A ball that touches a paddle of a running game is on that paddle's side of the centre line. */
  lemma TouchedPaddleIsOnBallSide(s: GameState, i: int)
    requires Standard(s) && 0 <= i < 2
    requires Intersects(s.ballPos, s.paddles[i].pos)
    ensures (s.paddles[i].pos.x < 0.0) == (s.ballPos.x < 0.0)
  {
    IntersectsWithinReach(s.ballPos, BallRadius, s.paddles[i].pos, PaddleHalfSize);
  }

  /** A ball at the centre touches no paddle of a running game. */
  lemma CentredBallTouchesNothing(s: GameState)
    requires Standard(s) && s.ballPos == Origin
    ensures forall i :: 0 <= i < |s.paddles| ==> !Intersects(s.ballPos, s.paddles[i].pos)
  {
    forall i | 0 <= i < |s.paddles|
      ensures !Intersects(s.ballPos, s.paddles[i].pos)
    {
      if Intersects(s.ballPos, s.paddles[i].pos) {
        IntersectsWithinReach(s.ballPos, BallRadius, s.paddles[i].pos, PaddleHalfSize);
        assert false;
      }
    }
  }

  // ---------------------------------------------------------------- pause and serve

  /**
   * While the game waits for a serve, with the ball at the centre, a tick changes nothing but the
   * pause flag, which Space clears: the integrator and the paddles are frozen and the collision
   * check finds nothing to do.
   */
  lemma PausedTickAtRest(s: GameState, keys: Keys, dt: real, launch: Vec2 -> Vec2)
    requires KeepsHorizontalSign(launch)
    requires Standard(s) && s.paused && s.ballPos == Origin
    ensures Tick(s, keys, dt, launch) == s.(paused := !keys.spaceJustPressed)
  {
    var b := Input(Integrate(s, dt), keys, dt);
    assert b == s.(paused := !keys.spaceJustPressed);
    CentredBallTouchesNothing(b);
    assert WallBounce(b.ballPos, b.ballVel) == b.ballVel;
  }

  /** After a round reset the game rests until Space is pressed, and the serving tick only unpauses it. */
  lemma ResetRestsUntilServe(s: GameState, keys: Keys, dt: real, launch: Vec2 -> Vec2)
    requires KeepsHorizontalSign(launch)
    requires Standard(s) && s.events != []
    ensures var r := Scored(s);
            r.paused && Tick(r, keys, dt, launch) == r.(paused := !keys.spaceJustPressed)
  {
    ScoredKeepsStandard(s);
    PausedTickAtRest(Scored(s), keys, dt, launch);
  }

  // ---------------------------------------------------------------- the re-trigger guard

  /**
   * A ball that already travels away from one side is left alone by every paddle on that side
   * that it touches, so a pass over such paddles changes nothing.
   */
  lemma {:induction false} PassIgnoresRetreatingBall(pos: Vec2, vel: Vec2, ps: seq<Paddle>, left: bool,
                                                      launch: Vec2 -> Vec2)
    requires KeepsHorizontalSign(launch)
    requires forall i :: 0 <= i < |ps| && Intersects(pos, ps[i].pos) ==> (ps[i].pos.x < 0.0) == left
    requires !MovingToward(if left then -1.0 else 1.0, vel.x)
    ensures PaddlePass(pos, vel, ps, launch) == vel
    decreases |ps|
  {
    if ps != [] {
      assert HitPaddle(pos, vel, ps[0], launch) == vel;
      assert forall i :: 0 <= i < |ps[1..]| ==> ps[1..][i] == ps[i + 1];
      PassIgnoresRetreatingBall(pos, vel, ps[1..], left, launch);
    }
  }

  /**
   * When all the paddles the ball touches are on one side, the collider loop leaves the ball
   * travelling away from every one of them: the next tick cannot reflect it again while it
   * still overlaps.
   */
  lemma {:induction false} PassLeavesNoApproach(pos: Vec2, vel: Vec2, ps: seq<Paddle>, left: bool,
                                                 launch: Vec2 -> Vec2)
    requires KeepsHorizontalSign(launch)
    requires forall i :: 0 <= i < |ps| && Intersects(pos, ps[i].pos) ==> (ps[i].pos.x < 0.0) == left
    ensures forall i :: 0 <= i < |ps| && Intersects(pos, ps[i].pos) ==>
              !MovingToward(ps[i].pos.x, PaddlePass(pos, vel, ps, launch).x)
    decreases |ps|
  {
    if ps != [] {
      var v1 := HitPaddle(pos, vel, ps[0], launch);
      var rest := ps[1..];
      assert forall i :: 0 <= i < |rest| ==> rest[i] == ps[i + 1];
      PassLeavesNoApproach(pos, v1, rest, left, launch);
      if Intersects(pos, ps[0].pos) {
        assert !MovingToward(if left then -1.0 else 1.0, v1.x);
        PassIgnoresRetreatingBall(pos, v1, rest, left, launch);
      }
    }
  }

  /**
   * In a running game, after the collision check of a ball still in the court, the ball travels
   * away from every paddle it overlaps: a paddle reflects it at most once per approach.
   */
  lemma NoRetrigger(s: GameState, launch: Vec2 -> Vec2)
    requires KeepsHorizontalSign(launch)
    requires Standard(s) && LeftEdge <= s.ballPos.x <= RightEdge
    ensures var r := Collide(s, launch);
            forall i :: 0 <= i < |r.paddles| && Intersects(r.ballPos, r.paddles[i].pos) ==>
              !MovingToward(r.paddles[i].pos.x, r.ballVel.x)
  {
    var left := s.ballPos.x < 0.0;
    forall i | 0 <= i < |s.paddles| && Intersects(s.ballPos, s.paddles[i].pos)
      ensures (s.paddles[i].pos.x < 0.0) == left
    {
      TouchedPaddleIsOnBallSide(s, i);
    }
    PassLeavesNoApproach(s.ballPos, WallBounce(s.ballPos, s.ballVel), s.paddles, left, launch);
  }

  // ---------------------------------------------------------------- the end of a rally

  /** `n` copies of one scorer. */
  function Repeat(p: Player, n: nat): (r: seq<Player>)
    ensures |r| == n && forall i :: 0 <= i < n ==> r[i] == p
  {
    if n == 0 then [] else [p] + Repeat(p, n - 1)
  }

  /** `n` fixed ticks with the same input. */
  function Ticks(s: GameState, n: nat, keys: Keys, dt: real, launch: Vec2 -> Vec2): GameState
    requires KeepsHorizontalSign(launch)
    decreases n
  {
    if n == 0 then s else Ticks(Tick(s, keys, dt, launch), n - 1, keys, dt, launch)
  }

  /** The ball has left the court on the side that concedes to `scorer`, and keeps going. */
  predicate Exited(s: GameState, scorer: Player) {
    match scorer
    case Right => s.ballPos.x < LeftEdge && s.ballVel.x <= 0.0
    case Left => s.ballPos.x > RightEdge && s.ballVel.x >= 0.0
  }

  /**
   * Once the ball is out and the game is running, every fixed tick queues one more point for the
   * same player until the round reset runs; the ball, still moving, stays out.
   */
  lemma {:induction false} ExitedBallKeepsScoring(s: GameState, scorer: Player, n: nat, keys: Keys, dt: real,
                                                   launch: Vec2 -> Vec2)
    requires KeepsHorizontalSign(launch)
    requires !s.paused && Exited(s, scorer) && dt >= 0.0
    ensures var r := Ticks(s, n, keys, dt, launch);
            !r.paused && Exited(r, scorer) && r.score == s.score && r.events == s.events + Repeat(scorer, n)
    decreases n
  {
    if n > 0 {
      var t := Tick(s, keys, dt, launch);
      var a := Integrate(s, dt);
      if scorer == Right {
        assert s.ballVel.x * dt <= 0.0;
      } else {
        assert s.ballVel.x * dt >= 0.0;
      }
      assert Exited(a, scorer);
      assert Exited(t, scorer) && !t.paused && t.events == s.events + [scorer];
      ExitedBallKeepsScoring(t, scorer, n - 1, keys, dt, launch);
      assert [scorer] + Repeat(scorer, n - 1) == Repeat(scorer, n);
    }
  }

  /**
   * However many ticks queue a point before the round reset runs, the reset credits exactly one
   * point, to the player who scored, and pauses the game with the ball back at the centre.
   */
  lemma RallyScoresOnce(s: GameState, scorer: Player, n: nat, keys: Keys, dt: real, launch: Vec2 -> Vec2)
    requires KeepsHorizontalSign(launch)
    requires !s.paused && Exited(s, scorer) && dt >= 0.0 && s.events == [] && n >= 1
    ensures var r := Scored(Ticks(s, n, keys, dt, launch));
            r.score == Credit(s.score, scorer) && r.paused && r.ballPos == Origin && r.events == []
  {
    ExitedBallKeepsScoring(s, scorer, n, keys, dt, launch);
  }
}
