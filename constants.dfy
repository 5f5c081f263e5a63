// The gameplay constants of src/game/constants.rs (the same values are repeated at the top of
// src/main.rs), as exact reals, and the values the systems derive from them.
module Constants {
  import opened Math

  const LeftEdge: real := -650.0
  const RightEdge: real := 650.0

  const BottomWall: real := -350.0
  const TopWall: real := 350.0

  const PaddleMargin: real := 72.0
  const PaddleSize: Vec2 := Vec2(20.0, 120.0)
  const PaddleSpeed: real := 500.0

  const BallRadius: real := 8.0
  const BallSpeed: real := 700.0
  const InitialBallDirection: Vec2 := Vec2(0.5, 0.0)
  const SpinFactor: real := 0.5

  /** Half extents of a paddle's collider box: its transform's scale (`PaddleSize`) halved. */
  const PaddleHalfSize: Vec2 := Vec2(PaddleSize.x / 2.0, PaddleSize.y / 2.0)

  /** The range `handle_input` clamps a moving paddle's y to, so that it stays between the walls. */
  const PaddleMinY: real := BottomWall + PaddleSize.y / 2.0
  const PaddleMaxY: real := TopWall - PaddleSize.y / 2.0

  /** Where the paddles are spawned. */
  const LeftPaddleX: real := LeftEdge + PaddleMargin
  const RightPaddleX: real := RightEdge - PaddleMargin

  /** The serve velocity, (700, 0); see `ServeVelocityIsNormalizedDirection`. */
  const InitialBallVelocity: Vec2 := Vec2(BallSpeed, 0.0)

  /**
   * `INITIAL_BALL_DIRECTION.normalize() * BALL_SPEED` is the serve velocity: it points the way
   * of the initial direction and has length `BallSpeed`.
   */
  lemma ServeVelocityIsNormalizedDirection()
    ensures NormalizeHorizontal(InitialBallDirection).Times(BallSpeed) == InitialBallVelocity
    ensures InitialBallVelocity.LengthSquared() == BallSpeed * BallSpeed
  {
    assert NormalizeHorizontal(InitialBallDirection) == Vec2(1.0, 0.0);
  }
}
