// The game world: the resources and entities that the systems read and write in place, the
// state `main`, `spawn_paddles` and `spawn_ball` set up, and the configuration every system
// keeps (two paddles pinned to their spawn x, each inside the clamp range).
module Game {
  import opened Math
  import opened Constants
  import opened Components

  /** The Bevy world of the game: `Paused`, `Score`, the ball, the paddles and the event queue. */
  class World {
    var paused: bool
    var score: Score
    var ballPos: Vec2
    var ballVel: Vec2
    var paddles: seq<Paddle>
    var events: seq<Player>

    function State(): GameState
      reads this
    {
      GameState(paused, score, ballPos, ballVel, paddles, events)
    }

    /** Start-up: `Score(0, 0)`, `Paused(true)`, the two spawned paddles and the spawned ball. */
    constructor ()
      ensures State() == InitialState()
    {
      score := Score(0, 0);
      paused := true;
      paddles := [Paddle(Left, Vec2(LeftEdge + PaddleMargin, 0.0)),
                  Paddle(Right, Vec2(RightEdge - PaddleMargin, 0.0))];
      ballPos := Origin;
      ServeVelocityIsNormalizedDirection();
      ballVel := NormalizeHorizontal(InitialBallDirection).Times(BallSpeed);
      events := [];
    }
  }

  function InitialState(): (s: GameState)
    ensures s.score == Score(0, 0) && s.paused && s.events == []
    ensures s.ballPos == Origin && s.ballVel == InitialBallVelocity
    ensures s.paddles == [Paddle(Left, Vec2(LeftEdge + PaddleMargin, 0.0)),
                          Paddle(Right, Vec2(RightEdge - PaddleMargin, 0.0))]
    ensures Standard(s)
  {
    GameState(true, Score(0, 0), Origin, InitialBallVelocity,
      [Paddle(Left, Vec2(LeftPaddleX, 0.0)), Paddle(Right, Vec2(RightPaddleX, 0.0))], [])
  }

  predicate InPaddleRange(y: real) {
    PaddleMinY <= y <= PaddleMaxY
  }

  /**
   * The configuration of a running game: the left paddle, then the right one, each at its spawn x
   * and with its y in the clamp range.
   */
  predicate Standard(s: GameState) {
    |s.paddles| == 2
    && s.paddles[0].side == Left && s.paddles[0].pos.x == LeftPaddleX
    && s.paddles[1].side == Right && s.paddles[1].pos.x == RightPaddleX
    && InPaddleRange(s.paddles[0].pos.y) && InPaddleRange(s.paddles[1].pos.y)
  }
}
