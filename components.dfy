// The game's entities and resources as values: the `Player` side, the `Paddle` component with its
// transform, the `Score` and `Paused` resources (src/game/resources.rs), the `Scored` event
// (src/game/events.rs), the keyboard state the systems read, and a snapshot of the whole game.
module Components {
  import opened Math

  /** A side of the court. The module that declares it in the repository is not part of this model. */
  datatype Player = Left | Right

  /** A paddle entity: its side and its transform's translation. */
  datatype Paddle = Paddle(side: Player, pos: Vec2)

  /** The `Score` resource: points of the left and of the right player. */
  datatype Score = Score(left: nat, right: nat) {
    function Total(): nat {
      left + right
    }
  }

  /** The keyboard state one tick reads: the held keys of both paddles and the Space edge. */
  datatype Keys = Keys(keyW: bool, keyS: bool, arrowUp: bool, arrowDown: bool, spaceJustPressed: bool)

  /**
   * A snapshot of the game: the `Paused` flag, the `Score`, the ball's translation and `Velocity`,
   * the paddles in query order, and the unread `Scored` events, oldest first.
   */
  datatype GameState = GameState(
    paused: bool,
    score: Score,
    ballPos: Vec2,
    ballVel: Vec2,
    paddles: seq<Paddle>,
    events: seq<Player>)
}
