// `handle_scored` of src/game/systems/update.rs: the round reset that the `Update` schedule runs
// on the `Scored` events the fixed tick queued.
module Update {
  import opened Math
  import opened Constants
  import opened Components
  import opened Game

  /** One point for `player`, and none for the other. */
  function Credit(score: Score, player: Player): (r: Score)
    ensures r.Total() == score.Total() + 1
    ensures player == Left ==> r.left == score.left + 1 && r.right == score.right
    ensures player == Right ==> r.right == score.right + 1 && r.left == score.left
  {
    match player
    case Left => score.(left := score.left + 1)
    case Right => score.(right := score.right + 1)
  }

  /** Every paddle moved back to y = 0, keeping its side and its x. */
  function Recentred(ps: seq<Paddle>): (r: seq<Paddle>)
    ensures |r| == |ps|
    ensures forall i :: 0 <= i < |ps| ==> r[i].side == ps[i].side && r[i].pos == Vec2(ps[i].pos.x, 0.0)
  {
    if ps == [] then [] else [ps[0].(pos := Vec2(ps[0].pos.x, 0.0))] + Recentred(ps[1..])
  }

  /**
   * `handle_scored` as a state transition. With no unread event nothing changes. Otherwise the
   * game pauses, the ball is put back at the centre with the serve velocity, every paddle is
   * re-centred, the FIRST event's player gains exactly one point, and the queue is emptied.
   */
  function Scored(s: GameState): (r: GameState)
    ensures s.events == [] ==> r == s
    ensures s.events != [] ==>
              r.paused && r.ballPos == Origin && r.ballVel == InitialBallVelocity && r.events == []
              && r.paddles == Recentred(s.paddles)
              && r.score == Credit(s.score, s.events[0])
    ensures r.score.left >= s.score.left && r.score.right >= s.score.right
    ensures r.score.Total() == s.score.Total() + (if s.events == [] then 0 else 1)
  {
    if s.events == [] then s
    else GameState(true, Credit(s.score, s.events[0]), Origin, InitialBallVelocity, Recentred(s.paddles), [])
  }

  method HandleScored(w: World)
    modifies w
    ensures w.State() == Scored(old(w.State()))
  {
    if w.events != [] {
      w.paused := true;

      w.ballPos := Origin;
      ServeVelocityIsNormalizedDirection();
      w.ballVel := NormalizeHorizontal(InitialBallDirection).Times(BallSpeed);

      ghost var before := w.paddles;
      var i := 0;
      while i < |w.paddles|
        invariant 0 <= i <= |w.paddles| == |before|
        invariant forall k :: 0 <= k < i ==> w.paddles[k] == before[k].(pos := Vec2(before[k].pos.x, 0.0))
        invariant w.paddles[i..] == before[i..]
        invariant w.State() == old(w.State()).(paused := true, ballPos := Origin,
                                               ballVel := InitialBallVelocity, paddles := w.paddles)
      {
        var transform := w.paddles[i].pos;
        w.paddles := w.paddles[i := w.paddles[i].(pos := transform.(y := 0.0))];
        i := i + 1;
      }
      assert w.paddles == Recentred(before);

      var event := w.events[0];
      match event {
        case Left =>
          w.score := w.score.(left := w.score.left + 1);
        case Right =>
          w.score := w.score.(right := w.score.right + 1);
      }
      w.events := [];
    }
  }

  /** Only the first queued event counts: whatever is queued behind it is discarded unread. */
  lemma OnlyFirstEventCounts(s: GameState, rest: seq<Player>)
    requires s.events != []
    ensures Scored(s.(events := s.events + rest)) == Scored(s.(events := [s.events[0]]))
  {
  }

  /** After a round reset another reset changes nothing until a tick queues a new event. */
  lemma ScoredIsIdempotent(s: GameState)
    ensures Scored(Scored(s)) == Scored(s)
  {
  }

  /** A round reset keeps a running game's configuration: re-centred paddles are inside the clamp range. */
  lemma ScoredKeepsStandard(s: GameState)
    requires Standard(s)
    ensures Standard(Scored(s))
  {
  }
}
