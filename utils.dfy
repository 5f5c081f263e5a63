// `clamp_velocity_angle` (src/game/utils.rs, with a copy in src/main.rs) applied to the
// normalised, rescaled reflection: sqrt, atan2, cos and sin on f32. It is not modelled; the
// collision system receives it as a function value `launch`, about which the model assumes
// only what the sign-preserving reconstruction promises.
module Utils {
  import opened Math

  /**
   * The assumption on `launch`: the horizontal direction of travel survives normalising to
   * `BALL_SPEED` and clamping the angle, because `normalize` scales by a positive factor and
   * the clamped angle's cosine is positive, multiplied by `signum` of the old x.
   */
  ghost predicate KeepsHorizontalSign(launch: Vec2 -> Vec2) {
    forall v: Vec2 {:trigger launch(v)} ::
      (v.x < 0.0 ==> launch(v).x < 0.0) && (v.x > 0.0 ==> launch(v).x > 0.0)
  }
}
