// The small part of Bevy's vector math that the gameplay rules use, over exact reals
// (the game's f32 arithmetic without rounding).
module Math {

  /** A 2D vector: a translation's x and y, or a velocity. */
  datatype Vec2 = Vec2(x: real, y: real) {

    function Plus(other: Vec2): Vec2 {
      Vec2(x + other.x, y + other.y)
    }

    function Times(k: real): Vec2 {
      Vec2(x * k, y * k)
    }

    function LengthSquared(): real {
      x * x + y * y
    }
  }

  const Origin: Vec2 := Vec2(0.0, 0.0)

  /**
   * `Vec2::normalize` for a vector on the x axis, the only kind whose length is rational: the
   * unit vector with the same direction.
   */
  function NormalizeHorizontal(v: Vec2): (r: Vec2)
    requires v.x != 0.0 && v.y == 0.0
    ensures r.y == 0.0 && (r.x == 1.0 || r.x == -1.0)
    ensures r.x > 0.0 <==> v.x > 0.0
  {
    Vec2(if v.x > 0.0 then 1.0 else -1.0, 0.0)
  }

  /** `f32::clamp`: the value nearest to `v` inside `[lo, hi]` (Rust panics when `lo > hi`). */
  function Clamp(v: real, lo: real, hi: real): (r: real)
    requires lo <= hi
    ensures lo <= r <= hi
    ensures lo <= v <= hi ==> r == v
    ensures v < lo ==> r == lo
    ensures hi < v ==> r == hi
  {
    if v < lo then lo else if hi < v then hi else v
  }
}
