// Bevy's `BoundingCircle::intersects(&Aabb2d)`, which the collision system calls. The library
// code is not part of this model: the test below is the closest-point test that Bevy documents
// for a circle against an axis-aligned box, and it is an ASSUMPTION of the model.
module Bounding {
  import opened Math

  /** The point of the box (centre `c`, half extents `half`) nearest to `p`. */
  function ClosestPoint(c: Vec2, half: Vec2, p: Vec2): (q: Vec2)
    requires half.x >= 0.0 && half.y >= 0.0
    ensures c.x - half.x <= q.x <= c.x + half.x && c.y - half.y <= q.y <= c.y + half.y
    ensures c.x - half.x <= p.x <= c.x + half.x && c.y - half.y <= p.y <= c.y + half.y ==> q == p
  {
    Vec2(Clamp(p.x, c.x - half.x, c.x + half.x), Clamp(p.y, c.y - half.y, c.y + half.y))
  }

  /** A circle (centre `p`, radius `radius`) touches or overlaps the box (centre `c`, half extents `half`). */
  predicate CircleIntersectsAabb(p: Vec2, radius: real, c: Vec2, half: Vec2)
    requires half.x >= 0.0 && half.y >= 0.0
  {
    var q := ClosestPoint(c, half, p);
    Vec2(p.x - q.x, p.y - q.y).LengthSquared() <= radius * radius
  }

  /** An intersecting circle's centre lies within the box grown by the radius on every side. */
  lemma IntersectsWithinReach(p: Vec2, radius: real, c: Vec2, half: Vec2)
    requires half.x >= 0.0 && half.y >= 0.0 && radius >= 0.0
    requires CircleIntersectsAabb(p, radius, c, half)
    ensures c.x - half.x - radius <= p.x <= c.x + half.x + radius
    ensures c.y - half.y - radius <= p.y <= c.y + half.y + radius
  {
    var q := ClosestPoint(c, half, p);
    var dx, dy := p.x - q.x, p.y - q.y;
    assert dx * dx <= radius * radius by {
      assert dy * dy >= 0.0;
    }
    SquareBound(dx, radius);
    assert dy * dy <= radius * radius by {
      assert dx * dx >= 0.0;
    }
    SquareBound(dy, radius);
  }

  /** `d * d <= r * r` with `r >= 0` bounds `d` by `r` on both sides. */
  lemma SquareBound(d: real, r: real)
    requires r >= 0.0 && d * d <= r * r
    ensures -r <= d <= r
  {
    if d > r {
      SquareGrows(d, r);
      assert false;
    } else if d < -r {
      SquareGrows(-d, r);
      assert false;
    }
  }

  lemma SquareGrows(a: real, b: real)
    requires a > b >= 0.0
    ensures a * a > b * b
  {
    var e := a - b;
    assert a * e > 0.0;
    assert b * e >= 0.0;
    assert a * a - b * b == a * e + b * e;
  }
}
