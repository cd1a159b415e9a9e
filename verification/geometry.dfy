/** Plane vectors over `real`, the exact idealisation of the game's
    `{ x, y }` number pairs, and the facts about orthonormal frames that
    the ball-ball collision relies on. */
module Geometry {

  datatype Vec = Vec(x: real, y: real)

  const Zero: Vec := Vec(0.0, 0.0)

  function Abs(r: real): real {
    if r < 0.0 then -r else r
  }

  function Max(a: real, b: real): real {
    if a < b then b else a
  }

  function Add(u: Vec, v: Vec): Vec {
    Vec(u.x + v.x, u.y + v.y)
  }

  function Sub(u: Vec, v: Vec): Vec {
    Vec(u.x - v.x, u.y - v.y)
  }

  /** Component-wise scaling, written `v.x * k` as the game does. */
  function Scale(v: Vec, k: real): Vec {
    Vec(v.x * k, v.y * k)
  }

  function Dot(u: Vec, v: Vec): real {
    u.x * v.x + u.y * v.y
  }

  function NormSq(v: Vec): real {
    Dot(v, v)
  }

  /** The unit tangent `(-u.y, u.x)` for a unit normal `u`. */
  function Perp(u: Vec): Vec {
    Vec(-u.y, u.x)
  }

  /** A product is zero only through a zero factor. */
  lemma CancelZero(a: real, b: real)
    requires b != 0.0 && a * b == 0.0
    ensures a == 0.0
  {
  }

  /** Dividing a vector by its own length gives a unit vector; the length
      is supplied as `len` with `len * len == |n|^2`, standing for a square root. */
  lemma UnitByLength(n: Vec, len: real)
    requires len > 0.0 && len * len == NormSq(n)
    ensures NormSq(Vec(n.x / len, n.y / len)) == 1.0
  {
    var ux, uy := n.x / len, n.y / len;
    assert n.x == ux * len && n.y == uy * len;
    var s := ux * ux + uy * uy;
    assert NormSq(n) == (s * len) * len;
    assert ((s - 1.0) * len) * len == 0.0;
    CancelZero((s - 1.0) * len, len);
    CancelZero(s - 1.0, len);
  }

  /** A vector is the sum of its projections on a unit normal and its tangent. */
  lemma Decompose(v: Vec, u: Vec)
    requires NormSq(u) == 1.0
    ensures Add(Scale(u, Dot(v, u)), Scale(Perp(u), Dot(v, Perp(u)))) == v
  {
  }

  /** Projection coefficients on an orthonormal frame: recomposing from `n`
      and `t` and projecting back yields `n` and `t` again. */
  lemma Project(u: Vec, n: real, t: real)
    requires NormSq(u) == 1.0
    ensures Dot(Add(Scale(u, n), Scale(Perp(u), t)), u) == n
    ensures Dot(Add(Scale(u, n), Scale(Perp(u), t)), Perp(u)) == t
  {
  }

  /** Pythagoras on an orthonormal frame: the squared length is the sum of
      the squared normal and tangent components. */
  lemma Pythagoras(u: Vec, n: real, t: real)
    requires NormSq(u) == 1.0
    ensures NormSq(Add(Scale(u, n), Scale(Perp(u), t))) == n * n + t * t
  {
  }
}
