/**
  Vectors, screen rectangles and the small raymath / raylib helpers that the
  game logic calls. Numbers are reals; floating point rounding is not modelled.
  A square root is not definable over the reals in Dafny, so every length takes
  the root as a parameter, and lemmas that need it to be a genuine square root
  say so with IsRoot.
*/
module Geometry {

  datatype Vec3 = Vec3(x: real, y: real, z: real)
  datatype Vec2 = Vec2(x: real, y: real)

  /** A screen rectangle given by its top-left corner and its size (raylib's Rectangle). */
  datatype Rect = Rect(x: real, y: real, width: real, height: real)

  const WorldUp: Vec3 := Vec3(0.0, 1.0, 0.0)
  const Origin: Vec3 := Vec3(0.0, 0.0, 0.0)

  function Add(a: Vec3, b: Vec3): Vec3 { Vec3(a.x + b.x, a.y + b.y, a.z + b.z) }
  function Sub(a: Vec3, b: Vec3): Vec3 { Vec3(a.x - b.x, a.y - b.y, a.z - b.z) }
  function Scale(v: Vec3, k: real): Vec3 { Vec3(v.x * k, v.y * k, v.z * k) }
  function Dot(a: Vec3, b: Vec3): real { a.x * b.x + a.y * b.y + a.z * b.z }

  /** Right-handed cross product (Vector3CrossProduct, glm::cross). */
  function Cross(a: Vec3, b: Vec3): (c: Vec3)
    ensures Dot(c, a) == 0.0 && Dot(c, b) == 0.0
  {
    Vec3(a.y * b.z - a.z * b.y, a.z * b.x - a.x * b.z, a.x * b.y - a.y * b.x)
  }

  function Sub2(a: Vec2, b: Vec2): Vec2 { Vec2(a.x - b.x, a.y - b.y) }
  function Scale2(v: Vec2, k: real): Vec2 { Vec2(v.x * k, v.y * k) }
  function Dot2(a: Vec2, b: Vec2): real { a.x * b.x + a.y * b.y }

  /** The square root every vector length is taken with. */
  type Root = real -> real

  /** `sqrt` is a non-negative square root on the non-negative reals. */
  ghost predicate IsRoot(sqrt: Root)
  {
    forall r: real :: 0.0 <= r ==> 0.0 <= sqrt(r) && sqrt(r) * sqrt(r) == r
  }

  function Length(v: Vec3, sqrt: Root): real { sqrt(Dot(v, v)) }
  function Length2(v: Vec2, sqrt: Root): real { sqrt(Dot2(v, v)) }

  /** Vector2Distance: the length of the difference. */
  function Distance2(a: Vec2, b: Vec2, sqrt: Root): real { Length2(Sub2(a, b), sqrt) }

  /** Vector3Normalize: a vector of length zero is returned as it is. */
  function Normalize(v: Vec3, sqrt: Root): (u: Vec3)
    ensures v.y == 0.0 ==> u.y == 0.0
    ensures v == Origin ==> u == Origin
  {
    var len := Length(v, sqrt);
    if len != 0.0 then Scale(v, 1.0 / len) else v
  }

  /** Vector2Normalize: a vector whose length is not positive becomes zero. */
  function Normalize2(v: Vec2, sqrt: Root): (u: Vec2)
    ensures u.x * v.y == u.y * v.x
    ensures Length2(v, sqrt) > 0.0 ==> 0.0 <= Dot2(u, v)
    ensures Length2(v, sqrt) <= 0.0 ==> u == Vec2(0.0, 0.0)
  {
    var len := Length2(v, sqrt);
    if len > 0.0 then
      var k := 1.0 / len;
      assert (v.x * k) * v.y == (v.y * k) * v.x;
      SelfDot2Nonneg(v);
      assert Dot2(Scale2(v, k), v) == k * Dot2(v, v);
      MulNonneg(k, Dot2(v, v), k * Dot2(v, v));
      Scale2(v, k)
    else Vec2(0.0, 0.0)
  }

  /** Vector3Reflect: mirror `v` in the plane whose normal is `n`. */
  function Reflect(v: Vec3, n: Vec3): (r: Vec3)
    ensures Dot(n, n) == 1.0 ==> Dot(r, n) == -Dot(v, n)
  {
    DotSubScale(v, n, 2.0 * Dot(v, n));
    Sub(v, Scale(n, 2.0 * Dot(v, n)))
  }

  /** raymath's Lerp: the point `amount` of the way from `start` to `end`. */
  function Lerp(start: real, end: real, amount: real): (r: real)
    ensures amount == 0.0 ==> r == start
    ensures amount == 1.0 ==> r == end
    ensures 0.0 <= amount <= 1.0 && start <= end ==> start <= r <= end
    ensures 0.0 <= amount <= 1.0 && end <= start ==> end <= r <= start
  {
    LerpBetween(start, end, amount);
    start + amount * (end - start)
  }

  lemma LerpBetween(start: real, end: real, amount: real)
    ensures 0.0 <= amount <= 1.0 && start <= end ==>
              0.0 <= amount * (end - start) <= end - start
    ensures 0.0 <= amount <= 1.0 && end <= start ==>
              end - start <= amount * (end - start) <= 0.0
  {
    if 0.0 <= amount <= 1.0 {
      var d := if start <= end then end - start else start - end;
      MulNonneg(amount, d, amount * d);
      MulNonneg(1.0 - amount, d, (1.0 - amount) * d);
      assert (1.0 - amount) * d == d - amount * d;
    }
  }

  /** raymath's Clamp: raise to `lo` first, then lower to `hi`. */
  function Clamp(value: real, lo: real, hi: real): (r: real)
    ensures lo <= hi ==> lo <= r <= hi
    ensures lo <= value <= hi ==> r == value
  {
    var raised := if value < lo then lo else value;
    if raised > hi then hi else raised
  }

  /** raylib's CheckCollisionPointRec: the left and top edges belong to the rectangle, the right and bottom ones do not. */
  predicate PointInRect(p: Vec2, rect: Rect)
    ensures PointInRect(p, rect) ==> 0.0 < rect.width && 0.0 < rect.height
  {
    rect.x <= p.x < rect.x + rect.width && rect.y <= p.y < rect.y + rect.height
  }

  const PitchLimit: real := 89.0

  /** The pitch clamp both camera variants apply: limit the pitch to ±89 degrees. */
  function ClampPitch(pitch: real): (r: real)
    ensures -PitchLimit <= r <= PitchLimit
    ensures -PitchLimit <= pitch <= PitchLimit ==> r == pitch
    ensures pitch > PitchLimit ==> r == PitchLimit
    ensures pitch < -PitchLimit ==> r == -PitchLimit
  {
    if pitch > PitchLimit then PitchLimit
    else if pitch < -PitchLimit then -PitchLimit
    else pitch
  }

  // ---- Facts about square roots and lengths -------------------------------

  // The product is passed in as `p` so that callers can name the very term
  // they need a fact about.
  lemma MulPos(a: real, b: real, p: real)
    requires 0.0 < a && 0.0 < b && p == a * b
    ensures 0.0 < p
  {}

  lemma MulNonneg(a: real, b: real, p: real)
    requires 0.0 <= a && 0.0 <= b && p == a * b
    ensures 0.0 <= p
  {}

  lemma SquareNonneg(a: real, p: real)
    requires p == a * a
    ensures 0.0 <= p
    ensures a != 0.0 ==> 0.0 < p
  {
    if a > 0.0 {
      MulPos(a, a, p);
    } else if a < 0.0 {
      MulPos(-a, -a, p);
    }
  }

  /** Two non-negative reals with the same square are equal. */
  lemma EqualSquares(s: real, k: real)
    requires 0.0 <= s && 0.0 <= k && s * s == k * k
    ensures s == k
  {
    if s > k {
      MulPos(s - k, s + k, s * s - k * k);
    } else if s < k {
      MulPos(k - s, k + s, k * k - s * s);
    }
  }

  /** What IsRoot says about one argument. */
  lemma RootOf(sqrt: Root, q: real)
    requires IsRoot(sqrt)
    requires 0.0 <= q
    ensures 0.0 <= sqrt(q) && sqrt(q) * sqrt(q) == q
  {}

  /** A genuine root of a non-negative real is non-negative. */
  lemma RootNonneg(sqrt: Root, q: real)
    ensures IsRoot(sqrt) && 0.0 <= q ==> 0.0 <= sqrt(q)
  {}

  /** A non-negative root of a non-negative real is zero exactly when the real is. */
  lemma RootZeroIff(s: real, q: real)
    requires 0.0 <= s && s * s == q
    ensures s == 0.0 <==> q == 0.0
  {
    if s > 0.0 {
      MulPos(s, s, q);
    }
  }

  lemma RootOfSquare(sqrt: Root, k: real)
    requires IsRoot(sqrt)
    requires 0.0 <= k
    ensures sqrt(k * k) == k
  {
    SquareNonneg(k, k * k);
    RootOf(sqrt, k * k);
    EqualSquares(sqrt(k * k), k);
  }

  lemma SelfDotPositive(v: Vec3)
    ensures 0.0 <= Dot(v, v)
    ensures v != Origin ==> 0.0 < Dot(v, v)
  {
    SquareNonneg(v.x, v.x * v.x);
    SquareNonneg(v.y, v.y * v.y);
    SquareNonneg(v.z, v.z * v.z);
    if v != Origin {
      assert v.x != 0.0 || v.y != 0.0 || v.z != 0.0;
    }
  }

  /** A length is zero exactly for the zero vector, and positive otherwise. */
  lemma LengthZeroIffOrigin(v: Vec3, sqrt: Root)
    requires IsRoot(sqrt)
    ensures 0.0 <= Length(v, sqrt)
    ensures Length(v, sqrt) == 0.0 <==> v == Origin
  {
    SelfDotPositive(v);
    RootOf(sqrt, Dot(v, v));
    RootZeroIff(Length(v, sqrt), Dot(v, v));
  }

  lemma LengthOfOrigin(sqrt: Root)
    requires IsRoot(sqrt)
    ensures Length(Origin, sqrt) == 0.0
  {
    LengthZeroIffOrigin(Origin, sqrt);
  }

  /** A unit vector scaled by a non-negative factor has that factor as its length. */
  lemma ScaledUnitLength(u: Vec3, k: real, sqrt: Root)
    requires IsRoot(sqrt)
    requires Dot(u, u) == 1.0 && 0.0 <= k
    ensures Length(Scale(u, k), sqrt) == k
  {
    DotScaleScale(u, k);
    assert Dot(Scale(u, k), Scale(u, k)) == k * k;
    RootOfSquare(sqrt, k);
  }

  lemma DotScaleScale(v: Vec3, k: real)
    ensures Dot(Scale(v, k), Scale(v, k)) == Dot(v, v) * (k * k)
  {
    assert (v.x * k) * (v.x * k) == (v.x * v.x) * (k * k);
    assert (v.y * k) * (v.y * k) == (v.y * v.y) * (k * k);
    assert (v.z * k) * (v.z * k) == (v.z * v.z) * (k * k);
  }

  lemma DotScale(v: Vec3, w: Vec3, k: real)
    ensures Dot(Scale(v, k), w) == k * Dot(v, w)
  {
    assert (v.x * k) * w.x == k * (v.x * w.x);
    assert (v.y * k) * w.y == k * (v.y * w.y);
    assert (v.z * k) * w.z == k * (v.z * w.z);
  }

  lemma SelfDot2Nonneg(v: Vec2)
    ensures 0.0 <= Dot2(v, v)
  {
    SquareNonneg(v.x, v.x * v.x);
    SquareNonneg(v.y, v.y * v.y);
  }

  lemma DotScaleScale2(v: Vec2, k: real)
    ensures Dot2(Scale2(v, k), Scale2(v, k)) == Dot2(v, v) * (k * k)
  {
    assert (v.x * k) * (v.x * k) == (v.x * v.x) * (k * k);
    assert (v.y * k) * (v.y * k) == (v.y * v.y) * (k * k);
  }

  /** Normalizing a non-zero vector gives a unit vector. */
  lemma NormalizeIsUnit(v: Vec3, sqrt: Root)
    requires IsRoot(sqrt)
    requires v != Origin
    ensures Dot(Normalize(v, sqrt), Normalize(v, sqrt)) == 1.0
  {
    LengthZeroIffOrigin(v, sqrt);
    var len := Length(v, sqrt);
    assert len > 0.0 && len * len == Dot(v, v);
    var i := 1.0 / len;
    assert i * len == 1.0;
    DotScaleScale(v, i);
    assert (len * len) * (i * i) == (i * len) * (i * len);
  }

  lemma DotSubScale(v: Vec3, n: Vec3, k: real)
    ensures Dot(Sub(v, Scale(n, k)), n) == Dot(v, n) - k * Dot(n, n)
  {
    assert (v.x - n.x * k) * n.x == v.x * n.x - k * (n.x * n.x);
    assert (v.y - n.y * k) * n.y == v.y * n.y - k * (n.y * n.y);
    assert (v.z - n.z * k) * n.z == v.z * n.z - k * (n.z * n.z);
  }

  lemma DotSelfSubScale(v: Vec3, n: Vec3, k: real)
    ensures Dot(Sub(v, Scale(n, k)), Sub(v, Scale(n, k)))
         == Dot(v, v) - 2.0 * k * Dot(v, n) + k * k * Dot(n, n)
  {
    assert (v.x - n.x * k) * (v.x - n.x * k) == v.x * v.x - 2.0 * k * (v.x * n.x) + k * k * (n.x * n.x);
    assert (v.y - n.y * k) * (v.y - n.y * k) == v.y * v.y - 2.0 * k * (v.y * n.y) + k * k * (n.y * n.y);
    assert (v.z - n.z * k) * (v.z - n.z * k) == v.z * v.z - 2.0 * k * (v.z * n.z) + k * k * (n.z * n.z);
  }

  /** Reflecting twice in a unit normal gives back the original vector. */
  lemma ReflectTwice(v: Vec3, n: Vec3)
    requires Dot(n, n) == 1.0
    ensures Reflect(Reflect(v, n), n) == v
  {
    var d := Dot(v, n);
    var r := Reflect(v, n);
    DotSubScale(v, n, 2.0 * d);
    assert Dot(r, n) == -d;
    assert Reflect(r, n) == Sub(r, Scale(n, -2.0 * d));
  }

  /** Reflection in a unit normal keeps the length of a vector. */
  lemma ReflectKeepsLength(v: Vec3, n: Vec3)
    requires Dot(n, n) == 1.0
    ensures Dot(Reflect(v, n), Reflect(v, n)) == Dot(v, v)
  {
    var d := Dot(v, n);
    DotSelfSubScale(v, n, 2.0 * d);
    assert 2.0 * (2.0 * d) * d == (2.0 * d) * (2.0 * d) * 1.0;
  }
}
