/** src/position.cpp: where everybody lives, how far apart, and how long the road takes. */
module Position {
  import opened Basics

  const SIDE := 100000
  const IDS := SIDE * SIDE
  const SHORTEST := 5

  datatype Point = Point(x: int, y: int)

  /** coordinates_of. The two remainders of the source make up for its truncating division: here one is enough. */
  function CoordinatesOf(id: int): Point {
    var place := id % IDS;
    Point(place % SIDE, place / SIDE)
  }

  predicate OnPlane(p: Point) {
    0 <= p.x < SIDE && 0 <= p.y < SIDE
  }

  function IdOf(p: Point): int {
    p.x + p.y * SIDE
  }

  /** The ids spell out the points of the square, each exactly once. */
  lemma Bijection(id: int, p: Point)
    requires 0 <= id < IDS
    ensures OnPlane(CoordinatesOf(id))
    ensures IdOf(CoordinatesOf(id)) == id
    ensures OnPlane(p) ==> 0 <= IdOf(p) < IDS && CoordinatesOf(IdOf(p)) == p
  {
  }

  function Squared(a: Point, b: Point): nat {
    (a.x - b.x) * (a.x - b.x) + (a.y - b.y) * (a.y - b.y)
  }

  lemma Doubled(h: int)
    ensures (2 * h) * (2 * h) == 4 * (h * h)
    ensures (2 * h + 1) * (2 * h + 1) == 4 * (h * h) + 4 * h + 1
    ensures (h + 1) * (h + 1) == h * h + 2 * h + 1
  {
  }

  lemma RootStep(n: nat, half: nat)
    requires half * half <= n / 4 < (half + 1) * (half + 1)
    ensures var r := if (2 * half + 1) * (2 * half + 1) <= n then 2 * half + 1 else 2 * half;
            r * r <= n < (r + 1) * (r + 1)
  {
    Doubled(half);
    Doubled(half + 1);
    assert 2 * half + 2 == 2 * (half + 1);
  }

  /** The integer square root, rounded down. */
  function Root(n: nat): (r: nat)
    ensures r * r <= n < (r + 1) * (r + 1)
  {
    if n == 0 then 0 else
    var half := Root(n / 4);
    RootStep(n, half);
    if (2 * half + 1) * (2 * half + 1) <= n then 2 * half + 1 else 2 * half
  }

  /** The root rounded to the nearest integer: the radicand is an integer, so there is no tie. */
  function Rounded(n: nat): nat {
    if n > Root(n) * Root(n) + Root(n) then Root(n) + 1 else Root(n)
  }

  /** std::llround(std::hypot(width, height)). */
  function Distance(a: Point, b: Point): nat {
    Rounded(Squared(a, b))
  }

  /** The integer nearest to the root, and the only one. */
  lemma Nearest(n: nat, d: nat)
    ensures Rounded(n) == d <==> 4 * n < (2 * d + 1) * (2 * d + 1) && (d > 0 ==> (2 * d - 1) * (2 * d - 1) < 4 * n)
  {
    var e := Rounded(n);
    var r := Root(n);
    Doubled(r);
    Doubled(e);
    Doubled(e - 1);
    assert 4 * n < (2 * e + 1) * (2 * e + 1) && (e > 0 ==> (2 * e - 1) * (2 * e - 1) < 4 * n);
    if d > e {
      Ordered(2 * e + 1, 2 * d - 1);
    } else if d < e {
      Ordered(2 * d + 1, 2 * e - 1);
    }
  }

  lemma Ordered(a: nat, b: nat)
    requires a <= b
    ensures a * a <= b * b
  {
    assert a * a <= a * b <= b * b;
  }

  lemma OrderedStrictly(a: nat, b: nat)
    requires a < b
    ensures a * a < b * b
  {
    Ordered(a + 1, b);
    Doubled(a);
  }

  lemma OrderedBack(a: int, b: nat)
    requires a * a <= b * b
    ensures a <= b
  {
    if a > b {
      OrderedStrictly(b, a);
    }
  }

  lemma Symmetric(a: Point, b: Point)
    ensures Distance(a, b) == Distance(b, a)
  {
    var x, y := a.x - b.x, a.y - b.y;
    assert x * x == (-x) * (-x) && y * y == (-y) * (-y);
  }

  lemma SquareOf(x: int)
    ensures x * x >= 0
    ensures x != 0 ==> x * x >= 1
  {
    if x > 0 {
      assert x * x >= x * 1;
    } else if x < 0 {
      assert (-x) * (-x) >= (-x) * 1;
    }
  }

  /** Only neighbours on the same spot are no distance apart. */
  lemma Apart(a: Point, b: Point)
    ensures Distance(a, b) == 0 <==> a == b
  {
    SquareOf(a.x - b.x);
    SquareOf(a.y - b.y);
    Nearest(Squared(a, b), 0);
  }

  lemma SquareWithin(x: int, side: int)
    requires 0 <= side && -side <= x <= side
    ensures x * x <= side * side
  {
    if x < 0 {
      Ordered(-x, side);
      assert x * x == (-x) * (-x);
    } else {
      Ordered(x, side);
    }
  }

  /** What is not more than a square has no larger root. */
  lemma RootWithin(n: nat, most: nat)
    requires n <= most * most
    ensures Rounded(n) <= most
  {
    hide Rounded;
    var d: int := Rounded(n);
    Nearest(n, d);
    Doubled(most);
    if d > 0 {
      OrderedBack(2 * d - 1, 2 * most);
    }
  }

  lemma Farthest(a: Point, b: Point)
    requires OnPlane(a) && OnPlane(b)
    ensures Distance(a, b) <= 141420
  {
    hide Rounded;
    SquareWithin(a.x - b.x, SIDE - 1);
    SquareWithin(a.y - b.y, SIDE - 1);
    RootWithin(Squared(a, b), 141420);
  }

  lemma SumSquared(a: int, b: int)
    ensures (a + b) * (a + b) == a * a + 2 * (a * b) + b * b
  {
  }

  lemma ProductSquared(a: int, b: int)
    ensures (a * b) * (a * b) == (a * a) * (b * b)
  {
    assert (a * b) * (a * b) == a * (b * (a * b)) == a * (a * (b * b));
  }

  lemma Crossed(x: int, y: int, u: int, v: int)
    ensures (x * u) * (y * v) == (x * v) * (y * u)
  {
    assert (x * u) * (y * v) == x * (u * (y * v)) == x * (v * (y * u));
  }

  lemma ProductOrder(a: nat, b: nat, c: nat, d: nat)
    requires a <= c && b <= d
    ensures a * b <= c * d
  {
    assert a * b <= c * b <= c * d;
  }

  lemma Expanded(a: int, b: int, c: int, d: int)
    ensures (a + b) * (c + d) == a * c + a * d + b * c + b * d
  {
  }

  lemma Lagrange(x: int, y: int, u: int, v: int)
    ensures (x * u + y * v) * (x * u + y * v) + (x * v - y * u) * (x * v - y * u) == (x * x + y * y) * (u * u + v * v)
  {
    SumSquared(x * u, y * v);
    SumSquared(x * v, -(y * u));
    assert (x * v) * -(y * u) == -((x * v) * (y * u)) && (-(y * u)) * (-(y * u)) == (y * u) * (y * u);
    Crossed(x, y, u, v);
    ProductSquared(x, u); ProductSquared(y, v); ProductSquared(x, v); ProductSquared(y, u);
    Expanded(x * x, y * y, u * u, v * v);
  }

  /** The inner product of two roads is at most the product of their lengths. */
  lemma Cauchy(x: int, y: int, u: int, v: int, p: nat, q: nat)
    requires x * x + y * y <= p * p
    requires u * u + v * v <= q * q
    ensures x * u + y * v <= p * q
  {
    var inner, cross := x * u + y * v, x * v - y * u;
    SquareOf(x); SquareOf(y); SquareOf(u); SquareOf(v);
    Lagrange(x, y, u, v);
    SquareOf(cross);
    ProductOrder(x * x + y * y, u * u + v * v, p * p, q * q);
    ProductSquared(p, q);
    OrderedBack(inner, p * q);
  }

  /** The third side of a triangle whose other two are at most p and q is at most p + q. */
  lemma ThirdSide(x: int, y: int, u: int, v: int, p: nat, q: nat)
    requires x * x + y * y <= p * p
    requires u * u + v * v <= q * q
    ensures (x + u) * (x + u) + (y + v) * (y + v) <= (p + q) * (p + q)
  {
    Cauchy(x, y, u, v, p, q);
    SumSquared(x, u);
    SumSquared(y, v);
    SumSquared(p, q);
  }

  /** A detour is never shorter than the road by more than the rounding: one unit. */
  lemma Triangle(a: Point, b: Point, c: Point)
    ensures Distance(a, c) <= Distance(a, b) + Distance(b, c) + 1
  {
    // The two roads are at most p and q half units long, the third at most p + q of them.
    var p, q := 2 * Distance(a, b) + 1, 2 * Distance(b, c) + 1;
    var x, y, u, v := 2 * (a.x - b.x), 2 * (a.y - b.y), 2 * (b.x - c.x), 2 * (b.y - c.y);
    assert x * x + y * y <= p * p by { Doubled(a.x - b.x); Doubled(a.y - b.y); Nearest(Squared(a, b), Distance(a, b)); }
    assert u * u + v * v <= q * q by { Doubled(b.x - c.x); Doubled(b.y - c.y); Nearest(Squared(b, c), Distance(b, c)); }
    ThirdSide(x, y, u, v, p, q);
    assert 4 * Squared(a, c) <= (p + q) * (p + q) by {
      Doubled(a.x - c.x);
      Doubled(a.y - c.y);
      assert x + u == 2 * (a.x - c.x) && y + v == 2 * (a.y - c.y);
    }
    var d := Distance(a, c);
    if d > 0 {
      Nearest(Squared(a, c), d);
      OrderedBack(2 * d - 1, p + q);
    }
  }

  /** travel_seconds. */
  function TravelSeconds(distance: nat, divisor: int): (seconds: int)
    ensures seconds >= SHORTEST
  {
    if divisor <= 0 then SHORTEST else Max(SHORTEST, distance / divisor)
  }
}
