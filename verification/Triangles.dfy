/**
 What the polygon tests mean in the plane: in a triangle they are the three half-plane tests, and in any polygon
 they count, modulo two, the triangles of a fan.
 */
module Triangles {
  import opened Geometry

  /** Positive where `p` lies to the left of the directed line from `a` to `b`, negative to the right. */
  function Turn(a: Point, b: Point, p: Point): real {
    (b.x - a.x) * (p.y - a.y) - (b.y - a.y) * (p.x - a.x)
  }

  lemma TurnIsCross(a: Point, b: Point, p: Point)
    ensures Turn(a, b, p) == -Cross(p, a, b) == Cross(p, b, a)
  {
    FlipNegatesCross(p, a, b);
  }

  lemma LessThanQuotient(x: real, n: real, d: real)
    requires d > 0.0
    ensures x < n / d <==> x * d < n
  {
    var q := n / d;
    assert q * d == n;
    if x < q {
      assert (q - x) * d > 0.0;
    } else {
      assert (x - q) * d >= 0.0;
    }
  }

  lemma LessThanNegative(x: real, n: real, d: real)
    requires d < 0.0
    ensures x < n / d <==> x * d > n
  {
    var q := n / d;
    assert q * d == n;
    if x < q {
      assert (q - x) * (-d) > 0.0;
    } else {
      assert (x - q) * (-d) >= 0.0;
    }
  }

  /** The ray meets a straddling edge exactly if the point is to the left of it going up, or to the right going down. */
  lemma CrossesBySide(p: Point, e: Edge)
    requires Straddles(p, e)
    ensures Crosses(p, e) <==> if e.to.y > p.y then Turn(e.from, e.to, p) > 0.0 else Turn(e.from, e.to, p) < 0.0
  {
    var a, b := e.from, e.to;
    TurnIsCross(a, b, p);
    var x, n, d := p.x - b.x, (a.x - b.x) * (p.y - b.y), a.y - b.y;
    assert Cross(p, b, a) == x * d - n;
    if d > 0.0 {
      LessThanQuotient(x, n, d);
    } else {
      LessThanNegative(x, n, d);
    }
  }

  /** A point on the line of a straddling edge is on the edge. */
  lemma StraddledOrOff(p: Point, e: Edge)
    requires Straddles(p, e) && !OnSegment(p, e)
    ensures Turn(e.from, e.to, p) != 0.0
  {
    var a, b := e.from, e.to;
    TurnIsCross(a, b, p);
    if Turn(a, b, p) == 0.0 {
      BetweenOnLine(p, a, b);
    }
  }

  lemma BetweenOnLine(p: Point, a: Point, b: Point)
    requires Straddles(p, Edge(a, b)) && Cross(p, a, b) == 0.0
    ensures InBox(p, a, b)
  {
    var s, v, t, u := p.x - a.x, b.y - a.y, p.y - a.y, b.x - a.x;
    assert s * v == t * u;
    if v > 0.0 {
      assert 0.0 <= t <= v;
      Proportion(s, v, t, u);
    } else {
      assert 0.0 <= -t <= -v;
      assert s * (-v) == (-t) * u;
      Proportion(s, -v, -t, u);
    }
  }

  lemma Proportion(s: real, v: real, t: real, u: real)
    requires v > 0.0 && 0.0 <= t <= v && s * v == t * u
    ensures if u >= 0.0 then 0.0 <= s <= u else u <= s <= 0.0
  {
    if u >= 0.0 {
      assert t * u >= 0.0 && (v - t) * u >= 0.0;
      assert (u - s) * v == (v - t) * u;
      SignOf(s, v);
      SignOf(u - s, v);
    } else {
      assert t * (-u) >= 0.0 && (v - t) * (-u) >= 0.0;
      assert (s - u) * v == (v - t) * (-u);
      assert (-s) * v == t * (-u);
      SignOf(-s, v);
      SignOf(s - u, v);
    }
  }

  lemma SignOf(x: real, v: real)
    requires v > 0.0 && x * v >= 0.0
    ensures x >= 0.0
  {
    assert x < 0.0 ==> (-x) * v > 0.0;
  }

  // ----- A triangle -----

  lemma Shifted(a: Point, b: Point, p: Point)
    ensures Turn(a, b, p) == (a.x - p.x) * (b.y - p.y) - (a.y - p.y) * (b.x - p.x)
  {
    var s, t, u, v := a.x - p.x, a.y - p.y, b.x - p.x, b.y - p.y;
    assert b.x - a.x == u - s && p.y - a.y == -t && b.y - a.y == v - t && p.x - a.x == -s;
    assert (u - s) * (-t) - (v - t) * (-s) == s * v - t * u;
  }

  lemma Balance(s: real, t: real, u: real, v: real, x: real, y: real)
    ensures (s * v - t * u) * y + (u * y - v * x) * t + (x * t - y * s) * v == 0.0
  {
    assert (s * v - t * u) * y == s * v * y - t * u * y;
    assert (u * y - v * x) * t == t * u * y - t * v * x;
    assert (x * t - y * s) * v == t * v * x - s * v * y;
  }

  /** The three turns at a point add up to the triangle's own, and balance its corners' heights. */
  lemma TurnsOf(a: Point, b: Point, c: Point, p: Point)
    ensures Turn(a, b, p) + Turn(b, c, p) + Turn(c, a, p) == Turn(a, b, c)
    ensures Turn(a, b, p) * (c.y - p.y) + Turn(b, c, p) * (a.y - p.y) + Turn(c, a, p) * (b.y - p.y) == 0.0
  {
    Shifted(a, b, p);
    Shifted(b, c, p);
    Shifted(c, a, p);
    var s, t, u, v, x, y := a.x - p.x, a.y - p.y, b.x - p.x, b.y - p.y, c.x - p.x, c.y - p.y;
    Balance(s, t, u, v, x, y);
    assert b.x - a.x == u - s && c.y - a.y == y - t && b.y - a.y == v - t && c.x - a.x == x - s;
    assert (u - s) * (y - t) - (v - t) * (x - s)
        == (s * v - t * u) + (u * y - v * x) + (x * t - y * s);
  }

  /** One corner above the point, the other two not, and the point off the edges. */
  lemma CornerAbove(a: Point, b: Point, c: Point, p: Point)
    requires Turn(a, b, c) > 0.0 && a.y > p.y && b.y <= p.y && c.y <= p.y
    requires !OnSegment(p, Edge(a, b)) && !OnSegment(p, Edge(b, c)) && !OnSegment(p, Edge(c, a))
    ensures (Turn(a, b, p) < 0.0) != (Turn(c, a, p) > 0.0) <==>
      Turn(a, b, p) > 0.0 && Turn(b, c, p) > 0.0 && Turn(c, a, p) > 0.0
  {
    var t1, t2, t3 := Turn(a, b, p), Turn(b, c, p), Turn(c, a, p);
    StraddledOrOff(p, Edge(a, b));
    StraddledOrOff(p, Edge(c, a));
    TurnsOf(a, b, c, p);
    Opposite(t1, t2, t3, a.y - p.y, p.y - b.y, p.y - c.y);
    if t1 > 0.0 && t3 > 0.0 && t2 <= 0.0 {
      LevelEdge(a, b, c, p);
    }
  }

  /** If the side turns agree, the third does, but for a third of 0 where the far corners are level with the point. */
  lemma Opposite(t1: real, t2: real, t3: real, up: real, down: real, low: real)
    requires up > 0.0 && down >= 0.0 && low >= 0.0 && t1 * (-low) + t2 * up + t3 * (-down) == 0.0
    ensures t1 > 0.0 && t3 > 0.0 ==> t2 > 0.0 || (t2 == 0.0 && down == 0.0 && low == 0.0)
    ensures t1 < 0.0 && t3 < 0.0 ==> t2 <= 0.0
  {
    assert t2 * up == t1 * low + t3 * down;
    if t1 > 0.0 && t3 > 0.0 {
      assert t1 * low >= 0.0 && t3 * down >= 0.0;
      SignOf(t2, up);
      assert low > 0.0 ==> t1 * low > 0.0;
      assert down > 0.0 ==> t3 * down > 0.0;
      assert t2 == 0.0 ==> t2 * up == 0.0;
    }
    if t1 < 0.0 && t3 < 0.0 {
      assert (-t1) * low >= 0.0 && (-t3) * down >= 0.0;
      SignOf(-t2, up);
    }
  }

  /** Between the sides and level with the far edge is on that edge. */
  lemma LevelEdge(a: Point, b: Point, c: Point, p: Point)
    requires a.y > p.y && b.y == p.y && c.y == p.y && Turn(a, b, p) > 0.0 && Turn(c, a, p) > 0.0
    ensures OnSegment(p, Edge(b, c))
  {
    Shifted(a, b, p);
    Shifted(c, a, p);
    var up := a.y - p.y;
    assert Turn(a, b, p) == -(up * (b.x - p.x));
    assert Turn(c, a, p) == (c.x - p.x) * up;
    assert b.x - p.x >= 0.0 ==> up * (b.x - p.x) >= 0.0;
    assert c.x - p.x <= 0.0 ==> (p.x - c.x) * up >= 0.0;
    assert Cross(p, b, c) == 0.0;
  }

  /** One corner not above the point, the other two above it. */
  lemma CornerBelow(a: Point, b: Point, c: Point, p: Point)
    requires Turn(a, b, c) > 0.0 && a.y <= p.y && b.y > p.y && c.y > p.y
    requires !OnSegment(p, Edge(a, b)) && !OnSegment(p, Edge(c, a))
    ensures (Turn(a, b, p) > 0.0) != (Turn(c, a, p) < 0.0) <==>
      Turn(a, b, p) > 0.0 && Turn(b, c, p) > 0.0 && Turn(c, a, p) > 0.0
  {
    var t1, t2, t3 := Turn(a, b, p), Turn(b, c, p), Turn(c, a, p);
    StraddledOrOff(p, Edge(a, b));
    StraddledOrOff(p, Edge(c, a));
    TurnsOf(a, b, c, p);
    Supported(t1, t2, t3, p.y - a.y, b.y - p.y, c.y - p.y);
  }

  lemma Supported(t1: real, t2: real, t3: real, down: real, up: real, high: real)
    requires down >= 0.0 && up > 0.0 && high > 0.0 && t1 * high + t2 * (-down) + t3 * up == 0.0
    ensures t1 > 0.0 && t3 > 0.0 ==> t2 > 0.0
    ensures t1 < 0.0 && t3 < 0.0 ==> t2 < 0.0
  {
    assert t2 * down == t1 * high + t3 * up;
    if t1 > 0.0 && t3 > 0.0 {
      assert t1 * high > 0.0 && t3 * up > 0.0;
      assert t2 <= 0.0 ==> (-t2) * down >= 0.0;
    }
    if t1 < 0.0 && t3 < 0.0 {
      assert (-t1) * high > 0.0 && (-t3) * up > 0.0;
      assert t2 >= 0.0 ==> t2 * down >= 0.0;
    }
  }

  /** With all corners on one side of the point's level, the point is not to the left of all edges. */
  lemma AllOneSide(a: Point, b: Point, c: Point, p: Point)
    requires Turn(a, b, c) > 0.0
    requires (a.y > p.y && b.y > p.y && c.y > p.y) || (a.y <= p.y && b.y <= p.y && c.y <= p.y)
    ensures !(Turn(a, b, p) > 0.0 && Turn(b, c, p) > 0.0 && Turn(c, a, p) > 0.0)
  {
    var t1, t2, t3 := Turn(a, b, p), Turn(b, c, p), Turn(c, a, p);
    TurnsOf(a, b, c, p);
    if t1 > 0.0 && t2 > 0.0 && t3 > 0.0 {
      if a.y > p.y {
        AllPositive(t1, t2, t3, c.y - p.y, a.y - p.y, b.y - p.y);
      } else {
        AllPositive(t1, t2, t3, p.y - c.y, p.y - a.y, p.y - b.y);
      }
      assert false;
    }
  }

  lemma AllPositive(t1: real, t2: real, t3: real, x: real, y: real, z: real)
    requires t1 > 0.0 && t2 > 0.0 && t3 > 0.0 && x >= 0.0 && y >= 0.0 && z >= 0.0
    requires t1 * x + t2 * y + t3 * z == 0.0
    ensures x == 0.0 && y == 0.0 && z == 0.0
  {
    assert t1 * x >= 0.0 && t2 * y >= 0.0 && t3 * z >= 0.0;
    assert x > 0.0 ==> t1 * x > 0.0;
    assert y > 0.0 ==> t2 * y > 0.0;
    assert z > 0.0 ==> t3 * z > 0.0;
  }

  function Corners(a: Point, b: Point, c: Point): seq<Point> {
    [a, b, c]
  }

  function Count(crossed: bool): nat {
    if crossed then 1 else 0
  }

  lemma TriangleEdges(a: Point, b: Point, c: Point, p: Point)
    ensures Edges(Corners(a, b, c)) == [Edge(c, a), Edge(a, b), Edge(b, c)]
    ensures OnBoundary(p, Edges(Corners(a, b, c))) <==>
      OnSegment(p, Edge(a, b)) || OnSegment(p, Edge(b, c)) || OnSegment(p, Edge(c, a))
    ensures Crossings(p, Edges(Corners(a, b, c))) ==
      Count(Crosses(p, Edge(c, a))) + Count(Crosses(p, Edge(a, b))) + Count(Crosses(p, Edge(b, c)))
  {
    hide Crosses, OnSegment;
    var es := Edges(Corners(a, b, c));
    assert es == [Edge(c, a), Edge(a, b), Edge(b, c)];
    CrossingsStep(p, es, 0);
    CrossingsStep(p, es, 1);
    CrossingsStep(p, es, 2);
    assert es[..3] == es && es[..0] == [];
  }

  /** The point is to the left of all three edges. */
  predicate LeftOfAll(p: Point, a: Point, b: Point, c: Point) {
    Turn(a, b, p) > 0.0 && Turn(b, c, p) > 0.0 && Turn(c, a, p) > 0.0
  }

  lemma OddCount(x: bool, y: bool)
    ensures (Count(x) + Count(y)) % 2 == 1 <==> x != y
  {
  }

  /** The parity of the crossings, with the corner that is alone on its side of the point's level named first. */
  lemma LoneCorner(a: Point, b: Point, c: Point, p: Point)
    requires Turn(a, b, c) > 0.0 && (a.y > p.y) != (b.y > p.y) && (b.y > p.y) == (c.y > p.y)
    requires !OnSegment(p, Edge(a, b)) && !OnSegment(p, Edge(b, c)) && !OnSegment(p, Edge(c, a))
    ensures (Count(Crosses(p, Edge(c, a))) + Count(Crosses(p, Edge(a, b))) + Count(Crosses(p, Edge(b, c)))) % 2 == 1
            <==> LeftOfAll(p, a, b, c)
  {
    hide Turn, OnSegment, CrossingX;
    CrossesBySide(p, Edge(a, b));
    CrossesBySide(p, Edge(c, a));
    OddCount(Crosses(p, Edge(c, a)), Crosses(p, Edge(a, b)));
    if a.y > p.y {
      CornerAbove(a, b, c, p);
    } else {
      CornerBelow(a, b, c, p);
    }
  }

  lemma TurnRotates(a: Point, b: Point, c: Point)
    ensures Turn(b, c, a) == Turn(a, b, c) == Turn(c, a, b)
  {
    Shifted(a, b, c);
    Shifted(c, a, b);
    Shifted(b, c, a);
    var s, t, u, v := a.x - c.x, a.y - c.y, b.x - c.x, b.y - c.y;
    assert c.x - b.x == -u && a.y - b.y == t - v && c.y - b.y == -v && a.x - b.x == s - u;
    assert (-u) * (t - v) - (-v) * (s - u) == s * v - t * u;
    assert b.x - a.x == u - s && c.y - a.y == -t && b.y - a.y == v - t && c.x - a.x == -s;
    assert (u - s) * (-t) - (v - t) * (-s) == s * v - t * u;
  }

  /** Off its boundary, a point is in a counter-clockwise triangle exactly if it is to the left of all three edges. */
  lemma LeftTriangle(a: Point, b: Point, c: Point, p: Point)
    requires Turn(a, b, c) > 0.0 && !OnBoundary(p, Edges(Corners(a, b, c)))
    ensures InPolygon(p, Corners(a, b, c)) <==> LeftOfAll(p, a, b, c)
  {
    TriangleEdges(a, b, c, p);
    TurnRotates(a, b, c);
    hide Turn, OnSegment, CrossingX, OnBoundary, Crossings, Edges;
    if (a.y > p.y) != (b.y > p.y) && (b.y > p.y) == (c.y > p.y) {
      LoneCorner(a, b, c, p);
    } else if (b.y > p.y) != (c.y > p.y) && (c.y > p.y) == (a.y > p.y) {
      LoneCorner(b, c, a, p);
    } else if (c.y > p.y) != (a.y > p.y) && (a.y > p.y) == (b.y > p.y) {
      LoneCorner(c, a, b, p);
    } else {
      AllOneSide(a, b, c, p);
    }
  }

  lemma TurnReverses(a: Point, b: Point, p: Point)
    ensures Turn(b, a, p) == -Turn(a, b, p)
  {
    TurnIsCross(a, b, p);
    TurnIsCross(b, a, p);
  }

  /**
   Off its boundary, a point is in a triangle exactly if it is on the same side of all three edges as the triangle
   is, whichever way its corners are listed.
   */
  lemma TriangleMeans(a: Point, b: Point, c: Point, p: Point)
    requires Turn(a, b, c) != 0.0 && !OnBoundary(p, Edges(Corners(a, b, c)))
    ensures InPolygon(p, Corners(a, b, c)) <==>
      if Turn(a, b, c) > 0.0 then Turn(a, b, p) > 0.0 && Turn(b, c, p) > 0.0 && Turn(c, a, p) > 0.0
      else Turn(a, b, p) < 0.0 && Turn(b, c, p) < 0.0 && Turn(c, a, p) < 0.0
  {
    hide Turn, OnSegment, Crosses, Crossings, Edges;
    if Turn(a, b, c) > 0.0 {
      LeftTriangle(a, b, c, p);
    } else {
      assert Reversed(Corners(a, b, c)) == Corners(c, b, a);
      ReversalInvariant(p, Corners(a, b, c));
      TurnReverses(a, b, c);
      TurnRotates(b, a, c);
      TurnReverses(a, b, p);
      TurnReverses(b, c, p);
      TurnReverses(c, a, p);
      BackBoundary(a, b, c, p);
      LeftTriangle(c, b, a, p);
    }
  }

  lemma BackBoundary(a: Point, b: Point, c: Point, p: Point)
    ensures OnBoundary(p, Edges(Corners(c, b, a))) == OnBoundary(p, Edges(Corners(a, b, c)))
  {
    hide OnSegment, Crosses, OnBoundary, Edges;
    TriangleEdges(a, b, c, p);
    TriangleEdges(c, b, a, p);
    FlipSymmetric(p, Edge(a, b));
    FlipSymmetric(p, Edge(b, c));
    FlipSymmetric(p, Edge(c, a));
  }

  // ----- Any polygon -----

  /** How many triangles of the fan at the first corner are crossed an odd number of times. */
  function OddTriangles(p: Point, points: seq<Point>, n: nat): nat
    requires 2 <= n <= |points|
  {
    if n == 2 then 0
    else
      OddTriangles(p, points, n - 1)
      + Count(Crossings(p, Edges(Corners(points[0], points[n - 2], points[n - 1]))) % 2 == 1)
  }

  lemma OpenEdges(p: Point, points: seq<Point>, n: nat)
    requires 2 <= n < |points|
    ensures Crossings(p, Edges(points[..n + 1])) + 2 * Count(Crosses(p, Edge(points[0], points[n - 1])))
      == Crossings(p, Edges(points[..n])) + Crossings(p, Edges(Corners(points[0], points[n - 1], points[n])))
  {
    hide Crosses;
    var few, more := Edges(points[..n]), Edges(points[..n + 1]);
    var a, b, c := points[0], points[n - 1], points[n];
    assert few == [Edge(b, a)] + few[1..] && more == [Edge(c, a)] + few[1..] + [Edge(b, c)];
    CrossingsConcat(p, [Edge(b, a)], few[1..]);
    CrossingsConcat(p, [Edge(c, a)] + few[1..], [Edge(b, c)]);
    CrossingsConcat(p, [Edge(c, a)], few[1..]);
    OneCrossing(p, Edge(b, a));
    OneCrossing(p, Edge(c, a));
    OneCrossing(p, Edge(b, c));
    TriangleEdges(a, b, c, p);
    FlipSymmetric(p, Edge(a, b));
  }

  lemma OneCrossing(p: Point, e: Edge)
    ensures Crossings(p, [e]) == Count(Crosses(p, e))
  {
    hide Crosses;
    assert [e][..0] == [];
  }

  lemma Parity(more: nat, few: nat, triangle: nat, twice: nat, odd: nat)
    requires more + 2 * twice == few + triangle && few % 2 == odd % 2
    ensures more % 2 == (odd + Count(triangle % 2 == 1)) % 2
  {
  }

  lemma TwoCorners(p: Point, points: seq<Point>)
    requires |points| >= 2
    ensures Crossings(p, Edges(points[..2])) % 2 == 0
  {
    hide Crosses;
    var back, forth := Edge(points[1], points[0]), Edge(points[0], points[1]);
    assert Edges(points[..2]) == [back] + [forth];
    CrossingsConcat(p, [back], [forth]);
    OneCrossing(p, back);
    OneCrossing(p, forth);
    FlipSymmetric(p, forth);
  }

  lemma {:induction false} FanParity(p: Point, points: seq<Point>, n: nat)
    requires 2 <= n <= |points|
    ensures Crossings(p, Edges(points[..n])) % 2 == OddTriangles(p, points, n) % 2
  {
    hide Crosses, Crossings, Edges;
    if n == 2 {
      TwoCorners(p, points);
    } else {
      FanParity(p, points, n - 1);
      OpenEdges(p, points, n - 1);
      Parity(Crossings(p, Edges(points[..n])), Crossings(p, Edges(points[..n - 1])),
             Crossings(p, Edges(Corners(points[0], points[n - 2], points[n - 1]))),
             Count(Crosses(p, Edge(points[0], points[n - 2]))), OddTriangles(p, points, n - 1));
    }
  }

  /** The point is in the `k`-th triangle of the fan at the first corner. */
  predicate InFan(p: Point, points: seq<Point>, k: nat)
    requires k < |points|
  {
    2 <= k && InPolygon(p, Corners(points[0], points[k - 1], points[k]))
  }

  /** The point is off the sides of the first triangles of the fan. */
  ghost predicate OffFan(p: Point, points: seq<Point>, n: nat)
    requires n <= |points|
  {
    forall k :: 2 <= k < n ==> !OnFan(p, points, k)
  }

  predicate OnFan(p: Point, points: seq<Point>, k: nat)
    requires k < |points|
  {
    2 <= k && OnBoundary(p, Edges(Corners(points[0], points[k - 1], points[k])))
  }

  ghost function Around(p: Point, points: seq<Point>, n: nat): set<nat>
    requires n <= |points|
  {
    set k | 0 <= k < n && InFan(p, points, k)
  }

  lemma {:induction false} FanCounted(p: Point, points: seq<Point>, n: nat)
    requires 2 <= n <= |points| && OffFan(p, points, n)
    ensures OddTriangles(p, points, n) == |Around(p, points, n)|
  {
    hide Edges, Crossings, OnBoundary, Around;
    if n == 2 {
      NoneAround(p, points);
    } else {
      FanCounted(p, points, n - 1);
      assert !OnFan(p, points, n - 1);
      AroundGrows(p, points, n);
    }
  }

  lemma NoneAround(p: Point, points: seq<Point>)
    requires |points| >= 2
    ensures |Around(p, points, 2)| == 0
  {
    assert Around(p, points, 2) == {};
  }

  lemma AroundGrows(p: Point, points: seq<Point>, n: nat)
    requires 0 < n <= |points|
    ensures |Around(p, points, n)| == |Around(p, points, n - 1)| + if InFan(p, points, n - 1) then 1 else 0
  {
    hide InFan;
    assert Around(p, points, n) == Around(p, points, n - 1) + if InFan(p, points, n - 1) then {n - 1} else {};
  }

  lemma BoundaryOnFan(p: Point, points: seq<Point>, e: Edge)
    requires |points| >= 3 && OffFan(p, points, |points|) && e in Edges(points)
    ensures !OnSegment(p, e)
  {
    hide OnSegment, Edges, OnBoundary;
    var i := EdgeAt(points, e);
    var k := if i <= 1 then 2 else i;
    if i == 0 {
      k := |points| - 1;
    }
    assert !OnFan(p, points, k);
    TriangleEdges(points[0], points[k - 1], points[k], p);
  }

  lemma EdgeAt(points: seq<Point>, e: Edge) returns (i: nat)
    requires e in Edges(points)
    ensures i < |points| && e == Edge(if i == 0 then points[|points| - 1] else points[i - 1], points[i])
  {
    i :| 0 <= i < |points| && Edges(points)[i] == e;
  }

  /**
   In any polygon, convex or not: off the sides of the fan at its first corner, a point is inside exactly if it is
   in an odd number of the fan's triangles.
   */
  lemma FanMeans(p: Point, points: seq<Point>)
    requires |points| >= 3 && OffFan(p, points, |points|)
    ensures InPolygon(p, points) <==> |Around(p, points, |points|)| % 2 == 1
  {
    hide Edges, Crossings, OnSegment, Around, OffFan;
    FanCounted(p, points, |points|);
    FanParity(p, points, |points|);
    assert points[..|points|] == points;
    forall e | e in Edges(points) ensures !OnSegment(p, e) {
      BoundaryOnFan(p, points, e);
    }
  }
}
