/**
 The two boundary-inclusive even-odd polygon tests (`source_aoi.py` and `v2_aoi.py`), over exact
 reals. Both loops are proved against one declarative test on the cyclic list of edges.
 */
module Geometry {
  import opened Common

  datatype Point = Point(x: real, y: real)

  datatype Edge = Edge(from: Point, to: Point) {
    function Flip(): Edge { Edge(to, from) }
  }

  const EPSILON := 0.000000001

  function Cross(p: Point, a: Point, b: Point): real {
    (p.x - a.x) * (b.y - a.y) - (p.y - a.y) * (b.x - a.x)
  }

  function CrossV2(p: Point, a: Point, b: Point): real {
    (p.y - a.y) * (b.x - a.x) - (p.x - a.x) * (b.y - a.y)
  }

  predicate InBox(p: Point, a: Point, b: Point) {
    && RealMin(a.x, b.x) - EPSILON <= p.x <= RealMax(a.x, b.x) + EPSILON
    && RealMin(a.y, b.y) - EPSILON <= p.y <= RealMax(a.y, b.y) + EPSILON
  }

  /** `source_aoi._point_is_on_segment` */
  predicate OnSegment(p: Point, e: Edge) {
    Abs(Cross(p, e.from, e.to)) <= EPSILON && InBox(p, e.from, e.to)
  }

  /** `v2_aoi._point_on_segment`, whose cross product has the opposite sign */
  predicate OnSegmentV2(p: Point, e: Edge) {
    Abs(CrossV2(p, e.from, e.to)) <= EPSILON && InBox(p, e.from, e.to)
  }

  predicate Straddles(p: Point, e: Edge) {
    (e.to.y > p.y) != (e.from.y > p.y)
  }

  function CrossingX(p: Point, a: Point, b: Point): real
    requires a.y != b.y
  {
    (a.x - b.x) * (p.y - b.y) / (a.y - b.y) + b.x
  }

  /** The ray from `p` towards larger x crosses the edge. */
  predicate Crosses(p: Point, e: Edge) {
    Straddles(p, e) && p.x < CrossingX(p, e.from, e.to)
  }

  /** The closed polygon's edges, each ending at the vertex of the same index. */
  function Edges(points: seq<Point>): (es: seq<Edge>)
    ensures |es| == |points|
  {
    seq(|points|, i requires 0 <= i < |points| =>
      Edge(if i == 0 then points[|points| - 1] else points[i - 1], points[i]))
  }

  function Crossings(p: Point, es: seq<Edge>): nat {
    if es == [] then 0
    else Crossings(p, es[..|es| - 1]) + if Crosses(p, es[|es| - 1]) then 1 else 0
  }

  predicate OnBoundary(p: Point, es: seq<Edge>) {
    exists e :: e in es && OnSegment(p, e)
  }

  /** On the boundary, or an odd number of edges to the right. */
  predicate InPolygon(p: Point, points: seq<Point>) {
    OnBoundary(p, Edges(points)) || Crossings(p, Edges(points)) % 2 == 1
  }

  lemma CrossingsStep(p: Point, es: seq<Edge>, i: nat)
    requires i < |es|
    ensures Crossings(p, es[..i + 1]) == Crossings(p, es[..i]) + if Crosses(p, es[i]) then 1 else 0
    ensures OnBoundary(p, es[..i + 1]) == (OnBoundary(p, es[..i]) || OnSegment(p, es[i]))
  {
    assert es[..i + 1][..i] == es[..i];
    assert es[..i + 1] == es[..i] + [es[i]];
  }

  method PointIsInsidePolygon(p: Point, points: seq<Point>) returns (inside: bool)
    ensures inside == InPolygon(p, points)
  {
    inside := false;
    var previous := |points| - 1;
    ghost var es := Edges(points);
    for current := 0 to |points|
      invariant previous == if current == 0 then |points| - 1 else current - 1
      invariant inside == (Crossings(p, es[..current]) % 2 == 1)
      invariant !OnBoundary(p, es[..current])
    {
      var edge := Edge(points[previous], points[current]);
      CrossingsStep(p, es, current);
      if OnSegment(p, edge) {
        return true;
      }
      if Straddles(p, edge) {
        if p.x < CrossingX(p, points[previous], points[current]) {
          inside := !inside;
        }
      }
      previous := current;
    }
    assert es[..|points|] == es;
  }

  method PointInPolygonV2(p: Point, points: seq<Point>) returns (inside: bool)
    requires points != []
    ensures inside == InPolygon(p, points)
  {
    inside := false;
    var previous := points[|points| - 1];
    ghost var es := Edges(points);
    for i := 0 to |points|
      invariant previous == if i == 0 then points[|points| - 1] else points[i - 1]
      invariant inside == (Crossings(p, es[..i]) % 2 == 1)
      invariant !OnBoundary(p, es[..i])
    {
      var current := points[i];
      var edge := Edge(previous, current);
      CrossingsStep(p, es, i);
      SegmentTestsAgree(p, edge);
      if OnSegmentV2(p, edge) {
        return true;
      }
      if (current.y > p.y) != (previous.y > p.y) {
        if p.x < CrossingX(p, previous, current) {
          inside := !inside;
        }
      }
      previous := current;
    }
    assert es[..|points|] == es;
  }

  lemma SegmentTestsAgree(p: Point, e: Edge)
    ensures OnSegment(p, e) == OnSegmentV2(p, e)
  {
    assert CrossV2(p, e.from, e.to) == -Cross(p, e.from, e.to);
  }

  lemma FlipNegatesCross(p: Point, a: Point, b: Point)
    ensures Cross(p, b, a) == -Cross(p, a, b)
  {
    var u, v, s, t := b.x - a.x, b.y - a.y, p.x - a.x, p.y - a.y;
    assert p.x - b.x == s - u && p.y - b.y == t - v;
    calc {
      Cross(p, b, a);
      (s - u) * (-v) - (t - v) * (-u);
      -(s * v) + u * v + t * u - v * u;
      -(s * v - t * u);
      -Cross(p, a, b);
    }
  }

  lemma Quotient(n: real, d: real, q: real)
    requires d != 0.0 && q * d == n
    ensures n / d == q
  {
  }

  /** The crossing abscissa does not depend on the direction in which the edge is walked. */
  lemma FlipKeepsCrossing(p: Point, a: Point, b: Point)
    requires a.y != b.y
    ensures CrossingX(p, b, a) == CrossingX(p, a, b)
  {
    var u, d, t := a.x - b.x, a.y - b.y, p.y - b.y;
    var q := (a.x - b.x) * (p.y - b.y) / (a.y - b.y);
    assert q * d == u * t;
    var n := (b.x - a.x) * (p.y - a.y);
    assert n == (q - u) * (b.y - a.y) by {
      assert b.x - a.x == -u && p.y - a.y == t - d && b.y - a.y == -d;
      assert n == (-u) * (t - d) == -(u * t) + u * d;
      assert (q - u) * (-d) == u * d - q * d;
    }
    Quotient((b.x - a.x) * (p.y - a.y), b.y - a.y, q - u);
  }

  lemma FlipSymmetric(p: Point, e: Edge)
    ensures OnSegment(p, e.Flip()) == OnSegment(p, e)
    ensures Crosses(p, e.Flip()) == Crosses(p, e)
  {
    FlipNegatesCross(p, e.from, e.to);
    if Straddles(p, e) {
      FlipKeepsCrossing(p, e.from, e.to);
    }
  }

  lemma {:induction false} CrossingsConcat(p: Point, a: seq<Edge>, b: seq<Edge>)
    ensures Crossings(p, a + b) == Crossings(p, a) + Crossings(p, b)
  {
    if b == [] {
      assert a + b == a;
    } else {
      assert (a + b)[..|a + b| - 1] == a + b[..|b| - 1];
      CrossingsConcat(p, a, b[..|b| - 1]);
    }
  }

  /** Starting the vertex list elsewhere changes nothing. */
  lemma RotationInvariant(p: Point, points: seq<Point>, k: nat)
    requires k <= |points|
    ensures InPolygon(p, points[k..] + points[..k]) == InPolygon(p, points)
  {
    var es, turned := Edges(points), Edges(points[k..] + points[..k]);
    assert turned == es[k..] + es[..k];
    CrossingsConcat(p, es[k..], es[..k]);
    CrossingsConcat(p, es[..k], es[k..]);
    assert es[..k] + es[k..] == es;
    assert forall e :: e in turned <==> e in es;
  }

  function Reversed<T>(s: seq<T>): seq<T> {
    seq(|s|, i requires 0 <= i < |s| => s[|s| - 1 - i])
  }

  function Flipped(es: seq<Edge>): seq<Edge> {
    seq(|es|, i requires 0 <= i < |es| => es[|es| - 1 - i].Flip())
  }

  lemma {:induction false} CrossingsFlipped(p: Point, es: seq<Edge>)
    ensures Crossings(p, Flipped(es)) == Crossings(p, es)
  {
    if es != [] {
      var last := es[|es| - 1];
      assert Flipped(es) == [last.Flip()] + Flipped(es[..|es| - 1]);
      CrossingsConcat(p, [last.Flip()], Flipped(es[..|es| - 1]));
      assert [last.Flip()][..0] == [];
      CrossingsFlipped(p, es[..|es| - 1]);
      FlipSymmetric(p, last);
    }
  }

  lemma EdgesReversed(points: seq<Point>)
    requires points != []
    ensures Edges(Reversed(points)) == Flipped(Edges(points)[..1]) + Flipped(Edges(points)[1..])
  {
    var n, es, back := |points|, Edges(points), Edges(Reversed(points));
    forall i | 0 <= i < n ensures back[i] == (Flipped(es[..1]) + Flipped(es[1..]))[i] {
      var first, rest := Flipped(es[..1]), Flipped(es[1..]);
      if i == 0 {
        assert back[0] == Edge(points[0], points[n - 1]) == es[0].Flip() == first[0];
      } else {
        assert back[i] == Edge(points[n - i], points[n - 1 - i]) == es[n - i].Flip();
        assert rest[i - 1] == es[1..][n - 1 - i].Flip() == es[n - i].Flip();
        assert (first + rest)[i] == rest[i - 1];
      }
    }
  }

  lemma BoundaryFlipped(p: Point, es: seq<Edge>)
    ensures OnBoundary(p, Flipped(es)) == OnBoundary(p, es)
  {
    forall i | 0 <= i < |es|
      ensures OnSegment(p, Flipped(es)[i]) == OnSegment(p, es[|es| - 1 - i])
    {
      FlipSymmetric(p, es[|es| - 1 - i]);
    }
    if e :| e in es && OnSegment(p, e) {
      var k :| 0 <= k < |es| && es[k] == e;
      assert OnSegment(p, Flipped(es)[|es| - 1 - k]);
    }
  }

  /** Walking the polygon the other way round changes nothing. */
  lemma ReversalInvariant(p: Point, points: seq<Point>)
    ensures InPolygon(p, Reversed(points)) == InPolygon(p, points)
  {
    if points != [] {
      var es, first, rest := Edges(points), Edges(points)[..1], Edges(points)[1..];
      EdgesReversed(points);
      assert es == first + rest;
      CrossingsConcat(p, Flipped(first), Flipped(rest));
      CrossingsConcat(p, first, rest);
      CrossingsFlipped(p, first);
      CrossingsFlipped(p, rest);
      BoundaryFlipped(p, first);
      BoundaryFlipped(p, rest);
      assert OnBoundary(p, es) == (OnBoundary(p, first) || OnBoundary(p, rest));
      assert OnBoundary(p, Flipped(first) + Flipped(rest))
          == (OnBoundary(p, Flipped(first)) || OnBoundary(p, Flipped(rest)));
    }
  }

  /** Both implementations decide the same set of points. */
  method BothTestsAgree(p: Point, points: seq<Point>) returns (a: bool, b: bool)
    requires points != []
    ensures a == b
  {
    a := PointIsInsidePolygon(p, points);
    b := PointInPolygonV2(p, points);
  }
}
