// Points with exact real coordinates, and the sums of squared distances that
// Lloyd's iteration lowers.
module Points {
  type Point = seq<real>

  function Zero(dim: nat): (p: Point)
    ensures |p| == dim
  {
    seq(dim, _ => 0.0)
  }

  function Add(p: Point, q: Point): (r: Point)
    requires |p| == |q|
    ensures |r| == |p|
  {
    seq(|p|, i requires 0 <= i < |p| => p[i] + q[i])
  }

  function Divide(p: Point, n: nat): (r: Point)
    requires 0 < n
    ensures |r| == |p|
  {
    seq(|p|, i requires 0 <= i < |p| => p[i] / n as real)
  }

  function Square(x: real): (r: real) {
    x * x
  }

  lemma SquareNotNegative(x: real)
    ensures Square(x) >= 0.0
  {
  }

  function DistanceSquare(p: Point, q: Point): (d: real)
    requires |p| == |q|
    ensures d >= 0.0
  {
    if p == [] then 0.0
    else
      SquareNotNegative(p[0] - q[0]);
      Square(p[0] - q[0]) + DistanceSquare(p[1..], q[1..])
  }

  ghost predicate AllOf(ps: seq<Point>, dim: nat) {
    forall i :: 0 <= i < |ps| ==> |ps[i]| == dim
  }

  function Sum(ps: seq<Point>, dim: nat): (r: Point)
    requires AllOf(ps, dim)
    ensures |r| == dim
  {
    if ps == [] then Zero(dim) else Add(Sum(ps[..|ps| - 1], dim), ps[|ps| - 1])
  }

  function Centroid(ps: seq<Point>, dim: nat): (r: Point)
    requires AllOf(ps, dim) && ps != []
    ensures |r| == dim
  {
    Divide(Sum(ps, dim), |ps|)
  }

  // The sum of squared distances of the points to m.
  function Cost(ps: seq<Point>, m: Point): (r: real)
    requires AllOf(ps, |m|)
    ensures r >= 0.0
  {
    if ps == [] then 0.0 else Cost(ps[..|ps| - 1], m) + DistanceSquare(ps[|ps| - 1], m)
  }

  function Times(n: nat, x: real): (r: real) {
    n as real * x
  }

  function CrossOne(m: real, c: real, s: real, n: nat): (r: real) {
    (m - c) * (s - Times(n, c))
  }

  // The inner product of m - c and s - n * c.
  function Cross(m: Point, c: Point, s: Point, n: nat): (r: real)
    requires |m| == |c| == |s|
  {
    if m == [] then 0.0 else CrossOne(m[0], c[0], s[0], n) + Cross(m[1..], c[1..], s[1..], n)
  }

  lemma ExpandOne(p: real, m: real, c: real)
    ensures Square(p - m) == Square(p - c) + Square(m - c) - 2.0 * CrossOne(m, c, p, 1)
  {
    var a, b := p - c, m - c;
    assert p - m == a - b;
    assert (a - b) * (a - b) == a * a + b * b - 2.0 * (b * a);
  }

  lemma {:induction false} Expand(p: Point, m: Point, c: Point)
    requires |p| == |m| == |c|
    ensures DistanceSquare(p, m) == DistanceSquare(p, c) + DistanceSquare(m, c) - 2.0 * Cross(m, c, p, 1)
  {
    if p != [] {
      hide Square, CrossOne;
      ExpandOne(p[0], m[0], c[0]);
      Expand(p[1..], m[1..], c[1..]);
    }
  }

  lemma CrossOneAdds(m: real, c: real, s: real, p: real, n: nat)
    ensures CrossOne(m, c, s + p, n + 1) == CrossOne(m, c, s, n) + CrossOne(m, c, p, 1)
  {
    var a, b, v := s - Times(n, c), p - Times(1, c), m - c;
    assert Times(n + 1, c) == Times(n, c) + Times(1, c);
    hide Times;
    assert s + p - Times(n + 1, c) == a + b;
    assert v * (a + b) == v * a + v * b;
  }

  lemma {:induction false} CrossAdds(m: Point, c: Point, s: Point, p: Point, n: nat)
    requires |m| == |c| == |s| == |p|
    ensures Cross(m, c, Add(s, p), n + 1) == Cross(m, c, s, n) + Cross(m, c, p, 1)
  {
    hide CrossOne;
    if m != [] {
      CrossOneAdds(m[0], c[0], s[0], p[0], n);
      CrossAdds(m[1..], c[1..], s[1..], p[1..], n);
      assert Add(s, p)[1..] == Add(s[1..], p[1..]);
    }
  }

  lemma {:induction false} CrossOfZero(m: Point, c: Point)
    requires |m| == |c|
    ensures Cross(m, c, Zero(|m|), 0) == 0.0
  {
    if m != [] {
      CrossOfZero(m[1..], c[1..]);
      assert Zero(|m|)[1..] == Zero(|m| - 1);
    }
  }

  lemma {:induction false} CrossAtCentroid(m: Point, c: Point, s: Point, n: nat)
    requires |m| == |c| == |s| && 0 < n && c == Divide(s, n)
    ensures Cross(m, c, s, n) == 0.0
  {
    if m != [] {
      assert c[0] == s[0] / n as real;
      assert Times(n, c[0]) == s[0];
      assert c[1..] == Divide(s[1..], n);
      CrossAtCentroid(m[1..], c[1..], s[1..], n);
    }
  }

  lemma OneMore(n: nat, d: real)
    ensures Times(n + 1, d) == Times(n, d) + d && Times(0, d) == 0.0
  {
  }

  lemma {:induction false} MovedCost(ps: seq<Point>, m: Point, c: Point)
    requires |m| == |c| && AllOf(ps, |m|)
    ensures Cost(ps, m) == Cost(ps, c) + Times(|ps|, DistanceSquare(m, c)) - 2.0 * Cross(m, c, Sum(ps, |m|), |ps|)
  {
    hide DistanceSquare, Cross, Add, Times, Zero;
    var d := DistanceSquare(m, c);
    if ps == [] {
      CrossOfZero(m, c);
      OneMore(0, d);
    } else {
      var front, p := ps[..|ps| - 1], ps[|ps| - 1];
      MovedCost(front, m, c);
      Expand(p, m, c);
      CrossAdds(m, c, Sum(front, |m|), p, |front|);
      OneMore(|front|, d);
    }
  }

  // The cost around m is the cost around the centroid plus the number of points
  // times the squared distance between the two.
  lemma CentroidCost(ps: seq<Point>, m: Point)
    requires ps != [] && AllOf(ps, |m|)
    ensures Cost(ps, m) == Cost(ps, Centroid(ps, |m|)) + Times(|ps|, DistanceSquare(m, Centroid(ps, |m|)))
  {
    var c := Centroid(ps, |m|);
    hide DistanceSquare, Cross, Divide, Times, Cost, Sum;
    MovedCost(ps, m, c);
    CrossAtCentroid(m, c, Sum(ps, |m|), |ps|);
  }
}
