// Lloyd's k-means iteration: assignment of every point to its nearest mean, new
// means as centroids, until no mean moves by delta or more.
module KMeans {
  import opened Points

  // The first of the first n means that is nearest to p.
  function Nearest(p: Point, means: seq<Point>, n: nat): (r: nat)
    requires 0 < n <= |means| && AllOf(means, |p|)
    ensures r < n
    ensures forall j :: 0 <= j < n ==> DistanceSquare(p, means[r]) <= DistanceSquare(p, means[j])
    ensures forall j :: 0 <= j < r ==> DistanceSquare(p, means[r]) < DistanceSquare(p, means[j])
  {
    if n == 1 then 0
    else
      var r := Nearest(p, means, n - 1);
      if DistanceSquare(p, means[n - 1]) < DistanceSquare(p, means[r]) then n - 1 else r
  }

  // The index of the nearest mean of each of the first n points.
  function Assignment(points: seq<Point>, means: seq<Point>, n: nat, dim: nat): (r: seq<nat>)
    requires AllOf(points, dim) && AllOf(means, dim) && means != [] && n <= |points|
    ensures |r| == n
    ensures forall q :: 0 <= q < n ==> r[q] == Nearest(points[q], means, |means|)
  {
    seq(n, q requires 0 <= q < n => Nearest(points[q], means, |means|))
  }

  ghost predicate Into(a: seq<nat>, k: nat) {
    forall q :: 0 <= q < |a| ==> a[q] < k
  }

  // The clusters that an assignment fills, in order of assignment.
  function Buckets(k: nat, a: seq<nat>): (r: seq<seq<nat>>)
    requires Into(a, k)
    ensures |r| == k
    ensures forall i, j :: 0 <= i < k && 0 <= j < |r[i]| ==> r[i][j] < |a|
  {
    if a == [] then seq(k, _ => [])
    else
      var n := |a| - 1;
      var b := Buckets(k, a[..n]);
      b[a[n] := b[a[n]] + [n]]
  }

  // Each point is in the cluster it was assigned to, and in no other.
  lemma {:induction false} BucketsHold(k: nat, a: seq<nat>, q: nat, i: nat)
    requires Into(a, k) && q < |a| && i < k
    ensures multiset(Buckets(k, a)[i])[q] == if a[q] == i then 1 else 0
    decreases |a|
  {
    var n := |a| - 1;
    var b := Buckets(k, a[..n]);
    if q < n {
      BucketsHold(k, a[..n], q, i);
    } else {
      assert n !in b[i];
    }
  }

  function Members(points: seq<Point>, cluster: seq<nat>, dim: nat): (r: seq<Point>)
    requires AllOf(points, dim) && forall j :: 0 <= j < |cluster| ==> cluster[j] < |points|
    ensures |r| == |cluster| && AllOf(r, dim)
  {
    seq(|cluster|, j requires 0 <= j < |cluster| => points[cluster[j]])
  }

  ghost predicate Refer(clusters: seq<seq<nat>>, n: nat) {
    forall i, j :: 0 <= i < |clusters| && 0 <= j < |clusters[i]| ==> clusters[i][j] < n
  }

  predicate NoneEmpty(clusters: seq<seq<nat>>) {
    forall i :: 0 <= i < |clusters| ==> clusters[i] != []
  }

  function Centroids(points: seq<Point>, clusters: seq<seq<nat>>, dim: nat): (r: seq<Point>)
    requires AllOf(points, dim) && Refer(clusters, |points|) && NoneEmpty(clusters)
    ensures |r| == |clusters| && AllOf(r, dim)
    ensures forall i :: 0 <= i < |r| ==> r[i] == Centroid(Members(points, clusters[i], dim), dim)
  {
    seq(|clusters|, i requires 0 <= i < |clusters| => Centroid(Members(points, clusters[i], dim), dim))
  }

  // ----------------------------------------------------------------------- costs

  // The squared distances of the points to the means they are assigned to.
  function AssignedCost(points: seq<Point>, a: seq<nat>, means: seq<Point>, dim: nat): (r: real)
    requires AllOf(points, dim) && AllOf(means, dim) && Into(a, |means|) && |a| <= |points|
    ensures r >= 0.0
    decreases |a|
  {
    if a == [] then 0.0
    else
      var n := |a| - 1;
      AssignedCost(points, a[..n], means, dim) + DistanceSquare(points[n], means[a[n]])
  }

  function ClusterCost(points: seq<Point>, clusters: seq<seq<nat>>, means: seq<Point>, dim: nat, n: nat): (r: real)
    requires AllOf(points, dim) && AllOf(means, dim) && Refer(clusters, |points|)
    requires n <= |clusters| == |means|
  {
    if n == 0 then 0.0
    else ClusterCost(points, clusters, means, dim, n - 1) + Cost(Members(points, clusters[n - 1], dim), means[n - 1])
  }

  lemma {:induction false} OneMoreMember(points: seq<Point>, clusters: seq<seq<nat>>, means: seq<Point>, dim: nat, n: nat,
                                         i: nat, q: nat)
    requires AllOf(points, dim) && AllOf(means, dim) && Refer(clusters, |points|)
    requires n <= |clusters| == |means| && i < |clusters| && q < |points|
    ensures Refer(clusters[i := clusters[i] + [q]], |points|)
    ensures ClusterCost(points, clusters[i := clusters[i] + [q]], means, dim, n) ==
            ClusterCost(points, clusters, means, dim, n) + if i < n then DistanceSquare(points[q], means[i]) else 0.0
  {
    hide DistanceSquare;
    var clusters' := clusters[i := clusters[i] + [q]];
    if n != 0 {
      OneMoreMember(points, clusters, means, dim, n - 1, i, q);
      if i == n - 1 {
        var ps, ps' := Members(points, clusters[i], dim), Members(points, clusters'[i], dim);
        assert ps'[..|ps'| - 1] == ps;
      }
    }
  }

  lemma NothingYet(points: seq<Point>, means: seq<Point>, dim: nat, n: nat)
    requires AllOf(points, dim) && AllOf(means, dim) && n <= |means|
    ensures ClusterCost(points, Buckets(|means|, []), means, dim, n) == 0.0
  {
    if n != 0 {
      NothingYet(points, means, dim, n - 1);
    }
  }

  // The cost summed cluster by cluster is the cost summed point by point.
  lemma {:induction false} SameCost(points: seq<Point>, a: seq<nat>, means: seq<Point>, dim: nat)
    requires AllOf(points, dim) && AllOf(means, dim) && Into(a, |means|) && |a| <= |points|
    ensures Refer(Buckets(|means|, a), |points|)
    ensures ClusterCost(points, Buckets(|means|, a), means, dim, |means|) == AssignedCost(points, a, means, dim)
    decreases |a|
  {
    hide ClusterCost, DistanceSquare;
    if a == [] {
      NothingYet(points, means, dim, |means|);
    } else {
      var n := |a| - 1;
      SameCost(points, a[..n], means, dim);
      OneMoreMember(points, Buckets(|means|, a[..n]), means, dim, |means|, a[n], n);
    }
  }

  // The cost of these means: every point to its nearest one.
  function BestCost(points: seq<Point>, means: seq<Point>, dim: nat): (r: real)
    requires AllOf(points, dim) && AllOf(means, dim) && means != []
    ensures r >= 0.0
  {
    AssignedCost(points, Assignment(points, means, |points|, dim), means, dim)
  }

  lemma {:induction false} NearestIsBest(points: seq<Point>, a: seq<nat>, means: seq<Point>, dim: nat, n: nat)
    requires AllOf(points, dim) && AllOf(means, dim) && means != [] && Into(a, |means|) && n <= |a| <= |points|
    ensures AssignedCost(points, Assignment(points, means, n, dim), means, dim) <= AssignedCost(points, a[..n], means, dim)
    decreases n
  {
    hide DistanceSquare, Nearest;
    if n != 0 {
      NearestIsBest(points, a, means, dim, n - 1);
      assert a[..n][..n - 1] == a[..n - 1];
      assert Assignment(points, means, n, dim)[..n - 1] == Assignment(points, means, n - 1, dim);
      hide Assignment;
    }
  }

  lemma {:induction false} Symmetric(p: Point, q: Point)
    requires |p| == |q|
    ensures DistanceSquare(p, q) == DistanceSquare(q, p)
  {
    if p != [] {
      Symmetric(p[1..], q[1..]);
      var d := p[0] - q[0];
      assert q[0] - p[0] == -d && Square(-d) == Square(d);
    }
  }

  lemma AtLeastOnce(n: nat, d: real)
    requires 0 < n && d >= 0.0
    ensures Times(n, d) >= d
  {
    assert (n - 1) as real * d >= 0.0;
    assert Times(n, d) == (n - 1) as real * d + d;
  }

  // Moving the means to the centroids saves, for each mean, at least the squared
  // distance it moves.
  lemma {:induction false} CentroidsSave(points: seq<Point>, clusters: seq<seq<nat>>, means: seq<Point>, dim: nat, n: nat, i: nat)
    requires AllOf(points, dim) && AllOf(means, dim) && Refer(clusters, |points|) && NoneEmpty(clusters)
    requires n <= |clusters| == |means| && i < |means|
    ensures
      var means' := Centroids(points, clusters, dim);
      ClusterCost(points, clusters, means', dim, n) + (if i < n then DistanceSquare(means[i], means'[i]) else 0.0)
        <= ClusterCost(points, clusters, means, dim, n)
  {
    hide DistanceSquare, Cost, Times, Centroid;
    if n != 0 {
      CentroidsSave(points, clusters, means, dim, n - 1, i);
      var ps := Members(points, clusters[n - 1], dim);
      var m, c := means[n - 1], Centroid(ps, dim);
      CentroidCost(ps, m);
      AtLeastOnce(|ps|, DistanceSquare(m, c));
    }
  }

  // --------------------------------------------------------------------- a round

  function Clusters(points: seq<Point>, means: seq<Point>, dim: nat): (r: seq<seq<nat>>)
    requires AllOf(points, dim) && AllOf(means, dim) && means != []
    ensures |r| == |means| && Refer(r, |points|)
  {
    Buckets(|means|, Assignment(points, means, |points|, dim))
  }

  lemma NoneAssigned(points: seq<Point>, means: seq<Point>, dim: nat)
    requires AllOf(points, dim) && AllOf(means, dim) && means != []
    ensures Buckets(|means|, Assignment(points, means, 0, dim)) == seq(|means|, _ => [])
  {
  }

  lemma OneAssigned(points: seq<Point>, means: seq<Point>, dim: nat, p: nat)
    requires AllOf(points, dim) && AllOf(means, dim) && means != [] && p < |points|
    ensures
      var b := Buckets(|means|, Assignment(points, means, p, dim));
      var index := Nearest(points[p], means, |means|);
      Buckets(|means|, Assignment(points, means, p + 1, dim)) == b[index := b[index] + [p]]
  {
    hide Nearest;
    var a := Assignment(points, means, p + 1, dim);
    assert a[..p] == Assignment(points, means, p, dim);
  }

  // One round lowers the cost by at least the squared distance any mean moves.
  lemma RoundLowers(points: seq<Point>, means: seq<Point>, dim: nat, i: nat)
    requires AllOf(points, dim) && AllOf(means, dim) && i < |means|
    requires NoneEmpty(Clusters(points, means, dim))
    ensures
      var means' := Centroids(points, Clusters(points, means, dim), dim);
      BestCost(points, means', dim) + DistanceSquare(means'[i], means[i]) <= BestCost(points, means, dim)
  {
    hide DistanceSquare, Buckets, AssignedCost, ClusterCost, Centroids, NoneEmpty, Nearest, Members;
    var a := Assignment(points, means, |points|, dim);
    var clusters := Clusters(points, means, dim);
    var means' := Centroids(points, clusters, dim);
    NearestIsBest(points, a, means', dim, |points|);
    assert a[..|points|] == a;
    SameCost(points, a, means', dim);
    SameCost(points, a, means, dim);
    CentroidsSave(points, clusters, means, dim, |means|, i);
    Symmetric(means[i], means'[i]);
  }

  function Step(points: seq<Point>, means: seq<Point>, dim: nat): (r: seq<Point>)
    requires AllOf(points, dim) && AllOf(means, dim) && means != []
    ensures |r| == |means| && AllOf(r, dim)
  {
    var clusters := Clusters(points, means, dim);
    if NoneEmpty(clusters) then Centroids(points, clusters, dim) else means
  }

  // The means after t rounds.
  function After(points: seq<Point>, means: seq<Point>, dim: nat, t: nat): (r: seq<Point>)
    requires AllOf(points, dim) && AllOf(means, dim) && means != []
    ensures |r| == |means| && AllOf(r, dim)
  {
    if t == 0 then means else Step(points, After(points, means, dim, t - 1), dim)
  }

  ghost predicate Close(means: seq<Point>, last: seq<Point>, dim: nat, deltaSquare: real)
    requires |means| == |last| && AllOf(means, dim) && AllOf(last, dim)
  {
    forall i :: 0 <= i < |means| ==> DistanceSquare(means[i], last[i]) < deltaSquare
  }

  // Every round followed by another one lowers the cost by at least delta squared.
  lemma ContinuedRoundLowers(points: seq<Point>, means: seq<Point>, dim: nat, deltaSquare: real)
    requires AllOf(points, dim) && AllOf(means, dim) && means != []
    requires NoneEmpty(Clusters(points, means, dim))
    requires !Close(Step(points, means, dim), means, dim, deltaSquare)
    ensures BestCost(points, Step(points, means, dim), dim) + deltaSquare <= BestCost(points, means, dim)
  {
    var means' := Step(points, means, dim);
    var i :| 0 <= i < |means'| && DistanceSquare(means'[i], means[i]) >= deltaSquare;
    hide BestCost, DistanceSquare;
    RoundLowers(points, means, dim, i);
  }

  // With delta zero the test for closeness never succeeds.
  lemma NeverClose(means: seq<Point>, last: seq<Point>, dim: nat)
    requires |means| == |last| && AllOf(means, dim) && AllOf(last, dim) && means != []
    ensures !Close(means, last, dim, 0.0)
  {
    assert DistanceSquare(means[0], last[0]) >= 0.0;
  }

  // How many times delta squared fits into the cost.
  function Quotient(cost: real, deltaSquare: real): (r: nat)
    requires cost >= 0.0 && deltaSquare > 0.0
    ensures Times(r, deltaSquare) <= cost < Times(r + 1, deltaSquare)
  {
    var q := cost / deltaSquare;
    assert q >= 0.0 && q * deltaSquare == cost;
    ScaledFloor(q, q.Floor, deltaSquare);
    q.Floor
  }

  lemma TimesBelow(n: nat, q: real, d: real)
    requires d > 0.0 && n as real <= q
    ensures Times(n, d) <= q * d
  {
    Scaled(n as real, q, d);
  }

  lemma TimesAbove(n: nat, q: real, d: real)
    requires d > 0.0 && q < n as real
    ensures q * d < Times(n, d)
  {
    ScaledLess(q, n as real, d);
  }

  lemma ScaledFloor(q: real, f: nat, d: real)
    requires d > 0.0 && f as real <= q < f as real + 1.0
    ensures Times(f, d) <= q * d < Times(f + 1, d)
  {
    hide Times;
    TimesBelow(f, q, d);
    TimesAbove(f + 1, q, d);
  }

  lemma ScaledLess(a: real, b: real, d: real)
    requires a < b && d > 0.0
    ensures a * d < b * d
  {
    var c := b - a;
    assert c * d > 0.0;
    assert b * d == (a + c) * d == a * d + c * d;
  }

  lemma Scaled(a: real, b: real, d: real)
    requires a <= b && d > 0.0
    ensures a * d <= b * d
  {
    assert (b - a) * d >= 0.0;
  }

  lemma TimesMonotone(a: nat, b: nat, d: real)
    requires a <= b && d > 0.0
    ensures Times(a, d) <= Times(b, d)
  {
    Scaled(a as real, b as real, d);
  }

  lemma FitsAtMost(n: nat, cost: real, deltaSquare: real)
    requires cost >= 0.0 && deltaSquare > 0.0 && Times(n, deltaSquare) <= cost
    ensures n <= Quotient(cost, deltaSquare)
  {
    var q := Quotient(cost, deltaSquare);
    if q + 1 <= n {
      TimesMonotone(q + 1, n, deltaSquare);
    }
  }

  // ------------------------------------------------------------------- the rounds

  // The state of the iteration after `round` rounds.
  ghost predicate Reached(points: seq<Point>, first: seq<Point>, dim: nat, deltaSquare: real,
                          means: seq<Point>, last: seq<Point>, clusters: seq<seq<nat>>, round: nat)
    requires AllOf(points, dim) && AllOf(first, dim) && first != []
  {
    && AllOf(means, dim) && AllOf(last, dim) && |means| == |last| == |first|
    && means == After(points, first, dim, round)
    && (round > 0 ==>
         && last == After(points, first, dim, round - 1)
         && clusters == Clusters(points, last, dim) && NoneEmpty(clusters)
         && BestCost(points, last, dim) + Times(round - 1, deltaSquare) <= BestCost(points, first, dim))
    && forall t :: 0 < t < round ==>
         !Close(After(points, first, dim, t), After(points, first, dim, t - 1), dim, deltaSquare)
  }

  lemma NotStarted(points: seq<Point>, first: seq<Point>, dim: nat, deltaSquare: real,
                   last: seq<Point>, clusters: seq<seq<nat>>)
    requires AllOf(points, dim) && AllOf(first, dim) && first != [] && AllOf(last, dim) && |last| == |first|
    ensures Reached(points, first, dim, deltaSquare, first, last, clusters, 0)
  {
  }

  // What a run that has reached this state tells its caller.
  lemma ReachedIs(points: seq<Point>, first: seq<Point>, dim: nat, deltaSquare: real,
                  means: seq<Point>, last: seq<Point>, clusters: seq<seq<nat>>, round: nat)
    requires AllOf(points, dim) && AllOf(first, dim) && first != []
    requires Reached(points, first, dim, deltaSquare, means, last, clusters, round)
    ensures AllOf(means, dim) && AllOf(last, dim) && |means| == |last| == |first|
    ensures means == After(points, first, dim, round)
    ensures round > 0 ==> last == After(points, first, dim, round - 1) && clusters == Clusters(points, last, dim)
    ensures forall t :: 0 < t < round ==>
      !Close(After(points, first, dim, t), After(points, first, dim, t - 1), dim, deltaSquare)
  {
  }

  // A new round starts only if the cost of the current means still leaves room.
  lemma RoomForRound(points: seq<Point>, first: seq<Point>, dim: nat, deltaSquare: real,
                     means: seq<Point>, last: seq<Point>, clusters: seq<seq<nat>>, round: nat)
    requires AllOf(points, dim) && AllOf(first, dim) && first != [] && deltaSquare > 0.0
    requires Reached(points, first, dim, deltaSquare, means, last, clusters, round)
    requires !Close(means, last, dim, deltaSquare)
    ensures BestCost(points, means, dim) + Times(round, deltaSquare) <= BestCost(points, first, dim)
    ensures round <= Quotient(BestCost(points, first, dim), deltaSquare)
  {
    hide BestCost, Quotient, Close, Clusters;
    OneMore(0, deltaSquare);
    if round > 0 {
      ContinuedRoundLowers(points, last, dim, deltaSquare);
      OneMore(round - 1, deltaSquare);
    }
    hide Times;
    FitsAtMost(round, BestCost(points, first, dim), deltaSquare);
  }

  lemma NextReached(points: seq<Point>, first: seq<Point>, dim: nat, deltaSquare: real,
                    means: seq<Point>, last: seq<Point>, clusters: seq<seq<nat>>, round: nat,
                    means': seq<Point>, clusters': seq<seq<nat>>)
    requires AllOf(points, dim) && AllOf(first, dim) && first != [] && deltaSquare > 0.0
    requires Reached(points, first, dim, deltaSquare, means, last, clusters, round)
    requires !Close(means, last, dim, deltaSquare)
    requires clusters' == Clusters(points, means, dim) && NoneEmpty(clusters')
    requires means' == Centroids(points, clusters', dim)
    ensures Reached(points, first, dim, deltaSquare, means', means, clusters', round + 1)
  {
    hide BestCost, Quotient, Close, Clusters, Centroids, NoneEmpty, Times, After;
    RoomForRound(points, first, dim, deltaSquare, means, last, clusters, round);
    AfterStep(points, first, dim, round);
    forall t | 0 < t < round + 1
      ensures !Close(After(points, first, dim, t), After(points, first, dim, t - 1), dim, deltaSquare)
    {
    }
  }

  lemma AfterStep(points: seq<Point>, first: seq<Point>, dim: nat, round: nat)
    requires AllOf(points, dim) && AllOf(first, dim) && first != []
    requires NoneEmpty(Clusters(points, After(points, first, dim, round), dim))
    ensures
      var means := After(points, first, dim, round);
      After(points, first, dim, round + 1) == Centroids(points, Clusters(points, means, dim), dim)
  {
    hide Clusters, Centroids, NoneEmpty;
  }

  lemma NoMeansAreClose(means: seq<Point>, last: seq<Point>, dim: nat, deltaSquare: real)
    requires |means| == |last| && AllOf(means, dim) && AllOf(last, dim)
    ensures means == [] ==> Close(means, last, dim, deltaSquare)
  {
  }

  // ------------------------------------------------------------------ the object

  datatype Ending = Converged | Inconsistent | EmptyCluster

  class Loyd {
    const points: seq<Point>
    const dim: nat
    const k: nat
    const deltaSquare: real
    var means: seq<Point>
    var lastMeans: seq<Point>
    var clusters: seq<seq<nat>>
    var round: nat

    ghost predicate Valid()
      reads this
    {
      AllOf(points, dim) && AllOf(means, dim) && AllOf(lastMeans, dim) && |lastMeans| == k
    }

    constructor (points: seq<Point>, initial: seq<Point>, k: nat, delta: real, dim: nat)
      requires AllOf(points, dim) && AllOf(initial, dim)
      ensures Valid() && this.points == points && this.k == k && this.dim == dim
      ensures means == initial && deltaSquare == delta * delta && clusters == []
      ensures forall i :: 0 <= i < k ==> lastMeans[i] == Zero(dim)
    {
      this.points := points;
      this.dim := dim;
      this.k := k;
      deltaSquare := delta * delta;
      means := initial;
      clusters := [];
      round := 0;
      var last: seq<Point> := [];
      for i := 0 to k
        invariant |last| == i && forall j :: 0 <= j < i ==> last[j] == Zero(dim)
      {
        last := last + [Zero(dim)];
      }
      lastMeans := last;
    }

    method IsAllMeansCloseEnough() returns (close: bool)
      requires Valid() && |means| == k
      ensures close == Close(means, lastMeans, dim, deltaSquare)
    {
      for i := 0 to k
        invariant forall j :: 0 <= j < i ==> DistanceSquare(means[j], lastMeans[j]) < deltaSquare
      {
        var d := DistanceSquare(means[i], lastMeans[i]);
        if d >= deltaSquare {
          return false;
        }
      }
      return true;
    }

    // Puts one point into the cluster of its nearest mean.
    method Assign(p: nat)
      requires Valid() && |means| == k == |clusters| && 0 < k && p < |points|
      modifies this`clusters
      ensures
        var index := Nearest(points[p], means, k);
        clusters == old(clusters)[index := old(clusters)[index] + [p]]
    {
      var index := 0;
      var min := DistanceSquare(points[p], means[0]);
      for i := 1 to |means|
        invariant index == Nearest(points[p], means, i) && min == DistanceSquare(points[p], means[index])
      {
        var d := DistanceSquare(points[p], means[i]);
        if d < min {
          index := i;
          min := d;
        }
      }
      clusters := clusters[index := clusters[index] + [p]];
    }

    method AssignAll()
      requires Valid() && |means| == k && 0 < k
      requires |clusters| == k && forall i :: 0 <= i < k ==> clusters[i] == []
      modifies this`clusters
      ensures clusters == Clusters(points, means, dim)
    {
      NoneAssigned(points, means, dim);
      for p := 0 to |points|
        invariant clusters == Buckets(k, Assignment(points, means, p, dim))
      {
        OneAssigned(points, means, dim, p);
        hide Assignment, Buckets, Nearest;
        Assign(p);
      }
    }

    // The new mean of one cluster.
    method MeanOf(cluster: seq<nat>) returns (p: Point)
      requires Valid() && cluster != [] && forall j :: 0 <= j < |cluster| ==> cluster[j] < |points|
      ensures p == Centroid(Members(points, cluster, dim), dim)
    {
      p := Zero(dim);
      ghost var ps := Members(points, cluster, dim);
      for j := 0 to |cluster|
        invariant p == Sum(ps[..j], dim)
      {
        p := Add(p, points[cluster[j]]);
        assert ps[..j + 1][..j] == ps[..j];
      }
      assert ps[..|cluster|] == ps;
      p := Divide(p, |cluster|);
    }

    // Sets every mean to the centroid of its cluster, unless a cluster is empty.
    method MoveMeans() returns (ok: bool)
      requires Valid() && |means| == k == |clusters| && Refer(clusters, |points|)
      modifies this`means
      ensures Valid() && |means| == k && ok == NoneEmpty(clusters)
      ensures ok ==> means == Centroids(points, clusters, dim)
    {
      for i := 0 to k
        invariant Valid() && |means| == k
        invariant forall j :: 0 <= j < i ==>
          clusters[j] != [] && means[j] == Centroid(Members(points, clusters[j], dim), dim)
      {
        if clusters[i] == [] {
          return false;
        }
        var p := MeanOf(clusters[i]);
        means := means[i := p];
      }
      return true;
    }

    method ClearClusters()
      requires k <= |clusters|
      modifies this`clusters
      ensures |clusters| == old(|clusters|) && forall i :: 0 <= i < k ==> clusters[i] == []
    {
      for i := 0 to k
        invariant |clusters| == old(|clusters|) && forall j :: 0 <= j < i ==> clusters[j] == []
      {
        clusters := clusters[i := []];
      }
    }

    method EmptyClusters()
      requires clusters == []
      modifies this`clusters
      ensures |clusters| == k
    {
      for i := 0 to k
        invariant |clusters| == i
      {
        clusters := clusters + [[]];
      }
    }

    // The body of the loop: every point joins a cluster, and the means move.
    method OneRound() returns (ok: bool)
      requires Valid() && |means| == k == |clusters| && 0 < k
      modifies this`round, this`clusters, this`lastMeans, this`means
      ensures Valid() && |means| == k == |clusters| && round == old(round) + 1 && lastMeans == old(means)
      ensures clusters == Clusters(points, lastMeans, dim) && ok == NoneEmpty(clusters)
      ensures ok ==> means == Centroids(points, clusters, dim)
    {
      hide Clusters, Centroids, NoneEmpty;
      round := round + 1;
      ClearClusters();
      AssignAll();
      lastMeans := means;
      ok := MoveMeans();
    }

    // The iteration: it ends for every input, after a number of rounds bounded by the cost
    // of the initial means; no round is run exactly if all means are close to the last
    // ones at the start.
    method Run() returns (ending: Ending)
      requires Valid() && clusters == [] && deltaSquare > 0.0
      modifies this
      ensures Valid()
      ensures ending == Inconsistent <==> old(|means|) != k
      ensures ending == Inconsistent ==> unchanged(this)
      ensures ending != Inconsistent ==>
        (round == 0 <==> old(|means| == k && Close(means, lastMeans, dim, deltaSquare)))
      ensures round == 0 && ending != Inconsistent ==> means == old(means) && lastMeans == old(lastMeans)
      ensures ending != Inconsistent && k > 0 ==>
        && round <= 1 + Quotient(BestCost(points, old(means), dim), deltaSquare)
        && (round > 0 ==> lastMeans == After(points, old(means), dim, round - 1))
        && (round > 0 ==> clusters == Clusters(points, lastMeans, dim))
        && (forall t :: 0 < t < round ==>
             !Close(After(points, old(means), dim, t), After(points, old(means), dim, t - 1), dim, deltaSquare))
      ensures ending == Converged ==> |means| == k && Close(means, lastMeans, dim, deltaSquare)
      ensures ending == Converged && k > 0 ==> means == After(points, old(means), dim, round)
      ensures ending == EmptyCluster ==> round > 0 && !NoneEmpty(clusters)
    {
      hide BestCost, Quotient, Close, Reached, Clusters, Centroids, NoneEmpty, After, AllOf, DistanceSquare;
      if |means| != k {
        return Inconsistent;
      }
      ghost var first, last := means, lastMeans;
      EmptyClusters();
      round := 0;
      var close := IsAllMeansCloseEnough();
      NoMeansAreClose(means, lastMeans, dim, deltaSquare);
      if k > 0 {
        NotStarted(points, first, dim, deltaSquare, lastMeans, clusters);
      }
      while !close
        invariant Valid() && |means| == |clusters| == k && (k > 0 ==> round <= 1 + Quotient(BestCost(points, first, dim), deltaSquare))
        invariant close == Close(means, lastMeans, dim, deltaSquare)
        invariant round == 0 ==> means == first && lastMeans == last
        invariant round > 0 ==> !Close(first, last, dim, deltaSquare)
        invariant if k > 0 then Reached(points, first, dim, deltaSquare, means, lastMeans, clusters, round) else close && round == 0
        decreases if k > 0 then 1 + Quotient(BestCost(points, first, dim), deltaSquare) - round else 0
      {
        RoomForRound(points, first, dim, deltaSquare, means, lastMeans, clusters, round);
        ghost var m, l, c := means, lastMeans, clusters;
        var ok := OneRound();
        if !ok {
          ReachedIs(points, first, dim, deltaSquare, m, l, c, round - 1);
          return EmptyCluster;
        }
        NextReached(points, first, dim, deltaSquare, m, l, c, round - 1, means, clusters);
        close := IsAllMeansCloseEnough();
      }
      if k > 0 {
        ReachedIs(points, first, dim, deltaSquare, means, lastMeans, clusters, round);
      }
      return Converged;
    }
  }
}
