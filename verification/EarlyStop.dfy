// A split need not take all of its input: an operator below it that ends before its
// inputs stops asking. For a split whose only stream is intersected with another source:
// exactly how much it takes, for all rows, and exactly when all of it.
module EarlyStop {
  import opened Operators
  import opened Dataflow
  import opened Scheduler
  import GraphMeaning
  import opened Broadcast
  import opened Streams
  import opened BroadcastEnds
  import opened SplitFuture
  import opened Timed
  import opened SplitMeaning
  import opened Drained
  import opened LeftOver

  // What is left of a when the merge of a and b runs out of either of them.
  function MergeLeft(a: seq<Row>, b: seq<Row>): (r: seq<Row>)
    decreases |a| + |b|
  {
    if a == [] || b == [] then a
    else if a[0].key < b[0].key then MergeLeft(a[1..], b)
    else if a[0].key > b[0].key then MergeLeft(a, b[1..])
    else MergeLeft(a[1..], b[1..])
  }

  ghost predicate Increasing(s: seq<Row>) {
    forall i, j :: 0 <= i < j < |s| ==> s[i].key < s[j].key
  }

  // b is not over before the last row of a but one.
  predicate Reaches(b: seq<Row>, a: seq<Row>) {
    |a| <= 1 || (b != [] && a[|a| - 2].key <= b[|b| - 1].key)
  }

  // On strictly increasing keys at most one row is left exactly if b reaches a.
  lemma {:induction false} LeavesOneIff(a: seq<Row>, b: seq<Row>)
    requires Increasing(a) && Increasing(b)
    ensures |MergeLeft(a, b)| <= 1 <==> Reaches(b, a)
    decreases |a| + |b|
  {
    if a != [] && b != [] {
      var a', b' := if a[0].key <= b[0].key then a[1..] else a, if b[0].key <= a[0].key then b[1..] else b;
      assert MergeLeft(a, b) == MergeLeft(a', b');
      LeavesOneIff(a', b');
      ReachesOn(a, b, a', b');
    }
  }

  lemma ReachesOn(a: seq<Row>, b: seq<Row>, a': seq<Row>, b': seq<Row>)
    requires Increasing(a) && Increasing(b) && a != [] && b != []
    requires a' == if a[0].key <= b[0].key then a[1..] else a
    requires b' == if b[0].key <= a[0].key then b[1..] else b
    ensures Reaches(b', a') <==> Reaches(b, a)
  {
    assert |a'| > 1 ==> a'[|a'| - 2] == a[|a| - 2];
    assert b' != [] ==> b'[|b'| - 1] == b[|b| - 1];
    assert b[0].key <= b[|b| - 1].key;
  }

  // The intersection of two streams leaves of each what the merge leaves.
  lemma {:induction false} IntersectionLeaves(a: seq<Row>, b: seq<Row>)
    ensures LeftBy(Intersection, [a, b]) == [MergeLeft(a, b), MergeLeft(b, a)]
    decreases |a| + |b|
  {
    var heads := Heads([a, b]);
    var o := Process(Intersection, heads);
    if a == [] {
      assert heads[0].None?;
    } else if b == [] {
      assert heads[1].None?;
    } else {
      assert heads == [Some(a[0]), Some(b[0])];
      TwoHeads(a[0], b[0]);
      var a', b' := if a[0].key <= b[0].key then a[1..] else a, if b[0].key <= a[0].key then b[1..] else b;
      assert Advance([a, b], o.taken) == [a', b'];
      IntersectionLeaves(a', b');
      LeftByUnfolds(Intersection, [a, b]);
    }
  }

  // The intersection takes the smaller key, or both.
  lemma TwoHeads(x: Row, y: Row)
    ensures
      var o := Process(Intersection, [Some(x), Some(y)]);
      o.op == Intersection && (0 in o.taken <==> x.key <= y.key) && (1 in o.taken <==> y.key <= x.key)
  {
    var heads := [Some(x), Some(y)];
    var least := Least(heads, 2);
    assert heads[0].Some? && heads[1].Some?;
    assert heads[least.value].value.key <= x.key && heads[least.value].value.key <= y.key;
  }

  // ------------------------------------------------------------------------- the graph

  // source 0 -> split 1 -> stream 2; 2 and source 3, in either order, -> intersection 4
  // -> output 5
  ghost predicate Links(g: Graph, swapped: bool) {
    g.preds == [[], [0], [1], [], if swapped then [3, 2] else [2, 3], [4]]
  }

  // The source rows are a and b, and nothing has run.
  ghost predicate Merges(g: Graph, s: Sched, a: seq<Row>, b: seq<Row>, swapped: bool)
    requires Acyclic(g)
  {
    && Links(g, swapped) && Untouched(g, s)
    && s.nodes[0].op == RawData(a, -1) && s.nodes[1].op == Output([]) && s.nodes[2].op == RawData([], -1)
    && s.nodes[3].op == RawData(b, -1) && s.nodes[4].op == Intersection && s.nodes[5].op == Output([])
  }

  // run() takes through the split all of a but what the merge leaves, of which one row
  // has been delivered and is still held; it takes all of a exactly if the merge leaves
  // at most one row.
  lemma SplitTakesAllIff(g: Graph, s: Sched, a: seq<Row>, b: seq<Row>, swapped: bool) returns (n: nat)
    requires Acyclic(g) && Merges(g, s, a, b, swapped)
    ensures
      var t := Turns(g, [5], s, n);
      && Over([5], t)
      && t.nodes[1].produced + Undelivered(MergeLeft(a, b)) == a
      && (t.nodes[1].produced == a <==> |MergeLeft(a, b)| <= 1)
  {
    hide Turns, AllFit, OneReader, Means, PatientAboveSplits, Careful, Drains, Unneeded, MergeLeft, Acyclic, Merges, OnlyStream, Reseed;
    var k := if swapped then 1 else 0;
    MergeIsCareful(g, s, a, b, swapped);
    MergeMeans(g, s, a, b, swapped);
    n := TakesAllIff(g, [5], ForestClock(g, s.nodes), s, 1, 2, 4, k);
  }

  lemma Readers(g: Graph, swapped: bool, i: nat, k: nat)
    requires Links(g, swapped) && i < 6 && k < |g.preds[i]|
    ensures g.preds[i][k] == 0 ==> i == 1 && k == 0
    ensures g.preds[i][k] == 1 ==> i == 2 && k == 0
    ensures g.preds[i][k] == 2 ==> i == 4 && k == if swapped then 1 else 0
    ensures g.preds[i][k] == 3 ==> i == 4 && k == if swapped then 0 else 1
    ensures g.preds[i][k] == 4 ==> i == 5 && k == 0
    ensures g.preds[i][k] <= 4
  {
    assert i == 1 || i == 2 || i == 4 || i == 5;
  }

  lemma MergeIsRead(g: Graph, nodes: seq<Node>, swapped: bool)
    requires Links(g, swapped)
    ensures |g.preds| == 6 && Unread(g, [5]) && OneReader(g, nodes)
    ensures forall x :: 0 <= x < 6 && 1 in g.preds[x] ==> x == 2
  {
    assert |g.preds| == 6;
    hide Links;
    forall i, k | 0 <= i < |g.preds| && 0 <= k < |g.preds[i]| ensures g.preds[i][k] !in [5] {
      Readers(g, swapped, i, k);
    }
    forall i, k, j, l | 0 <= i < |g.preds| && 0 <= k < |g.preds[i]| && 0 <= j < |g.preds| && 0 <= l < |g.preds[j]| && g.preds[i][k] == g.preds[j][l]
      ensures i == j && k == l
    {
      Readers(g, swapped, i, k);
      Readers(g, swapped, j, l);
    }
    forall x | 0 <= x < 6 && 1 in g.preds[x] ensures x == 2 {
      var l :| 0 <= l < |g.preds[x]| && g.preds[x][l] == 1;
      Readers(g, swapped, x, l);
    }
  }

  lemma MergeStreams(g: Graph, s: Sched, a: seq<Row>, b: seq<Row>, swapped: bool)
    requires Acyclic(g) && Merges(g, s, a, b, swapped)
    ensures |s.nodes| == |g.preds| == 6 && IsStream(g, s.nodes, 1, 2)
  {
  }

  // Only the source and the split are above a split.
  lemma MergeIsPatient(g: Graph, nodes: seq<Node>, swapped: bool)
    requires Acyclic(g) && Links(g, swapped) && |nodes| == 6
    requires nodes[0].op.RawData? && nodes[1].op == Output([]) && nodes[2].op.RawData? && nodes[3].op.RawData?
    requires nodes[4].op == Intersection && nodes[5].op == Output([])
    ensures PatientAboveSplits(g, nodes) && !AboveSplit(g, nodes, 4)
  {
    forall i | 0 <= i < 6 ensures 5 !in g.preds[i] && (4 in g.preds[i] ==> i == 5) {
      assert i == 0 || i == 1 || i == 2 || i == 3 || i == 4 || i == 5;
    }
    hide Links, Acyclic;
    assert !AboveSplit(g, nodes, 5);
    assert !AboveSplit(g, nodes, 4);
  }

  lemma MergeDrains(g: Graph, nodes: seq<Node>, swapped: bool)
    requires Acyclic(g) && Links(g, swapped) && |nodes| == 6 && nodes[5].op == Output([])
    ensures Drains(g, nodes, [5], 4)
  {
    assert g.preds[5][0] == 4 && Waits(nodes[5].op, |g.preds[5]|, 0);
    assert Drains(g, nodes, [5], 5);
  }

  lemma MergeIsCareful(g: Graph, s: Sched, a: seq<Row>, b: seq<Row>, swapped: bool)
    requires Acyclic(g) && Merges(g, s, a, b, swapped)
    ensures |s.nodes| == |g.preds| == 6 && Untouched(g, s) && Unread(g, [5]) && OneReader(g, s.nodes)
    ensures Careful(g, s.nodes, [5], ForestClock(g, s.nodes)) && ForestClock(g, s.nodes).inside[4]
    ensures OnlyStream(g, s.nodes, 1, 2) && Drains(g, s.nodes, [5], 4)
    ensures |g.preds[4]| == 2 && g.preds[4][if swapped then 1 else 0] == 2 && !s.nodes[4].op.RawData?
  {
    MergeStreams(g, s, a, b, swapped);
    MergeIsRead(g, s.nodes, swapped);
    assert OnlyStream(g, s.nodes, 1, 2);
    assert |g.preds[4]| == 2 && g.preds[4][if swapped then 1 else 0] == 2;
    hide Acyclic, Links, OneReader, Unread, AllFit, AboveSplit, PatientAboveSplits, Careful, Drains, OnlyStream;
    MergeIsPatient(g, s.nodes, swapped);
    MergeDrains(g, s.nodes, swapped);
    UntouchedFits(g, s);
    PatientIsCareful(g, s.nodes, [5]);
  }

  lemma MergeMeans(g: Graph, s: Sched, a: seq<Row>, b: seq<Row>, swapped: bool)
    requires Acyclic(g) && Merges(g, s, a, b, swapped) && AllFit(g, s.nodes)
    ensures forall x :: 0 <= x < |s.nodes| ==> GraphMeaning.FreshOp(s.nodes[x].op)
    ensures Means(g, s.nodes, 1) == a && Unneeded(g, s.nodes, 4, if swapped then 1 else 0) == MergeLeft(a, b)
  {
    BelowSources(g, s, a, b, swapped);
    hide Means, Acyclic;
    if swapped {
      assert MeansOfPreds(g, s.nodes, 4) == [b, a];
      IntersectionLeaves(b, a);
    } else {
      assert MeansOfPreds(g, s.nodes, 4) == [a, b];
      IntersectionLeaves(a, b);
    }
  }

  lemma BelowSources(g: Graph, s: Sched, a: seq<Row>, b: seq<Row>, swapped: bool)
    requires Acyclic(g) && Merges(g, s, a, b, swapped) && AllFit(g, s.nodes)
    ensures forall x :: 0 <= x < |s.nodes| ==> GraphMeaning.FreshOp(s.nodes[x].op)
    ensures Means(g, s.nodes, 1) == a && Means(g, s.nodes, 2) == a && Means(g, s.nodes, 3) == b
  {
    assert g.preds[0] == [] && g.preds[1] == [0] && g.preds[2] == [1] && g.preds[3] == [];
    hide Links, AllFit, Acyclic;
    assert Means(g, s.nodes, 0) == a;
    assert MeansOfPreds(g, s.nodes, 1)[0] == a;
  }

  // On strictly increasing keys: the split takes all of a exactly if a has at most one
  // row or the last key of the other source reaches the last key of a but one.
  lemma SplitTakesAllIfReached(g: Graph, s: Sched, a: seq<Row>, b: seq<Row>, swapped: bool) returns (n: nat)
    requires Acyclic(g) && Merges(g, s, a, b, swapped) && Increasing(a) && Increasing(b)
    ensures
      var t := Turns(g, [5], s, n);
      && Over([5], t)
      && (t.nodes[1].produced == a <==> |a| <= 1 || (b != [] && a[|a| - 2].key <= b[|b| - 1].key))
  {
    hide Turns, Merges, MergeLeft, Acyclic, Reseed;
    n := SplitTakesAllIff(g, s, a, b, swapped);
    LeavesOneIff(a, b);
  }

  // ------------------------------------------------------------------------ an instance

  const GRAPH := Graph([[], [0], [1], [], [2, 3], [4]], [0, 1, 2, 2, 3, 4])

  const PAIR := [Row(1, 10), Row(2, 20)]

  // Beside the pair of rows the other source is empty.
  const START := Sched([
    Node(RawData(PAIR, -1), false, Idle, NO_ROW, []), Node(Output([]), false, Idle, NO_ROW, []),
    Node(RawData([], -1), false, Idle, NO_ROW, []), Node(RawData([], -1), false, Idle, NO_ROW, []),
    Node(Intersection, false, Idle, NO_ROW, []), Node(Output([]), false, Idle, NO_ROW, [])], [], [])

  lemma GraphIsAcyclic()
    ensures Acyclic(GRAPH)
  {
    forall f | 0 <= f < 6
      ensures InRange(GRAPH.preds[f], 6)
      ensures forall k :: 0 <= k < |GRAPH.preds[f]| ==> GRAPH.rank[GRAPH.preds[f][k]] < GRAPH.rank[f]
    {
      assert f == 0 || f == 1 || f == 2 || f == 3 || f == 4 || f == 5;
    }
  }

  lemma GraphFits()
    requires Acyclic(GRAPH)
    ensures AllFit(GRAPH, START.nodes)
  {
    forall f | 0 <= f < 6 ensures FitsAt(GRAPH, START.nodes, f) {
      assert f == 0 || f == 1 || f == 2 || f == 3 || f == 4 || f == 5;
    }
  }

  lemma GraphIsUntouched()
    requires Acyclic(GRAPH)
    ensures Untouched(GRAPH, START)
  {
    GraphFits();
    hide Acyclic, AllFit;
    forall f | 0 <= f < 6
      ensures START.nodes[f].status == Idle && !START.nodes[f].hasValue && START.nodes[f].produced == []
      ensures GRAPH.preds[f] != [] && START.nodes[f].op.RawData? ==> START.nodes[f].op == RawData([], -1)
      ensures GraphMeaning.FreshOp(START.nodes[f].op)
    {
      assert f == 0 || f == 1 || f == 2 || f == 3 || f == 4 || f == 5;
    }
  }

  lemma GraphMerges()
    ensures Acyclic(GRAPH) && Merges(GRAPH, START, PAIR, [], false) && PatientAboveSplits(GRAPH, START.nodes)
  {
    GraphIsAcyclic();
    GraphIsUntouched();
    hide Acyclic, Untouched, PatientAboveSplits, AboveSplit;
    MergeIsPatient(GRAPH, START.nodes, false);
  }

  // run() is over although the split has taken only the first of the two rows above it.
  lemma SplitTakesOnlyPart() returns (n: nat)
    ensures Acyclic(GRAPH) && Untouched(GRAPH, START) && PatientAboveSplits(GRAPH, START.nodes)
    ensures
      var t := Turns(GRAPH, [5], START, n);
      Over([5], t) && t.nodes[1].produced == [PAIR[0]] && Means(GRAPH, START.nodes, 1) == PAIR
  {
    GraphMerges();
    MergeMeans(GRAPH, START, PAIR, [], false);
    hide Acyclic, Merges, Turns, Means, Reseed, PatientAboveSplits;
    n := SplitTakesAllIff(GRAPH, START, PAIR, [], false);
    Front(Turns(GRAPH, [5], START, n).nodes[1].produced);
  }

  lemma Front(taken: seq<Row>)
    requires taken + Undelivered(PAIR) == PAIR
    ensures taken == [PAIR[0]]
  {
    assert |taken| == 1 && taken[0] == (taken + Undelivered(PAIR))[0];
  }
}
