// A small graph on which the engine reads "no value" as "the input has ended" too early,
// and when a single such reading matters.
module EarlyEnd {
  import opened Operators
  import opened Dataflow
  import opened Scheduler
  import opened StreamMeaning
  import opened Broadcast
  import opened Streams
  import opened BroadcastEnds
  import opened SplitMeaning
  import opened Forks
  import opened UnevenForks

  // source 0 -> groupby 1 -> split 2 -> streams 3 and 4; 3 -> output 5;
  // 4 -> filter 6 -> output 7
  const GRAPH := Graph([[], [0], [1], [2], [2], [3], [4], [6]], [0, 1, 2, 3, 3, 4, 4, 5])

  const FIRST: seq<nat> := [5, 3]

  const SECOND: seq<nat> := [7, 6, 4]

  const OUTPUTS: seq<nat> := [5, 7]

  lemma FirstIsBranch()
    ensures Branch(GRAPH, FIRST)
  {
    forall k | 0 <= k < |FIRST| ensures GRAPH.preds[FIRST[k]] == [Next(FIRST, k)] {
      assert k == 0 || k == 1;
    }
  }

  lemma SecondIsBranch()
    ensures Branch(GRAPH, SECOND)
  {
    forall k | 0 <= k < |SECOND| ensures GRAPH.preds[SECOND[k]] == [Next(SECOND, k)] {
      assert k == 0 || k == 1 || k == 2;
    }
  }

  lemma GraphIsAcyclic()
    ensures Acyclic(GRAPH)
  {
    forall f | 0 <= f < 8 ensures InRange(GRAPH.preds[f], 8) && forall k :: 0 <= k < |GRAPH.preds[f]| ==> GRAPH.rank[GRAPH.preds[f][k]] < GRAPH.rank[f] {
      assert f == 0 || f == 1 || f == 2 || f == 3 || f == 4 || f == 5 || f == 6 || f == 7;
    }
  }

  lemma GraphIsFork()
    ensures Fork(GRAPH, FIRST, SECOND)
  {
    hide Branch, Acyclic;
    FirstIsBranch();
    SecondIsBranch();
    GraphIsAcyclic();
    forall x | 3 <= x < 8 ensures x in FIRST || x in SECOND {
      assert FIRST[0] == 5 && FIRST[1] == 3 && SECOND[0] == 7 && SECOND[1] == 6 && SECOND[2] == 4;
    }
  }

  // run() on it ends with both outputs beginning with two records of the second group,
  // where one is meant.
  lemma EndsGroupEarly() returns (n: nat)
    ensures
      var s := Witness(GRAPH, FIRST, SECOND, FRESH);
      && InRange(OUTPUTS, |s.nodes|) && Untouched(GRAPH, s) && s.nodes[0].op == RawData(ROWS, -1)
      && Over(OUTPUTS, Turns(GRAPH, OUTPUTS, s, n))
      && forall o :: o in OUTPUTS ==>
           && [Row(2, 10), Row(2, 20)] <= Turns(GRAPH, OUTPUTS, s, n).nodes[o].produced
           && Means(GRAPH, s.nodes, o) == [Row(2, 10), Row(2, 50)]
  {
    hide Turns, Witness, Means, Over, Fork;
    GraphIsFork();
    ThreePlaces(GRAPH, FIRST, SECOND, FRESH);
    WitnessStarts(GRAPH, FIRST, SECOND, FRESH);
    n := UnevenRun(GRAPH, FIRST, SECOND);
    BranchMeans(GRAPH, FIRST, SECOND, FRESH, FIRST, 0);
    BranchMeans(GRAPH, FIRST, SECOND, FRESH, SECOND, 0);
    SplitMeans(GRAPH, FIRST, SECOND, FRESH);
    assert OUTPUTS == [FIRST[0], SECOND[0]];
  }

  // With a concat in place of the groupby, both outputs end with the first of three rows.
  lemma PassesOverEarly() returns (n: nat)
    ensures
      var s := Witness(GRAPH, FIRST, SECOND, Concat(0));
      && InRange(OUTPUTS, |s.nodes|) && Untouched(GRAPH, s) && s.nodes[0].op == RawData(ROWS, -1)
      && Over(OUTPUTS, Turns(GRAPH, OUTPUTS, s, n))
      && forall o :: o in OUTPUTS ==>
           Turns(GRAPH, OUTPUTS, s, n).nodes[o].produced == [ROWS[0]] && Means(GRAPH, s.nodes, o) == ROWS
  {
    hide Turns, Witness, Means, Over, Fork;
    GraphIsFork();
    ThreePlaces(GRAPH, FIRST, SECOND, Concat(0));
    WitnessStarts(GRAPH, FIRST, SECOND, Concat(0));
    n := UnevenConcatRun(GRAPH, FIRST, SECOND);
    BranchMeans(GRAPH, FIRST, SECOND, Concat(0), FIRST, 0);
    BranchMeans(GRAPH, FIRST, SECOND, Concat(0), SECOND, 0);
    SplitMeans(GRAPH, FIRST, SECOND, Concat(0));
    assert OUTPUTS == [FIRST[0], SECOND[0]];
  }

  // ------------------------------------------- when reading "ended" early is harmless

  // Closing an open group because no value was there changes the number of records
  // exactly when the next row would have continued the group.
  lemma EarlyCloseIsHarmlessIff(op: Op, run: seq<Row>, s: seq<Row>)
    requires op.GroupBy? && InGroup(op.agg, run) && SameKey(run, op.lastGroup) && op.row.key == op.lastGroup
    ensures
      var o := ProcessGroupBy(op, None);
      && o.ok && Arity(o.op, 1)
      && (|[o.value] + Rest(o.op, [s])| == |Rest(op, [s])| <==> s == [] || s[0].key != op.lastGroup)
  {
    var o := ProcessGroupBy(op, None);
    EndAggregates(op.agg, run);
    InGroupIs(op.agg, run);
    GroupMeans(op, run, s);
    hide Rest, EndGroup, InGroup, Runs;
    GroupByDelivers(o.op.agg, op.lastGroup, o.op.row, s);
    if s == [] || s[0].key != op.lastGroup {
      RunsOf(run, s, op.lastGroup);
    } else {
      MergedRun(run, s, op.lastGroup);
    }
  }

  lemma MergedRun(run: seq<Row>, s: seq<Row>, key: int)
    requires SameKey(run, key) && s != [] && s[0].key == key
    ensures |Runs(run + s)| == |Runs(s)|
  {
    var n := RunLength(s, key);
    var first, others := s[..n], s[n..];
    hide Runs;
    SamePieces(run, first, others, s, key);
    hide SameKey, RunLength;
    RunsOf(first, others, key);
    RunsOf(run + first, others, key);
  }

  lemma SamePieces(run: seq<Row>, first: seq<Row>, others: seq<Row>, s: seq<Row>, key: int)
    requires SameKey(run, key) && s == first + others && first != [] && forall i :: 0 <= i < |first| ==> first[i].key == key
    ensures SameKey(first, key) && SameKey(run + first, key) && run + first + others == run + s
  {
  }

  // Passing over a stream of concat because no value was there loses rows exactly
  // when the stream has any left.
  lemma EarlyPassIsHarmlessIff(streams: seq<seq<Row>>, at: nat)
    requires at < |streams|
    ensures Rest(Concat(at + 1), streams) == Rest(Concat(at), streams) <==> streams[at] == []
  {
    ConcatMeans(streams, at);
    ConcatMeans(streams, at + 1);
    hide Rest;
    Unfold(streams[at..]);
    assert streams[at..][1..] == streams[at + 1..];
  }
}
