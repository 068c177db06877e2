// One source, a groupby or a concat, a split and two branches of filters: exactly which lengths of
// the branches let run() give every output what it means, whatever the rows are.
module Forks {
  import opened Dataflow
  import opened Scheduler
  import opened Broadcast
  import opened Streams
  import opened BroadcastEnds
  import opened SplitFuture
  import opened Timed
  import opened SplitMeaning

  // What functor k of a branch reads.
  function Next(c: seq<nat>, k: nat): (r: nat)
    requires k < |c|
  {
    if k + 1 < |c| then c[k + 1] else 2
  }

  // A branch from its output to its stream, each functor reading the next one, and the
  // stream reading the split, which is functor 2.
  ghost predicate Branch(g: Graph, c: seq<nat>) {
    && 2 <= |c| && Distinct(c)
    && (forall k :: 0 <= k < |c| ==> 3 <= c[k] < |g.preds|)
    && forall k {:trigger g.preds[c[k]]} :: 0 <= k < |c| ==> g.preds[c[k]] == [Next(c, k)]
  }

  // Functor 0 is the source, 1 the groupby or concat, 2 the split; the output of `first` is
  // requested before that of `second`.
  ghost predicate Fork(g: Graph, first: seq<nat>, second: seq<nat>) {
    && Acyclic(g) && 3 <= |g.preds|
    && g.preds[0] == [] && g.preds[1] == [0] && g.preds[2] == [1]
    && Branch(g, first) && Branch(g, second)
    && (forall i, j :: 0 <= i < |first| && 0 <= j < |second| ==> first[i] != second[j])
    && forall x :: 3 <= x < |g.preds| ==> x in first || x in second
  }

  ghost predicate BranchNodes(nodes: seq<Node>, c: seq<nat>) {
    && (forall k :: 0 <= k < |c| ==> c[k] < |nodes|)
    && forall k :: 0 <= k < |c| ==>
         if k == 0 then nodes[c[k]].op.Output?
         else if k == |c| - 1 then nodes[c[k]].op.RawData?
         else nodes[c[k]].op.Filter?
  }

  ghost predicate ForkStart(g: Graph, first: seq<nat>, second: seq<nat>, s: Sched)
    requires Acyclic(g)
  {
    && Untouched(g, s) && BranchNodes(s.nodes, first) && BranchNodes(s.nodes, second)
    && 3 <= |s.nodes| && s.nodes[0].op.RawData? && (s.nodes[1].op.GroupBy? || s.nodes[1].op.Concat?) && s.nodes[2].op.Output?
  }

  // Whenever run() is over, every output holds what it means.
  ghost predicate RunsRight(g: Graph, outputs: seq<nat>, s: Sched)
    requires Acyclic(g) && Untouched(g, s) && InRange(outputs, |s.nodes|)
  {
    forall n: nat, k :: 0 <= k < |outputs| && Over(outputs, Turns(g, outputs, s, n)) ==>
      Turns(g, outputs, s, n).nodes[outputs[k]].produced == Means(g, s.nodes, outputs[k])
  }

  // ------------------------------------------------------------------ equal branches

  function Min(a: int, b: int): (r: int) {
    if a < b then a else b
  }

  // When the split is requested: two steps after the first stream that is visited.
  function SplitTime(a: nat, b: nat): (r: nat)
    requires 1 <= a && 1 <= b
  {
    2 + Min(2 * (a - 1), 2 * b - 1)
  }

  ghost function TimeOf(first: seq<nat>, second: seq<nat>, x: nat): (r: nat)
    requires 1 <= |first| && 1 <= |second|
  {
    if x == 0 then SplitTime(|first|, |second|) + 4
    else if x == 1 then SplitTime(|first|, |second|) + 2
    else if x == 2 then SplitTime(|first|, |second|)
    else if k :| 0 <= k < |first| && first[k] == x then 2 * k
    else if k :| 0 <= k < |second| && second[k] == x then 2 * k + 1
    else 0
  }

  lemma TimesAre(g: Graph, first: seq<nat>, second: seq<nat>)
    requires Fork(g, first, second)
    ensures forall k :: 0 <= k < |first| ==> TimeOf(first, second, first[k]) == 2 * k
    ensures forall k :: 0 <= k < |second| ==> TimeOf(first, second, second[k]) == 2 * k + 1
  {
    forall k | 0 <= k < |second| ensures TimeOf(first, second, second[k]) == 2 * k + 1 {
      assert forall i :: 0 <= i < |first| ==> first[i] != second[k];
    }
  }

  // What functor x of a branch reads.
  ghost predicate OnBranch(g: Graph, c: seq<nat>, x: nat, k: nat)
    requires x < |g.preds|
  {
    k < |c| && c[k] == x && g.preds[x] == [Next(c, k)]
  }

  lemma BranchPlace(g: Graph, c: seq<nat>, k: nat)
    requires Branch(g, c) && k < |c|
    ensures OnBranch(g, c, c[k], k)
  {
  }

  // Where a functor is: one of the first three, or on a branch.
  lemma Places(g: Graph, first: seq<nat>, second: seq<nat>, x: nat)
    requires Fork(g, first, second) && x < |g.preds|
    ensures x < 3 || (exists k: nat :: OnBranch(g, first, x, k)) || (exists k: nat :: OnBranch(g, second, x, k))
    ensures |g.preds[x]| <= 1 && (x != 0 ==> |g.preds[x]| == 1)
  {
    if 3 <= x {
      if x in first {
        var k :| 0 <= k < |first| && first[k] == x;
        BranchPlace(g, first, k);
      } else {
        var k :| 0 <= k < |second| && second[k] == x;
        BranchPlace(g, second, k);
      }
    }
  }

  // Two functors read the same one only if it is the split.
  lemma OneReads(g: Graph, first: seq<nat>, second: seq<nat>, i: nat, j: nat)
    requires Fork(g, first, second) && i < |g.preds| && j < |g.preds|
    requires g.preds[i] != [] && g.preds[i] == g.preds[j] && g.preds[i][0] != 2
    ensures i == j
  {
    Places(g, first, second, i);
    Places(g, first, second, j);
    assert forall k: nat :: OnBranch(g, first, i, k) ==> first[k + 1] == g.preds[i][0];
    assert forall k: nat :: OnBranch(g, second, i, k) ==> second[k + 1] == g.preds[i][0];
    assert forall k: nat :: OnBranch(g, first, j, k) ==> first[k + 1] == g.preds[j][0];
    assert forall k: nat :: OnBranch(g, second, j, k) ==> second[k + 1] == g.preds[j][0];
  }

  // Nobody reads the outputs.
  lemma OutputsUnread(g: Graph, first: seq<nat>, second: seq<nat>)
    requires Fork(g, first, second)
    ensures Unread(g, [first[0], second[0]])
  {
    var outputs: seq<nat> := [first[0], second[0]];
    forall f, k | 0 <= f < |g.preds| && 0 <= k < |g.preds[f]| ensures g.preds[f][k] !in outputs {
      Places(g, first, second, f);
      if l: nat :| OnBranch(g, first, f, l) {
        assert l + 1 < |first| ==> first[l + 1] == g.preds[f][k];
      } else if l: nat :| OnBranch(g, second, f, l) {
        assert l + 1 < |second| ==> second[l + 1] == g.preds[f][k];
      }
    }
  }

  lemma ForkIsShaped(g: Graph, first: seq<nat>, second: seq<nat>, s: Sched)
    requires Fork(g, first, second) && ForkStart(g, first, second, s)
    ensures Shaped(g, s.nodes) && Unread(g, [first[0], second[0]]) && OneReader(g, s.nodes)
  {
    forall i, k, j, l | 0 <= i < |g.preds| && 0 <= k < |g.preds[i]| && 0 <= j < |g.preds| && 0 <= l < |g.preds[j]|
      ensures g.preds[i][k] == g.preds[j][l] && !s.nodes[g.preds[i][k]].op.Output? ==> i == j && k == l
    {
      Places(g, first, second, i);
      Places(g, first, second, j);
      assert g.preds[i] == [g.preds[i][k]] && g.preds[j] == [g.preds[j][l]];
      if g.preds[i][k] == g.preds[j][l] && g.preds[i][k] != 2 {
        OneReads(g, first, second, i, j);
      }
    }
    OutputsUnread(g, first, second);
  }

  ghost function ForkClock(g: Graph, first: seq<nat>, second: seq<nat>): (c: Clock)
    requires 1 <= |first| && 1 <= |second|
    ensures |c.inside| == |c.time| == |g.preds| && c.span == 2
    ensures forall x :: 0 <= x < |g.preds| ==> c.inside[x] && c.time[x] == TimeOf(first, second, x)
  {
    Clock(seq(|g.preds|, x => true), seq(|g.preds|, x requires 0 <= x < |g.preds| => TimeOf(first, second, x)), 2)
  }

  // The times that occur.
  lemma TimeIs(g: Graph, first: seq<nat>, second: seq<nat>, x: nat)
    requires Fork(g, first, second) && x < |g.preds|
    ensures
      var t, split := TimeOf(first, second, x), SplitTime(|first|, |second|);
      t == split || t == split + 2 || t == split + 4 || (exists k :: 0 <= k < |first| && t == 2 * k)
      || (exists k :: 0 <= k < |second| && t == 2 * k + 1)
  {
    TimesAre(g, first, second);
    hide TimeOf;
    Places(g, first, second, x);
    ThreeTimes(first, second);
    if k: nat :| OnBranch(g, first, x, k) {
      assert TimeOf(first, second, x) == 2 * k;
    } else if k: nat :| OnBranch(g, second, x, k) {
      assert TimeOf(first, second, x) == 2 * k + 1;
    }
  }

  lemma ThreeTimes(first: seq<nat>, second: seq<nat>)
    requires 1 <= |first| && 1 <= |second|
    ensures TimeOf(first, second, 0) == SplitTime(|first|, |second|) + 4
    ensures TimeOf(first, second, 1) == SplitTime(|first|, |second|) + 2
    ensures TimeOf(first, second, 2) == SplitTime(|first|, |second|)
  {
  }

  // The gap before the split's time, when the branches have the right lengths.
  lemma Waits(g: Graph, first: seq<nat>, second: seq<nat>, i: nat)
    requires Fork(g, first, second) && (|first| == |second| || |first| == |second| + 1) && i < |g.preds|
    requires g.preds[i] != []
    ensures
      var t, t' := TimeOf(first, second, i), TimeOf(first, second, g.preds[i][0]);
      && t < t' <= t + 2 && (t' == t + 2 || (t' == t + 1 && g.preds[i][0] == 2))
  {
    TimesAre(g, first, second);
    hide TimeOf;
    Places(g, first, second, i);
    ThreeTimes(first, second);
    if k: nat :| OnBranch(g, first, i, k) {
      assert TimeOf(first, second, i) == 2 * k;
      assert k + 1 < |first| ==> TimeOf(first, second, first[k + 1]) == 2 * (k + 1);
    } else if k: nat :| OnBranch(g, second, i, k) {
      assert TimeOf(first, second, i) == 2 * k + 1;
      assert k + 1 < |second| ==> TimeOf(first, second, second[k + 1]) == 2 * (k + 1) + 1;
    }
  }

  lemma ForkIsCareful(g: Graph, first: seq<nat>, second: seq<nat>, nodes: seq<Node>)
    requires Fork(g, first, second) && |nodes| == |g.preds| && (|first| == |second| || |first| == |second| + 1)
    ensures Careful(g, nodes, [first[0], second[0]], ForkClock(g, first, second))
  {
    var c := ForkClock(g, first, second);
    TimesAre(g, first, second);
    hide TimeOf, Fork, SplitTime;
    forall i, k | 0 <= i < |nodes| && 0 <= k < |g.preds[i]| ensures EdgeTimed(g, nodes, c, i, g.preds[i][k]) {
      Places(g, first, second, i);
      Waits(g, first, second, i);
      forall x | 0 <= x < |nodes| ensures c.time[x] <= c.time[g.preds[i][k]] || c.time[i] + 2 < c.time[x] {
        NoTimeBetween(g, first, second, i, x);
      }
    }
  }

  lemma NoTimeBetween(g: Graph, first: seq<nat>, second: seq<nat>, i: nat, x: nat)
    requires Fork(g, first, second) && (|first| == |second| || |first| == |second| + 1) && i < |g.preds| && x < |g.preds|
    requires g.preds[i] != []
    ensures
      TimeOf(first, second, x) <= TimeOf(first, second, g.preds[i][0]) || TimeOf(first, second, i) + 2 < TimeOf(first, second, x)
  {
    Waits(g, first, second, i);
    TimeIs(g, first, second, x);
    TimeIs(g, first, second, i);
    ThreeTimes(first, second);
    hide TimeOf, Fork;
  }

  // With branches of equal length, or the first one longer by one, all is well.
  lemma FittingBranches(g: Graph, first: seq<nat>, second: seq<nat>, s: Sched)
    requires Fork(g, first, second) && (|first| == |second| || |first| == |second| + 1) && ForkStart(g, first, second, s)
    ensures InRange([first[0], second[0]], |s.nodes|) && RunsRight(g, [first[0], second[0]], s)
  {
    var outputs: seq<nat>, c := [first[0], second[0]], ForkClock(g, first, second);
    ForkIsShaped(g, first, second, s);
    ForkIsCareful(g, first, second, s.nodes);
    hide Careful, OneReader, Untouched, Means, Turns;
    forall n: nat, k | 0 <= k < |outputs| && Over(outputs, Turns(g, outputs, s, n))
      ensures Turns(g, outputs, s, n).nodes[outputs[k]].produced == Means(g, s.nodes, outputs[k])
    {
      RunMeans(g, outputs, c, s, n, outputs[k]);
      OverIsEnded(g, outputs, s, n);
    }
  }

  lemma OverIsEnded(g: Graph, outputs: seq<nat>, s: Sched, n: nat)
    requires Acyclic(g) && Unused(g, s) && Unread(g, outputs) && InRange(outputs, |s.nodes|)
    requires Over(outputs, Turns(g, outputs, s, n))
    ensures forall k :: 0 <= k < |outputs| ==> Turns(g, outputs, s, n).nodes[outputs[k]].status == Ended
  {
    UnusedIsInv(g, outputs, s);
    InvStays(g, outputs, s, n);
    var t := Turns(g, outputs, s, n);
    hide Turns, AllFit, AllEnded;
    OverMeans(t, outputs);
  }
}
