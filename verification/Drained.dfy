// Which functors, and so which splits, deliver all that they mean: those from which some
// way leads to an output through operators that end only after the input on that way.
module Drained {
  import opened Operators
  import opened Dataflow
  import opened Scheduler
  import GraphMeaning
  import opened Broadcast
  import opened Streams
  import opened BroadcastEnds
  import opened SplitFuture
  import opened Alternation
  import opened Timed
  import opened SplitMeaning

  // The operator with n inputs ends only after its k-th one.
  predicate Waits(op: Op, n: nat, k: nat) {
    match op
    case Intersection => false
    case Difference => 2 <= n && k == 0
    case Union => 2 <= n
    case _ => true
  }

  // Functor x is an output, or a functor that ends only after it and so before an output.
  ghost predicate Drains(g: Graph, nodes: seq<Node>, outputs: seq<nat>, x: nat)
    requires Acyclic(g) && |nodes| == |g.preds| && x < |nodes|
    decreases Above(g.rank) - g.rank[x]
  {
    x in outputs ||
    exists i, k :: 0 <= i < |nodes| && 0 <= k < |g.preds[i]| && g.preds[i][k] == x
      && Waits(nodes[i].op, |g.preds[i]|, k) && Drains(g, nodes, outputs, i)
  }

  // What Waits looks at stays the same.
  predicate SameKind(a: Op, b: Op) {
    && (a.Intersection? <==> b.Intersection?) && (a.Difference? <==> b.Difference?)
    && (a.Union? <==> b.Union?) && (a.Concat? <==> b.Concat?)
  }

  ghost predicate SameKinds(base: seq<Node>, nodes: seq<Node>) {
    |nodes| == |base| && forall f :: 0 <= f < |nodes| ==> SameKind(base[f].op, nodes[f].op)
  }

  // What concat has passed over has ended.
  ghost predicate SkipsEnded(g: Graph, nodes: seq<Node>)
    requires Acyclic(g) && |nodes| == |g.preds|
  {
    forall f, k :: 0 <= f < |nodes| && 0 <= k < |g.preds[f]| && nodes[f].op.Concat? && k < nodes[f].op.at ==>
      nodes[g.preds[f][k]].status == Ended
  }

  lemma CallSkips(g: Graph, nodes: seq<Node>, f: nat, reset: bool, k: nat)
    requires Acyclic(g) && AllFit(g, nodes) && CanRun(g, nodes, f) && k < |g.preds[f]|
    requires forall l :: 0 <= l < |g.preds[f]| ==> nodes[g.preds[f][l]].hasValue || nodes[g.preds[f][l]].status == Ended
    requires nodes[f].op.Concat? && (k < nodes[f].op.at ==> nodes[g.preds[f][k]].status == Ended)
    ensures
      var op := RunBroadcast(g, nodes, f, reset)[f].op;
      op.Concat? && (k < op.at ==> k < nodes[f].op.at || !nodes[g.preds[f][k]].hasValue)
  {
    RunAt(g, nodes, f, reset, f);
    hide RunBroadcast;
    var heads := HeadsOf(g, nodes, f);
    assert heads[k].None? ==> !nodes[g.preds[f][k]].hasValue;
  }

  lemma KindStaysInCall(op: Op, heads: seq<Option<Row>>)
    requires op.RawData? || Arity(op, |heads|)
    ensures SameKind(op, Outcomes(op, heads).op)
  {
  }

  lemma TurnKinds(g: Graph, s: Sched, x: nat)
    requires Acyclic(g) && CanTurn(g, s) && AllFit(g, s.nodes) && x < |s.nodes|
    ensures |Turn(g, s).nodes| == |s.nodes| && SameKind(s.nodes[x].op, Turn(g, s).nodes[x].op)
    ensures Called(g, s) != Some(x) && s.nodes[x].op.Concat? ==> Turn(g, s).nodes[x].op == s.nodes[x].op
  {
    TurnNode(g, s, x);
    if Called(g, s).Some? {
      var f := Called(g, s).value;
      RunAt(g, s.nodes, f, s.queue == [], x);
      Runnable(g, s.nodes, f);
      KindStaysInCall(s.nodes[f].op, HeadsOf(g, s.nodes, f));
      hide Turn, RunBroadcast, ProcessIn, Outcomes, HeadsOf;
    }
  }

  lemma TurnSkips(g: Graph, outputs: seq<nat>, c: Clock, s: Sched, base: seq<Node>)
    requires Acyclic(g) && Whole(g, outputs, c, s) && Unread(g, outputs) && CanTurn(g, s) && SkipsEnded(g, s.nodes)
    requires EndsStay(s.nodes, Turn(g, s).nodes) && SameKinds(base, s.nodes)
    ensures SkipsEnded(g, Turn(g, s).nodes) && SameKinds(base, Turn(g, s).nodes)
  {
    var t := Turn(g, s);
    hide Turn, CanTurn, Careful, OnTime, AllStreams, AllTakeTurns, OneReader;
    forall f, k | 0 <= f < |t.nodes| && 0 <= k < |g.preds[f]| && t.nodes[f].op.Concat? && k < t.nodes[f].op.at
      ensures s.nodes[g.preds[f][k]].status == Ended
    {
      TurnKinds(g, s, f);
      if Called(g, s) == Some(f) {
        CalledFed(g, outputs, c, s, f);
        TurnNode(g, s, f);
        CalledCanRun(g, s);
        CallSkips(g, s.nodes, f, s.queue == [], k);
      }
    }
    forall f | 0 <= f < |t.nodes| ensures SameKind(base[f].op, t.nodes[f].op) {
      TurnKinds(g, s, f);
    }
  }

  lemma CalledCanRun(g: Graph, s: Sched)
    requires CanTurn(g, s)
    ensures Called(g, s).Some? ==> CanRun(g, s.nodes, Called(g, s).value)
  {
  }

  lemma RoundSkips(g: Graph, outputs: seq<nat>, c: Clock, s: Sched, base: seq<Node>)
    requires Acyclic(g) && Whole(g, outputs, c, s) && Unread(g, outputs) && SkipsEnded(g, s.nodes) && SameKinds(base, s.nodes)
    ensures InRange(outputs, |s.nodes|)
    ensures SkipsEnded(g, Round(g, outputs, s).nodes) && SameKinds(base, Round(g, outputs, s).nodes)
  {
    if s.queue == [] && s.stack == [] {
      ReseedRelabels(s, outputs, outputs);
      hide Reseed, Careful, OnTime, AllStreams, AllTakeTurns, AllEnded, AllFit, OneReader;
    } else {
      hide Careful, OnTime, AllStreams, AllTakeTurns, AllEnded, AllFit, OneReader, Turn, SkipsEnded, SameKinds;
      TurnKeeps(g, outputs, s);
      TurnSkips(g, outputs, c, s, base);
    }
  }

  lemma {:induction false} RunSkips(g: Graph, outputs: seq<nat>, c: Clock, s: Sched, base: seq<Node>, total: seq<seq<Row>>, n: nat)
    requires Acyclic(g) && Whole(g, outputs, c, s) && Unread(g, outputs) && SkipsEnded(g, s.nodes) && SameKinds(base, s.nodes)
    requires Conserves(g, s.nodes, total)
    ensures InRange(outputs, |s.nodes|) && |Turns(g, outputs, s, n).nodes| == |g.preds|
    ensures SkipsEnded(g, Turns(g, outputs, s, n).nodes) && SameKinds(base, Turns(g, outputs, s, n).nodes)
    decreases n
  {
    hide Whole, Round, Conserves, SkipsEnded, SameKinds;
    RoundWhole(g, outputs, c, s, total);
    RoundSkips(g, outputs, c, s, base);
    WholeFits(g, outputs, c, s);
    WholeFits(g, outputs, c, Round(g, outputs, s));
    if n != 0 {
      RunSkips(g, outputs, c, Round(g, outputs, s), base, total, n - 1);
    }
  }

  // An operator that waits for its k-th input ends after it.
  lemma EndsLast(g: Graph, outputs: seq<nat>, nodes: seq<Node>, i: nat, k: nat)
    requires Acyclic(g) && AllFit(g, nodes) && AllEnded(g, outputs, nodes) && SkipsEnded(g, nodes)
    requires i < |nodes| && k < |g.preds[i]| && nodes[i].status == Ended && Waits(nodes[i].op, |g.preds[i]|, k)
    ensures nodes[g.preds[i][k]].status == Ended
  {
    assert EndedAt(g, outputs, nodes, i) && FitsAt(g, nodes, i);
    var gone := Gone(g, nodes, i);
    assert gone[k] == (nodes[g.preds[i][k]].status == Ended);
  }

  lemma {:induction false} DrainedHasEnded(g: Graph, outputs: seq<nat>, base: seq<Node>, nodes: seq<Node>, x: nat)
    requires Acyclic(g) && AllFit(g, nodes) && AllEnded(g, outputs, nodes) && SkipsEnded(g, nodes) && SameKinds(base, nodes)
    requires InRange(outputs, |nodes|) && forall k :: 0 <= k < |outputs| ==> nodes[outputs[k]].status == Ended
    requires x < |nodes| && Drains(g, base, outputs, x)
    ensures nodes[x].status == Ended
    decreases Above(g.rank) - g.rank[x]
  {
    if x !in outputs {
      var i, k :| 0 <= i < |nodes| && 0 <= k < |g.preds[i]| && g.preds[i][k] == x
        && Waits(base[i].op, |g.preds[i]|, k) && Drains(g, base, outputs, i);
      assert SameKind(base[i].op, nodes[i].op);
      DrainedHasEnded(g, outputs, base, nodes, i);
      EndsLast(g, outputs, nodes, i, k);
    }
  }

  // Whenever all outputs have ended, so has every functor that drains into one, having
  // delivered all that it means.
  lemma EndDelivers(g: Graph, outputs: seq<nat>, c: Clock, s: Sched, n: nat)
    requires Acyclic(g) && Untouched(g, s) && Unread(g, outputs) && OneReader(g, s.nodes) && Careful(g, s.nodes, outputs, c)
    requires InRange(outputs, |s.nodes|)
    requires forall k :: 0 <= k < |outputs| ==> Turns(g, outputs, s, n).nodes[outputs[k]].status == Ended
    ensures |s.nodes| == |g.preds|
    ensures forall x :: 0 <= x < |s.nodes| && Drains(g, s.nodes, outputs, x) ==>
      && Turns(g, outputs, s, n).nodes[x].status == Ended
      && Turns(g, outputs, s, n).nodes[x].produced == Means(g, s.nodes, x)
  {
    hide Turns, Means, Careful, OneReader, AllFit, AllEnded, SkipsEnded, SameKinds, Unread, Drains;
    StateAt(g, outputs, c, s, n);
    var t := Turns(g, outputs, s, n);
    forall x | 0 <= x < |s.nodes| && Drains(g, s.nodes, outputs, x)
      ensures t.nodes[x].status == Ended && t.nodes[x].produced == Means(g, s.nodes, x)
    {
      DrainedHasEnded(g, outputs, s.nodes, t.nodes, x);
      RunMeans(g, outputs, c, s, n, x);
    }
  }

  // Every functor that drains into an output ends, and has delivered all that it means.
  lemma EveryFunctorDelivers(g: Graph, outputs: seq<nat>, c: Clock, s: Sched) returns (n: nat)
    requires Acyclic(g) && Untouched(g, s) && Unread(g, outputs) && OneReader(g, s.nodes) && Careful(g, s.nodes, outputs, c)
    ensures InRange(outputs, |s.nodes|)
    ensures
      var t := Turns(g, outputs, s, n);
      && Over(outputs, t)
      && forall x :: 0 <= x < |s.nodes| && Drains(g, s.nodes, outputs, x) ==>
           t.nodes[x].status == Ended && t.nodes[x].produced == Means(g, s.nodes, x)
  {
    hide Turns, Means, Careful, OneReader, Unread, Drains, Reseed;
    n := EveryRunEnds(g, outputs, s);
    EndDelivers(g, outputs, c, s, n);
  }

  // Above splits only sources, streams, filters and splits: every split that drains into
  // an output on some way, through any of its streams, has taken all of what it reads,
  // and every stream that does so itself has delivered it, once and in order.
  lemma EveryStreamDelivers(g: Graph, outputs: seq<nat>, s: Sched) returns (n: nat)
    requires Acyclic(g) && Untouched(g, s) && Unread(g, outputs) && OneReader(g, s.nodes) && PatientAboveSplits(g, s.nodes)
    ensures InRange(outputs, |s.nodes|)
    ensures
      var t := Turns(g, outputs, s, n);
      && Over(outputs, t)
      && forall p: nat, j: nat, u: nat :: IsStream(g, s.nodes, p, j) && g.preds[p] == [u] && u < |s.nodes| ==>
           && (Drains(g, s.nodes, outputs, p) ==> t.nodes[p].produced == Means(g, s.nodes, u))
           && (Drains(g, s.nodes, outputs, j) ==>
                 Drains(g, s.nodes, outputs, p) && t.nodes[j].produced == Means(g, s.nodes, u))
  {
    hide Turns, OneReader, Means, AllFit, Untouched, PatientAboveSplits, Careful, Drains, Reseed;
    UntouchedFits(g, s);
    PatientIsCareful(g, s.nodes, outputs);
    n := EveryFunctorDelivers(g, outputs, ForestClock(g, s.nodes), s);
    hide Acyclic;
    forall p: nat, j: nat, u: nat | IsStream(g, s.nodes, p, j) && g.preds[p] == [u] && u < |s.nodes|
      ensures Means(g, s.nodes, p) == Means(g, s.nodes, u) && Means(g, s.nodes, j) == Means(g, s.nodes, u)
      ensures Drains(g, s.nodes, outputs, j) ==> Drains(g, s.nodes, outputs, p)
    {
      SplitMeansInput(g, s.nodes, p, j, u);
      SplitDrains(g, s.nodes, outputs, p, j);
    }
  }

  lemma SplitDrains(g: Graph, nodes: seq<Node>, outputs: seq<nat>, p: nat, j: nat)
    requires Acyclic(g) && IsStream(g, nodes, p, j)
    ensures Drains(g, nodes, outputs, j) ==> Drains(g, nodes, outputs, p)
  {
    assert g.preds[j][0] == p;
  }

  lemma SplitMeansInput(g: Graph, nodes: seq<Node>, p: nat, j: nat, u: nat)
    requires Acyclic(g) && AllFit(g, nodes) && IsStream(g, nodes, p, j) && g.preds[p] == [u] && u < |nodes|
    requires forall x :: 0 <= x < |nodes| ==> GraphMeaning.FreshOp(nodes[x].op)
    ensures Means(g, nodes, p) == Means(g, nodes, u) && Means(g, nodes, j) == Means(g, nodes, u)
  {
    assert FitsAt(g, nodes, p) && FitsAt(g, nodes, j);
    assert MeansOfPreds(g, nodes, p)[0] == Means(g, nodes, u);
  }

  lemma StateAt(g: Graph, outputs: seq<nat>, c: Clock, s: Sched, n: nat)
    requires Acyclic(g) && Untouched(g, s) && Unread(g, outputs) && OneReader(g, s.nodes) && Careful(g, s.nodes, outputs, c)
    ensures InRange(outputs, |s.nodes|) && |s.nodes| == |g.preds|
    ensures AllFit(g, s.nodes) && forall x :: 0 <= x < |s.nodes| ==> GraphMeaning.FreshOp(s.nodes[x].op)
    ensures
      var nodes := Turns(g, outputs, s, n).nodes;
      AllFit(g, nodes) && AllEnded(g, outputs, nodes) && SkipsEnded(g, nodes) && SameKinds(s.nodes, nodes)
  {
    StartIsWhole(g, outputs, c, s);
    StartConserves(g, s);
    StartSkips(g, s);
    hide Turns, Means, Careful, OneReader, Later, SkipsEnded, SameKinds, OnTime, AllStreams, AllTakeTurns, AllFit, AllEnded, Conserves;
    RunConserves(g, outputs, c, s, Denotations(g, s.nodes), n);
    RunSkips(g, outputs, c, s, s.nodes, Denotations(g, s.nodes), n);
  }

  lemma StartSkips(g: Graph, s: Sched)
    requires Acyclic(g) && Untouched(g, s)
    ensures |s.nodes| == |g.preds| && SkipsEnded(g, s.nodes) && SameKinds(s.nodes, s.nodes)
  {
    hide FitsAt;
    forall f | 0 <= f < |s.nodes| ensures s.nodes[f].op.Concat? ==> s.nodes[f].op.at == 0 {
      assert GraphMeaning.FreshOp(s.nodes[f].op);
    }
  }
}
