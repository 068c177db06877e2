// What is still to come on a graph with splits: a stream still delivers the rows it
// holds and then whatever its split will take.
module SplitFuture {
  import opened Operators
  import opened Dataflow
  import opened Broadcast
  import opened Streams

  // Only splits have more than one reader.
  ghost predicate OneReader(g: Graph, nodes: seq<Node>) {
    forall i, k, j, l | 0 <= i < |g.preds| && 0 <= k < |g.preds[i]| && 0 <= j < |g.preds| && 0 <= l < |g.preds[j]| ::
      g.preds[i][k] == g.preds[j][l] && g.preds[i][k] < |nodes| && !nodes[g.preds[i][k]].op.Output? ==> i == j && k == l
  }

  ghost predicate Shaped(g: Graph, nodes: seq<Node>) {
    Acyclic(g) && AllFit(g, nodes) && OneReader(g, nodes)
  }

  // The rows a source or stream has not delivered yet.
  function Left(op: Op): (r: seq<Row>)
    requires op.RawData? && -1 <= op.index
  {
    if op.index + 1 <= |op.rows| then op.rows[op.index + 1..] else []
  }

  // What functor i will still deliver.
  ghost function Later(g: Graph, nodes: seq<Node>, i: nat): (r: seq<Row>)
    requires Acyclic(g) && AllFit(g, nodes) && i < |nodes|
    decreases g.rank[i], 1
  {
    assert FitsAt(g, nodes, i);
    if nodes[i].op.RawData? then
      Left(nodes[i].op) + if g.preds[i] == [] then [] else Later(g, nodes, g.preds[i][0])
    else Rest(nodes[i].op, Flows(g, nodes, i))
  }

  // What the reader of functor i will still see of it.
  ghost function Flow(g: Graph, nodes: seq<Node>, i: nat): (r: seq<Row>)
    requires Acyclic(g) && AllFit(g, nodes) && i < |nodes|
    decreases g.rank[i], 2
  {
    (if nodes[i].hasValue then [nodes[i].value] else []) + Later(g, nodes, i)
  }

  ghost function Flows(g: Graph, nodes: seq<Node>, i: nat): (r: seq<seq<Row>>)
    requires Acyclic(g) && AllFit(g, nodes) && i < |nodes|
    ensures |r| == |g.preds[i]|
    ensures forall k :: 0 <= k < |r| ==> r[k] == Flow(g, nodes, g.preds[i][k])
    decreases g.rank[i], 0
  {
    seq(|g.preds[i]|, k requires 0 <= k < |g.preds[i]| => Flow(g, nodes, g.preds[i][k]))
  }

  // --------------------------------------------------------------- one call of process

  // Each predecessor holds a value or is over for good.
  ghost predicate Fed(g: Graph, nodes: seq<Node>, f: nat)
    requires Acyclic(g) && AllFit(g, nodes) && f < |nodes|
  {
    forall k :: 0 <= k < |g.preds[f]| ==> nodes[g.preds[f][k]].hasValue || Later(g, nodes, g.preds[f][k]) == []
  }

  // Operators that read one input and do nothing without a value.
  predicate Patient(op: Op) {
    op.RawData? || op.Filter? || op.Output?
  }

  // What a call needs: no value of f waits to be read, f can tell what its inputs have,
  // and the streams of f, if it is a split, have not gone past their rows.
  ghost predicate Callable(g: Graph, nodes: seq<Node>, f: nat)
    requires Acyclic(g) && AllFit(g, nodes) && CanRun(g, nodes, f)
  {
    && (HasSuccessor(g, f) ==> !nodes[f].hasValue)
    && (Patient(nodes[f].op) || Fed(g, nodes, f))
    && (ProcessIn(g, nodes, f).ok && nodes[f].op.Output? ==>
          forall j :: 0 <= j < |nodes| && nodes[j].op.RawData? && f in g.preds[j] ==> nodes[j].op.index + 1 <= |nodes[j].op.rows|)
  }

  // Functors of lower rank than f are not touched, apart from flags that f lowers.
  lemma {:induction false} LaterBelow(g: Graph, nodes: seq<Node>, nodes': seq<Node>, f: nat, x: nat)
    requires Shaped(g, nodes) && AllFit(g, nodes') && f < |nodes| && x < |nodes| && g.rank[x] < g.rank[f]
    requires forall i :: 0 <= i < |nodes| && g.rank[i] < g.rank[f] ==> nodes'[i].op == nodes[i].op
    requires forall i :: 0 <= i < |nodes| && i != f && i !in g.preds[f] ==>
      nodes'[i].hasValue == nodes[i].hasValue && nodes'[i].value == nodes[i].value
    ensures Later(g, nodes', x) == Later(g, nodes, x)
    decreases g.rank[x]
  {
    assert FitsAt(g, nodes, x);
    forall k | 0 <= k < |g.preds[x]|
      ensures Later(g, nodes', g.preds[x][k]) == Later(g, nodes, g.preds[x][k])
      ensures !nodes[x].op.RawData? ==> Flow(g, nodes', g.preds[x][k]) == Flow(g, nodes, g.preds[x][k])
    {
      LaterBelow(g, nodes, nodes', f, g.preds[x][k]);
      if !nodes[x].op.RawData? {
        NoOtherReader(g, nodes, x, k, f);
      }
    }
    if !nodes[x].op.RawData? {
      assert Flows(g, nodes', x) == Flows(g, nodes, x);
    }
  }

  // Nobody else reads a functor that holds values for x.
  lemma NoOtherReader(g: Graph, nodes: seq<Node>, x: nat, k: nat, f: nat)
    requires Shaped(g, nodes) && x < |nodes| && k < |g.preds[x]| && !nodes[x].op.RawData? && f < |nodes| && f != x
    ensures g.preds[x][k] !in g.preds[f]
  {
    assert FitsAt(g, nodes, x);
  }

  // What f delivered in a call; nodes1 is the state before.
  function Delivered(o: Outcome): (r: seq<Row>) {
    if o.ok then [o.value] else []
  }

  lemma ValueAt(g: Graph, nodes: seq<Node>, f: nat, reset: bool, x: nat)
    requires CanRun(g, nodes, f) && x < |nodes|
    ensures
      var o := ProcessIn(g, nodes, f);
      RunBroadcast(g, nodes, f, reset)[x].value == if x == f && o.ok then o.value else nodes[x].value
  {
    hide ProcessIn, Added;
  }

  // The parts of the state that matter to what is still to come.
  lemma RunFrames(g: Graph, nodes: seq<Node>, f: nat, reset: bool)
    requires Shaped(g, nodes) && CanRun(g, nodes, f)
    ensures
      var o, nodes' := ProcessIn(g, nodes, f), RunBroadcast(g, nodes, f, reset);
      && AllFit(g, nodes') && nodes'[f].op == o.op
      && (forall i :: 0 <= i < |nodes| && i != f ==> nodes'[i].op == Added(g, f, o, i, nodes[i].op))
      && (forall i :: 0 <= i < |nodes| && g.rank[i] < g.rank[f] ==> nodes'[i].op == nodes[i].op)
      && (forall i :: 0 <= i < |nodes| && i != f ==> nodes'[i].value == nodes[i].value)
      && (forall i :: 0 <= i < |nodes| && i != f && i !in g.preds[f] ==> nodes'[i].hasValue == nodes[i].hasValue)
      && (o.ok ==> nodes'[f].value == o.value && nodes'[f].hasValue == !o.op.Output?)
      && (!o.ok ==> nodes'[f].hasValue == (nodes[f].hasValue && !reset))
  {
    Streams.RunFits(g, nodes, f, reset);
    var o, nodes' := ProcessIn(g, nodes, f), RunBroadcast(g, nodes, f, reset);
    hide ProcessIn, RunBroadcast, AllFit;
    RunAt(g, nodes, f, reset, f);
    ValueAt(g, nodes, f, reset, f);
    forall i | 0 <= i < |nodes| && i != f
      ensures nodes'[i].op == Added(g, f, o, i, nodes[i].op)
      ensures nodes'[i].hasValue == (nodes[i].hasValue && !Taken(g, f, o.taken, i))
      ensures nodes'[i].value == nodes[i].value
      ensures g.rank[i] < g.rank[f] ==> nodes'[i].op == nodes[i].op
    {
      RunAt(g, nodes, f, reset, i);
      ValueAt(g, nodes, f, reset, i);
      if f in g.preds[i] {
        assert g.rank[f] < g.rank[i];
      }
    }
  }

  lemma FedHeads(g: Graph, nodes: seq<Node>, f: nat)
    requires Acyclic(g) && AllFit(g, nodes) && f < |nodes| && Fed(g, nodes, f)
    ensures HeadsOf(g, nodes, f) == Heads(Flows(g, nodes, f))
  {
    var h, h' := HeadsOf(g, nodes, f), Heads(Flows(g, nodes, f));
    forall k | 0 <= k < |h| ensures h[k] == h'[k] {
      var p := g.preds[f][k];
      assert Flows(g, nodes, f)[k] == Flow(g, nodes, p);
      assert nodes[p].hasValue || Later(g, nodes, p) == [];
    }
  }

  // The inputs of f advance by exactly the values taken.
  lemma FlowsAdvance(g: Graph, nodes: seq<Node>, f: nat, reset: bool)
    requires Shaped(g, nodes) && CanRun(g, nodes, f) && !nodes[f].op.RawData? && Fed(g, nodes, f)
    requires AllFit(g, RunBroadcast(g, nodes, f, reset))
    ensures Flows(g, RunBroadcast(g, nodes, f, reset), f) == Advance(Flows(g, nodes, f), ProcessIn(g, nodes, f).taken)
  {
    var nodes' := RunBroadcast(g, nodes, f, reset);
    var taken := ProcessIn(g, nodes, f).taken;
    var flows := Flows(g, nodes, f);
    RunFrames(g, nodes, f, reset);
    Runnable(g, nodes, f);
    FedHeads(g, nodes, f);
    assert FitsAt(g, nodes, f);
    var a, b := Flows(g, nodes', f), Advance(flows, taken);
    forall k | 0 <= k < |a| ensures a[k] == b[k] {
      var q := g.preds[f][k];
      assert g.rank[q] < g.rank[f];
      LaterBelow(g, nodes, nodes', f, q);
      RunAt(g, nodes, f, reset, q);
      hide RunBroadcast, ProcessIn, Later, Process, AllFit;
      assert flows[k] == Flow(g, nodes, q) && a[k] == Flow(g, nodes', q);
      if k in taken {
        assert Taken(g, f, taken, q);
        TakenHeld(nodes[f].op, HeadsOf(g, nodes, f), k);
        assert flows[k] == [nodes[q].value] + Later(g, nodes, q);
      } else {
        assert forall l :: 0 <= l < |g.preds[f]| && g.preds[f][l] == q ==> l == k;
        assert !Taken(g, f, taken, q);
      }
    }
  }

  // A call delivers the first part of what f was still to deliver.
  lemma CallDelivers(g: Graph, nodes: seq<Node>, f: nat, reset: bool)
    requires Shaped(g, nodes) && CanRun(g, nodes, f) && Callable(g, nodes, f)
    requires AllFit(g, RunBroadcast(g, nodes, f, reset))
    ensures Later(g, nodes, f) == Delivered(ProcessIn(g, nodes, f)) + Later(g, RunBroadcast(g, nodes, f, reset), f)
  {
    var nodes' := RunBroadcast(g, nodes, f, reset);
    var o := ProcessIn(g, nodes, f);
    RunFrames(g, nodes, f, reset);
    assert FitsAt(g, nodes, f);
    if nodes[f].op.RawData? {
      SourceCallDelivers(g, nodes, f, reset);
    } else if Fed(g, nodes, f) {
      FlowsAdvance(g, nodes, f, reset);
      FedHeads(g, nodes, f);
      RestUnfolds(nodes[f].op, Flows(g, nodes, f));
      OutcomesFit(nodes[f].op, HeadsOf(g, nodes, f));
      Runnable(g, nodes, f);
    } else {
      WaitsUnchanged(g, nodes, nodes', f);
    }
  }

  lemma LeftUnfolds(op: Op)
    requires op.RawData? && -1 <= op.index
    ensures
      var o := ProcessRawData(op);
      o.op.RawData? && -1 <= o.op.index && o.op.rows == op.rows && Left(op) == Delivered(o) + Left(o.op)
  {
    if op.rows != [] && op.index + 1 < |op.rows| {
      assert Left(op) == [op.rows[op.index + 1]] + op.rows[op.index + 2..];
    }
  }

  // What a source or stream will still deliver is what it has left, then what its split
  // will take.
  ghost function Upstream(g: Graph, nodes: seq<Node>, f: nat): (r: seq<Row>)
    requires Acyclic(g) && AllFit(g, nodes) && f < |nodes|
  {
    if g.preds[f] == [] then [] else Later(g, nodes, g.preds[f][0])
  }

  lemma LaterOfSource(g: Graph, nodes: seq<Node>, f: nat)
    requires Acyclic(g) && AllFit(g, nodes) && f < |nodes| && nodes[f].op.RawData?
    ensures -1 <= nodes[f].op.index && Later(g, nodes, f) == Left(nodes[f].op) + Upstream(g, nodes, f)
  {
    assert FitsAt(g, nodes, f);
  }

  lemma SourceCallDelivers(g: Graph, nodes: seq<Node>, f: nat, reset: bool)
    requires Shaped(g, nodes) && CanRun(g, nodes, f) && nodes[f].op.RawData?
    requires AllFit(g, RunBroadcast(g, nodes, f, reset))
    ensures Later(g, nodes, f) == Delivered(ProcessIn(g, nodes, f)) + Later(g, RunBroadcast(g, nodes, f, reset), f)
  {
    hide RunBroadcast, Later, Left, ProcessRawData;
    var nodes' := RunBroadcast(g, nodes, f, reset);
    var o := ProcessIn(g, nodes, f);
    RunFrames(g, nodes, f, reset);
    LaterOfSource(g, nodes, f);
    LeftUnfolds(nodes[f].op);
    LaterOfSource(g, nodes', f);
    if g.preds[f] != [] {
      assert g.rank[g.preds[f][0]] < g.rank[f];
      LaterBelow(g, nodes, nodes', f, g.preds[f][0]);
    }
    Associates(Delivered(o), Left(o.op), Upstream(g, nodes, f));
  }

  lemma Associates(a: seq<Row>, b: seq<Row>, c: seq<Row>)
    ensures (a + b) + c == a + (b + c)
  {
  }

  // A filter or an output without a value does nothing.
  lemma WaitsUnchanged(g: Graph, nodes: seq<Node>, nodes': seq<Node>, f: nat)
    requires Shaped(g, nodes) && AllFit(g, nodes') && CanRun(g, nodes, f)
    requires (nodes[f].op.Filter? || nodes[f].op.Output?) && !Fed(g, nodes, f)
    requires nodes'[f].op == ProcessIn(g, nodes, f).op
    requires forall i :: 0 <= i < |nodes| && g.rank[i] < g.rank[f] ==> nodes'[i].op == nodes[i].op
    requires forall i :: 0 <= i < |nodes| && i != f && i !in g.preds[f] ==>
      nodes'[i].hasValue == nodes[i].hasValue && nodes'[i].value == nodes[i].value
    requires forall i :: i in g.preds[f] ==> nodes'[i].value == nodes[i].value && (nodes'[i].hasValue ==> nodes[i].hasValue)
    ensures !ProcessIn(g, nodes, f).ok && Later(g, nodes', f) == Later(g, nodes, f)
  {
    assert FitsAt(g, nodes, f);
    var q := g.preds[f][0];
    assert !nodes[q].hasValue && g.rank[q] < g.rank[f];
    WaitsFails(g, nodes, f);
    hide Later, ProcessIn, AllFit;
    LaterBelow(g, nodes, nodes', f, q);
    assert Flow(g, nodes', q) == Flow(g, nodes, q);
    assert Flows(g, nodes', f) == Flows(g, nodes, f);
    SameRest(g, nodes, nodes', f);
  }

  lemma WaitsFails(g: Graph, nodes: seq<Node>, f: nat)
    requires CanRun(g, nodes, f) && (nodes[f].op.Filter? || nodes[f].op.Output?) && !nodes[g.preds[f][0]].hasValue
    ensures ProcessIn(g, nodes, f) == Failed(nodes[f].op)
  {
  }

  lemma SameRest(g: Graph, nodes: seq<Node>, nodes': seq<Node>, f: nat)
    requires Acyclic(g) && AllFit(g, nodes) && AllFit(g, nodes') && f < |nodes| && !nodes[f].op.RawData?
    requires nodes'[f].op == nodes[f].op && Flows(g, nodes', f) == Flows(g, nodes, f)
    ensures Later(g, nodes', f) == Later(g, nodes, f)
  {
  }

  // A stream of the split that was called.
  lemma StreamKeeps(g: Graph, nodes: seq<Node>, f: nat, reset: bool, x: nat)
    requires Shaped(g, nodes) && CanRun(g, nodes, f) && Callable(g, nodes, f) && x < |nodes| && x != f
    requires nodes[x].op.RawData? && g.preds[x] == [f] && AllFit(g, RunBroadcast(g, nodes, f, reset))
    requires Later(g, nodes, f) == Delivered(ProcessIn(g, nodes, f)) + Later(g, RunBroadcast(g, nodes, f, reset), f)
    ensures Later(g, RunBroadcast(g, nodes, f, reset), x) == Later(g, nodes, x)
  {
    hide RunBroadcast, Later, Left, ProcessIn, AllFit, Callable, Arity;
    var nodes' := RunBroadcast(g, nodes, f, reset);
    var o := ProcessIn(g, nodes, f);
    StreamTakes(g, nodes, f, reset, x);
    LaterOfSource(g, nodes, x);
    LaterOfSource(g, nodes', x);
    if o.ok {
      RowsGrow(nodes[x].op, o.value);
      Associates(Left(nodes[x].op), [o.value], Later(g, nodes', f));
    }
  }

  lemma StreamTakes(g: Graph, nodes: seq<Node>, f: nat, reset: bool, x: nat)
    requires Shaped(g, nodes) && CanRun(g, nodes, f) && Callable(g, nodes, f) && x < |nodes| && x != f
    requires nodes[x].op.RawData? && g.preds[x] == [f]
    ensures
      var o, op := ProcessIn(g, nodes, f), nodes[x].op;
      && RunBroadcast(g, nodes, f, reset)[x].op == (if o.ok then op.(rows := op.rows + [o.value]) else op)
      && (o.ok ==> op.index + 1 <= |op.rows|)
  {
    RunAt(g, nodes, f, reset, x);
    assert FitsAt(g, nodes, x) && FitsAt(g, nodes, f) && f in g.preds[x];
    Runnable(g, nodes, f);
    OutcomesFit(nodes[f].op, HeadsOf(g, nodes, f));
    hide RunBroadcast, ProcessIn, HeadsOf, Outcomes;
  }

  lemma RowsGrow(op: Op, row: Row)
    requires op.RawData? && -1 <= op.index && op.index + 1 <= |op.rows|
    ensures Left(op.(rows := op.rows + [row])) == Left(op) + [row]
  {
  }

  // The reader of f sees the same as before.
  lemma FlowKeeps(g: Graph, nodes: seq<Node>, f: nat, reset: bool)
    requires Shaped(g, nodes) && CanRun(g, nodes, f) && Callable(g, nodes, f) && HasSuccessor(g, f) && !nodes[f].op.Output?
    requires AllFit(g, RunBroadcast(g, nodes, f, reset))
    requires Later(g, nodes, f) == Delivered(ProcessIn(g, nodes, f)) + Later(g, RunBroadcast(g, nodes, f, reset), f)
    ensures Flow(g, RunBroadcast(g, nodes, f, reset), f) == Flow(g, nodes, f)
  {
    RunFrames(g, nodes, f, reset);
    assert FitsAt(g, nodes, f);
    Runnable(g, nodes, f);
    OutcomesFit(nodes[f].op, HeadsOf(g, nodes, f));
    hide RunBroadcast, Later, ProcessIn, AllFit, HeadsOf, Outcomes;
  }

  // Every other functor will still deliver the same.
  lemma {:induction false} LaterElsewhere(g: Graph, nodes: seq<Node>, f: nat, reset: bool, x: nat)
    requires Shaped(g, nodes) && CanRun(g, nodes, f) && Callable(g, nodes, f) && x < |nodes| && x != f
    requires AllFit(g, RunBroadcast(g, nodes, f, reset))
    requires Later(g, nodes, f) == Delivered(ProcessIn(g, nodes, f)) + Later(g, RunBroadcast(g, nodes, f, reset), f)
    ensures Later(g, RunBroadcast(g, nodes, f, reset), x) == Later(g, nodes, x)
    decreases g.rank[x]
  {
    var nodes' := RunBroadcast(g, nodes, f, reset);
    RunFrames(g, nodes, f, reset);
    assert FitsAt(g, nodes, x);
    hide RunBroadcast, ProcessIn, Callable, CanRun;
    if nodes[x].op.RawData? {
      if g.preds[x] == [f] {
        StreamKeeps(g, nodes, f, reset, x);
      } else {
        LaterOfSource(g, nodes, x);
        LaterOfSource(g, nodes', x);
        if g.preds[x] != [] {
          LaterElsewhere(g, nodes, f, reset, g.preds[x][0]);
        }
      }
    } else {
      forall k | 0 <= k < |g.preds[x]| ensures Flow(g, nodes', g.preds[x][k]) == Flow(g, nodes, g.preds[x][k]) {
        var q := g.preds[x][k];
        if q == f {
          assert f in g.preds[x];
          FlowKeeps(g, nodes, f, reset);
        } else {
          NoOtherReader(g, nodes, x, k, f);
          LaterElsewhere(g, nodes, f, reset, q);
        }
      }
      hide Later, Flow;
      assert Flows(g, nodes', x) == Flows(g, nodes, x);
      SameRest(g, nodes, nodes', x);
    }
  }

  // What each functor has delivered, and what it will still deliver.
  ghost predicate Conserves(g: Graph, nodes: seq<Node>, total: seq<seq<Row>>)
    requires Acyclic(g) && AllFit(g, nodes)
  {
    |total| == |nodes| && forall x :: 0 <= x < |nodes| ==> nodes[x].produced + Later(g, nodes, x) == total[x]
  }

  lemma CallConserves(g: Graph, nodes: seq<Node>, f: nat, reset: bool, total: seq<seq<Row>>)
    requires Shaped(g, nodes) && CanRun(g, nodes, f) && Callable(g, nodes, f) && Conserves(g, nodes, total)
    ensures Shaped(g, RunBroadcast(g, nodes, f, reset)) && Conserves(g, RunBroadcast(g, nodes, f, reset), total)
  {
    var nodes' := RunBroadcast(g, nodes, f, reset);
    ShapedStays(g, nodes, f, reset);
    CallDelivers(g, nodes, f, reset);
    hide RunBroadcast, ProcessIn, Callable, CanRun, AllFit, Later, OneReader;
    forall x | 0 <= x < |nodes| ensures nodes'[x].produced + Later(g, nodes', x) == total[x] {
      WorkAt(g, nodes, f, reset, x);
      if x == f {
        Associates(nodes[f].produced, Delivered(ProcessIn(g, nodes, f)), Later(g, nodes', f));
      } else {
        LaterElsewhere(g, nodes, f, reset, x);
        assert nodes'[x].produced == nodes[x].produced;
      }
    }
  }

  lemma ShapedStays(g: Graph, nodes: seq<Node>, f: nat, reset: bool)
    requires Shaped(g, nodes) && CanRun(g, nodes, f)
    ensures Shaped(g, RunBroadcast(g, nodes, f, reset))
  {
    var nodes' := RunBroadcast(g, nodes, f, reset);
    Streams.RunFits(g, nodes, f, reset);
    forall x | 0 <= x < |nodes| ensures nodes'[x].op.Output? <==> nodes[x].op.Output? {
      RunAt(g, nodes, f, reset, x);
      Runnable(g, nodes, f);
      assert FitsAt(g, nodes, f);
      OutcomesFit(nodes[f].op, HeadsOf(g, nodes, f));
      hide RunBroadcast, ProcessIn, HeadsOf, Outcomes;
    }
  }

  // Requests and statuses leave everything that is still to come.
  lemma {:induction false} LaterSame(g: Graph, nodes: seq<Node>, nodes': seq<Node>, x: nat)
    requires Acyclic(g) && AllFit(g, nodes) && AllFit(g, nodes') && |nodes'| == |nodes| && x < |nodes|
    requires forall i :: 0 <= i < |nodes| ==> nodes'[i] == nodes[i].(status := nodes'[i].status)
    ensures Later(g, nodes', x) == Later(g, nodes, x)
    decreases g.rank[x]
  {
    assert FitsAt(g, nodes, x);
    forall k | 0 <= k < |g.preds[x]| ensures Later(g, nodes', g.preds[x][k]) == Later(g, nodes, g.preds[x][k]) {
      assert g.rank[g.preds[x][k]] < g.rank[x];
      LaterSame(g, nodes, nodes', g.preds[x][k]);
    }
    if nodes[x].op.RawData? {
    } else {
      assert Flows(g, nodes', x) == Flows(g, nodes, x);
    }
  }

  lemma StatusesConserve(g: Graph, nodes: seq<Node>, nodes': seq<Node>, total: seq<seq<Row>>)
    requires Shaped(g, nodes) && AllFit(g, nodes') && |nodes'| == |nodes| && Conserves(g, nodes, total)
    requires forall i :: 0 <= i < |nodes| ==> nodes'[i] == nodes[i].(status := nodes'[i].status)
    ensures Shaped(g, nodes') && Conserves(g, nodes', total)
  {
    hide AllFit, Later;
    forall x | 0 <= x < |nodes| ensures nodes'[x].produced + Later(g, nodes', x) == total[x] {
      LaterSame(g, nodes, nodes', x);
    }
  }
}
