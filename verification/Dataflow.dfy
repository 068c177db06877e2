// The scheduler of the dataflow engine on values: a forest of functors, the
// queue of functors to be visited and the stack of functors to be processed.
module Dataflow {
  import opened Operators

  datatype Status = Idle | ToProcess | Processing | Ended

  // m_has_value, m_status, the operator's own fields, the value output_value()
  // would return, and the history of the values delivered so far.
  datatype Node = Node(op: Op, hasValue: bool, status: Status, value: Row, produced: seq<Row>)

  // preds[i] are the predecessors of functor i. rank witnesses that there is no
  // cycle.
  datatype Graph = Graph(preds: seq<seq<nat>>, rank: seq<nat>)

  ghost predicate Forest(g: Graph) {
    && |g.rank| == |g.preds|
    && (forall i, k :: 0 <= i < |g.preds| && 0 <= k < |g.preds[i]| ==>
          g.preds[i][k] < |g.preds| && g.rank[g.preds[i][k]] < g.rank[i])
    && (forall i, k, j, l | 0 <= i < |g.preds| && 0 <= k < |g.preds[i]| && 0 <= j < |g.preds| && 0 <= l < |g.preds[j]| ::
          g.preds[i][k] == g.preds[j][l] ==> i == j && k == l)
  }

  // The functors fit the graph: right number of inputs, and outputs, which
  // never hold a value, feed nobody.
  ghost predicate Fits(g: Graph, nodes: seq<Node>) {
    && |nodes| == |g.preds|
    && (forall i :: 0 <= i < |nodes| ==> Arity(nodes[i].op, |g.preds[i]|))
    && (forall i, k :: 0 <= i < |g.preds| && 0 <= k < |g.preds[i]| && g.preds[i][k] < |nodes| ==>
          !nodes[g.preds[i][k]].op.Output?)
  }

  // ------------------------------------------------------- what is still to come

  // The values functor i will still deliver.
  ghost function Future(g: Graph, nodes: seq<Node>, i: nat): (r: seq<Row>)
    requires Forest(g) && Fits(g, nodes) && i < |nodes|
    decreases g.rank[i], 1
  {
    Rest(nodes[i].op, Inputs(g, nodes, i))
  }

  // What the successor of functor i will still see of it: the value it holds,
  // then its future.
  ghost function Stream(g: Graph, nodes: seq<Node>, i: nat): (r: seq<Row>)
    requires Forest(g) && Fits(g, nodes) && i < |nodes|
    decreases g.rank[i], 2
  {
    (if nodes[i].hasValue then [nodes[i].value] else []) + Future(g, nodes, i)
  }

  ghost function Inputs(g: Graph, nodes: seq<Node>, i: nat): (r: seq<seq<Row>>)
    requires Forest(g) && Fits(g, nodes) && i < |nodes|
    ensures |r| == |g.preds[i]|
    ensures forall k :: 0 <= k < |r| ==> r[k] == Stream(g, nodes, g.preds[i][k])
    decreases g.rank[i], 0
  {
    seq(|g.preds[i]|, k requires 0 <= k < |g.preds[i]| => Stream(g, nodes, g.preds[i][k]))
  }

  // --------------------------------------------------------- one call of process

  function HeadsOf(g: Graph, nodes: seq<Node>, f: nat): (r: seq<Option<Row>>)
    requires f < |g.preds| && forall k :: 0 <= k < |g.preds[f]| ==> g.preds[f][k] < |nodes|
    ensures |r| == |g.preds[f]|
  {
    seq(|g.preds[f]|, k requires 0 <= k < |g.preds[f]| =>
      var p := nodes[g.preds[f][k]]; if p.hasValue then Some(p.value) else None)
  }

  predicate Taken(g: Graph, f: nat, taken: set<nat>, j: nat)
    requires f < |g.preds|
  {
    exists k :: 0 <= k < |g.preds[f]| && k in taken && g.preds[f][k] == j
  }

  // process() of functor f, with the flag handling around it: done_value() on
  // success (which an output overrides to keep the flag down), and on failure
  // reset_done_value() when `reset` says so.
  function RunNode(g: Graph, nodes: seq<Node>, f: nat, reset: bool): (r: seq<Node>)
    requires f < |g.preds| == |nodes| && Arity(nodes[f].op, |g.preds[f]|)
    requires forall k :: 0 <= k < |g.preds[f]| ==> g.preds[f][k] < |nodes|
    ensures |r| == |nodes|
  {
    var o := Process(nodes[f].op, HeadsOf(g, nodes, f));
    seq(|nodes|, j requires 0 <= j < |nodes| =>
      if j == f then
        if o.ok then Node(o.op, !o.op.Output?, nodes[f].status, o.value, nodes[f].produced + [o.value])
        else nodes[f].(op := o.op, hasValue := nodes[f].hasValue && !reset)
      else if Taken(g, f, o.taken, j) then nodes[j].(hasValue := false)
      else nodes[j])
  }

  lemma RunNodeIs(g: Graph, nodes: seq<Node>, f: nat, reset: bool)
    requires f < |g.preds| == |nodes| && Arity(nodes[f].op, |g.preds[f]|)
    requires forall k :: 0 <= k < |g.preds[f]| ==> g.preds[f][k] < |nodes|
    ensures
      var o := Process(nodes[f].op, HeadsOf(g, nodes, f));
      var nodes' := RunNode(g, nodes, f, reset);
      && nodes'[f] == (if o.ok then Node(o.op, !o.op.Output?, nodes[f].status, o.value, nodes[f].produced + [o.value])
                       else nodes[f].(op := o.op, hasValue := nodes[f].hasValue && !reset))
      && forall j :: 0 <= j < |nodes| && j != f ==>
           nodes'[j] == if Taken(g, f, o.taken, j) then nodes[j].(hasValue := false) else nodes[j]
  {
    hide Process;
  }

  // Each predecessor of f either holds a value or is over for good.
  ghost predicate Ready(g: Graph, nodes: seq<Node>, f: nat)
    requires Forest(g) && Fits(g, nodes) && f < |nodes|
  {
    forall k :: 0 <= k < |g.preds[f]| ==> nodes[g.preds[f][k]].hasValue || Future(g, nodes, g.preds[f][k]) == []
  }

  lemma ReadyHeads(g: Graph, nodes: seq<Node>, f: nat)
    requires Forest(g) && Fits(g, nodes) && f < |nodes| && Ready(g, nodes, f)
    ensures HeadsOf(g, nodes, f) == Heads(Inputs(g, nodes, f))
  {
    var h, h' := HeadsOf(g, nodes, f), Heads(Inputs(g, nodes, f));
    forall k | 0 <= k < |h| ensures h[k] == h'[k] {
      var p := g.preds[f][k];
      assert Inputs(g, nodes, f)[k] == Stream(g, nodes, p);
      assert nodes[p].hasValue || Future(g, nodes, p) == [];
    }
  }

  // A functor whose cone does not contain f is not touched.
  lemma {:induction false} FutureBelow(g: Graph, nodes: seq<Node>, nodes': seq<Node>, f: nat, j: nat)
    requires Forest(g) && Fits(g, nodes) && Fits(g, nodes') && f < |nodes| && j < |nodes|
    requires forall i :: 0 <= i < |nodes| && i != f ==> nodes'[i].op == nodes[i].op
    requires forall i :: 0 <= i < |nodes| && i != f && i !in g.preds[f] ==>
      nodes'[i].hasValue == nodes[i].hasValue && nodes'[i].value == nodes[i].value
    requires g.rank[j] < g.rank[f]
    ensures Future(g, nodes', j) == Future(g, nodes, j)
    decreases g.rank[j]
  {
    var a, b := Inputs(g, nodes, j), Inputs(g, nodes', j);
    forall k | 0 <= k < |a| ensures a[k] == b[k] {
      var p := g.preds[j][k];
      NotShared(g, f, j, k);
      assert p != f;
      FutureBelow(g, nodes, nodes', f, p);
    }
    assert a == b;
  }

  // In a forest nobody else reads a predecessor of f.
  lemma NotShared(g: Graph, f: nat, j: nat, k: nat)
    requires Forest(g) && f < |g.preds| && j < |g.preds| && k < |g.preds[j]| && j != f
    ensures g.preds[j][k] !in g.preds[f]
  {
  }

  lemma {:induction false} FutureElsewhere(g: Graph, nodes: seq<Node>, nodes': seq<Node>, f: nat, j: nat)
    requires Forest(g) && Fits(g, nodes) && Fits(g, nodes') && f < |nodes| && j < |nodes| && j != f
    requires forall i :: 0 <= i < |nodes| && i != f ==> nodes'[i].op == nodes[i].op
    requires forall i :: 0 <= i < |nodes| && i != f && i !in g.preds[f] ==>
      nodes'[i].hasValue == nodes[i].hasValue && nodes'[i].value == nodes[i].value
    requires HasSuccessor(g, f) ==> Stream(g, nodes', f) == Stream(g, nodes, f)
    ensures Future(g, nodes', j) == Future(g, nodes, j)
    decreases g.rank[j]
  {
    var a, b := Inputs(g, nodes, j), Inputs(g, nodes', j);
    forall k | 0 <= k < |a| ensures a[k] == b[k] {
      var p := g.preds[j][k];
      if p != f {
        NotShared(g, f, j, k);
        FutureElsewhere(g, nodes, nodes', f, p);
      } else {
        assert f in g.preds[j];
      }
    }
    assert a == b;
  }

  ghost predicate HasSuccessor(g: Graph, f: nat) {
    exists i :: 0 <= i < |g.preds| && f in g.preds[i]
  }

  // ------------------------------------------ what one call of process() changes

  ghost predicate Quiet(g: Graph, nodes: seq<Node>, f: nat)
    requires f < |nodes|
  {
    HasSuccessor(g, f) ==> !nodes[f].hasValue
  }

  lemma RunFits(g: Graph, nodes: seq<Node>, f: nat, reset: bool)
    requires Forest(g) && Fits(g, nodes) && f < |nodes| && Ready(g, nodes, f)
    ensures Fits(g, RunNode(g, nodes, f, reset))
  {
    ReadyHeads(g, nodes, f);
    ProcessLaws(nodes[f].op, Inputs(g, nodes, f));
  }

  // The inputs of f advance by exactly the values taken.
  lemma RunAdvances(g: Graph, nodes: seq<Node>, f: nat, reset: bool)
    requires Forest(g) && Fits(g, nodes) && f < |nodes| && Ready(g, nodes, f)
    requires Fits(g, RunNode(g, nodes, f, reset))
    ensures
      var taken := Process(nodes[f].op, HeadsOf(g, nodes, f)).taken;
      var nodes' := RunNode(g, nodes, f, reset);
      && Inputs(g, nodes', f) == Advance(Inputs(g, nodes, f), taken)
      && forall k :: k in taken ==> k < |g.preds[f]| && nodes[g.preds[f][k]].hasValue
  {
    var nodes' := RunNode(g, nodes, f, reset);
    var streams := Inputs(g, nodes, f);
    ReadyHeads(g, nodes, f);
    ProcessLaws(nodes[f].op, streams);
    var taken := Process(nodes[f].op, HeadsOf(g, nodes, f)).taken;
    hide Process, Rest;
    forall k | k in taken ensures k < |g.preds[f]| && nodes[g.preds[f][k]].hasValue {
      assert streams[k] != [] && Heads(streams)[k].Some?;
      assert HeadsOf(g, nodes, f)[k].Some?;
    }
    var a, b := Inputs(g, nodes', f), Advance(streams, taken);
    forall k | 0 <= k < |a| ensures a[k] == b[k] {
      var p := g.preds[f][k];
      FutureBelow(g, nodes, nodes', f, p);
      if k in taken {
        assert Taken(g, f, taken, p);
        assert a[k] == Future(g, nodes, p) && streams[k] == [nodes[p].value] + Future(g, nodes, p);
      } else {
        assert forall l :: 0 <= l < |g.preds[f]| && g.preds[f][l] == p ==> l == k;
        assert !Taken(g, f, taken, p);
        assert nodes'[p] == nodes[p];
      }
    }
  }

  lemma RunFrame(g: Graph, nodes: seq<Node>, f: nat, reset: bool)
    requires Forest(g) && Fits(g, nodes) && f < |nodes|
    ensures
      var nodes' := RunNode(g, nodes, f, reset);
      && (forall i :: 0 <= i < |nodes| && i != f ==>
           nodes'[i] == nodes[i].(hasValue := nodes'[i].hasValue) && (nodes'[i].hasValue ==> nodes[i].hasValue))
      && (forall i :: 0 <= i < |nodes| && i != f && i !in g.preds[f] ==> nodes'[i] == nodes[i])
      && (var o := Process(nodes[f].op, HeadsOf(g, nodes, f));
          nodes'[f].produced == nodes[f].produced + if o.ok then [o.value] else [])
  {
  }

  lemma SourceIsNoOutput(g: Graph, nodes: seq<Node>, f: nat)
    requires Forest(g) && Fits(g, nodes) && f < |nodes| && HasSuccessor(g, f)
    ensures !nodes[f].op.Output?
  {
    var i :| 0 <= i < |g.preds| && f in g.preds[i];
    var k :| 0 <= k < |g.preds[i]| && g.preds[i][k] == f;
  }

  // A successful call delivers the head of the functor's future, a failed one
  // leaves the future as it is ...
  lemma RunDelivers(g: Graph, nodes: seq<Node>, f: nat, reset: bool)
    requires Forest(g) && Fits(g, nodes) && f < |nodes| && Ready(g, nodes, f) && Quiet(g, nodes, f)
    requires Fits(g, RunNode(g, nodes, f, reset))
    ensures
      var o := Process(nodes[f].op, HeadsOf(g, nodes, f));
      var nodes' := RunNode(g, nodes, f, reset);
      && Future(g, nodes, f) == (if o.ok then [o.value] else []) + Future(g, nodes', f)
      && (!o.ok && o.taken == {} ==> Future(g, nodes, f) == [])
      && (HasSuccessor(g, f) ==> Stream(g, nodes', f) == Stream(g, nodes, f))
  {
    var nodes' := RunNode(g, nodes, f, reset);
    var streams := Inputs(g, nodes, f);
    var o := Process(nodes[f].op, HeadsOf(g, nodes, f));
    ReadyHeads(g, nodes, f);
    RunAdvances(g, nodes, f, reset);
    RestUnfolds(nodes[f].op, streams);
    hide Process, Rest, Inputs, HeadsOf, Forest, HasSuccessor;
    assert nodes'[f].op == o.op;
    if HasSuccessor(g, f) {
      SourceIsNoOutput(g, nodes', f);
    }
  }

  // ... and every other future is unchanged.
  lemma RunElsewhere(g: Graph, nodes: seq<Node>, f: nat, reset: bool, j: nat)
    requires Forest(g) && Fits(g, nodes) && f < |nodes| && Ready(g, nodes, f) && Quiet(g, nodes, f)
    requires Fits(g, RunNode(g, nodes, f, reset)) && j < |nodes| && j != f
    ensures Future(g, RunNode(g, nodes, f, reset), j) == Future(g, nodes, j)
  {
    RunFrame(g, nodes, f, reset);
    RunDelivers(g, nodes, f, reset);
    hide Process, Future, Stream, HeadsOf, Forest, Fits, RunNode, Ready, Quiet;
    FutureElsewhere(g, nodes, RunNode(g, nodes, f, reset), f, j);
  }
}
