// The three phases of engine::run as steps on values, the invariant they keep,
// and the measure that makes them end.
module Scheduler {
  import opened Operators
  import opened Dataflow

  datatype Sched = Sched(nodes: seq<Node>, queue: seq<nat>, stack: seq<nat>)

  function WithStatus(nodes: seq<Node>, j: nat, status: Status): (r: seq<Node>)
    requires j < |nodes|
    ensures |r| == |nodes|
  {
    nodes[j := nodes[j].(status := status)]
  }

  // The test in front of every to_process.push(input).
  predicate Wanted(n: Node) {
    !n.hasValue && n.status != ToProcess && n.status != Ended
  }

  predicate InRange(q: seq<nat>, n: nat) {
    forall k :: 0 <= k < |q| ==> q[k] < n
  }

  // The loop that requests the predecessors still to be looked at.
  function Request(nodes: seq<Node>, queue: seq<nat>, ps: seq<nat>): (r: (seq<Node>, seq<nat>))
    requires InRange(ps, |nodes|)
    ensures |r.0| == |nodes|
    decreases |ps|
  {
    if ps == [] then (nodes, queue)
    else if Wanted(nodes[ps[0]]) then
      Request(WithStatus(nodes, ps[0], ToProcess), queue + [ps[0]], ps[1..])
    else Request(nodes, queue, ps[1..])
  }

  // The functors that Request adds to the queue.
  function Missing(nodes: seq<Node>, ps: seq<nat>): (r: seq<nat>)
    requires InRange(ps, |nodes|)
    ensures InRange(r, |nodes|)
    ensures forall p :: p in r <==> p in ps && p < |nodes| && Wanted(nodes[p])
    decreases |ps|
  {
    if ps == [] then []
    else (if Wanted(nodes[ps[0]]) then [ps[0]] else []) + Missing(nodes, ps[1..])
  }

  ghost predicate Distinct(q: seq<nat>) {
    forall i, j :: 0 <= i < j < |q| ==> q[i] != q[j]
  }

  lemma {:induction false} MissingDistinct(nodes: seq<Node>, ps: seq<nat>)
    requires InRange(ps, |nodes|) && Distinct(ps)
    ensures Distinct(Missing(nodes, ps))
    decreases |ps|
  {
    if ps != [] {
      MissingDistinct(nodes, ps[1..]);
      var rest := Missing(nodes, ps[1..]);
      assert ps[0] !in ps[1..];
      assert ps[0] !in rest;
    }
  }

  lemma PushedInFront(queue: seq<nat>, p: nat, rest: seq<nat>)
    ensures queue + [p] + rest == queue + ([p] + rest)
  {
  }

  lemma {:induction false} RequestQueue(nodes: seq<Node>, queue: seq<nat>, ps: seq<nat>)
    requires InRange(ps, |nodes|) && Distinct(ps)
    ensures Request(nodes, queue, ps).1 == queue + Missing(nodes, ps)
    decreases |ps|
  {
    if ps == [] {
    } else {
      var rest := ps[1..];
      assert ps[0] !in rest;
      if Wanted(nodes[ps[0]]) {
        var nodes1 := WithStatus(nodes, ps[0], ToProcess);
        RequestQueue(nodes1, queue + [ps[0]], rest);
        MissingFrame(nodes, nodes1, rest);
        PushedInFront(queue, ps[0], Missing(nodes, rest));
      } else {
        RequestQueue(nodes, queue, rest);
      }
    }
  }

  lemma {:induction false} RequestNode(nodes: seq<Node>, queue: seq<nat>, ps: seq<nat>, j: nat)
    requires InRange(ps, |nodes|) && j < |nodes|
    ensures Request(nodes, queue, ps).0[j] ==
            if j in ps && Wanted(nodes[j]) then nodes[j].(status := ToProcess) else nodes[j]
    decreases |ps|
  {
    if ps == [] {
    } else {
      var rest := ps[1..];
      assert j in ps <==> j == ps[0] || j in rest;
      if Wanted(nodes[ps[0]]) {
        RequestNode(WithStatus(nodes, ps[0], ToProcess), queue + [ps[0]], rest, j);
      } else {
        RequestNode(nodes, queue, rest, j);
      }
    }
  }

  lemma RequestIs(nodes: seq<Node>, queue: seq<nat>, ps: seq<nat>)
    requires InRange(ps, |nodes|) && Distinct(ps)
    ensures Request(nodes, queue, ps).1 == queue + Missing(nodes, ps)
    ensures forall j | 0 <= j < |nodes| ::
      Request(nodes, queue, ps).0[j] == if j in ps && Wanted(nodes[j]) then nodes[j].(status := ToProcess) else nodes[j]
  {
    hide Request, Missing;
    RequestQueue(nodes, queue, ps);
    forall j | 0 <= j < |nodes|
      ensures Request(nodes, queue, ps).0[j] ==
              if j in ps && Wanted(nodes[j]) then nodes[j].(status := ToProcess) else nodes[j]
    {
      RequestNode(nodes, queue, ps, j);
    }
  }

  lemma {:induction false} MissingFrame(nodes: seq<Node>, nodes': seq<Node>, ps: seq<nat>)
    requires |nodes| == |nodes'| && InRange(ps, |nodes|)
    requires forall k :: 0 <= k < |ps| ==> nodes'[ps[k]] == nodes[ps[k]]
    ensures Missing(nodes', ps) == Missing(nodes, ps)
    decreases |ps|
  {
    if ps != [] {
      MissingFrame(nodes, nodes', ps[1..]);
    }
  }

  // ---------------------------------------------------------------------- steps

  function RunKeepsFit(g: Graph, nodes: seq<Node>, f: nat): (r: bool)
    requires f < |g.preds|
  {
    |g.preds| == |nodes| && Arity(nodes[f].op, |g.preds[f]|)
    && forall k :: 0 <= k < |g.preds[f]| ==> g.preds[f][k] < |nodes|
  }

  function Delivers(g: Graph, nodes: seq<Node>, f: nat): (r: bool)
    requires f < |g.preds| && RunKeepsFit(g, nodes, f)
  {
    Process(nodes[f].op, HeadsOf(g, nodes, f)).ok
  }

  // BFS: the front of the queue is an extractor and runs at once.
  function VisitExtractor(g: Graph, s: Sched): (r: Sched)
    requires s.queue != [] && s.queue[0] < |g.preds| && RunKeepsFit(g, s.nodes, s.queue[0])
  {
    var f := s.queue[0];
    var nodes := RunNode(g, s.nodes, f, false);
    Sched(WithStatus(nodes, f, if Delivers(g, s.nodes, f) then Idle else Ended), s.queue[1..], s.stack)
  }

  // BFS: the front of the queue waits for its predecessors on the stack.
  function VisitInner(g: Graph, s: Sched): (r: Sched)
    requires s.queue != [] && s.queue[0] < |g.preds| && RunKeepsFit(g, s.nodes, s.queue[0])
  {
    var f := s.queue[0];
    var (nodes, queue) := Request(WithStatus(s.nodes, f, Processing), s.queue[1..], g.preds[f]);
    Sched(nodes, queue, s.stack + [f])
  }

  // Stack phase: the top functor runs.
  function ProcessTop(g: Graph, s: Sched): (r: Sched)
    requires s.stack != [] && s.stack[|s.stack| - 1] < |g.preds| && RunKeepsFit(g, s.nodes, s.stack[|s.stack| - 1])
  {
    var last := |s.stack| - 1;
    var f := s.stack[last];
    var nodes := RunNode(g, s.nodes, f, true);
    if Delivers(g, s.nodes, f) then Sched(WithStatus(nodes, f, Idle), s.queue, s.stack[..last])
    else
      var (nodes', queue') := Request(nodes, s.queue, g.preds[f]);
      if |queue'| != |s.queue| then Sched(nodes', queue', s.stack)
      else Sched(WithStatus(nodes', f, Ended), queue', s.stack[..last])
  }

  // The outputs are requested again when nothing else is left to do.
  function Reseed(s: Sched, outputs: seq<nat>): (r: Sched)
    requires InRange(outputs, |s.nodes|)
    ensures |r.nodes| == |s.nodes|
    decreases |outputs|
  {
    if outputs == [] then s
    else
      var n := s.nodes[outputs[0]];
      if n.status != Ended && n.status != ToProcess then
        Reseed(s.(nodes := WithStatus(s.nodes, outputs[0], ToProcess), queue := s.queue + [outputs[0]]), outputs[1..])
      else Reseed(s, outputs[1..])
  }

  // ------------------------------------------------------------------ invariant

  predicate Active(n: Node) {
    n.status == ToProcess || n.status == Processing
  }

  ghost predicate Placed(g: Graph, s: Sched)
    requires |s.nodes| == |g.preds|
  {
    && InRange(s.queue, |s.nodes|) && InRange(s.stack, |s.nodes|)
    && Distinct(s.queue) && Distinct(s.stack)
    && (forall j :: 0 <= j < |s.nodes| ==> (s.nodes[j].status == ToProcess <==> j in s.queue))
    && (forall j :: 0 <= j < |s.nodes| ==> (s.nodes[j].status == Processing <==> j in s.stack))
    && (forall a, b :: 0 <= a < b < |s.stack| ==> s.stack[a] !in g.preds[s.stack[b]])
  }

  // How a functor relates to its successor i.
  ghost predicate EdgeOk(g: Graph, nodes: seq<Node>, i: nat, p: nat)
    requires i < |nodes| && p < |nodes|
  {
    && (Active(nodes[p]) ==> nodes[i].status == Processing)
    && (Active(nodes[p]) || nodes[p].status == Ended ==> !nodes[p].hasValue)
    && (nodes[i].status == Processing ==> nodes[p].hasValue || nodes[p].status == Ended || Active(nodes[p]))
  }

  ghost predicate EdgesOk(g: Graph, nodes: seq<Node>)
    requires Forest(g) && |nodes| == |g.preds|
  {
    forall i, k :: 0 <= i < |nodes| && 0 <= k < |g.preds[i]| ==> EdgeOk(g, nodes, i, g.preds[i][k])
  }

  ghost predicate OverIsOver(g: Graph, nodes: seq<Node>)
    requires Forest(g) && Fits(g, nodes)
  {
    forall j :: 0 <= j < |nodes| && nodes[j].status == Ended ==> Future(g, nodes, j) == []
  }

  ghost predicate Sane(g: Graph, s: Sched) {
    Forest(g) && Fits(g, s.nodes) && Placed(g, s) && EdgesOk(g, s.nodes) && OverIsOver(g, s.nodes)
  }

  // Everything a functor has delivered and will deliver, in order.
  ghost predicate Faithful(g: Graph, nodes: seq<Node>, total: seq<seq<Row>>)
    requires Forest(g) && Fits(g, nodes)
  {
    |total| == |nodes| && forall j :: 0 <= j < |nodes| ==> nodes[j].produced + Future(g, nodes, j) == total[j]
  }

  // -------------------------------------------------------------------- measure

  ghost function Load(g: Graph, nodes: seq<Node>, j: nat): (r: nat)
    requires Forest(g) && Fits(g, nodes) && j < |nodes|
  {
    |Future(g, nodes, j)| + |Stream(g, nodes, j)| + if nodes[j].status == Ended then 0 else 1
  }

  ghost function Work(g: Graph, nodes: seq<Node>, n: nat): (r: nat)
    requires Forest(g) && Fits(g, nodes) && n <= |nodes|
  {
    if n == 0 then 0 else Work(g, nodes, n - 1) + Load(g, nodes, n - 1)
  }

  lemma {:induction false} WorkDrops(g: Graph, nodes: seq<Node>, nodes': seq<Node>, n: nat)
    requires Forest(g) && Fits(g, nodes) && Fits(g, nodes') && n <= |nodes|
    requires forall j :: 0 <= j < n ==> Load(g, nodes', j) <= Load(g, nodes, j)
    ensures Work(g, nodes', n) <= Work(g, nodes, n)
    ensures (exists j :: 0 <= j < n && Load(g, nodes', j) < Load(g, nodes, j)) ==> Work(g, nodes', n) < Work(g, nodes, n)
  {
    hide Load, Forest, Fits;
    if n != 0 {
      WorkDrops(g, nodes, nodes', n - 1);
    }
  }

  // Status and history do not matter for what is still to come.
  lemma {:induction false} SameFuture(g: Graph, nodes: seq<Node>, nodes': seq<Node>, j: nat)
    requires Forest(g) && Fits(g, nodes) && Fits(g, nodes') && j < |nodes|
    requires forall i :: 0 <= i < |nodes| ==>
      nodes'[i].op == nodes[i].op && nodes'[i].hasValue == nodes[i].hasValue && nodes'[i].value == nodes[i].value
    ensures Future(g, nodes', j) == Future(g, nodes, j) && Stream(g, nodes', j) == Stream(g, nodes, j)
    decreases g.rank[j]
  {
    var a, b := Inputs(g, nodes, j), Inputs(g, nodes', j);
    forall k | 0 <= k < |a| ensures a[k] == b[k] {
      SameFuture(g, nodes, nodes', g.preds[j][k]);
    }
    assert a == b;
  }

  ghost predicate Relabelled(nodes: seq<Node>, nodes': seq<Node>) {
    |nodes'| == |nodes| &&
    forall j :: 0 <= j < |nodes| ==> nodes'[j] == nodes[j].(status := nodes'[j].status)
  }

  // Changing statuses alone changes no future ...
  lemma RelabelFuture(g: Graph, nodes: seq<Node>, nodes': seq<Node>)
    requires Forest(g) && Fits(g, nodes) && Relabelled(nodes, nodes')
    ensures Fits(g, nodes')
    ensures forall j :: 0 <= j < |nodes| ==> Future(g, nodes', j) == Future(g, nodes, j)
    ensures forall j :: 0 <= j < |nodes| ==> Stream(g, nodes', j) == Stream(g, nodes, j)
  {
    assert forall i :: 0 <= i < |nodes| ==> nodes'[i].op == nodes[i].op;
    assert Fits(g, nodes');
    hide Forest, Fits, Future, Stream;
    forall j | 0 <= j < |nodes|
      ensures Future(g, nodes', j) == Future(g, nodes, j) && Stream(g, nodes', j) == Stream(g, nodes, j)
    {
      SameFuture(g, nodes, nodes', j);
    }
  }

  // ... and ends nobody's work but that of a functor marked as ended.
  lemma RelabelWork(g: Graph, nodes: seq<Node>, nodes': seq<Node>, ended: Option<nat>)
    requires Forest(g) && Fits(g, nodes) && Relabelled(nodes, nodes') && Fits(g, nodes')
    requires forall j :: 0 <= j < |nodes| && nodes[j].status == Ended ==> nodes'[j].status == Ended
    requires ended.Some? ==>
      ended.value < |nodes| && nodes'[ended.value].status == Ended && nodes[ended.value].status != Ended
    ensures Work(g, nodes', |nodes|) <= Work(g, nodes, |nodes|)
    ensures ended.Some? ==> Work(g, nodes', |nodes|) < Work(g, nodes, |nodes|)
  {
    RelabelFuture(g, nodes, nodes');
    hide Forest, Fits, Future, Stream, Work, Relabelled;
    forall j | 0 <= j < |nodes| ensures Load(g, nodes', j) <= Load(g, nodes, j) {
      assert Future(g, nodes', j) == Future(g, nodes, j);
      assert Stream(g, nodes', j) == Stream(g, nodes, j);
    }
    if ended.Some? {
      var e := ended.value;
      assert Future(g, nodes', e) == Future(g, nodes, e);
      assert Stream(g, nodes', e) == Stream(g, nodes, e);
      assert Load(g, nodes', e) < Load(g, nodes, e);
    }
    WorkDrops(g, nodes, nodes', |nodes|);
  }

  lemma RunStatus(g: Graph, nodes: seq<Node>, f: nat, reset: bool)
    requires Forest(g) && Fits(g, nodes) && f < |nodes|
    ensures
      var o := Process(nodes[f].op, HeadsOf(g, nodes, f));
      var n := RunNode(g, nodes, f, reset)[f];
      && n.status == nodes[f].status
      && (o.ok ==> n.value == o.value && n.hasValue == !o.op.Output?)
      && (!o.ok ==> n.value == nodes[f].value && (n.hasValue ==> nodes[f].hasValue))
  {
    hide Process, HeadsOf, Arity;
  }

  lemma StreamAfterRun(g: Graph, nodes: seq<Node>, f: nat, reset: bool, j: nat)
    requires Forest(g) && Fits(g, nodes) && f < |nodes| && Ready(g, nodes, f) && Quiet(g, nodes, f)
    requires Fits(g, RunNode(g, nodes, f, reset)) && j < |nodes|
    ensures
      var nodes' := RunNode(g, nodes, f, reset);
      var o := Process(nodes[f].op, HeadsOf(g, nodes, f));
      && Load(g, nodes', j) <= Load(g, nodes, j)
      && (j == f && o.ok ==> Load(g, nodes', j) < Load(g, nodes, j))
      && (j != f && nodes[j].hasValue && !nodes'[j].hasValue ==> Load(g, nodes', j) < Load(g, nodes, j))
  {
    hide Process, HeadsOf, Future, Forest, Fits, HasSuccessor, Ready, Quiet, Arity;
    RunStatus(g, nodes, f, reset);
    if j == f {
      RunDelivers(g, nodes, f, reset);
      hide RunNode;
    } else {
      RunElsewhere(g, nodes, f, reset, j);
      RunFrame(g, nodes, f, reset);
      hide RunNode;
    }
  }

  // Running a functor that is ready never adds work, and removes some unless it
  // fails and takes nothing.
  lemma RunWork(g: Graph, nodes: seq<Node>, f: nat, reset: bool)
    requires Forest(g) && Fits(g, nodes) && f < |nodes| && Ready(g, nodes, f) && Quiet(g, nodes, f)
    requires Fits(g, RunNode(g, nodes, f, reset))
    ensures
      var nodes' := RunNode(g, nodes, f, reset);
      var o := Process(nodes[f].op, HeadsOf(g, nodes, f));
      && Work(g, nodes', |nodes|) <= Work(g, nodes, |nodes|)
      && (o.ok || o.taken != {} ==> Work(g, nodes', |nodes|) < Work(g, nodes, |nodes|))
  {
    var nodes' := RunNode(g, nodes, f, reset);
    var o := Process(nodes[f].op, HeadsOf(g, nodes, f));
    RunAdvances(g, nodes, f, reset);
    if k :| k in o.taken {
      var p := g.preds[f][k];
      assert g.rank[p] < g.rank[f];
      assert Taken(g, f, o.taken, p);
      assert nodes[p].hasValue && !nodes'[p].hasValue;
    }
    hide Process, HeadsOf, Load, RunNode, Future, Ready, Quiet;
    forall j | 0 <= j < |nodes| ensures Load(g, nodes', j) <= Load(g, nodes, j) {
      StreamAfterRun(g, nodes, f, reset, j);
    }
    StreamAfterRun(g, nodes, f, reset, f);
    if k :| k in o.taken {
      StreamAfterRun(g, nodes, f, reset, g.preds[f][k]);
    }
    WorkDrops(g, nodes, nodes', |nodes|);
  }

  lemma Shift(done: seq<Row>, now: seq<Row>, later: seq<Row>, total: seq<Row>)
    requires done + (now + later) == total
    ensures (done + now) + later == total
  {
  }

  lemma RunFaithfulAt(g: Graph, nodes: seq<Node>, f: nat, reset: bool, j: nat)
    requires Forest(g) && Fits(g, nodes) && f < |nodes| && Ready(g, nodes, f) && Quiet(g, nodes, f)
    requires Fits(g, RunNode(g, nodes, f, reset)) && j < |nodes|
    ensures
      var nodes' := RunNode(g, nodes, f, reset);
      nodes'[j].produced + Future(g, nodes', j) == nodes[j].produced + Future(g, nodes, j)
  {
    var nodes' := RunNode(g, nodes, f, reset);
    RunFrame(g, nodes, f, reset);
    if j == f {
      RunDelivers(g, nodes, f, reset);
      hide *;
      var o := Process(nodes[f].op, HeadsOf(g, nodes, f));
      var now := if o.ok then [o.value] else [];
      Shift(nodes[f].produced, now, Future(g, nodes', f), nodes[f].produced + Future(g, nodes, f));
    } else {
      RunElsewhere(g, nodes, f, reset, j);
      hide *;
    }
  }

  // Delivered plus still to come stays the same for everybody.
  lemma RunFaithful(g: Graph, nodes: seq<Node>, f: nat, reset: bool, total: seq<seq<Row>>)
    requires Forest(g) && Fits(g, nodes) && f < |nodes| && Ready(g, nodes, f) && Quiet(g, nodes, f)
    requires Fits(g, RunNode(g, nodes, f, reset)) && Faithful(g, nodes, total)
    ensures Faithful(g, RunNode(g, nodes, f, reset), total)
  {
    hide Process, HeadsOf, Future, Ready, Quiet, RunNode, Arity;
    var nodes' := RunNode(g, nodes, f, reset);
    forall j | 0 <= j < |nodes| ensures nodes'[j].produced + Future(g, nodes', j) == total[j] {
      assert nodes[j].produced + Future(g, nodes, j) == total[j];
      RunFaithfulAt(g, nodes, f, reset, j);
    }
  }

  // ------------------------------------------------------- the steps keep it all

  // When process() is called on the top of the stack, every predecessor holds a
  // value or is over for good.
  lemma TopReady(g: Graph, s: Sched)
    requires Sane(g, s) && s.stack != [] && s.queue == []
    ensures
      var f := s.stack[|s.stack| - 1];
      f < |s.nodes| && Ready(g, s.nodes, f) && Quiet(g, s.nodes, f)
      && forall k :: 0 <= k < |g.preds[f]| ==>
           !Active(s.nodes[g.preds[f][k]]) && (s.nodes[g.preds[f][k]].hasValue || s.nodes[g.preds[f][k]].status == Ended)
  {
    var last := |s.stack| - 1;
    var f := s.stack[last];
    assert f in s.stack && s.nodes[f].status == Processing;
    forall k | 0 <= k < |g.preds[f]|
      ensures !Active(s.nodes[g.preds[f][k]]) && (s.nodes[g.preds[f][k]].hasValue || s.nodes[g.preds[f][k]].status == Ended)
    {
      var p := g.preds[f][k];
      assert EdgeOk(g, s.nodes, f, p);
      assert p in g.preds[f];
      assert forall a :: 0 <= a < |s.stack| ==> s.stack[a] != p;
    }
    ActiveQuiet(g, s.nodes, f);
  }

  lemma ActiveQuiet(g: Graph, nodes: seq<Node>, f: nat)
    requires Forest(g) && |nodes| == |g.preds| && EdgesOk(g, nodes) && f < |nodes| && Active(nodes[f])
    ensures Quiet(g, nodes, f)
  {
    if HasSuccessor(g, f) {
      var i :| 0 <= i < |g.preds| && f in g.preds[i];
      var k :| 0 <= k < |g.preds[i]| && g.preds[i][k] == f;
      assert EdgeOk(g, nodes, i, f);
    }
  }

  ghost predicate Progress(g: Graph, s: Sched, s': Sched)
    requires Sane(g, s)
  {
    && Sane(g, s')
    && Work(g, s'.nodes, |s'.nodes|) <= Work(g, s.nodes, |s.nodes|)
    && forall total :: Faithful(g, s.nodes, total) ==> Faithful(g, s'.nodes, total)
  }

  lemma VisitExtractorPlaced(g: Graph, s: Sched)
    requires Sane(g, s) && s.queue != [] && g.preds[s.queue[0]] == []
    ensures Placed(g, VisitExtractor(g, s))
  {
    var f := s.queue[0];
    var s' := VisitExtractor(g, s);
    assert f in s.queue;
    RunFrame(g, s.nodes, f, false);
    hide EdgesOk, OverIsOver, Process, HeadsOf, Forest, Fits;
    assert s.queue == [f] + s'.queue;
    assert forall j :: j in s.queue <==> j == f || j in s'.queue;
    assert forall j :: 0 <= j < |s.nodes| && j != f ==> s'.nodes[j].status == s.nodes[j].status;
    hide RunNode;
  }

  lemma VisitExtractorEdges(g: Graph, s: Sched)
    requires Sane(g, s) && s.queue != [] && g.preds[s.queue[0]] == []
    ensures EdgesOk(g, VisitExtractor(g, s).nodes)
  {
    var f := s.queue[0];
    var s' := VisitExtractor(g, s);
    assert f in s.queue && Active(s.nodes[f]);
    RunFrame(g, s.nodes, f, false);
    ActiveQuiet(g, s.nodes, f);
    hide Placed, OverIsOver, Process, HeadsOf;
    forall i, k | 0 <= i < |s'.nodes| && 0 <= k < |g.preds[i]| ensures EdgeOk(g, s'.nodes, i, g.preds[i][k]) {
      var p := g.preds[i][k];
      assert EdgeOk(g, s.nodes, i, p);
      if p == f {
        SourceIsNoOutput(g, s.nodes, f);
        OutputStays(g, s.nodes, f);
      }
    }
  }

  lemma OutputStays(g: Graph, nodes: seq<Node>, f: nat)
    requires Forest(g) && Fits(g, nodes) && f < |nodes|
    ensures Process(nodes[f].op, HeadsOf(g, nodes, f)).op.Output? <==> nodes[f].op.Output?
  {
  }

  // Marking statuses after a run: nothing else changes, and a functor may be
  // marked as ended only if nothing of it is to come.
  lemma Marked(g: Graph, nodes: seq<Node>, nodes1: seq<Node>, nodes2: seq<Node>)
    requires Forest(g) && Fits(g, nodes) && Fits(g, nodes1) && |nodes1| == |nodes| && Relabelled(nodes1, nodes2)
    requires OverIsOver(g, nodes1)
    requires forall j :: 0 <= j < |nodes| && nodes2[j].status == Ended ==> nodes1[j].status == Ended || Future(g, nodes1, j) == []
    requires forall j :: 0 <= j < |nodes| && nodes1[j].status == Ended ==> nodes2[j].status == Ended
    requires forall total :: Faithful(g, nodes, total) ==> Faithful(g, nodes1, total)
    ensures Fits(g, nodes2) && OverIsOver(g, nodes2)
    ensures Work(g, nodes2, |nodes2|) <= Work(g, nodes1, |nodes1|)
    ensures (exists j :: 0 <= j < |nodes| && nodes2[j].status == Ended && nodes1[j].status != Ended) ==>
      Work(g, nodes2, |nodes2|) < Work(g, nodes1, |nodes1|)
    ensures forall total :: Faithful(g, nodes, total) ==> Faithful(g, nodes2, total)
  {
    RelabelFuture(g, nodes1, nodes2);
    hide Forest, Fits, Future, Work;
    if j :| 0 <= j < |nodes| && nodes2[j].status == Ended && nodes1[j].status != Ended {
      RelabelWork(g, nodes1, nodes2, Some(j));
    } else {
      RelabelWork(g, nodes1, nodes2, None);
    }
    forall j | 0 <= j < |nodes2| && nodes2[j].status == Ended ensures Future(g, nodes2, j) == [] {
      assert Future(g, nodes2, j) == Future(g, nodes1, j);
    }
    forall total | Faithful(g, nodes, total) ensures Faithful(g, nodes2, total) {
      assert Faithful(g, nodes1, total);
      forall j | 0 <= j < |nodes2| ensures nodes2[j].produced + Future(g, nodes2, j) == total[j] {
        assert nodes1[j].produced + Future(g, nodes1, j) == total[j];
        assert nodes2[j].produced == nodes1[j].produced;
      }
    }
  }

  // The semantic side of running a ready functor that is not over yet.
  lemma RunProgress(g: Graph, s: Sched, f: nat, reset: bool)
    requires Sane(g, s) && f < |s.nodes| && Ready(g, s.nodes, f) && Quiet(g, s.nodes, f) && s.nodes[f].status != Ended
    ensures
      var nodes' := RunNode(g, s.nodes, f, reset);
      var o := Process(s.nodes[f].op, HeadsOf(g, s.nodes, f));
      && Fits(g, nodes') && OverIsOver(g, nodes')
      && Work(g, nodes', |nodes'|) <= Work(g, s.nodes, |s.nodes|)
      && (o.ok || o.taken != {} ==> Work(g, nodes', |nodes'|) < Work(g, s.nodes, |s.nodes|))
      && (!o.ok && o.taken == {} ==> Future(g, nodes', f) == [])
      && forall total :: Faithful(g, s.nodes, total) ==> Faithful(g, nodes', total)
  {
    var nodes' := RunNode(g, s.nodes, f, reset);
    RunFits(g, s.nodes, f, reset);
    RunFrame(g, s.nodes, f, reset);
    RunDelivers(g, s.nodes, f, reset);
    RunWork(g, s.nodes, f, reset);
    assert nodes'[f].status == s.nodes[f].status;
    hide Process, HeadsOf, Future, Ready, Quiet, RunNode, Arity, Placed, EdgesOk, Forest, Fits, Faithful, Work, Stream;
    forall total | Faithful(g, s.nodes, total) ensures Faithful(g, nodes', total) {
      RunFaithful(g, s.nodes, f, reset, total);
    }
    forall j | 0 <= j < |nodes'| && nodes'[j].status == Ended ensures Future(g, nodes', j) == [] {
      RunElsewhere(g, s.nodes, f, reset, j);
    }
  }

  lemma NoneBelow(taken: set<nat>, n: nat)
    requires forall k :: k in taken ==> k < n
    ensures n == 0 ==> taken == {}
  {
  }

  lemma FrontIsQuiet(g: Graph, s: Sched, f: nat)
    requires Sane(g, s) && s.queue != [] && s.queue[0] == f
    ensures f < |s.nodes| && s.nodes[f].status == ToProcess && Quiet(g, s.nodes, f)
    ensures g.preds[f] == [] ==> Ready(g, s.nodes, f)
  {
    assert f in s.queue && Active(s.nodes[f]);
    ActiveQuiet(g, s.nodes, f);
  }

  lemma VisitExtractorKeeps(g: Graph, s: Sched)
    requires Sane(g, s) && s.queue != [] && g.preds[s.queue[0]] == []
    ensures
      var s' := VisitExtractor(g, s);
      Progress(g, s, s') && Work(g, s'.nodes, |s'.nodes|) < Work(g, s.nodes, |s.nodes|)
  {
    hide Process, HeadsOf, Future, Ready, Quiet, RunNode, Arity, Placed, EdgesOk, Faithful, Work, Stream;
    var f := s.queue[0];
    FrontIsQuiet(g, s, f);
    RunProgress(g, s, f, false);
    RunAdvances(g, s.nodes, f, false);
    RunStatus(g, s.nodes, f, false);
    VisitExtractorPlaced(g, s);
    VisitExtractorEdges(g, s);
    var nodes' := RunNode(g, s.nodes, f, false);
    var o := Process(s.nodes[f].op, HeadsOf(g, s.nodes, f));
    NoneBelow(o.taken, |g.preds[f]|);
    hide Forest, Fits;
    Marked(g, s.nodes, nodes', VisitExtractor(g, s).nodes);
    if !o.ok {
      assert VisitExtractor(g, s).nodes[f].status == Ended;
    }
  }

  lemma PredsDistinct(g: Graph, f: nat)
    requires Forest(g) && f < |g.preds|
    ensures Distinct(g.preds[f]) && InRange(g.preds[f], |g.preds|) && f !in g.preds[f]
  {
  }

  // The queue and the statuses after requesting the predecessors of f, none of
  // which was active.
  lemma RequestPlaced(g: Graph, nodes: seq<Node>, queue: seq<nat>, stack: seq<nat>, f: nat)
    requires Forest(g) && |nodes| == |g.preds| && f < |nodes| && Placed(g, Sched(nodes, queue, stack))
    requires forall k :: 0 <= k < |g.preds[f]| ==> !Active(nodes[g.preds[f][k]])
    ensures InRange(g.preds[f], |nodes|)
    ensures
      var (nodes', queue') := Request(nodes, queue, g.preds[f]);
      Placed(g, Sched(nodes', queue', stack)) && Relabelled(nodes, nodes')
  {
    PredsDistinct(g, f);
    RequestIs(nodes, queue, g.preds[f]);
    var missing := Missing(nodes, g.preds[f]);
    MissingDistinct(nodes, g.preds[f]);
    var (nodes', queue') := Request(nodes, queue, g.preds[f]);
    forall j | j in missing ensures j !in queue && j !in stack {
      assert !Active(nodes[j]);
    }
    assert forall j :: j in queue' <==> j in queue || j in missing;
    hide Request, Missing, Forest, Wanted;
    forall a, b | 0 <= a < b < |queue'| ensures queue'[a] != queue'[b] {
      if a < |queue| <= b {
        assert queue'[b] == missing[b - |queue|] && queue[a] in queue;
      } else if |queue| <= a {
        assert queue'[a] == missing[a - |queue|] && queue'[b] == missing[b - |queue|];
      }
    }
    forall j | 0 <= j < |nodes'|
      ensures (nodes'[j].status == ToProcess <==> j in queue') && (nodes'[j].status == Processing <==> j in stack)
    {
      assert j in missing <==> j in g.preds[f] && Wanted(nodes[j]);
    }
  }

  lemma VisitInnerPlaced(g: Graph, s: Sched)
    requires Sane(g, s) && s.queue != []
    ensures
      var s' := VisitInner(g, s);
      Placed(g, s') && Relabelled(s.nodes, s'.nodes)
  {
    var f := s.queue[0];
    assert f in s.queue && f !in s.stack;
    var nodes1 := WithStatus(s.nodes, f, Processing);
    var s1 := Sched(nodes1, s.queue[1..], s.stack + [f]);
    assert s.queue == [f] + s1.queue;
    assert forall j :: j in s.queue <==> j == f || j in s1.queue;
    assert forall j :: j in s1.stack <==> j == f || j in s.stack;
    forall k | 0 <= k < |g.preds[f]| ensures !Active(s.nodes[g.preds[f][k]]) && g.preds[f][k] != f {
      assert EdgeOk(g, s.nodes, f, g.preds[f][k]);
    }
    assert Placed(g, s1) by {
      hide EdgesOk, OverIsOver, Fits;
      forall a, b | 0 <= a < b < |s1.stack| ensures s1.stack[a] !in g.preds[s1.stack[b]] {
        if b == |s.stack| {
          assert s.stack[a] in s.stack && s.nodes[s.stack[a]].status == Processing;
        }
      }
    }
    hide Placed, EdgesOk, OverIsOver, Fits, Request;
    RequestPlaced(g, nodes1, s1.queue, s1.stack, f);
  }

  lemma VisitInnerEdges(g: Graph, s: Sched)
    requires Sane(g, s) && s.queue != []
    ensures EdgesOk(g, VisitInner(g, s).nodes)
  {
    var f := s.queue[0];
    var s' := VisitInner(g, s);
    assert f in s.queue;
    PredsDistinct(g, f);
    RequestIs(WithStatus(s.nodes, f, Processing), s.queue[1..], g.preds[f]);
    hide Request, Missing, OverIsOver, Fits;
    forall i, k | 0 <= i < |s'.nodes| && 0 <= k < |g.preds[i]| ensures EdgeOk(g, s'.nodes, i, g.preds[i][k]) {
      var p := g.preds[i][k];
      assert EdgeOk(g, s.nodes, i, p);
      if i == f {
        assert p in g.preds[f];
      } else {
        NotShared(g, f, i, k);
      }
    }
  }

  lemma VisitInnerKeeps(g: Graph, s: Sched)
    requires Sane(g, s) && s.queue != []
    ensures
      var s' := VisitInner(g, s);
      Progress(g, s, s') && |s'.stack| == |s.stack| + 1
  {
    hide Request, Missing, Future, Work, Placed, EdgesOk, Relabelled, VisitInner;
    FrontIsQuiet(g, s, s.queue[0]);
    VisitInnerPlaced(g, s);
    VisitInnerEdges(g, s);
    VisitInnerRelabels(g, s);
    var s' := VisitInner(g, s);
    RelabelFuture(g, s.nodes, s'.nodes);
    hide Forest, Fits;
    Marked(g, s.nodes, s.nodes, s'.nodes);
  }

  lemma VisitInnerRelabels(g: Graph, s: Sched)
    requires Sane(g, s) && s.queue != []
    ensures
      var s' := VisitInner(g, s);
      && Relabelled(s.nodes, s'.nodes) && |s'.stack| == |s.stack| + 1
      && forall j :: 0 <= j < |s.nodes| ==> (s'.nodes[j].status == Ended <==> s.nodes[j].status == Ended)
  {
    hide Request, Missing, EdgesOk, OverIsOver;
    var f := s.queue[0];
    FrontIsQuiet(g, s, f);
    PredsDistinct(g, f);
    RequestIs(WithStatus(s.nodes, f, Processing), s.queue[1..], g.preds[f]);
    hide Forest, Placed, Fits;
  }

  // -------------------------------------------------------------- the stack phase

  // Removing the top of the stack once its functor is no longer processing.
  lemma PopPlaced(g: Graph, nodes: seq<Node>, nodes': seq<Node>, stack: seq<nat>, f: nat)
    requires |nodes| == |g.preds| && |nodes'| == |nodes| && f < |nodes|
    requires stack != [] && stack[|stack| - 1] == f && Placed(g, Sched(nodes, [], stack))
    requires nodes'[f].status == Idle || nodes'[f].status == Ended
    requires forall j :: 0 <= j < |nodes| && j != f ==> nodes'[j].status == nodes[j].status
    ensures Placed(g, Sched(nodes', [], stack[..|stack| - 1]))
  {
    var stack' := stack[..|stack| - 1];
    assert stack == stack' + [f];
    assert f !in stack';
    assert forall j :: j in stack <==> j == f || j in stack';
  }

  // Success: the functor leaves the stack with its value up.
  lemma TopDelivers(g: Graph, s: Sched)
    requires Sane(g, s) && s.stack != [] && s.queue == [] && s.stack[|s.stack| - 1] < |s.nodes|
    requires Delivers(g, s.nodes, s.stack[|s.stack| - 1])
    ensures Placed(g, ProcessTop(g, s)) && EdgesOk(g, ProcessTop(g, s).nodes)
  {
    var f := s.stack[|s.stack| - 1];
    var s' := ProcessTop(g, s);
    TopReady(g, s);
    RunFits(g, s.nodes, f, true);
    RunFrame(g, s.nodes, f, true);
    PopPlaced(g, s.nodes, s'.nodes, s.stack, f);
    hide Placed, OverIsOver, Process, HeadsOf;
    forall i, k | 0 <= i < |s'.nodes| && 0 <= k < |g.preds[i]| ensures EdgeOk(g, s'.nodes, i, g.preds[i][k]) {
      var p := g.preds[i][k];
      assert EdgeOk(g, s.nodes, i, p);
      if p == f {
        assert f in g.preds[i];
        SourceIsNoOutput(g, RunNode(g, s.nodes, f, true), f);
      } else if i != f {
        NotShared(g, f, i, k);
      }
    }
  }

  // Failure: either some predecessor is requested again and the functor stays, or
  // it took nothing and is over.
  lemma TopFailsPlaced(g: Graph, s: Sched)
    requires Sane(g, s) && s.stack != [] && s.queue == [] && s.stack[|s.stack| - 1] < |s.nodes|
    requires !Delivers(g, s.nodes, s.stack[|s.stack| - 1])
    ensures Placed(g, ProcessTop(g, s))
  {
    var f := s.stack[|s.stack| - 1];
    TopReady(g, s);
    RunFrame(g, s.nodes, f, true);
    var nodes := RunNode(g, s.nodes, f, true);
    assert Placed(g, Sched(nodes, [], s.stack)) by {
      hide EdgesOk, OverIsOver, Process, HeadsOf, Fits, Taken;
      assert forall j :: 0 <= j < |nodes| ==> nodes[j].status == s.nodes[j].status;
    }
    RequestPlaced(g, nodes, [], s.stack, f);
    var (nodes', queue') := Request(nodes, [], g.preds[f]);
    hide Process, HeadsOf, RunNode, EdgesOk, OverIsOver, Request;
    if queue' == [] {
      PopPlaced(g, nodes', WithStatus(nodes', f, Ended), s.stack, f);
    }
  }

  lemma NoneMissing(nodes: seq<Node>, ps: seq<nat>)
    requires InRange(ps, |nodes|)
    ensures Missing(nodes, ps) == [] <==> forall k :: 0 <= k < |ps| ==> !Wanted(nodes[ps[k]])
  {
    var missing := Missing(nodes, ps);
    hide Missing, Wanted;
    assert missing != [] ==> missing[0] in missing;
    assert forall k :: 0 <= k < |ps| ==> (ps[k] in missing <==> Wanted(nodes[ps[k]]));
    assert missing == [] ==> forall k :: 0 <= k < |ps| ==> ps[k] !in missing;
  }

  lemma TopFailsShape(g: Graph, s: Sched)
    requires Sane(g, s) && s.stack != [] && s.queue == [] && s.stack[|s.stack| - 1] < |s.nodes|
    requires !Delivers(g, s.nodes, s.stack[|s.stack| - 1])
    ensures
      var f := s.stack[|s.stack| - 1];
      var nodes := RunNode(g, s.nodes, f, true);
      var s' := ProcessTop(g, s);
      && |s'.nodes| == |nodes|
      && (forall j :: 0 <= j < |nodes| ==>
           s'.nodes[j] == if j == f && s'.queue == [] then nodes[j].(status := Ended)
                          else if j in g.preds[f] && Wanted(nodes[j]) then nodes[j].(status := ToProcess) else nodes[j])
      && (s'.queue == [] <==> forall k :: 0 <= k < |g.preds[f]| ==> !Wanted(nodes[g.preds[f][k]]))
      && s'.stack == if s'.queue == [] then s.stack[..|s.stack| - 1] else s.stack
  {
    hide Process, HeadsOf, RunNode, Request, OverIsOver, Placed, EdgesOk, Arity, Wanted;
    var f := s.stack[|s.stack| - 1];
    var nodes := RunNode(g, s.nodes, f, true);
    PredsDistinct(g, f);
    var (nodes', queue') := Request(nodes, [], g.preds[f]);
    assert ProcessTop(g, s) == if queue' != [] then Sched(nodes', queue', s.stack)
                               else Sched(WithStatus(nodes', f, Ended), [], s.stack[..|s.stack| - 1]);
    hide ProcessTop, Forest, Fits, RunKeepsFit;
    RequestIs(nodes, [], g.preds[f]);
    NoneMissing(nodes, g.preds[f]);
    hide Distinct, InRange;
    assert f !in g.preds[f];
  }

  lemma TopResets(g: Graph, s: Sched, f: nat)
    requires Sane(g, s) && f < |g.preds| && !Delivers(g, s.nodes, f)
    ensures !RunNode(g, s.nodes, f, true)[f].hasValue
  {
    hide Process, HeadsOf;
  }

  lemma TopFailsEdges(g: Graph, s: Sched)
    requires Sane(g, s) && s.stack != [] && s.queue == [] && s.stack[|s.stack| - 1] < |s.nodes|
    requires !Delivers(g, s.nodes, s.stack[|s.stack| - 1])
    ensures EdgesOk(g, ProcessTop(g, s).nodes)
  {
    hide Process, HeadsOf, RunNode, OverIsOver, Placed, ProcessTop, Ready, Quiet, Arity, Delivers;
    var f := s.stack[|s.stack| - 1];
    TopIsProcessing(g, s, f);
    TopReady(g, s);
    RunFrame(g, s.nodes, f, true);
    RunStatus(g, s.nodes, f, true);
    TopResets(g, s, f);
    TopFailsShape(g, s);
    PredsDistinct(g, f);
    var s' := ProcessTop(g, s);
    var nodes := RunNode(g, s.nodes, f, true);
    forall i, k | 0 <= i < |s'.nodes| && 0 <= k < |g.preds[i]| ensures EdgeOk(g, s'.nodes, i, g.preds[i][k]) {
      var p := g.preds[i][k];
      assert EdgeOk(g, s.nodes, i, p);
      if i == f {
        assert p in g.preds[f];
      } else {
        NotShared(g, f, i, k);
      }
    }
  }

  // A failing functor is marked as ended exactly when this call took nothing.
  lemma EndedWhenNothingTaken(g: Graph, s: Sched)
    requires Sane(g, s) && s.stack != [] && s.queue == [] && s.stack[|s.stack| - 1] < |s.nodes|
    requires !Delivers(g, s.nodes, s.stack[|s.stack| - 1])
    ensures
      var f := s.stack[|s.stack| - 1];
      && (ProcessTop(g, s).nodes[f].status == Ended <==> ProcessTop(g, s).queue == [])
      && (ProcessTop(g, s).queue == [] <==> Process(s.nodes[f].op, HeadsOf(g, s.nodes, f)).taken == {})
  {
    var f := s.stack[|s.stack| - 1];
    assert f in s.stack && s.nodes[f].status == Processing;
    TopReady(g, s);
    RunFits(g, s.nodes, f, true);
    RunAdvances(g, s.nodes, f, true);
    RunFrame(g, s.nodes, f, true);
    TopFailsShape(g, s);
    PredsDistinct(g, f);
    var nodes := RunNode(g, s.nodes, f, true);
    assert nodes[f].status == Processing;
    var taken := Process(s.nodes[f].op, HeadsOf(g, s.nodes, f)).taken;
    if k :| k in taken {
      var p := g.preds[f][k];
      assert EdgeOk(g, s.nodes, f, p);
      assert Taken(g, f, taken, p) && p != f;
      assert Wanted(nodes[p]);
    } else {
      forall k | 0 <= k < |g.preds[f]| ensures !Wanted(nodes[g.preds[f][k]]) {
        assert !Taken(g, f, taken, g.preds[f][k]);
      }
    }
  }

  lemma TopIsProcessing(g: Graph, s: Sched, f: nat)
    requires Sane(g, s) && s.stack != [] && s.stack[|s.stack| - 1] == f
    ensures f < |s.nodes| && s.nodes[f].status == Processing
    ensures RunNode(g, s.nodes, f, true)[f].status == Processing
  {
    assert f in s.stack;
    hide Process, HeadsOf;
  }

  lemma TopDeliversKeeps(g: Graph, s: Sched)
    requires Sane(g, s) && s.stack != [] && s.queue == [] && s.stack[|s.stack| - 1] < |s.nodes|
    requires Delivers(g, s.nodes, s.stack[|s.stack| - 1])
    ensures
      var s' := ProcessTop(g, s);
      Progress(g, s, s') && Work(g, s'.nodes, |s'.nodes|) < Work(g, s.nodes, |s.nodes|)
  {
    var f := s.stack[|s.stack| - 1];
    hide Process, HeadsOf, RunNode, Future, Work, Placed, EdgesOk, Ready, Quiet, Faithful, Arity;
    TopIsProcessing(g, s, f);
    TopReady(g, s);
    RunProgress(g, s, f, true);
    TopDelivers(g, s);
    var s' := ProcessTop(g, s);
    var nodes := RunNode(g, s.nodes, f, true);
    assert s'.nodes == WithStatus(nodes, f, Idle);
    hide Forest, Fits, ProcessTop;
    Marked(g, s.nodes, nodes, s'.nodes);
  }

  lemma TopFailsMarks(g: Graph, s: Sched)
    requires Sane(g, s) && s.stack != [] && s.queue == [] && s.stack[|s.stack| - 1] < |s.nodes|
    requires !Delivers(g, s.nodes, s.stack[|s.stack| - 1])
    ensures
      var f := s.stack[|s.stack| - 1];
      var nodes := RunNode(g, s.nodes, f, true);
      var nodes' := ProcessTop(g, s).nodes;
      && f < |s.nodes| && Relabelled(nodes, nodes')
      && (forall j :: 0 <= j < |nodes| && nodes[j].status == Ended ==> nodes'[j].status == Ended)
      && (forall j :: 0 <= j < |nodes| && nodes'[j].status == Ended && nodes[j].status != Ended ==> j == f)
      && nodes[f].status == Processing
      && (nodes'[f].status == Ended <==> ProcessTop(g, s).queue == [])
  {
    var f := s.stack[|s.stack| - 1];
    hide Process, HeadsOf, RunNode, Forest, Fits, Placed, EdgesOk, OverIsOver, ProcessTop, Arity, Future, Wanted;
    TopFailsShape(g, s);
    EndedWhenNothingTaken(g, s);
    TopIsProcessing(g, s, f);
  }

  lemma TopFailsKeeps(g: Graph, s: Sched)
    requires Sane(g, s) && s.stack != [] && s.queue == [] && s.stack[|s.stack| - 1] < |s.nodes|
    requires !Delivers(g, s.nodes, s.stack[|s.stack| - 1])
    ensures
      var s' := ProcessTop(g, s);
      Progress(g, s, s') && Work(g, s'.nodes, |s'.nodes|) < Work(g, s.nodes, |s.nodes|)
  {
    hide Process, HeadsOf, RunNode, Future, Work, Placed, EdgesOk, Ready, Quiet, ProcessTop, Faithful, Relabelled, EdgeOk;
    hide Arity, Wanted;
    var f := s.stack[|s.stack| - 1];
    TopIsProcessing(g, s, f);
    TopReady(g, s);
    RunProgress(g, s, f, true);
    TopFailsPlaced(g, s);
    TopFailsEdges(g, s);
    TopFailsMarks(g, s);
    EndedWhenNothingTaken(g, s);
    var s' := ProcessTop(g, s);
    var nodes := RunNode(g, s.nodes, f, true);
    hide Forest, Fits;
    Marked(g, s.nodes, nodes, s'.nodes);
  }

  lemma ProcessTopKeeps(g: Graph, s: Sched)
    requires Sane(g, s) && s.stack != [] && s.queue == []
    requires s.stack[|s.stack| - 1] < |s.nodes|
    ensures
      var s' := ProcessTop(g, s);
      Progress(g, s, s') && Work(g, s'.nodes, |s'.nodes|) < Work(g, s.nodes, |s.nodes|)
  {
    hide Process, HeadsOf, Future, Work, Placed, EdgesOk, OverIsOver, ProcessTop, Progress, Delivers;
    if Delivers(g, s.nodes, s.stack[|s.stack| - 1]) {
      TopDeliversKeeps(g, s);
    } else {
      TopFailsKeeps(g, s);
    }
  }

  // ------------------------------------------------------------------- reseeding

  ghost predicate AreOutputs(g: Graph, outputs: seq<nat>) {
    && Distinct(outputs) && InRange(outputs, |g.preds|)
    && forall j :: 0 <= j < |g.preds| ==> (j in outputs <==> !HasSuccessor(g, j))
  }

  lemma {:induction false} ReseedIs(s: Sched, outputs: seq<nat>)
    requires InRange(outputs, |s.nodes|)
    ensures Relabelled(s.nodes, Reseed(s, outputs).nodes)
    ensures Reseed(s, outputs).stack == s.stack
    ensures s.queue <= Reseed(s, outputs).queue
    ensures forall j :: 0 <= j < |s.nodes| ==>
      (Reseed(s, outputs).nodes[j].status == Ended <==> s.nodes[j].status == Ended)
    ensures Reseed(s, outputs).queue == s.queue ==> Reseed(s, outputs) == s
    ensures Reseed(s, outputs).queue == [] ==>
      forall k :: 0 <= k < |outputs| ==> s.nodes[outputs[k]].status == Ended || s.nodes[outputs[k]].status == ToProcess
    decreases |outputs|
  {
    if outputs != [] {
      var n := s.nodes[outputs[0]];
      if n.status != Ended && n.status != ToProcess {
        ReseedIs(s.(nodes := WithStatus(s.nodes, outputs[0], ToProcess), queue := s.queue + [outputs[0]]), outputs[1..]);
      } else {
        ReseedIs(s, outputs[1..]);
      }
    }
  }

  lemma {:induction false} ReseedPlaced(g: Graph, s: Sched, outputs: seq<nat>)
    requires Forest(g) && |s.nodes| == |g.preds| && Placed(g, s) && EdgesOk(g, s.nodes) && s.stack == []
    requires InRange(outputs, |g.preds|) && forall k :: 0 <= k < |outputs| ==> !HasSuccessor(g, outputs[k])
    ensures Placed(g, Reseed(s, outputs)) && EdgesOk(g, Reseed(s, outputs).nodes)
    decreases |outputs|
  {
    if outputs != [] {
      var f := outputs[0];
      var n := s.nodes[f];
      if n.status != Ended && n.status != ToProcess {
        var s1 := s.(nodes := WithStatus(s.nodes, f, ToProcess), queue := s.queue + [f]);
        assert f !in s.queue;
        assert forall j :: j in s1.queue <==> j == f || j in s.queue;
        assert n.status != Processing by { assert f !in s.stack; }
        forall i, k | 0 <= i < |s1.nodes| && 0 <= k < |g.preds[i]| ensures EdgeOk(g, s1.nodes, i, g.preds[i][k]) {
          assert EdgeOk(g, s.nodes, i, g.preds[i][k]);
          assert g.preds[i][k] in g.preds[i];
        }
        ReseedPlaced(g, s1, outputs[1..]);
      } else {
        ReseedPlaced(g, s, outputs[1..]);
      }
    }
  }

  lemma ReseedKeeps(g: Graph, s: Sched, outputs: seq<nat>)
    requires Sane(g, s) && s.stack == [] && AreOutputs(g, outputs)
    ensures Progress(g, s, Reseed(s, outputs))
  {
    assert forall k :: 0 <= k < |outputs| ==> outputs[k] in outputs;
    ReseedPlaced(g, s, outputs);
    ReseedIs(s, outputs);
    var s' := Reseed(s, outputs);
    RelabelFuture(g, s.nodes, s'.nodes);
    hide Forest, Fits, Future, Work, Placed, EdgesOk, Reseed;
    Marked(g, s.nodes, s.nodes, s'.nodes);
  }

  // ---------------------------------------------------------------- small facts

  lemma {:induction false} DistinctBound(q: seq<nat>, n: nat)
    requires Distinct(q) && InRange(q, n)
    ensures |q| <= n
    decreases n
  {
    if q != [] {
      assert 0 <= q[0] < n;
      if k :| 0 <= k < |q| && q[k] == n - 1 {
        DistinctBound(q[..k] + q[k + 1..], n - 1);
      } else {
        DistinctBound(q, n - 1);
      }
    }
  }

  // A functor of largest rank feeds nobody.
  lemma {:induction false} SomeOutput(g: Graph, n: nat) returns (top: nat)
    requires Forest(g) && 0 < n <= |g.preds|
    ensures top < n && forall j :: 0 <= j < n ==> g.rank[j] <= g.rank[top]
    ensures n == |g.preds| ==> !HasSuccessor(g, top)
  {
    if n == 1 {
      top := 0;
    } else {
      top := SomeOutput(g, n - 1);
      if g.rank[top] < g.rank[n - 1] {
        top := n - 1;
      }
    }
    if n == |g.preds| {
      assert forall i, k :: 0 <= i < |g.preds| && 0 <= k < |g.preds[i]| ==> g.preds[i][k] != top;
    }
  }

  // build_graph leaves every functor idle: a sane start.
  lemma IdleIsSane(g: Graph, nodes: seq<Node>)
    requires Forest(g) && Fits(g, nodes) && forall j :: 0 <= j < |nodes| ==> nodes[j].status == Idle
    ensures Sane(g, Sched(nodes, [], []))
  {
  }

  // When nothing is queued or stacked and every output is over, each output has
  // delivered its whole stream.
  lemma AllDelivered(g: Graph, nodes: seq<Node>, outputs: seq<nat>, total: seq<seq<Row>>)
    requires Sane(g, Sched(nodes, [], [])) && AreOutputs(g, outputs) && Faithful(g, nodes, total)
    requires forall k :: 0 <= k < |outputs| ==> nodes[outputs[k]].status == Ended || nodes[outputs[k]].status == ToProcess
    ensures forall j :: 0 <= j < |nodes| && !HasSuccessor(g, j) ==> nodes[j].produced == total[j]
  {
    forall j | 0 <= j < |nodes| && !HasSuccessor(g, j) ensures nodes[j].produced == total[j] {
      assert j in outputs;
      assert nodes[j].produced + Future(g, nodes, j) == total[j];
      assert nodes[j].status != ToProcess;
    }
  }

  lemma QueueFront(g: Graph, s: Sched)
    requires Sane(g, s) && s.queue != []
    ensures s.queue[0] < |s.nodes| == |g.preds| && RunKeepsFit(g, s.nodes, s.queue[0])
    ensures InRange(g.preds[s.queue[0]], |s.nodes|)
  {
  }

  lemma StackFits(g: Graph, s: Sched)
    requires Sane(g, s)
    ensures |s.stack| <= |s.nodes|
  {
    DistinctBound(s.stack, |s.nodes|);
  }
}
