// Broadcast: a split hands each row to several streams, which are sources that have
// the split as predecessor. The graph is then no forest, and the scheduler may put
// the split, and what is above it, on its stack twice.
module Broadcast {
  import opened Operators
  import opened Dataflow
  import opened Scheduler

  // A stream never looks at its predecessor; other functors read their inputs.
  function ProcessIn(g: Graph, nodes: seq<Node>, f: nat): (o: Outcome)
    requires f < |g.preds| == |nodes| && InRange(g.preds[f], |nodes|)
    requires nodes[f].op.RawData? || Arity(nodes[f].op, |g.preds[f]|)
  {
    if nodes[f].op.RawData? then ProcessRawData(nodes[f].op) else Process(nodes[f].op, HeadsOf(g, nodes, f))
  }

  // What a successful split adds to node j.
  function Added(g: Graph, f: nat, o: Outcome, j: nat, op: Op): (r: Op)
    requires j < |g.preds|
  {
    if o.ok && o.op.Output? && op.RawData? && f in g.preds[j] then op.(rows := op.rows + [o.value]) else op
  }

  // process() of functor f with the flag handling around it, and the broadcast.
  function RunBroadcast(g: Graph, nodes: seq<Node>, f: nat, reset: bool): (r: seq<Node>)
    requires f < |g.preds| == |nodes| && InRange(g.preds[f], |nodes|)
    requires nodes[f].op.RawData? || Arity(nodes[f].op, |g.preds[f]|)
    ensures |r| == |nodes|
  {
    var o := ProcessIn(g, nodes, f);
    seq(|nodes|, j requires 0 <= j < |nodes| =>
      if j == f then
        if o.ok then Node(o.op, !o.op.Output?, nodes[f].status, o.value, nodes[f].produced + [o.value])
        else nodes[f].(op := o.op, hasValue := nodes[f].hasValue && !reset)
      else nodes[j].(op := Added(g, f, o, j, nodes[j].op), hasValue := nodes[j].hasValue && !Taken(g, f, o.taken, j)))
  }

  predicate CanRun(g: Graph, nodes: seq<Node>, f: nat) {
    && f < |g.preds| == |nodes| && InRange(g.preds[f], |nodes|)
    && (nodes[f].op.RawData? || Arity(nodes[f].op, |g.preds[f]|))
  }

  // One turn of the loops of run(): a visit while the queue is not empty, otherwise
  // the top of the stack.
  function Turn(g: Graph, s: Sched): (r: Sched)
    requires if s.queue != [] then CanRun(g, s.nodes, s.queue[0])
             else s.stack != [] && CanRun(g, s.nodes, s.stack[|s.stack| - 1])
  {
    if s.queue != [] then
      var f := s.queue[0];
      if g.preds[f] == [] then
        var nodes := RunBroadcast(g, s.nodes, f, false);
        Sched(WithStatus(nodes, f, if ProcessIn(g, s.nodes, f).ok then Idle else Ended), s.queue[1..], s.stack)
      else
        var (nodes, queue) := Request(WithStatus(s.nodes, f, Processing), s.queue[1..], g.preds[f]);
        Sched(nodes, queue, s.stack + [f])
    else
      var last := |s.stack| - 1;
      var f := s.stack[last];
      var nodes := RunBroadcast(g, s.nodes, f, true);
      if ProcessIn(g, s.nodes, f).ok then Sched(WithStatus(nodes, f, Idle), [], s.stack[..last])
      else
        var (nodes', queue') := Request(nodes, [], g.preds[f]);
        if queue' != [] then Sched(nodes', queue', s.stack)
        else Sched(WithStatus(nodes', f, Ended), [], s.stack[..last])
  }

  predicate CanTurn(g: Graph, s: Sched) {
    if s.queue != [] then CanRun(g, s.nodes, s.queue[0])
    else s.stack != [] && CanRun(g, s.nodes, s.stack[|s.stack| - 1])
  }

  // The same, with the outputs requested again when nothing is left to do.
  function Round(g: Graph, outputs: seq<nat>, s: Sched): (r: Sched)
    requires InRange(outputs, |s.nodes|)
    ensures |r.nodes| == |s.nodes|
  {
    if s.queue == [] && s.stack == [] then Reseed(s, outputs)
    else if CanTurn(g, s) then Turn(g, s) else s
  }

  function Turns(g: Graph, outputs: seq<nat>, s: Sched, n: nat): (r: Sched)
    requires InRange(outputs, |s.nodes|)
    ensures |r.nodes| == |s.nodes|
    decreases n
  {
    if n == 0 then s else Turns(g, outputs, Round(g, outputs, s), n - 1)
  }

  lemma OneTurn(g: Graph, outputs: seq<nat>, s: Sched, n: nat)
    requires CanTurn(g, s) && InRange(outputs, |s.nodes|)
    ensures |Turn(g, s).nodes| == |s.nodes|
    ensures Turns(g, outputs, s, n + 1) == Turns(g, outputs, Turn(g, s), n)
  {
  }

  // --------------------------------------------------- what every stream is handed

  // The functor whose process() a turn calls.
  function Called(g: Graph, s: Sched): (r: Option<nat>)
    requires CanTurn(g, s)
  {
    if s.queue == [] then Some(s.stack[|s.stack| - 1])
    else if g.preds[s.queue[0]] == [] then Some(s.queue[0]) else None
  }

  // The fields that requests and status changes leave alone.
  ghost predicate SameWork(a: Node, b: Node) {
    a.op == b.op && a.produced == b.produced
  }

  lemma RequestWorks(nodes: seq<Node>, queue: seq<nat>, ps: seq<nat>, j: nat)
    requires InRange(ps, |nodes|) && j < |nodes|
    ensures SameWork(Request(nodes, queue, ps).0[j], nodes[j])
  {
    RequestNode(nodes, queue, ps, j);
  }

  // What a turn does to the operator and the history of functor j.
  lemma TurnWorks(g: Graph, s: Sched, j: nat, reset: bool)
    requires CanTurn(g, s) && j < |s.nodes|
    ensures |Turn(g, s).nodes| == |s.nodes| == |g.preds|
    ensures Called(g, s).None? ==> SameWork(Turn(g, s).nodes[j], s.nodes[j])
    ensures Called(g, s).Some? ==> SameWork(Turn(g, s).nodes[j], RunBroadcast(g, s.nodes, Called(g, s).value, reset)[j])
  {
    hide ProcessIn, Added, Request, Taken;
    if s.queue != [] {
      var f := s.queue[0];
      RequestWorks(WithStatus(s.nodes, f, Processing), s.queue[1..], g.preds[f], j);
    } else {
      var f := s.stack[|s.stack| - 1];
      RequestWorks(RunBroadcast(g, s.nodes, f, true), [], g.preds[f], j);
    }
  }

  // Stream j of split f.
  ghost predicate IsStream(g: Graph, nodes: seq<Node>, f: nat, j: nat) {
    && f < |g.preds| == |nodes| && j < |nodes| && f != j && g.preds[j] == [f]
    && nodes[f].op.Output? && nodes[j].op.RawData?
  }

  // A split remains a split, and a stream a stream.
  lemma KindStays(g: Graph, s: Sched, j: nat)
    requires CanTurn(g, s) && j < |s.nodes|
    ensures |Turn(g, s).nodes| == |s.nodes|
    ensures s.nodes[j].op.Output? ==> Turn(g, s).nodes[j].op.Output?
    ensures s.nodes[j].op.RawData? ==> Turn(g, s).nodes[j].op.RawData?
  {
    TurnWorks(g, s, j, true);
    hide Turn, Taken, HeadsOf;
  }

  // Every stream is handed every row its split takes, once and in order.
  lemma HandedKeeps(g: Graph, s: Sched, f: nat, j: nat)
    requires CanTurn(g, s) && IsStream(g, s.nodes, f, j) && s.nodes[j].op.rows == s.nodes[f].produced
    ensures IsStream(g, Turn(g, s).nodes, f, j) && Turn(g, s).nodes[j].op.rows == Turn(g, s).nodes[f].produced
  {
    TurnWorks(g, s, j, true);
    TurnWorks(g, s, f, true);
    KindStays(g, s, f);
    KindStays(g, s, j);
    hide Turn, Taken, HeadsOf;
    assert f in g.preds[j];
  }

  lemma {:induction false} ReseedWorks(s: Sched, outputs: seq<nat>, j: nat)
    requires InRange(outputs, |s.nodes|) && j < |s.nodes|
    ensures SameWork(Reseed(s, outputs).nodes[j], s.nodes[j])
    decreases |outputs|
  {
    if outputs != [] {
      var n := s.nodes[outputs[0]];
      if n.status != Ended && n.status != ToProcess {
        var nodes := WithStatus(s.nodes, outputs[0], ToProcess);
        ReseedWorks(s.(nodes := nodes, queue := s.queue + [outputs[0]]), outputs[1..], j);
      } else {
        ReseedWorks(s, outputs[1..], j);
      }
    }
  }

  lemma RoundKeepsHanded(g: Graph, outputs: seq<nat>, s: Sched, f: nat, j: nat)
    requires |s.nodes| == |g.preds| && InRange(outputs, |s.nodes|)
    requires IsStream(g, s.nodes, f, j) && s.nodes[j].op.rows == s.nodes[f].produced
    ensures
      var nodes := Round(g, outputs, s).nodes;
      IsStream(g, nodes, f, j) && nodes[j].op.rows == nodes[f].produced
  {
    if s.queue == [] && s.stack == [] {
      ReseedWorks(s, outputs, f);
      ReseedWorks(s, outputs, j);
    } else if CanTurn(g, s) {
      HandedKeeps(g, s, f, j);
    }
  }

  lemma {:induction false} Handed(g: Graph, outputs: seq<nat>, s: Sched, f: nat, j: nat, n: nat)
    requires |s.nodes| == |g.preds| && InRange(outputs, |s.nodes|)
    requires IsStream(g, s.nodes, f, j) && s.nodes[j].op.rows == s.nodes[f].produced
    ensures
      var nodes := Turns(g, outputs, s, n).nodes;
      IsStream(g, nodes, f, j) && nodes[j].op.rows == nodes[f].produced
    decreases n
  {
    if n != 0 {
      RoundKeepsHanded(g, outputs, s, f, j);
      hide IsStream, Round;
      KindOfStreams(g, Round(g, outputs, s).nodes, f, j);
      KindOfStreams(g, s.nodes, f, j);
      Handed(g, outputs, Round(g, outputs, s), f, j, n - 1);
    }
  }

  lemma KindOfStreams(g: Graph, nodes: seq<Node>, f: nat, j: nat)
    requires IsStream(g, nodes, f, j)
    ensures f < |nodes| == |g.preds| && j < |nodes| && nodes[j].op.RawData? && nodes[f].op.Output?
  {
  }

  // The stream has delivered the rows up to its cursor, and the cursor is on a row.
  ghost predicate InStep(n: Node) {
    n.op.RawData? && -1 <= n.op.index && (n.op.index < |n.op.rows| || n.op.index == -1)
    && n.produced == n.op.rows[..n.op.index + 1]
  }

  // A turn keeps a stream in step exactly if it is not a call of the stream that
  // finds no new row: the cursor moves past the end all the same, and a row handed
  // over later is skipped.
  lemma InStepIff(g: Graph, s: Sched, j: nat)
    requires CanTurn(g, s) && j < |s.nodes| && InStep(s.nodes[j])
    ensures |Turn(g, s).nodes| == |s.nodes|
    ensures InStep(Turn(g, s).nodes[j]) <==>
      !(Called(g, s) == Some(j) && s.nodes[j].op.rows != [] && s.nodes[j].op.index + 1 == |s.nodes[j].op.rows|)
  {
    TurnWorks(g, s, j, true);
    hide Turn, Taken, HeadsOf, Process;
    var op := s.nodes[j].op;
    if Called(g, s) == Some(j) && op.index + 1 < |op.rows| {
      assert op.rows[..op.index + 2] == op.rows[..op.index + 1] + [op.rows[op.index + 1]];
    }
  }
}
