// The streams of a split, over every run on any graph without cycles: a stream is
// never asked for a row before its split has handed over a new one or has ended, so
// its cursor never runs past rows that come later.
module Streams {
  import opened Operators
  import opened Dataflow
  import opened Scheduler
  import opened Broadcast

  ghost predicate Acyclic(g: Graph) {
    && |g.rank| == |g.preds|
    && (forall f :: 0 <= f < |g.preds| ==> InRange(g.preds[f], |g.preds|))
    && forall f, k :: 0 <= f < |g.preds| && 0 <= k < |g.preds[f]| ==> g.rank[g.preds[f][k]] < g.rank[f]
  }

  // Sources have no predecessor, streams have a split, and only streams read splits.
  ghost predicate FitsAt(g: Graph, nodes: seq<Node>, f: nat)
    requires f < |g.preds| == |nodes| && InRange(g.preds[f], |nodes|)
  {
    && (nodes[f].op.RawData? ==>
         -1 <= nodes[f].op.index && (g.preds[f] == [] || (|g.preds[f]| == 1 && nodes[g.preds[f][0]].op.Output?)))
    && (!nodes[f].op.RawData? ==> Arity(nodes[f].op, |g.preds[f]|))
    && forall k :: 0 <= k < |g.preds[f]| && nodes[g.preds[f][k]].op.Output? ==> nodes[f].op.RawData?
  }

  ghost predicate AllFit(g: Graph, nodes: seq<Node>)
    requires Acyclic(g)
  {
    |nodes| == |g.preds| && forall f :: 0 <= f < |nodes| ==> FitsAt(g, nodes, f)
  }

  // ----------------------------------------------- operators whose input has ended

  // The operator delivers and takes nothing any more, given which of its inputs have
  // ended.
  predicate DeadOp(op: Op, gone: seq<bool>) {
    match op
    case RawData(rows, index) => index + 1 >= |rows| && (gone == [] || gone[0])
    case Filter(_) => gone != [] && gone[0]
    case Output(_) => gone != [] && gone[0]
    case GroupBy(agg, _, _) => gone != [] && gone[0] && !agg.grouping
    case MaxN(_, kept, outIndex) => gone != [] && gone[0] && (kept == [] || outIndex + 1 >= |kept|)
    case Concat(at) => forall i :: at <= i < |gone| ==> gone[i]
    case Union => |gone| < 2 || forall i :: 0 <= i < |gone| ==> gone[i]
    case Intersection => |gone| < 2 || exists i :: 0 <= i < |gone| && gone[i]
    case Difference => |gone| < 2 || gone[0]
  }

  function Outcomes(op: Op, heads: seq<Option<Row>>): (o: Outcome)
    requires op.RawData? || Arity(op, |heads|)
  {
    if op.RawData? then ProcessRawData(op) else Process(op, heads)
  }

  lemma DeadFails(op: Op, heads: seq<Option<Row>>, gone: seq<bool>)
    requires |heads| == |gone| && (op.RawData? || Arity(op, |heads|)) && DeadOp(op, gone)
    requires forall k :: 0 <= k < |gone| && gone[k] ==> heads[k].None?
    ensures
      var o := Outcomes(op, heads);
      !o.ok && o.taken == {} && DeadOp(o.op, gone)
  {
    match op
    case Concat(at) => assert SkipEmpty(heads, at) >= |heads|;
    case Intersection =>
      if |heads| >= 2 {
        var i :| 0 <= i < |gone| && gone[i];
        assert heads[i].None?;
      }
    case _ =>
  }

  lemma FailsDead(op: Op, heads: seq<Option<Row>>, gone: seq<bool>)
    requires |heads| == |gone| && (op.RawData? || Arity(op, |heads|))
    requires op.RawData? ==> -1 <= op.index && (gone == [] || gone[0])
    requires !op.RawData? ==> forall k :: 0 <= k < |gone| ==> (gone[k] <==> heads[k].None?)
    requires !Outcomes(op, heads).ok && Outcomes(op, heads).taken == {}
    ensures DeadOp(Outcomes(op, heads).op, gone)
  {
    LeastHolds(heads);
    match op
    case Intersection =>
      if |heads| >= 2 && AllPresent(heads) {
        assert false;
      }
    case Difference =>
      if |heads| >= 2 && heads[0].Some? {
        assert false;
      }
    case _ =>
  }

  lemma DeadGrows(op: Op, gone: seq<bool>, gone': seq<bool>)
    requires |gone| == |gone'| && DeadOp(op, gone) && forall k :: 0 <= k < |gone| && gone[k] ==> gone'[k]
    ensures DeadOp(op, gone')
  {
    if op.Intersection? && |gone| >= 2 {
      var i :| 0 <= i < |gone| && gone[i];
      assert gone'[i];
    }
  }

  // -------------------------------------------------------------- functors that ended

  function Gone(g: Graph, nodes: seq<Node>, f: nat): (r: seq<bool>)
    requires f < |g.preds| && InRange(g.preds[f], |nodes|)
    ensures |r| == |g.preds[f]|
  {
    seq(|g.preds[f]|, k requires 0 <= k < |g.preds[f]| => nodes[g.preds[f][k]].status == Ended)
  }

  // A functor that ended delivers nothing any more, and holds nothing, unless it is an
  // output of the graph, which nobody reads.
  ghost predicate EndedAt(g: Graph, outputs: seq<nat>, nodes: seq<Node>, f: nat)
    requires f < |g.preds| == |nodes| && InRange(g.preds[f], |nodes|)
  {
    && (nodes[f].op.Output? ==> !nodes[f].hasValue)
    && (f !in outputs && (nodes[f].status == Ended || nodes[f].status == ToProcess) ==> !nodes[f].hasValue)
    && (nodes[f].status == Ended ==> DeadOp(nodes[f].op, Gone(g, nodes, f)))
  }

  ghost predicate AllEnded(g: Graph, outputs: seq<nat>, nodes: seq<Node>)
    requires Acyclic(g) && |nodes| == |g.preds|
  {
    forall f :: 0 <= f < |nodes| ==> EndedAt(g, outputs, nodes, f)
  }

  ghost predicate QueueOk(nodes: seq<Node>, queue: seq<nat>) {
    && InRange(queue, |nodes|) && Distinct(queue)
    && forall i :: 0 <= i < |nodes| ==> (nodes[i].status == ToProcess <==> i in queue)
  }

  ghost predicate Unread(g: Graph, outputs: seq<nat>) {
    InRange(outputs, |g.preds|) && forall f, k :: 0 <= f < |g.preds| && 0 <= k < |g.preds[f]| ==> g.preds[f][k] !in outputs
  }

  ghost predicate Inv(g: Graph, outputs: seq<nat>, s: Sched)
    requires Acyclic(g)
  {
    AllFit(g, s.nodes) && AllEnded(g, outputs, s.nodes) && QueueOk(s.nodes, s.queue) && InRange(s.stack, |s.nodes|)
  }

  // Only statuses differ, and not the ended ones; what is newly requested holds nothing.
  ghost predicate Relabels(outputs: seq<nat>, nodes: seq<Node>, nodes': seq<Node>) {
    && |nodes'| == |nodes|
    && forall i :: 0 <= i < |nodes| ==>
         && nodes'[i] == nodes[i].(status := nodes'[i].status)
         && (nodes'[i].status == Ended <==> nodes[i].status == Ended)
         && (nodes'[i].status == ToProcess && nodes[i].status != ToProcess ==> !nodes[i].hasValue || i in outputs)
  }

  lemma RelabelsKeeps(g: Graph, outputs: seq<nat>, nodes: seq<Node>, nodes': seq<Node>)
    requires Acyclic(g) && AllFit(g, nodes) && AllEnded(g, outputs, nodes) && Relabels(outputs, nodes, nodes')
    ensures AllFit(g, nodes') && AllEnded(g, outputs, nodes')
  {
    forall f | 0 <= f < |nodes| ensures FitsAt(g, nodes', f) && EndedAt(g, outputs, nodes', f) {
      assert FitsAt(g, nodes, f) && EndedAt(g, outputs, nodes, f);
      assert Gone(g, nodes', f) == Gone(g, nodes, f);
    }
  }

  lemma {:induction false} RequestRelabels(outputs: seq<nat>, nodes: seq<Node>, queue: seq<nat>, ps: seq<nat>)
    requires InRange(ps, |nodes|) && QueueOk(nodes, queue)
    ensures
      var (nodes', queue') := Request(nodes, queue, ps);
      && Relabels(outputs, nodes, nodes') && QueueOk(nodes', queue')
      && queue <= queue'
      && (queue' == queue ==> forall k :: 0 <= k < |ps| ==> !Wanted(nodes[ps[k]]))
      && (forall k :: 0 <= k < |ps| && !nodes[ps[k]].hasValue && nodes[ps[k]].status != Ended ==> ps[k] in queue')
      && (forall x :: x in queue' ==> x in queue || x in ps)
      && (queue' == queue ==> nodes' == nodes)
    decreases |ps|
  {
    if ps != [] {
      if Wanted(nodes[ps[0]]) {
        var nodes1 := WithStatus(nodes, ps[0], ToProcess);
        assert ps[0] !in queue;
        RequestRelabels(outputs, nodes1, queue + [ps[0]], ps[1..]);
      } else {
        RequestRelabels(outputs, nodes, queue, ps[1..]);
      }
    }
  }

  // ------------------------------------------------------------ one call of process()

  lemma OutcomesFit(op: Op, heads: seq<Option<Row>>)
    requires if op.RawData? then -1 <= op.index else Arity(op, |heads|)
    ensures
      var r := Outcomes(op, heads).op;
      && (r.RawData? <==> op.RawData?) && (r.Output? <==> op.Output?)
      && if r.RawData? then -1 <= r.index else Arity(r, |heads|)
  {
    hide UnsignedQuotient;
  }

  lemma Runnable(g: Graph, nodes: seq<Node>, f: nat)
    requires Acyclic(g) && AllFit(g, nodes) && f < |nodes|
    ensures CanRun(g, nodes, f)
    ensures ProcessIn(g, nodes, f) == Outcomes(nodes[f].op, HeadsOf(g, nodes, f))
  {
    assert FitsAt(g, nodes, f);
  }

  // Node x after f was called.
  lemma RunAt(g: Graph, nodes: seq<Node>, f: nat, reset: bool, x: nat)
    requires CanRun(g, nodes, f) && x < |nodes|
    ensures
      var o := ProcessIn(g, nodes, f);
      var n, n' := nodes[x], RunBroadcast(g, nodes, f, reset)[x];
      && n'.status == n.status
      && (x == f ==> n'.op == o.op && (!o.ok ==> n'.hasValue == (n.hasValue && !reset)))
      && (x == f && o.ok ==> n'.hasValue == !o.op.Output?)
      && (x != f ==> n'.op == Added(g, f, o, x, n.op) && n'.hasValue == (n.hasValue && !Taken(g, f, o.taken, x)))
  {
    hide ProcessIn, Added;
  }

  lemma RunFits(g: Graph, nodes: seq<Node>, f: nat, reset: bool)
    requires Acyclic(g) && AllFit(g, nodes) && f < |nodes|
    ensures CanRun(g, nodes, f) && AllFit(g, RunBroadcast(g, nodes, f, reset))
  {
    Runnable(g, nodes, f);
    assert FitsAt(g, nodes, f);
    OutcomesFit(nodes[f].op, HeadsOf(g, nodes, f));
    var nodes' := RunBroadcast(g, nodes, f, reset);
    hide RunBroadcast, ProcessIn, HeadsOf, Outcomes;
    forall x | 0 <= x < |nodes|
      ensures
        && (nodes'[x].op.RawData? <==> nodes[x].op.RawData?) && (nodes'[x].op.Output? <==> nodes[x].op.Output?)
        && (if nodes'[x].op.RawData? then nodes[x].op.index >= -1 ==> nodes'[x].op.index >= -1
            else Arity(nodes[x].op, |g.preds[x]|) ==> Arity(nodes'[x].op, |g.preds[x]|))
    {
      RunAt(g, nodes, f, reset, x);
    }
    hide Arity;
    forall x | 0 <= x < |nodes| ensures FitsAt(g, nodes', x) {
      assert FitsAt(g, nodes, x);
    }
  }

  // A functor that ended fails again, and takes nothing.
  lemma EndedFails(g: Graph, outputs: seq<nat>, nodes: seq<Node>, f: nat)
    requires Acyclic(g) && AllFit(g, nodes) && AllEnded(g, outputs, nodes) && Unread(g, outputs)
    requires f < |nodes| && nodes[f].status == Ended
    ensures CanRun(g, nodes, f)
    ensures
      var o := ProcessIn(g, nodes, f);
      !o.ok && o.taken == {} && DeadOp(o.op, Gone(g, nodes, f))
  {
    Runnable(g, nodes, f);
    var heads, gone := HeadsOf(g, nodes, f), Gone(g, nodes, f);
    assert EndedAt(g, outputs, nodes, f) && FitsAt(g, nodes, f);
    forall k | 0 <= k < |gone| && gone[k] ensures heads[k].None? {
      assert EndedAt(g, outputs, nodes, g.preds[f][k]);
    }
    DeadFails(nodes[f].op, heads, gone);
  }

  // What a call of f leaves, whatever status f gets, except for f itself.
  lemma OthersStay(g: Graph, outputs: seq<nat>, nodes: seq<Node>, f: nat, reset: bool, status: Status, x: nat)
    requires Acyclic(g) && AllFit(g, nodes) && AllEnded(g, outputs, nodes) && Unread(g, outputs)
    requires f < |nodes| && x < |nodes| && x != f && CanRun(g, nodes, f)
    requires nodes[f].status == Ended ==> status == Ended
    ensures EndedAt(g, outputs, WithStatus(RunBroadcast(g, nodes, f, reset), f, status), x)
  {
    var nodes1 := RunBroadcast(g, nodes, f, reset);
    var nodes' := WithStatus(nodes1, f, status);
    var o := ProcessIn(g, nodes, f);
    RunAt(g, nodes, f, reset, x);
    var gone, gone' := Gone(g, nodes, x), Gone(g, nodes', x);
    forall k | 0 <= k < |gone| && gone[k] ensures gone'[k] {
      RunAt(g, nodes, f, reset, g.preds[x][k]);
    }
    assert EndedAt(g, outputs, nodes, x) && FitsAt(g, nodes, x);
    if nodes[x].status == Ended {
      DeadGrows(nodes[x].op, gone, gone');
      if nodes[f].status == Ended {
        EndedFails(g, outputs, nodes, f);
      }
      hide DeadOp, ProcessIn, RunBroadcast;
      assert nodes'[x].op == nodes[x].op;
    }
  }

  lemma TakenHeld(op: Op, heads: seq<Option<Row>>, k: nat)
    requires op.RawData? || Arity(op, |heads|)
    requires k in Outcomes(op, heads).taken
    ensures k < |heads| && heads[k].Some?
  {
    hide UnsignedQuotient, InsertBounded;
  }

  lemma RunStatuses(g: Graph, nodes: seq<Node>, f: nat, reset: bool)
    requires CanRun(g, nodes, f)
    ensures forall x :: 0 <= x < |nodes| ==> RunBroadcast(g, nodes, f, reset)[x].status == nodes[x].status
  {
    forall x | 0 <= x < |nodes| ensures RunBroadcast(g, nodes, f, reset)[x].status == nodes[x].status {
      RunAt(g, nodes, f, reset, x);
    }
  }

  lemma RunGone(g: Graph, nodes: seq<Node>, f: nat, reset: bool, status: Status)
    requires Acyclic(g) && CanRun(g, nodes, f)
    ensures Gone(g, WithStatus(RunBroadcast(g, nodes, f, reset), f, status), f) == Gone(g, nodes, f)
  {
    RunStatuses(g, nodes, f, reset);
    hide RunBroadcast, CanRun;
    assert forall k :: 0 <= k < |g.preds[f]| ==> g.rank[g.preds[f][k]] < g.rank[f];
  }

  // When nothing is left to be requested, the call took nothing, and the inputs that
  // gave nothing have ended.
  lemma NothingLeft(g: Graph, outputs: seq<nat>, nodes: seq<Node>, f: nat, reset: bool)
    requires Acyclic(g) && AllFit(g, nodes) && AllEnded(g, outputs, nodes) && Unread(g, outputs)
    requires f < |nodes| && CanRun(g, nodes, f)
    requires forall k :: 0 <= k < |g.preds[f]| ==>
      !Wanted(RunBroadcast(g, nodes, f, reset)[g.preds[f][k]]) && nodes[g.preds[f][k]].status != ToProcess
    ensures ProcessIn(g, nodes, f).taken == {}
    ensures forall k :: 0 <= k < |g.preds[f]| ==> (nodes[g.preds[f][k]].status == Ended <==> !nodes[g.preds[f][k]].hasValue)
  {
    var o := ProcessIn(g, nodes, f);
    Runnable(g, nodes, f);
    forall k | 0 <= k < |g.preds[f]|
      ensures k !in o.taken
      ensures nodes[g.preds[f][k]].status == Ended <==> !nodes[g.preds[f][k]].hasValue
    {
      var q := g.preds[f][k];
      RunAt(g, nodes, f, reset, q);
      hide DeadOp, RunBroadcast, Process, HeadsOf, ProcessIn;
      assert EndedAt(g, outputs, nodes, q) && g.rank[q] < g.rank[f] && FitsAt(g, nodes, f);
      if k in o.taken {
        assert Taken(g, f, o.taken, q);
        TakenHeld(nodes[f].op, HeadsOf(g, nodes, f), k);
        Held(g, nodes, f, k);
        assert false;
      }
    }
    forall k | k in o.taken ensures false {
      TakenHeld(nodes[f].op, HeadsOf(g, nodes, f), k);
    }
  }

  lemma Held(g: Graph, nodes: seq<Node>, f: nat, k: nat)
    requires f < |g.preds| && InRange(g.preds[f], |nodes|) && k < |g.preds[f]|
    ensures HeadsOf(g, nodes, f)[k].Some? <==> nodes[g.preds[f][k]].hasValue
  {
  }

  lemma SelfEnds(g: Graph, outputs: seq<nat>, nodes: seq<Node>, f: nat, reset: bool)
    requires Acyclic(g) && AllFit(g, nodes) && AllEnded(g, outputs, nodes) && Unread(g, outputs)
    requires f < |nodes| && CanRun(g, nodes, f) && !ProcessIn(g, nodes, f).ok
    requires reset || nodes[f].status == ToProcess
    requires forall k :: 0 <= k < |g.preds[f]| ==>
      !Wanted(RunBroadcast(g, nodes, f, reset)[g.preds[f][k]]) && nodes[g.preds[f][k]].status != ToProcess
    ensures EndedAt(g, outputs, WithStatus(RunBroadcast(g, nodes, f, reset), f, Ended), f)
  {
    var gone, heads := Gone(g, nodes, f), HeadsOf(g, nodes, f);
    NothingLeft(g, outputs, nodes, f, reset);
    RunGone(g, nodes, f, reset, Ended);
    RunAt(g, nodes, f, reset, f);
    Runnable(g, nodes, f);
    OutcomesFit(nodes[f].op, heads);
    assert FitsAt(g, nodes, f) && EndedAt(g, outputs, nodes, f);
    if g.preds[f] != [] {
      assert EndedAt(g, outputs, nodes, g.preds[f][0]);
    }
    FailsDead(nodes[f].op, heads, gone);
    hide DeadOp, RunBroadcast, Process, ProcessIn;
  }

  lemma SelfAgain(g: Graph, outputs: seq<nat>, nodes: seq<Node>, f: nat, reset: bool)
    requires Acyclic(g) && AllFit(g, nodes) && AllEnded(g, outputs, nodes) && Unread(g, outputs)
    requires f < |nodes| && CanRun(g, nodes, f) && nodes[f].status != ToProcess
    requires !ProcessIn(g, nodes, f).ok && reset
    ensures EndedAt(g, outputs, RunBroadcast(g, nodes, f, reset), f)
  {
    RunAt(g, nodes, f, reset, f);
    RunGone(g, nodes, f, reset, nodes[f].status);
    var nodes' := RunBroadcast(g, nodes, f, reset);
    if nodes[f].status == Ended {
      EndedFails(g, outputs, nodes, f);
    }
    hide DeadOp, RunBroadcast, Process, ProcessIn;
    assert nodes' == WithStatus(nodes', f, nodes[f].status);
  }

  lemma SelfDelivers(g: Graph, outputs: seq<nat>, nodes: seq<Node>, f: nat, reset: bool)
    requires Acyclic(g) && AllFit(g, nodes) && AllEnded(g, outputs, nodes) && Unread(g, outputs)
    requires f < |nodes| && CanRun(g, nodes, f) && ProcessIn(g, nodes, f).ok
    ensures nodes[f].status != Ended
    ensures EndedAt(g, outputs, WithStatus(RunBroadcast(g, nodes, f, reset), f, Idle), f)
  {
    RunAt(g, nodes, f, reset, f);
    if nodes[f].status == Ended {
      EndedFails(g, outputs, nodes, f);
    }
    hide DeadOp, RunBroadcast, Process, ProcessIn;
  }

  // Functor f was called and got its new status.
  lemma CallKeeps(g: Graph, outputs: seq<nat>, nodes: seq<Node>, f: nat, reset: bool, status: Status)
    requires Acyclic(g) && AllFit(g, nodes) && AllEnded(g, outputs, nodes) && Unread(g, outputs)
    requires f < |nodes| && CanRun(g, nodes, f) && (nodes[f].status == Ended ==> status == Ended)
    requires EndedAt(g, outputs, WithStatus(RunBroadcast(g, nodes, f, reset), f, status), f)
    ensures
      var nodes' := WithStatus(RunBroadcast(g, nodes, f, reset), f, status);
      AllFit(g, nodes') && AllEnded(g, outputs, nodes')
  {
    RunFits(g, nodes, f, reset);
    var nodes1 := RunBroadcast(g, nodes, f, reset);
    var nodes' := WithStatus(nodes1, f, status);
    forall x | 0 <= x < |nodes| ensures EndedAt(g, outputs, nodes', x) && FitsAt(g, nodes', x) {
      hide DeadOp, RunBroadcast, Process, ProcessIn, EndedAt;
      if x != f {
        OthersStay(g, outputs, nodes, f, reset, status, x);
      }
      assert FitsAt(g, nodes1, x);
    }
  }

  // ------------------------------------------------------------------------ one turn

  ghost predicate EndsStay(nodes: seq<Node>, nodes': seq<Node>) {
    |nodes'| == |nodes| && forall x :: 0 <= x < |nodes| && nodes[x].status == Ended ==> nodes'[x].status == Ended
  }

  // The status f gets from a call, when the call settles it.
  function Settled(g: Graph, nodes: seq<Node>, f: nat): (r: Status)
    requires CanRun(g, nodes, f)
  {
    if ProcessIn(g, nodes, f).ok then Idle else Ended
  }

  lemma PopQueue(nodes: seq<Node>, nodes': seq<Node>, queue: seq<nat>)
    requires QueueOk(nodes, queue) && queue != [] && |nodes'| == |nodes| && nodes'[queue[0]].status != ToProcess
    requires forall x :: 0 <= x < |nodes| && x != queue[0] ==> nodes'[x].status == nodes[x].status
    ensures QueueOk(nodes', queue[1..])
  {
    forall i | 0 <= i < |nodes| ensures nodes'[i].status == ToProcess <==> i in queue[1..] {
      assert i in queue <==> i == queue[0] || i in queue[1..];
    }
  }

  lemma VisitSourceKeeps(g: Graph, outputs: seq<nat>, s: Sched)
    requires Acyclic(g) && Inv(g, outputs, s) && Unread(g, outputs) && s.queue != [] && g.preds[s.queue[0]] == []
    ensures CanTurn(g, s) && Inv(g, outputs, Turn(g, s)) && EndsStay(s.nodes, Turn(g, s).nodes)
  {
    var f := s.queue[0];
    Runnable(g, s.nodes, f);
    var status := Settled(g, s.nodes, f);
    assert s.nodes[f].status == ToProcess;
    hide ProcessIn, DeadOp, AllFit, AllEnded, RunBroadcast;
    if status == Idle {
      SelfDelivers(g, outputs, s.nodes, f, false);
    } else {
      SelfEnds(g, outputs, s.nodes, f, false);
    }
    CallKeeps(g, outputs, s.nodes, f, false, status);
    RunStatuses(g, s.nodes, f, false);
    PopQueue(s.nodes, WithStatus(RunBroadcast(g, s.nodes, f, false), f, status), s.queue);
  }

  lemma VisitOtherKeeps(g: Graph, outputs: seq<nat>, s: Sched)
    requires Acyclic(g) && Inv(g, outputs, s) && Unread(g, outputs) && s.queue != [] && g.preds[s.queue[0]] != []
    ensures CanTurn(g, s) && Inv(g, outputs, Turn(g, s)) && EndsStay(s.nodes, Turn(g, s).nodes)
  {
    var f := s.queue[0];
    Runnable(g, s.nodes, f);
    assert s.nodes[f].status == ToProcess;
    hide ProcessIn, DeadOp, AllFit, AllEnded, RunBroadcast, Request;
    var nodes1 := WithStatus(s.nodes, f, Processing);
    RelabelsKeeps(g, outputs, s.nodes, nodes1);
    PopQueue(s.nodes, nodes1, s.queue);
    RequestRelabels(outputs, nodes1, s.queue[1..], g.preds[f]);
    RelabelsKeeps(g, outputs, nodes1, Request(nodes1, s.queue[1..], g.preds[f]).0);
  }

  lemma TopDeliversKeeps(g: Graph, outputs: seq<nat>, s: Sched)
    requires Acyclic(g) && Inv(g, outputs, s) && Unread(g, outputs) && s.queue == [] && s.stack != []
    requires CanTurn(g, s) && ProcessIn(g, s.nodes, s.stack[|s.stack| - 1]).ok
    ensures Inv(g, outputs, Turn(g, s)) && EndsStay(s.nodes, Turn(g, s).nodes)
  {
    var f := s.stack[|s.stack| - 1];
    hide ProcessIn, DeadOp, AllFit, AllEnded, RunBroadcast;
    SelfDelivers(g, outputs, s.nodes, f, true);
    CallKeeps(g, outputs, s.nodes, f, true, Idle);
    RunStatuses(g, s.nodes, f, true);
  }

  lemma TopFailsKeeps(g: Graph, outputs: seq<nat>, s: Sched)
    requires Acyclic(g) && Inv(g, outputs, s) && Unread(g, outputs) && s.queue == [] && s.stack != []
    requires CanTurn(g, s) && !ProcessIn(g, s.nodes, s.stack[|s.stack| - 1]).ok
    ensures Inv(g, outputs, Turn(g, s)) && EndsStay(s.nodes, Turn(g, s).nodes)
  {
    var f := s.stack[|s.stack| - 1];
    var nodes1 := RunBroadcast(g, s.nodes, f, true);
    hide ProcessIn, DeadOp, AllFit, AllEnded, RunBroadcast, Request;
    RunStatuses(g, s.nodes, f, true);
    RequestRelabels(outputs, nodes1, [], g.preds[f]);
    var (nodes', queue') := Request(nodes1, [], g.preds[f]);
    if queue' != [] {
      SelfAgain(g, outputs, s.nodes, f, true);
      assert WithStatus(nodes1, f, s.nodes[f].status) == nodes1;
      CallKeeps(g, outputs, s.nodes, f, true, s.nodes[f].status);
      RelabelsKeeps(g, outputs, nodes1, nodes');
    } else {
      SelfEnds(g, outputs, s.nodes, f, true);
      CallKeeps(g, outputs, s.nodes, f, true, Ended);
    }
  }

  lemma TurnKeeps(g: Graph, outputs: seq<nat>, s: Sched)
    requires Acyclic(g) && Inv(g, outputs, s) && Unread(g, outputs) && (s.queue != [] || s.stack != [])
    ensures CanTurn(g, s) && Inv(g, outputs, Turn(g, s)) && EndsStay(s.nodes, Turn(g, s).nodes)
  {
    if s.queue != [] {
      hide Inv, Turn, CanTurn;
      assert s.queue[0] < |g.preds| by { InQueue(g, outputs, s); }
      if g.preds[s.queue[0]] == [] {
        VisitSourceKeeps(g, outputs, s);
      } else {
        VisitOtherKeeps(g, outputs, s);
      }
    } else {
      var f := s.stack[|s.stack| - 1];
      Runnable(g, s.nodes, f);
      hide Inv, Turn;
      if ProcessIn(g, s.nodes, f).ok {
        TopDeliversKeeps(g, outputs, s);
      } else {
        TopFailsKeeps(g, outputs, s);
      }
    }
  }

  lemma InQueue(g: Graph, outputs: seq<nat>, s: Sched)
    requires Acyclic(g) && Inv(g, outputs, s)
    ensures InRange(s.queue, |g.preds|) && |s.nodes| == |g.preds|
  {
  }

  lemma {:induction false} ReseedRelabels(s: Sched, outputs: seq<nat>, all: seq<nat>)
    requires InRange(outputs, |s.nodes|) && QueueOk(s.nodes, s.queue) && forall k :: 0 <= k < |outputs| ==> outputs[k] in all
    ensures
      var r := Reseed(s, outputs);
      Relabels(all, s.nodes, r.nodes) && QueueOk(r.nodes, r.queue) && r.stack == s.stack
    decreases |outputs|
  {
    if outputs != [] {
      var n := s.nodes[outputs[0]];
      if n.status != Ended && n.status != ToProcess {
        var nodes := WithStatus(s.nodes, outputs[0], ToProcess);
        assert outputs[0] !in s.queue;
        ReseedRelabels(s.(nodes := nodes, queue := s.queue + [outputs[0]]), outputs[1..], all);
      } else {
        ReseedRelabels(s, outputs[1..], all);
      }
    }
  }

  lemma RoundKeeps(g: Graph, outputs: seq<nat>, s: Sched)
    requires Acyclic(g) && Inv(g, outputs, s) && Unread(g, outputs)
    ensures InRange(outputs, |s.nodes|) && Inv(g, outputs, Round(g, outputs, s))
    ensures EndsStay(s.nodes, Round(g, outputs, s).nodes)
  {
    hide Turn, AllFit, AllEnded, Reseed;
    InQueue(g, outputs, s);
    if s.queue == [] && s.stack == [] {
      ReseedRelabels(s, outputs, outputs);
      RelabelsKeeps(g, outputs, s.nodes, Reseed(s, outputs).nodes);
    } else {
      TurnKeeps(g, outputs, s);
    }
  }

  // ------------------------------------------------------------ calls and new rows

  // The calls of stream j waiting on the stack for which no call of split p waits
  // above them.
  function Due(stack: seq<nat>, j: nat, p: nat): (r: nat)
    decreases |stack|
  {
    if stack == [] then 0
    else
      var last := |stack| - 1;
      var below := Due(stack[..last], j, p);
      if stack[last] == j then below + 1
      else if stack[last] == p && below > 0 then below - 1
      else below
  }

  // Whether a visit of split p comes before any visit of stream j.
  function Credit(queue: seq<nat>, j: nat, p: nat): (r: nat)
    ensures r <= 1
    decreases |queue|
  {
    if queue == [] || queue[0] == j then 0
    else if queue[0] == p then 1
    else Credit(queue[1..], j, p)
  }

  lemma {:induction false} CreditGrows(queue: seq<nat>, queue': seq<nat>, j: nat, p: nat)
    requires queue <= queue'
    ensures Credit(queue, j, p) <= Credit(queue', j, p)
    decreases |queue|
  {
    if queue != [] {
      CreditGrows(queue[1..], queue'[1..], j, p);
    }
  }

  lemma {:induction false} CreditOfSplit(queue: seq<nat>, j: nat, p: nat)
    requires p in queue && j !in queue
    ensures Credit(queue, j, p) == 1
    decreases |queue|
  {
    if queue[0] != p {
      assert p in queue[1..];
      CreditOfSplit(queue[1..], j, p);
    }
  }

  // The rows stream n has not delivered yet.
  function Waiting(n: Node): (r: int)
    requires n.op.RawData?
  {
    |n.op.rows| - (n.op.index + 1)
  }

  // The rows up to the cursor have been delivered; after a failed call the cursor is
  // beyond them.
  predicate UpTo(op: Op, produced: seq<Row>)
    requires op.RawData?
  {
    -1 <= op.index && produced == op.rows[..if op.index + 1 <= |op.rows| then op.index + 1 else |op.rows|]
  }

  ghost predicate History(nodes: seq<Node>, p: nat, j: nat)
    requires p < |nodes| && j < |nodes| && nodes[j].op.RawData?
  {
    nodes[j].op.rows == nodes[p].produced && UpTo(nodes[j].op, nodes[j].produced)
  }

  // While the split has not ended, the cursor is on a row, and every call of the
  // stream that waits on the stack has a row or a call of the split to come before it.
  ghost predicate Covered(s: Sched, p: nat, j: nat)
    requires p < |s.nodes| && j < |s.nodes| && s.nodes[j].op.RawData?
  {
    s.nodes[p].status != Ended ==>
      0 <= Waiting(s.nodes[j]) && Due(s.stack, j, p) <= Credit(s.queue, j, p) + Waiting(s.nodes[j])
  }

  ghost predicate StreamOk(g: Graph, s: Sched, p: nat, j: nat) {
    IsStream(g, s.nodes, p, j) && History(s.nodes, p, j) && Covered(s, p, j)
  }

  // What a call of f does to the history of x.
  lemma WorkAt(g: Graph, nodes: seq<Node>, f: nat, reset: bool, x: nat)
    requires CanRun(g, nodes, f) && x < |nodes|
    ensures
      var o := ProcessIn(g, nodes, f);
      RunBroadcast(g, nodes, f, reset)[x].produced == nodes[x].produced + if x == f && o.ok then [o.value] else []
  {
    hide ProcessIn, Added;
  }

  lemma CallKeepsUpTo(op: Op, produced: seq<Row>)
    requires op.RawData? && UpTo(op, produced)
    ensures
      var o := ProcessRawData(op);
      o.op.RawData? && UpTo(o.op, produced + if o.ok then [o.value] else [])
  {
    var n := op.index + 1;
    if n < |op.rows| {
      assert op.rows[..n + 1] == op.rows[..n] + [op.rows[n]];
    }
  }

  lemma HistoryKeeps(g: Graph, outputs: seq<nat>, s: Sched, p: nat, j: nat)
    requires Acyclic(g) && Inv(g, outputs, s) && Unread(g, outputs) && CanTurn(g, s) && StreamOk(g, s, p, j)
    ensures IsStream(g, Turn(g, s).nodes, p, j) && History(Turn(g, s).nodes, p, j)
  {
    HandedKeeps(g, s, p, j);
    TurnWorks(g, s, j, true);
    if Called(g, s).Some? {
      var f := Called(g, s).value;
      WorkAt(g, s.nodes, f, true, j);
      RunAt(g, s.nodes, f, true, j);
      if f == p && s.nodes[p].status == Ended {
        EndedFails(g, outputs, s.nodes, p);
      }
      if f == j {
        CallKeepsUpTo(s.nodes[j].op, s.nodes[j].produced);
        hide Turn, Taken, HeadsOf, Process, RunBroadcast, DeadOp, AllFit, AllEnded, UpTo, ProcessRawData;
      } else {
        hide Turn, Taken, HeadsOf, ProcessIn, RunBroadcast, DeadOp, AllFit, AllEnded;
      }
    }
  }

  // A visit calls neither the split nor the stream.
  lemma VisitLeaves(g: Graph, outputs: seq<nat>, s: Sched, p: nat, j: nat, x: nat)
    requires Acyclic(g) && Inv(g, outputs, s) && CanTurn(g, s) && s.queue != []
    requires IsStream(g, s.nodes, p, j) && (x == p || x == j)
    ensures |Turn(g, s).nodes| == |s.nodes| && SameWork(Turn(g, s).nodes[x], s.nodes[x])
  {
    TurnWorks(g, s, x, false);
    var f := s.queue[0];
    assert FitsAt(g, s.nodes, p) && FitsAt(g, s.nodes, f);
    if g.preds[f] == [] {
      WorkAt(g, s.nodes, f, false, x);
      RunAt(g, s.nodes, f, false, x);
      Runnable(g, s.nodes, f);
      OutcomesFit(s.nodes[f].op, HeadsOf(g, s.nodes, f));
    }
    hide Turn, RunBroadcast, ProcessIn, HeadsOf;
  }

  // Where a visit leaves the queue and the stack.
  lemma VisitPlaces(g: Graph, outputs: seq<nat>, s: Sched, p: nat, j: nat)
    requires Acyclic(g) && Inv(g, outputs, s) && CanTurn(g, s) && s.queue != [] && IsStream(g, s.nodes, p, j)
    requires s.nodes[p].status != Ended
    ensures
      var t := Turn(g, s);
      && s.queue[1..] <= t.queue
      && t.stack == (if g.preds[s.queue[0]] == [] then s.stack else s.stack + [s.queue[0]])
      && (s.queue[0] == j ==> p in t.queue && j !in t.queue)
  {
    var f := s.queue[0];
    if g.preds[f] != [] {
      var nodes1 := WithStatus(s.nodes, f, Processing);
      PopQueue(s.nodes, nodes1, s.queue);
      assert EndedAt(g, outputs, s.nodes, p);
      RequestRelabels(outputs, nodes1, s.queue[1..], g.preds[f]);
    }
  }

  lemma VisitCovers(g: Graph, outputs: seq<nat>, s: Sched, p: nat, j: nat)
    requires Acyclic(g) && Inv(g, outputs, s) && CanTurn(g, s) && s.queue != [] && StreamOk(g, s, p, j)
    requires EndsStay(s.nodes, Turn(g, s).nodes)
    ensures |Turn(g, s).nodes| == |s.nodes| && Turn(g, s).nodes[j].op.RawData? && Covered(Turn(g, s), p, j)
  {
    VisitLeaves(g, outputs, s, p, j, j);
    var t, f := Turn(g, s), s.queue[0];
    if t.nodes[p].status != Ended {
      VisitPlaces(g, outputs, s, p, j);
      SplitIsRead(g, s.nodes, p, j);
      hide Turn, CanTurn, Inv, Due, Credit;
      CreditGrows(s.queue[1..], t.queue, j, p);
      CreditFront(s.queue, j, p);
      DuePush(s.stack, f, j, p);
      if f == j {
        CreditOfSplit(t.queue, j, p);
      }
    }
  }

  // A split and its streams read something.
  lemma SplitIsRead(g: Graph, nodes: seq<Node>, p: nat, j: nat)
    requires Acyclic(g) && AllFit(g, nodes) && IsStream(g, nodes, p, j)
    ensures g.preds[p] != [] && g.preds[j] != []
  {
    assert FitsAt(g, nodes, p);
  }

  lemma DuePush(stack: seq<nat>, f: nat, j: nat, p: nat)
    ensures Due(stack + [f], j, p) ==
      if f == j then Due(stack, j, p) + 1 else if f == p && Due(stack, j, p) > 0 then Due(stack, j, p) - 1 else Due(stack, j, p)
  {
    assert (stack + [f])[..|stack|] == stack;
  }

  lemma CreditFront(queue: seq<nat>, j: nat, p: nat)
    requires queue != []
    ensures Credit(queue, j, p) == if queue[0] == j then 0 else if queue[0] == p then 1 else Credit(queue[1..], j, p)
  {
  }

  // While the split has not ended, a stream that is called has a new row.
  lemma StreamDelivers(g: Graph, s: Sched, p: nat, j: nat)
    requires CanTurn(g, s) && StreamOk(g, s, p, j) && s.nodes[p].status != Ended && Called(g, s) == Some(j)
    ensures ProcessIn(g, s.nodes, j).ok
  {
    assert s.queue == [];
  }

  lemma TopCovers(g: Graph, outputs: seq<nat>, s: Sched, p: nat, j: nat)
    requires Acyclic(g) && Inv(g, outputs, s) && CanTurn(g, s) && s.queue == [] && StreamOk(g, s, p, j)
    requires EndsStay(s.nodes, Turn(g, s).nodes)
    ensures |Turn(g, s).nodes| == |s.nodes| && Turn(g, s).nodes[j].op.RawData? && Covered(Turn(g, s), p, j)
  {
    var t, f := Turn(g, s), s.stack[|s.stack| - 1];
    TurnWorks(g, s, j, true);
    RunAt(g, s.nodes, f, true, j);
    KindStays(g, s, j);
    Runnable(g, s.nodes, f);
    assert FitsAt(g, s.nodes, f);
    OutcomesFit(s.nodes[f].op, HeadsOf(g, s.nodes, f));
    if t.nodes[p].status != Ended {
      if f == j {
        StreamDelivers(g, s, p, j);
      }
      hide RunBroadcast, Process, HeadsOf, Request, DeadOp, Inv;
    }
  }

  lemma TurnKeepsStream(g: Graph, outputs: seq<nat>, s: Sched, p: nat, j: nat)
    requires Acyclic(g) && Inv(g, outputs, s) && Unread(g, outputs) && (s.queue != [] || s.stack != [])
    requires StreamOk(g, s, p, j)
    ensures CanTurn(g, s) && StreamOk(g, Turn(g, s), p, j)
  {
    TurnKeeps(g, outputs, s);
    HistoryKeeps(g, outputs, s, p, j);
    if s.queue != [] {
      VisitCovers(g, outputs, s, p, j);
    } else {
      TopCovers(g, outputs, s, p, j);
    }
  }

  // ----------------------------------------------------------------------- whole runs

  lemma RoundKeepsStream(g: Graph, outputs: seq<nat>, s: Sched, p: nat, j: nat)
    requires Acyclic(g) && Inv(g, outputs, s) && Unread(g, outputs) && StreamOk(g, s, p, j)
    ensures InRange(outputs, |s.nodes|) && StreamOk(g, Round(g, outputs, s), p, j)
  {
    InQueue(g, outputs, s);
    if s.queue == [] && s.stack == [] {
      ReseedRelabels(s, outputs, outputs);
      hide Reseed, Inv;
    } else {
      hide Inv, StreamOk, Turn, CanTurn;
      TurnKeepsStream(g, outputs, s, p, j);
    }
  }

  lemma {:induction false} RunKeeps(g: Graph, outputs: seq<nat>, s: Sched, p: nat, j: nat, n: nat)
    requires Acyclic(g) && Inv(g, outputs, s) && Unread(g, outputs) && StreamOk(g, s, p, j)
    ensures InRange(outputs, |s.nodes|)
    ensures Inv(g, outputs, Turns(g, outputs, s, n)) && StreamOk(g, Turns(g, outputs, s, n), p, j)
    decreases n
  {
    hide Inv, StreamOk, Round;
    InQueue(g, outputs, s);
    if n != 0 {
      RoundKeeps(g, outputs, s);
      RoundKeepsStream(g, outputs, s, p, j);
      RunKeeps(g, outputs, Round(g, outputs, s), p, j, n - 1);
    }
  }

  // Before run(): nothing is held or was delivered, and no stream was handed a row.
  ghost predicate Unused(g: Graph, s: Sched)
    requires Acyclic(g)
  {
    && AllFit(g, s.nodes) && s.queue == [] && s.stack == []
    && forall f :: 0 <= f < |s.nodes| ==>
         && s.nodes[f].status == Idle && !s.nodes[f].hasValue && s.nodes[f].produced == []
         && (s.nodes[f].op.RawData? && g.preds[f] != [] ==> s.nodes[f].op.rows == [] && s.nodes[f].op.index == -1)
  }

  // In every run on every graph without cycles, whatever reads the streams: the engine
  // never gets stuck; a stream has delivered a beginning of what its split took; it is
  // asked in vain only after its split has ended and it has delivered all of that; and
  // until then its cursor is on a row.
  lemma StreamsInStep(g: Graph, outputs: seq<nat>, s: Sched, p: nat, j: nat, n: nat)
    requires Acyclic(g) && Unused(g, s) && Unread(g, outputs) && IsStream(g, s.nodes, p, j)
    ensures InRange(outputs, |s.nodes|)
    ensures
      var t := Turns(g, outputs, s, n);
      && IsStream(g, t.nodes, p, j)
      && (t.queue != [] || t.stack != [] ==> CanTurn(g, t))
      && t.nodes[j].op.rows == t.nodes[p].produced
      && t.nodes[j].produced <= t.nodes[p].produced
      && (t.nodes[p].status != Ended ==> InStep(t.nodes[j]))
      && (CanTurn(g, t) && Called(g, t) == Some(j) && !ProcessIn(g, t.nodes, j).ok ==>
           t.nodes[p].status == Ended && t.nodes[j].produced == t.nodes[p].produced)
      && (t.nodes[j].status == Ended ==> t.nodes[p].status == Ended && t.nodes[j].produced == t.nodes[p].produced)
  {
    UnusedIsOk(g, outputs, s, p, j);
    RunKeeps(g, outputs, s, p, j, n);
    hide Unused, Turns;
    OkIsInStep(g, outputs, Turns(g, outputs, s, n), p, j);
  }

  lemma UnusedIsOk(g: Graph, outputs: seq<nat>, s: Sched, p: nat, j: nat)
    requires Acyclic(g) && Unused(g, s) && Unread(g, outputs) && IsStream(g, s.nodes, p, j)
    ensures Inv(g, outputs, s) && StreamOk(g, s, p, j) && InRange(outputs, |s.nodes|)
  {
    hide DeadOp;
  }

  lemma OkIsInStep(g: Graph, outputs: seq<nat>, t: Sched, p: nat, j: nat)
    requires Acyclic(g) && Inv(g, outputs, t) && Unread(g, outputs) && StreamOk(g, t, p, j)
    ensures t.queue != [] || t.stack != [] ==> CanTurn(g, t)
    ensures t.nodes[j].op.rows == t.nodes[p].produced && t.nodes[j].produced <= t.nodes[p].produced
    ensures t.nodes[p].status != Ended ==> InStep(t.nodes[j])
    ensures CanTurn(g, t) && Called(g, t) == Some(j) && !ProcessIn(g, t.nodes, j).ok ==>
      t.nodes[p].status == Ended && t.nodes[j].produced == t.nodes[p].produced
    ensures t.nodes[j].status == Ended ==> t.nodes[p].status == Ended && t.nodes[j].produced == t.nodes[p].produced
  {
    assert FitsAt(g, t.nodes, j) && EndedAt(g, outputs, t.nodes, j);
    assert Gone(g, t.nodes, j) == [t.nodes[p].status == Ended];
    if t.queue != [] || t.stack != [] {
      TurnKeeps(g, outputs, t);
    }
    hide Turn, CanTurn;
    if CanTurn(g, t) && Called(g, t) == Some(j) && t.nodes[p].status != Ended {
      StreamDelivers(g, t, p, j);
    }
  }
}
