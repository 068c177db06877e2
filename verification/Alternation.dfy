// Values are never overwritten where a filter, a split or an output reads them, even
// when functors are on the stack more than once: between two calls of the functor read
// there is always one of its reader.
module Alternation {
  import opened Operators
  import opened Dataflow
  import opened Scheduler
  import opened StreamMeaning
  import opened Broadcast
  import opened Streams
  import opened SplitFuture

  // The nodes after the call of a turn, before statuses are set.
  function AfterCall(g: Graph, s: Sched): (r: seq<Node>)
    requires CanTurn(g, s)
    ensures |r| == |s.nodes|
  {
    match Called(g, s)
    case None => s.nodes
    case Some(f) => RunBroadcast(g, s.nodes, f, s.queue == [])
  }

  // Apart from statuses a turn is its call.
  lemma TurnNode(g: Graph, s: Sched, x: nat)
    requires CanTurn(g, s) && x < |s.nodes|
    ensures |Turn(g, s).nodes| == |s.nodes|
    ensures Turn(g, s).nodes[x] == AfterCall(g, s)[x].(status := Turn(g, s).nodes[x].status)
  {
    hide ProcessIn, Added, Request, Taken;
    if s.queue != [] {
      var f := s.queue[0];
      RequestNode(WithStatus(s.nodes, f, Processing), s.queue[1..], g.preds[f], x);
    } else {
      var f := s.stack[|s.stack| - 1];
      RequestNode(RunBroadcast(g, s.nodes, f, true), [], g.preds[f], x);
    }
  }

  // Which of q and i is on the stack last.
  function Topmost(stack: seq<nat>, q: nat, i: nat): (r: Option<nat>)
    decreases |stack|
  {
    if stack == [] then None
    else
      var last := |stack| - 1;
      if stack[last] == q || stack[last] == i then Some(stack[last]) else Topmost(stack[..last], q, i)
  }

  // Between two places of q there is one of i.
  predicate Alternates(stack: seq<nat>, q: nat, i: nat)
    decreases |stack|
  {
    stack == [] ||
    var last := |stack| - 1;
    Alternates(stack[..last], q, i) && (stack[last] == q ==> Topmost(stack[..last], q, i) != Some(q))
  }

  // Functor i, a filter, a split or an output, reads functor q.
  ghost predicate Reads(g: Graph, nodes: seq<Node>, i: nat, q: nat) {
    && i < |g.preds| == |nodes| && q < |nodes| && g.preds[i] == [q] && i != q
    && (nodes[i].op.Filter? || nodes[i].op.Output?) && !nodes[q].op.Output?
  }

  ghost predicate TakesTurns(s: Sched, i: nat, q: nat)
    requires q < |s.nodes|
  {
    && Alternates(s.stack, q, i)
    && (q in s.queue ==> Topmost(s.stack, q, i) == Some(i))
    && (s.nodes[q].hasValue ==> Topmost(s.stack, q, i) != Some(q))
  }

  // What the reader does with the rows it takes.
  function Kept(op: Op, rows: seq<Row>): (r: seq<Row>)
    requires op.Filter? || op.Output?
  {
    if op.Filter? then Matching(op.keep, rows) else rows
  }

  // The rows of q that its reader has taken.
  function Consumed(n: Node): (r: seq<Row>) {
    if n.hasValue && n.produced != [] then n.produced[..|n.produced| - 1] else n.produced
  }

  ghost predicate Passed(nodes: seq<Node>, i: nat, q: nat)
    requires i < |nodes| && q < |nodes| && (nodes[i].op.Filter? || nodes[i].op.Output?)
  {
    && (nodes[q].hasValue ==> nodes[q].produced != [] && nodes[q].value == nodes[q].produced[|nodes[q].produced| - 1])
    && nodes[i].produced == Kept(nodes[i].op, Consumed(nodes[q]))
  }

  // A reader that is called leaves no value.
  lemma ReaderTakes(g: Graph, nodes: seq<Node>, i: nat, q: nat, reset: bool)
    requires Reads(g, nodes, i, q) && CanRun(g, nodes, i)
    ensures !RunBroadcast(g, nodes, i, reset)[q].hasValue
    ensures
      var o := ProcessIn(g, nodes, i);
      && (o.ok ==> nodes[q].hasValue && o.value == nodes[q].value)
      && (nodes[q].hasValue && nodes[i].op.Output? ==> o.ok)
      && (nodes[q].hasValue && nodes[i].op.Filter? ==> o.ok == nodes[i].op.keep(nodes[q].value))
      && (nodes[i].op.Filter? ==> o.op == nodes[i].op) && (nodes[i].op.Output? <==> o.op.Output?)
  {
    RunAt(g, nodes, i, reset, q);
    if nodes[q].hasValue {
      var o := ProcessIn(g, nodes, i);
      assert HeadsOf(g, nodes, i)[0] == Some(nodes[q].value);
      assert 0 in o.taken;
      assert Taken(g, i, o.taken, q);
    }
  }

  // Nobody but its reader takes from q.
  lemma OthersLeave(g: Graph, nodes: seq<Node>, i: nat, q: nat, f: nat, reset: bool)
    requires Shaped(g, nodes) && Reads(g, nodes, i, q) && CanRun(g, nodes, f) && f != i && f != q
    ensures
      var n, n' := nodes[q], RunBroadcast(g, nodes, f, reset)[q];
      n'.hasValue == n.hasValue && n'.value == n.value && n'.produced == n.produced
  {
    RunAt(g, nodes, f, reset, q);
    WorkAt(g, nodes, f, reset, q);
    ValueAt(g, nodes, f, reset, q);
    hide RunBroadcast, ProcessIn;
    assert g.preds[i][0] == q;
  }

  lemma OwnCall(g: Graph, nodes: seq<Node>, q: nat, reset: bool)
    requires CanRun(g, nodes, q) && Acyclic(g) && AllFit(g, nodes) && !nodes[q].op.Output?
    ensures
      var o, n, n' := ProcessIn(g, nodes, q), nodes[q], RunBroadcast(g, nodes, q, reset)[q];
      && (o.ok ==> n'.hasValue && n'.value == o.value && n'.produced == n.produced + [o.value])
      && (!o.ok ==> n'.hasValue == (n.hasValue && !reset) && n'.value == n.value && n'.produced == n.produced)
  {
    RunAt(g, nodes, q, reset, q);
    WorkAt(g, nodes, q, reset, q);
    ValueAt(g, nodes, q, reset, q);
    Runnable(g, nodes, q);
    assert FitsAt(g, nodes, q);
    OutcomesFit(nodes[q].op, HeadsOf(g, nodes, q));
    hide RunBroadcast, ProcessIn, Outcomes, HeadsOf;
  }

  // When q is called it holds nothing.
  lemma CalledEmpty(g: Graph, outputs: seq<nat>, s: Sched, i: nat, q: nat)
    requires Acyclic(g) && Inv(g, outputs, s) && Unread(g, outputs) && CanTurn(g, s)
    requires Reads(g, s.nodes, i, q) && TakesTurns(s, i, q) && Called(g, s) == Some(q)
    ensures !s.nodes[q].hasValue
  {
    if s.queue != [] {
      assert g.preds[i][0] == q;
      assert EndedAt(g, outputs, s.nodes, q) && s.queue[0] in s.queue;
    }
  }

  lemma ReadsStays(g: Graph, s: Sched, i: nat, q: nat)
    requires Acyclic(g) && CanTurn(g, s) && AllFit(g, s.nodes) && Reads(g, s.nodes, i, q)
    ensures Reads(g, Turn(g, s).nodes, i, q)
    ensures s.nodes[i].op.Filter? ==> Turn(g, s).nodes[i].op == s.nodes[i].op
    ensures s.nodes[i].op.Output? ==> Turn(g, s).nodes[i].op.Output?
  {
    OpsStay(g, s, i);
    OpsStay(g, s, q);
  }

  // Operators keep their kind, and filters their function.
  lemma OpsStay(g: Graph, s: Sched, x: nat)
    requires Acyclic(g) && CanTurn(g, s) && AllFit(g, s.nodes) && x < |s.nodes|
    ensures |Turn(g, s).nodes| == |s.nodes|
    ensures Turn(g, s).nodes[x].op.Output? <==> s.nodes[x].op.Output?
    ensures Turn(g, s).nodes[x].op.RawData? <==> s.nodes[x].op.RawData?
    ensures Turn(g, s).nodes[x].op.Filter? <==> s.nodes[x].op.Filter?
    ensures s.nodes[x].op.Filter? ==> Turn(g, s).nodes[x].op == s.nodes[x].op
  {
    TurnNode(g, s, x);
    if Called(g, s).Some? {
      var f := Called(g, s).value;
      RunAt(g, s.nodes, f, s.queue == [], x);
      Runnable(g, s.nodes, f);
      assert FitsAt(g, s.nodes, f);
      OutcomesFit(s.nodes[f].op, HeadsOf(g, s.nodes, f));
      FilterStays(s.nodes[f].op, HeadsOf(g, s.nodes, f));
      hide Turn, RunBroadcast, ProcessIn, Outcomes, HeadsOf;
    }
  }

  lemma FilterStays(op: Op, heads: seq<Option<Row>>)
    requires op.RawData? || Arity(op, |heads|)
    ensures Outcomes(op, heads).op.Filter? <==> op.Filter?
    ensures op.Filter? ==> Outcomes(op, heads).op == op
  {
  }

  // ------------------------------------------------------- where a turn puts functors

  lemma VisitPuts(g: Graph, outputs: seq<nat>, s: Sched)
    requires Acyclic(g) && Inv(g, outputs, s) && CanTurn(g, s) && s.queue != []
    ensures
      var f, t := s.queue[0], Turn(g, s);
      && t.stack == (if g.preds[f] == [] then s.stack else s.stack + [f])
      && s.queue[1..] <= t.queue && f !in s.queue[1..]
      && (forall x :: x in t.queue ==> x in s.queue[1..] || x in g.preds[f])
      && f !in t.queue && s.nodes[f].status == ToProcess
      && (g.preds[f] == [] ==> t.queue == s.queue[1..])
  {
    var f := s.queue[0];
    assert f in s.queue;
    if g.preds[f] != [] {
      var nodes1 := WithStatus(s.nodes, f, Processing);
      PopQueue(s.nodes, nodes1, s.queue);
      RequestRelabels(outputs, nodes1, s.queue[1..], g.preds[f]);
    }
  }

  lemma TopPuts(g: Graph, outputs: seq<nat>, s: Sched)
    requires Acyclic(g) && Inv(g, outputs, s) && CanTurn(g, s) && s.queue == []
    ensures
      var f, t := s.stack[|s.stack| - 1], Turn(g, s);
      && (t.stack == s.stack || (t.queue == [] && t.stack == s.stack[..|s.stack| - 1]))
      && (t.stack == s.stack ==> !ProcessIn(g, s.nodes, f).ok && t.queue != [])
      && (forall x :: x in t.queue ==> x in g.preds[f])
  {
    var f := s.stack[|s.stack| - 1];
    var nodes1 := RunBroadcast(g, s.nodes, f, true);
    RunStatuses(g, s.nodes, f, true);
    hide RunBroadcast, ProcessIn, AllFit, AllEnded, DeadOp, Request;
    RequestRelabels(outputs, nodes1, [], g.preds[f]);
  }

  // ------------------------------------------------------------------------ every turn

  lemma PushTakesTurns(stack: seq<nat>, f: nat, q: nat, i: nat)
    ensures Topmost(stack + [f], q, i) == if f == q || f == i then Some(f) else Topmost(stack, q, i)
    ensures Alternates(stack + [f], q, i) <==> Alternates(stack, q, i) && (f == q ==> Topmost(stack, q, i) != Some(q))
  {
    assert (stack + [f])[..|stack|] == stack;
  }

  lemma VisitTakesTurns(g: Graph, outputs: seq<nat>, s: Sched, i: nat, q: nat)
    requires Acyclic(g) && Inv(g, outputs, s) && Unread(g, outputs) && CanTurn(g, s) && s.queue != []
    requires Shaped(g, s.nodes) && Reads(g, s.nodes, i, q) && TakesTurns(s, i, q)
    ensures q < |Turn(g, s).nodes| && TakesTurns(Turn(g, s), i, q)
  {
    var f, t := s.queue[0], Turn(g, s);
    VisitPuts(g, outputs, s);
    TurnNode(g, s, q);
    assert g.preds[i][0] == q;
    if f == q {
      assert EndedAt(g, outputs, s.nodes, q);
    }
    if g.preds[f] == [] && f != q {
      OthersLeave(g, s.nodes, i, q, f, false);
    }
    PushTakesTurns(s.stack, f, q, i);
    hide Turn, RunBroadcast, CanTurn, AllFit, AllEnded, Alternates, Topmost;
  }

  lemma TopTakesTurns(g: Graph, outputs: seq<nat>, s: Sched, i: nat, q: nat)
    requires Acyclic(g) && Inv(g, outputs, s) && Unread(g, outputs) && CanTurn(g, s) && s.queue == []
    requires Shaped(g, s.nodes) && Reads(g, s.nodes, i, q) && TakesTurns(s, i, q)
    ensures q < |Turn(g, s).nodes| && TakesTurns(Turn(g, s), i, q)
  {
    var f, t := s.stack[|s.stack| - 1], Turn(g, s);
    TopPuts(g, outputs, s);
    TurnNode(g, s, q);
    assert g.preds[i][0] == q;
    if f == q {
      OwnCall(g, s.nodes, q, true);
    } else if f == i {
      ReaderTakes(g, s.nodes, i, q, true);
    } else {
      OthersLeave(g, s.nodes, i, q, f, true);
    }
    hide Turn, RunBroadcast, AllFit, AllEnded, ProcessIn;
  }

  lemma TurnTakesTurns(g: Graph, outputs: seq<nat>, s: Sched, i: nat, q: nat)
    requires Acyclic(g) && Inv(g, outputs, s) && Unread(g, outputs) && CanTurn(g, s)
    requires Shaped(g, s.nodes) && Reads(g, s.nodes, i, q) && TakesTurns(s, i, q)
    ensures q < |Turn(g, s).nodes| && TakesTurns(Turn(g, s), i, q)
  {
    if s.queue != [] {
      VisitTakesTurns(g, outputs, s, i, q);
    } else {
      TopTakesTurns(g, outputs, s, i, q);
    }
  }

  lemma {:induction false} MatchingGrows(keep: Row -> bool, rows: seq<Row>, row: Row)
    ensures Matching(keep, rows + [row]) == Matching(keep, rows) + if keep(row) then [row] else []
    decreases |rows|
  {
    if rows == [] {
      assert [] + [row] == [row] && [row][1..] == [];
    } else {
      assert (rows + [row])[1..] == rows[1..] + [row];
      MatchingGrows(keep, rows[1..], row);
    }
  }

  lemma CallPasses(nodes: seq<Node>, nodes': seq<Node>, o: Outcome, i: nat, q: nat)
    requires |nodes| == |nodes'| && i < |nodes| && q < |nodes| && (nodes[i].op.Filter? || nodes[i].op.Output?)
    requires Passed(nodes, i, q) && !nodes'[q].hasValue && nodes'[q].produced == nodes[q].produced
    requires nodes'[i].produced == nodes[i].produced + Delivered(o)
    requires o.ok ==> nodes[q].hasValue && o.value == nodes[q].value
    requires nodes[q].hasValue && nodes[i].op.Output? ==> o.ok
    requires nodes[q].hasValue && nodes[i].op.Filter? ==> o.ok == nodes[i].op.keep(nodes[q].value)
    requires nodes[i].op.Filter? ==> nodes'[i].op == nodes[i].op
    requires nodes[i].op.Output? ==> nodes'[i].op.Output?
    ensures (nodes'[i].op.Filter? || nodes'[i].op.Output?) && Passed(nodes', i, q)
  {
    var rows := nodes[q].produced;
    if nodes[q].hasValue {
      assert rows == rows[..|rows| - 1] + [nodes[q].value];
      if nodes[i].op.Filter? {
        MatchingGrows(nodes[i].op.keep, rows[..|rows| - 1], nodes[q].value);
      }
    }
  }

  // A call of f, with whatever statuses are set afterwards.
  lemma CallKeepsPassed(g: Graph, nodes: seq<Node>, f: nat, reset: bool, i: nat, q: nat)
    requires Shaped(g, nodes) && Reads(g, nodes, i, q) && CanRun(g, nodes, f) && Passed(nodes, i, q)
    requires f == q ==> !nodes[q].hasValue
    ensures
      var nodes' := RunBroadcast(g, nodes, f, reset);
      (nodes'[i].op.Filter? || nodes'[i].op.Output?) && Passed(nodes', i, q)
  {
    var o := ProcessIn(g, nodes, f);
    WorkAt(g, nodes, f, reset, i);
    RunAt(g, nodes, f, reset, i);
    if f == q {
      OwnCall(g, nodes, q, reset);
      hide RunBroadcast, ProcessIn, AllFit;
    } else if f == i {
      WorkAt(g, nodes, f, reset, q);
      ReaderTakes(g, nodes, i, q, reset);
      CallPasses(nodes, RunBroadcast(g, nodes, f, reset), o, i, q);
    } else {
      OthersLeave(g, nodes, i, q, f, reset);
      hide RunBroadcast, ProcessIn, AllFit;
    }
  }

  lemma PassedSame(nodes: seq<Node>, nodes': seq<Node>, i: nat, q: nat)
    requires |nodes| == |nodes'| && i < |nodes| && q < |nodes| && (nodes[i].op.Filter? || nodes[i].op.Output?)
    requires nodes'[i] == nodes[i].(status := nodes'[i].status) && nodes'[q] == nodes[q].(status := nodes'[q].status)
    requires Passed(nodes, i, q)
    ensures Passed(nodes', i, q)
  {
    assert nodes'[i].op == nodes[i].op && Consumed(nodes'[q]) == Consumed(nodes[q]);
  }

  // Every row that q delivers reaches its reader, once and in order.
  lemma TurnPasses(g: Graph, outputs: seq<nat>, s: Sched, i: nat, q: nat)
    requires Acyclic(g) && Inv(g, outputs, s) && Unread(g, outputs) && CanTurn(g, s)
    requires Shaped(g, s.nodes) && Reads(g, s.nodes, i, q) && TakesTurns(s, i, q) && Passed(s.nodes, i, q)
    ensures Reads(g, Turn(g, s).nodes, i, q) && Passed(Turn(g, s).nodes, i, q)
  {
    ReadsStays(g, s, i, q);
    TurnNode(g, s, q);
    TurnNode(g, s, i);
    if Called(g, s).Some? {
      var f := Called(g, s).value;
      if f == q {
        CalledEmpty(g, outputs, s, i, q);
      }
      CallKeepsPassed(g, s.nodes, f, s.queue == [], i, q);
    }
    hide Turn, RunBroadcast, Inv, Passed, Reads, Shaped;
    assert s.nodes[i].op.Filter? || s.nodes[i].op.Output? by { ReaderKind(g, s.nodes, i, q); }
    PassedSame(AfterCall(g, s), Turn(g, s).nodes, i, q);
  }

  lemma ReaderKind(g: Graph, nodes: seq<Node>, i: nat, q: nat)
    requires Reads(g, nodes, i, q)
    ensures i < |nodes| && q < |nodes| && (nodes[i].op.Filter? || nodes[i].op.Output?)
  {
  }
}
