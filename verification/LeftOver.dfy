// How much of its inputs a functor leaves unread when it ends: what its operator leaves of
// the complete streams, whatever the engine did in between.
module LeftOver {
  import opened Operators
  import opened Dataflow
  import opened Scheduler
  import GraphMeaning
  import opened Broadcast
  import opened Streams
  import opened BroadcastEnds
  import opened SplitFuture
  import opened Alternation
  import opened Timed
  import opened SplitMeaning
  import opened Drained

  // What is left of the streams when the operator has come to its end.
  function LeftBy(op: Op, streams: seq<seq<Row>>): (r: seq<seq<Row>>)
    requires Arity(op, |streams|)
    ensures |r| == |streams|
    decreases 2 * TotalLength(streams) + Pending(op)
  {
    var o := Process(op, Heads(streams));
    if !o.ok && o.taken == {} then streams
    else
      ProcessLaws(op, streams);
      LeftBy(o.op, Advance(streams, o.taken))
  }

  // A call does not change what will be left.
  lemma LeftByUnfolds(op: Op, streams: seq<seq<Row>>)
    requires Arity(op, |streams|)
    ensures
      var o := Process(op, Heads(streams));
      Arity(o.op, |streams|) && LeftBy(o.op, Advance(streams, o.taken)) == LeftBy(op, streams)
  {
    ProcessLaws(op, streams);
    var o := Process(op, Heads(streams));
    hide Process;
    if !o.ok && o.taken == {} {
      assert Advance(streams, o.taken) == streams;
    }
  }

  ghost function LeftAt(g: Graph, nodes: seq<Node>, x: nat): (r: seq<seq<Row>>)
    requires Acyclic(g) && AllFit(g, nodes) && x < |nodes| && !nodes[x].op.RawData?
  {
    assert FitsAt(g, nodes, x);
    LeftBy(nodes[x].op, Flows(g, nodes, x))
  }

  ghost predicate LeavesSame(g: Graph, nodes: seq<Node>, lefts: seq<seq<seq<Row>>>)
    requires Acyclic(g) && AllFit(g, nodes)
  {
    |lefts| == |nodes| && forall x :: 0 <= x < |nodes| && !nodes[x].op.RawData? ==> LeftAt(g, nodes, x) == lefts[x]
  }

  // The inputs of every other functor show the same as before a call.
  lemma FlowsElsewhere(g: Graph, nodes: seq<Node>, f: nat, reset: bool, x: nat)
    requires Shaped(g, nodes) && CanRun(g, nodes, f) && Callable(g, nodes, f) && x < |nodes| && x != f && !nodes[x].op.RawData?
    requires AllFit(g, RunBroadcast(g, nodes, f, reset))
    ensures
      var nodes' := RunBroadcast(g, nodes, f, reset);
      nodes'[x].op == nodes[x].op && Flows(g, nodes', x) == Flows(g, nodes, x)
  {
    var nodes' := RunBroadcast(g, nodes, f, reset);
    RunFrames(g, nodes, f, reset);
    CallDelivers(g, nodes, f, reset);
    assert FitsAt(g, nodes, x);
    hide RunBroadcast, ProcessIn, Callable, CanRun;
    forall k | 0 <= k < |g.preds[x]| ensures Flow(g, nodes', g.preds[x][k]) == Flow(g, nodes, g.preds[x][k]) {
      var q := g.preds[x][k];
      if q == f {
        assert f in g.preds[x];
        FlowKeeps(g, nodes, f, reset);
      } else {
        NoOtherReader(g, nodes, x, k, f);
        LaterElsewhere(g, nodes, f, reset, q);
      }
    }
    hide Later, Flow;
    assert Flows(g, nodes', x) == Flows(g, nodes, x);
  }

  // The called functor has taken what it took, and will leave the same.
  lemma OwnLeaves(g: Graph, nodes: seq<Node>, f: nat, reset: bool)
    requires Shaped(g, nodes) && CanRun(g, nodes, f) && Callable(g, nodes, f) && !nodes[f].op.RawData?
    requires AllFit(g, RunBroadcast(g, nodes, f, reset))
    ensures
      var nodes' := RunBroadcast(g, nodes, f, reset);
      !nodes'[f].op.RawData? && LeftAt(g, nodes', f) == LeftAt(g, nodes, f)
  {
    var nodes' := RunBroadcast(g, nodes, f, reset);
    var o := ProcessIn(g, nodes, f);
    RunFrames(g, nodes, f, reset);
    Runnable(g, nodes, f);
    assert FitsAt(g, nodes, f);
    OutcomesFit(nodes[f].op, HeadsOf(g, nodes, f));
    if Fed(g, nodes, f) {
      FlowsAdvance(g, nodes, f, reset);
      FedHeads(g, nodes, f);
      LeftByUnfolds(nodes[f].op, Flows(g, nodes, f));
    } else {
      OwnWaits(g, nodes, f, reset);
    }
  }

  // A filter or an output without a value leaves everything as it was.
  lemma OwnWaits(g: Graph, nodes: seq<Node>, f: nat, reset: bool)
    requires Shaped(g, nodes) && CanRun(g, nodes, f) && (nodes[f].op.Filter? || nodes[f].op.Output?) && !Fed(g, nodes, f)
    requires AllFit(g, RunBroadcast(g, nodes, f, reset))
    ensures
      var nodes' := RunBroadcast(g, nodes, f, reset);
      nodes'[f].op == nodes[f].op && Flows(g, nodes', f) == Flows(g, nodes, f)
  {
    var nodes' := RunBroadcast(g, nodes, f, reset);
    RunFrames(g, nodes, f, reset);
    assert FitsAt(g, nodes, f);
    var q := g.preds[f][0];
    assert !nodes[q].hasValue && g.rank[q] < g.rank[f];
    WaitsFails(g, nodes, f);
    RunAt(g, nodes, f, reset, q);
    hide Later, ProcessIn, AllFit, RunBroadcast;
    LaterBelow(g, nodes, nodes', f, q);
    assert Flow(g, nodes', q) == Flow(g, nodes, q);
    assert Flows(g, nodes', f) == Flows(g, nodes, f);
  }

  lemma CallLeaves(g: Graph, nodes: seq<Node>, f: nat, reset: bool, lefts: seq<seq<seq<Row>>>)
    requires Shaped(g, nodes) && CanRun(g, nodes, f) && Callable(g, nodes, f) && LeavesSame(g, nodes, lefts)
    ensures Shaped(g, RunBroadcast(g, nodes, f, reset)) && LeavesSame(g, RunBroadcast(g, nodes, f, reset), lefts)
  {
    var nodes' := RunBroadcast(g, nodes, f, reset);
    ShapedStays(g, nodes, f, reset);
    forall x | 0 <= x < |nodes| && !nodes'[x].op.RawData? ensures LeftAt(g, nodes', x) == lefts[x] {
      RawStays(g, nodes, f, reset, x);
      hide RunBroadcast, ProcessIn, Callable, CanRun, AllFit, Later, OneReader, LeftBy, Flows;
      if x == f {
        OwnLeaves(g, nodes, f, reset);
      } else {
        FlowsElsewhere(g, nodes, f, reset, x);
      }
    }
  }

  lemma RawStays(g: Graph, nodes: seq<Node>, f: nat, reset: bool, x: nat)
    requires Shaped(g, nodes) && CanRun(g, nodes, f) && x < |nodes|
    ensures RunBroadcast(g, nodes, f, reset)[x].op.RawData? <==> nodes[x].op.RawData?
  {
    RunAt(g, nodes, f, reset, x);
    Runnable(g, nodes, f);
    assert FitsAt(g, nodes, f);
    OutcomesFit(nodes[f].op, HeadsOf(g, nodes, f));
    hide RunBroadcast, ProcessIn, HeadsOf, Outcomes;
  }

  lemma StatusesLeave(g: Graph, nodes: seq<Node>, nodes': seq<Node>, lefts: seq<seq<seq<Row>>>)
    requires Shaped(g, nodes) && AllFit(g, nodes') && |nodes'| == |nodes| && LeavesSame(g, nodes, lefts)
    requires forall i :: 0 <= i < |nodes| ==> nodes'[i] == nodes[i].(status := nodes'[i].status)
    ensures LeavesSame(g, nodes', lefts)
  {
    hide Later, LeftBy;
    forall x | 0 <= x < |nodes| && !nodes'[x].op.RawData? ensures LeftAt(g, nodes', x) == lefts[x] {
      assert LeftAt(g, nodes, x) == lefts[x];
      forall k | 0 <= k < |g.preds[x]| ensures Flow(g, nodes', g.preds[x][k]) == Flow(g, nodes, g.preds[x][k]) {
        LaterSame(g, nodes, nodes', g.preds[x][k]);
      }
      assert Flows(g, nodes', x) == Flows(g, nodes, x);
    }
  }

  // ------------------------------------------------------------------------- every turn

  lemma TurnLeaves(g: Graph, outputs: seq<nat>, c: Clock, s: Sched, lefts: seq<seq<seq<Row>>>)
    requires Acyclic(g) && Whole(g, outputs, c, s) && Unread(g, outputs) && (s.queue != [] || s.stack != [])
    requires LeavesSame(g, s.nodes, lefts) && CanTurn(g, s) && Shaped(g, Turn(g, s).nodes)
    ensures LeavesSame(g, Turn(g, s).nodes, lefts)
  {
    hide Turn, Whole, AllFit, OneReader, Later, LeavesSame, AfterCall, CanRun;
    AfterCallLeaves(g, outputs, c, s, lefts);
    forall x | 0 <= x < |s.nodes|
      ensures |Turn(g, s).nodes| == |s.nodes|
      ensures Turn(g, s).nodes[x] == AfterCall(g, s)[x].(status := Turn(g, s).nodes[x].status)
    {
      TurnNode(g, s, x);
    }
    SameLength(g, s);
    StatusesLeave(g, AfterCall(g, s), Turn(g, s).nodes, lefts);
  }

  lemma AfterCallLeaves(g: Graph, outputs: seq<nat>, c: Clock, s: Sched, lefts: seq<seq<seq<Row>>>)
    requires Acyclic(g) && Whole(g, outputs, c, s) && Unread(g, outputs) && CanTurn(g, s) && LeavesSame(g, s.nodes, lefts)
    ensures Shaped(g, AfterCall(g, s)) && LeavesSame(g, AfterCall(g, s), lefts)
  {
    if Called(g, s).Some? {
      var f := Called(g, s).value;
      CalledIsCallable(g, outputs, c, s, f);
      CallLeaves(g, s.nodes, f, s.queue == [], lefts);
    }
  }

  // An input of an ended functor of the region has ended, or holds a value that stays
  // unread.
  ghost predicate AtRest(nodes: seq<Node>, i: nat, q: nat)
    requires i < |nodes| && q < |nodes|
  {
    nodes[i].status == Ended ==> nodes[q].hasValue || nodes[q].status == Ended
  }

  ghost predicate AllAtRest(g: Graph, nodes: seq<Node>, c: Clock)
    requires Acyclic(g) && |c.inside| == |nodes| == |g.preds|
  {
    forall i, k :: 0 <= i < |nodes| && 0 <= k < |g.preds[i]| && c.inside[i] && !nodes[g.preds[i][k]].op.Output? ==>
      AtRest(nodes, i, g.preds[i][k])
  }

  lemma VisitRests(g: Graph, outputs: seq<nat>, s: Sched, c: Clock, i: nat, k: nat)
    requires Acyclic(g) && Inv(g, outputs, s) && Unread(g, outputs) && CanTurn(g, s) && s.queue != [] && Shaped(g, s.nodes)
    requires Careful(g, s.nodes, outputs, c) && OnTime(g, s, c)
    requires i < |s.nodes| && k < |g.preds[i]| && c.inside[i] && !s.nodes[g.preds[i][k]].op.Output?
    requires AtRest(s.nodes, i, g.preds[i][k])
    ensures |Turn(g, s).nodes| == |s.nodes| && AtRest(Turn(g, s).nodes, i, g.preds[i][k])
  {
    hide AllFit, AllEnded, InOrder, OnStack, DeadOp;
    var f, q := s.queue[0], g.preds[i][k];
    assert EdgeOk(g, s.nodes, i, q) && g.rank[q] < g.rank[i];
    assert s.nodes[f].status == ToProcess by { assert f in s.queue; }
    VisitStatus(g, s, q);
    VisitStatus(g, s, i);
    ValueAfter(g, s, i, k);
    ReaderIs(g, s.nodes, i, k, f);
    hide Turn, CanTurn, Careful, EdgesInside, ProcessIn, RunBroadcast, OneReader;
  }

  lemma TopRests(g: Graph, outputs: seq<nat>, s: Sched, c: Clock, i: nat, k: nat)
    requires Acyclic(g) && Inv(g, outputs, s) && Unread(g, outputs) && CanTurn(g, s) && s.queue == [] && Shaped(g, s.nodes)
    requires Careful(g, s.nodes, outputs, c) && OnTime(g, s, c) && Inv(g, outputs, Turn(g, s))
    requires i < |s.nodes| && k < |g.preds[i]| && c.inside[i] && !s.nodes[g.preds[i][k]].op.Output?
    requires AtRest(s.nodes, i, g.preds[i][k])
    ensures |Turn(g, s).nodes| == |s.nodes| && AtRest(Turn(g, s).nodes, i, g.preds[i][k])
  {
    hide AllFit, AllEnded, InOrder, DeadOp;
    var f, q := s.stack[|s.stack| - 1], g.preds[i][k];
    assert EdgeOk(g, s.nodes, i, q) && EdgeTimed(g, s.nodes, c, i, q) && g.rank[q] < g.rank[i];
    assert f in s.stack && s.nodes[q].status != ToProcess;
    TopPuts(g, outputs, s);
    TopStatus(g, s, q);
    TopStatus(g, s, i);
    ValueAfter(g, s, i, k);
    RunStatuses(g, s.nodes, f, true);
    if f == i {
      AskedNotOnStack(g, outputs, s, c, i, q);
    }
    assert Turn(g, s).nodes[q].status == ToProcess ==> Turn(g, s).queue != [];
    hide Turn, CanTurn, Careful, EdgesInside, ProcessIn, RunBroadcast, OneReader;
  }

  lemma TurnAllRest(g: Graph, outputs: seq<nat>, c: Clock, s: Sched)
    requires Acyclic(g) && Whole(g, outputs, c, s) && Unread(g, outputs) && (s.queue != [] || s.stack != [])
    requires CanTurn(g, s) && Whole(g, outputs, c, Turn(g, s)) && AllAtRest(g, s.nodes, c)
    ensures AllAtRest(g, Turn(g, s).nodes, c)
  {
    var t := Turn(g, s);
    SameLength(g, s);
    hide Turn, AllFit, AllEnded, OnTime, AllStreams, AllTakeTurns, OneReader, AtRest;
    forall i, k | 0 <= i < |t.nodes| && 0 <= k < |g.preds[i]| && c.inside[i] && !t.nodes[g.preds[i][k]].op.Output?
      ensures AtRest(t.nodes, i, g.preds[i][k])
    {
      OpsStay(g, s, g.preds[i][k]);
      if s.queue != [] {
        VisitRests(g, outputs, s, c, i, k);
      } else {
        TopRests(g, outputs, s, c, i, k);
      }
    }
  }

  lemma RoundLeaves(g: Graph, outputs: seq<nat>, c: Clock, s: Sched, lefts: seq<seq<seq<Row>>>)
    requires Acyclic(g) && Whole(g, outputs, c, s) && Unread(g, outputs) && LeavesSame(g, s.nodes, lefts) && AllAtRest(g, s.nodes, c)
    ensures InRange(outputs, |s.nodes|) && Whole(g, outputs, c, Round(g, outputs, s))
    ensures LeavesSame(g, Round(g, outputs, s).nodes, lefts) && AllAtRest(g, Round(g, outputs, s).nodes, c)
  {
    if s.queue == [] && s.stack == [] {
      ReseedWhole(g, outputs, c, s);
      ReseedRelabels(s, outputs, outputs);
      hide Reseed, Careful, OnTime, AllStreams, AllTakeTurns, AllEnded, AllFit, Later, OneReader, LeftBy;
      StatusesLeave(g, s.nodes, Reseed(s, outputs).nodes, lefts);
    } else {
      hide Careful, OnTime, AllStreams, AllTakeTurns, AllEnded, AllFit, Later, OneReader, Turn, LeavesSame, AllAtRest;
      TurnWhole(g, outputs, c, s);
      TurnLeaves(g, outputs, c, s, lefts);
      TurnAllRest(g, outputs, c, s);
    }
  }

  lemma {:induction false} RunLeaves(g: Graph, outputs: seq<nat>, c: Clock, s: Sched, lefts: seq<seq<seq<Row>>>, n: nat)
    requires Acyclic(g) && Whole(g, outputs, c, s) && Unread(g, outputs) && LeavesSame(g, s.nodes, lefts) && AllAtRest(g, s.nodes, c)
    ensures InRange(outputs, |s.nodes|) && Whole(g, outputs, c, Turns(g, outputs, s, n))
    ensures LeavesSame(g, Turns(g, outputs, s, n).nodes, lefts) && AllAtRest(g, Turns(g, outputs, s, n).nodes, c)
    decreases n
  {
    hide Whole, Round, LeavesSame, AllAtRest;
    RoundLeaves(g, outputs, c, s, lefts);
    WholeFits(g, outputs, c, s);
    WholeInside(g, outputs, c, s);
    WholeFits(g, outputs, c, Round(g, outputs, s));
    WholeInside(g, outputs, c, Round(g, outputs, s));
    if n != 0 {
      RunLeaves(g, outputs, c, Round(g, outputs, s), lefts, n - 1);
    }
  }

  lemma WholeInside(g: Graph, outputs: seq<nat>, c: Clock, s: Sched)
    requires Acyclic(g) && Whole(g, outputs, c, s)
    ensures |c.inside| == |s.nodes| == |g.preds|
  {
  }

  // An ended functor has taken all that its operator takes.
  lemma EndedLeaves(g: Graph, outputs: seq<nat>, nodes: seq<Node>, i: nat)
    requires Acyclic(g) && AllFit(g, nodes) && AllEnded(g, outputs, nodes) && Unread(g, outputs)
    requires i < |nodes| && nodes[i].status == Ended && !nodes[i].op.RawData?
    ensures LeftAt(g, nodes, i) == Flows(g, nodes, i)
  {
    var op, gone, heads := nodes[i].op, Gone(g, nodes, i), Heads(Flows(g, nodes, i));
    assert FitsAt(g, nodes, i) && EndedAt(g, outputs, nodes, i);
    forall k | 0 <= k < |gone| && gone[k] ensures heads[k].None? {
      assert g.rank[g.preds[i][k]] < g.rank[i];
      EndedNothingLater(g, outputs, nodes, g.preds[i][k]);
      assert EndedAt(g, outputs, nodes, g.preds[i][k]);
      assert Flows(g, nodes, i)[k] == Flow(g, nodes, g.preds[i][k]);
    }
    DeadFails(op, heads, gone);
  }

  // ---------------------------------------------------------------- a split's only stream

  // How often x is on the stack.
  function Places(stack: seq<nat>, x: nat): (r: nat)
    decreases |stack|
  {
    if stack == [] then 0
    else Places(stack[..|stack| - 1], x) + if stack[|stack| - 1] == x then 1 else 0
  }

  lemma PlacesPush(stack: seq<nat>, f: nat, x: nat)
    ensures Places(stack + [f], x) == Places(stack, x) + if f == x then 1 else 0
  {
    assert (stack + [f])[..|stack|] == stack;
  }

  function Queued(queue: seq<nat>, x: nat): (r: nat) {
    if x in queue then 1 else 0
  }

  ghost predicate OnlyStream(g: Graph, nodes: seq<Node>, p: nat, j: nat) {
    IsStream(g, nodes, p, j) && forall x :: 0 <= x < |nodes| && p in g.preds[x] ==> x == j
  }

  // Rows that wait in the stream, and calls of the split to come, are all asked for by
  // calls of the stream to come.
  ghost predicate AskedFor(s: Sched, p: nat, j: nat)
    requires p < |s.nodes| && j < |s.nodes| && s.nodes[j].op.RawData?
  {
    Waiting(s.nodes[j]) + (if s.nodes[p].status == Ended then 0 else Places(s.stack, p) + Queued(s.queue, p)) <= Places(s.stack, j)
  }

  lemma VisitAsked(g: Graph, outputs: seq<nat>, s: Sched, p: nat, j: nat)
    requires Acyclic(g) && Inv(g, outputs, s) && Unread(g, outputs) && CanTurn(g, s) && s.queue != []
    requires OnlyStream(g, s.nodes, p, j) && AskedFor(s, p, j) && EndsStay(s.nodes, Turn(g, s).nodes)
    ensures |Turn(g, s).nodes| == |s.nodes| && Turn(g, s).nodes[j].op.RawData? && AskedFor(Turn(g, s), p, j)
  {
    var f, t := s.queue[0], Turn(g, s);
    VisitLeaves(g, outputs, s, p, j, j);
    VisitPuts(g, outputs, s);
    SplitIsRead(g, s.nodes, p, j);
    VisitStatus(g, s, p);
    PlacesPush(s.stack, f, p);
    PlacesPush(s.stack, f, j);
    assert f in s.queue && (p in s.queue <==> f == p || p in s.queue[1..]);
    hide Turn, CanTurn, Inv, Places;
  }

  lemma TopAsked(g: Graph, outputs: seq<nat>, s: Sched, p: nat, j: nat)
    requires Acyclic(g) && Inv(g, outputs, s) && Unread(g, outputs) && CanTurn(g, s) && s.queue == []
    requires OnlyStream(g, s.nodes, p, j) && StreamOk(g, s, p, j) && AskedFor(s, p, j) && EndsStay(s.nodes, Turn(g, s).nodes)
    ensures |Turn(g, s).nodes| == |s.nodes| && Turn(g, s).nodes[j].op.RawData? && AskedFor(Turn(g, s), p, j)
  {
    var f, t := s.stack[|s.stack| - 1], Turn(g, s);
    TurnNode(g, s, j);
    RunAt(g, s.nodes, f, true, j);
    KindStays(g, s, j);
    TopPuts(g, outputs, s);
    TopStatus(g, s, p);
    Runnable(g, s.nodes, f);
    assert FitsAt(g, s.nodes, f);
    OutcomesFit(s.nodes[f].op, HeadsOf(g, s.nodes, f));
    if s.nodes[p].status != Ended && f == j {
      StreamDelivers(g, s, p, j);
    }
    if s.nodes[p].status == Ended && f == p {
      EndedFails(g, outputs, s.nodes, p);
    }
    NoLoop(g, f);
    hide Turn, RunBroadcast, Process, HeadsOf, Request, DeadOp, Inv;
  }

  lemma NoLoop(g: Graph, f: nat)
    requires Acyclic(g) && f < |g.preds|
    ensures f !in g.preds[f]
  {
  }

  lemma RoundAsked(g: Graph, outputs: seq<nat>, s: Sched, p: nat, j: nat)
    requires Acyclic(g) && Inv(g, outputs, s) && Unread(g, outputs)
    requires OnlyStream(g, s.nodes, p, j) && StreamOk(g, s, p, j) && AskedFor(s, p, j)
    ensures InRange(outputs, |s.nodes|)
    ensures
      var t := Round(g, outputs, s);
      Inv(g, outputs, t) && OnlyStream(g, t.nodes, p, j) && StreamOk(g, t, p, j) && AskedFor(t, p, j)
  {
    RoundKeeps(g, outputs, s);
    RoundKeepsStream(g, outputs, s, p, j);
    if s.queue == [] && s.stack == [] {
      ReseedRelabels(s, outputs, outputs);
      ReseedMembers(s, outputs);
      assert g.preds[j][0] == p;
      hide Reseed, Inv, StreamOk;
    } else {
      TurnKeeps(g, outputs, s);
      hide Turn, Inv, StreamOk, AskedFor;
      if s.queue != [] {
        VisitAsked(g, outputs, s, p, j);
      } else {
        TopAsked(g, outputs, s, p, j);
      }
    }
  }

  lemma {:induction false} RunAsked(g: Graph, outputs: seq<nat>, s: Sched, p: nat, j: nat, n: nat)
    requires Acyclic(g) && Inv(g, outputs, s) && Unread(g, outputs)
    requires OnlyStream(g, s.nodes, p, j) && StreamOk(g, s, p, j) && AskedFor(s, p, j)
    ensures InRange(outputs, |s.nodes|)
    ensures
      var t := Turns(g, outputs, s, n);
      OnlyStream(g, t.nodes, p, j) && StreamOk(g, t, p, j) && AskedFor(t, p, j)
    decreases n
  {
    hide Inv, Round, StreamOk, AskedFor;
    RoundAsked(g, outputs, s, p, j);
    if n != 0 {
      RunAsked(g, outputs, Round(g, outputs, s), p, j, n - 1);
    }
  }

  // When nothing is left to do, the only stream of a split has delivered all that the
  // split has taken, on every graph without cycles and with any operators.
  lemma OnlyStreamKeepsUp(g: Graph, outputs: seq<nat>, s: Sched, p: nat, j: nat, n: nat)
    requires Acyclic(g) && Unused(g, s) && Unread(g, outputs) && OnlyStream(g, s.nodes, p, j)
    ensures InRange(outputs, |s.nodes|)
    ensures
      var t := Turns(g, outputs, s, n);
      t.queue == [] && t.stack == [] ==> p < |t.nodes| && j < |t.nodes| && t.nodes[j].produced == t.nodes[p].produced
  {
    UnusedIsOk(g, outputs, s, p, j);
    RunAsked(g, outputs, s, p, j, n);
    hide Turns, Inv;
  }

  // ------------------------------------------------------------ what is left at the end

  lemma StartFlows(g: Graph, s: Sched, i: nat)
    requires Acyclic(g) && Untouched(g, s) && i < |s.nodes| && !s.nodes[i].op.RawData?
    ensures Flows(g, s.nodes, i) == MeansOfPreds(g, s.nodes, i)
  {
    hide Later, Means;
    var a, b := Flows(g, s.nodes, i), MeansOfPreds(g, s.nodes, i);
    forall k | 0 <= k < |a| ensures a[k] == b[k] {
      assert a[k] == Flow(g, s.nodes, g.preds[i][k]);
      LaterIsMeant(g, s, g.preds[i][k]);
    }
    assert a == b;
  }

  // What operator i leaves of what its k-th input means.
  ghost function Unneeded(g: Graph, nodes: seq<Node>, i: nat, k: nat): (r: seq<Row>)
    requires Acyclic(g) && AllFit(g, nodes) && i < |nodes| && !nodes[i].op.RawData? && k < |g.preds[i]|
    requires forall x :: 0 <= x < |nodes| ==> GraphMeaning.FreshOp(nodes[x].op)
  {
    assert FitsAt(g, nodes, i);
    LeftBy(nodes[i].op, MeansOfPreds(g, nodes, i))[k]
  }

  ghost function StartLefts(g: Graph, nodes: seq<Node>): (r: seq<seq<seq<Row>>>)
    requires Acyclic(g) && AllFit(g, nodes)
    ensures LeavesSame(g, nodes, r)
  {
    seq(|nodes|, x requires 0 <= x < |nodes| => if nodes[x].op.RawData? then [] else LeftAt(g, nodes, x))
  }

  // What a run has left for the k-th input of an ended functor.
  lemma LeftInRun(g: Graph, outputs: seq<nat>, c: Clock, s: Sched, n: nat, i: nat, k: nat)
    requires Acyclic(g) && Untouched(g, s) && Unread(g, outputs) && OneReader(g, s.nodes) && Careful(g, s.nodes, outputs, c)
    requires AllFit(g, s.nodes) && |s.nodes| == |g.preds| && InRange(outputs, |s.nodes|)
    requires forall x :: 0 <= x < |s.nodes| ==> GraphMeaning.FreshOp(s.nodes[x].op)
    requires i < |s.nodes| && k < |g.preds[i]| && g.preds[i][k] < |s.nodes| && c.inside[i] && !s.nodes[i].op.RawData?
    requires Turns(g, outputs, s, n).nodes[i].status == Ended
    ensures
      var nodes := Turns(g, outputs, s, n).nodes;
      && AllFit(g, nodes) && Flow(g, nodes, g.preds[i][k]) == Unneeded(g, s.nodes, i, k)
      && (!nodes[g.preds[i][k]].op.Output? ==> AtRest(nodes, i, g.preds[i][k]))
      && (nodes[g.preds[i][k]].status == Ended ==> Flow(g, nodes, g.preds[i][k]) == [])
  {
    StartIsWhole(g, outputs, c, s);
    StartFlows(g, s, i);
    RunLeaves(g, outputs, c, s, StartLefts(g, s.nodes), n);
    var t := Turns(g, outputs, s, n);
    RawInRun(g, outputs, s, n, i);
    WholeFits(g, outputs, c, t);
    hide Turns, Means, LeftBy, Later, OneReader, OnTime, AllStreams, AllTakeTurns, Flows, Careful;
    EndedLeaves(g, outputs, t.nodes, i);
    if t.nodes[g.preds[i][k]].status == Ended {
      EndedNothingLater(g, outputs, t.nodes, g.preds[i][k]);
      assert EndedAt(g, outputs, t.nodes, g.preds[i][k]);
    }
  }

  // Sources and streams stay what they are.
  lemma {:induction false} RawInRun(g: Graph, outputs: seq<nat>, s: Sched, n: nat, i: nat)
    requires Acyclic(g) && Untouched(g, s) && Unread(g, outputs) && i < |s.nodes|
    ensures InRange(outputs, |s.nodes|) && (Turns(g, outputs, s, n).nodes[i].op.RawData? <==> s.nodes[i].op.RawData?)
  {
    UnusedIsInv(g, outputs, s);
    RawInRunFrom(g, outputs, s, n, i);
  }

  lemma {:induction false} RawInRunFrom(g: Graph, outputs: seq<nat>, s: Sched, n: nat, i: nat)
    requires Acyclic(g) && Inv(g, outputs, s) && Unread(g, outputs) && i < |s.nodes|
    ensures InRange(outputs, |s.nodes|) && (Turns(g, outputs, s, n).nodes[i].op.RawData? <==> s.nodes[i].op.RawData?)
    decreases n
  {
    InQueue(g, outputs, s);
    if n != 0 {
      RoundKeeps(g, outputs, s);
      if s.queue == [] && s.stack == [] {
        ReseedWorks(s, outputs, i);
      } else if CanTurn(g, s) {
        OpsStay(g, s, i);
      }
      hide Inv, Turn, Reseed;
      RawInRunFrom(g, outputs, Round(g, outputs, s), n - 1, i);
    }
  }

  // ----------------------------------------------------------- how much is read at the end

  // All but the row that was delivered and not taken.
  function Undelivered(left: seq<Row>): (r: seq<Row>) {
    if left == [] then [] else left[1..]
  }

  lemma LastHeld(nodes: seq<Node>, q: nat, later: seq<Row>, flow: seq<Row>)
    requires q < |nodes| && flow == (if nodes[q].hasValue then [nodes[q].value] else []) + later
    requires nodes[q].hasValue || flow == []
    ensures later == Undelivered(flow)
  {
  }

  // Whatever the engine did before a functor ended inside the careful region, what its
  // k-th input has delivered is all that the input means, but for what the operator
  // leaves of the complete streams; of those rows one was delivered and is still held.
  lemma EndedHasRead(g: Graph, outputs: seq<nat>, c: Clock, s: Sched, n: nat, i: nat, k: nat)
    requires Acyclic(g) && Untouched(g, s) && Unread(g, outputs) && OneReader(g, s.nodes) && Careful(g, s.nodes, outputs, c)
    requires AllFit(g, s.nodes) && |s.nodes| == |g.preds| && InRange(outputs, |s.nodes|)
    requires forall x :: 0 <= x < |s.nodes| ==> GraphMeaning.FreshOp(s.nodes[x].op)
    requires i < |s.nodes| && k < |g.preds[i]| && g.preds[i][k] < |s.nodes| && c.inside[i] && !s.nodes[i].op.RawData?
    requires Turns(g, outputs, s, n).nodes[i].status == Ended
    ensures
      var (produced, meant) := (Turns(g, outputs, s, n).nodes[g.preds[i][k]].produced, Means(g, s.nodes, g.preds[i][k]));
      && produced + Undelivered(Unneeded(g, s.nodes, i, k)) == meant
      && (produced == meant <==> |Unneeded(g, s.nodes, i, k)| <= 1)
  {
    var q := g.preds[i][k];
    LeftInRun(g, outputs, c, s, n, i, k);
    RunMeans(g, outputs, c, s, n, q);
    var nodes := Turns(g, outputs, s, n).nodes;
    ReadsNoSplit(g, outputs, s, n, i, k);
    hide Turns, Means, LeftBy, Later, OneReader, Careful, AllFit, Untouched, Unneeded;
    LastHeld(nodes, q, Later(g, nodes, q), Flow(g, nodes, q));
  }

  // Only a stream reads a split.
  lemma ReadsNoSplit(g: Graph, outputs: seq<nat>, s: Sched, n: nat, i: nat, k: nat)
    requires Acyclic(g) && Untouched(g, s) && Unread(g, outputs)
    requires i < |s.nodes| && k < |g.preds[i]| && !s.nodes[i].op.RawData?
    ensures InRange(outputs, |s.nodes|)
    ensures g.preds[i][k] < |s.nodes| && !Turns(g, outputs, s, n).nodes[g.preds[i][k]].op.Output?
  {
    UnusedIsInv(g, outputs, s);
    InvStays(g, outputs, s, n);
    RawInRun(g, outputs, s, n, i);
    hide Turns;
    assert FitsAt(g, Turns(g, outputs, s, n).nodes, i);
  }

  // A split with one stream, whose reader drains into an output: at the end of run() the
  // split has taken all that it reads exactly if the operator of the reader leaves at
  // most one row of it.
  lemma TakesAllIff(g: Graph, outputs: seq<nat>, c: Clock, s: Sched, p: nat, j: nat, i: nat, k: nat) returns (n: nat)
    requires Acyclic(g) && Untouched(g, s) && Unread(g, outputs) && OneReader(g, s.nodes) && Careful(g, s.nodes, outputs, c)
    requires AllFit(g, s.nodes) && |s.nodes| == |g.preds| && forall x :: 0 <= x < |s.nodes| ==> GraphMeaning.FreshOp(s.nodes[x].op)
    requires OnlyStream(g, s.nodes, p, j) && i < |s.nodes| && k < |g.preds[i]| && g.preds[i][k] == j
    requires c.inside[i] && !s.nodes[i].op.RawData? && Drains(g, s.nodes, outputs, i)
    ensures InRange(outputs, |s.nodes|)
    ensures
      var t := Turns(g, outputs, s, n);
      && Over(outputs, t)
      && t.nodes[p].produced + Undelivered(Unneeded(g, s.nodes, i, k)) == Means(g, s.nodes, p)
      && (t.nodes[p].produced == Means(g, s.nodes, p) <==> |Unneeded(g, s.nodes, i, k)| <= 1)
  {
    hide Turns, OneReader, Means, Careful, AllFit, Drains, Unneeded, Reseed;
    n := EveryFunctorDelivers(g, outputs, c, s);
    OnlyStreamKeepsUp(g, outputs, s, p, j, n);
    EndedHasRead(g, outputs, c, s, n, i, k);
    StreamMeansSplit(g, s.nodes, p, j);
  }

  lemma StreamMeansSplit(g: Graph, nodes: seq<Node>, p: nat, j: nat)
    requires Acyclic(g) && AllFit(g, nodes) && IsStream(g, nodes, p, j)
    requires forall x :: 0 <= x < |nodes| ==> GraphMeaning.FreshOp(nodes[x].op)
    ensures Means(g, nodes, j) == Means(g, nodes, p)
  {
    assert FitsAt(g, nodes, j);
  }
}
