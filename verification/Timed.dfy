// When a functor can be on the stack only once although it is above a split: the visits
// of the engine then follow a clock that the graph determines.
module Timed {
  import opened Operators
  import opened Dataflow
  import opened Scheduler
  import opened Broadcast
  import opened Streams
  import opened SplitFuture
  import opened Alternation

  // The functors looked at, a time for each, and how far ahead requests reach.
  datatype Clock = Clock(inside: seq<bool>, time: seq<nat>, span: nat)

  // Functor i reads functor q. The region holds all readers of its functors and, splits
  // apart, all that they read. A functor of the region is requested at most a span after
  // its reader, and no time of the region lies between the two ends of that wait.
  ghost predicate EdgeTimed(g: Graph, nodes: seq<Node>, c: Clock, i: nat, q: nat)
    requires i < |nodes| == |c.inside| == |c.time| && q < |nodes|
  {
    && (c.inside[q] ==> c.inside[i])
    && (c.inside[i] && !nodes[q].op.Output? ==> c.inside[q])
    && (c.inside[q] ==>
         && c.time[i] < c.time[q] <= c.time[i] + c.span
         && forall x :: 0 <= x < |nodes| && c.inside[x] ==> c.time[x] <= c.time[q] || c.time[i] + c.span < c.time[x])
  }

  // Outside the region there are only sources, streams, filters, splits and outputs.
  ghost predicate Careful(g: Graph, nodes: seq<Node>, outputs: seq<nat>, c: Clock)
    requires Acyclic(g)
  {
    && |c.inside| == |c.time| == |nodes| == |g.preds| && InRange(outputs, |nodes|)
    && (forall f :: 0 <= f < |nodes| ==> c.inside[f] || Patient(nodes[f].op))
    && (forall i, k :: 0 <= i < |nodes| && 0 <= k < |g.preds[i]| ==> EdgeTimed(g, nodes, c, i, g.preds[i][k]))
    && (forall a, b | 0 <= a < b < |outputs| ::
          c.inside[outputs[a]] && c.inside[outputs[b]] ==>
          c.time[outputs[a]] <= c.time[outputs[b]] <= c.time[outputs[a]] + c.span)
  }

  // -------------------------------------------------------------------- the invariant

  ghost predicate InOrder(c: Clock, queue: seq<nat>, stack: seq<nat>)
    requires |c.time| == |c.inside| && InRange(queue, |c.time|) && InRange(stack, |c.time|)
  {
    && (forall a, b :: 0 <= a < b < |stack| && c.inside[stack[a]] && c.inside[stack[b]] ==>
          c.time[stack[a]] <= c.time[stack[b]] && stack[a] != stack[b])
    && (forall a, b :: 0 <= a < b < |queue| && c.inside[queue[a]] && c.inside[queue[b]] ==>
          c.time[queue[a]] <= c.time[queue[b]] <= c.time[queue[a]] + c.span)
    && (forall a, b :: 0 <= a < |stack| && 0 <= b < |queue| && c.inside[stack[a]] && c.inside[queue[b]] ==>
          c.time[stack[a]] <= c.time[queue[b]])
  }

  ghost predicate OnStack(c: Clock, s: Sched)
    requires |c.inside| == |s.nodes|
  {
    forall x :: 0 <= x < |s.nodes| && c.inside[x] ==> (s.nodes[x].status == Processing <==> x in s.stack)
  }

  ghost predicate EdgesInside(g: Graph, nodes: seq<Node>, c: Clock)
    requires Acyclic(g) && |c.inside| == |nodes| == |g.preds|
  {
    forall i, k :: 0 <= i < |nodes| && 0 <= k < |g.preds[i]| && c.inside[i] && !nodes[g.preds[i][k]].op.Output? ==>
      EdgeOk(g, nodes, i, g.preds[i][k])
  }

  ghost predicate OnTime(g: Graph, s: Sched, c: Clock)
    requires Acyclic(g) && |c.inside| == |c.time| == |s.nodes| == |g.preds|
    requires InRange(s.queue, |s.nodes|) && InRange(s.stack, |s.nodes|)
  {
    InOrder(c, s.queue, s.stack) && OnStack(c, s) && EdgesInside(g, s.nodes, c)
  }

  // The status of x after a turn.
  lemma VisitStatus(g: Graph, s: Sched, x: nat)
    requires Acyclic(g) && CanTurn(g, s) && s.queue != [] && x < |s.nodes|
    ensures
      var f, t := s.queue[0], Turn(g, s);
      && |t.nodes| == |s.nodes|
      && t.nodes[x].status ==
         if x == f then (if g.preds[f] == [] then Settled(g, s.nodes, f) else Processing)
         else if x in g.preds[f] && Wanted(s.nodes[x]) then ToProcess
         else s.nodes[x].status
  {
    hide ProcessIn, Added, Request, Taken;
    var f := s.queue[0];
    if g.preds[f] == [] {
      RunAt(g, s.nodes, f, false, x);
    } else {
      RequestNode(WithStatus(s.nodes, f, Processing), s.queue[1..], g.preds[f], x);
    }
  }

  lemma TopStatus(g: Graph, s: Sched, x: nat)
    requires CanTurn(g, s) && s.queue == [] && x < |s.nodes|
    ensures
      var f, t, nodes1 := s.stack[|s.stack| - 1], Turn(g, s), RunBroadcast(g, s.nodes, s.stack[|s.stack| - 1], true);
      && |t.nodes| == |s.nodes|
      && t.nodes[x].status ==
         if ProcessIn(g, s.nodes, f).ok then (if x == f then Idle else s.nodes[x].status)
         else if x == f && t.stack != s.stack then Ended
         else if x in g.preds[f] && Wanted(nodes1[x]) then ToProcess
         else s.nodes[x].status
  {
    hide ProcessIn, Added, Request, Taken;
    var f := s.stack[|s.stack| - 1];
    RunAt(g, s.nodes, f, true, x);
    RequestNode(RunBroadcast(g, s.nodes, f, true), [], g.preds[f], x);
  }

  lemma CarefulStays(g: Graph, outputs: seq<nat>, s: Sched, c: Clock)
    requires Acyclic(g) && CanTurn(g, s) && AllFit(g, s.nodes) && Careful(g, s.nodes, outputs, c)
    ensures Careful(g, Turn(g, s).nodes, outputs, c)
  {
    var t := Turn(g, s);
    forall x | 0 <= x < |s.nodes|
      ensures |t.nodes| == |s.nodes| && (t.nodes[x].op.Output? <==> s.nodes[x].op.Output?)
      ensures Patient(s.nodes[x].op) ==> Patient(t.nodes[x].op)
    {
      OpsStay(g, s, x);
    }
    hide Turn;
    forall i, k | 0 <= i < |s.nodes| && 0 <= k < |g.preds[i]| ensures EdgeTimed(g, t.nodes, c, i, g.preds[i][k]) {
      assert EdgeTimed(g, s.nodes, c, i, g.preds[i][k]);
    }
  }

  // A predecessor inside the region is not on the stack when f asks for it.
  lemma NotOnStack(g: Graph, outputs: seq<nat>, nodes: seq<Node>, c: Clock, stack: seq<nat>, f: nat, k: nat)
    requires Acyclic(g) && Careful(g, nodes, outputs, c) && f < |nodes| && k < |g.preds[f]| && InRange(stack, |nodes|)
    requires c.inside[g.preds[f][k]]
    requires c.inside[f] ==> forall a :: 0 <= a < |stack| && c.inside[stack[a]] ==> c.time[stack[a]] <= c.time[f]
    ensures c.inside[f] && g.preds[f][k] !in stack
  {
    assert EdgeTimed(g, nodes, c, f, g.preds[f][k]);
  }

  // Requests at the back of the queue are in order.
  lemma RequestsInOrder(g: Graph, outputs: seq<nat>, nodes: seq<Node>, c: Clock, queue: seq<nat>, queue': seq<nat>,
                        stack: seq<nat>, f: nat)
    requires Acyclic(g) && Careful(g, nodes, outputs, c) && f < |nodes|
    requires InRange(queue, |nodes|) && InRange(queue', |nodes|) && InRange(stack, |nodes|)
    requires InOrder(c, queue, stack) && queue <= queue' && Distinct(queue')
    requires forall x :: x in queue' ==> x in queue || x in g.preds[f]
    requires c.inside[f] ==> forall a :: 0 <= a < |stack| && c.inside[stack[a]] ==> c.time[stack[a]] <= c.time[f]
    requires c.inside[f] ==> forall a :: 0 <= a < |queue| && c.inside[queue[a]] ==>
      c.time[f] <= c.time[queue[a]] <= c.time[f] + c.span
    ensures InOrder(c, queue', stack)
  {
    forall b | |queue| <= b < |queue'| && c.inside[queue'[b]]
      ensures c.inside[f] && EdgeTimed(g, nodes, c, f, queue'[b])
    {
      assert queue'[b] !in queue;
      assert queue'[b] in g.preds[f];
      var k :| 0 <= k < |g.preds[f]| && g.preds[f][k] == queue'[b];
      assert EdgeTimed(g, nodes, c, f, g.preds[f][k]);
    }
    forall a, b | 0 <= a < b < |queue'| && c.inside[queue'[a]] && c.inside[queue'[b]]
      ensures c.time[queue'[a]] <= c.time[queue'[b]] <= c.time[queue'[a]] + c.span
    {
      if b < |queue| {
        assert queue'[a] == queue[a] && queue'[b] == queue[b];
      } else {
        assert EdgeTimed(g, nodes, c, f, queue'[b]);
        if a < |queue| {
          assert queue'[a] == queue[a];
        } else {
          assert EdgeTimed(g, nodes, c, f, queue'[a]);
        }
      }
    }
    forall a, b | 0 <= a < |stack| && 0 <= b < |queue'| && c.inside[stack[a]] && c.inside[queue'[b]]
      ensures c.time[stack[a]] <= c.time[queue'[b]]
    {
      if b < |queue| {
        assert queue'[b] == queue[b];
      } else {
        assert EdgeTimed(g, nodes, c, f, queue'[b]);
      }
    }
  }

  lemma FrontInOrder(c: Clock, queue: seq<nat>, stack: seq<nat>)
    requires |c.time| == |c.inside| && InRange(queue, |c.time|) && InRange(stack, |c.time|) && queue != []
    requires InOrder(c, queue, stack) && (c.inside[queue[0]] ==> queue[0] !in stack)
    ensures InRange(queue[1..], |c.time|) && InRange(stack + [queue[0]], |c.time|)
    ensures InOrder(c, queue[1..], stack) && InOrder(c, queue[1..], stack + [queue[0]])
    ensures c.inside[queue[0]] ==> forall a :: 0 <= a < |queue[1..]| && c.inside[queue[1..][a]] ==>
      c.time[queue[0]] <= c.time[queue[1..][a]] <= c.time[queue[0]] + c.span
    ensures c.inside[queue[0]] ==> forall a :: 0 <= a < |stack + [queue[0]]| && c.inside[(stack + [queue[0]])[a]] ==>
      c.time[(stack + [queue[0]])[a]] <= c.time[queue[0]]
  {
    var rest, more := queue[1..], stack + [queue[0]];
    assert forall a :: 0 <= a < |rest| ==> rest[a] == queue[a + 1];
    assert forall a :: 0 <= a < |more| ==> more[a] == if a < |stack| then stack[a] else queue[0];
  }

  lemma VisitInOrder(g: Graph, outputs: seq<nat>, s: Sched, c: Clock)
    requires Acyclic(g) && Inv(g, outputs, s) && CanTurn(g, s) && s.queue != []
    requires Careful(g, s.nodes, outputs, c) && OnTime(g, s, c)
    ensures InRange(Turn(g, s).queue, |s.nodes|) && InRange(Turn(g, s).stack, |s.nodes|)
    ensures InOrder(c, Turn(g, s).queue, Turn(g, s).stack)
  {
    hide EdgeOk, AllEnded, AllFit, Distinct, Careful;
    var f, t := s.queue[0], Turn(g, s);
    VisitPuts(g, outputs, s);
    VisitDistinct(g, outputs, s);
    hide Turn, CanTurn, InOrder, OnStack, EdgesInside;
    InRegion(g, outputs, s.nodes, c);
    QueuedNotOnStack(s, c);
    FrontInOrder(c, s.queue, s.stack);
    if g.preds[f] != [] {
      RequestsInOrder(g, outputs, s.nodes, c, s.queue[1..], t.queue, t.stack, f);
    }
  }

  lemma InRegion(g: Graph, outputs: seq<nat>, nodes: seq<Node>, c: Clock)
    requires Acyclic(g) && Careful(g, nodes, outputs, c)
    ensures |c.inside| == |c.time| == |nodes| == |g.preds|
  {
  }

  lemma QueuedNotOnStack(s: Sched, c: Clock)
    requires |c.inside| == |s.nodes| && QueueOk(s.nodes, s.queue) && s.queue != [] && OnStack(c, s)
    ensures c.inside[s.queue[0]] ==> s.queue[0] !in s.stack
  {
    assert s.queue[0] in s.queue;
  }

  lemma VisitDistinct(g: Graph, outputs: seq<nat>, s: Sched)
    requires Acyclic(g) && Inv(g, outputs, s) && CanTurn(g, s) && s.queue != []
    ensures InRange(Turn(g, s).queue, |s.nodes|) && Distinct(Turn(g, s).queue) && InRange(Turn(g, s).stack, |s.nodes|)
  {
    var f := s.queue[0];
    var nodes1 := WithStatus(s.nodes, f, Processing);
    if g.preds[f] != [] {
      PopQueue(s.nodes, nodes1, s.queue);
      RequestRelabels(outputs, nodes1, s.queue[1..], g.preds[f]);
    }
  }

  lemma PopInOrder(c: Clock, stack: seq<nat>)
    requires |c.time| == |c.inside| && InRange(stack, |c.time|) && stack != [] && InOrder(c, [], stack)
    ensures InRange(stack[..|stack| - 1], |c.time|) && InOrder(c, [], stack[..|stack| - 1])
    ensures c.inside[stack[|stack| - 1]] ==> stack[|stack| - 1] !in stack[..|stack| - 1]
    ensures forall a :: 0 <= a < |stack| && c.inside[stack[a]] && c.inside[stack[|stack| - 1]] ==>
      c.time[stack[a]] <= c.time[stack[|stack| - 1]]
  {
  }

  lemma TopInOrder(g: Graph, outputs: seq<nat>, s: Sched, c: Clock)
    requires Acyclic(g) && Inv(g, outputs, s) && CanTurn(g, s) && s.queue == []
    requires Careful(g, s.nodes, outputs, c) && OnTime(g, s, c)
    ensures InRange(Turn(g, s).queue, |s.nodes|) && InRange(Turn(g, s).stack, |s.nodes|)
    ensures InOrder(c, Turn(g, s).queue, Turn(g, s).stack)
  {
    hide AllFit, AllEnded, EdgeOk, ProcessIn;
    var f, t := s.stack[|s.stack| - 1], Turn(g, s);
    TopPuts(g, outputs, s);
    TopDistinct(g, outputs, s);
    hide Turn, CanTurn, EdgesInside, OnStack, Careful;
    InRegion(g, outputs, s.nodes, c);
    PopInOrder(c, s.stack);
    hide InOrder;
    if t.stack == s.stack {
      RequestsInOrder(g, outputs, s.nodes, c, [], t.queue, t.stack, f);
    }
  }

  lemma TopDistinct(g: Graph, outputs: seq<nat>, s: Sched)
    requires Acyclic(g) && Inv(g, outputs, s) && CanTurn(g, s) && s.queue == []
    ensures InRange(Turn(g, s).queue, |s.nodes|) && Distinct(Turn(g, s).queue) && InRange(Turn(g, s).stack, |s.nodes|)
  {
    var f := s.stack[|s.stack| - 1];
    var nodes1 := RunBroadcast(g, s.nodes, f, true);
    RunStatuses(g, s.nodes, f, true);
    hide RunBroadcast, ProcessIn, AllFit, AllEnded, DeadOp, Request;
    RequestRelabels(outputs, nodes1, [], g.preds[f]);
  }

  // What f asks for is not on the stack, if it is in the region.
  lemma AskedNotOnStack(g: Graph, outputs: seq<nat>, s: Sched, c: Clock, f: nat, x: nat)
    requires Acyclic(g) && Inv(g, outputs, s) && Careful(g, s.nodes, outputs, c) && OnTime(g, s, c)
    requires f < |s.nodes| && x in g.preds[f] && x < |s.nodes| && c.inside[x]
    requires (s.queue != [] && f == s.queue[0]) || (s.queue == [] && s.stack != [] && f == s.stack[|s.stack| - 1])
    ensures c.inside[f] && x !in s.stack && s.nodes[x].status != Processing
  {
    var k :| 0 <= k < |g.preds[f]| && g.preds[f][k] == x;
    hide AllFit, AllEnded, EdgesInside;
    NotOnStack(g, outputs, s.nodes, c, s.stack, f, k);
  }

  lemma VisitOnStack(g: Graph, outputs: seq<nat>, s: Sched, c: Clock)
    requires Acyclic(g) && Inv(g, outputs, s) && CanTurn(g, s) && s.queue != []
    requires Careful(g, s.nodes, outputs, c) && OnTime(g, s, c)
    ensures |Turn(g, s).nodes| == |s.nodes| && OnStack(c, Turn(g, s))
  {
    var f, t := s.queue[0], Turn(g, s);
    VisitPuts(g, outputs, s);
    VisitStatus(g, s, f);
    hide Turn, CanTurn, AllFit, AllEnded, Careful, EdgesInside, InOrder, ProcessIn;
    forall x | 0 <= x < |s.nodes| && c.inside[x] ensures t.nodes[x].status == Processing <==> x in t.stack {
      VisitStatus(g, s, x);
      if x in g.preds[f] {
        AskedNotOnStack(g, outputs, s, c, f, x);
      }
    }
  }

  lemma TopOnStack(g: Graph, outputs: seq<nat>, s: Sched, c: Clock)
    requires Acyclic(g) && Inv(g, outputs, s) && CanTurn(g, s) && s.queue == []
    requires Careful(g, s.nodes, outputs, c) && OnTime(g, s, c)
    ensures |Turn(g, s).nodes| == |s.nodes| && OnStack(c, Turn(g, s))
  {
    var f, t := s.stack[|s.stack| - 1], Turn(g, s);
    TopPuts(g, outputs, s);
    TopStatus(g, s, f);
    PopInOrder(c, s.stack);
    assert g.preds[f] == g.preds[f];
    hide Turn, CanTurn, AllFit, AllEnded, Careful, EdgesInside, InOrder, ProcessIn, RunBroadcast;
    forall x | 0 <= x < |s.nodes| && c.inside[x] ensures t.nodes[x].status == Processing <==> x in t.stack {
      TopStatus(g, s, x);
      PoppedOrNot(s.stack, x);
      if x in g.preds[f] {
        AskedNotOnStack(g, outputs, s, c, f, x);
      }
    }
  }

  lemma PoppedOrNot(stack: seq<nat>, x: nat)
    requires stack != []
    ensures x in stack <==> x == stack[|stack| - 1] || x in stack[..|stack| - 1]
  {
  }

  // Whether q holds a value after a turn.
  lemma ValueAfter(g: Graph, s: Sched, i: nat, k: nat)
    requires Shaped(g, s.nodes) && CanTurn(g, s) && i < |s.nodes| && k < |g.preds[i]| && !s.nodes[g.preds[i][k]].op.Output?
    ensures
      var q, t := g.preds[i][k], Turn(g, s);
      && |t.nodes| == |s.nodes|
      && (Called(g, s).None? ==> t.nodes[q].hasValue == s.nodes[q].hasValue)
      && (Called(g, s).Some? && Called(g, s).value != q && Called(g, s).value != i ==> t.nodes[q].hasValue == s.nodes[q].hasValue)
      && (Called(g, s) == Some(i) ==>
            t.nodes[q].hasValue == RunBroadcast(g, s.nodes, i, s.queue == [])[q].hasValue && (t.nodes[q].hasValue ==> s.nodes[q].hasValue))
      && (Called(g, s) == Some(q) ==>
            if ProcessIn(g, s.nodes, q).ok then t.nodes[q].hasValue
            else t.nodes[q].hasValue == (s.nodes[q].hasValue && s.queue != []))
  {
    var q := g.preds[i][k];
    TurnNode(g, s, q);
    if Called(g, s).Some? {
      var f := Called(g, s).value;
      RunAt(g, s.nodes, f, s.queue == [], q);
      Runnable(g, s.nodes, f);
      OutcomesFit(s.nodes[f].op, HeadsOf(g, s.nodes, f)) by { assert FitsAt(g, s.nodes, f); }
      hide Turn, RunBroadcast, ProcessIn, Outcomes, HeadsOf, AllFit;
      assert g.rank[q] < g.rank[i];
    }
  }

  lemma VisitEdge(g: Graph, outputs: seq<nat>, s: Sched, c: Clock, i: nat, k: nat)
    requires Acyclic(g) && Inv(g, outputs, s) && Unread(g, outputs) && CanTurn(g, s) && s.queue != [] && Shaped(g, s.nodes)
    requires Careful(g, s.nodes, outputs, c) && OnTime(g, s, c)
    requires i < |s.nodes| && k < |g.preds[i]| && c.inside[i] && !s.nodes[g.preds[i][k]].op.Output?
    ensures |Turn(g, s).nodes| == |s.nodes| && EdgeOk(g, Turn(g, s).nodes, i, g.preds[i][k])
  {
    var f, q := s.queue[0], g.preds[i][k];
    assert EdgeTimed(g, s.nodes, c, i, q) && EdgeOk(g, s.nodes, i, q) && g.rank[q] < g.rank[i];
    assert s.nodes[f].status == ToProcess by { assert f in s.queue; }
    VisitStatus(g, s, q);
    VisitStatus(g, s, i);
    ValueAfter(g, s, i, k);
    assert EndedAt(g, outputs, s.nodes, q);
    if i in g.preds[f] {
      AskedNotOnStack(g, outputs, s, c, f, i);
    }
    hide Turn, CanTurn, AllFit, AllEnded, Careful, EdgesInside, InOrder, ProcessIn, DeadOp, RunBroadcast;
    assert q in g.preds[f] ==> i == f;
  }

  // The edge from a functor to its reader, after the call of the top of the stack: the
  // reader was called ...
  lemma TopEdgeReader(g: Graph, outputs: seq<nat>, s: Sched, c: Clock, i: nat, k: nat)
    requires Acyclic(g) && Inv(g, outputs, s) && CanTurn(g, s) && s.queue == [] && Shaped(g, s.nodes)
    requires Careful(g, s.nodes, outputs, c) && OnTime(g, s, c) && Inv(g, outputs, Turn(g, s))
    requires i < |s.nodes| && k < |g.preds[i]| && c.inside[i] && !s.nodes[g.preds[i][k]].op.Output?
    requires s.stack[|s.stack| - 1] == i
    ensures |Turn(g, s).nodes| == |s.nodes| && EdgeOk(g, Turn(g, s).nodes, i, g.preds[i][k])
  {
    hide AllFit, AllEnded, InOrder, ProcessIn, DeadOp, RunBroadcast, OneReader;
    var q := g.preds[i][k];
    assert EdgeTimed(g, s.nodes, c, i, q) && EdgeOk(g, s.nodes, i, q) && g.rank[q] < g.rank[i];
    hide EdgesInside, Careful;
    TopPuts(g, outputs, s);
    TopStatus(g, s, q);
    TopStatus(g, s, i);
    ValueAfter(g, s, i, k);
    RunStatuses(g, s.nodes, i, true);
    AskedNotOnStack(g, outputs, s, c, i, q);
    assert s.nodes[q].status != ToProcess;
    assert Turn(g, s).nodes[q].status == ToProcess ==> Turn(g, s).queue != [];
    hide Turn, CanTurn;
  }

  // ... or the functor itself ...
  lemma TopEdgeRead(g: Graph, outputs: seq<nat>, s: Sched, c: Clock, i: nat, k: nat)
    requires Acyclic(g) && Inv(g, outputs, s) && CanTurn(g, s) && s.queue == [] && Shaped(g, s.nodes)
    requires Careful(g, s.nodes, outputs, c) && OnTime(g, s, c)
    requires i < |s.nodes| && k < |g.preds[i]| && c.inside[i] && !s.nodes[g.preds[i][k]].op.Output?
    requires s.stack[|s.stack| - 1] == g.preds[i][k]
    ensures |Turn(g, s).nodes| == |s.nodes| && EdgeOk(g, Turn(g, s).nodes, i, g.preds[i][k])
  {
    var q := g.preds[i][k];
    assert EdgeTimed(g, s.nodes, c, i, q) && EdgeOk(g, s.nodes, i, q) && g.rank[q] < g.rank[i];
    TopPuts(g, outputs, s);
    TopStatus(g, s, q);
    TopStatus(g, s, i);
    ValueAfter(g, s, i, k);
    assert q in s.stack;
    assert i !in g.preds[q];
    hide Turn, CanTurn, AllFit, AllEnded, Careful, EdgesInside, InOrder, ProcessIn, DeadOp, RunBroadcast, OneReader;
  }

  // ... or another one.
  lemma TopEdgeOther(g: Graph, outputs: seq<nat>, s: Sched, c: Clock, i: nat, k: nat)
    requires Acyclic(g) && Inv(g, outputs, s) && CanTurn(g, s) && s.queue == [] && Shaped(g, s.nodes)
    requires Careful(g, s.nodes, outputs, c) && OnTime(g, s, c)
    requires i < |s.nodes| && k < |g.preds[i]| && c.inside[i] && !s.nodes[g.preds[i][k]].op.Output?
    requires s.stack[|s.stack| - 1] != i && s.stack[|s.stack| - 1] != g.preds[i][k]
    ensures |Turn(g, s).nodes| == |s.nodes| && EdgeOk(g, Turn(g, s).nodes, i, g.preds[i][k])
  {
    hide AllFit, AllEnded, Careful, InOrder, ProcessIn, DeadOp, RunBroadcast, OneReader;
    var f, q := s.stack[|s.stack| - 1], g.preds[i][k];
    assert EdgeOk(g, s.nodes, i, q);
    TopStatus(g, s, q);
    TopStatus(g, s, i);
    ValueAfter(g, s, i, k);
    ReaderIs(g, s.nodes, i, k, f);
    if i in g.preds[f] {
      AskedNotOnStack(g, outputs, s, c, f, i);
    }
    hide Turn, CanTurn, EdgesInside;
  }

  lemma ReaderIs(g: Graph, nodes: seq<Node>, i: nat, k: nat, f: nat)
    requires Shaped(g, nodes) && i < |nodes| && k < |g.preds[i]| && f < |nodes| && !nodes[g.preds[i][k]].op.Output?
    ensures g.preds[i][k] in g.preds[f] ==> f == i
  {
    if g.preds[i][k] in g.preds[f] {
      var l :| 0 <= l < |g.preds[f]| && g.preds[f][l] == g.preds[i][k];
    }
  }

  lemma TurnEdge(g: Graph, outputs: seq<nat>, s: Sched, c: Clock, i: nat, k: nat)
    requires Acyclic(g) && Inv(g, outputs, s) && Unread(g, outputs) && CanTurn(g, s) && Shaped(g, s.nodes)
    requires Careful(g, s.nodes, outputs, c) && OnTime(g, s, c) && Inv(g, outputs, Turn(g, s))
    requires i < |s.nodes| && k < |g.preds[i]| && c.inside[i] && !s.nodes[g.preds[i][k]].op.Output?
    ensures |Turn(g, s).nodes| == |s.nodes| && EdgeOk(g, Turn(g, s).nodes, i, g.preds[i][k])
  {
    hide Turn, Inv, Careful, OnTime, Shaped, EdgeOk;
    if s.queue != [] {
      VisitEdge(g, outputs, s, c, i, k);
    } else if s.stack[|s.stack| - 1] == i {
      TopEdgeReader(g, outputs, s, c, i, k);
    } else if s.stack[|s.stack| - 1] == g.preds[i][k] {
      TopEdgeRead(g, outputs, s, c, i, k);
    } else {
      TopEdgeOther(g, outputs, s, c, i, k);
    }
  }

  lemma TurnOnTime(g: Graph, outputs: seq<nat>, s: Sched, c: Clock)
    requires Acyclic(g) && Inv(g, outputs, s) && Unread(g, outputs) && CanTurn(g, s) && Shaped(g, s.nodes)
    requires Careful(g, s.nodes, outputs, c) && OnTime(g, s, c) && Inv(g, outputs, Turn(g, s))
    ensures |Turn(g, s).nodes| == |s.nodes| && OnTime(g, Turn(g, s), c)
  {
    hide Turn, Shaped, AllFit, AllEnded, InOrder, OnStack;
    if s.queue != [] {
      VisitInOrder(g, outputs, s, c);
      VisitOnStack(g, outputs, s, c);
    } else {
      TopInOrder(g, outputs, s, c);
      TopOnStack(g, outputs, s, c);
    }
    CarefulStays(g, outputs, s, c);
    var t := Turn(g, s);
    forall i, k | 0 <= i < |t.nodes| && 0 <= k < |g.preds[i]| && c.inside[i] && !t.nodes[g.preds[i][k]].op.Output?
      ensures EdgeOk(g, t.nodes, i, g.preds[i][k])
    {
      OpsStay(g, s, g.preds[i][k]);
      TurnEdge(g, outputs, s, c, i, k);
    }
  }
}
