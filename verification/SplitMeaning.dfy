// What the outputs of a graph with splits hold when run() ends: what the graph means as a
// function on sequences, if the engine keeps to a clock below every operator that can
// mistake "no value" for the end of its input.
module SplitMeaning {
  import opened Operators
  import opened Dataflow
  import opened Scheduler
  import opened GraphMeaning
  import opened Broadcast
  import opened Streams
  import opened BroadcastEnds
  import opened SplitFuture
  import opened Alternation
  import opened Timed

  // ------------------------------------------------------------- functors that ended

  // A functor that ended delivers nothing more.
  lemma {:induction false} EndedNothingLater(g: Graph, outputs: seq<nat>, nodes: seq<Node>, f: nat)
    requires Acyclic(g) && AllFit(g, nodes) && AllEnded(g, outputs, nodes) && Unread(g, outputs)
    requires f < |nodes| && nodes[f].status == Ended
    ensures Later(g, nodes, f) == []
    decreases g.rank[f]
  {
    var op, gone, heads := nodes[f].op, Gone(g, nodes, f), Heads(Flows(g, nodes, f));
    assert FitsAt(g, nodes, f) && EndedAt(g, outputs, nodes, f);
    forall k | 0 <= k < |gone| && gone[k] ensures Later(g, nodes, g.preds[f][k]) == [] && heads[k].None? {
      assert g.rank[g.preds[f][k]] < g.rank[f];
      EndedNothingLater(g, outputs, nodes, g.preds[f][k]);
      assert EndedAt(g, outputs, nodes, g.preds[f][k]);
      assert Flows(g, nodes, f)[k] == Flow(g, nodes, g.preds[f][k]);
    }
    if op.RawData? {
      assert g.preds[f] != [] ==> gone[0];
    } else {
      DeadFails(op, heads, gone);
    }
  }

  // ---------------------------------------------------------------------- whole states

  ghost predicate Recorded(nodes: seq<Node>) {
    forall x :: 0 <= x < |nodes| && nodes[x].op.Output? ==> nodes[x].op.values == nodes[x].produced
  }

  ghost predicate AllStreams(g: Graph, s: Sched) {
    forall p: nat, j: nat :: IsStream(g, s.nodes, p, j) ==> StreamOk(g, s, p, j)
  }

  ghost predicate AllTakeTurns(g: Graph, s: Sched) {
    forall i: nat, q: nat :: Reads(g, s.nodes, i, q) ==> TakesTurns(s, i, q)
  }

  ghost predicate Whole(g: Graph, outputs: seq<nat>, c: Clock, s: Sched)
    requires Acyclic(g)
  {
    && Inv(g, outputs, s) && Shaped(g, s.nodes) && Careful(g, s.nodes, outputs, c) && OnTime(g, s, c)
    && AllStreams(g, s) && AllTakeTurns(g, s) && Recorded(s.nodes)
  }

  // A functor that is called has no value that waits to be read.
  lemma CalledQuiet(g: Graph, outputs: seq<nat>, c: Clock, s: Sched, f: nat)
    requires Acyclic(g) && Whole(g, outputs, c, s) && Unread(g, outputs) && CanTurn(g, s) && Called(g, s) == Some(f)
    requires HasSuccessor(g, f)
    ensures !s.nodes[f].hasValue
  {
    hide OneReader, DeadOp, StreamOk, TakesTurns;
    var i :| 0 <= i < |g.preds| && f in g.preds[i];
    var k :| 0 <= k < |g.preds[i]| && g.preds[i][k] == f;
    assert EndedAt(g, outputs, s.nodes, f) && EdgeTimed(g, s.nodes, c, i, f) && FitsAt(g, s.nodes, i);
    assert g.rank[f] < g.rank[i];
    if s.nodes[f].op.Output? {
    } else if c.inside[f] {
      assert EdgeOk(g, s.nodes, i, g.preds[i][k]);
      if s.queue == [] {
        assert f in s.stack;
      } else {
        assert f in s.queue;
      }
    } else {
      assert Reads(g, s.nodes, i, f);
      CalledEmpty(g, outputs, s, i, f);
    }
  }

  // An operator that cannot wait is called only when every input holds a value or is
  // over for good.
  lemma CalledFed(g: Graph, outputs: seq<nat>, c: Clock, s: Sched, f: nat)
    requires Acyclic(g) && Whole(g, outputs, c, s) && Unread(g, outputs) && CanTurn(g, s) && Called(g, s) == Some(f)
    requires !Patient(s.nodes[f].op)
    ensures Fed(g, s.nodes, f)
    ensures forall k :: 0 <= k < |g.preds[f]| ==> s.nodes[g.preds[f][k]].hasValue || s.nodes[g.preds[f][k]].status == Ended
  {
    hide Later, DeadOp, OneReader, StreamOk, TakesTurns;
    assert FitsAt(g, s.nodes, f) && c.inside[f];
    if s.queue == [] {
      assert f in s.stack;
    }
    forall k | 0 <= k < |g.preds[f]|
      ensures s.nodes[g.preds[f][k]].hasValue || Later(g, s.nodes, g.preds[f][k]) == []
      ensures s.nodes[g.preds[f][k]].hasValue || s.nodes[g.preds[f][k]].status == Ended
    {
      var q := g.preds[f][k];
      assert EdgeTimed(g, s.nodes, c, f, q) && EdgeOk(g, s.nodes, f, q);
      AskedNotOnStack(g, outputs, s, c, f, q);
      if s.nodes[q].status == Ended {
        EndedNothingLater(g, outputs, s.nodes, q);
      }
    }
  }

  lemma CalledIsCallable(g: Graph, outputs: seq<nat>, c: Clock, s: Sched, f: nat)
    requires Acyclic(g) && Whole(g, outputs, c, s) && Unread(g, outputs) && CanTurn(g, s) && Called(g, s) == Some(f)
    ensures CanRun(g, s.nodes, f) && Callable(g, s.nodes, f)
  {
    if HasSuccessor(g, f) {
      CalledQuiet(g, outputs, c, s, f);
    }
    if !Patient(s.nodes[f].op) {
      CalledFed(g, outputs, c, s, f);
    }
    if s.nodes[f].status == Ended {
      EndedFails(g, outputs, s.nodes, f);
    }
    hide ProcessIn, Fed, HasSuccessor, Patient, Later, DeadOp, OnTime, Careful;
    if ProcessIn(g, s.nodes, f).ok && s.nodes[f].op.Output? {
      forall j | 0 <= j < |s.nodes| && s.nodes[j].op.RawData? && f in g.preds[j]
        ensures s.nodes[j].op.index + 1 <= |s.nodes[j].op.rows|
      {
        assert FitsAt(g, s.nodes, j) && IsStream(g, s.nodes, f, j);
      }
    }
  }

  // ------------------------------------------------------------------------- every turn

  lemma TurnShaped(g: Graph, outputs: seq<nat>, s: Sched)
    requires Acyclic(g) && Shaped(g, s.nodes) && CanTurn(g, s) && Inv(g, outputs, Turn(g, s))
    ensures Shaped(g, Turn(g, s).nodes)
  {
    forall x | 0 <= x < |s.nodes| ensures |Turn(g, s).nodes| == |s.nodes| && (Turn(g, s).nodes[x].op.Output? <==> s.nodes[x].op.Output?) {
      OpsStay(g, s, x);
    }
    hide Turn, CanTurn, AllFit, AllEnded;
  }

  lemma TurnRecords(g: Graph, s: Sched)
    requires Acyclic(g) && AllFit(g, s.nodes) && CanTurn(g, s) && Recorded(s.nodes)
    ensures Recorded(Turn(g, s).nodes)
  {
    var t := Turn(g, s);
    forall x | 0 <= x < |t.nodes| && t.nodes[x].op.Output? ensures t.nodes[x].op.values == t.nodes[x].produced {
      OpsStay(g, s, x);
      TurnNode(g, s, x);
      if Called(g, s).Some? {
        CallRecords(g, s.nodes, Called(g, s).value, s.queue == [], x);
      }
    }
  }

  lemma CallRecords(g: Graph, nodes: seq<Node>, f: nat, reset: bool, x: nat)
    requires CanRun(g, nodes, f) && x < |nodes| && nodes[x].op.Output? && nodes[x].op.values == nodes[x].produced
    ensures
      var n := RunBroadcast(g, nodes, f, reset)[x];
      n.op.Output? && n.op.values == n.produced
  {
    RunAt(g, nodes, f, reset, x);
    WorkAt(g, nodes, f, reset, x);
    hide RunBroadcast;
  }

  lemma TurnStreams(g: Graph, outputs: seq<nat>, s: Sched)
    requires Acyclic(g) && Inv(g, outputs, s) && Unread(g, outputs) && AllStreams(g, s)
    requires (s.queue != [] || s.stack != []) && CanTurn(g, s)
    ensures AllStreams(g, Turn(g, s))
  {
    var t := Turn(g, s);
    hide Turn, CanTurn, AllFit, AllEnded, StreamOk;
    forall p: nat, j: nat | IsStream(g, t.nodes, p, j) ensures StreamOk(g, t, p, j) {
      OpsStay(g, s, p);
      OpsStay(g, s, j);
      assert IsStream(g, s.nodes, p, j);
      TurnKeepsStream(g, outputs, s, p, j);
    }
  }

  lemma TurnAllTakeTurns(g: Graph, outputs: seq<nat>, s: Sched)
    requires Acyclic(g) && Inv(g, outputs, s) && Unread(g, outputs) && CanTurn(g, s) && Shaped(g, s.nodes) && AllTakeTurns(g, s)
    ensures AllTakeTurns(g, Turn(g, s))
  {
    var t := Turn(g, s);
    hide Turn, CanTurn, AllFit, AllEnded, TakesTurns, OneReader;
    forall i: nat, q: nat | Reads(g, t.nodes, i, q) ensures TakesTurns(t, i, q) {
      OpsStay(g, s, i);
      OpsStay(g, s, q);
      assert Reads(g, s.nodes, i, q);
      TurnTakesTurns(g, outputs, s, i, q);
    }
  }

  lemma TurnWhole(g: Graph, outputs: seq<nat>, c: Clock, s: Sched)
    requires Acyclic(g) && Whole(g, outputs, c, s) && Unread(g, outputs) && (s.queue != [] || s.stack != [])
    ensures CanTurn(g, s) && Whole(g, outputs, c, Turn(g, s))
  {
    TurnKeeps(g, outputs, s);
    hide Turn, CanTurn, AllTakeTurns, AllStreams, AllEnded, Recorded;
    TurnShaped(g, outputs, s);
    TurnRecords(g, s);
    TurnStreams(g, outputs, s);
    TurnAllTakeTurns(g, outputs, s);
    CarefulStays(g, outputs, s, c);
    TurnOnTime(g, outputs, s, c);
  }

  lemma AfterCallConserves(g: Graph, outputs: seq<nat>, c: Clock, s: Sched, total: seq<seq<Row>>)
    requires Acyclic(g) && Whole(g, outputs, c, s) && Unread(g, outputs) && CanTurn(g, s) && Conserves(g, s.nodes, total)
    ensures Shaped(g, AfterCall(g, s)) && Conserves(g, AfterCall(g, s), total)
  {
    if Called(g, s).Some? {
      var f := Called(g, s).value;
      CalledIsCallable(g, outputs, c, s, f);
      CallConserves(g, s.nodes, f, s.queue == [], total);
    }
  }

  lemma TurnConserves(g: Graph, outputs: seq<nat>, c: Clock, s: Sched, total: seq<seq<Row>>)
    requires Acyclic(g) && Whole(g, outputs, c, s) && Unread(g, outputs) && (s.queue != [] || s.stack != [])
    requires Conserves(g, s.nodes, total) && CanTurn(g, s) && Shaped(g, Turn(g, s).nodes)
    ensures Conserves(g, Turn(g, s).nodes, total)
  {
    hide Turn, Whole, AllFit, OneReader, Later, Conserves, AfterCall, CanRun;
    AfterCallConserves(g, outputs, c, s, total);
    forall x | 0 <= x < |s.nodes|
      ensures |Turn(g, s).nodes| == |s.nodes|
      ensures Turn(g, s).nodes[x] == AfterCall(g, s)[x].(status := Turn(g, s).nodes[x].status)
    {
      TurnNode(g, s, x);
    }
    SameLength(g, s);
    StatusesConserve(g, AfterCall(g, s), Turn(g, s).nodes, total);
  }

  lemma SameLength(g: Graph, s: Sched)
    requires CanTurn(g, s)
    ensures |Turn(g, s).nodes| == |s.nodes|
  {
    hide RunBroadcast, Request;
  }

  // ------------------------------------------------------------- requesting the outputs

  // Every functor of queue comes before every one of later, by at most a span.
  ghost predicate Precede(c: Clock, queue: seq<nat>, later: seq<nat>)
    requires |c.time| == |c.inside| && InRange(queue, |c.time|) && InRange(later, |c.time|)
  {
    forall a, b :: 0 <= a < |queue| && 0 <= b < |later| && c.inside[queue[a]] && c.inside[later[b]] ==>
      c.time[queue[a]] <= c.time[later[b]] <= c.time[queue[a]] + c.span
  }

  lemma {:induction false} ReseedInOrder(c: Clock, s: Sched, outputs: seq<nat>)
    requires |c.time| == |c.inside| == |s.nodes| && InRange(outputs, |s.nodes|) && InRange(s.queue, |s.nodes|)
    requires InOrder(c, s.queue, []) && InOrder(c, outputs, []) && Precede(c, s.queue, outputs)
    ensures InRange(Reseed(s, outputs).queue, |s.nodes|) && InOrder(c, Reseed(s, outputs).queue, [])
    ensures forall x :: x in Reseed(s, outputs).queue ==> x in s.queue || x in outputs
    decreases |outputs|
  {
    if outputs != [] {
      var n, rest := s.nodes[outputs[0]], outputs[1..];
      assert forall a :: 0 <= a < |rest| ==> rest[a] == outputs[a + 1];
      if n.status != Ended && n.status != ToProcess {
        var queue := s.queue + [outputs[0]];
        assert forall a :: 0 <= a < |queue| ==> queue[a] == if a < |s.queue| then s.queue[a] else outputs[0];
        ReseedInOrder(c, s.(nodes := WithStatus(s.nodes, outputs[0], ToProcess), queue := queue), rest);
      } else {
        ReseedInOrder(c, s, rest);
      }
    }
  }

  lemma ReseedOnTime(g: Graph, outputs: seq<nat>, c: Clock, s: Sched)
    requires Acyclic(g) && Whole(g, outputs, c, s) && Unread(g, outputs) && s.queue == [] && s.stack == []
    ensures InRange(Reseed(s, outputs).queue, |s.nodes|) && Reseed(s, outputs).stack == [] && OnTime(g, Reseed(s, outputs), c)
    ensures forall x :: x in Reseed(s, outputs).queue ==> x in outputs
  {
    var t := Reseed(s, outputs);
    ReseedInOrder(c, s, outputs);
    ReseedRelabels(s, outputs, outputs);
    hide Reseed, AllFit, AllEnded, AllStreams, AllTakeTurns, OneReader, InOrder;
    forall i, k | 0 <= i < |t.nodes| && 0 <= k < |g.preds[i]| && c.inside[i] && !t.nodes[g.preds[i][k]].op.Output?
      ensures EdgeOk(g, t.nodes, i, g.preds[i][k])
    {
      var q := g.preds[i][k];
      assert EdgeOk(g, s.nodes, i, q) && q !in outputs && EdgeTimed(g, s.nodes, c, i, q);
      assert t.nodes[q].status == s.nodes[q].status by { ReseedStatus(s, outputs, q); }
      ReseedStatus(s, outputs, i);
    }
    forall x | 0 <= x < |s.nodes| && c.inside[x] ensures t.nodes[x].status == Processing <==> x in t.stack {
      ReseedStatus(s, outputs, x);
    }
  }

  lemma {:induction false} ReseedStatus(s: Sched, outputs: seq<nat>, x: nat)
    requires InRange(outputs, |s.nodes|) && x < |s.nodes|
    ensures Reseed(s, outputs).nodes[x].status == s.nodes[x].status || Reseed(s, outputs).nodes[x].status == ToProcess
    ensures x !in outputs ==> Reseed(s, outputs).nodes[x].status == s.nodes[x].status
    decreases |outputs|
  {
    if outputs != [] {
      var n := s.nodes[outputs[0]];
      if n.status != Ended && n.status != ToProcess {
        ReseedStatus(s.(nodes := WithStatus(s.nodes, outputs[0], ToProcess), queue := s.queue + [outputs[0]]), outputs[1..], x);
      } else {
        ReseedStatus(s, outputs[1..], x);
      }
    }
  }

  lemma RelabelsCareful(g: Graph, outputs: seq<nat>, c: Clock, nodes: seq<Node>, nodes': seq<Node>)
    requires Acyclic(g) && Careful(g, nodes, outputs, c) && Relabels(outputs, nodes, nodes')
    ensures Careful(g, nodes', outputs, c)
  {
    forall i, k | 0 <= i < |nodes'| && 0 <= k < |g.preds[i]| ensures EdgeTimed(g, nodes', c, i, g.preds[i][k]) {
      assert EdgeTimed(g, nodes, c, i, g.preds[i][k]);
    }
  }

  lemma ReseedWhole(g: Graph, outputs: seq<nat>, c: Clock, s: Sched)
    requires Acyclic(g) && Whole(g, outputs, c, s) && Unread(g, outputs) && s.queue == [] && s.stack == []
    ensures Whole(g, outputs, c, Reseed(s, outputs))
  {
    var t := Reseed(s, outputs);
    ReseedOnTime(g, outputs, c, s);
    ReseedRelabels(s, outputs, outputs);
    RelabelsKeeps(g, outputs, s.nodes, t.nodes);
    RelabelsCareful(g, outputs, c, s.nodes, t.nodes);
    hide AllFit, AllEnded, OnTime, Reseed, Careful;
    assert AllStreams(g, t) by {
      forall p: nat, j: nat | IsStream(g, t.nodes, p, j) ensures StreamOk(g, t, p, j) {
        assert IsStream(g, s.nodes, p, j);
      }
    }
    assert AllTakeTurns(g, t) by {
      forall i: nat, q: nat | Reads(g, t.nodes, i, q) ensures TakesTurns(t, i, q) {
        assert Reads(g, s.nodes, i, q) && TakesTurns(s, i, q) && g.preds[i][0] == q;
      }
    }
  }

  // ------------------------------------------------------------------------- whole runs

  lemma RoundWhole(g: Graph, outputs: seq<nat>, c: Clock, s: Sched, total: seq<seq<Row>>)
    requires Acyclic(g) && Whole(g, outputs, c, s) && Unread(g, outputs) && Conserves(g, s.nodes, total)
    ensures InRange(outputs, |s.nodes|) && Whole(g, outputs, c, Round(g, outputs, s))
    ensures Conserves(g, Round(g, outputs, s).nodes, total)
  {
    if s.queue == [] && s.stack == [] {
      ReseedWhole(g, outputs, c, s);
      ReseedRelabels(s, outputs, outputs);
      hide Reseed, Careful, OnTime, AllStreams, AllTakeTurns, AllEnded, AllFit, Later, OneReader;
      StatusesConserve(g, s.nodes, Reseed(s, outputs).nodes, total);
    } else {
      hide Careful, OnTime, AllStreams, AllTakeTurns, AllEnded, AllFit, Later, OneReader, Turn, CanTurn;
      TurnWhole(g, outputs, c, s);
      TurnConserves(g, outputs, c, s, total);
    }
  }

  lemma {:induction false} RunConserves(g: Graph, outputs: seq<nat>, c: Clock, s: Sched, total: seq<seq<Row>>, n: nat)
    requires Acyclic(g) && Whole(g, outputs, c, s) && Unread(g, outputs) && Conserves(g, s.nodes, total)
    ensures InRange(outputs, |s.nodes|) && Whole(g, outputs, c, Turns(g, outputs, s, n))
    ensures Conserves(g, Turns(g, outputs, s, n).nodes, total)
    decreases n
  {
    hide Whole, Round, Conserves;
    RoundWhole(g, outputs, c, s, total);
    WholeFits(g, outputs, c, s);
    WholeFits(g, outputs, c, Round(g, outputs, s));
    if n != 0 {
      RunConserves(g, outputs, c, Round(g, outputs, s), total, n - 1);
    }
  }

  lemma WholeFits(g: Graph, outputs: seq<nat>, c: Clock, s: Sched)
    requires Acyclic(g) && Whole(g, outputs, c, s)
    ensures AllFit(g, s.nodes)
  {
  }

  // ------------------------------------------------------------------- what it all means

  // Before run(): nothing was delivered, and every operator is as it was built.
  ghost predicate Untouched(g: Graph, s: Sched)
    requires Acyclic(g)
  {
    Unused(g, s) && forall x :: 0 <= x < |s.nodes| ==> FreshOp(s.nodes[x].op)
  }

  // What functor i stands for as a function on sequences: a stream stands for its split,
  // a split for what it reads.
  ghost function Means(g: Graph, nodes: seq<Node>, i: nat): (r: seq<Row>)
    requires Acyclic(g) && AllFit(g, nodes) && i < |nodes|
    requires forall x :: 0 <= x < |nodes| ==> FreshOp(nodes[x].op)
    decreases g.rank[i], 1
  {
    assert FitsAt(g, nodes, i);
    if !nodes[i].op.RawData? then Meaning(nodes[i].op, MeansOfPreds(g, nodes, i))
    else if g.preds[i] == [] then nodes[i].op.rows
    else Means(g, nodes, g.preds[i][0])
  }

  ghost function MeansOfPreds(g: Graph, nodes: seq<Node>, i: nat): (r: seq<seq<Row>>)
    requires Acyclic(g) && AllFit(g, nodes) && i < |nodes|
    requires forall x :: 0 <= x < |nodes| ==> FreshOp(nodes[x].op)
    ensures |r| == |g.preds[i]|
    ensures forall k :: 0 <= k < |r| ==> r[k] == Means(g, nodes, g.preds[i][k])
    decreases g.rank[i], 0
  {
    seq(|g.preds[i]|, k requires 0 <= k < |g.preds[i]| => Means(g, nodes, g.preds[i][k]))
  }

  // Before run() everything is still to come.
  lemma {:induction false} LaterIsMeant(g: Graph, s: Sched, i: nat)
    requires Acyclic(g) && Untouched(g, s) && i < |s.nodes|
    ensures Later(g, s.nodes, i) == Means(g, s.nodes, i)
    decreases g.rank[i]
  {
    assert FitsAt(g, s.nodes, i);
    forall k | 0 <= k < |g.preds[i]| ensures Later(g, s.nodes, g.preds[i][k]) == Means(g, s.nodes, g.preds[i][k]) {
      assert g.rank[g.preds[i][k]] < g.rank[i];
      LaterIsMeant(g, s, g.preds[i][k]);
    }
    if !s.nodes[i].op.RawData? {
      hide Rest, Meaning, Later, Means;
      var a, b := Flows(g, s.nodes, i), MeansOfPreds(g, s.nodes, i);
      forall k | 0 <= k < |a| ensures a[k] == b[k] {
        assert a[k] == Flow(g, s.nodes, g.preds[i][k]);
      }
      assert a == b;
      MeaningIs(s.nodes[i].op, Flows(g, s.nodes, i));
    }
  }

  lemma StartIsWhole(g: Graph, outputs: seq<nat>, c: Clock, s: Sched)
    requires Acyclic(g) && Untouched(g, s) && Unread(g, outputs) && OneReader(g, s.nodes) && Careful(g, s.nodes, outputs, c)
    ensures Whole(g, outputs, c, s)
  {
    UnusedIsInv(g, outputs, s);
    hide AllFit, AllEnded, OneReader, DeadOp;
    assert AllStreams(g, s) by {
      hide Careful;
      forall p: nat, j: nat | IsStream(g, s.nodes, p, j) ensures StreamOk(g, s, p, j) {
        UnusedIsOk(g, outputs, s, p, j);
      }
    }
  }

  ghost function Denotations(g: Graph, nodes: seq<Node>): (r: seq<seq<Row>>)
    requires Acyclic(g) && AllFit(g, nodes)
    requires forall x :: 0 <= x < |nodes| ==> FreshOp(nodes[x].op)
    ensures |r| == |nodes| && forall x :: 0 <= x < |r| ==> r[x] == Means(g, nodes, x)
  {
    seq(|nodes|, x requires 0 <= x < |nodes| => Means(g, nodes, x))
  }

  // At every point of the run, what a functor has delivered is a beginning of what it
  // means, the rest is still to come, and when it has ended it has delivered all of it.
  lemma RunMeans(g: Graph, outputs: seq<nat>, c: Clock, s: Sched, n: nat, x: nat)
    requires Acyclic(g) && Untouched(g, s) && Unread(g, outputs) && OneReader(g, s.nodes) && Careful(g, s.nodes, outputs, c)
    requires x < |s.nodes|
    ensures InRange(outputs, |s.nodes|)
    ensures
      var t := Turns(g, outputs, s, n);
      && AllFit(g, t.nodes) && t.nodes[x].produced + Later(g, t.nodes, x) == Means(g, s.nodes, x)
      && (t.nodes[x].status == Ended ==> t.nodes[x].produced == Means(g, s.nodes, x))
      && (t.nodes[x].op.Output? ==> t.nodes[x].op.values == t.nodes[x].produced)
  {
    hide Whole, Careful, OneReader, Later, Means, Conserves, Untouched, AllFit;
    StartIsWhole(g, outputs, c, s);
    StartConserves(g, s);
    UntouchedFits(g, s);
    RunConserves(g, outputs, c, s, Denotations(g, s.nodes), n);
    WholeFits(g, outputs, c, Turns(g, outputs, s, n));
    StateMeans(g, outputs, c, Turns(g, outputs, s, n), Denotations(g, s.nodes), x);
  }

  lemma UntouchedFits(g: Graph, s: Sched)
    requires Acyclic(g) && Untouched(g, s)
    ensures AllFit(g, s.nodes) && |s.nodes| == |g.preds| && forall x :: 0 <= x < |s.nodes| ==> FreshOp(s.nodes[x].op)
  {
  }

  lemma StartConserves(g: Graph, s: Sched)
    requires Acyclic(g) && Untouched(g, s)
    ensures Conserves(g, s.nodes, Denotations(g, s.nodes))
  {
    hide Means, Later, FreshOp, FitsAt;
    var total := Denotations(g, s.nodes);
    forall i | 0 <= i < |s.nodes| ensures s.nodes[i].produced + Later(g, s.nodes, i) == total[i] {
      LaterIsMeant(g, s, i);
    }
  }

  lemma StateMeans(g: Graph, outputs: seq<nat>, c: Clock, t: Sched, total: seq<seq<Row>>, x: nat)
    requires Acyclic(g) && Whole(g, outputs, c, t) && Unread(g, outputs) && Conserves(g, t.nodes, total) && x < |t.nodes|
    ensures t.nodes[x].produced + Later(g, t.nodes, x) == total[x]
    ensures t.nodes[x].status == Ended ==> t.nodes[x].produced == total[x]
    ensures t.nodes[x].op.Output? ==> t.nodes[x].op.values == t.nodes[x].produced
  {
    hide Careful, OneReader, Later, OnTime, AllStreams, AllTakeTurns;
    if t.nodes[x].status == Ended {
      EndedNothingLater(g, outputs, t.nodes, x);
    }
  }

  // run() ends with every output holding exactly what its part of the graph means.
  lemma OutputsHoldMeaning(g: Graph, outputs: seq<nat>, c: Clock, s: Sched) returns (n: nat)
    requires Acyclic(g) && Untouched(g, s) && Unread(g, outputs) && OneReader(g, s.nodes) && Careful(g, s.nodes, outputs, c)
    ensures InRange(outputs, |s.nodes|)
    ensures
      var t := Turns(g, outputs, s, n);
      && t.queue == [] && t.stack == [] && Round(g, outputs, t) == t
      && forall k :: 0 <= k < |outputs| ==>
           && t.nodes[outputs[k]].produced == Means(g, s.nodes, outputs[k])
           && (t.nodes[outputs[k]].op.Output? ==> t.nodes[outputs[k]].op.values == Means(g, s.nodes, outputs[k]))
  {
    n := EveryRunEnds(g, outputs, s);
    hide Turns, Means, Careful, OneReader, Later;
    forall k | 0 <= k < |outputs|
      ensures
        var t := Turns(g, outputs, s, n);
        && t.nodes[outputs[k]].produced == Means(g, s.nodes, outputs[k])
        && (t.nodes[outputs[k]].op.Output? ==> t.nodes[outputs[k]].op.values == Means(g, s.nodes, outputs[k]))
    {
      RunMeans(g, outputs, c, s, n, outputs[k]);
    }
  }

  // ----------------------------------------------------- what readers have passed on

  // Along a run, a filter, split or output has passed on what it read.
  lemma RoundPasses(g: Graph, outputs: seq<nat>, s: Sched, i: nat, q: nat)
    requires Acyclic(g) && Inv(g, outputs, s) && Unread(g, outputs) && Shaped(g, s.nodes)
    requires Reads(g, s.nodes, i, q) && TakesTurns(s, i, q) && Passed(s.nodes, i, q)
    ensures InRange(outputs, |s.nodes|)
    ensures
      var t := Round(g, outputs, s);
      Inv(g, outputs, t) && Shaped(g, t.nodes) && Reads(g, t.nodes, i, q) && TakesTurns(t, i, q) && Passed(t.nodes, i, q)
      && (s.nodes[i].op.Filter? ==> t.nodes[i].op == s.nodes[i].op)
      && (s.nodes[i].op.Output? ==> t.nodes[i].op.Output?)
  {
    InQueue(g, outputs, s);
    if s.queue == [] && s.stack == [] {
      ReseedRelabels(s, outputs, outputs);
      ReseedMembers(s, outputs);
      RelabelsKeeps(g, outputs, s.nodes, Reseed(s, outputs).nodes);
      assert g.preds[i][0] == q;
      hide Reseed, AllFit, AllEnded;
      ReaderKind(g, s.nodes, i, q);
      PassedSame(s.nodes, Reseed(s, outputs).nodes, i, q);
    } else {
      TurnKeeps(g, outputs, s);
      TurnShaped(g, outputs, s);
      TurnTakesTurns(g, outputs, s, i, q);
      TurnPasses(g, outputs, s, i, q);
      ReadsStays(g, s, i, q);
      hide Turn, Shaped, TakesTurns, Passed, Inv, Reads;
    }
  }

  lemma {:induction false} ReseedMembers(s: Sched, outputs: seq<nat>)
    requires InRange(outputs, |s.nodes|)
    ensures forall x :: x in Reseed(s, outputs).queue ==> x in s.queue || x in outputs
    decreases |outputs|
  {
    if outputs != [] {
      var n := s.nodes[outputs[0]];
      if n.status != Ended && n.status != ToProcess {
        ReseedMembers(s.(nodes := WithStatus(s.nodes, outputs[0], ToProcess), queue := s.queue + [outputs[0]]), outputs[1..]);
      } else {
        ReseedMembers(s, outputs[1..]);
      }
    }
  }

  lemma {:induction false} RunPasses(g: Graph, outputs: seq<nat>, s: Sched, i: nat, q: nat, n: nat)
    requires Acyclic(g) && Inv(g, outputs, s) && Unread(g, outputs) && Shaped(g, s.nodes)
    requires Reads(g, s.nodes, i, q) && TakesTurns(s, i, q) && Passed(s.nodes, i, q)
    ensures InRange(outputs, |s.nodes|)
    ensures
      var t := Turns(g, outputs, s, n);
      Inv(g, outputs, t) && Reads(g, t.nodes, i, q) && Passed(t.nodes, i, q)
      && (s.nodes[i].op.Filter? ==> t.nodes[i].op == s.nodes[i].op)
      && (s.nodes[i].op.Output? ==> t.nodes[i].op.Output?)
    decreases n
  {
    hide Inv, Round, Shaped, TakesTurns;
    RoundPasses(g, outputs, s, i, q);
    if n != 0 {
      RunPasses(g, outputs, Round(g, outputs, s), i, q, n - 1);
    }
  }

  // On every graph without cycles, with any operators, no value is ever overwritten or
  // dropped where a filter, a split or an output reads it: at every point of a run the
  // reader has delivered what it makes of all that was delivered to it, but for a value
  // still held.
  lemma EveryRowIsPassed(g: Graph, outputs: seq<nat>, s: Sched, i: nat, q: nat, n: nat)
    requires Acyclic(g) && Unused(g, s) && Unread(g, outputs) && OneReader(g, s.nodes) && Reads(g, s.nodes, i, q)
    ensures InRange(outputs, |s.nodes|)
    ensures
      var t := Turns(g, outputs, s, n);
      Reads(g, t.nodes, i, q) && t.nodes[i].produced == Kept(t.nodes[i].op, Consumed(t.nodes[q]))
  {
    UnusedIsInv(g, outputs, s);
    assert Passed(s.nodes, i, q);
    RunPasses(g, outputs, s, i, q, n);
  }

  // ---------------------------------------------------------- graphs that keep to a clock

  // The functor is a split or a split reads what becomes of its values.
  ghost predicate AboveSplit(g: Graph, nodes: seq<Node>, f: nat)
    requires Acyclic(g) && |nodes| == |g.preds| && f < |nodes|
    decreases Above(g.rank) - g.rank[f]
  {
    exists i :: 0 <= i < |nodes| && f in g.preds[i] && (nodes[f].op.Output? || AboveSplit(g, nodes, i))
  }

  // Above every split there are only sources, streams, filters and splits.
  ghost predicate PatientAboveSplits(g: Graph, nodes: seq<Node>)
    requires Acyclic(g) && |nodes| == |g.preds|
  {
    forall f :: 0 <= f < |nodes| && AboveSplit(g, nodes, f) ==> Patient(nodes[f].op)
  }

  // How many functors read on from f.
  ghost function Depth(g: Graph, f: nat): (r: nat)
    requires Acyclic(g) && f < |g.preds|
    decreases Above(g.rank) - g.rank[f]
  {
    if i: nat :| i < |g.preds| && f in g.preds[i] then 1 + Depth(g, i) else 0
  }

  // Readers are not above a split where the functor they read is not.
  lemma ReadersBelow(g: Graph, nodes: seq<Node>, i: nat, k: nat)
    requires Shaped(g, nodes) && i < |nodes| && k < |g.preds[i]|
    ensures !AboveSplit(g, nodes, g.preds[i][k]) ==> !AboveSplit(g, nodes, i) && !nodes[g.preds[i][k]].op.Output?
    ensures !AboveSplit(g, nodes, i) && !nodes[g.preds[i][k]].op.Output? ==> !AboveSplit(g, nodes, g.preds[i][k])
    ensures !nodes[g.preds[i][k]].op.Output? ==> Depth(g, g.preds[i][k]) == Depth(g, i) + 1
  {
    var q := g.preds[i][k];
    assert q in g.preds[i];
    if !nodes[q].op.Output? {
      forall j | 0 <= j < |nodes| && q in g.preds[j] ensures j == i {
        ReaderIs(g, nodes, i, k, j);
      }
    }
    hide AllFit, OneReader;
  }

  // The functors not above a split, level by level.
  ghost function ForestClock(g: Graph, nodes: seq<Node>): (c: Clock)
    requires Acyclic(g) && |nodes| == |g.preds|
    ensures |c.inside| == |c.time| == |nodes|
    ensures forall f :: 0 <= f < |nodes| ==> c.inside[f] == !AboveSplit(g, nodes, f) && c.time[f] == Depth(g, f)
    ensures c.span == 1
  {
    Clock(seq(|nodes|, f requires 0 <= f < |nodes| => !AboveSplit(g, nodes, f)),
          seq(|nodes|, f requires 0 <= f < |nodes| => Depth(g, f)), 1)
  }

  lemma PatientIsCareful(g: Graph, nodes: seq<Node>, outputs: seq<nat>)
    requires Shaped(g, nodes) && Unread(g, outputs) && PatientAboveSplits(g, nodes)
    ensures Careful(g, nodes, outputs, ForestClock(g, nodes))
  {
    hide OneReader, Depth, AboveSplit, FitsAt;
    var c := ForestClock(g, nodes);
    forall i, k | 0 <= i < |nodes| && 0 <= k < |g.preds[i]| ensures EdgeTimed(g, nodes, c, i, g.preds[i][k]) {
      ReadersBelow(g, nodes, i, k);
    }
    forall a | 0 <= a < |outputs| ensures c.time[outputs[a]] == 0 {
      UnreadIsLast(g, outputs, a);
    }
  }

  lemma UnreadIsLast(g: Graph, outputs: seq<nat>, a: nat)
    requires Acyclic(g) && Unread(g, outputs) && a < |outputs|
    ensures Depth(g, outputs[a]) == 0
  {
  }

  // On every graph without cycles in which everything above a split is a source, filter,
  // split or stream, with any operators below the streams, run() ends with every output
  // holding what it means.
  lemma PatientAboveSplitsMeans(g: Graph, outputs: seq<nat>, s: Sched) returns (n: nat)
    requires Acyclic(g) && Untouched(g, s) && Unread(g, outputs) && OneReader(g, s.nodes) && PatientAboveSplits(g, s.nodes)
    ensures InRange(outputs, |s.nodes|)
    ensures
      var t := Turns(g, outputs, s, n);
      && t.queue == [] && t.stack == [] && Round(g, outputs, t) == t
      && forall k :: 0 <= k < |outputs| ==>
           && t.nodes[outputs[k]].produced == Means(g, s.nodes, outputs[k])
           && (t.nodes[outputs[k]].op.Output? ==> t.nodes[outputs[k]].op.values == Means(g, s.nodes, outputs[k]))
  {
    PatientIsCareful(g, s.nodes, outputs);
    n := OutputsHoldMeaning(g, outputs, ForestClock(g, s.nodes), s);
  }

  // Every functor is one level above all its readers: all ways from a functor to the
  // outputs are equally long.
  ghost predicate Leveled(g: Graph, level: seq<nat>) {
    && |level| == |g.preds|
    && forall i, k :: 0 <= i < |g.preds| && 0 <= k < |g.preds[i]| ==> g.preds[i][k] < |level| && level[g.preds[i][k]] == level[i] + 1
  }

  // On every graph whose branches are equally long, with any operators and any number of
  // splits, run() ends with every output holding what it means.
  lemma LeveledMeans(g: Graph, outputs: seq<nat>, s: Sched, level: seq<nat>) returns (n: nat)
    requires Acyclic(g) && Untouched(g, s) && Unread(g, outputs) && OneReader(g, s.nodes) && Leveled(g, level)
    requires forall k :: 0 <= k < |outputs| ==> level[outputs[k]] == 0
    ensures InRange(outputs, |s.nodes|)
    ensures
      var t := Turns(g, outputs, s, n);
      && t.queue == [] && t.stack == [] && Round(g, outputs, t) == t
      && forall k :: 0 <= k < |outputs| ==>
           && t.nodes[outputs[k]].produced == Means(g, s.nodes, outputs[k])
           && (t.nodes[outputs[k]].op.Output? ==> t.nodes[outputs[k]].op.values == Means(g, s.nodes, outputs[k]))
  {
    var c := Clock(seq(|level|, f => true), level, 1);
    assert Careful(g, s.nodes, outputs, c) by {
      hide AllFit, OneReader;
      forall i, k | 0 <= i < |s.nodes| && 0 <= k < |g.preds[i]| ensures EdgeTimed(g, s.nodes, c, i, g.preds[i][k]) {
      }
    }
    n := OutputsHoldMeaning(g, outputs, c, s);
  }
}
