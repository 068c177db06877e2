// engine::run on graphs with splits: the fields of the functors are updated in place,
// and the nested loops of the source are proved to end.
module SplitEngine {
  import opened Operators
  import opened Dataflow
  import opened Scheduler
  import opened Broadcast
  import opened Streams
  import opened BroadcastEnds
  import opened SplitFuture
  import opened Timed
  import opened SplitMeaning
  import opened Drained

  // Whether functor x is one of the first n predecessors of f and was consumed.
  ghost predicate TakenUpTo(g: Graph, f: nat, taken: set<nat>, n: nat, x: nat)
    requires f < |g.preds| && n <= |g.preds[f]|
  {
    exists k :: 0 <= k < n && k in taken && g.preds[f][k] == x
  }

  // Stream j holds what split p took and has delivered a beginning of it, all of it if
  // it has ended.
  ghost predicate KeepsUp(nodes: seq<Node>, p: nat, j: nat) {
    && p < |nodes| && j < |nodes| && nodes[j].op.RawData?
    && nodes[j].op.rows == nodes[p].produced && nodes[j].produced <= nodes[p].produced
    && (nodes[j].status == Ended ==> nodes[p].status == Ended && nodes[j].produced == nodes[p].produced)
  }

  // t is s, or below it in the order in which every turn descends.
  ghost predicate NotAbove(g: Graph, t: Sched, s: Sched) {
    WellPlaced(g, t) && WellPlaced(g, s) && (t == s || Lower(g, t, s))
  }

  lemma Descends(g: Graph, u: Sched, t: Sched, s: Sched)
    requires WellPlaced(g, u) && WellPlaced(g, t) && Lower(g, u, t) && NotAbove(g, t, s)
    ensures WellPlaced(g, s) && Lower(g, u, s) && NotAbove(g, u, s)
  {
    hide Total, NotEnded, EndedOn, Peak, QueueVisits, WellPlaced;
  }

  lemma Further(g: Graph, u: Sched, t: Sched, s: Sched)
    requires NotAbove(g, u, t) && WellPlaced(g, s) && WellPlaced(g, t) && Lower(g, t, s)
    ensures WellPlaced(g, u) && Lower(g, u, s)
  {
    hide Total, NotEnded, EndedOn, Peak, QueueVisits, WellPlaced;
  }

  lemma {:induction false} OneTurnMore(g: Graph, outputs: seq<nat>, s: Sched, n: nat)
    requires InRange(outputs, |s.nodes|)
    ensures Turns(g, outputs, s, n + 1) == Round(g, outputs, Turns(g, outputs, s, n))
    decreases n
  {
    hide Round;
    if n != 0 {
      OneTurnMore(g, outputs, Round(g, outputs, s), n - 1);
    }
  }

  class Engine {
    const g: Graph
    var nodes: seq<Node>
    var queue: seq<nat>
    var stack: seq<nat>

    constructor (g: Graph, nodes: seq<Node>)
      ensures this.g == g && View() == Sched(nodes, [], [])
    {
      this.g := g;
      this.nodes := nodes;
      queue := [];
      stack := [];
    }

    ghost function View(): (s: Sched)
      reads this
    {
      Sched(nodes, queue, stack)
    }

    // add_data() of functor j
    method AddData(j: nat, row: Row)
      requires j < |nodes| && nodes[j].op.RawData?
      modifies this`nodes
      ensures nodes == old(nodes[j := nodes[j].(op := nodes[j].op.(rows := nodes[j].op.rows + [row]))])
    {
      var op := nodes[j].op;
      nodes := nodes[j := nodes[j].(op := op.(rows := op.rows + [row]))];
    }

    // A split hands the row to all of its streams.
    method HandOver(f: nat, row: Row)
      requires f < |g.preds| == |nodes|
      modifies this`nodes
      ensures |nodes| == |old(nodes)|
      ensures forall x :: 0 <= x < |nodes| ==>
        nodes[x] == old(nodes)[x].(op := Added(g, f, Outcome(Output([]), true, row, {}), x, old(nodes)[x].op))
    {
      ghost var before := nodes;
      for j := 0 to |nodes|
        invariant |nodes| == |before|
        invariant forall x :: 0 <= x < j ==>
          nodes[x] == before[x].(op := Added(g, f, Outcome(Output([]), true, row, {}), x, before[x].op))
        invariant forall x :: j <= x < |nodes| ==> nodes[x] == before[x]
      {
        if nodes[j].op.RawData? && f in g.preds[j] {
          AddData(j, row);
        }
      }
    }

    // consume_input_value() for the predecessors that were taken
    method Consume(f: nat, taken: set<nat>)
      requires f < |g.preds| == |nodes| && InRange(g.preds[f], |nodes|)
      modifies this`nodes
      ensures |nodes| == |old(nodes)|
      ensures forall x :: 0 <= x < |nodes| ==>
        nodes[x] == old(nodes)[x].(hasValue := old(nodes)[x].hasValue && !Taken(g, f, taken, x))
    {
      ghost var before := nodes;
      var preds := g.preds[f];
      for k := 0 to |preds|
        invariant |nodes| == |before|
        invariant forall x :: 0 <= x < |nodes| ==>
          nodes[x] == before[x].(hasValue := before[x].hasValue && !TakenUpTo(g, f, taken, k, x))
      {
        ghost var was := nodes;
        if k in taken {
          nodes := nodes[preds[k] := nodes[preds[k]].(hasValue := false)];
        }
        forall x | 0 <= x < |nodes| ensures TakenUpTo(g, f, taken, k + 1, x) <==> TakenUpTo(g, f, taken, k, x) || (k in taken && preds[k] == x) {
          TakenOneMore(f, taken, k, x);
        }
      }
      forall x | 0 <= x < |nodes| ensures TakenUpTo(g, f, taken, |preds|, x) <==> Taken(g, f, taken, x) {
      }
    }

    lemma TakenOneMore(f: nat, taken: set<nat>, k: nat, x: nat)
      requires f < |g.preds| && k < |g.preds[f]|
      ensures TakenUpTo(g, f, taken, k + 1, x) <==> TakenUpTo(g, f, taken, k, x) || (k in taken && g.preds[f][k] == x)
    {
    }

    // process() of functor f, then done_value(), or reset_done_value() on failure.
    method RunFunctor(f: nat, reset: bool) returns (ok: bool)
      requires CanRun(g, nodes, f) && f !in g.preds[f]
      modifies this`nodes
      ensures nodes == old(RunBroadcast(g, nodes, f, reset)) && ok == old(ProcessIn(g, nodes, f).ok)
    {
      ghost var before := nodes;
      var o := ProcessIn(g, nodes, f);
      ok := o.ok;
      var n := nodes[f];
      hide ProcessIn, Taken;
      if ok && o.op.Output? {
        HandOver(f, o.value);
      }
      Consume(f, o.taken);
      if ok {
        nodes := nodes[f := Node(o.op, !o.op.Output?, n.status, o.value, n.produced + [o.value])];
      } else {
        nodes := nodes[f := n.(op := o.op, hasValue := n.hasValue && !reset)];
      }
      ghost var goal := RunBroadcast(g, before, f, reset);
      assert forall x :: 0 <= x < |nodes| ==> nodes[x] == goal[x];
    }

    // Requests the predecessors of f that hold no value and are not over.
    method RequestPreds(f: nat)
      requires f < |g.preds| == |nodes| && InRange(g.preds[f], |nodes|)
      modifies this`nodes, this`queue
      ensures (nodes, queue) == old(Request(nodes, queue, g.preds[f]))
    {
      ghost var goal := Request(nodes, queue, g.preds[f]);
      var preds := g.preds[f];
      for i := 0 to |preds|
        invariant |nodes| == |old(nodes)| && Request(nodes, queue, preds[i..]) == goal
      {
        var input := nodes[preds[i]];
        assert preds[i..][0] == preds[i] && preds[i..][1..] == preds[i + 1..];
        if !input.hasValue && input.status != ToProcess && input.status != Ended {
          queue := queue + [preds[i]];
          nodes := WithStatus(nodes, preds[i], ToProcess);
        }
      }
      assert preds[|preds|..] == [];
    }

    // Requests the outputs that are not over.
    method RequestOutputs(outputs: seq<nat>)
      requires InRange(outputs, |nodes|)
      modifies this`nodes, this`queue
      ensures View() == old(Reseed(View(), outputs))
    {
      ghost var goal := Reseed(View(), outputs);
      for i := 0 to |outputs|
        invariant |nodes| == |old(nodes)| && Reseed(View(), outputs[i..]) == goal
      {
        var output := nodes[outputs[i]];
        assert outputs[i..][0] == outputs[i] && outputs[i..][1..] == outputs[i + 1..];
        if output.status != Ended && output.status != ToProcess {
          queue := queue + [outputs[i]];
          nodes := WithStatus(nodes, outputs[i], ToProcess);
        }
      }
      assert outputs[|outputs|..] == [];
    }

    // One iteration of the loop over the queue.
    method Visit()
      requires Acyclic(g) && CanTurn(g, View()) && queue != []
      modifies this
      ensures View() == old(Turn(g, View()))
    {
      var f := queue[0];
      NotItsOwn(f);
      queue := queue[1..];
      if g.preds[f] == [] {
        var ok := RunFunctor(f, false);
        nodes := WithStatus(nodes, f, if ok then Idle else Ended);
      } else {
        nodes := WithStatus(nodes, f, Processing);
        stack := stack + [f];
        RequestPreds(f);
      }
    }

    // One iteration of the loop over the stack.
    method ProcessTop()
      requires Acyclic(g) && CanTurn(g, View()) && queue == []
      modifies this
      ensures View() == old(Turn(g, View()))
    {
      var last := |stack| - 1;
      var f := stack[last];
      NotItsOwn(f);
      var ok := RunFunctor(f, true);
      if ok {
        stack := stack[..last];
        nodes := WithStatus(nodes, f, Idle);
      } else {
        RequestPreds(f);
        if queue == [] {
          stack := stack[..last];
          nodes := WithStatus(nodes, f, Ended);
        }
      }
    }

    lemma NotItsOwn(f: nat)
      requires Acyclic(g) && f < |g.preds|
      ensures f !in g.preds[f] && InRange(g.preds[f], |g.preds|)
    {
    }

    // A turn from a state that a run reaches.
    lemma TurnIsNext(outputs: seq<nat>, s: Sched, t: Sched, n: nat)
      requires Acyclic(g) && Inv(g, outputs, t) && Unread(g, outputs) && (t.queue != [] || t.stack != [])
      requires InRange(outputs, |s.nodes|) && t == Turns(g, outputs, s, n)
      ensures CanTurn(g, t) && Inv(g, outputs, Turn(g, t)) && Turn(g, t) == Turns(g, outputs, s, n + 1)
      ensures WellPlaced(g, t) && WellPlaced(g, Turn(g, t)) && Lower(g, Turn(g, t), t)
    {
      hide Inv, Turn, Lower, Turns;
      TurnKeeps(g, outputs, t);
      TurnLowers(g, outputs, t);
      OneTurnMore(g, outputs, s, n);
    }

    // 1. the queue, until it is empty
    method VisitPhase(outputs: seq<nat>, ghost s: Sched, ghost n: nat) returns (ghost n': nat)
      requires Acyclic(g) && Inv(g, outputs, View()) && Unread(g, outputs) && queue != []
      requires InRange(outputs, |s.nodes|) && View() == Turns(g, outputs, s, n)
      modifies this
      ensures Inv(g, outputs, View()) && queue == [] && View() == Turns(g, outputs, s, n')
      ensures WellPlaced(g, View()) && WellPlaced(g, old(View())) && Lower(g, View(), old(View()))
    {
      hide Inv, Turn, Turns, CanTurn, Total, NotEnded, EndedOn, Peak, QueueVisits;
      n' := n;
      ghost var start := View();
      InvIsPlaced(g, outputs, start);
      while queue != []
        invariant Inv(g, outputs, View()) && View() == Turns(g, outputs, s, n') && NotAbove(g, View(), start)
        decreases Total(g, nodes, |nodes|), NotEnded(nodes, |nodes|), EndedOn(nodes, stack), Peak(g, View()),
                  QueueVisits(g, queue)
      {
        ghost var t := View();
        TurnIsNext(outputs, s, t, n');
        Visit();
        Descends(g, View(), t, start);
        n' := n' + 1;
      }
    }

    // 2. the stack, youngest first, until something is requested or nothing is left
    method StackPhase(outputs: seq<nat>, ghost s: Sched, ghost n: nat) returns (ghost n': nat)
      requires Acyclic(g) && Inv(g, outputs, View()) && Unread(g, outputs) && queue == []
      requires InRange(outputs, |s.nodes|) && View() == Turns(g, outputs, s, n)
      modifies this
      ensures Inv(g, outputs, View()) && (queue == [] ==> stack == []) && View() == Turns(g, outputs, s, n')
      ensures NotAbove(g, View(), old(View()))
    {
      hide Inv, Turn, Turns, CanTurn, Total, NotEnded, EndedOn, Peak, QueueVisits;
      n' := n;
      ghost var start := View();
      InvIsPlaced(g, outputs, start);
      while stack != [] && queue == []
        invariant Inv(g, outputs, View()) && View() == Turns(g, outputs, s, n') && NotAbove(g, View(), start)
        decreases Total(g, nodes, |nodes|), NotEnded(nodes, |nodes|), EndedOn(nodes, stack), Peak(g, View()),
                  QueueVisits(g, queue)
      {
        ghost var t := View();
        TurnIsNext(outputs, s, t, n');
        ProcessTop();
        Descends(g, View(), t, start);
        n' := n' + 1;
      }
    }

    lemma ReseedIsNext(outputs: seq<nat>, s: Sched, t: Sched, n: nat)
      requires Acyclic(g) && Inv(g, outputs, t) && Unread(g, outputs) && t.queue == [] && t.stack == []
      requires InRange(outputs, |s.nodes|) && t == Turns(g, outputs, s, n)
      ensures InRange(outputs, |t.nodes|)
      ensures Inv(g, outputs, Reseed(t, outputs)) && Reseed(t, outputs) == Turns(g, outputs, s, n + 1)
      ensures Reseed(t, outputs).stack == []
      ensures NotAbove(g, Reseed(t, outputs), t)
      ensures Reseed(t, outputs).queue == [] ==>
        forall k :: 0 <= k < |outputs| ==> Reseed(t, outputs).nodes[outputs[k]].status == Ended
    {
      InQueue(g, outputs, t);
      ReseedRelabels(t, outputs, outputs);
      RoundKeeps(g, outputs, t);
      OneTurnMore(g, outputs, s, n);
      ReseedLowers(g, outputs, t);
      OverMeans(t, outputs);
      hide Turns, Reseed, Lower, AllFit, AllEnded;
    }

    // Alternates the phases until nothing is left to do. Whatever reads the streams, the
    // loops end, every output has ended, and every stream keeps up with its split.
    method Run(outputs: seq<nat>) returns (ghost n: nat)
      requires Acyclic(g) && Unused(g, View()) && Unread(g, outputs)
      modifies this
      ensures InRange(outputs, |nodes|) && |nodes| == |old(nodes)|
      ensures View() == Turns(g, outputs, old(View()), n) && queue == [] && stack == []
      ensures forall k :: 0 <= k < |outputs| ==> nodes[outputs[k]].status == Ended
      ensures forall p: nat, j: nat :: old(IsStream(g, nodes, p, j)) ==> KeepsUp(nodes, p, j)
    {
      hide Inv, Turns, Reseed, Total, NotEnded, EndedOn, Peak, QueueVisits, Unused, Acyclic, IsStream;
      ghost var s := View();
      UnusedIsInv(g, outputs, s);
      UnusedIsEmpty(s);
      InQueue(g, outputs, s);
      NoTurns(outputs, s);
      ReseedIsNext(outputs, s, s, 0);
      RequestOutputs(outputs);
      n := 1;
      while queue != []
        invariant Inv(g, outputs, View()) && View() == Turns(g, outputs, s, n) && WellPlaced(g, View())
        invariant |nodes| == |s.nodes|
        invariant queue == [] ==> stack == [] && forall k :: 0 <= k < |outputs| ==> nodes[outputs[k]].status == Ended
        decreases Total(g, nodes, |nodes|), NotEnded(nodes, |nodes|), EndedOn(nodes, stack), Peak(g, View()),
                  QueueVisits(g, queue)
      {
        ghost var start := View();
        n := VisitPhase(outputs, s, n);
        ghost var t := View();
        n := StackPhase(outputs, s, n);
        Further(g, View(), t, start);
        if queue == [] {
          ghost var u := View();
          ReseedIsNext(outputs, s, u, n);
          RequestOutputs(outputs);
          Further(g, View(), u, start);
          n := n + 1;
        }
      }
      StreamsAtEnd(outputs, s, n);
    }

    // On a graph that keeps to a clock, and on every graph with only sources, streams,
    // filters and splits above its splits, every output holds exactly what it means, and
    // every functor that drains into one has delivered what it means.
    method RunFresh(outputs: seq<nat>, ghost c: Clock) returns (ghost n: nat)
      requires Acyclic(g) && Untouched(g, View()) && Unread(g, outputs) && OneReader(g, nodes)
      requires Careful(g, nodes, outputs, c) || PatientAboveSplits(g, nodes)
      modifies this
      ensures InRange(outputs, |nodes|) && |nodes| == |old(nodes)| && queue == [] && stack == []
      ensures forall k :: 0 <= k < |outputs| ==> nodes[outputs[k]].produced == old(Means(g, nodes, outputs[k]))
      ensures forall k :: 0 <= k < |outputs| && nodes[outputs[k]].op.Output? ==>
        nodes[outputs[k]].op.values == old(Means(g, nodes, outputs[k]))
      ensures forall x :: 0 <= x < |nodes| && old(Drains(g, nodes, outputs, x)) ==>
        nodes[x].produced == old(Means(g, nodes, x))
    {
      ghost var s := View();
      ghost var clock := c;
      if !Careful(g, nodes, outputs, c) {
        PatientIsCareful(g, nodes, outputs);
        clock := ForestClock(g, nodes);
      }
      n := Run(outputs);
      hide Means, Careful, OneReader, Turns, Drains;
      EndDelivers(g, outputs, clock, s, n);
      forall k | 0 <= k < |outputs|
        ensures nodes[outputs[k]].produced == Means(g, s.nodes, outputs[k])
        ensures nodes[outputs[k]].op.Output? ==> nodes[outputs[k]].op.values == Means(g, s.nodes, outputs[k])
      {
        SplitMeaning.RunMeans(g, outputs, clock, s, n, outputs[k]);
      }
    }

    lemma NoTurns(outputs: seq<nat>, s: Sched)
      requires InRange(outputs, |s.nodes|)
      ensures Turns(g, outputs, s, 0) == s
    {
    }

    lemma UnusedIsEmpty(s: Sched)
      requires Acyclic(g) && Unused(g, s)
      ensures s.queue == [] && s.stack == []
    {
    }

    lemma StreamsAtEnd(outputs: seq<nat>, s: Sched, n: nat)
      requires Acyclic(g) && Unused(g, s) && Unread(g, outputs) && InRange(outputs, |s.nodes|)
      ensures
        forall p: nat, j: nat :: IsStream(g, s.nodes, p, j) ==> KeepsUp(Turns(g, outputs, s, n).nodes, p, j)
    {
      hide Unused, Turns, Acyclic;
      forall p: nat, j: nat | IsStream(g, s.nodes, p, j)
        ensures KeepsUp(Turns(g, outputs, s, n).nodes, p, j)
      {
        StreamsInStep(g, outputs, s, p, j, n);
      }
    }
  }
}
