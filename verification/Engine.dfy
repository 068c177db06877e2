// engine::run over functor objects.
module Engine {
  import opened Operators
  import opened Dataflow
  import opened Scheduler
  import opened GraphMeaning
  import opened Functors

  // The numbering of the functors matches the graph.
  ghost predicate Wired(g: Graph, functors: seq<Functor>) {
    && |functors| == |g.preds|
    && (forall i :: 0 <= i < |functors| ==> functors[i].id == i)
    && (forall i :: 0 <= i < |functors| ==> |functors[i].preds| == |g.preds[i]|)
    && (forall i, k :: 0 <= i < |functors| && 0 <= k < |g.preds[i]| ==>
          g.preds[i][k] < |functors| && functors[i].preds[k] == functors[g.preds[i][k]])
  }

  class Engine {
    const functors: seq<Functor>
    ghost const g: Graph

    constructor (functors: seq<Functor>, ghost g: Graph)
      requires Forest(g) && Wired(g, functors)
      requires forall i :: 0 <= i < |functors| ==> functors[i].Valid()
      requires forall i, k :: 0 <= i < |functors| && 0 <= k < |functors[i].preds| ==> !functors[i].preds[k].op.Output?
      ensures this.functors == functors && this.g == g && Valid()
    {
      this.functors := functors;
      this.g := g;
      new;
      assert forall i :: 0 <= i < |functors| ==> functors[i].Valid();
      forall i, k | 0 <= i < |g.preds| && 0 <= k < |g.preds[i]| && g.preds[i][k] < |functors|
        ensures !View()[g.preds[i][k]].op.Output?
      {
        assert functors[i].preds[k] == functors[g.preds[i][k]];
      }
    }

    ghost function All(): (r: set<Functor>) {
      set f | f in functors
    }

    ghost function View(): (r: seq<Node>)
      reads this, All()
      ensures |r| == |functors|
      ensures forall i :: 0 <= i < |r| ==> r[i] == functors[i].View()
    {
      seq(|functors|, i requires 0 <= i < |functors| reads All() => functors[i].View())
    }

    ghost predicate Recorded()
      reads this, All()
    {
      forall i :: 0 <= i < |functors| ==>
        functors[i].isOutput == functors[i].op.Output? && (functors[i].op.Output? ==> functors[i].op.values == functors[i].produced)
    }

    ghost predicate Valid()
      reads this, All()
    {
      Forest(g) && Wired(g, functors) && Fits(g, View()) && Recorded()
    }

    lemma FunctorValid(f: nat)
      requires Valid() && f < |functors|
      ensures functors[f].Valid() && functors[f] in All()
      ensures forall k :: 0 <= k < |functors[f].preds| ==> functors[f].preds[k] in All()
      ensures forall k :: 0 <= k < |functors[f].preds| ==>
        g.preds[f][k] < |functors| && functors[f].preds[k] == functors[g.preds[f][k]]
      ensures functors[f].Sources() <= All()
    {
      var me := functors[f];
      assert View()[f].op == me.op;
      PredsDistinct(g, f);
      forall i, k | 0 <= i < k < |me.preds| ensures me.preds[i] != me.preds[k] {
        assert me.preds[i] == functors[g.preds[f][i]] && me.preds[k] == functors[g.preds[f][k]];
      }
      forall k | 0 <= k < |me.preds| ensures me.preds[k] != me {
        assert me.preds[k] == functors[g.preds[f][k]];
      }
    }

    // The flags of the predecessors after process(), seen from the whole graph.
    lemma Spread(f: nat, o: Outcome, nodes: seq<Node>, nodes': seq<Node>)
      requires Wired(g, functors) && f < |functors| && |nodes| == |nodes'| == |functors|
      requires forall k :: 0 <= k < |g.preds[f]| ==>
        functors[f].preds[k].hasValue == (nodes[g.preds[f][k]].hasValue && k !in o.taken)
      requires forall j :: 0 <= j < |functors| && j != f ==>
        functors[j].View() == nodes[j].(hasValue := functors[j].hasValue)
      requires forall j :: 0 <= j < |functors| && functors[j] !in functors[f].preds && j != f ==>
        functors[j].hasValue == nodes[j].hasValue
      requires forall j :: 0 <= j < |nodes| && j != f ==>
        nodes'[j] == if Taken(g, f, o.taken, j) then nodes[j].(hasValue := false) else nodes[j]
      ensures forall j :: 0 <= j < |functors| && j != f ==> functors[j].View() == nodes'[j]
    {
      var me := functors[f];
      forall j | 0 <= j < |functors| && j != f ensures functors[j].View() == nodes'[j] {
        if Taken(g, f, o.taken, j) {
          var k :| 0 <= k < |g.preds[f]| && k in o.taken && g.preds[f][k] == j;
          assert functors[j] == me.preds[k];
        } else if functors[j] in me.preds {
          var k :| 0 <= k < |me.preds| && me.preds[k] == functors[j];
          assert functors[g.preds[f][k]].id == j;
          assert g.preds[f][k] == j;
        }
      }
    }

    lemma ShownIs(f: nat)
      requires Valid() && f < |functors|
      ensures functors[f].Shown() == HeadsOf(g, View(), f)
    {
      var heads := HeadsOf(g, View(), f);
      var me := functors[f];
      forall k | 0 <= k < |heads| ensures me.Shown()[k] == heads[k] {
        assert me.preds[k] == functors[g.preds[f][k]];
      }
    }

    lemma Separate(f: nat)
      requires Valid() && f < |functors|
      ensures forall j :: 0 <= j < |functors| && j != f ==> functors[j] != functors[f]
      ensures f < |g.preds| == |View()| && Arity(View()[f].op, |g.preds[f]|)
      ensures forall k :: 0 <= k < |g.preds[f]| ==> g.preds[f][k] < |View()|
      ensures Wired(g, functors)
    {
      assert forall j :: 0 <= j < |functors| ==> functors[j].id == j;
    }

    // process() on one functor, with what the scheduler does to its flag.
    method RunFunctor(f: nat, reset: bool) returns (ok: bool)
      requires Valid() && f < |functors|
      modifies All()
      ensures |View()| == |functors|
      ensures ok == old(Delivers(g, View(), f))
      ensures View() == old(RunNode(g, View(), f, reset))
      ensures Recorded()
    {
      hide Operators.Process, HeadsOf, Forest, Arity, RunNode, Taken, Fits, Wired, Recorded;
      FunctorValid(f);
      Separate(f);
      ShownIs(f);
      ghost var nodes := View();
      RecordedView();
      var me := functors[f];
      ghost var o := Operators.Process(me.op, HeadsOf(g, nodes, f));
      ghost var nodes' := RunNode(g, nodes, f, reset);
      RunNodeIs(g, nodes, f, reset);
      ok := me.Process();
      if ok {
        me.DoneValue();
      } else if reset {
        me.ResetDoneValue();
      }
      Spread(f, o, nodes, nodes');
      assert View() == nodes';
      StillRecorded(f, nodes);
    }

    lemma StillRecorded(f: nat, nodes: seq<Node>)
      requires f < |functors| == |nodes| && functors[f].Valid()
      requires forall j :: 0 <= j < |nodes| && j != f ==>
        functors[j].op == nodes[j].op && functors[j].produced == nodes[j].produced
      requires forall j :: 0 <= j < |nodes| ==>
        functors[j].isOutput == nodes[j].op.Output? && (nodes[j].op.Output? ==> nodes[j].op.values == nodes[j].produced)
      ensures Recorded()
    {
    }

    lemma RecordedView()
      requires Recorded()
      ensures forall j :: 0 <= j < |functors| ==>
        functors[j].isOutput == View()[j].op.Output? && (View()[j].op.Output? ==> View()[j].op.values == View()[j].produced)
    {
    }

    method SetStatus(f: nat, status: Status)
      requires Wired(g, functors) && f < |functors|
      modifies All()
      ensures View() == old(WithStatus(View(), f, status))
      ensures old(Recorded()) ==> Recorded()
    {
      assert functors[f] in All();
      functors[f].status := status;
    }

    // Requests the predecessors of f that hold no value and are not over.
    method RequestPreds(f: nat, queue: seq<nat>) returns (queue': seq<nat>)
      requires Valid() && f < |functors|
      modifies All()
      ensures (View(), queue') == old(Request(View(), queue, g.preds[f]))
      ensures Recorded()
    {
      FunctorValid(f);
      PredsDistinct(g, f);
      ghost var goal := Request(View(), queue, g.preds[f]);
      queue' := queue;
      var preds := functors[f].preds;
      for i := 0 to |preds|
        invariant Request(View(), queue', g.preds[f][i..]) == goal
        invariant Recorded()
      {
        var input := preds[i];
        assert input == functors[g.preds[f][i]] && input.id == g.preds[f][i];
        assert g.preds[f][i..][0] == g.preds[f][i] && g.preds[f][i..][1..] == g.preds[f][i + 1..];
        if !input.hasValue && input.status != ToProcess && input.status != Ended {
          queue' := queue' + [input.id];
          SetStatus(input.id, ToProcess);
        }
      }
      assert g.preds[f][|preds|..] == [];
    }

    // Requests the outputs that are not over.
    method RequestOutputs(outputs: seq<nat>, queue: seq<nat>) returns (queue': seq<nat>)
      requires Wired(g, functors) && InRange(outputs, |functors|)
      modifies All()
      ensures forall stack: seq<nat> ::
        Sched(View(), queue', stack) == Reseed(Sched(old(View()), queue, stack), outputs)
      ensures old(Recorded()) ==> Recorded()
    {
      ghost var goal := Reseed(Sched(View(), queue, []), outputs);
      queue' := queue;
      for i := 0 to |outputs|
        invariant Reseed(Sched(View(), queue', []), outputs[i..]) == goal
        invariant old(Recorded()) ==> Recorded()
      {
        var output := functors[outputs[i]];
        assert outputs[i..][0] == outputs[i] && outputs[i..][1..] == outputs[i + 1..];
        if output.status != Ended && output.status != ToProcess {
          queue' := queue' + [output.id];
          SetStatus(output.id, ToProcess);
        }
      }
      assert outputs[|outputs|..] == [];
      forall stack: seq<nat>
        ensures Sched(View(), queue', stack) == Reseed(Sched(old(View()), queue, stack), outputs)
      {
        ReseedStack(old(View()), queue, [], stack, outputs);
      }
    }
  
    // 1. BFS: runs the extractors, stacks the others.
    method VisitPhase(queue: seq<nat>, stack: seq<nat>, ghost total: seq<seq<Row>>)
      returns (stack': seq<nat>)
      requires Wired(g, functors) && Recorded() && queue != []
      requires Sane(g, Sched(View(), queue, stack)) && Faithful(g, View(), total)
      modifies All()
      ensures Recorded() && Sane(g, Sched(View(), [], stack')) && Faithful(g, View(), total)
      ensures Work(g, View(), |functors|) <= old(Work(g, View(), |functors|))
      ensures Work(g, View(), |functors|) < old(Work(g, View(), |functors|)) || stack' != []
    {
      hide Forest, Fits, Placed, EdgesOk, OverIsOver, Faithful, Work, Operators.Process, RunNode, Request;
      var pending := queue;
      stack' := stack;
      ghost var work := Work(g, View(), |functors|);
      while pending != []
        invariant Recorded() && Sane(g, Sched(View(), pending, stack')) && Faithful(g, View(), total)
        invariant work == Work(g, View(), |functors|) <= old(Work(g, View(), |functors|))
        invariant pending != queue ==> work < old(Work(g, View(), |functors|)) || stack' != []
        decreases work, |functors| - |stack'|
      {
        ghost var s := Sched(View(), pending, stack');
        QueueFront(g, s);
        StackFits(g, s);
        var f := pending[0];
        FunctorValid(f);
        if |functors[f].preds| == 0 {
          VisitExtractorKeeps(g, s);
          var ok := RunFunctor(f, false);
          SetStatus(f, if ok then Idle else Ended);
          pending := pending[1..];
          assert Sched(View(), pending, stack') == VisitExtractor(g, s);
        } else {
          VisitInnerKeeps(g, s);
          RelabelFuture(g, s.nodes, WithStatus(s.nodes, f, Processing));
          SetStatus(f, Processing);
          stack' := stack' + [f];
          pending := RequestPreds(f, pending[1..]);
          assert Sched(View(), pending, stack') == VisitInner(g, s);
          StackFits(g, VisitInner(g, s));
        }
        work := Work(g, View(), |functors|);
      }
    }
  
    // 2. Stack phase: runs the functors on the stack, youngest first, until one of
    // them needs another value or none is left.
    method StackPhase(stack: seq<nat>, ghost total: seq<seq<Row>>)
      returns (queue': seq<nat>, stack': seq<nat>)
      requires Wired(g, functors) && Recorded()
      requires Sane(g, Sched(View(), [], stack)) && Faithful(g, View(), total)
      modifies All()
      ensures Recorded() && Sane(g, Sched(View(), queue', stack')) && Faithful(g, View(), total)
      ensures Work(g, View(), |functors|) <= old(Work(g, View(), |functors|))
      ensures stack != [] ==> Work(g, View(), |functors|) < old(Work(g, View(), |functors|))
      ensures queue' == [] ==> stack' == []
    {
      hide Forest, Fits, Placed, EdgesOk, OverIsOver, Faithful, Work, Operators.Process, RunNode, Request, Ready, Quiet;
      queue', stack' := [], stack;
      ghost var work := Work(g, View(), |functors|);
      while stack' != [] && queue' == []
        invariant Recorded() && Sane(g, Sched(View(), queue', stack')) && Faithful(g, View(), total)
        invariant work == Work(g, View(), |functors|) <= old(Work(g, View(), |functors|))
        invariant stack' != stack || queue' != [] ==> work < old(Work(g, View(), |functors|))
        decreases work
      {
        ghost var s := Sched(View(), [], stack');
        TopReady(g, s);
        ProcessTopKeeps(g, s);
        var last := |stack'| - 1;
        var f := stack'[last];
        RunFits(g, s.nodes, f, true);
        PredsOfFunctor(f);
        var ok := RunFunctor(f, true);
        if ok {
          SetStatus(f, Idle);
          stack' := stack'[..last];
        } else {
          queue' := RequestPreds(f, []);
          if queue' == [] {
            SetStatus(f, Ended);
            stack' := stack'[..last];
          }
        }
        assert Sched(View(), queue', stack') == ProcessTop(g, s);
        work := Work(g, View(), |functors|);
      }
    }

    lemma PredsOfFunctor(f: nat)
      requires Valid() && f < |functors|
      ensures f < |g.preds| && RunKeepsFit(g, View(), f) && InRange(g.preds[f], |functors|)
    {
    }

    method BuildGraph()
      requires Valid()
      modifies All()
      ensures Valid() && View() == seq(|functors|, i requires 0 <= i < |functors| => old(View())[i].(status := Idle))
    {
      ghost var nodes := View();
      for i := 0 to |functors|
        invariant Wired(g, functors) && Recorded()
        invariant forall j :: 0 <= j < |functors| ==> View()[j] == if j < i then nodes[j].(status := Idle) else nodes[j]
      {
        SetStatus(i, Idle);
      }
      RelabelFuture(g, nodes, View());
    }

    // The functors some functor has as a predecessor.
    method FedFunctors() returns (fed: set<nat>)
      requires Valid()
      ensures forall j :: j in fed <==> HasSuccessor(g, j)
    {
      fed := {};
      for i := 0 to |functors|
        invariant forall j :: j in fed <==> exists k :: 0 <= k < i && j in g.preds[k]
      {
        var preds := functors[i].preds;
        for k := 0 to |preds|
          invariant forall j :: j in fed <==> (exists l :: 0 <= l < i && j in g.preds[l]) || j in g.preds[i][..k]
        {
          assert preds[k].id == g.preds[i][k];
          assert g.preds[i][..k + 1] == g.preds[i][..k] + [g.preds[i][k]];
          fed := fed + {preds[k].id};
        }
        assert g.preds[i][..|preds|] == g.preds[i];
      }
    }

    // The functors that nobody has as a predecessor, in no particular order.
    method FindOutputs() returns (outputs: seq<nat>)
      requires Valid()
      ensures AreOutputs(g, outputs)
    {
      var fed := FedFunctors();
      hide Valid, HasSuccessor;
      var rest: set<nat> := {};
      for i := 0 to |functors|
        invariant forall j: nat :: j in rest <==> j < i && j !in fed
      {
        if i !in fed {
          rest := rest + {i};
        }
      }
      outputs := [];
      while rest != {}
        invariant Distinct(outputs) && InRange(outputs, |functors|)
        invariant forall j: nat :: j < |functors| && j !in fed <==> j in rest || j in outputs
        invariant forall j :: j in outputs ==> j !in rest
        decreases |rest|
      {
        var j :| j in rest;
        rest := rest - {j};
        outputs := outputs + [j];
      }
    }

    ghost predicate OutputsOver(outputs: seq<nat>)
      requires InRange(outputs, |functors|)
      reads this, All()
    {
      forall k :: 0 <= k < |outputs| ==>
        View()[outputs[k]].status == Ended || View()[outputs[k]].status == ToProcess
    }

    // Alternates the phases until nothing is left to do.
    method Schedule(outputs: seq<nat>, ghost total: seq<seq<Row>>)
      requires Wired(g, functors) && Recorded() && AreOutputs(g, outputs)
      requires Sane(g, Sched(View(), [], [])) && Faithful(g, View(), total)
      modifies All()
      ensures Valid() && Faithful(g, View(), total)
      ensures forall j :: 0 <= j < |functors| && !HasSuccessor(g, j) ==> functors[j].produced == total[j]
    {
      hide Forest, Fits, Placed, EdgesOk, OverIsOver, Faithful, Work, Future, AreOutputs, HasSuccessor;
      ghost var s := Sched(View(), [], []);
      OutputsInRange(outputs);
      ReseedKeeps(g, s, outputs);
      ReseedIs(s, outputs);
      // all statuses are Idle here, so every output is requested
      var queue := RequestOutputs(outputs, []);
      var stack: seq<nat> := [];
      ghost var work := Work(g, View(), |functors|);
      assert Sched(View(), queue, stack) == Reseed(s, outputs);
      while queue != []
        invariant Recorded() && Sane(g, Sched(View(), queue, stack)) && Faithful(g, View(), total)
        invariant work == Work(g, View(), |functors|)
        invariant queue == [] ==> stack == [] && OutputsOver(outputs)
        decreases work
      {
        stack := VisitPhase(queue, stack, total);
        queue, stack := StackPhase(stack, total);
        if queue == [] {
          s := Sched(View(), [], []);
          ReseedKeeps(g, s, outputs);
          ReseedIs(s, outputs);
          queue := RequestOutputs(outputs, []);
          assert Sched(View(), queue, []) == Reseed(s, outputs);
        }
        work := Work(g, View(), |functors|);
      }
      AllDelivered(g, View(), outputs, total);
    }

    lemma OutputsInRange(outputs: seq<nat>)
      requires Wired(g, functors) && AreOutputs(g, outputs)
      ensures InRange(outputs, |functors|)
    {
    }

    // Everything functor j has delivered and will deliver.
    ghost function Total(): (total: seq<seq<Row>>)
      requires Valid()
      reads this, All()
      ensures |total| == |functors|
      ensures forall j :: 0 <= j < |functors| ==> total[j] == functors[j].produced + Future(g, View(), j)
    {
      seq(|functors|, j requires 0 <= j < |functors| reads this, All() requires Valid() =>
        functors[j].produced + Future(g, View(), j))
    }

    // Runs the graph, and always terminates. No functor delivers anything but
    // what its tree of operators describes, and every output delivers all of it.
    // With no functor at all there is no output to find.
    method Run() returns (ok: bool)
      requires Valid()
      modifies All()
      ensures Valid() && (ok <==> functors != [])
      ensures Total() == old(Total())
      ensures ok ==> forall j :: 0 <= j < |functors| && !HasSuccessor(g, j) ==> functors[j].produced == old(Total())[j]
    {
      hide Forest, Fits, Future, HasSuccessor, Sane, Faithful, Wired;
      ghost var total := Total();
      Prepare();
      var outputs := FindOutputs();
      if functors != [] {
        SomeOutputThere(outputs);
      }
      FaithfulIsTotal(total);
      if outputs == [] {
        return false;
      }
      OutputsInRange(outputs);
      assert outputs[0] < |functors|;
      Schedule(outputs, total);
      FaithfulIsTotal(total);
      return true;
    }

    // build_graph leaves a state in which nothing is queued or stacked.
    method Prepare()
      requires Valid()
      modifies All()
      ensures Valid() && Sane(g, Sched(View(), [], [])) && Faithful(g, View(), old(Total()))
    {
      ghost var total := Total();
      ghost var nodes := View();
      BuildGraph();
      RelabelFuture(g, nodes, View());
      IdleIsSane(g, View());
      hide Forest, Fits, Future, Sane;
      assert Faithful(g, View(), total);
    }

    lemma SomeOutputThere(outputs: seq<nat>)
      requires Valid() && functors != [] && AreOutputs(g, outputs)
      ensures outputs != []
    {
      var top := SomeOutput(g, |functors|);
      assert top in outputs;
    }

    lemma FaithfulIsTotal(total: seq<seq<Row>>)
      requires Valid() && Faithful(g, View(), total)
      ensures Total() == total
    {
      hide Forest, Fits, Future;
      assert forall j :: 0 <= j < |total| ==> Total()[j] == total[j];
    }
  }

  // The whole engine on a graph that has not run yet: it terminates, and each
  // memory output holds exactly what its tree of functors stands for.
  method RunFresh(e: Engine) returns (ok: bool)
    requires e.Valid() && Fresh(e.View())
    requires forall j :: 0 <= j < |e.functors| ==> e.functors[j].produced == []
    modifies e.All()
    ensures e.Valid() && (ok <==> e.functors != [])
    ensures forall j :: 0 <= j < |e.functors| && !HasSuccessor(e.g, j) && e.functors[j].isOutput ==>
      e.functors[j].op.Output? && e.functors[j].op.values == old(Denote(e.g, e.View(), j))
  {
    ghost var nodes := e.View();
    ghost var total := e.Total();
    hide Forest, Fits, Future, HasSuccessor, Denote, Fresh;
    forall j | 0 <= j < |nodes| ensures total[j] == Denote(e.g, nodes, j) {
      FutureIsDenoted(e.g, nodes, j);
    }
    ok := e.Run();
    forall j | 0 <= j < |e.functors| && !HasSuccessor(e.g, j) && e.functors[j].isOutput
      ensures e.functors[j].op.Output? && e.functors[j].op.values == Denote(e.g, nodes, j)
    {
      e.FunctorValid(j);
    }
  }

  lemma {:induction false} ReseedStack(nodes: seq<Node>, queue: seq<nat>, stack: seq<nat>, stack': seq<nat>, outputs: seq<nat>)
    requires InRange(outputs, |nodes|)
    ensures Reseed(Sched(nodes, queue, stack'), outputs) == Reseed(Sched(nodes, queue, stack), outputs).(stack := stack')
    decreases |outputs|
  {
    if outputs != [] {
      ReseedStack(nodes, queue, stack, stack', outputs[1..]);
      ReseedStack(WithStatus(nodes, outputs[0], ToProcess), queue + [outputs[0]], stack, stack', outputs[1..]);
    }
  }
}
