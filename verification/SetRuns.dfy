// The ordered set operators under the engine: what an output over a union, intersection
// or difference of ordered trees holds when run() has ended.
module SetRuns {
  import opened Operators
  import opened Dataflow
  import opened GraphMeaning
  import opened SetMeaning
  import opened SetRows
  import E = Engine

  // An output j that reads a set operator u of which every input stands for ordered keys.
  ghost predicate OverSet(g: Graph, nodes: seq<Node>, j: nat, u: nat)
    requires Forest(g) && Fits(g, nodes) && Fresh(nodes)
  {
    && j < |nodes| && u < |nodes| && g.preds[j] == [u] && nodes[j].op.Output? && 2 <= |g.preds[u]|
    && (nodes[u].op.Union? || nodes[u].op.Intersection? || nodes[u].op.Difference?)
    && AllOrdered(Denotations(g, nodes, u))
  }

  // The rows of one key that the operator is meant to deliver.
  ghost predicate RowsAre(out: seq<Row>, op: Op, streams: seq<seq<Row>>, key: int)
    requires 2 <= |streams|
  {
    match op
    case Union => UnionRows(out, streams, key)
    case Intersection => MeetRows(out, streams, key)
    case _ => SurplusRows(out, streams, key)
  }

  // The keys in order, each with the rows that are meant.
  ghost predicate HoldsSet(out: seq<Row>, op: Op, streams: seq<seq<Row>>)
    requires 2 <= |streams|
  {
    Ordered(out) && forall key :: RowsAre(out, op, streams, key)
  }

  lemma SetMeans(op: Op, streams: seq<seq<Row>>)
    requires 2 <= |streams| && AllOrdered(streams) && (op.Union? || op.Intersection? || op.Difference?)
    ensures HoldsSet(Rest(op, streams), op, streams)
  {
    hide Rest, AllOrdered, SetMeaning.Count, Most, Fewest, Surplus, UnionRows, MeetRows, SurplusRows;
    match op {
      case Union => UnionMeans(streams);
      case Intersection => IntersectionMeans(streams);
      case Difference => DifferenceMeans(streams);
    }
    forall key ensures RowsAre(Rest(op, streams), op, streams, key) {
      match op
      case Union => UnionDelivers(streams, key);
      case Intersection => IntersectionDelivers(streams, key);
      case Difference => DifferenceDelivers(streams, key);
    }
  }

  // What the output stands for.
  lemma OutputMeansSet(g: Graph, nodes: seq<Node>, j: nat, u: nat)
    requires Forest(g) && Fits(g, nodes) && Fresh(nodes) && OverSet(g, nodes, j, u)
    ensures !HasSuccessor(g, j) && HoldsSet(Denote(g, nodes, j), nodes[u].op, Denotations(g, nodes, u))
  {
    if HasSuccessor(g, j) {
      SourceIsNoOutput(g, nodes, j);
    }
    hide Forest, Rest, AllOrdered, Ordered, RowsAre;
    SetMeans(nodes[u].op, Denotations(g, nodes, u));
    assert Denotations(g, nodes, j) == [Denote(g, nodes, u)];
  }

  // After run(), every output over a union, intersection or difference of ordered trees
  // holds ordered keys, each as often as in the input that has it most often, in the one
  // that has it least often, or in the first one beyond the most of the others; and of each
  // key the rows that SetRows says.
  method RunSets(e: E.Engine) returns (ok: bool)
    requires e.Valid() && Fresh(e.View())
    requires forall j :: 0 <= j < |e.functors| ==> e.functors[j].produced == []
    modifies e.All()
    ensures e.Valid() && (ok <==> e.functors != [])
    ensures forall j: nat, u: nat :: old(OverSet(e.g, e.View(), j, u)) ==>
      j < |e.functors| && e.functors[j].op.Output? &&
      HoldsSet(e.functors[j].op.values, old(e.View())[u].op, old(Denotations(e.g, e.View(), u)))
  {
    ghost var nodes := e.View();
    hide Forest, Fits, Denote, Denotations, Fresh, HasSuccessor, HoldsSet;
    forall j: nat, u: nat | OverSet(e.g, nodes, j, u)
      ensures !HasSuccessor(e.g, j) && e.functors[j].isOutput
      ensures HoldsSet(Denote(e.g, nodes, j), nodes[u].op, Denotations(e.g, nodes, u))
    {
      OutputMeansSet(e.g, nodes, j, u);
      e.FunctorValid(j);
    }
    ok := E.RunFresh(e);
  }
}
