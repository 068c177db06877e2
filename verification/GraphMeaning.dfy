// The meaning of a whole graph of functors as a function on sequences, without
// scheduler, flags or cursors.
module GraphMeaning {
  import opened Operators
  import opened Dataflow
  import opened StreamMeaning
  import TopN

  // An operator that has not run yet.
  predicate FreshOp(op: Op) {
    match op
    case RawData(_, index) => index == -1
    case Concat(at) => at == 0
    case GroupBy(agg, _, _) => !agg.grouping
    case MaxN(_, kept, outIndex) => kept == [] && outIndex == -1
    case Output(values) => values == []
    case _ => true
  }

  // An operator as a function of its complete input streams. The ordered set
  // operators are characterised in SetMeaning by what they deliver.
  function Meaning(op: Op, inputs: seq<seq<Row>>): (r: seq<Row>)
    requires Arity(op, |inputs|) && FreshOp(op)
  {
    match op
    case RawData(rows, _) => rows
    case Filter(keep) => Matching(keep, inputs[0])
    case Concat(_) => Flatten(inputs)
    case GroupBy(agg, _, _) => Records(agg.kind, Runs(inputs[0]))
    case MaxN(limit, _, _) => TopN.Kept(limit, [], inputs[0])
    case Output(_) => inputs[0]
    case _ => Rest(op, inputs)
  }

  lemma MeaningIs(op: Op, inputs: seq<seq<Row>>)
    requires Arity(op, |inputs|) && FreshOp(op)
    ensures Rest(op, inputs) == Meaning(op, inputs)
  {
    hide Rest, Records, Runs, TopN.Kept, Matching, Flatten;
    match op
    case RawData(rows, _) =>
      assert inputs == [];
      if rows == [] {
        EmptySourceMeans();
      } else {
        SourceMeans(rows, -1);
      }
    case Filter(keep) =>
      assert inputs == [inputs[0]];
      FilterMeans(keep, inputs[0]);
    case Concat(_) =>
      ConcatMeans(inputs, 0);
      assert inputs[0..] == inputs;
    case GroupBy(agg, lastGroup, row) =>
      assert inputs == [inputs[0]];
      GroupByDelivers(agg, lastGroup, row, inputs[0]);
    case MaxN(limit, _, _) =>
      assert inputs == [inputs[0]];
      TopN.MaxNDelivers(limit, [], inputs[0]);
    case Output(values) =>
      assert inputs == [inputs[0]];
      OutputMeans(values, inputs[0]);
    case _ =>
  }

  // Nothing has run yet: every operator is fresh and no functor holds a value.
  ghost predicate Fresh(nodes: seq<Node>) {
    forall i :: 0 <= i < |nodes| ==> !nodes[i].hasValue && FreshOp(nodes[i].op)
  }

  // What functor i of the graph stands for.
  ghost function Denote(g: Graph, nodes: seq<Node>, i: nat): (r: seq<Row>)
    requires Forest(g) && Fits(g, nodes) && Fresh(nodes) && i < |nodes|
    decreases g.rank[i], 1
  {
    Meaning(nodes[i].op, Denotations(g, nodes, i))
  }

  ghost function Denotations(g: Graph, nodes: seq<Node>, i: nat): (r: seq<seq<Row>>)
    requires Forest(g) && Fits(g, nodes) && Fresh(nodes) && i < |nodes|
    ensures |r| == |g.preds[i]|
    ensures forall k :: 0 <= k < |r| ==> r[k] == Denote(g, nodes, g.preds[i][k])
    decreases g.rank[i], 0
  {
    seq(|g.preds[i]|, k requires 0 <= k < |g.preds[i]| => Denote(g, nodes, g.preds[i][k]))
  }

  // What a fresh functor will deliver is what it stands for.
  lemma {:induction false} FutureIsDenoted(g: Graph, nodes: seq<Node>, i: nat)
    requires Forest(g) && Fits(g, nodes) && Fresh(nodes) && i < |nodes|
    ensures Future(g, nodes, i) == Denote(g, nodes, i)
    decreases g.rank[i]
  {
    var a, b := Inputs(g, nodes, i), Denotations(g, nodes, i);
    hide Rest, Meaning;
    forall k | 0 <= k < |a| ensures a[k] == b[k] {
      FutureIsDenoted(g, nodes, g.preds[i][k]);
    }
    assert a == b;
    MeaningIs(nodes[i].op, a);
  }
}
