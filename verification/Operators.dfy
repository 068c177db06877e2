// The operators of the dataflow engine. An operator's `process()` sees, for each
// of its upstream functors, either the value that functor holds or nothing; it
// updates its own state, may deliver a value, and takes some of the values.
module Operators {

  datatype Option<+T> = None | Some(value: T)

  // A record with the two columns the operators look at: the one compared or
  // grouped by, and the one carried or aggregated.
  datatype Row = Row(key: int, val: int)

  // -------------------------------------------------------------- aggregators

  datatype AggKind = Sum | Avg | Max | Min | Count

  // m_data, m_count and m_grouping of the aggregator classes
  datatype Agg = Agg(kind: AggKind, data: int, count: nat, grouping: bool)

  function BeginGroup(a: Agg): (r: Agg) {
    a.(data := 0, count := if a.kind.Avg? then 0 else a.count)
  }

  function GroupOne(a: Agg, v: int): (r: Agg) {
    match a.kind
    case Sum => a.(data := a.data + v, grouping := true)
    case Avg => a.(data := a.data + v, count := a.count + 1, grouping := true)
    case Max => a.(data := if a.data > v then a.data else v, grouping := true)
    case Min => a.(data := if a.data < v then a.data else v, grouping := true)
    case Count => a.(data := a.data + 1, grouping := true)
  }

  // m_data / m_count with m_count of type size_t: the signed sum is converted to
  // a 64-bit unsigned number, divided, and converted back.
  function UnsignedQuotient(data: int, count: nat): (r: int)
    requires 0 < count
  {
    var q := (data % 0x1_0000_0000_0000_0000) / count;
    if q >= 0x8000_0000_0000_0000 then q - 0x1_0000_0000_0000_0000 else q
  }

  function EndGroup(a: Agg): (r: Agg) {
    if a.kind.Avg? then
      if a.count == 0 then a else a.(data := UnsignedQuotient(a.data, a.count), grouping := false)
    else a.(grouping := false)
  }

  // ---------------------------------------------------------------- operators

  datatype Op =
    | RawData(rows: seq<Row>, index: int)
    | Filter(keep: Row -> bool)
    | Concat(at: nat)
    | GroupBy(agg: Agg, lastGroup: int, row: Row)
    | Union
    | Intersection
    | Difference
    | MaxN(limit: nat, kept: seq<Row>, outIndex: int)
    | Output(values: seq<Row>)

  predicate Arity(op: Op, n: nat) {
    match op
    case RawData(_, index) => n == 0 && -1 <= index
    case Filter(_) => n == 1
    case GroupBy(agg, _, _) => n == 1 && (agg.grouping && agg.kind.Avg? ==> 0 < agg.count)
    case MaxN(_, _, outIndex) => n == 1 && -1 <= outIndex
    case Output(_) => n == 1
    case Concat(_) => 1 <= n
    case _ => true
  }

  // The result of one call of process(): the operator's new state, whether it
  // returned true, the value it then holds, and the inputs it consumed.
  datatype Outcome = Outcome(op: Op, ok: bool, value: Row, taken: set<nat>)

  const NO_ROW := Row(0, 0)

  function Failed(op: Op): (r: Outcome) {
    Outcome(op, false, NO_ROW, {})
  }

  // The loop of concat: the first stream from `at` on that has a value.
  function SkipEmpty(heads: seq<Option<Row>>, at: nat): (r: nat)
    ensures at <= r
    ensures at <= |heads| ==> r <= |heads|
    ensures r < |heads| ==> heads[r].Some?
    ensures forall i :: at <= i < r && i < |heads| ==> heads[i].None?
    decreases |heads| - at
  {
    if at < |heads| && heads[at].None? then SkipEmpty(heads, at + 1) else at
  }

  // The first loop of union: among the first n streams, the first one holding a
  // least key.
  function Least(heads: seq<Option<Row>>, n: nat): (r: Option<nat>)
    requires n <= |heads|
    ensures r.None? <==> forall i :: 0 <= i < n ==> heads[i].None?
    ensures r.Some? ==> r.value < n && heads[r.value].Some?
    ensures forall i :: r.Some? && 0 <= i < n && heads[i].Some? ==> heads[r.value].value.key <= heads[i].value.key
    ensures forall i :: r.Some? && 0 <= i < r.value && heads[i].Some? ==> heads[r.value].value.key < heads[i].value.key
  {
    if n == 0 then None
    else
      var r := Least(heads, n - 1);
      if heads[n - 1].None? then r
      else if r.None? || heads[r.value].value.key > heads[n - 1].value.key then Some(n - 1)
      else r
  }

  // The streams that hold this key.
  function Holding(heads: seq<Option<Row>>, key: int): (r: set<nat>) {
    set i: nat | i < |heads| && heads[i].Some? && heads[i].value.key == key
  }

  predicate AllPresent(heads: seq<Option<Row>>) {
    forall i :: 0 <= i < |heads| ==> heads[i].Some?
  }

  predicate AllEqual(heads: seq<Option<Row>>)
    requires 0 < |heads| && AllPresent(heads)
  {
    forall i :: 0 <= i < |heads| ==> heads[i].value.key == heads[0].value.key
  }

  function ProcessUnion(heads: seq<Option<Row>>): (r: Outcome) {
    if |heads| < 2 then Failed(Union)
    else
      var least := Least(heads, |heads|);
      if least.None? then Failed(Union)
      else
        var row := heads[least.value].value;
        Outcome(Union, true, row, Holding(heads, row.key))
  }

  function ProcessIntersection(heads: seq<Option<Row>>): (r: Outcome) {
    if |heads| < 2 || !AllPresent(heads) then Failed(Intersection)
    else
      var equal := AllEqual(heads);
      var least := heads[Least(heads, |heads|).value].value.key;
      Outcome(Intersection, equal, if equal then heads[|heads| - 1].value else NO_ROW, Holding(heads, least))
  }

  function ProcessDifference(heads: seq<Option<Row>>): (r: Outcome) {
    if |heads| < 2 || heads[0].None? then Failed(Difference)
    else
      var least := heads[Least(heads, |heads|).value].value.key;
      var holding := Holding(heads, least);
      if holding != {0} then Outcome(Difference, false, NO_ROW, holding)
      else Outcome(Difference, true, heads[0].value, {0})
  }

  function ProcessGroupBy(op: Op, head: Option<Row>): (r: Outcome)
    requires op.GroupBy?
  {
    var agg := op.agg;
    match head
    case None =>
      if agg.grouping then
        var ended := EndGroup(agg);
        var row := op.row.(val := ended.data);
        Outcome(GroupBy(ended, op.lastGroup, row), true, row, {})
      else Failed(op)
    case Some(input) =>
      if !agg.grouping then
        Outcome(GroupBy(GroupOne(BeginGroup(agg), input.val), input.key, op.row.(key := input.key)),
                false, NO_ROW, {0})
      else if op.lastGroup == input.key then
        Outcome(op.(agg := GroupOne(agg, input.val)), false, NO_ROW, {0})
      else
        var ended := EndGroup(agg);
        var row := Row(input.key, ended.data);
        Outcome(GroupBy(GroupOne(BeginGroup(ended), input.val), input.key, row), true, row, {0})
  }

  // max_n::insert: the new row goes in front of the first smaller one.
  function Insert(kept: seq<Row>, row: Row): (r: seq<Row>)
    ensures |r| == |kept| + 1
  {
    if kept == [] then [row]
    else if kept[|kept| - 1].val < row.val then Insert(kept[..|kept| - 1], row) + [kept[|kept| - 1]]
    else kept + [row]
  }

  function InsertBounded(limit: nat, kept: seq<Row>, row: Row): (r: seq<Row>) {
    var more := Insert(kept, row);
    if |more| > limit then more[..|more| - 1] else more
  }

  function ProcessMaxN(op: Op, head: Option<Row>): (r: Outcome)
    requires op.MaxN?
  {
    if head.Some? then
      Outcome(op.(kept := InsertBounded(op.limit, op.kept, head.value)), false, NO_ROW, {0})
    else if op.kept == [] then Failed(op)
    else
      var next := op.(outIndex := op.outIndex + 1);
      if 0 <= next.outIndex < |op.kept| then Outcome(next, true, op.kept[next.outIndex], {})
      else Failed(next)
  }

  function ProcessRawData(op: Op): (r: Outcome)
    requires op.RawData?
  {
    if op.rows == [] then Failed(op)
    else
      var next := op.(index := op.index + 1);
      if 0 <= next.index < |op.rows| then Outcome(next, true, op.rows[next.index], {})
      else Failed(next)
  }

  function Process(op: Op, heads: seq<Option<Row>>): (r: Outcome)
    requires Arity(op, |heads|)
  {
    match op
    case RawData(_, _) => ProcessRawData(op)
    case Filter(keep) =>
      if heads[0].None? then Failed(op)
      else if keep(heads[0].value) then Outcome(op, true, heads[0].value, {0})
      else Outcome(op, false, NO_ROW, {0})
    case Concat(at) =>
      var next := SkipEmpty(heads, at);
      if next >= |heads| then Failed(Concat(next))
      else Outcome(Concat(next), true, heads[next].value, {next})
    case GroupBy(_, _, _) => ProcessGroupBy(op, heads[0])
    case Union => ProcessUnion(heads)
    case Intersection => ProcessIntersection(heads)
    case Difference => ProcessDifference(heads)
    case MaxN(_, _, _) => ProcessMaxN(op, heads[0])
    case Output(values) =>
      if heads[0].None? then Failed(op)
      else Outcome(Output(values + [heads[0].value]), true, heads[0].value, {0})
  }

  // ------------------------------------------- an operator on complete streams

  function Heads(streams: seq<seq<Row>>): (r: seq<Option<Row>>)
    ensures |r| == |streams|
  {
    seq(|streams|, i requires 0 <= i < |streams| => if streams[i] == [] then None else Some(streams[i][0]))
  }

  function Advance(streams: seq<seq<Row>>, taken: set<nat>): (r: seq<seq<Row>>)
    ensures |r| == |streams|
  {
    seq(|streams|, i requires 0 <= i < |streams| =>
      if i in taken && streams[i] != [] then streams[i][1..] else streams[i])
  }

  function TotalLength(streams: seq<seq<Row>>): (r: nat) {
    if streams == [] then 0 else |streams[0]| + TotalLength(streams[1..])
  }

  // Values the operator can still deliver without consuming anything.
  function Pending(op: Op): (r: nat) {
    match op
    case RawData(rows, index) => if index < |rows| then |rows| - index else 0
    case GroupBy(agg, _, _) => if agg.grouping then 1 else 0
    case MaxN(_, kept, outIndex) => if outIndex < |kept| then |kept| - outIndex else 0
    case _ => 0
  }

  // A call takes only values that are there, and makes progress unless it fails
  // taking nothing; and then it would fail again.
  ghost predicate Lawful(op: Op, streams: seq<seq<Row>>)
    requires Arity(op, |streams|)
  {
    var o := Process(op, Heads(streams));
    && Arity(o.op, |streams|)
    && (forall i :: i in o.taken ==> i < |streams| && streams[i] != [])
    && (o.ok || o.taken != {} ==>
         2 * TotalLength(Advance(streams, o.taken)) + Pending(o.op) < 2 * TotalLength(streams) + Pending(op))
    && (!o.ok && o.taken == {} ==>
         var again := Process(o.op, Heads(streams)); !again.ok && again.taken == {})
    && (o.op.Output? <==> op.Output?)
  }

  lemma TakesAtLeast(streams: seq<seq<Row>>, taken: set<nat>)
    requires forall i :: i in taken ==> i < |streams| && streams[i] != []
    ensures TotalLength(Advance(streams, taken)) <= TotalLength(streams)
    ensures taken != {} ==> TotalLength(Advance(streams, taken)) < TotalLength(streams)
  {
    AdvanceShortens(streams, taken);
  }

  lemma UnionLaws(streams: seq<seq<Row>>)
    ensures Lawful(Union, streams)
  {
    var heads := Heads(streams);
    var o := Process(Union, heads);
    LeastHolds(heads);
    hide Least, TotalLength, Advance;
    assert forall i :: i in o.taken ==> i < |streams| && heads[i].Some?;
    TakesAtLeast(streams, o.taken);
  }

  lemma IntersectionLaws(streams: seq<seq<Row>>)
    ensures Lawful(Intersection, streams)
  {
    var heads := Heads(streams);
    var o := Process(Intersection, heads);
    LeastHolds(heads);
    hide Least, TotalLength, Advance;
    assert forall i :: i in o.taken ==> i < |streams| && heads[i].Some?;
    TakesAtLeast(streams, o.taken);
  }

  lemma DifferenceLaws(streams: seq<seq<Row>>)
    ensures Lawful(Difference, streams)
  {
    var heads := Heads(streams);
    var o := Process(Difference, heads);
    LeastHolds(heads);
    hide Least, TotalLength, Advance;
    assert forall i :: i in o.taken ==> i < |streams| && heads[i].Some?;
    TakesAtLeast(streams, o.taken);
  }

  lemma GroupLaws(op: Op, streams: seq<seq<Row>>)
    requires Arity(op, |streams|) && op.GroupBy?
    ensures Lawful(op, streams)
  {
    TakesAtLeast(streams, Process(op, Heads(streams)).taken);
    hide UnsignedQuotient, TotalLength;
  }

  lemma SourceLaws(op: Op, streams: seq<seq<Row>>)
    requires Arity(op, |streams|) && (op.RawData? || op.MaxN?)
    ensures Lawful(op, streams)
  {
    TakesAtLeast(streams, Process(op, Heads(streams)).taken);
    hide TotalLength;
  }

  lemma StreamLaws(op: Op, streams: seq<seq<Row>>)
    requires Arity(op, |streams|) && (op.Filter? || op.Concat? || op.Output?)
    ensures Lawful(op, streams)
  {
    TakesAtLeast(streams, Process(op, Heads(streams)).taken);
    if op.Concat? {
      SkipAgain(Heads(streams), op.at);
    }
    hide TotalLength;
  }

  lemma ProcessLaws(op: Op, streams: seq<seq<Row>>)
    requires Arity(op, |streams|)
    ensures Lawful(op, streams)
  {
    hide Lawful, Arity, Process;
    match op
    case RawData(_, _) => SourceLaws(op, streams);
    case MaxN(_, _, _) => SourceLaws(op, streams);
    case GroupBy(_, _, _) => GroupLaws(op, streams);
    case Filter(_) => StreamLaws(op, streams);
    case Concat(_) => StreamLaws(op, streams);
    case Output(_) => StreamLaws(op, streams);
    case Union => UnionLaws(streams);
    case Intersection => IntersectionLaws(streams);
    case Difference => DifferenceLaws(streams);
  }

  lemma LeastHolds(heads: seq<Option<Row>>)
    ensures
      var least := Least(heads, |heads|);
      least.Some? ==> least.value in Holding(heads, heads[least.value].value.key)
  {
  }

  lemma SkipAgain(heads: seq<Option<Row>>, at: nat)
    ensures SkipEmpty(heads, SkipEmpty(heads, at)) == SkipEmpty(heads, at)
  {
  }

  // What the operator delivers from now on when each input stream is exactly
  // what is left of it, and "no value" really means the end of that stream.
  function Rest(op: Op, streams: seq<seq<Row>>): (r: seq<Row>)
    requires Arity(op, |streams|)
    decreases 2 * TotalLength(streams) + Pending(op)
  {
    var o := Process(op, Heads(streams));
    if !o.ok && o.taken == {} then []
    else
      ProcessLaws(op, streams);
      (if o.ok then [o.value] else []) + Rest(o.op, Advance(streams, o.taken))
  }

  // One call of process() delivers the next part of Rest, or nothing is left.
  lemma RestUnfolds(op: Op, streams: seq<seq<Row>>)
    requires Arity(op, |streams|)
    ensures
      var o := Process(op, Heads(streams));
      && Arity(o.op, |streams|)
      && Rest(op, streams) == (if o.ok then [o.value] else []) + Rest(o.op, Advance(streams, o.taken))
      && (!o.ok && o.taken == {} ==> Rest(op, streams) == [])
  {
    ProcessLaws(op, streams);
    var o := Process(op, Heads(streams));
    hide Process;
    if !o.ok && o.taken == {} {
      assert Advance(streams, o.taken) == streams;
    }
  }

  lemma {:induction false} AdvanceShortens(streams: seq<seq<Row>>, taken: set<nat>)
    requires forall i :: i in taken ==> i < |streams| && streams[i] != []
    ensures TotalLength(Advance(streams, taken)) + |taken| <= TotalLength(streams)
  {
    if streams == [] {
      assert taken == {};
    } else {
      var taken' := set i | i in taken && i != 0 :: i - 1;
      forall j: nat ensures j in taken' <==> j + 1 in taken {
        assert j + 1 in taken ==> j == (j + 1) - 1;
      }
      ShiftCard(taken, taken');
      AdvanceShortens(streams[1..], taken');
      assert Advance(streams, taken)[1..] == Advance(streams[1..], taken');
    }
  }

  lemma ShiftCard(a: set<nat>, b: set<nat>)
    requires forall j: nat :: j in b <==> j + 1 in a
    ensures |a| == |b| + if 0 in a then 1 else 0
    decreases |a|
  {
    if i :| i in a && i != 0 {
      assert i - 1 in b;
      ShiftCard(a - {i}, b - {i - 1});
    } else {
      assert forall j :: j in b ==> j + 1 in a;
      assert b == {};
      assert a == {} || a == {0};
    }
  }
}
