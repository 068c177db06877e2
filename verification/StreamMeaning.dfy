// What filter, concat, groupby and the sources deliver, said without running
// them: as functions of whole input sequences.
module StreamMeaning {
  import opened Operators

  lemma OneStream(s: seq<Row>)
    ensures Heads([s]) == [if s == [] then None else Some(s[0])]
    ensures s != [] ==> Advance([s], {0}) == [s[1..]]
    ensures Advance([s], {}) == [s]
  {
  }

  // One round of an operator with a single upstream.
  lemma RestOfOne(op: Op, s: seq<Row>)
    requires Arity(op, 1)
    ensures
      var o := Process(op, [if s == [] then None else Some(s[0])]);
      && Arity(o.op, 1) && o.taken <= {0}
      && (o.taken != {} ==> s != [])
      && Rest(op, [s]) == (if o.ok then [o.value] else []) + Rest(o.op, [if o.taken == {} then s else s[1..]])
      && (!o.ok && o.taken == {} ==> Rest(op, [s]) == [])
  {
    OneStream(s);
    RestUnfolds(op, [s]);
    ProcessLaws(op, [s]);
    var o := Process(op, Heads([s]));
    hide Process, Rest;
    assert forall i :: i in o.taken ==> i == 0;
    assert o.taken == {} || o.taken == {0};
  }

  // ------------------------------------------------------ sources and outputs

  // A source delivers its rows, all of them, in order.
  lemma {:induction false} SourceMeans(rows: seq<Row>, index: int)
    requires -1 <= index < |rows|
    ensures Rest(RawData(rows, index), []) == rows[index + 1..]
    decreases |rows| - index
  {
    var op := RawData(rows, index);
    RestUnfolds(op, []);
    assert Advance([], {}) == [];
    if index + 1 < |rows| {
      SourceMeans(rows, index + 1);
    }
  }

  lemma EmptySourceMeans()
    ensures Rest(RawData([], -1), []) == []
  {
    RestUnfolds(RawData([], -1), []);
  }

  // An output takes whatever its upstream delivers.
  lemma {:induction false} OutputMeans(values: seq<Row>, s: seq<Row>)
    ensures Rest(Output(values), [s]) == s
    decreases |s|
  {
    RestOfOne(Output(values), s);
    hide Rest;
    if s != [] {
      OutputMeans(values + [s[0]], s[1..]);
    }
  }

  // --------------------------------------------------------------------- filter

  function Matching(keep: Row -> bool, s: seq<Row>): (r: seq<Row>) {
    if s == [] then [] else (if keep(s[0]) then [s[0]] else []) + Matching(keep, s[1..])
  }

  lemma {:induction false} FilterMeans(keep: Row -> bool, s: seq<Row>)
    ensures Rest(Filter(keep), [s]) == Matching(keep, s)
    decreases |s|
  {
    RestOfOne(Filter(keep), s);
    hide Rest;
    if s != [] {
      FilterMeans(keep, s[1..]);
    }
  }

  // --------------------------------------------------------------------- concat

  function Flatten(streams: seq<seq<Row>>): (r: seq<Row>) {
    if streams == [] then [] else streams[0] + Flatten(streams[1..])
  }

  lemma {:induction false} FlattenFrom(streams: seq<seq<Row>>, at: nat, next: nat)
    requires at <= next <= |streams| && forall i :: at <= i < next ==> streams[i] == []
    ensures Flatten(streams[at..]) == Flatten(streams[next..])
    decreases next - at
  {
    if at < next {
      assert streams[at..][1..] == streams[at + 1..];
      FlattenFrom(streams, at + 1, next);
    }
  }

  lemma AdvanceOne(streams: seq<seq<Row>>, at: nat)
    requires at < |streams| && streams[at] != []
    ensures Advance(streams, {at}) == streams[at := streams[at][1..]]
  {
  }

  lemma FlattenStep(streams: seq<seq<Row>>, at: nat)
    requires at < |streams| && streams[at] != []
    ensures Flatten(streams[at..]) == [streams[at][0]] + Flatten(streams[at := streams[at][1..]][at..])
  {
    var s, s' := streams[at..], streams[at := streams[at][1..]][at..];
    assert s'[1..] == s[1..];
    assert s[0] == [s[0][0]] + s'[0];
    hide Flatten;
    assert Flatten(s) == [s[0][0]] + s'[0] + Flatten(s[1..]) by { Unfold(s); }
    assert Flatten(s') == s'[0] + Flatten(s[1..]) by { Unfold(s'); }
  }

  lemma Unfold(streams: seq<seq<Row>>)
    requires streams != []
    ensures Flatten(streams) == streams[0] + Flatten(streams[1..])
  {
  }

  // The one-way stream index of concat: the streams from it on, end to end.
  lemma {:induction false} ConcatMeans(streams: seq<seq<Row>>, at: nat)
    requires 0 < |streams| && at <= |streams|
    ensures Rest(Concat(at), streams) == Flatten(streams[at..])
    decreases TotalLength(streams)
  {
    var op := Concat(at);
    var heads := Heads(streams);
    var next := SkipEmpty(heads, at);
    RestUnfolds(op, streams);
    forall i | at <= i < next ensures streams[i] == [] {
      assert heads[i].None?;
    }
    hide Rest, SkipEmpty;
    FlattenFrom(streams, at, next);
    if next < |streams| {
      AdvanceOne(streams, next);
      TakesAtLeast(streams, {next});
      ConcatMeans(Advance(streams, {next}), next);
      FlattenStep(streams, next);
    } else {
      assert Flatten(streams[next..]) == [];
    }
  }

  // -------------------------------------------------------------------- groupby

  // The number of rows at the front that carry this key.
  function RunLength(s: seq<Row>, key: int): (n: nat)
    ensures n <= |s|
    ensures forall i :: 0 <= i < n ==> s[i].key == key
    ensures n < |s| ==> s[n].key != key
  {
    if s == [] || s[0].key != key then 0 else 1 + RunLength(s[1..], key)
  }

  // The maximal runs of equal keys.
  function Runs(s: seq<Row>): (r: seq<seq<Row>>)
    ensures Flatten(r) == s
    ensures forall i :: 0 <= i < |r| ==> r[i] != []
    ensures forall i, j :: 0 <= i < |r| && 0 <= j < |r[i]| ==> r[i][j].key == r[i][0].key
    ensures forall i :: 0 <= i < |r| - 1 ==> r[i][0].key != r[i + 1][0].key
    decreases |s|
  {
    if s == [] then []
    else
      var n := RunLength(s, s[0].key);
      assert s == s[..n] + s[n..];
      var rest := Runs(s[n..]);
      assert rest != [] ==> rest[0][0] == s[n];
      [s[..n]] + rest
  }

  function SumOf(run: seq<Row>): (r: int) {
    if run == [] then 0 else SumOf(run[..|run| - 1]) + run[|run| - 1].val
  }

  // The running maximum and minimum both start from 0.
  function MaxOf(run: seq<Row>): (r: int) {
    if run == [] then 0
    else var m := MaxOf(run[..|run| - 1]); if m > run[|run| - 1].val then m else run[|run| - 1].val
  }

  function MinOf(run: seq<Row>): (r: int) {
    if run == [] then 0
    else var m := MinOf(run[..|run| - 1]); if m < run[|run| - 1].val then m else run[|run| - 1].val
  }

  // What an aggregator holds after a group so far.
  function Gathered(kind: AggKind, run: seq<Row>): (r: int) {
    match kind
    case Max => MaxOf(run)
    case Min => MinOf(run)
    case Count => |run|
    case _ => SumOf(run)
  }

  function Aggregate(kind: AggKind, run: seq<Row>): (r: int)
    requires run != []
  {
    if kind.Avg? then UnsignedQuotient(SumOf(run), |run|) else Gathered(kind, run)
  }

  // An aggregator in the middle of a group.
  predicate InGroup(agg: Agg, run: seq<Row>) {
    run != [] && agg.grouping && agg.data == Gathered(agg.kind, run) && (agg.kind.Avg? ==> agg.count == |run|)
  }

  lemma GroupOneGathers(agg: Agg, run: seq<Row>, v: Row)
    requires InGroup(agg, run)
    ensures InGroup(GroupOne(agg, v.val), run + [v])
  {
    assert (run + [v])[..|run|] == run;
  }

  lemma BeginGathers(agg: Agg, v: Row)
    ensures InGroup(GroupOne(BeginGroup(agg), v.val), [v])
  {
    var run := [v];
    assert run[..|run| - 1] == [];
    assert SumOf(run) == SumOf([]) + v.val;
    assert MaxOf(run) == if MaxOf([]) > v.val then MaxOf([]) else v.val;
    assert MinOf(run) == if MinOf([]) < v.val then MinOf([]) else v.val;
  }

  lemma EndAggregates(agg: Agg, run: seq<Row>)
    requires InGroup(agg, run)
    ensures EndGroup(agg).data == Aggregate(agg.kind, run) && !EndGroup(agg).grouping
    ensures EndGroup(agg).kind == agg.kind
  {
    hide UnsignedQuotient;
  }

  // The records that the groups make: each carries the aggregate of its own
  // group, but the key of the group after it, except the last one.
  function Records(kind: AggKind, runs: seq<seq<Row>>): (r: seq<Row>)
    requires forall i :: 0 <= i < |runs| ==> runs[i] != []
    ensures |r| == |runs|
    ensures forall i :: 0 <= i < |r| ==> r[i].val == Aggregate(kind, runs[i])
    ensures forall i :: 0 <= i < |r| ==> r[i].key == runs[if i + 1 < |runs| then i + 1 else i][0].key
  {
    if runs == [] then []
    else
      [Row(runs[if 1 < |runs| then 1 else 0][0].key, Aggregate(kind, runs[0]))] + Records(kind, runs[1..])
  }

  predicate SameKey(run: seq<Row>, key: int) {
    run != [] && forall i :: 0 <= i < |run| ==> run[i].key == key
  }

  lemma RunsOf(run: seq<Row>, s: seq<Row>, key: int)
    requires SameKey(run, key) && (s != [] ==> s[0].key != key)
    ensures Runs(run + s) == [run] + Runs(s)
  {
    RunLengthOf(run, s, key);
    assert (run + s)[..|run|] == run && (run + s)[|run|..] == s;
  }

  lemma {:induction false} RunLengthOf(run: seq<Row>, s: seq<Row>, key: int)
    requires (forall i :: 0 <= i < |run| ==> run[i].key == key) && (s != [] ==> s[0].key != key)
    ensures RunLength(run + s, key) == |run|
    decreases |run|
  {
    if run == [] {
      assert run + s == s;
    } else {
      assert (run + s)[1..] == run[1..] + s;
      RunLengthOf(run[1..], s, key);
    }
  }

  // One round of groupby.
  lemma GroupRound(op: Op, s: seq<Row>)
    requires op.GroupBy? && Arity(op, 1)
    ensures s == [] && op.agg.grouping ==>
      Rest(op, [s]) == [op.row.(val := EndGroup(op.agg).data)]
    ensures s == [] && !op.agg.grouping ==> Rest(op, [s]) == []
    ensures s != [] && (op.agg.grouping && s[0].key == op.lastGroup) ==>
      Rest(op, [s]) == Rest(Joined(op, s[0].val), [s[1..]])
    ensures s != [] && !op.agg.grouping ==>
      Rest(op, [s]) == Rest(Opened(op.agg, op.row, s[0]), [s[1..]])
    ensures s != [] && op.agg.grouping && s[0].key != op.lastGroup ==>
      Rest(op, [s]) ==
        [Row(s[0].key, EndGroup(op.agg).data)] + Rest(Opened(EndGroup(op.agg), Row(0, EndGroup(op.agg).data), s[0]), [s[1..]])
  {
    RestOfOne(op, s);
    hide Rest, UnsignedQuotient, BeginGroup, GroupOne;
    if s == [] && op.agg.grouping {
      RestOfOne(ProcessGroupBy(op, None).op, []);
    }
  }

  // The operator after one more row of the same group ...
  function Joined(op: Op, v: int): (r: Op)
    requires op.GroupBy?
    ensures Arity(r, 1)
  {
    op.(agg := GroupOne(op.agg, v))
  }

  // ... and after the first row of a group.
  function Opened(agg: Agg, row: Row, first: Row): (r: Op)
    ensures Arity(r, 1)
  {
    GroupBy(GroupOne(BeginGroup(agg), first.val), first.key, row.(key := first.key))
  }

  lemma RecordsCons(kind: AggKind, run: seq<Row>, runs: seq<seq<Row>>)
    requires run != [] && forall i :: 0 <= i < |runs| ==> runs[i] != []
    ensures Records(kind, [run] + runs) ==
      [Row(if runs == [] then run[0].key else runs[0][0].key, Aggregate(kind, run))] + Records(kind, runs)
  {
    assert ([run] + runs)[1..] == runs;
    hide Aggregate;
  }

  lemma FirstRun(s: seq<Row>)
    requires s != []
    ensures Runs(s) != [] && Runs(s)[0] != [] && Runs(s)[0][0] == s[0]
  {
  }

  // In the middle of a group, with `run` gathered and `s` still to come.
  lemma {:induction false} GroupMeans(op: Op, run: seq<Row>, s: seq<Row>)
    requires op.GroupBy? && InGroup(op.agg, run) && SameKey(run, op.lastGroup) && op.row.key == op.lastGroup
    ensures Rest(op, [s]) == Records(op.agg.kind, Runs(run + s))
    decreases |s|
  {
    hide Rest, UnsignedQuotient, EndGroup, GroupOne, BeginGroup, Records, Runs, InGroup, Aggregate;
    InGroupIs(op.agg, run);
    GroupRound(op, s);
    EndAggregates(op.agg, run);
    if s == [] {
      LastGroup(op.agg.kind, run, op.lastGroup);
    } else if s[0].key == op.lastGroup {
      GroupOneGathers(op.agg, run, s[0]);
      KindKept(op.agg, s[0].val);
      GroupMeans(Joined(op, s[0].val), run + [s[0]], s[1..]);
      assert run + [s[0]] + s[1..] == run + s;
    } else {
      var ended := EndGroup(op.agg);
      BeginGathers(ended, s[0]);
      KindKept(BeginGroup(ended), s[0].val);
      KindKept(ended, s[0].val);
      GroupMeans(Opened(ended, Row(0, ended.data), s[0]), [s[0]], s[1..]);
      NextGroup(op.agg.kind, run, s, op.lastGroup);
    }
  }

  lemma InGroupIs(agg: Agg, run: seq<Row>)
    requires InGroup(agg, run)
    ensures agg.grouping && run != [] && (agg.kind.Avg? ==> 0 < agg.count)
  {
  }

  lemma LastGroup(kind: AggKind, run: seq<Row>, key: int)
    requires SameKey(run, key)
    ensures Records(kind, Runs(run + [])) == [Row(key, Aggregate(kind, run))]
  {
    RunsOf(run, [], key);
    NoRecords(kind);
    hide Runs, Records, Aggregate;
    RecordsCons(kind, run, Runs([]));
  }

  lemma NextGroup(kind: AggKind, run: seq<Row>, s: seq<Row>, key: int)
    requires SameKey(run, key) && s != [] && s[0].key != key
    ensures Records(kind, Runs(run + s)) ==
      [Row(s[0].key, Aggregate(kind, run))] + Records(kind, Runs([s[0]] + s[1..]))
  {
    RunsOf(run, s, key);
    FirstRun(s);
    hide Runs, Records, Aggregate;
    RecordsCons(kind, run, Runs(s));
    assert [s[0]] + s[1..] == s;
  }

  lemma NoRecords(kind: AggKind)
    ensures Runs([]) == [] && Records(kind, []) == []
  {
  }

  lemma KindKept(agg: Agg, v: int)
    ensures GroupOne(agg, v).kind == agg.kind && BeginGroup(agg).kind == agg.kind
  {
  }

  lemma GroupByDelivers(agg: Agg, lastGroup: int, row: Row, s: seq<Row>)
    requires !agg.grouping
    ensures Rest(GroupBy(agg, lastGroup, row), [s]) == Records(agg.kind, Runs(s))
  {
    hide Rest, EndGroup, GroupOne, BeginGroup, Aggregate, Runs, Records, InGroup;
    var op := GroupBy(agg, lastGroup, row);
    GroupRound(op, s);
    if s == [] {
      NoRecords(agg.kind);
    } else {
      BeginGathers(agg, s[0]);
      KindKept(agg, s[0].val);
      KindKept(BeginGroup(agg), s[0].val);
      GroupMeans(Opened(agg, row, s[0]), [s[0]], s[1..]);
      assert [s[0]] + s[1..] == s;
    }
  }

  // groupby delivers one record for each maximal run of equal keys, in order.
  lemma GroupByMeans(agg: Agg, lastGroup: int, row: Row, s: seq<Row>)
    requires !agg.grouping
    ensures
      var runs := Runs(s);
      var out := Rest(GroupBy(agg, lastGroup, row), [s]);
      && |out| == |runs|
      && (forall i :: 0 <= i < |runs| ==> out[i].val == Aggregate(agg.kind, runs[i]))
      && (forall i :: 0 <= i < |runs| ==> out[i].key == runs[if i + 1 < |runs| then i + 1 else i][0].key)
  {
    hide Rest, Aggregate, Runs, Records;
    GroupByDelivers(agg, lastGroup, row, s);
  }

  ghost predicate IsMaximum(run: seq<Row>, m: int) {
    (exists i :: 0 <= i < |run| && run[i].val == m) && forall i :: 0 <= i < |run| ==> run[i].val <= m
  }

  ghost predicate IsMinimum(run: seq<Row>, m: int) {
    (exists i :: 0 <= i < |run| && run[i].val == m) && forall i :: 0 <= i < |run| ==> m <= run[i].val
  }

  // The maximum that starts from 0 is the least bound of the values and 0: it is itself
  // one of them.
  lemma {:induction false} MaxOfBounds(run: seq<Row>)
    ensures 0 <= MaxOf(run) && forall i :: 0 <= i < |run| ==> run[i].val <= MaxOf(run)
    ensures MaxOf(run) == 0 || exists i :: 0 <= i < |run| && run[i].val == MaxOf(run)
  {
    if run != [] {
      var before, last := run[..|run| - 1], |run| - 1;
      MaxOfBounds(before);
      assert forall i :: 0 <= i < last ==> run[i] == before[i];
      assert MaxOf(run) == MaxOf(before) || MaxOf(run) == run[last].val;
    }
  }

  lemma {:induction false} MinOfBounds(run: seq<Row>)
    ensures MinOf(run) <= 0 && forall i :: 0 <= i < |run| ==> MinOf(run) <= run[i].val
    ensures MinOf(run) == 0 || exists i :: 0 <= i < |run| && run[i].val == MinOf(run)
  {
    if run != [] {
      var before, last := run[..|run| - 1], |run| - 1;
      MinOfBounds(before);
      assert forall i :: 0 <= i < last ==> run[i] == before[i];
      assert MinOf(run) == MinOf(before) || MinOf(run) == run[last].val;
    }
  }

  lemma MaxOfIff(run: seq<Row>)
    requires run != []
    ensures IsMaximum(run, Aggregate(Max, run)) <==> exists j :: 0 <= j < |run| && 0 <= run[j].val
  {
    MaxOfBounds(run);
    hide MaxOf;
  }

  // Grouped for its maximum, a group's record carries it exactly if some value of the
  // group is not negative.
  lemma MaximumIff(agg: Agg, lastGroup: int, row: Row, s: seq<Row>)
    requires agg.kind.Max? && !agg.grouping
    ensures
      var runs := Runs(s);
      var out := Rest(GroupBy(agg, lastGroup, row), [s]);
      && |out| == |runs|
      && forall i :: 0 <= i < |runs| ==>
           (IsMaximum(runs[i], out[i].val) <==> exists j :: 0 <= j < |runs[i]| && 0 <= runs[i][j].val)
  {
    GroupByMeans(agg, lastGroup, row, s);
    var out, runs := Rest(GroupBy(agg, lastGroup, row), [s]), Runs(s);
    hide Rest, Runs, IsMaximum, MaxOf;
    forall i | 0 <= i < |runs| ensures IsMaximum(runs[i], out[i].val) <==> exists j :: 0 <= j < |runs[i]| && 0 <= runs[i][j].val {
      MaxOfIff(runs[i]);
    }
  }

  lemma MinOfIff(run: seq<Row>)
    requires run != []
    ensures IsMinimum(run, Aggregate(Min, run)) <==> exists j :: 0 <= j < |run| && run[j].val <= 0
  {
    MinOfBounds(run);
    hide MinOf;
  }

  // Grouped for its minimum, exactly if some value of the group is not positive.
  lemma MinimumIff(agg: Agg, lastGroup: int, row: Row, s: seq<Row>)
    requires agg.kind.Min? && !agg.grouping
    ensures
      var runs := Runs(s);
      var out := Rest(GroupBy(agg, lastGroup, row), [s]);
      && |out| == |runs|
      && forall i :: 0 <= i < |runs| ==>
           (IsMinimum(runs[i], out[i].val) <==> exists j :: 0 <= j < |runs[i]| && runs[i][j].val <= 0)
  {
    GroupByMeans(agg, lastGroup, row, s);
    var out, runs := Rest(GroupBy(agg, lastGroup, row), [s]), Runs(s);
    hide Rest, Runs, IsMinimum, MinOf;
    forall i | 0 <= i < |runs| ensures IsMinimum(runs[i], out[i].val) <==> exists j :: 0 <= j < |runs[i]| && runs[i][j].val <= 0 {
      MinOfIff(runs[i]);
    }
  }

  // The average is the floor of the quotient exactly when the sum is not negative
  // or the group has one row: the count is unsigned, so a negative sum is
  // converted to a huge positive number before the division.
  lemma AverageIsFloorIff(sum: int, count: nat)
    requires -0x8000_0000_0000_0000 <= sum < 0x8000_0000_0000_0000
    requires 0 < count < 0x1_0000_0000_0000_0000
    ensures UnsignedQuotient(sum, count) == sum / count <==> sum >= 0 || count == 1
  {
    var w := 0x1_0000_0000_0000_0000;
    if sum >= 0 {
      assert sum % w == sum;
      QuotientBound(sum, count, 1);
    } else {
      assert sum % w == sum + w;
      if count > 1 {
        QuotientBound(sum + w, count, 2);
        NegativeQuotient(sum, count);
      }
    }
  }

  lemma QuotientBound(x: nat, count: nat, least: nat)
    requires 0 < least <= count
    ensures 0 <= x / count && x / count * least <= x
  {
    var q := x / count;
    assert x == q * count + x % count;
    MulMonotone(q, least, count);
  }

  lemma MulMonotone(q: nat, a: nat, b: nat)
    requires a <= b
    ensures q * a <= q * b
  {
    assert q * (b - a) >= 0;
  }

  lemma NegativeQuotient(sum: int, count: nat)
    requires sum < 0 < count
    ensures sum / count < 0
  {
  }
}
