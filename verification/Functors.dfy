// The functors of the dataflow engine as objects: process() reads the values of
// the predecessors, lowers the flags of those it consumes, and updates its own
// fields.
module Functors {
  import opened Operators
  import opened Dataflow

  // If no other stream holds the least key, the first one does, alone.
  lemma OnlyFirstHolds(heads: seq<Option<Row>>, others: bool)
    requires |heads| > 0 && heads[0].Some?
    requires
      var least := heads[Least(heads, |heads|).value].value.key;
      others <==> exists k :: 1 <= k < |heads| && heads[k].Some? && heads[k].value.key == least
    ensures
      var index := Least(heads, |heads|).value;
      && (!others <==> Holding(heads, heads[index].value.key) == {0})
  {
    var index := Least(heads, |heads|).value;
    var least := heads[index].value.key;
    assert index in Holding(heads, least);
    if others {
      var k :| 1 <= k < |heads| && heads[k].Some? && heads[k].value.key == least;
      assert k in Holding(heads, least);
    } else {
      assert index == 0;
      assert forall k :: k in Holding(heads, least) ==> k == 0;
    }
  }

  lemma {:induction false} InsertAt(kept: seq<Row>, row: Row, p: nat)
    requires p <= |kept| && forall k :: p <= k < |kept| ==> kept[k].val < row.val
    requires p == 0 || kept[p - 1].val >= row.val
    ensures Insert(kept, row) == kept[..p] + [row] + kept[p..]
    decreases |kept|
  {
    if p < |kept| {
      var front := kept[..|kept| - 1];
      InsertAt(front, row, p);
      assert front[..p] == kept[..p] && front[p..] + [kept[|kept| - 1]] == kept[p..];
    }
  }

  lemma IntersectionOf(heads: seq<Option<Row>>)
    requires |heads| >= 2 && AllPresent(heads) && Least(heads, |heads|).Some?
    ensures
      var row := if AllEqual(heads) then heads[|heads| - 1].value else NO_ROW;
      var least := heads[Least(heads, |heads|).value].value.key;
      ProcessIntersection(heads) == Outcome(Intersection, AllEqual(heads), row, Holding(heads, least))
  {
  }

  lemma PresentHaveLeast(heads: seq<Option<Row>>)
    requires |heads| > 0 && (heads[0].Some? || AllPresent(heads))
    ensures Least(heads, |heads|).Some?
  {
  }

  class Functor {
    const id: nat
    const preds: seq<Functor>
    const isOutput: bool
    var op: Op
    var hasValue: bool
    var status: Status
    var value: Row
    ghost var produced: seq<Row>

    constructor (id: nat, op: Op, preds: seq<Functor>)
      requires forall i, k :: 0 <= i < k < |preds| ==> preds[i] != preds[k]
      requires Arity(op, |preds|) && (op.Output? ==> op.values == [])
      ensures this.id == id && this.op == op && this.preds == preds && !hasValue && produced == [] && Valid()
    {
      this.id := id;
      isOutput := op.Output?;
      this.op := op;
      this.preds := preds;
      hasValue := false;
      status := Idle;
      value := NO_ROW;
      produced := [];
    }

    // A functor is not its own predecessor, and reads each predecessor once.
    ghost predicate Wired() {
      && this !in preds
      && (forall i, k :: 0 <= i < k < |preds| ==> preds[i] != preds[k])
    }

    ghost predicate Valid()
      reads this
    {
      && Wired()
      && Arity(op, |preds|)
      && isOutput == op.Output?
      && (op.Output? ==> op.values == produced)
    }

    ghost function View(): (n: Node)
      reads this
    {
      Node(op, hasValue, status, value, produced)
    }

    // What the predecessors show.
    ghost function Shown(): (r: seq<Option<Row>>)
      reads this, preds
      ensures |r| == |preds|
      ensures forall k :: 0 <= k < |r| ==> r[k] == if preds[k].hasValue then Some(preds[k].value) else None
    {
      seq(|preds|, k requires 0 <= k < |preds| reads preds =>
        if preds[k].hasValue then Some(preds[k].value) else None)
    }

    ghost predicate Shows(heads: seq<Option<Row>>)
      reads this, preds
    {
      |heads| == |preds| &&
      forall k :: 0 <= k < |preds| ==> heads[k] == if preds[k].hasValue then Some(preds[k].value) else None
    }

    ghost function Sources(): (r: set<Functor>)
      ensures forall k :: 0 <= k < |preds| ==> preds[k] in r
    {
      set p | p in preds
    }

    // The effect that an outcome of the operator describes.
    twostate predicate Did(ok: bool, o: Outcome)
      reads this, preds
    {
      && op == o.op && ok == o.ok
      && (if ok then value == o.value && produced == old(produced) + [o.value]
          else value == old(value) && produced == old(produced))
      && forall k :: 0 <= k < |preds| ==> preds[k].hasValue == (old(preds[k].hasValue) && k !in o.taken)
    }

    method Deliver(row: Row)
      modifies this`value, this`produced
      ensures value == row && produced == old(produced) + [row]
    {
      value := row;
      produced := produced + [row];
    }

    method ProcessRawData() returns (ok: bool)
      requires Valid() && op.RawData?
      modifies this`op, this`value, this`produced
      ensures Valid() && Did(ok, old(Operators.Process(op, Shown())))
    {
      if op.rows == [] {
        return false;
      }
      op := op.(index := op.index + 1);
      if op.index >= |op.rows| {
        return false;
      }
      Deliver(op.rows[op.index]);
      return true;
    }

    method ProcessFilter() returns (ok: bool)
      requires Valid() && op.Filter?
      modifies this`op, this`value, this`produced, Sources()`hasValue
      ensures Valid() && Did(ok, old(Operators.Process(op, Shown())))
    {
      if !preds[0].hasValue {
        return false;
      }
      ok := op.keep(preds[0].value);
      if ok {
        Deliver(preds[0].value);
      }
      preds[0].hasValue := false;
    }

    method ProcessConcat() returns (ok: bool)
      requires Valid() && op.Concat?
      modifies this`op, this`value, this`produced, Sources()`hasValue
      ensures Valid() && Did(ok, old(Operators.Process(op, Shown())))
    {
      ghost var heads := Shown();
      ghost var next := SkipEmpty(heads, op.at);
      while op.at < |preds| && !preds[op.at].hasValue
        invariant Valid() && op.Concat? && op.at <= next && SkipEmpty(heads, op.at) == next
        invariant value == old(value) && produced == old(produced)
        invariant forall k :: 0 <= k < |preds| ==> preds[k].hasValue == heads[k].Some?
        decreases |preds| - op.at
      {
        op := Concat(op.at + 1);
      }
      if op.at >= |preds| {
        return false;
      }
      Deliver(preds[op.at].value);
      preds[op.at].hasValue := false;
      return true;
    }

    method ProcessOutput() returns (ok: bool)
      requires Valid() && op.Output?
      modifies this`op, this`value, this`produced, Sources()`hasValue
      ensures Valid() && Did(ok, old(Operators.Process(op, Shown())))
    {
      if !preds[0].hasValue {
        return false;
      }
      op := Output(op.values + [preds[0].value]);
      Deliver(preds[0].value);
      preds[0].hasValue := false;
      return true;
    }

    method ProcessGroupBy() returns (ok: bool)
      requires Valid() && op.GroupBy?
      modifies this`op, this`value, this`produced, Sources()`hasValue
      ensures Valid() && Did(ok, old(Operators.Process(op, Shown())))
    {
      var agg, row := op.agg, op.row;
      if !preds[0].hasValue {
        if agg.grouping {
          agg := EndGroup(agg);
          row := row.(val := agg.data);
          op := GroupBy(agg, op.lastGroup, row);
          Deliver(row);
          return true;
        }
        return false;
      }
      var input := preds[0].value;
      if agg.grouping {
        if op.lastGroup == input.key {
          agg := GroupOne(agg, input.val);
          op := op.(agg := agg);
          preds[0].hasValue := false;
          return false;
        } else {
          agg := EndGroup(agg);
          row := row.(val := agg.data);
          agg := BeginGroup(agg);
          row := row.(key := input.key);
          agg := GroupOne(agg, input.val);
          op := GroupBy(agg, input.key, row);
          Deliver(row);
          preds[0].hasValue := false;
          return true;
        }
      } else {
        agg := BeginGroup(agg);
        row := row.(key := input.key);
        agg := GroupOne(agg, input.val);
        op := GroupBy(agg, input.key, row);
        preds[0].hasValue := false;
        return false;
      }
    }

    // Lowers the flags of the streams that hold `key`, except stream `spared`.
    method LowerEqual(key: int, spared: int)
      requires Wired()
      modifies Sources()`hasValue
      ensures forall k :: 0 <= k < |preds| ==>
        preds[k].hasValue == (old(preds[k].hasValue) && !(k != spared && preds[k].value.key == key))
    {
      for i := 0 to |preds|
        invariant forall k :: 0 <= k < |preds| ==>
          preds[k].hasValue == (old(preds[k].hasValue) && !(k < i && k != spared && preds[k].value.key == key))
      {
        if preds[i].hasValue {
          var tmp := preds[i].value.key;
          if i != spared && tmp == key {
            preds[i].hasValue := false;
          }
        }
      }
    }

    // The scan shared by the set operators: the first stream with a least key.
    method ScanLeast(ghost heads: seq<Option<Row>>) returns (flag: bool, index: nat)
      requires Shows(heads)
      ensures flag == Least(heads, |heads|).Some?
      ensures flag ==> index == Least(heads, |heads|).value
    {
      flag, index := false, 0;
      var val := 0;
      for i := 0 to |preds|
        invariant flag == Least(heads, i).Some?
        invariant flag ==> index < |preds| && index == Least(heads, i).value && val == preds[index].value.key
      {
        if preds[i].hasValue {
          var tmp := preds[i].value.key;
          if !flag {
            val, index, flag := tmp, i, true;
          }
          if val > tmp {
            val, index := tmp, i;
          }
        }
      }
    }

    // Delivers the value of stream `index` and consumes every stream that holds
    // its key.
    method TakeKey(ghost heads: seq<Option<Row>>, index: nat)
      requires Wired() && Shows(heads) && index < |preds| && heads[index].Some?
      modifies this`value, this`produced, Sources()`hasValue
      ensures value == heads[index].value && produced == old(produced) + [value]
      ensures forall k :: 0 <= k < |preds| ==>
        preds[k].hasValue == (heads[k].Some? && k !in Holding(heads, heads[index].value.key))
    {
      hide Arity;
      var row := preds[index].value;
      LowerEqual(row.key, index);
      Deliver(row);
      preds[index].hasValue := false;
    }

    method ProcessUnion() returns (ok: bool)
      requires Valid() && op.Union?
      modifies this`op, this`value, this`produced, Sources()`hasValue
      ensures Valid() && Did(ok, old(Operators.Process(op, Shown())))
    {
      if |preds| < 2 {
        return false;
      }
      ghost var heads := Shown();
      ghost var o := Operators.ProcessUnion(heads);
      assert Operators.Process(op, heads) == o;
      hide Operators.Process, Shown, Arity;
      var flag, index := ScanLeast(heads);
      if !flag {
        return false;
      }
      LeastHolds(heads);
      hide Least, Holding;
      TakeKey(heads, index);
      return true;
    }

    method AllHaveValues(ghost heads: seq<Option<Row>>) returns (all: bool)
      requires Shows(heads)
      ensures all == AllPresent(heads)
    {
      for i := 0 to |preds|
        invariant forall k :: 0 <= k < i ==> preds[k].hasValue
      {
        if !preds[i].hasValue {
          assert heads[i].None?;
          return false;
        }
      }
      return true;
    }

    // Whether the values of all streams, all present, have the same key.
    method HasIntersection(ghost heads: seq<Option<Row>>) returns (ret: bool)
      requires Shows(heads) && |preds| > 0 && AllPresent(heads)
      ensures ret <==> AllEqual(heads)
    {
      var val := preds[0].value.key;
      for i := 1 to |preds|
        invariant forall k :: 0 <= k < i ==> heads[k].value.key == val
      {
        if preds[i].value.key != val {
          assert heads[i].value.key != heads[0].value.key;
          return false;
        }
      }
      return true;
    }

    // Consumes the streams that hold the least key.
    method NextValue(ghost heads: seq<Option<Row>>)
      requires Wired() && Shows(heads) && Least(heads, |heads|).Some?
      modifies Sources()`hasValue
      ensures
        var least := heads[Least(heads, |heads|).value].value.key;
        forall k :: 0 <= k < |preds| ==> preds[k].hasValue == (heads[k].Some? && k !in Holding(heads, least))
    {
      var flag, index := ScanLeast(heads);
      hide Least;
      LowerEqual(preds[index].value.key, -1);
    }

    // The part of intersection that runs when every stream has a value.
    method Intersect(ghost heads: seq<Option<Row>>) returns (ok: bool)
      requires Wired() && Shows(heads) && |preds| > 0 && AllPresent(heads) && Least(heads, |heads|).Some?
      modifies this`value, this`produced, Sources()`hasValue
      ensures ok == AllEqual(heads)
      ensures if ok then value == heads[|heads| - 1].value && produced == old(produced) + [value]
              else value == old(value) && produced == old(produced)
      ensures
        var least := heads[Least(heads, |heads|).value].value.key;
        forall k :: 0 <= k < |preds| ==> preds[k].hasValue == (heads[k].Some? && k !in Holding(heads, least))
    {
      hide Least, Holding, Arity, AllEqual;
      ok := HasIntersection(heads);
      if ok {
        Deliver(preds[|preds| - 1].value);
      }
      NextValue(heads);
    }

    method ProcessIntersection() returns (ok: bool)
      requires Valid() && op.Intersection?
      modifies this`op, this`value, this`produced, Sources()`hasValue
      ensures Valid() && Did(ok, old(Operators.Process(op, Shown())))
    {
      hide Least, Holding, Arity, AllPresent, AllEqual, Wired;
      if |preds| < 2 {
        return false;
      }
      ghost var heads := Shown();
      ghost var o := Operators.ProcessIntersection(heads);
      assert Operators.Process(op, heads) == o;
      hide Operators.Process, Shown;
      var all := AllHaveValues(heads);
      if !all {
        return false;
      }
      PresentHaveLeast(heads);
      IntersectionOf(heads);
      hide Operators.ProcessIntersection;
      ok := Intersect(heads);
    }

    // The part of difference that runs when the first stream has a value.
    method Differ(ghost heads: seq<Option<Row>>) returns (ok: bool)
      requires Wired() && Shows(heads) && |preds| > 0 && heads[0].Some? && Least(heads, |heads|).Some?
      modifies this`value, this`produced, Sources()`hasValue
      ensures
        var holding := Holding(heads, heads[Least(heads, |heads|).value].value.key);
        && ok == (holding == {0})
        && (if ok then value == heads[0].value && produced == old(produced) + [value]
            else value == old(value) && produced == old(produced))
        && forall k :: 0 <= k < |preds| ==> preds[k].hasValue == (heads[k].Some? && k !in holding)
    {
      hide Least, Holding, Arity;
      var flag, index := ScanLeast(heads);
      var flagMin := OthersHold(heads, preds[index].value.key);
      OnlyFirstHolds(heads, flagMin);
      ok := !flagMin;
      if ok {
        Deliver(preds[0].value);
      }
      NextValue(heads);
    }

    method ProcessDifference() returns (ok: bool)
      requires Valid() && op.Difference?
      modifies this`op, this`value, this`produced, Sources()`hasValue
      ensures Valid() && Did(ok, old(Operators.Process(op, Shown())))
    {
      if |preds| < 2 || !preds[0].hasValue {
        return false;
      }
      ghost var heads := Shown();
      ghost var o := Operators.ProcessDifference(heads);
      assert Operators.Process(op, heads) == o;
      PresentHaveLeast(heads);
      hide Least, Holding, Operators.Process, Shown, Arity;
      ok := Differ(heads);
    }

    // Whether a stream other than the first holds this key.
    method OthersHold(ghost heads: seq<Option<Row>>, key: int) returns (found: bool)
      requires Shows(heads) && 0 < |preds|
      ensures found <==> exists k :: 1 <= k < |heads| && heads[k].Some? && heads[k].value.key == key
    {
      found := false;
      for i := 1 to |preds|
        invariant found <==> exists k :: 1 <= k < i && heads[k].Some? && heads[k].value.key == key
      {
        if preds[i].hasValue && preds[i].value.key == key {
          assert heads[i].Some?;
          found := true;
        }
      }
    }

    method ProcessMaxN() returns (ok: bool)
      requires Valid() && op.MaxN?
      modifies this`op, this`value, this`produced, Sources()`hasValue
      ensures Valid() && Did(ok, old(Operators.Process(op, Shown())))
    {
      if preds[0].hasValue {
        var kept := InsertInto(op.kept, preds[0].value);
        if |kept| > op.limit {
          kept := kept[..|kept| - 1];
        }
        op := op.(kept := kept);
        preds[0].hasValue := false;
        return false;
      }
      if op.kept == [] {
        return false;
      }
      op := op.(outIndex := op.outIndex + 1);
      if op.outIndex >= |op.kept| {
        return false;
      }
      Deliver(op.kept[op.outIndex]);
      return true;
    }

    // max_n::insert: appends a place holder, shifts the smaller rows down by one
    // and writes the new row into the gap.
    static method InsertInto(kept: seq<Row>, row: Row) returns (l: seq<Row>)
      ensures l == Insert(kept, row)
    {
      l := kept + [row];
      var i := |l| - 2;
      while i >= 0
        invariant -1 <= i < |kept| && |l| == |kept| + 1
        invariant forall k :: 0 <= k <= i ==> l[k] == kept[k]
        invariant forall k :: i + 2 <= k < |l| ==> l[k] == kept[k - 1]
        invariant forall k :: i < k < |kept| ==> kept[k].val < row.val
      {
        if l[i].val < row.val {
          l := l[i + 1 := l[i]];
        } else {
          break;
        }
        i := i - 1;
      }
      i := i + 1;
      l := l[i := row];
      InsertAt(kept, row, i);
    }

    method Process() returns (ok: bool)
      requires Valid()
      modifies this`op, this`value, this`produced, Sources()`hasValue
      ensures Valid() && Did(ok, old(Operators.Process(op, Shown())))
    {
      match op {
        case RawData(_, _) => ok := ProcessRawData();
        case Filter(_) => ok := ProcessFilter();
        case Concat(_) => ok := ProcessConcat();
        case GroupBy(_, _, _) => ok := ProcessGroupBy();
        case Union => ok := ProcessUnion();
        case Intersection => ok := ProcessIntersection();
        case Difference => ok := ProcessDifference();
        case MaxN(_, _, _) => ok := ProcessMaxN();
        case Output(_) => ok := ProcessOutput();
      }
    }

    method ResetDoneValue()
      modifies this`hasValue
      ensures !hasValue
    {
      hasValue := false;
    }

    // outputs override done_value() and never raise the flag
    method DoneValue()
      modifies this`hasValue
      ensures hasValue == !op.Output?
    {
      hasValue := !op.Output?;
    }
  }
}
