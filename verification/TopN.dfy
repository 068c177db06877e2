// The bounded top-n of the distributed example: what max_n delivers, and why the
// workers may each cut their part down to n before the aggregator sees it.
module TopN {
  import opened Operators
  import opened StreamMeaning

  function Min(a: nat, b: nat): (r: nat) {
    if a < b then a else b
  }

  // How many rows have at least this distance.
  function Above(s: seq<Row>, x: int): (n: nat)
    ensures n <= |s|
  {
    if s == [] then 0 else (if s[0].val >= x then 1 else 0) + Above(s[1..], x)
  }

  ghost predicate Descending(s: seq<Row>) {
    forall i, j :: 0 <= i < j < |s| ==> s[i].val >= s[j].val
  }

  function Vals(s: seq<Row>): (r: seq<int>) {
    seq(|s|, i requires 0 <= i < |s| => s[i].val)
  }

  lemma {:induction false} AboveConcat(a: seq<Row>, b: seq<Row>, x: int)
    ensures Above(a + b, x) == Above(a, x) + Above(b, x)
  {
    if a == [] {
      assert a + b == b;
    } else {
      assert (a + b)[1..] == a[1..] + b;
      AboveConcat(a[1..], b, x);
    }
  }

  // In a descending sequence the rows of at least x are exactly the first ones.
  lemma {:induction false} AboveIndex(s: seq<Row>, x: int, i: nat)
    requires Descending(s)
    ensures i < Above(s, x) <==> i < |s| && s[i].val >= x
  {
    if s != [] {
      if i > 0 {
        AboveIndex(s[1..], x, i - 1);
      } else if s[0].val < x {
        AboveNone(s[1..], x);
      }
    }
  }

  lemma {:induction false} AboveNone(s: seq<Row>, x: int)
    requires forall i :: 0 <= i < |s| ==> s[i].val < x
    ensures Above(s, x) == 0
  {
    if s != [] {
      AboveNone(s[1..], x);
    }
  }

  lemma AboveTake(s: seq<Row>, k: nat, x: int)
    requires Descending(s) && k <= |s|
    ensures Above(s[..k], x) == Min(k, Above(s, x))
  {
    var n, m := Above(s[..k], x), Min(k, Above(s, x));
    if n < m {
      AboveIndex(s[..k], x, n);
      AboveIndex(s, x, n);
    } else if m < n {
      AboveIndex(s[..k], x, m);
      AboveIndex(s, x, m);
    }
  }

  // A descending sequence of distances is known from its counts.
  lemma SameVals(a: seq<Row>, b: seq<Row>)
    requires Descending(a) && Descending(b) && forall x :: Above(a, x) == Above(b, x)
    ensures Vals(a) == Vals(b)
  {
    LongEnough(a, b);
    LongEnough(b, a);
    forall i | 0 <= i < |a| ensures a[i].val == b[i].val {
      AboveIndex(a, a[i].val, i);
      AboveIndex(b, a[i].val, i);
      AboveIndex(a, b[i].val, i);
      AboveIndex(b, b[i].val, i);
    }
  }

  lemma LongEnough(a: seq<Row>, b: seq<Row>)
    requires Descending(a) && Descending(b) && forall x :: Above(a, x) == Above(b, x)
    ensures |a| <= |b|
  {
    if |a| > 0 {
      var x := a[|a| - 1].val;
      AboveIndex(a, x, |a| - 1);
      AboveIndex(b, x, |a| - 1);
    }
  }

  lemma {:induction false} SameAbove(a: seq<Row>, b: seq<Row>, x: int)
    requires multiset(a) == multiset(b)
    ensures Above(a, x) == Above(b, x)
    decreases |a|
  {
    if a == [] {
      assert |b| == |multiset(b)| == 0;
    } else {
      assert a[0] in multiset(a) && a[0] in b;
      var k :| 0 <= k < |b| && b[k] == a[0];
      WithoutOne(a, b, k);
      SameAbove(a[1..], b[..k] + b[k + 1..], x);
      AboveConcat(b[..k], b[k + 1..], x);
      AboveConcat(b[..k], b[k..], x);
      assert b[..k] + b[k..] == b && b[k..][1..] == b[k + 1..];
    }
  }

  lemma WithoutOne(a: seq<Row>, b: seq<Row>, k: nat)
    requires multiset(a) == multiset(b) && a != [] && k < |b| && b[k] == a[0]
    ensures multiset(a[1..]) == multiset(b[..k] + b[k + 1..])
  {
    assert a == [a[0]] + a[1..];
    assert b == b[..k] + [b[k]] + b[k + 1..];
    assert multiset(a) == multiset{a[0]} + multiset(a[1..]);
    assert multiset(b) == multiset(b[..k]) + multiset{a[0]} + multiset(b[k + 1..]);
    assert multiset(a[1..]) == multiset(a) - multiset{a[0]};
    assert multiset(b[..k]) + multiset(b[k + 1..]) == multiset(b) - multiset{a[0]};
  }

  // ------------------------------------------------------------------ insertion

  lemma {:induction false} InsertDescends(kept: seq<Row>, row: Row)
    requires Descending(kept)
    ensures Descending(Insert(kept, row))
    ensures forall i :: 0 <= i < |kept| && kept != [] && kept[|kept| - 1].val < row.val ==>
      Insert(kept, row)[i].val >= kept[|kept| - 1].val
    decreases |kept|
  {
    if kept != [] {
      var n := |kept| - 1;
      InsertDescends(kept[..n], row);
      if n > 0 && kept[n].val < row.val && kept[n - 1].val >= row.val {
        assert Insert(kept[..n], row) == kept[..n] + [row];
      }
    }
  }

  lemma {:induction false} InsertAdds(kept: seq<Row>, row: Row)
    ensures multiset(Insert(kept, row)) == multiset(kept) + multiset{row}
    decreases |kept|
  {
    if kept != [] {
      var n := |kept| - 1;
      assert kept == kept[..n] + [kept[n]];
      InsertAdds(kept[..n], row);
    }
  }

  lemma InsertCounts(kept: seq<Row>, row: Row, x: int)
    ensures Above(Insert(kept, row), x) == Above(kept, x) + if row.val >= x then 1 else 0
  {
    hide Insert;
    InsertAdds(kept, row);
    SameAbove(Insert(kept, row), kept + [row], x);
    AboveConcat(kept, [row], x);
    assert Above([row], x) == if row.val >= x then 1 else 0 by {
      assert [row][1..] == [];
    }
  }

  lemma DropLast(s: seq<Row>)
    requires s != []
    ensures multiset(s[..|s| - 1]) <= multiset(s)
  {
    assert s == s[..|s| - 1] + [s[|s| - 1]];
  }

  lemma InsertBoundedKeeps(limit: nat, kept: seq<Row>, row: Row, x: int)
    requires Descending(kept) && |kept| <= limit
    ensures
      var kept' := InsertBounded(limit, kept, row);
      && Descending(kept') && |kept'| == Min(limit, |kept| + 1)
      && multiset(kept') <= multiset(kept) + multiset{row}
      && Above(kept', x) == Min(limit, Above(kept, x) + if row.val >= x then 1 else 0)
  {
    hide Insert, Above;
    var more := Insert(kept, row);
    InsertDescends(kept, row);
    InsertAdds(kept, row);
    InsertCounts(kept, row, x);
    DropLast(more);
    if |more| > limit {
      AboveTake(more, limit, x);
    }
  }

  // ----------------------------------------------------------------------- max_n

  // What max_n holds after consuming s.
  function Kept(limit: nat, kept: seq<Row>, s: seq<Row>): (r: seq<Row>)
    decreases |s|
  {
    if s == [] then kept else Kept(limit, InsertBounded(limit, kept, s[0]), s[1..])
  }

  lemma {:induction false} EmitKept(limit: nat, kept: seq<Row>, outIndex: int)
    requires -1 <= outIndex < |kept|
    ensures Rest(MaxN(limit, kept, outIndex), [[]]) == kept[outIndex + 1..]
    decreases |kept| - outIndex
  {
    RestOfOne(MaxN(limit, kept, outIndex), []);
    hide Rest;
    if outIndex + 1 < |kept| {
      EmitKept(limit, kept, outIndex + 1);
    }
  }

  lemma {:induction false} MaxNDelivers(limit: nat, kept: seq<Row>, s: seq<Row>)
    ensures Rest(MaxN(limit, kept, -1), [s]) == Kept(limit, kept, s)
    decreases |s|
  {
    RestOfOne(MaxN(limit, kept, -1), s);
    hide Rest, InsertBounded;
    if s != [] {
      MaxNDelivers(limit, InsertBounded(limit, kept, s[0]), s[1..]);
    } else if kept != [] {
      EmitKept(limit, kept, -1);
    }
  }

  lemma FrontAdded(s: seq<Row>, kept: seq<Row>)
    requires s != []
    ensures multiset(kept) + multiset{s[0]} + multiset(s[1..]) == multiset(kept) + multiset(s)
  {
    assert s == [s[0]] + s[1..];
  }

  lemma {:induction false} KeptIsTop(limit: nat, kept: seq<Row>, s: seq<Row>, x: int)
    requires Descending(kept) && |kept| <= limit
    ensures
      var r := Kept(limit, kept, s);
      && Descending(r) && |r| == Min(limit, |kept| + |s|)
      && multiset(r) <= multiset(kept) + multiset(s)
      && Above(r, x) == Min(limit, Above(kept, x) + Above(s, x))
    decreases |s|
  {
    hide InsertBounded, Descending;
    if s != [] {
      InsertBoundedKeeps(limit, kept, s[0], x);
      KeptIsTop(limit, InsertBounded(limit, kept, s[0]), s[1..], x);
      FrontAdded(s, kept);
    }
  }

  function Top(limit: nat, s: seq<Row>): (r: seq<Row>) {
    Rest(MaxN(limit, [], -1), [s])
  }

  // max_n delivers rows of its input, in descending order, as many as the limit
  // allows, and for every threshold as many above it as there are, up to the
  // limit: the largest ones.
  lemma MaxNMeans(limit: nat, s: seq<Row>)
    ensures Descending(Top(limit, s)) && |Top(limit, s)| == Min(limit, |s|)
    ensures multiset(Top(limit, s)) <= multiset(s)
    ensures forall x :: Above(Top(limit, s), x) == Min(limit, Above(s, x))
  {
    MaxNDelivers(limit, [], s);
    hide Rest, Kept;
    KeptIsTop(limit, [], s, 0);
    forall x ensures Above(Top(limit, s), x) == Min(limit, Above(s, x)) {
      KeptIsTop(limit, [], s, x);
    }
  }

  // ----------------------------------------------------------------- distributed

  function Tops(limit: nat, parts: seq<seq<Row>>): (r: seq<seq<Row>>) {
    seq(|parts|, i requires 0 <= i < |parts| => Top(limit, parts[i]))
  }

  lemma TopAbove(limit: nat, s: seq<Row>, x: int)
    ensures Above(Top(limit, s), x) == Min(limit, Above(s, x))
  {
    MaxNMeans(limit, s);
  }

  lemma {:induction false} CutEachPart(limit: nat, parts: seq<seq<Row>>, x: int)
    ensures Min(limit, Above(Flatten(Tops(limit, parts)), x)) == Min(limit, Above(Flatten(parts), x))
  {
    if parts != [] {
      hide Top, Above;
      var tops := Tops(limit, parts);
      assert tops[1..] == Tops(limit, parts[1..]);
      CutEachPart(limit, parts[1..], x);
      AboveConcat(tops[0], Flatten(tops[1..]), x);
      AboveConcat(parts[0], Flatten(parts[1..]), x);
      TopAbove(limit, parts[0], x);
    }
  }

  // For every partition of the rows among the workers, the aggregator's top-n of
  // their concatenated top-n lists has the distances of the top-n of all rows.
  lemma DistributedTopN(limit: nat, parts: seq<seq<Row>>, all: seq<Row>)
    requires parts != [] && multiset(Flatten(parts)) == multiset(all)
    ensures Vals(Top(limit, Rest(Concat(0), Tops(limit, parts)))) == Vals(Top(limit, all))
  {
    var tops := Tops(limit, parts);
    ConcatMeans(tops, 0);
    assert tops[0..] == tops;
    var merged := Flatten(tops);
    hide Rest, Top, Tops, Flatten;
    MaxNMeans(limit, merged);
    MaxNMeans(limit, all);
    forall x ensures Above(Top(limit, merged), x) == Above(Top(limit, all), x) {
      CutEachPart(limit, parts, x);
      SameAbove(Flatten(parts), all, x);
    }
    SameVals(Top(limit, merged), Top(limit, all));
  }
}
