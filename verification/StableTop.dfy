// Which rows of equal distance the bounded top-n keeps: the ones that came first, in that
// order. Together with the distances this determines what max_n delivers.
module StableTop {
  import opened Operators
  import opened TopN

  // The rows at exactly this distance, in order.
  function At(s: seq<Row>, x: int): (r: seq<Row>) {
    if s == [] then [] else (if s[0].val == x then [s[0]] else []) + At(s[1..], x)
  }

  lemma {:induction false} AtConcat(a: seq<Row>, b: seq<Row>, x: int)
    ensures At(a + b, x) == At(a, x) + At(b, x)
  {
    if a == [] {
      assert a + b == b;
    } else {
      assert (a + b)[1..] == a[1..] + b && (a + b)[0] == a[0];
      AtConcat(a[1..], b, x);
      Regroup(if a[0].val == x then [a[0]] else [], At(a[1..], x), At(b, x));
    }
  }

  lemma Regroup(a: seq<Row>, b: seq<Row>, c: seq<Row>)
    ensures a + (b + c) == a + b + c
    ensures b == [] || c == [] ==> a + b + c == a + c + b
  {
  }

  lemma AtOne(row: Row, x: int)
    ensures At([row], x) == if row.val == x then [row] else []
  {
    assert [row][1..] == [];
  }

  lemma {:induction false} AtNone(s: seq<Row>, x: int)
    requires forall i :: 0 <= i < |s| ==> s[i].val != x
    ensures At(s, x) == []
  {
    if s != [] {
      AtNone(s[1..], x);
    }
  }

  // A row goes behind all rows of the same distance.
  lemma {:induction false} InsertBehind(kept: seq<Row>, row: Row, x: int)
    requires Descending(kept)
    ensures At(Insert(kept, row), x) == At(kept + [row], x)
    decreases |kept|
  {
    if kept != [] && kept[|kept| - 1].val < row.val {
      var front, last := kept[..|kept| - 1], kept[|kept| - 1];
      InsertBehind(front, row, x);
      assert kept == front + [last];
      assert Insert(kept, row) == Insert(front, row) + [last];
      hide Insert, Descending, At;
      AtConcat(Insert(front, row), [last], x);
      AtConcat(front, [row], x);
      AtConcat(front, [last], x);
      AtConcat(kept, [row], x);
      AtOne(row, x);
      AtOne(last, x);
      Regroup(At(front, x), At([row], x), At([last], x));
    }
  }

  // Of the rows s at distance x the first ones are kept, and all of them unless the limit
  // is filled by rows at least as far.
  ghost predicate FirstOnes(limit: nat, kept: seq<Row>, s: seq<Row>, x: int) {
    && At(kept, x) <= At(s, x)
    && (At(kept, x) == At(s, x) || (|kept| == limit && (limit > 0 ==> kept[limit - 1].val >= x)))
  }

  lemma InsertKeepsFirst(limit: nat, kept: seq<Row>, s: seq<Row>, row: Row, x: int)
    requires Descending(kept) && |kept| <= limit && FirstOnes(limit, kept, s, x)
    ensures FirstOnes(limit, InsertBounded(limit, kept, row), s + [row], x)
  {
    hide Insert, At, Descending;
    var more := Insert(kept, row);
    InsertBehind(kept, row, x);
    AtConcat(kept, [row], x);
    AtConcat(s, [row], x);
    AtOne(row, x);
    if |more| > limit {
      Overflows(limit, kept, s, row, more[..limit], more[limit], x);
    }
  }

  lemma Overflows(limit: nat, kept: seq<Row>, s: seq<Row>, row: Row, front: seq<Row>, last: Row, x: int)
    requires Descending(kept) && |kept| == limit && FirstOnes(limit, kept, s, x)
    requires front == Insert(kept, row)[..limit] && last == Insert(kept, row)[limit]
    requires At(Insert(kept, row), x) == At(kept, x) + At([row], x) && At(s + [row], x) == At(s, x) + At([row], x)
    ensures FirstOnes(limit, front, s + [row], x)
  {
    var more := Insert(kept, row);
    assert more == front + [last];
    hide At;
    AtConcat(front, [last], x);
    AtOne(last, x);
    AtOne(row, x);
    Filled(limit, kept, row);
    assert limit > 0 ==> front[limit - 1].val >= last.val && front[limit - 1].val >= kept[limit - 1].val;
    hide Insert, Descending;
    if At(kept, x) != At(s, x) && row.val == x {
      assert front == kept;
      Longer(At(kept, x), At(s, x), At([row], x));
    } else {
      if At(kept, x) != At(s, x) {
        Longer(At(kept, x), At(s, x), At([row], x));
      }
      Shorter(At(front, x), At([last], x), At(s + [row], x));
    }
  }

  lemma Longer(a: seq<Row>, b: seq<Row>, c: seq<Row>)
    requires a <= b
    ensures a <= b + c && a + [] == a
  {
  }

  lemma Shorter(a: seq<Row>, b: seq<Row>, c: seq<Row>)
    requires a + b <= c
    ensures a <= c
  {
    assert a == (a + b)[..|a|];
  }

  // When the limit is reached, the row that falls out is the last one.
  lemma Filled(limit: nat, kept: seq<Row>, row: Row)
    requires Descending(kept) && |kept| == limit
    ensures |Insert(kept, row)| == limit + 1 && Descending(Insert(kept, row))
    ensures limit > 0 ==> Insert(kept, row)[limit - 1].val >= kept[limit - 1].val
    ensures limit == 0 || kept[limit - 1].val >= row.val ==> Insert(kept, row) == kept + [row]
  {
    InsertDescends(kept, row);
  }

  lemma {:induction false} KeptAreFirst(limit: nat, kept: seq<Row>, before: seq<Row>, s: seq<Row>, x: int)
    requires Descending(kept) && |kept| <= limit && FirstOnes(limit, kept, before, x)
    ensures FirstOnes(limit, Kept(limit, kept, s), before + s, x)
    decreases |s|
  {
    hide InsertBounded, Descending, FirstOnes;
    if s == [] {
      assert before + s == before;
    } else {
      InsertBoundedKeeps(limit, kept, s[0], x);
      InsertKeepsFirst(limit, kept, before, s[0], x);
      KeptAreFirst(limit, InsertBounded(limit, kept, s[0]), before + [s[0]], s[1..], x);
      assert before + [s[0]] + s[1..] == before + s;
    }
  }

  // Among rows of the same distance max_n delivers the ones that came first, in that
  // order; with MaxNMeans this leaves one sequence only.
  lemma MaxNIsStable(limit: nat, s: seq<Row>, x: int)
    ensures At(Top(limit, s), x) <= At(s, x)
  {
    MaxNDelivers(limit, [], s);
    KeptAreFirst(limit, [], [], s, x);
    assert [] + s == s;
  }

  // Two descending sequences with the same rows at each distance are the same.
  lemma {:induction false} OnlyOne(a: seq<Row>, b: seq<Row>)
    requires Descending(a) && Descending(b) && forall x :: At(a, x) == At(b, x)
    ensures a == b
    decreases |a|
  {
    HasOwnDistance(a);
    HasOwnDistance(b);
    if a != [] {
      NotBelow(b, a[0].val);
      NotBelow(a, b[0].val);
      forall x ensures At(a[1..], x) == At(b[1..], x) {
        assert At(a, x) == At(b, x);
        Rests(if a[0].val == x then [a[0]] else [], At(a[1..], x), At(b[1..], x));
      }
      OnlyOne(a[1..], b[1..]);
    }
  }

  lemma HasOwnDistance(s: seq<Row>)
    ensures s != [] ==> At(s, s[0].val) != [] && At(s, s[0].val)[0] == s[0]
  {
  }

  lemma Rests(front: seq<Row>, u: seq<Row>, v: seq<Row>)
    requires front + u == front + v
    ensures u == v
  {
    assert (front + u)[|front|..] == u && (front + v)[|front|..] == v;
  }

  lemma {:induction false} NotBelow(s: seq<Row>, x: int)
    requires Descending(s) && At(s, x) != []
    ensures s != [] && s[0].val >= x
  {
    if s != [] && s[0].val < x {
      AtNone(s, x);
    }
  }

  lemma {:induction false} AtCounts(s: seq<Row>, x: int)
    ensures |At(s, x)| == Above(s, x) - Above(s, x + 1)
  {
    if s != [] {
      AtCounts(s[1..], x);
    }
  }

  // What max_n delivers, said without running it: there is only one descending sequence
  // with, above each threshold, as many rows as the input has, up to the limit, and with
  // the first ones of the input at each distance.
  lemma TopIsTheOnly(limit: nat, s: seq<Row>, r: seq<Row>)
    requires Descending(r) && forall x :: Above(r, x) == TopN.Min(limit, Above(s, x)) && At(r, x) <= At(s, x)
    ensures r == Top(limit, s)
  {
    MaxNMeans(limit, s);
    var top := Top(limit, s);
    hide Top, Above, At, TopN.Min, Descending;
    forall x ensures At(r, x) == At(top, x) {
      MaxNIsStable(limit, s, x);
      AtCounts(r, x);
      AtCounts(top, x);
      assert Above(r, x) == Above(top, x) && Above(r, x + 1) == Above(top, x + 1);
      assert At(r, x) == At(s, x)[..|At(r, x)|] && At(top, x) == At(s, x)[..|At(top, x)|];
    }
    OnlyOne(r, top);
  }
}
