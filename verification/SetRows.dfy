// Which rows union, intersection and difference of ordered streams deliver. Together with
// the order and the multiplicities of the keys this determines the whole sequence.
module SetRows {
  import opened Operators
  import opened SetMeaning

  // The rows of s with this key, in order.
  function Keyed(s: seq<Row>, key: int): (r: seq<Row>)
    ensures |r| == SetMeaning.Count(s, key)
  {
    if s == [] then [] else (if s[0].key == key then [s[0]] else []) + Keyed(s[1..], key)
  }

  lemma KeyedCons(row: Row, s: seq<Row>, key: int)
    ensures Keyed([row] + s, key) == (if row.key == key then [row] else []) + Keyed(s, key)
  {
    assert ([row] + s)[1..] == s;
  }

  // A round takes the first row of the least key, and nothing of another key.
  lemma KeyedRound(streams: seq<seq<Row>>, streams': seq<seq<Row>>, least: int, i: nat, key: int)
    requires AllOrdered(streams) && Round(streams, streams', least) && i < |streams|
    ensures |streams'| == |streams| && SetMeaning.Count(streams'[i], key) == |Keyed(streams'[i], key)|
    ensures key != least ==> Keyed(streams'[i], key) == Keyed(streams[i], key)
    ensures (SetMeaning.Count(streams[i], least) > 0) == (streams[i] != [] && streams[i][0].key == least)
    ensures SetMeaning.Count(streams[i], least) > 0 ==> Keyed(streams[i], least) == [streams[i][0]] + Keyed(streams'[i], least)
    ensures SetMeaning.Count(streams[i], least) == 0 ==> Keyed(streams'[i], least) == []
  {
    RoundCounts(streams, streams', least, i);
    hide AllOrdered, Ordered, From;
  }

  // ------------------------------------------------------------------------- union

  // The first stream with more than k rows of this key.
  function FirstWith(streams: seq<seq<Row>>, key: int, k: nat): (i: nat)
    requires k < Most(streams, key)
    ensures i < |streams| && k < SetMeaning.Count(streams[i], key)
    ensures forall j :: 0 <= j < i ==> SetMeaning.Count(streams[j], key) <= k
  {
    if k < SetMeaning.Count(streams[0], key) then 0
    else
      var i := 1 + FirstWith(streams[1..], key, k);
      assert forall j :: 1 <= j < i ==> streams[j] == streams[1..][j - 1];
      i
  }

  // Row number k of a key is row number k of the first stream that has so many.
  ghost predicate UnionRows(out: seq<Row>, streams: seq<seq<Row>>, key: int) {
    && SetMeaning.Count(out, key) == Most(streams, key)
    && forall k :: 0 <= k < SetMeaning.Count(out, key) ==>
         Keyed(out, key)[k] == Keyed(streams[FirstWith(streams, key, k)], key)[k]
  }

  // The first stream that has a row of the least key left is the one that had one more.
  lemma FirstWithRound(streams: seq<seq<Row>>, streams': seq<seq<Row>>, least: int, key: int, k: nat)
    requires AllOrdered(streams) && Round(streams, streams', least) && |streams'| == |streams|
    requires k < Most(streams', key)
    ensures
      var more := k + Less(key, least);
      && more < Most(streams, key) && FirstWith(streams, key, more) == FirstWith(streams', key, k)
      && Keyed(streams'[FirstWith(streams', key, k)], key)[k] == Keyed(streams[FirstWith(streams, key, more)], key)[more]
  {
    hide AllOrdered, Round, Keyed, SetMeaning.Count, Most, FirstWith;
    var i, more := FirstWith(streams', key, k), k + Less(key, least);
    KeyedLater(streams, streams', least, i, key, k);
    assert more < SetMeaning.Count(streams[i], key) <= Most(streams, key);
    var j := FirstWith(streams, key, more);
    if j < i {
      KeyedLater(streams, streams', least, j, key, k);
    }
  }

  // Row number k after a round is row number k, or k + 1 for the least key, before it.
  lemma KeyedLater(streams: seq<seq<Row>>, streams': seq<seq<Row>>, least: int, i: nat, key: int, k: nat)
    requires AllOrdered(streams) && Round(streams, streams', least) && |streams'| == |streams| && i < |streams|
    ensures k < SetMeaning.Count(streams'[i], key) <==> k + Less(key, least) < SetMeaning.Count(streams[i], key)
    ensures k < SetMeaning.Count(streams'[i], key) ==>
      Keyed(streams'[i], key)[k] == Keyed(streams[i], key)[k + Less(key, least)]
  {
    hide AllOrdered, Round, Keyed, SetMeaning.Count;
    KeyedRound(streams, streams', least, i, key);
  }

  lemma UnionRowsStep(streams: seq<seq<Row>>, streams': seq<seq<Row>>, row: Row, out: seq<Row>, key: int)
    requires AllOrdered(streams) && Round(streams, streams', row.key) && |streams'| == |streams| && FirstHead(streams, row)
    requires UnionRows(out, streams', key)
    ensures UnionRows([row] + out, streams, key)
  {
    hide AllOrdered, Round, Keyed, SetMeaning.Count, Most, FirstWith, FirstHead;
    FirstHeadIs(streams, row);
    UnionCounts(streams, streams', row, out, key);
    KeyedCons(row, out, key);
    forall k | 0 <= k < SetMeaning.Count([row] + out, key)
      ensures Keyed([row] + out, key)[k] == Keyed(streams[FirstWith(streams, key, k)], key)[k]
    {
      if key == row.key && k == 0 {
        FirstOfKey(streams, streams', row);
      } else {
        FirstWithRound(streams, streams', row.key, key, k - Less(key, row.key));
      }
    }
  }

  lemma FirstHeadIs(streams: seq<seq<Row>>, row: Row)
    requires FirstHead(streams, row)
    ensures exists i :: 0 <= i < |streams| && streams[i] != [] && streams[i][0].key == row.key
  {
    var i :| 0 <= i < |streams| && streams[i] != [] && streams[i][0] == row
      && forall j :: 0 <= j < i && streams[j] != [] ==> streams[j][0].key != row.key;
    assert streams[i][0].key == row.key;
  }

  lemma FirstOfKey(streams: seq<seq<Row>>, streams': seq<seq<Row>>, row: Row)
    requires AllOrdered(streams) && Round(streams, streams', row.key) && |streams'| == |streams| && FirstHead(streams, row)
    requires 0 < Most(streams, row.key)
    ensures Keyed(streams[FirstWith(streams, row.key, 0)], row.key)[0] == row
  {
    hide AllOrdered, Round, Keyed, SetMeaning.Count, Most, FirstWith;
    var i :| 0 <= i < |streams| && streams[i] != [] && streams[i][0] == row
      && forall j :: 0 <= j < i && streams[j] != [] ==> streams[j][0].key != row.key;
    var j := FirstWith(streams, row.key, 0);
    KeyedRound(streams, streams', row.key, i, row.key);
    KeyedRound(streams, streams', row.key, j, row.key);
    assert !(i < j);
  }

  lemma {:induction false} UnionDelivers(streams: seq<seq<Row>>, key: int)
    requires AllOrdered(streams) && 2 <= |streams|
    ensures UnionRows(Rest(Union, streams), streams, key)
    decreases TotalLength(streams)
  {
    hide Rest, Least, Advance, Round, TotalLength, Heads, SetMeaning.Count, Most, AllOrdered, From, Sorted, Ordered, AllFrom, FirstHead;
    if Least(Heads(streams), |streams|).Some? {
      hide Advance, Round, TotalLength, Heads, SetMeaning.Count, Most, AllOrdered, From, Sorted, Ordered, AllFrom, UnionRows, FirstHead;
      var streams', row := UnionRound(streams);
      RoundLeaves(streams, streams', row.key);
      UnionDelivers(streams', key);
      UnionRowsStep(streams, streams', row, Rest(Union, streams'), key);
    } else {
      NoUnion(streams);
    }
  }

  // ------------------------------------------------------------------ intersection

  // Of each key the first rows of the last stream.
  ghost predicate MeetRows(out: seq<Row>, streams: seq<seq<Row>>, key: int)
    requires streams != []
  {
    SetMeaning.Count(out, key) == Fewest(streams, key) && Keyed(out, key) <= Keyed(streams[|streams| - 1], key)
  }

  lemma MeetRowsStep(streams: seq<seq<Row>>, streams': seq<seq<Row>>, row: Row, met: bool, out: seq<Row>, key: int)
    requires AllOrdered(streams) && 2 <= |streams| == |streams'| && Round(streams, streams', row.key)
    requires met ==> forall i :: 0 <= i < |streams| ==> streams[i] != [] && streams[i][0].key == row.key
    requires met ==> row == streams[|streams| - 1][0]
    requires !met ==> exists past :: 0 <= past < |streams| && streams[past] != [] && streams[past][0].key != row.key
    requires MeetRows(out, streams', key)
    ensures MeetRows((if met then [row] else []) + out, streams, key)
  {
    hide AllOrdered, Ordered, From, Round, Keyed, SetMeaning.Count, Fewest;
    KeyedRound(streams, streams', row.key, |streams| - 1, key);
    if met {
      MeetCounts(streams, streams', row, out, key);
      KeyedCons(row, out, key);
    } else {
      assert [] + out == out;
      var past :| 0 <= past < |streams| && streams[past] != [] && streams[past][0].key != row.key;
      PassCounts(streams, streams', row.key, past, key);
      KeyedRound(streams, streams', row.key, past, key);
      if key == row.key {
        assert Fewest(streams, key) <= SetMeaning.Count(streams[past], key) == 0;
      }
    }
  }

  lemma {:induction false} IntersectionDelivers(streams: seq<seq<Row>>, key: int)
    requires AllOrdered(streams) && 2 <= |streams|
    ensures MeetRows(Rest(Intersection, streams), streams, key)
    decreases TotalLength(streams)
  {
    if AllPresent(Heads(streams)) {
      hide Rest, Advance, Round, TotalLength, Heads, SetMeaning.Count, Fewest, From, Sorted, AllPresent, Ordered, AllOrdered, AllFrom, MeetRows;
      var streams', row, met := IntersectionRound(streams);
      RoundLeaves(streams, streams', row.key);
      IntersectionDelivers(streams', key);
      MeetRowsStep(streams, streams', row, met, Rest(Intersection, streams'), key);
    } else {
      NoIntersection(streams);
    }
  }

  // -------------------------------------------------------------------- difference

  // Of each key the last rows of the first stream.
  ghost predicate SurplusRows(out: seq<Row>, streams: seq<seq<Row>>, key: int)
    requires streams != []
  {
    var all := Keyed(streams[0], key);
    SetMeaning.Count(out, key) == Surplus(streams, key) <= |all| && Keyed(out, key) == all[|all| - Surplus(streams, key)..]
  }

  lemma SurplusRowsStep(streams: seq<seq<Row>>, streams': seq<seq<Row>>, row: Row, out: seq<Row>, key: int)
    requires AllOrdered(streams) && 2 <= |streams| == |streams'| && Round(streams, streams', row.key) && streams[0] != []
    requires FirstAlone(streams, row.key) ==> row == streams[0][0]
    requires SurplusRows(out, streams', key)
    ensures SurplusRows((if FirstAlone(streams, row.key) then [row] else []) + out, streams, key)
  {
    hide AllOrdered, Ordered, From, Round, Keyed, SetMeaning.Count, Most, Surplus, FirstAlone, SurplusRows;
    assert [] + out == out;
    if FirstAlone(streams, row.key) && key == row.key {
      AloneRows(streams, streams', row, out);
    } else {
      OtherRows(streams, streams', row, out, key);
    }
  }

  lemma AloneRows(streams: seq<seq<Row>>, streams': seq<seq<Row>>, row: Row, out: seq<Row>)
    requires AllOrdered(streams) && 2 <= |streams| == |streams'| && Round(streams, streams', row.key)
    requires FirstAlone(streams, row.key) && row == streams[0][0] && SurplusRows(out, streams', row.key)
    ensures SurplusRows([row] + out, streams, row.key)
  {
    hide AllOrdered, Ordered, From, Round, Keyed, SetMeaning.Count, Most, Surplus;
    KeyedRound(streams, streams', row.key, 0, row.key);
    SurplusDrops(streams, streams', row.key, row.key);
    KeyedCons(row, out, row.key);
    AloneHasAll(streams, streams', row.key);
    var all, all' := Keyed(streams[0], row.key), Keyed(streams'[0], row.key);
    assert all == [row] + all' && all'[0..] == all' && all[0..] == all;
  }

  lemma OtherRows(streams: seq<seq<Row>>, streams': seq<seq<Row>>, row: Row, out: seq<Row>, key: int)
    requires AllOrdered(streams) && 2 <= |streams| == |streams'| && Round(streams, streams', row.key) && streams[0] != []
    requires !FirstAlone(streams, row.key) || key != row.key
    requires SurplusRows(out, streams', key)
    ensures SurplusRows((if FirstAlone(streams, row.key) then [row] else []) + out, streams, key)
  {
    hide AllOrdered, Ordered, From, Round, Keyed, SetMeaning.Count, Most, Surplus, FirstAlone, SurplusRows;
    var out' := (if FirstAlone(streams, row.key) then [row] else []) + out;
    OtherKeyed(row, out, out', FirstAlone(streams, row.key), key);
    KeyedRound(streams, streams', row.key, 0, key);
    SurplusDrops(streams, streams', row.key, key);
    SameSurplus(streams, streams', out, out', key);
  }

  lemma OtherKeyed(row: Row, out: seq<Row>, out': seq<Row>, put: bool, key: int)
    requires out' == (if put then [row] else []) + out && (put ==> row.key != key)
    ensures Keyed(out', key) == Keyed(out, key)
  {
    if put {
      KeyedCons(row, out, key);
    } else {
      assert out' == out;
    }
  }

  lemma SameSurplus(streams: seq<seq<Row>>, streams': seq<seq<Row>>, out: seq<Row>, out': seq<Row>, key: int)
    requires 0 < |streams| == |streams'| && Surplus(streams', key) == Surplus(streams, key) && SurplusRows(out, streams', key)
    requires Keyed(out', key) == Keyed(out, key)
    requires
      var (all, all') := (Keyed(streams[0], key), Keyed(streams'[0], key));
      all' == all || (all != [] && all == [all[0]] + all')
    ensures SurplusRows(out', streams, key)
  {
    hide Keyed, SetMeaning.Count, Surplus;
    SameEnd(Keyed(streams[0], key), Keyed(streams'[0], key), Surplus(streams, key));
  }

  // Where only the first stream starts at the least key, no other stream has it.
  lemma AloneHasAll(streams: seq<seq<Row>>, streams': seq<seq<Row>>, least: int)
    requires AllOrdered(streams) && 2 <= |streams| && Round(streams, streams', least) && FirstAlone(streams, least)
    ensures Surplus(streams, least) == SetMeaning.Count(streams[0], least) > 0
  {
    OthersRound(streams, streams', least, least);
    RoundCounts(streams, streams', least, 0);
    hide SetMeaning.Count, Most, Round, AllOrdered;
  }

  lemma SameEnd(all: seq<Row>, all': seq<Row>, n: nat)
    requires n <= |all'| && (all' == all || (all != [] && all == [all[0]] + all'))
    ensures all'[|all'| - n..] == all[|all| - n..]
  {
  }

  lemma {:induction false} DifferenceDelivers(streams: seq<seq<Row>>, key: int)
    requires AllOrdered(streams) && 2 <= |streams|
    ensures SurplusRows(Rest(Difference, streams), streams, key)
    decreases TotalLength(streams)
  {
    if streams[0] != [] {
      hide Rest, Advance, Round, TotalLength, Heads, SetMeaning.Count, Surplus, AllOrdered, From, Sorted, Ordered, AllFrom, FirstAlone, SurplusRows;
      var streams', row := DifferenceRound(streams);
      RoundLeaves(streams, streams', row.key);
      DifferenceDelivers(streams', key);
      SurplusRowsStep(streams, streams', row, Rest(Difference, streams'), key);
    } else {
      RestUnfolds(Difference, streams);
    }
  }

  // ------------------------------------------------------------------- nothing else

  // An ordered sequence is known from its rows of each key.
  lemma {:induction false} SameByKeys(a: seq<Row>, b: seq<Row>)
    requires Ordered(a) && Ordered(b) && forall key :: Keyed(a, key) == Keyed(b, key)
    ensures a == b
    decreases |a|
  {
    HasOwnKey(a);
    HasOwnKey(b);
    if a != [] {
      NotAfter(b, a[0].key);
      NotAfter(a, b[0].key);
      forall key ensures Keyed(a[1..], key) == Keyed(b[1..], key) {
        assert Keyed(a, key) == Keyed(b, key);
        SameRest(if a[0].key == key then [a[0]] else [], Keyed(a[1..], key), Keyed(b[1..], key));
      }
      SameByKeys(a[1..], b[1..]);
    }
  }

  lemma HasOwnKey(s: seq<Row>)
    ensures s != [] ==> Keyed(s, s[0].key) != [] && Keyed(s, s[0].key)[0] == s[0]
  {
  }

  lemma SameRest(front: seq<Row>, u: seq<Row>, v: seq<Row>)
    requires front + u == front + v
    ensures u == v
  {
    assert (front + u)[|front|..] == u && (front + v)[|front|..] == v;
  }

  lemma {:induction false} NotAfter(s: seq<Row>, key: int)
    requires Ordered(s) && Keyed(s, key) != []
    ensures s != [] && s[0].key <= key
  {
    if s != [] && s[0].key > key {
      NotAfter(s[1..], key);
    }
  }
}
