// What union, intersection and difference of ordered streams deliver: in each
// case how many rows of every key, and in what order.
module SetMeaning {
  import opened Operators

  // How many rows of s carry this key.
  function Count(s: seq<Row>, key: int): (n: nat) {
    if s == [] then 0 else (if s[0].key == key then 1 else 0) + Count(s[1..], key)
  }

  ghost predicate Ordered(s: seq<Row>) {
    forall i, j :: 0 <= i < j < |s| ==> s[i].key <= s[j].key
  }

  ghost predicate AllOrdered(streams: seq<seq<Row>>) {
    forall i :: 0 <= i < |streams| ==> Ordered(streams[i])
  }

  // No key of s is below this one.
  ghost predicate From(s: seq<Row>, key: int) {
    forall i :: 0 <= i < |s| ==> key <= s[i].key
  }

  // The multiplicity of a key in the union, the intersection and the difference.
  function Most(streams: seq<seq<Row>>, key: int): (n: nat)
    ensures forall i :: 0 <= i < |streams| ==> Count(streams[i], key) <= n
    ensures streams != [] ==> exists i :: 0 <= i < |streams| && Count(streams[i], key) == n
    ensures streams == [] ==> n == 0
  {
    if streams == [] then 0
    else
      var n := Most(streams[1..], key);
      assert forall i :: 1 <= i < |streams| ==> streams[i] == streams[1..][i - 1];
      if Count(streams[0], key) < n then n else Count(streams[0], key)
  }

  function Fewest(streams: seq<seq<Row>>, key: int): (n: nat)
    requires streams != []
    ensures forall i :: 0 <= i < |streams| ==> n <= Count(streams[i], key)
    ensures exists i :: 0 <= i < |streams| && Count(streams[i], key) == n
  {
    if |streams| == 1 then Count(streams[0], key)
    else
      var n := Fewest(streams[1..], key);
      assert forall i :: 1 <= i < |streams| ==> streams[i] == streams[1..][i - 1];
      if Count(streams[0], key) < n then Count(streams[0], key) else n
  }

  function Surplus(streams: seq<seq<Row>>, key: int): (n: nat)
    requires streams != []
  {
    var own, others := Count(streams[0], key), Most(streams[1..], key);
    if own < others then 0 else own - others
  }

  // ------------------------------------------------------------ one round

  lemma NoneBelow(s: seq<Row>, key: int)
    requires From(s, key + 1)
    ensures Count(s, key) == 0
  {
    if s != [] {
      NoneBelow(s[1..], key);
    }
  }

  // The streams all start at `least` or above; a round takes the head of those
  // that start at `least`.
  ghost predicate Round(streams: seq<seq<Row>>, streams': seq<seq<Row>>, least: int) {
    && |streams| == |streams'|
    && (forall i :: 0 <= i < |streams| ==> From(streams[i], least))
    && forall i :: 0 <= i < |streams| ==>
         streams'[i] == if streams[i] != [] && streams[i][0].key == least then streams[i][1..] else streams[i]
  }

  lemma RoundCounts(streams: seq<seq<Row>>, streams': seq<seq<Row>>, least: int, i: nat)
    requires AllOrdered(streams) && Round(streams, streams', least) && i < |streams|
    ensures Count(streams'[i], least) == if Count(streams[i], least) == 0 then 0 else Count(streams[i], least) - 1
    ensures forall key :: key != least ==> Count(streams'[i], key) == Count(streams[i], key)
    ensures (Count(streams[i], least) > 0) == (streams[i] != [] && streams[i][0].key == least)
    ensures Ordered(streams'[i]) && From(streams'[i], least)
  {
    var s := streams[i];
    assert Ordered(s) && From(s, least);
    if s != [] && s[0].key != least {
      assert From(s, least + 1);
      NoneBelow(s, least);
    }
  }

  lemma RoundAll(streams: seq<seq<Row>>, streams': seq<seq<Row>>, least: int)
    requires AllOrdered(streams) && Round(streams, streams', least)
    ensures AllOrdered(streams') && forall i :: 0 <= i < |streams'| ==> From(streams'[i], least)
    ensures forall i :: 0 <= i < |streams| ==>
      && Count(streams'[i], least) == (if Count(streams[i], least) == 0 then 0 else Count(streams[i], least) - 1)
      && ((Count(streams[i], least) > 0) == (streams[i] != [] && streams[i][0].key == least))
    ensures forall i, key :: 0 <= i < |streams| && key != least ==> Count(streams'[i], key) == Count(streams[i], key)
  {
    forall i | 0 <= i < |streams|
      ensures Ordered(streams'[i]) && From(streams'[i], least)
      ensures Count(streams'[i], least) == (if Count(streams[i], least) == 0 then 0 else Count(streams[i], least) - 1)
      ensures (Count(streams[i], least) > 0) == (streams[i] != [] && streams[i][0].key == least)
      ensures forall key :: key != least ==> Count(streams'[i], key) == Count(streams[i], key)
    {
      RoundCounts(streams, streams', least, i);
    }
  }

  // How much a round takes off each count of a key.
  function Less(key: int, least: int): (n: nat) {
    if key == least then 1 else 0
  }

  ghost predicate Dropped(streams: seq<seq<Row>>, streams': seq<seq<Row>>, key: int, less: nat)
    requires |streams| == |streams'|
  {
    forall i :: 0 <= i < |streams| ==>
      Count(streams'[i], key) == if Count(streams[i], key) < less then 0 else Count(streams[i], key) - less
  }

  lemma RoundDrops(streams: seq<seq<Row>>, streams': seq<seq<Row>>, least: int, key: int)
    requires AllOrdered(streams) && Round(streams, streams', least)
    ensures |streams| == |streams'| && Dropped(streams, streams', key, Less(key, least))
  {
    RoundAll(streams, streams', least);
    hide Count, AllOrdered, Round;
  }

  lemma MostDrops(streams: seq<seq<Row>>, streams': seq<seq<Row>>, key: int, less: nat)
    requires |streams| == |streams'| && less <= 1
    requires Dropped(streams, streams', key, less)
    ensures Most(streams', key) == if Most(streams, key) < less then 0 else Most(streams, key) - less
  {
    hide Count;
    var n, n' := Most(streams, key), Most(streams', key);
    hide Most;
    if streams != [] {
      var i :| 0 <= i < |streams| && Count(streams[i], key) == n;
      var j :| 0 <= j < |streams| && Count(streams'[j], key) == n';
      assert Count(streams'[i], key) <= n' && Count(streams[j], key) <= n;
    }
  }

  lemma FewestDrops(streams: seq<seq<Row>>, streams': seq<seq<Row>>, key: int, less: nat)
    requires |streams| == |streams'| && less <= 1 && streams != []
    requires Dropped(streams, streams', key, less)
    ensures Fewest(streams', key) == if Fewest(streams, key) < less then 0 else Fewest(streams, key) - less
  {
    hide Count;
    var n, n' := Fewest(streams, key), Fewest(streams', key);
    hide Fewest;
    var i :| 0 <= i < |streams| && Count(streams[i], key) == n;
    var j :| 0 <= j < |streams| && Count(streams'[j], key) == n';
    assert Count(streams'[i], key) >= n' && Count(streams[j], key) >= n;
  }

  // The heads of ordered streams: what the scan finds is below everything, and
  // taking the streams that hold it is a Round.
  lemma LeastBelowAll(streams: seq<seq<Row>>)
    requires AllOrdered(streams)
    ensures
      var heads := Heads(streams);
      var index := Least(heads, |heads|);
      index.Some? ==>
        var least := heads[index.value].value.key;
        && index.value < |streams| && streams[index.value] != [] && streams[index.value][0].key == least
        && Round(streams, Advance(streams, Holding(heads, least)), least)
    ensures Least(Heads(streams), |streams|).None? ==> forall i :: 0 <= i < |streams| ==> streams[i] == []
  {
    var heads := Heads(streams);
    var index := Least(heads, |heads|);
    hide Least;
    if index.Some? {
      var least := heads[index.value].value.key;
      assert heads[index.value].Some?;
      forall i | 0 <= i < |streams| ensures From(streams[i], least) {
        assert Ordered(streams[i]);
        if streams[i] != [] {
          assert heads[i].Some? && least <= heads[i].value.key;
        }
      }
    } else {
      forall i | 0 <= i < |streams| ensures streams[i] == [] {
        assert heads[i].None?;
      }
    }
  }

  // Putting a row of the least key in front of a list that starts at it.
  lemma InFront(row: Row, s: seq<Row>)
    requires Ordered(s) && From(s, row.key)
    ensures Ordered([row] + s) && From([row] + s, row.key)
    ensures Count([row] + s, row.key) == Count(s, row.key) + 1
    ensures forall key :: key != row.key ==> Count([row] + s, key) == Count(s, key)
  {
    assert ([row] + s)[1..] == s;
  }

  ghost predicate AllFrom(streams: seq<seq<Row>>, key: int) {
    forall i :: 0 <= i < |streams| ==> From(streams[i], key)
  }

  // Ordered, and starting where the streams do.
  ghost predicate Sorted(out: seq<Row>, streams: seq<seq<Row>>) {
    Ordered(out) && forall low :: AllFrom(streams, low) ==> From(out, low)
  }

  lemma SortedCons(row: Row, out: seq<Row>, streams: seq<seq<Row>>, streams': seq<seq<Row>>)
    requires Sorted(out, streams') && Round(streams, streams', row.key)
    requires exists i :: 0 <= i < |streams| && streams[i] != [] && streams[i][0].key == row.key
    requires AllFrom(streams', row.key)
    ensures Sorted([row] + out, streams) && From(out, row.key) && Ordered(out)
  {
    forall low | AllFrom(streams, low) ensures From([row] + out, low) {
      var i :| 0 <= i < |streams| && streams[i] != [] && streams[i][0].key == row.key;
      assert From(streams[i], low);
      assert From(out, row.key);
    }
    InFront(row, out);
  }

  lemma SortedSkip(out: seq<Row>, streams: seq<seq<Row>>, streams': seq<seq<Row>>, least: int)
    requires Sorted(out, streams') && Round(streams, streams', least)
    ensures Sorted(out, streams)
  {
    forall low | AllFrom(streams, low) ensures AllFrom(streams', low) {
      assert forall i :: 0 <= i < |streams| ==> From(streams[i], low);
    }
  }

  // The streams that a round takes from are non-empty, so it shortens them.
  lemma RoundShortens(streams: seq<seq<Row>>)
    ensures
      var heads := Heads(streams);
      var index := Least(heads, |heads|);
      index.Some? ==>
        TotalLength(Advance(streams, Holding(heads, heads[index.value].value.key))) < TotalLength(streams)
  {
    var heads := Heads(streams);
    LeastHolds(heads);
    var index := Least(heads, |heads|);
    hide Least, TotalLength, Advance;
    if index.Some? {
      var holding := Holding(heads, heads[index.value].value.key);
      assert forall i :: i in holding ==> i < |streams| && heads[i].Some?;
      TakesAtLeast(streams, holding);
    }
  }

  lemma NoRows(streams: seq<seq<Row>>, key: int)
    requires forall i :: 0 <= i < |streams| ==> streams[i] == []
    ensures Most(streams, key) == 0
  {
  }

  function LeastKey(heads: seq<Option<Row>>): (r: int)
    requires Least(heads, |heads|).Some?
  {
    heads[Least(heads, |heads|).value].value.key
  }

  // The streams after those that hold the least key have been consumed.
  lemma TakeLeast(streams: seq<seq<Row>>) returns (streams': seq<seq<Row>>)
    requires AllOrdered(streams) && Least(Heads(streams), |streams|).Some?
    ensures streams' == Advance(streams, Holding(Heads(streams), LeastKey(Heads(streams))))
    ensures Round(streams, streams', LeastKey(Heads(streams)))
    ensures TotalLength(streams') < TotalLength(streams)
  {
    LeastBelowAll(streams);
    RoundShortens(streams);
    streams' := Advance(streams, Holding(Heads(streams), LeastKey(Heads(streams))));
  }

  lemma SomeLeast(streams: seq<seq<Row>>, i: nat)
    requires i < |streams| && streams[i] != []
    ensures Least(Heads(streams), |streams|).Some?
  {
    assert Heads(streams)[i].Some?;
  }

  // ----------------------------------------------------------------------- union

  lemma CountCons(row: Row, s: seq<Row>, key: int)
    ensures Count([row] + s, key) == Less(key, row.key) + Count(s, key)
  {
    assert ([row] + s)[1..] == s;
  }

  lemma UnionCounts(streams: seq<seq<Row>>, streams': seq<seq<Row>>, row: Row, out: seq<Row>, key: int)
    requires AllOrdered(streams) && Round(streams, streams', row.key)
    requires exists i :: 0 <= i < |streams| && streams[i] != [] && streams[i][0].key == row.key
    requires Count(out, key) == Most(streams', key)
    ensures Count([row] + out, key) == Most(streams, key)
  {
    hide Count, Most, Ordered, From, Round, AllOrdered, Dropped;
    var i :| 0 <= i < |streams| && streams[i] != [] && streams[i][0].key == row.key;
    RoundCounts(streams, streams', row.key, i);
    RoundDrops(streams, streams', row.key, key);
    CountCons(row, out, key);
    MostDrops(streams, streams', key, Less(key, row.key));
    assert 0 < Count(streams[i], row.key) <= Most(streams, row.key);
  }

  lemma UnionRest(streams: seq<seq<Row>>)
    requires 2 <= |streams|
    ensures
      var heads := Heads(streams);
      if Least(heads, |heads|).None? then Rest(Union, streams) == []
      else
        Rest(Union, streams) == [heads[Least(heads, |heads|).value].value] +
          Rest(Union, Advance(streams, Holding(heads, LeastKey(heads))))
  {
    RestUnfolds(Union, streams);
    hide Rest, Least, Holding, Advance, Heads;
  }

  // A round of union in which some stream has a value.
  lemma UnionRound(streams: seq<seq<Row>>) returns (streams': seq<seq<Row>>, row: Row)
    requires AllOrdered(streams) && 2 <= |streams| && Least(Heads(streams), |streams|).Some?
    ensures Round(streams, streams', row.key)
    ensures TotalLength(streams') < TotalLength(streams)
    ensures Rest(Union, streams) == [row] + Rest(Union, streams')
    ensures exists i :: 0 <= i < |streams| && streams[i] != [] && streams[i][0].key == row.key
    ensures FirstHead(streams, row)
  {
    hide Rest, Holding, Advance, TotalLength, AllOrdered, Round;
    var heads := Heads(streams);
    UnionRest(streams);
    streams' := TakeLeast(streams);
    var i := Least(heads, |heads|).value;
    hide Least;
    row := heads[i].value;
    assert streams[i] != [] && streams[i][0].key == row.key;
    forall j | 0 <= j < i && streams[j] != [] ensures streams[j][0].key != row.key {
      assert heads[j].Some?;
    }
  }

  // The row is the head of the first stream that starts at its key.
  ghost predicate FirstHead(streams: seq<seq<Row>>, row: Row) {
    exists i :: 0 <= i < |streams| && streams[i] != [] && streams[i][0] == row
      && forall j :: 0 <= j < i && streams[j] != [] ==> streams[j][0].key != row.key
  }

  lemma UnionStep(streams: seq<seq<Row>>, streams': seq<seq<Row>>, row: Row, out: seq<Row>)
    requires AllOrdered(streams) && Round(streams, streams', row.key)
    requires exists i :: 0 <= i < |streams| && streams[i] != [] && streams[i][0].key == row.key
    requires AllFrom(streams', row.key) && |streams| == |streams'|
    requires Sorted(out, streams') && forall key :: Count(out, key) == Most(streams', key)
    ensures Sorted([row] + out, streams) && forall key :: Count([row] + out, key) == Most(streams, key)
  {
    hide Round, Count, Most, Ordered, AllOrdered, From, AllFrom, Sorted;
    SortedCons(row, out, streams, streams');
    forall key ensures Count([row] + out, key) == Most(streams, key) {
      UnionCounts(streams, streams', row, out, key);
    }
  }

  // Every key as often as in the stream that has it most often.
  lemma {:induction false} UnionMeans(streams: seq<seq<Row>>)
    requires AllOrdered(streams) && 2 <= |streams|
    ensures Sorted(Rest(Union, streams), streams)
    ensures forall key :: Count(Rest(Union, streams), key) == Most(streams, key)
    decreases TotalLength(streams)
  {
    hide Rest, Least;
    if Least(Heads(streams), |streams|).Some? {
      hide Rest, Advance, Round, TotalLength, Heads, Least, Count, Most, AllOrdered, From, Sorted, Ordered, AllFrom;
      var streams', row := UnionRound(streams);
      RoundLeaves(streams, streams', row.key);
      UnionMeans(streams');
      UnionStep(streams, streams', row, Rest(Union, streams'));
    } else {
      NoUnion(streams);
    }
  }

  lemma NoUnion(streams: seq<seq<Row>>)
    requires AllOrdered(streams) && 2 <= |streams| && Least(Heads(streams), |streams|).None?
    ensures Rest(Union, streams) == [] && Sorted([], streams) && forall key :: Count([], key) == Most(streams, key)
  {
    UnionRest(streams);
    LeastBelowAll(streams);
    hide Rest, Least, Most, Heads;
    forall key ensures Most(streams, key) == 0 {
      NoRows(streams, key);
    }
  }

  // ---------------------------------------------------------------- intersection

  lemma EmptyStream(streams: seq<seq<Row>>, i: nat, key: int)
    requires i < |streams| && streams[i] == []
    ensures Fewest(streams, key) == 0
  {
    assert Count(streams[i], key) == 0;
  }

  lemma MeetCounts(streams: seq<seq<Row>>, streams': seq<seq<Row>>, row: Row, out: seq<Row>, key: int)
    requires AllOrdered(streams) && Round(streams, streams', row.key) && streams != []
    requires forall i :: 0 <= i < |streams| ==> streams[i] != [] && streams[i][0].key == row.key
    requires Count(out, key) == Fewest(streams', key)
    ensures Count([row] + out, key) == Fewest(streams, key)
  {
    hide Count, Fewest, Ordered, From, Sorted, Round, AllOrdered, AllFrom, Dropped;
    RoundDrops(streams, streams', row.key, key);
    CountCons(row, out, key);
    FewestDrops(streams, streams', key, Less(key, row.key));
    var i :| 0 <= i < |streams| && Count(streams[i], key) == Fewest(streams, key);
    RoundCounts(streams, streams', row.key, i);
  }

  // A round that delivers nothing: some stream has gone past the least key.
  lemma PassCounts(streams: seq<seq<Row>>, streams': seq<seq<Row>>, least: int, past: nat, key: int)
    requires AllOrdered(streams) && Round(streams, streams', least) && past < |streams|
    requires streams[past] != [] && streams[past][0].key != least
    ensures Fewest(streams', key) == Fewest(streams, key)
  {
    RoundAll(streams, streams', least);
    RoundDrops(streams, streams', least, key);
    hide Count, Fewest, Ordered, From, Dropped;
    assert Count(streams[past], least) == 0 && Count(streams'[past], least) == 0;
    FewestDrops(streams, streams', key, Less(key, least));
  }

  lemma NotAllEqual(streams: seq<seq<Row>>, least: int) returns (past: nat)
    requires |streams| > 0 && AllPresent(Heads(streams)) && !AllEqual(Heads(streams))
    ensures past < |streams| && streams[past] != [] && streams[past][0].key != least
  {
    var heads := Heads(streams);
    var i :| 0 <= i < |heads| && heads[i].value.key != heads[0].value.key;
    past := if heads[0].value.key == least then i else 0;
    assert heads[past].Some?;
  }

  lemma AllAtLeast(streams: seq<seq<Row>>)
    requires |streams| > 0 && AllPresent(Heads(streams)) && AllEqual(Heads(streams))
    ensures streams[0] != []
    ensures forall i :: 0 <= i < |streams| ==> streams[i] != [] && streams[i][0].key == streams[0][0].key
  {
    var heads := Heads(streams);
    assert heads[0].Some?;
    forall i | 0 <= i < |streams| ensures streams[i] != [] && streams[i][0].key == streams[0][0].key {
      assert heads[i].Some? && heads[i].value.key == heads[0].value.key;
    }
  }

  lemma IntersectionOutcome(heads: seq<Option<Row>>)
    requires 2 <= |heads| && AllPresent(heads) && Least(heads, |heads|).Some?
    ensures
      var o := Process(Intersection, heads);
      && o.op == Intersection && o.taken == Holding(heads, LeastKey(heads))
      && o.ok == AllEqual(heads) && (o.ok ==> o.value == heads[|heads| - 1].value)
  {
    hide Least, Holding, AllEqual;
  }

  lemma IntersectionRest(streams: seq<seq<Row>>)
    requires 2 <= |streams| && AllPresent(Heads(streams)) && Least(Heads(streams), |streams|).Some?
    ensures
      var heads := Heads(streams);
      Rest(Intersection, streams) ==
        (if AllEqual(heads) then [heads[|heads| - 1].value] else []) +
        Rest(Intersection, Advance(streams, Holding(heads, LeastKey(heads))))
  {
    hide Rest, Least, Holding, Advance, Heads, AllEqual, AllPresent, Process;
    var heads := Heads(streams);
    RestUnfolds(Intersection, streams);
    IntersectionOutcome(heads);
    var o, holding := Process(Intersection, heads), Holding(heads, LeastKey(heads));
    hide LeastKey;
    assert Rest(o.op, Advance(streams, o.taken)) == Rest(Intersection, Advance(streams, holding));
  }

  // A round of intersection in which every stream has a value.
  lemma IntersectionRound(streams: seq<seq<Row>>) returns (streams': seq<seq<Row>>, row: Row, met: bool)
    requires AllOrdered(streams) && 2 <= |streams| && AllPresent(Heads(streams))
    ensures Round(streams, streams', row.key)
    ensures TotalLength(streams') < TotalLength(streams)
    ensures Rest(Intersection, streams) == (if met then [row] else []) + Rest(Intersection, streams')
    ensures met ==> forall i :: 0 <= i < |streams| ==> streams[i] != [] && streams[i][0].key == row.key
    ensures !met ==> exists past :: 0 <= past < |streams| && streams[past] != [] && streams[past][0].key != row.key
    ensures met ==> row == streams[|streams| - 1][0]
  {
    hide Rest, Least, Holding, Advance, TotalLength, AllOrdered, AllEqual, Round;
    var heads := Heads(streams);
    assert heads[0].Some? && heads[|heads| - 1].Some?;
    SomeLeast(streams, 0);
    IntersectionRest(streams);
    streams' := TakeLeast(streams);
    var least := LeastKey(heads);
    met := AllEqual(heads);
    if met {
      AllAtLeast(streams);
      row := heads[|heads| - 1].value;
      LeastIsHead(heads);
    } else {
      var past := NotAllEqual(streams, least);
      row := Row(least, 0);
    }
  }

  lemma LeastIsHead(heads: seq<Option<Row>>)
    requires |heads| > 0 && AllPresent(heads) && AllEqual(heads) && Least(heads, |heads|).Some?
    ensures LeastKey(heads) == heads[|heads| - 1].value.key
  {
    hide Least;
  }

  lemma IntersectionStep(streams: seq<seq<Row>>, streams': seq<seq<Row>>, row: Row, met: bool, out: seq<Row>)
    requires AllOrdered(streams) && 2 <= |streams| && Round(streams, streams', row.key)
    requires met ==> forall i :: 0 <= i < |streams| ==> streams[i] != [] && streams[i][0].key == row.key
    requires !met ==> exists past :: 0 <= past < |streams| && streams[past] != [] && streams[past][0].key != row.key
    requires AllFrom(streams', row.key) && |streams| == |streams'|
    requires Sorted(out, streams') && forall key :: Count(out, key) == Fewest(streams', key)
    ensures
      var out' := (if met then [row] else []) + out;
      Sorted(out', streams) && forall key :: Count(out', key) == Fewest(streams, key)
  {
    hide Round, Count, Fewest, Ordered, AllOrdered, From, AllFrom, Sorted;
    if met {
      assert streams[0] != [];
      SortedCons(row, out, streams, streams');
      forall key ensures Count([row] + out, key) == Fewest(streams, key) {
        MeetCounts(streams, streams', row, out, key);
      }
    } else {
      SortedSkip(out, streams, streams', row.key);
      assert [] + out == out;
      var past :| 0 <= past < |streams| && streams[past] != [] && streams[past][0].key != row.key;
      forall key ensures Count(out, key) == Fewest(streams, key) {
        PassCounts(streams, streams', row.key, past, key);
      }
    }
  }

  // Every key as often as in the stream that has it least often.
  lemma {:induction false} IntersectionMeans(streams: seq<seq<Row>>)
    requires AllOrdered(streams) && 2 <= |streams|
    ensures Sorted(Rest(Intersection, streams), streams)
    ensures forall key :: Count(Rest(Intersection, streams), key) == Fewest(streams, key)
    decreases TotalLength(streams)
  {
    if AllPresent(Heads(streams)) {
      hide Rest, Advance, Round, TotalLength, Heads, Count, Fewest, From, Sorted, AllPresent, Ordered, AllOrdered, AllFrom;
      var streams', row, met := IntersectionRound(streams);
      RoundLeaves(streams, streams', row.key);
      IntersectionMeans(streams');
      IntersectionStep(streams, streams', row, met, Rest(Intersection, streams'));
    } else {
      NoIntersection(streams);
    }
  }

  lemma MissingInput(heads: seq<Option<Row>>)
    requires 2 <= |heads| && !AllPresent(heads)
    ensures Process(Intersection, heads) == Failed(Intersection)
  {
  }

  lemma NoIntersection(streams: seq<seq<Row>>)
    requires 2 <= |streams| && !AllPresent(Heads(streams))
    ensures Rest(Intersection, streams) == [] && Sorted([], streams)
    ensures forall key :: Count([], key) == Fewest(streams, key)
  {
    MissingInput(Heads(streams));
    RestUnfolds(Intersection, streams);
    var i :| 0 <= i < |streams| && Heads(streams)[i].None?;
    hide Rest, Process, Advance, Fewest, AllPresent;
    assert streams[i] == [];
    forall key ensures Fewest(streams, key) == 0 {
      EmptyStream(streams, i, key);
    }
  }

  lemma RoundLeaves(streams: seq<seq<Row>>, streams': seq<seq<Row>>, least: int)
    requires AllOrdered(streams) && Round(streams, streams', least)
    ensures |streams| == |streams'| && AllFrom(streams', least) && AllOrdered(streams')
  {
    RoundAll(streams, streams', least);
  }

  // ------------------------------------------------------------------ difference

  lemma DifferenceOutcome(heads: seq<Option<Row>>)
    requires 2 <= |heads| && heads[0].Some? && Least(heads, |heads|).Some?
    ensures
      var o := Process(Difference, heads);
      var holding := Holding(heads, LeastKey(heads));
      && o.op == Difference && o.taken == holding
      && o.ok == (holding == {0}) && (o.ok ==> o.value == heads[0].value)
  {
    hide Least, Holding;
  }

  lemma DifferenceRest(streams: seq<seq<Row>>)
    requires 2 <= |streams| && streams[0] != [] && Least(Heads(streams), |streams|).Some?
    ensures
      var heads := Heads(streams);
      var holding := Holding(heads, LeastKey(heads));
      Rest(Difference, streams) ==
        (if holding == {0} then [streams[0][0]] else []) + Rest(Difference, Advance(streams, holding))
  {
    assert Heads(streams)[0] == Some(streams[0][0]);
    hide Rest, Least, Holding, Advance, Heads, Process;
    var heads := Heads(streams);
    RestUnfolds(Difference, streams);
    DifferenceOutcome(heads);
    var o, holding := Process(Difference, heads), Holding(heads, LeastKey(heads));
    hide LeastKey;
    assert Rest(o.op, Advance(streams, o.taken)) == Rest(Difference, Advance(streams, holding));
    assert o.ok ==> [o.value] == [streams[0][0]];
  }

  lemma HoldingIs(streams: seq<seq<Row>>, key: int)
    ensures forall i: nat :: i in Holding(Heads(streams), key) <==> i < |streams| && streams[i] != [] && streams[i][0].key == key
  {
    var heads := Heads(streams);
    assert forall i :: 0 <= i < |streams| ==> (heads[i].Some? <==> streams[i] != []);
  }

  // Only the first stream starts at this key.
  ghost predicate FirstAlone(streams: seq<seq<Row>>, key: int) {
    && streams != [] && streams[0] != [] && streams[0][0].key == key
    && forall i :: 1 <= i < |streams| && streams[i] != [] ==> streams[i][0].key != key
  }

  lemma AloneIs(streams: seq<seq<Row>>, key: int)
    ensures Holding(Heads(streams), key) == {0} <==> FirstAlone(streams, key)
  {
    HoldingIs(streams, key);
    var holding := Holding(Heads(streams), key);
    hide Holding, Heads;
    if holding == {0} {
      assert 0 in holding;
      assert forall i :: 1 <= i < |streams| ==> i !in holding;
    }
  }

  // A round of difference in which the first stream has a value.
  lemma DifferenceRound(streams: seq<seq<Row>>) returns (streams': seq<seq<Row>>, row: Row)
    requires AllOrdered(streams) && 2 <= |streams| && streams[0] != []
    ensures Round(streams, streams', row.key)
    ensures TotalLength(streams') < TotalLength(streams)
    ensures Rest(Difference, streams) == (if FirstAlone(streams, row.key) then [row] else []) + Rest(Difference, streams')
    ensures FirstAlone(streams, row.key) ==> row == streams[0][0]
  {
    hide Rest, Least, Holding, Advance, TotalLength, AllOrdered, Round;
    SomeLeast(streams, 0);
    DifferenceRest(streams);
    streams' := TakeLeast(streams);
    var least := LeastKey(Heads(streams));
    AloneIs(streams, least);
    row := if FirstAlone(streams, least) then streams[0][0] else Row(least, 0);
  }

  lemma OthersDrop(streams: seq<seq<Row>>, streams': seq<seq<Row>>, key: int, less: nat)
    requires 0 < |streams| == |streams'| && less <= 1
    requires Dropped(streams, streams', key, less)
    ensures
      var most := Most(streams[1..], key);
      Most(streams'[1..], key) == if most < less then 0 else most - less
  {
    hide Count, Most;
    assert Dropped(streams[1..], streams'[1..], key, less);
    MostDrops(streams[1..], streams'[1..], key, less);
  }

  // How the others stand at the least key: none has it, or some does.
  lemma OthersAt(streams: seq<seq<Row>>, key: int)
    requires 2 <= |streams| && forall i :: 0 <= i < |streams| ==>
      ((Count(streams[i], key) > 0) == (streams[i] != [] && streams[i][0].key == key))
    ensures Most(streams[1..], key) > 0 <==> exists i :: 1 <= i < |streams| && streams[i] != [] && streams[i][0].key == key
  {
    var others := streams[1..];
    hide Count;
    var n := Most(others, key);
    hide Most;
    var i :| 0 <= i < |others| && Count(others[i], key) == n;
    assert others[i] == streams[i + 1];
    if j :| 1 <= j < |streams| && streams[j] != [] && streams[j][0].key == key {
      assert others[j - 1] == streams[j] && Count(others[j - 1], key) <= n;
    }
  }

  lemma OthersRound(streams: seq<seq<Row>>, streams': seq<seq<Row>>, least: int, key: int)
    requires AllOrdered(streams) && Round(streams, streams', least) && 2 <= |streams|
    ensures |streams| == |streams'|
    ensures
      var most, less := Most(streams[1..], key), if key == least then 1 else 0;
      Most(streams'[1..], key) == if most < less then 0 else most - less
    ensures Most(streams[1..], least) > 0 <==>
      exists i :: 1 <= i < |streams| && streams[i] != [] && streams[i][0].key == least
  {
    RoundAll(streams, streams', least);
    hide Count, Ordered, From, Round, AllOrdered, Most, Dropped;
    OthersAt(streams, least);
    RoundDrops(streams, streams', least, key);
    OthersDrop(streams, streams', key, Less(key, least));
  }

  lemma SurplusDrops(streams: seq<seq<Row>>, streams': seq<seq<Row>>, least: int, key: int)
    requires AllOrdered(streams) && Round(streams, streams', least) && 2 <= |streams| && streams[0] != []
    ensures |streams| == |streams'|
    ensures Surplus(streams', key) == Surplus(streams, key) - if key == least && FirstAlone(streams, least) then 1 else 0
  {
    hide Count, Ordered, From, Round, AllOrdered, Most;
    OthersRound(streams, streams', least, key);
    RoundCounts(streams, streams', least, 0);
  }

  lemma AloneCounts(streams: seq<seq<Row>>, streams': seq<seq<Row>>, row: Row, out: seq<Row>, key: int)
    requires AllOrdered(streams) && Round(streams, streams', row.key) && 2 <= |streams| && FirstAlone(streams, row.key)
    requires Count(out, key) == Surplus(streams', key)
    ensures Count([row] + out, key) == Surplus(streams, key)
  {
    SurplusDrops(streams, streams', row.key, key);
    hide Count, Round, AllOrdered, Most, Surplus;
    CountCons(row, out, key);
  }

  lemma DifferenceStep(streams: seq<seq<Row>>, streams': seq<seq<Row>>, row: Row, out: seq<Row>)
    requires AllOrdered(streams) && 2 <= |streams| && Round(streams, streams', row.key) && streams[0] != []
    requires AllFrom(streams', row.key) && |streams| == |streams'|
    requires Sorted(out, streams') && forall key :: Count(out, key) == Surplus(streams', key)
    ensures
      var out' := (if FirstAlone(streams, row.key) then [row] else []) + out;
      Sorted(out', streams) && forall key :: Count(out', key) == Surplus(streams, key)
  {
    hide Round, Count, Surplus, Ordered, AllOrdered, From, AllFrom, Sorted;
    if FirstAlone(streams, row.key) {
      assert streams[0] != [] && streams[0][0].key == row.key;
      SortedCons(row, out, streams, streams');
      forall key ensures Count([row] + out, key) == Surplus(streams, key) {
        AloneCounts(streams, streams', row, out, key);
      }
    } else {
      SortedSkip(out, streams, streams', row.key);
      assert [] + out == out;
      forall key ensures Count(out, key) == Surplus(streams, key) {
        SurplusDrops(streams, streams', row.key, key);
      }
    }
  }

  // Every key as often as the first stream has it beyond what any other does.
  lemma {:induction false} DifferenceMeans(streams: seq<seq<Row>>)
    requires AllOrdered(streams) && 2 <= |streams|
    ensures Sorted(Rest(Difference, streams), streams)
    ensures forall key :: Count(Rest(Difference, streams), key) == Surplus(streams, key)
    decreases TotalLength(streams)
  {
    if streams[0] != [] {
      hide Rest, Advance, Round, TotalLength, Heads, Count, Surplus, AllOrdered, From, Sorted, Ordered, AllFrom, FirstAlone;
      var streams', row := DifferenceRound(streams);
      RoundLeaves(streams, streams', row.key);
      DifferenceMeans(streams');
      DifferenceStep(streams, streams', row, Rest(Difference, streams'));
    } else {
      RestUnfolds(Difference, streams);
    }
  }

  // With fewer than two streams the set operators deliver nothing.
  lemma TooFewStreams(op: Op, streams: seq<seq<Row>>)
    requires |streams| < 2 && (op.Union? || op.Intersection? || op.Difference?)
    ensures Rest(op, streams) == []
  {
    RestUnfolds(op, streams);
  }

  // ----------------------------------------------------------- plain set algebra

  ghost predicate Strict(s: seq<Row>) {
    forall i, j :: 0 <= i < j < |s| ==> s[i].key < s[j].key
  }

  function Keys(s: seq<Row>): (r: set<int>) {
    set i | 0 <= i < |s| :: s[i].key
  }

  lemma KeysTail(s: seq<Row>)
    requires s != []
    ensures Keys(s) == {s[0].key} + Keys(s[1..])
  {
    forall k ensures k in Keys(s) <==> k in {s[0].key} + Keys(s[1..]) {
      if k in Keys(s) {
        var i :| 0 <= i < |s| && s[i].key == k;
        assert i > 0 ==> s[1..][i - 1].key == k;
      }
      if k in Keys(s[1..]) {
        var i :| 0 <= i < |s[1..]| && s[1..][i].key == k;
        assert s[i + 1].key == k;
      }
    }
  }

  lemma {:induction false} CountedInKeys(s: seq<Row>, key: int)
    ensures Count(s, key) > 0 <==> key in Keys(s)
  {
    if s != [] {
      CountedInKeys(s[1..], key);
      KeysTail(s);
    }
  }

  lemma {:induction false} StrictCounts(s: seq<Row>, key: int)
    requires Strict(s)
    ensures Count(s, key) <= 1
  {
    if s != [] {
      StrictCounts(s[1..], key);
      if s[0].key == key {
        assert From(s[1..], key + 1);
        NoneBelow(s[1..], key);
      }
    }
  }

  lemma {:induction false} CountedOnce(s: seq<Row>)
    requires Ordered(s) && forall key :: Count(s, key) <= 1
    ensures Strict(s)
  {
    if s != [] {
      var rest := s[1..];
      assert forall key :: Count(rest, key) <= Count(s, key);
      CountedOnce(rest);
      CountedInKeys(rest, s[0].key);
      assert forall i :: 0 <= i < |rest| ==> rest[i].key in Keys(rest);
      assert forall i :: 1 <= i < |s| ==> s[i] == rest[i - 1];
    }
  }

  ghost predicate AllStrict(streams: seq<seq<Row>>) {
    forall i :: 0 <= i < |streams| ==> Strict(streams[i])
  }

  lemma AllStrictCounts(streams: seq<seq<Row>>)
    requires AllStrict(streams)
    ensures AllOrdered(streams)
    ensures forall i, key :: 0 <= i < |streams| ==> Count(streams[i], key) == if key in Keys(streams[i]) then 1 else 0
  {
    forall i, key | 0 <= i < |streams|
      ensures Count(streams[i], key) == if key in Keys(streams[i]) then 1 else 0
    {
      StrictCounts(streams[i], key);
      CountedInKeys(streams[i], key);
    }
  }

  // On strictly increasing streams the operators are set algebra on the keys, and
  // deliver strictly increasing streams again.
  lemma UnionOfSets(streams: seq<seq<Row>>)
    requires AllStrict(streams) && 2 <= |streams|
    ensures Strict(Rest(Union, streams))
    ensures forall key :: key in Keys(Rest(Union, streams)) <==> exists i :: 0 <= i < |streams| && key in Keys(streams[i])
  {
    AllStrictCounts(streams);
    UnionMeans(streams);
    var out := Rest(Union, streams);
    hide Rest, Count, Keys;
    forall key ensures Count(out, key) <= 1 && (key in Keys(out) <==> exists i :: 0 <= i < |streams| && key in Keys(streams[i])) {
      CountedInKeys(out, key);
      assert Count(out, key) == Most(streams, key);
    }
    CountedOnce(out);
  }

  lemma IntersectionOfSets(streams: seq<seq<Row>>)
    requires AllStrict(streams) && 2 <= |streams|
    ensures Strict(Rest(Intersection, streams))
    ensures forall key :: key in Keys(Rest(Intersection, streams)) <==> forall i :: 0 <= i < |streams| ==> key in Keys(streams[i])
  {
    AllStrictCounts(streams);
    IntersectionMeans(streams);
    var out := Rest(Intersection, streams);
    hide Rest, Count, Keys;
    forall key ensures Count(out, key) <= 1 && (key in Keys(out) <==> forall i :: 0 <= i < |streams| ==> key in Keys(streams[i])) {
      CountedInKeys(out, key);
      assert Count(out, key) == Fewest(streams, key);
    }
    CountedOnce(out);
  }

  lemma DifferenceOfSets(streams: seq<seq<Row>>)
    requires AllStrict(streams) && 2 <= |streams|
    ensures Strict(Rest(Difference, streams))
    ensures forall key :: key in Keys(Rest(Difference, streams)) <==>
      key in Keys(streams[0]) && forall i :: 1 <= i < |streams| ==> key !in Keys(streams[i])
  {
    AllStrictCounts(streams);
    DifferenceMeans(streams);
    var out := Rest(Difference, streams);
    var others := streams[1..];
    assert forall i :: 1 <= i < |streams| ==> others[i - 1] == streams[i];
    hide Rest, Count, Keys;
    forall key
      ensures Count(out, key) <= 1
      ensures key in Keys(out) <==> key in Keys(streams[0]) && forall i :: 1 <= i < |streams| ==> key !in Keys(streams[i])
    {
      CountedInKeys(out, key);
      assert Count(out, key) == Surplus(streams, key);
      var i :| 0 <= i < |others| && Count(others[i], key) == Most(others, key);
      assert others[i] == streams[i + 1];
      assert forall j :: 1 <= j < |streams| ==> Count(streams[j], key) <= Most(others, key);
    }
    CountedOnce(out);
  }
}
