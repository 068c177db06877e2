// group_and_sort of the worker: records are handles to shared contents. Assigning a
// handle copies contents into the cell it shares; copy-constructing one shares the
// cell.
module GroupAndSort {
  datatype Content = Content(timestamp: int, place: int)

  class Loc {
    var content: Content

    constructor (content: Content)
      ensures this.content == content
    {
      this.content := content;
    }

    method MakeCopy() returns (copy: Loc)
      ensures fresh(copy) && copy.content == content
    {
      copy := new Loc(content);
    }

    // operator=
    method Assign(data: Loc)
      modifies this
      ensures content == old(data.content)
    {
      if data != this {
        content := data.content;
      }
    }
  }

  ghost predicate Distinct(arr: seq<Loc>) {
    forall i, j :: 0 <= i < j < |arr| ==> arr[i] != arr[j]
  }

  ghost function View(arr: seq<Loc>): (v: seq<Content>)
    reads arr
    ensures |v| == |arr| && forall i :: 0 <= i < |arr| ==> v[i] == arr[i].content
  {
    seq(|arr|, i requires 0 <= i < |arr| reads arr => arr[i].content)
  }

  // --------------------------------------------------------- contents as sequences

  function Swap(v: seq<Content>, i: nat, j: nat): (r: seq<Content>)
    requires i < |v| && j < |v|
    ensures |r| == |v|
  {
    v[i := v[j]][j := v[i]]
  }

  // The part from low to high (both included) is permuted, the rest untouched.
  ghost predicate Permuted(v: seq<Content>, v': seq<Content>, low: int, high: int)
    requires 0 <= low <= high + 1 <= |v|
  {
    && |v'| == |v|
    && (forall k :: 0 <= k < |v| && !(low <= k <= high) ==> v'[k] == v[k])
    && multiset(v'[low..high + 1]) == multiset(v[low..high + 1])
  }

  lemma SwapPermutes(v: seq<Content>, low: int, high: int, i: nat, j: nat)
    requires 0 <= low <= i <= j <= high < |v|
    ensures Permuted(v, Swap(v, i, j), low, high)
  {
    var a, b := v[low..high + 1], Swap(v, i, j)[low..high + 1];
    SwapKeeps(a, i - low, j - low);
    assert b == Swap(a, i - low, j - low);
  }

  lemma SwapKeeps(a: seq<Content>, i: nat, j: nat)
    requires i <= j < |a|
    ensures multiset(Swap(a, i, j)) == multiset(a)
  {
    if i < j {
      var x, y, z := a[..i], a[i + 1..j], a[j + 1..];
      assert a == x + [a[i]] + y + [a[j]] + z;
      assert Swap(a, i, j) == x + [a[j]] + y + [a[i]] + z;
    } else {
      assert Swap(a, i, j) == a;
    }
  }

  lemma PermutedTwice(u: seq<Content>, v: seq<Content>, w: seq<Content>, low: int, high: int)
    requires 0 <= low <= high + 1 <= |u| && Permuted(u, v, low, high) && Permuted(v, w, low, high)
    ensures Permuted(u, w, low, high)
  {
  }

  // Permuting a smaller range permutes a larger one.
  lemma Widen(v: seq<Content>, v': seq<Content>, low: int, high: int, low': int, high': int)
    requires 0 <= low' <= low <= high + 1 <= high' + 1 <= |v| && Permuted(v, v', low, high)
    ensures Permuted(v, v', low', high')
  {
    assert v[low'..high' + 1] == v[low'..low] + v[low..high + 1] + v[high + 1..high' + 1];
    assert v'[low'..high' + 1] == v'[low'..low] + v'[low..high + 1] + v'[high + 1..high' + 1];
    assert v'[low'..low] == v[low'..low] && v'[high + 1..high' + 1] == v[high + 1..high' + 1];
  }

  // Every value in a permuted range was in the range before.
  lemma StillThere(v: seq<Content>, v': seq<Content>, low: int, high: int, k: int) returns (j: int)
    requires 0 <= low <= k <= high < |v| && Permuted(v, v', low, high)
    ensures low <= j <= high && v[j] == v'[k]
  {
    var a, b := v[low..high + 1], v'[low..high + 1];
    assert b[k - low] in multiset(b);
    assert b[k - low] in a;
    var i :| 0 <= i < |a| && a[i] == b[k - low];
    j := i + low;
  }

  ghost predicate Sorted(v: seq<Content>, low: int, high: int)
    requires 0 <= low <= high + 1 <= |v|
  {
    forall i, j :: low <= i <= j <= high ==> v[i].timestamp <= v[j].timestamp
  }

  // A partitioned range around p.
  ghost predicate Split(v: seq<Content>, low: int, p: int, high: int)
    requires 0 <= low <= p <= high < |v|
  {
    && (forall k :: low <= k < p ==> v[k].timestamp <= v[p].timestamp)
    && (forall k :: p < k <= high ==> v[k].timestamp > v[p].timestamp)
  }

  lemma SplitStays(v: seq<Content>, v': seq<Content>, low: int, p: int, high: int, left: bool)
    requires 0 <= low <= p <= high < |v| && Split(v, low, p, high)
    requires if left then Permuted(v, v', low, p - 1) else Permuted(v, v', p + 1, high)
    ensures |v'| == |v| && Split(v', low, p, high)
  {
    forall k | low <= k < p ensures v'[k].timestamp <= v'[p].timestamp {
      if left {
        var j := StillThere(v, v', low, p - 1, k);
      }
    }
    forall k | p < k <= high ensures v'[k].timestamp > v'[p].timestamp {
      if !left {
        var j := StillThere(v, v', p + 1, high, k);
      }
    }
  }

  // ------------------------------------------------------------------- quicksort

  // The three statements that exchange two records through a copy.
  method Exchange(arr: seq<Loc>, i: nat, j: nat)
    requires Distinct(arr) && i < |arr| && j < |arr|
    modifies {arr[i], arr[j]}
    ensures View(arr) == Swap(old(View(arr)), i, j)
  {
    var tmp := arr[i].MakeCopy();
    arr[i].Assign(arr[j]);
    arr[j].Assign(tmp);
  }

  lemma PermutedSelf(v: seq<Content>, low: int, high: int)
    requires 0 <= low <= high + 1 <= |v|
    ensures Permuted(v, v, low, high)
  {
  }

  ghost predicate Early(v: seq<Content>, from: int, to: int, t: int)
    requires 0 <= from && to <= |v|
  {
    forall k :: from <= k < to ==> v[k].timestamp <= t
  }

  ghost predicate Late(v: seq<Content>, from: int, to: int, t: int)
    requires 0 <= from && to <= |v|
  {
    forall k :: from <= k < to ==> v[k].timestamp > t
  }

  // Before record j is looked at: the records up to i are not later than the pivot,
  // those from i + 1 to j - 1 are, and the pivot is still at the end.
  ghost predicate Partitioning(was: seq<Content>, v: seq<Content>, low: int, high: int, i: int, j: int)
    requires 0 <= low <= high < |was|
  {
    && low - 1 <= i < j <= high && |v| == |was|
    && Permuted(was, v, low, high) && v[high] == was[high]
    && Early(v, low, i + 1, was[high].timestamp) && Late(v, i + 1, j, was[high].timestamp)
  }

  lemma EarlySwap(v: seq<Content>, low: int, i: int, j: int, t: int)
    requires 0 <= low <= i <= j < |v| && Early(v, low, i, t) && v[j].timestamp <= t
    ensures Early(Swap(v, i, j), low, i + 1, t)
  {
  }

  lemma LateSwap(v: seq<Content>, i: int, j: int, t: int)
    requires 0 <= i <= j < |v| && Late(v, i, j, t)
    ensures Late(Swap(v, i, j), i + 1, j + 1, t)
  {
  }

  lemma LateMore(v: seq<Content>, i: int, j: int, t: int)
    requires 0 <= i <= j < |v| && Late(v, i, j, t) && v[j].timestamp > t
    ensures Late(v, i, j + 1, t)
  {
  }

  lemma SwapPermutesAgain(was: seq<Content>, v: seq<Content>, low: int, high: int, i: int, j: int)
    requires 0 <= low <= i <= j <= high < |was| == |v| && Permuted(was, v, low, high)
    ensures Permuted(was, Swap(v, i, j), low, high)
  {
    hide Permuted, Swap;
    SwapPermutes(v, low, high, i, j);
    PermutedTwice(was, v, Swap(v, i, j), low, high);
  }

  lemma PartitionStep(was: seq<Content>, v: seq<Content>, low: int, high: int, i: int, j: int)
    requires 0 <= low <= high < |was| && Partitioning(was, v, low, high, i, j) && j < high
    ensures |v| == |was|
    ensures v[j].timestamp <= v[high].timestamp ==> Partitioning(was, Swap(v, i + 1, j), low, high, i + 1, j + 1)
    ensures v[j].timestamp > v[high].timestamp ==> Partitioning(was, v, low, high, i, j + 1)
  {
    hide Permuted, Early, Late;
    assert Swap(v, i + 1, j)[high] == v[high];
    hide Swap;
    if v[j].timestamp <= v[high].timestamp {
      SwapPermutesAgain(was, v, low, high, i + 1, j);
      EarlySwap(v, low, i + 1, j, was[high].timestamp);
      LateSwap(v, i + 1, j, was[high].timestamp);
    } else {
      LateMore(v, i + 1, j, was[high].timestamp);
    }
  }

  lemma PartitionEnd(was: seq<Content>, v: seq<Content>, low: int, high: int, i: int)
    requires 0 <= low <= high < |was| && Partitioning(was, v, low, high, i, high)
    ensures |v| == |was| && Permuted(was, Swap(v, i + 1, high), low, high)
    ensures Split(Swap(v, i + 1, high), low, i + 1, high)
  {
    hide Permuted;
    assert Swap(v, i + 1, high)[i + 1] == v[high];
    hide Swap;
    SwapPermutesAgain(was, v, low, high, i + 1, high);
    EarlySwap(v, low, i + 1, high, was[high].timestamp);
    LateSwap(v, i + 1, high, was[high].timestamp);
  }

  // One turn of the loop: a record not later than the pivot moves to the front part.
  method LookAt(arr: seq<Loc>, pivot: Loc, low: int, high: int, i: int, j: int, ghost was: seq<Content>) returns (i': int)
    requires Distinct(arr) && 0 <= low <= high < |arr| == |was| && j < high && pivot == arr[high]
    requires Partitioning(was, View(arr), low, high, i, j)
    modifies arr
    ensures Partitioning(was, View(arr), low, high, i', j + 1)
  {
    PartitionStep(was, View(arr), low, high, i, j);
    assert 0 <= i + 1 <= j;
    hide Partitioning, Swap, Distinct, View;
    i' := i;
    if arr[j].content.timestamp <= pivot.content.timestamp {
      i' := i + 1;
      Exchange(arr, i', j);
    }
  }

  // The pivot shares its cell with the last record; no exchange in the loop touches
  // that cell, because the handles are distinct.
  method Partition(arr: seq<Loc>, low: int, high: int) returns (p: int)
    requires Distinct(arr) && 0 <= low <= high < |arr|
    modifies arr
    ensures low <= p <= high
    ensures Permuted(old(View(arr)), View(arr), low, high)
    ensures Split(View(arr), low, p, high)
  {
    ghost var was := View(arr);
    var pivot := arr[high];
    var i := low - 1;
    PermutedSelf(was, low, high);
    assert Partitioning(was, was, low, high, i, low);
    hide Permuted, Split, Distinct, View, Early, Late, Swap;
    for j := low to high
      invariant Partitioning(was, View(arr), low, high, i, j)
    {
      i := LookAt(arr, pivot, low, high, i, j, was);
    }
    PartitionEnd(was, View(arr), low, high, i);
    p := i + 1;
    hide Partitioning;
    Exchange(arr, p, high);
  }

  lemma SortedOne(v: seq<Content>, low: int, high: int)
    requires 0 <= low <= high + 1 <= |v|
    ensures high <= low ==> Sorted(v, low, high)
  {
  }

  method QuickSort(arr: seq<Loc>, low: int, high: int)
    requires Distinct(arr) && 0 <= low <= high + 1 <= |arr|
    modifies arr
    ensures Permuted(old(View(arr)), View(arr), low, high)
    ensures Sorted(View(arr), low, high)
    decreases high - low
  {
    hide Permuted, Split, Sorted, View, Distinct;
    ghost var was := View(arr);
    PermutedSelf(was, low, high);
    SortedOne(was, low, high);
    if low < high {
      var pi := Partition(arr, low, high);
      ghost var v1 := View(arr);
      QuickSort(arr, low, pi - 1);
      ghost var v2 := View(arr);
      QuickSort(arr, pi + 1, high);
      BothHalves(was, v1, v2, View(arr), low, pi, high);
    }
  }

  lemma BothHalves(was: seq<Content>, v1: seq<Content>, v2: seq<Content>, v3: seq<Content>, low: int, pi: int, high: int)
    requires 0 <= low <= pi <= high < |was| == |v1| == |v2| == |v3|
    requires Permuted(was, v1, low, high) && Split(v1, low, pi, high)
    requires Permuted(v1, v2, low, pi - 1) && Sorted(v2, low, pi - 1)
    requires Permuted(v2, v3, pi + 1, high) && Sorted(v3, pi + 1, high)
    ensures Permuted(was, v3, low, high) && Sorted(v3, low, high)
  {
    hide Permuted, Split, Sorted;
    SplitStays(v1, v2, low, pi, high, true);
    SplitStays(v2, v3, low, pi, high, false);
    Widen(v1, v2, low, pi - 1, low, high);
    Widen(v2, v3, pi + 1, high, low, high);
    PermutedTwice(was, v1, v2, low, high);
    PermutedTwice(was, v2, v3, low, high);
    SortedHalves(v2, v3, low, pi, high);
  }

  lemma SortedHalves(v2: seq<Content>, v3: seq<Content>, low: int, p: int, high: int)
    requires 0 <= low <= p <= high < |v2| && Sorted(v2, low, p - 1) && Permuted(v2, v3, p + 1, high)
    requires |v3| == |v2| && Sorted(v3, p + 1, high) && Split(v3, low, p, high)
    ensures Sorted(v3, low, high)
  {
    assert forall k :: low <= k <= p ==> v3[k] == v2[k];
  }

  // quicksort(arr): the whole vector, sorted and a permutation.
  method SortAll(arr: seq<Loc>)
    requires Distinct(arr)
    modifies arr
    ensures multiset(View(arr)) == multiset(old(View(arr)))
    ensures Sorted(View(arr), 0, |arr| - 1)
  {
    QuickSort(arr, 0, |arr| - 1);
    assert View(arr)[0..|arr|] == View(arr);
    assert old(View(arr))[0..|arr|] == old(View(arr));
  }

  // -------------------------------------------------------------------- grouping

  datatype Entry = Entry(phone: int, loc: Loc)

  function Handles(input: seq<Entry>): (r: seq<Loc>)
    ensures |r| == |input| && forall i :: 0 <= i < |r| ==> r[i] == input[i].loc
  {
    seq(|input|, i requires 0 <= i < |input| => input[i].loc)
  }

  // The records of one phone number, in input order.
  function Own(input: seq<Entry>, phone: int): (r: seq<Loc>)
    ensures forall l :: l in r ==> exists i :: 0 <= i < |input| && input[i] == Entry(phone, l)
    ensures forall l :: l in r ==> l in Handles(input)
    ensures forall i :: 0 <= i < |input| && input[i].phone == phone ==> input[i].loc in r
  {
    if input == [] then []
    else
      var n := |input| - 1;
      Own(input[..n], phone) + if input[n].phone == phone then [input[n].loc] else []
  }

  ghost predicate HasPhone(input: seq<Entry>, phone: int) {
    exists i :: 0 <= i < |input| && input[i].phone == phone
  }

  lemma {:induction false} OwnDistinct(input: seq<Entry>, phone: int)
    requires Distinct(Handles(input))
    ensures Distinct(Own(input, phone))
    ensures Own(input, phone) != [] <==> HasPhone(input, phone)
  {
    if input != [] {
      var n := |input| - 1;
      assert Handles(input[..n]) == Handles(input)[..n];
      OwnDistinct(input[..n], phone);
      if input[n].phone == phone {
        forall l | l in Own(input[..n], phone) ensures l != input[n].loc {
          var i :| 0 <= i < n && input[..n][i] == Entry(phone, l);
          assert Handles(input)[i] != Handles(input)[n];
        }
      } else if HasPhone(input, phone) {
        var i :| 0 <= i < |input| && input[i].phone == phone;
        assert input[..n][i].phone == phone;
      }
    }
  }

  datatype Grouped = Grouped(phone: int, history: seq<Loc>)

  lemma NextEntry(input: seq<Entry>, n: nat, phone: int)
    requires n < |input|
    ensures HasPhone(input[..n + 1], phone) <==> HasPhone(input[..n], phone) || input[n].phone == phone
    ensures Own(input[..n + 1], phone) ==
      Own(input[..n], phone) + if input[n].phone == phone then [input[n].loc] else []
    ensures !HasPhone(input[..n], phone) ==> Own(input[..n], phone) == []
  {
    var more := input[..n + 1];
    assert more[..n] == input[..n] && more[n] == input[n];
    if HasPhone(more, phone) && input[n].phone != phone {
      var i :| 0 <= i < |more| && more[i].phone == phone;
      assert input[..n][i].phone == phone;
    }
    if HasPhone(input[..n], phone) {
      var i :| 0 <= i < n && input[..n][i].phone == phone;
      assert more[i].phone == phone;
    }
    if Own(input[..n], phone) != [] {
      var l := Own(input[..n], phone)[0];
      var i :| 0 <= i < n && input[..n][i] == Entry(phone, l);
    }
  }

  // The loop that fills the hash map.
  method BuildGroups(input: seq<Entry>) returns (groups: map<int, seq<Loc>>)
    ensures forall phone :: phone in groups <==> HasPhone(input, phone)
    ensures forall phone :: phone in groups ==> groups[phone] == Own(input, phone)
  {
    hide HasPhone, Own;
    groups := map[];
    NoEntries();
    for n := 0 to |input|
      invariant forall phone :: phone in groups <==> HasPhone(input[..n], phone)
      invariant forall phone :: phone in groups ==> groups[phone] == Own(input[..n], phone)
    {
      var entry := input[n];
      ghost var before := groups;
      if entry.phone in groups {
        groups := groups[entry.phone := groups[entry.phone] + [entry.loc]];
      } else {
        groups := groups[entry.phone := [entry.loc]];
      }
      forall phone
        ensures phone in groups <==> HasPhone(input[..n + 1], phone)
        ensures phone in groups ==> groups[phone] == Own(input[..n + 1], phone)
      {
        NextEntry(input, n, phone);
        assert before[entry.phone := []].Keys == before.Keys + {entry.phone};
      }
    }
    assert input[..|input|] == input;
  }

  lemma NoEntries()
    ensures forall phone :: !HasPhone([], phone)
  {
  }

  // The contents of the records of one number, given the contents of all records.
  function OwnContents(input: seq<Entry>, v: seq<Content>, phone: int): (r: seq<Content>)
    requires |v| == |input|
  {
    if input == [] then []
    else
      var n := |input| - 1;
      OwnContents(input[..n], v[..n], phone) + if input[n].phone == phone then [v[n]] else []
  }

  lemma {:induction false} OwnView(input: seq<Entry>, phone: int)
    ensures View(Own(input, phone)) == OwnContents(input, View(Handles(input)), phone)
  {
    if input != [] {
      var n := |input| - 1;
      OwnView(input[..n], phone);
      assert View(Handles(input))[..n] == View(Handles(input[..n]));
    }
  }

  // The contents `now` of this number's records are those of `was`, sorted by time.
  ghost predicate SortedOwn(input: seq<Entry>, was: seq<Content>, now: seq<Content>, phone: int)
    requires |was| == |input| == |now|
  {
    var own := OwnContents(input, now, phone);
    Sorted(own, 0, |own| - 1) && multiset(own) == multiset(OwnContents(input, was, phone))
  }

  lemma {:induction false} OwnContentsSame(input: seq<Entry>, v: seq<Content>, v': seq<Content>, phone: int)
    requires |v| == |v'| == |input|
    requires forall i :: 0 <= i < |input| && input[i].phone == phone ==> v'[i] == v[i]
    ensures OwnContents(input, v', phone) == OwnContents(input, v, phone)
  {
    if input != [] {
      var n := |input| - 1;
      OwnContentsSame(input[..n], v[..n], v'[..n], phone);
    }
  }

  lemma NotOwn(input: seq<Entry>, phone: int, i: nat)
    requires Distinct(Handles(input)) && i < |input| && input[i].phone != phone
    ensures input[i].loc !in Own(input, phone)
  {
    forall j | 0 <= j < |input| ensures input[j] != Entry(phone, input[i].loc) {
      assert i != j ==> Handles(input)[i] != Handles(input)[j];
    }
  }

  method SortGroup(input: seq<Entry>, sorting: seq<Loc>, ghost phone: int)
    requires Distinct(Handles(input)) && sorting == Own(input, phone)
    modifies Handles(input)
    ensures SortedOwn(input, old(View(Handles(input))), View(Handles(input)), phone)
    ensures forall other :: other != phone ==>
      OwnContents(input, View(Handles(input)), other) == OwnContents(input, old(View(Handles(input))), other)
  {
    ghost var was := View(Handles(input));
    OwnView(input, phone);
    GroupFrame(input, phone);
    hide Own, OwnContents, Distinct;
    SortAll(sorting);
    ghost var now := View(Handles(input));
    OwnView(input, phone);
    assert forall i :: 0 <= i < |input| && input[i].phone != phone ==> now[i] == was[i];
    hide View, Handles;
    OthersSame(input, was, now, phone);
  }

  // The handles of a group are distinct, and other groups have other handles.
  lemma GroupFrame(input: seq<Entry>, phone: int)
    requires Distinct(Handles(input))
    ensures Distinct(Own(input, phone))
    ensures forall i :: 0 <= i < |input| && input[i].phone != phone ==> input[i].loc !in Own(input, phone)
    ensures forall i :: 0 <= i < |Own(input, phone)| ==> Own(input, phone)[i] in Handles(input)
  {
    OwnDistinct(input, phone);
    forall i | 0 <= i < |input| && input[i].phone != phone ensures input[i].loc !in Own(input, phone) {
      NotOwn(input, phone, i);
    }
  }

  lemma OthersSame(input: seq<Entry>, was: seq<Content>, now: seq<Content>, phone: int)
    requires |was| == |now| == |input|
    requires forall i :: 0 <= i < |input| && input[i].phone != phone ==> now[i] == was[i]
    ensures forall other :: other != phone ==> OwnContents(input, now, other) == OwnContents(input, was, other)
  {
    hide OwnContents;
    forall other | other != phone ensures OwnContents(input, now, other) == OwnContents(input, was, other) {
      OwnContentsSame(input, was, now, other);
    }
  }

  lemma SortedOwnStays(input: seq<Entry>, was: seq<Content>, v: seq<Content>, v': seq<Content>, phone: int)
    requires |was| == |v| == |v'| == |input|
    ensures SortedOwn(input, was, v, phone) && OwnContents(input, v', phone) == OwnContents(input, v, phone) ==>
      SortedOwn(input, was, v', phone)
    ensures SortedOwn(input, v, v', phone) && OwnContents(input, v, phone) == OwnContents(input, was, phone) ==>
      SortedOwn(input, was, v', phone)
  {
  }

  ghost predicate Produced(output: seq<Grouped>, phone: int) {
    exists i :: 0 <= i < |output| && output[i].phone == phone
  }

  lemma ProducedMore(output: seq<Grouped>, group: Grouped, phone: int)
    ensures Produced(output + [group], phone) <==> Produced(output, phone) || group.phone == phone
  {
    var more := output + [group];
    if Produced(output, phone) {
      var i :| 0 <= i < |output| && output[i].phone == phone;
      assert more[i].phone == phone;
    }
    assert more[|output|] == group;
  }

  lemma NotEmpty(s: set<int>)
    ensures s != {} ==> exists x :: x in s
  {
    if forall x :: x !in s {
      assert s == {};
    }
  }

  lemma EachProduced(output: seq<Grouped>)
    ensures forall i :: 0 <= i < |output| ==> Produced(output, output[i].phone)
  {
  }

  // One group per number, each with its own records, sorted by time and with the
  // contents they had at the start.
  ghost predicate AllSorted(input: seq<Entry>, was: seq<Content>, now: seq<Content>, output: seq<Grouped>)
    requires |was| == |now| == |input|
  {
    && (forall i, j :: 0 <= i < j < |output| ==> output[i].phone != output[j].phone)
    && forall i :: 0 <= i < |output| ==>
         output[i].history == Own(input, output[i].phone) && SortedOwn(input, was, now, output[i].phone)
  }

  // In the middle: the numbers in `left` are still as they were.
  ghost predicate Sorting(input: seq<Entry>, was: seq<Content>, now: seq<Content>, left: set<int>, output: seq<Grouped>)
    requires |was| == |now| == |input|
  {
    && (forall phone :: phone in left ==>
         HasPhone(input, phone) && OwnContents(input, now, phone) == OwnContents(input, was, phone))
    && (forall phone :: HasPhone(input, phone) && phone !in left <==> Produced(output, phone))
    && AllSorted(input, was, now, output)
  }

  lemma SortingStep(input: seq<Entry>, was: seq<Content>, v: seq<Content>, v': seq<Content>, left: set<int>,
                    output: seq<Grouped>, phone: int)
    requires |was| == |v| == |v'| == |input| && Sorting(input, was, v, left, output) && phone in left
    requires SortedOwn(input, v, v', phone)
    requires forall other :: other != phone ==> OwnContents(input, v', other) == OwnContents(input, v, other)
    ensures Sorting(input, was, v', left - {phone}, output + [Grouped(phone, Own(input, phone))])
  {
    hide HasPhone, Own, OwnContents, Produced, SortedOwn;
    var output' := output + [Grouped(phone, Own(input, phone))];
    forall p ensures Produced(output', p) <==> Produced(output, p) || p == phone {
      ProducedMore(output, Grouped(phone, Own(input, phone)), p);
    }
    EachProduced(output);
    forall i | 0 <= i < |output'| ensures SortedOwn(input, was, v', output'[i].phone) {
      SortedOwnStays(input, was, v, v', output'[i].phone);
    }
  }

  // do_groupby_and_sort: one group per phone number, in the order of the hash map,
  // which is any order.
  method DoGroupByAndSort(input: seq<Entry>) returns (output: seq<Grouped>)
    requires Distinct(Handles(input))
    modifies Handles(input)
    ensures forall phone :: HasPhone(input, phone) <==> Produced(output, phone)
    ensures AllSorted(input, old(View(Handles(input))), View(Handles(input)), output)
  {
    ghost var was := View(Handles(input));
    var groups := BuildGroups(input);
    output := [];
    var left := groups.Keys;
    assert forall phone :: phone in left <==> HasPhone(input, phone);
    assert Sorting(input, was, View(Handles(input)), left, output) by {
      assert forall phone :: !Produced([], phone);
    }
    assert forall phone :: phone in groups ==> groups[phone] == Own(input, phone);
    hide HasPhone, Own, OwnContents, Produced, SortedOwn, AllSorted, Sorting;
    while left != {}
      invariant left <= groups.Keys
      invariant Sorting(input, was, View(Handles(input)), left, output)
      decreases |left|
    {
      NotEmpty(left);
      var phone: int :| phone in left;
      ghost var v := View(Handles(input));
      SortGroup(input, groups[phone], phone);
      SortingStep(input, was, v, View(Handles(input)), left, output, phone);
      output := output + [Grouped(phone, groups[phone])];
      left := left - {phone};
    }
    SortingDone(input, was, View(Handles(input)), output);
  }

  lemma SortingDone(input: seq<Entry>, was: seq<Content>, now: seq<Content>, output: seq<Grouped>)
    requires |was| == |now| == |input| && Sorting(input, was, now, {}, output)
    ensures (forall phone :: HasPhone(input, phone) <==> Produced(output, phone)) && AllSorted(input, was, now, output)
  {
  }
}
