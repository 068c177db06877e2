// How for_each divides a range: the divide-and-conquer partitioner and the simple
// one, for random access iterators and for iterators that only step.
module ForEach {
  import opened Ring

  // The elements from `from` up to, not including, `to`.
  datatype Chunk = Chunk(from: int, to: int)

  // Consecutive chunks from lo to hi: every element in exactly one of them.
  ghost predicate Tiles(chunks: seq<Chunk>, lo: int, hi: int) {
    if chunks == [] then lo == hi
    else chunks[0].from == lo && lo <= chunks[0].to && Tiles(chunks[1..], chunks[0].to, hi)
  }

  lemma {:induction false} TilesJoin(a: seq<Chunk>, b: seq<Chunk>, lo: int, mid: int, hi: int)
    requires Tiles(a, lo, mid) && Tiles(b, mid, hi)
    ensures Tiles(a + b, lo, hi)
    decreases |a|
  {
    if a == [] {
      assert a + b == b;
    } else {
      TilesJoin(a[1..], b, a[0].to, mid, hi);
      assert (a + b)[1..] == a[1..] + b;
    }
  }

  function InChunk(c: Chunk, x: int): (n: nat) {
    if c.from <= x < c.to then 1 else 0
  }

  // How many of the chunks hold x.
  function Holders(chunks: seq<Chunk>, x: int): (n: nat) {
    if chunks == [] then 0 else InChunk(chunks[0], x) + Holders(chunks[1..], x)
  }

  // Tiling means: every element of the range once, and nothing else.
  lemma {:induction false} TilesOnce(chunks: seq<Chunk>, lo: int, hi: int, x: int)
    requires Tiles(chunks, lo, hi)
    ensures lo <= hi && Holders(chunks, x) == if lo <= x < hi then 1 else 0
    decreases |chunks|
  {
    if chunks != [] {
      TilesOnce(chunks[1..], chunks[0].to, hi, x);
    }
  }

  // -------------------------------------------------------- divide and conquer

  // The chunks that are run one element after the other, over all recursion levels.
  function Leaves(from: int, n: nat, divide: nat): (r: seq<Chunk>)
    decreases divide
  {
    if divide == 0 || n == 1 then [Chunk(from, from + n)]
    else Leaves(from, n / 2, divide - 1) + Leaves(from + n / 2, n - n / 2, divide - 1)
  }

  lemma {:induction false} LeavesTile(from: int, n: nat, divide: nat)
    ensures Tiles(Leaves(from, n, divide), from, from + n)
    decreases divide
  {
    if divide == 0 || n == 1 {
      assert Leaves(from, n, divide)[1..] == [];
    } else {
      LeavesTile(from, n / 2, divide - 1);
      LeavesTile(from + n / 2, n - n / 2, divide - 1);
      TilesJoin(Leaves(from, n / 2, divide - 1), Leaves(from + n / 2, n - n / 2, divide - 1), from, from + n / 2, from + n);
    }
  }

  // There are 2^divide leaves, or as many as elements if these are fewer; an empty range is
  // divided as often as a large one.
  lemma {:induction false} LeavesCount(from: int, n: nat, divide: nat)
    ensures |Leaves(from, n, divide)| == if n == 0 || Pow2(divide) <= n then Pow2(divide) else n
    decreases divide
  {
    if divide > 0 && n != 1 {
      LeavesCount(from, n / 2, divide - 1);
      LeavesCount(from + n / 2, n - n / 2, divide - 1);
    }
  }

  // n / 2^d, rounded up.
  function CeilShare(n: nat, d: nat): (r: nat) {
    (n + Pow2(d) - 1) / Pow2(d)
  }

  lemma CeilAtLeast(n: nat, d: nat, m: nat)
    requires n <= m * Pow2(d)
    ensures CeilShare(n, d) <= m
  {
    var p := Pow2(d);
    QuotientBelow(n + p - 1, p, m);
  }

  lemma QuotientBelow(x: nat, p: nat, m: nat)
    requires p > 0 && x <= m * p + p - 1
    ensures x / p <= m
  {
    var q := x / p;
    assert x == q * p + x % p;
    assert (m + 1) * p == m * p + p;
    LessFactor(q, m + 1, p);
  }

  lemma LessFactor(a: nat, b: nat, p: nat)
    requires a * p < b * p
    ensures a < b
  {
    if b <= a {
      Multiply(b, a, p);
    }
  }

  lemma Multiply(a: nat, b: nat, p: nat)
    requires a <= b
    ensures a * p <= b * p
  {
  }

  // The share covers: n <= ceil(n / 2^d) * 2^d.
  lemma CeilCovers(n: nat, d: nat)
    ensures n <= CeilShare(n, d) * Pow2(d)
  {
    var p := Pow2(d);
    var x := n + p - 1;
    assert x == (x / p) * p + x % p;
  }

  lemma CeilMonotone(n: nat, m: nat, d: nat)
    requires n <= m
    ensures CeilShare(n, d) <= CeilShare(m, d)
  {
    CeilCovers(m, d);
    CeilAtLeast(n, d, CeilShare(m, d));
  }

  // Halving, rounded up, and then dividing by 2^(d-1) is dividing by 2^d.
  lemma CeilHalves(n: nat, d: nat)
    requires d > 0
    ensures CeilShare(n - n / 2, d - 1) == CeilShare(n, d)
  {
    var h, p := n - n / 2, Pow2(d - 1);
    var a, b := CeilShare(h, d - 1), CeilShare(n, d);
    assert Pow2(d) == 2 * p;
    hide CeilShare, Pow2;
    CeilCovers(n, d);
    Doubled(b, p);
    CeilAtLeast(h, d - 1, b);
    CeilCovers(h, d - 1);
    Doubled(a, p);
    CeilAtLeast(n, d, a);
  }

  lemma Doubled(m: nat, p: nat)
    ensures m * (2 * p) == 2 * (m * p)
  {
  }

  lemma CeilOfOne(d: nat)
    ensures CeilShare(1, d) == 1
  {
    CeilAtLeast(1, d, 1);
    CeilCovers(1, d);
  }

  // No leaf has more than ceil(n / 2^divide) elements.
  lemma {:induction false} LeavesAreSmall(from: int, n: nat, divide: nat)
    ensures forall i :: 0 <= i < |Leaves(from, n, divide)| ==>
      Leaves(from, n, divide)[i].to - Leaves(from, n, divide)[i].from <= CeilShare(n, divide)
    decreases divide
  {
    hide CeilShare;
    if divide == 0 {
      CeilCovers(n, 0);
    } else if n == 1 {
      CeilOfOne(divide);
    } else {
      LeavesAreSmall(from, n / 2, divide - 1);
      LeavesAreSmall(from + n / 2, n - n / 2, divide - 1);
      CeilHalves(n, divide);
      CeilMonotone(n / 2, n - n / 2, divide - 1);
    }
  }

  // A task spawned for a part of the range.
  datatype Task = Task(bt: int, t: int, sc: nat, divide: nat)

  function LeavesOf(tasks: seq<Task>): (r: seq<Chunk>) {
    if tasks == [] then []
    else LeavesOf(tasks[..|tasks| - 1]) + Leaves(tasks[|tasks| - 1].bt, tasks[|tasks| - 1].sc, tasks[|tasks| - 1].divide)
  }

  // One level of the divide-and-conquer loop: the tasks it spawns and where the
  // sequential remainder starts. With the tasks' own leaves they are the leaves of
  // the whole range.
  method AutoPartition(begin: int, end: int, count: nat, divideTimes: nat) returns (lgroup: seq<Task>, t: int)
    requires end - begin == count
    ensures t <= end
    ensures LeavesOf(lgroup) + [Chunk(t, end)] == Leaves(begin, count, divideTimes)
    ensures forall i :: 0 <= i < |lgroup| ==> lgroup[i].t - lgroup[i].bt == lgroup[i].sc && lgroup[i].divide < divideTimes
  {
    hide Leaves, LeavesOf;
    t := begin;
    var divide: nat, left: nat := divideTimes, count;
    lgroup := [];
    NoTasks(t, left, divide);
    while divide != 0 && left != 1
      invariant t + left == end && divide <= divideTimes
      invariant LeavesOf(lgroup) + Leaves(t, left, divide) == Leaves(begin, count, divideTimes)
      invariant forall i :: 0 <= i < |lgroup| ==> lgroup[i].t - lgroup[i].bt == lgroup[i].sc && lgroup[i].divide < divideTimes
      decreases divide
    {
      var sc := left / 2;
      Divided(LeavesOf(lgroup), t, left, divide);
      left := left - sc;
      var bt := t;
      t := t + sc;
      var p := Task(bt, t, sc, divide - 1);
      OneMoreTask(lgroup, p);
      lgroup := lgroup + [p];
      divide := divide - 1;
    }
    LastLeaf(t, left, divide);
  }

  lemma OneMoreTask(lgroup: seq<Task>, p: Task)
    ensures LeavesOf(lgroup + [p]) == LeavesOf(lgroup) + Leaves(p.bt, p.sc, p.divide)
  {
    assert (lgroup + [p])[..|lgroup|] == lgroup;
  }

  lemma NoTasks(t: int, left: nat, divide: nat)
    ensures LeavesOf([]) + Leaves(t, left, divide) == Leaves(t, left, divide)
  {
  }

  lemma LastLeaf(t: int, left: nat, divide: nat)
    requires divide == 0 || left == 1
    ensures Leaves(t, left, divide) == [Chunk(t, t + left)]
  {
  }

  lemma Divided(before: seq<Chunk>, t: int, left: nat, divide: nat)
    requires divide != 0 && left != 1
    ensures before + Leaves(t, left, divide) ==
      before + Leaves(t, left / 2, divide - 1) + Leaves(t + left / 2, left - left / 2, divide - 1)
  {
  }

  // The version for iterators that can only be stepped moves to the end of each
  // part one element at a time.
  method AutoPartitionStepping(begin: int, end: int, count: nat, divideTimes: nat) returns (lgroup: seq<Task>, t: int)
    requires end - begin == count
    ensures t <= end
    ensures LeavesOf(lgroup) + [Chunk(t, end)] == Leaves(begin, count, divideTimes)
  {
    hide Leaves, LeavesOf;
    t := begin;
    var divide: nat, left: nat := divideTimes, count;
    lgroup := [];
    NoTasks(t, left, divide);
    while divide != 0 && left != 1
      invariant t + left == end && divide <= divideTimes
      invariant LeavesOf(lgroup) + Leaves(t, left, divide) == Leaves(begin, count, divideTimes)
      decreases divide
    {
      var sc := left / 2;
      Divided(LeavesOf(lgroup), t, left, divide);
      left := left - sc;
      var bt := t;
      var c: nat := 0;
      while c != sc
        invariant c <= sc && t == bt + c
        decreases sc - c
      {
        t := t + 1;
        c := c + 1;
      }
      var p := Task(bt, t, sc, divide - 1);
      OneMoreTask(lgroup, p);
      lgroup := lgroup + [p];
      divide := divide - 1;
    }
    LastLeaf(t, left, divide);
  }

  // ------------------------------------------------------------ simple partition

  lemma TilesMore(chunks: seq<Chunk>, lo: int, mid: int, hi: int)
    requires Tiles(chunks, lo, mid) && mid <= hi
    ensures Tiles(chunks + [Chunk(mid, hi)], lo, hi)
  {
    assert [Chunk(mid, hi)][1..] == [];
    TilesJoin(chunks, [Chunk(mid, hi)], lo, mid, hi);
  }

  function Mul(a: nat, k: nat): (r: nat) {
    a * k
  }

  lemma MulSteps(a: nat, k: nat, most: nat)
    ensures Mul(a, 0) == 0 && Mul(a, k + 1) == Mul(a, k) + a
    ensures k <= most ==> Mul(a, k) <= Mul(a, most)
  {
    if k <= most {
      Multiply(k, most, a);
    }
  }

  lemma DivMod(count: nat, n: nat)
    requires 0 < n
    ensures count == Mul(count / n, n) + count % n
  {
  }

  // The chunks that other threads get before thread number k, leaving out the
  // caller's own number.
  function Made(k: nat, first: int, thisId: int): (n: nat)
    ensures n <= k
  {
    if first <= thisId < k + first && 0 < k then k - 1 else k
  }

  lemma MadeNext(k: nat, first: int, thisId: int)
    ensures Made(k + 1, first, thisId) == if thisId == k + first then Made(k, first, thisId) else Made(k, first, thisId) + 1
    ensures Made(0, first, thisId) == 0
  {
  }

  // What is left for the caller when the loop below ends.
  lemma LeftOver(step: nat, ls: nat, concurrency: nat, thrdId: nat, thisId: int)
    requires 0 < concurrency && thrdId <= concurrency && ls < concurrency
    requires step == 0 ==> thrdId == 0
    requires step == 0 || thrdId == concurrency ||
      Mul(step, concurrency) + ls == Mul(step, Made(thrdId, 1, thisId))
    ensures
      var rest := Mul(step, concurrency) + ls - Mul(step, Made(thrdId, 1, thisId));
      && 0 <= rest < step + concurrency
      && rest == if step == 0 then ls else if 1 <= thisId <= concurrency then step + ls else ls
  {
    hide Mul;
    MulSteps(step, concurrency - 1, concurrency);
    MulSteps(step, Made(thrdId, 1, thisId), concurrency - 1);
    MulSteps(step, Made(thrdId, 1, thisId) + 1, concurrency);
    if step == 0 {
      MulSteps(0, concurrency, concurrency);
      NoSteps(concurrency);
    } else if thrdId < concurrency {
      assert false;
    }
  }

  lemma NoSteps(n: nat)
    ensures Mul(0, n) == 0
  {
  }

  // The loop of the simple partitioner: one chunk of `step` elements for every thread
  // number from 1 up to the concurrency, except the caller's own.
  method HandOut(begin: int, end: int, concurrency: nat, thisId: int, step: nat, ls: nat) returns (chunks: seq<Chunk>, t: int)
    requires 0 < concurrency && end - begin == Mul(step, concurrency) + ls && ls < concurrency
    ensures t <= end && Tiles(chunks, begin, t)
    ensures forall i :: 0 <= i < |chunks| ==> chunks[i].to - chunks[i].from == step
    ensures end - t == if step == 0 then ls else if 1 <= thisId <= concurrency then step + ls else ls
    ensures end - t < step + concurrency
  {
    hide Mul, Tiles, Made;
    t := begin;
    chunks := [];
    NoTiles(begin);
    MulSteps(step, 0, concurrency);
    MadeNext(0, 1, thisId);
    var thrdId: nat := 0;
    while step != 0 && t != end && thrdId < concurrency
      invariant thrdId <= concurrency && begin <= t <= end
      invariant Tiles(chunks, begin, t)
      invariant forall i :: 0 <= i < |chunks| ==> chunks[i].to - chunks[i].from == step
      invariant step == 0 ==> thrdId == 0
      invariant t == begin + Mul(step, Made(thrdId, 1, thisId))
      decreases concurrency - thrdId
    {
      MadeNext(thrdId, 1, thisId);
      MulSteps(step, Made(thrdId, 1, thisId), concurrency);
      MulSteps(step, Made(thrdId, 1, thisId) + 1, concurrency);
      thrdId := thrdId + 1;
      if thrdId == thisId {
        continue;
      }
      var tmp := if t + step < end then t + step else end;
      TilesMore(chunks, begin, t, tmp);
      chunks := chunks + [Chunk(t, tmp)];
      t := tmp;
    }
    LeftOver(step, ls, concurrency, thrdId, thisId);
  }

  // The simple partitioner: what is not handed out is the caller's.
  method SimplePartition(begin: int, end: int, concurrency: nat, thisId: int) returns (chunks: seq<Chunk>, t: int)
    requires begin <= end && 0 < concurrency
    ensures Tiles(chunks + [Chunk(t, end)], begin, end)
    ensures forall i :: 0 <= i < |chunks| ==> chunks[i].to - chunks[i].from == (end - begin) / concurrency
    ensures
      var step, ls := (end - begin) / concurrency, (end - begin) % concurrency;
      end - t == if step == 0 then ls else if 1 <= thisId <= concurrency then step + ls else ls
    ensures end - t < (end - begin) / concurrency + concurrency
  {
    hide Mul, Tiles;
    var count := end - begin;
    DivMod(count, concurrency);
    chunks, t := HandOut(begin, end, concurrency, thisId, count / concurrency, count % concurrency);
    TilesMore(chunks, begin, t, end);
  }

  lemma NoTiles(lo: int)
    ensures Tiles([], lo, lo)
  {
  }

  // How many elements chunk number i of the stepping version gets while there are any: the
  // first `ls` chunks are one longer, and the counter of chunks is 16 bits wide.
  function Share(step: nat, ls: nat, i: nat): (r: nat) {
    if Wrap(i) < ls then step + 1 else step
  }

  function Wrap(n: nat): (r: nat) {
    n % 0x1_0000
  }

  lemma WrapNext(n: nat)
    ensures Wrap(n + 1) == (Wrap(n) + 1) % 0x1_0000 && Wrap(0) == 0
    ensures n < 0x1_0000 ==> Wrap(n) == n
  {
  }

  // What is left for the caller.
  lemma RestIs(step: nat, ls: nat, made: nat, thrdId: nat, concurrency: nat, thisId: int, count: nat)
    requires 0 < concurrency && thrdId <= concurrency && ls < concurrency && count == Mul(step, concurrency) + ls
    requires made == if 0 <= thisId < thrdId then thrdId - 1 else thrdId
    requires Given(step, ls, made) <= count && (thrdId < concurrency ==> Given(step, ls, made) == count)
    ensures count - Given(step, ls, made) == if 0 <= thisId < concurrency then step else 0
  {
    hide Mul, Given;
    GivenNext(step, ls, concurrency - 1, concurrency);
    if thrdId < concurrency {
      GivenNext(step, ls, made, concurrency);
      if !(0 <= thisId < concurrency) {
        assert count - Given(step, ls, made) == 0;
      }
    }
  }

  ghost predicate Shared(chunks: seq<Chunk>, step: nat, ls: nat, end: int) {
    forall i :: 0 <= i < |chunks| ==>
      chunks[i].to == if chunks[i].from + Share(step, ls, i) < end then chunks[i].from + Share(step, ls, i) else end
  }

  // With no more than 2^16 threads every chunk has its full share.
  ghost predicate FullShares(chunks: seq<Chunk>, step: nat, ls: nat) {
    forall i :: 0 <= i < |chunks| ==> chunks[i].to - chunks[i].from == if i < ls then step + 1 else step
  }

  // How many elements the first `made` chunks have together.
  function Given(step: nat, ls: nat, made: nat): (r: nat) {
    Mul(step, made) + if made < ls then made else ls
  }

  lemma GivenNext(step: nat, ls: nat, made: nat, concurrency: nat)
    requires made < concurrency && ls < concurrency
    ensures Given(step, ls, 0) == 0
    ensures Given(step, ls, made + 1) == Given(step, ls, made) + if made < ls then step + 1 else step
    ensures Given(step, ls, made + 1) <= Mul(step, concurrency) + ls
    ensures Given(step, ls, made) + step <= Mul(step, concurrency) + ls
    ensures Given(step, ls, concurrency) == Mul(step, concurrency) + ls
    ensures Given(step, ls, concurrency - 1) + step == Mul(step, concurrency) + ls
  {
    hide Mul;
    MulSteps(step, made, made + 1);
    MulSteps(step, made + 1, concurrency);
    MulSteps(step, concurrency - 1, concurrency);
  }

  // The version for stepping iterators.
  method SimplePartitionStepping(begin: int, end: int, concurrency: nat, thisId: int) returns (chunks: seq<Chunk>, t: int)
    requires begin <= end && 0 < concurrency
    ensures Tiles(chunks + [Chunk(t, end)], begin, end)
    ensures Shared(chunks, (end - begin) / concurrency, (end - begin) % concurrency, end)
    ensures t == end || |chunks| == if 0 <= thisId < concurrency then concurrency - 1 else concurrency
    ensures concurrency <= 0x1_0000 ==>
      && FullShares(chunks, (end - begin) / concurrency, (end - begin) % concurrency)
      && end - t == if 0 <= thisId < concurrency then (end - begin) / concurrency else 0
  {
    hide Mul, Tiles, Given, Share, Shared, FullShares, Wrap;
    t := begin;
    var count: nat := 0;
    while t != end
      invariant begin <= t <= end && count == t - begin
      decreases end - t
    {
      t := t + 1;
      count := count + 1;
    }
    var step := count / concurrency;
    var ls := count % concurrency;
    DivMod(count, concurrency);
    GivenNext(step, ls, 0, concurrency);
    t := begin;
    chunks := [];
    NoTiles(begin);
    NoShares(step, ls, end);
    WrapNext(0);
    var counter: nat := 0;
    var thrdId: nat := 0;
    while t != end && thrdId < concurrency
      invariant thrdId <= concurrency && begin <= t <= end && counter == Wrap(|chunks|)
      invariant |chunks| == if 0 <= thisId < thrdId then thrdId - 1 else thrdId
      invariant Tiles(chunks, begin, t) && Shared(chunks, step, ls, end)
      invariant concurrency <= 0x1_0000 ==> FullShares(chunks, step, ls) && t - begin == Given(step, ls, |chunks|)
      decreases concurrency - thrdId
    {
      if thrdId == thisId {
        thrdId := thrdId + 1;
        continue;
      }
      var tmp := t;
      count := 0;
      var upperBound := if counter < ls then step + 1 else step;
      while tmp != end && count < upperBound
        invariant t <= tmp <= end && 0 <= count <= upperBound && tmp == t + count
        decreases end - tmp
      {
        tmp := tmp + 1;
        count := count + 1;
      }
      WrapNext(|chunks|);
      counter := (counter + 1) % 0x1_0000;
      GivenNext(step, ls, |chunks|, concurrency);
      TilesMore(chunks, begin, t, tmp);
      OneMoreShare(chunks, step, ls, end, Chunk(t, tmp));
      chunks := chunks + [Chunk(t, tmp)];
      thrdId := thrdId + 1;
      t := tmp;
    }
    if concurrency <= 0x1_0000 {
      RestIs(step, ls, |chunks|, thrdId, concurrency, thisId, end - begin);
    }
    TilesMore(chunks, begin, t, end);
  }

  lemma NoShares(step: nat, ls: nat, end: int)
    ensures Shared([], step, ls, end) && FullShares([], step, ls)
  {
  }

  lemma OneMoreShare(chunks: seq<Chunk>, step: nat, ls: nat, end: int, c: Chunk)
    requires Shared(chunks, step, ls, end)
    requires
      var more := if Wrap(|chunks|) < ls then step + 1 else step;
      c.to == if c.from + more < end then c.from + more else end
    ensures Shared(chunks + [c], step, ls, end)
    ensures FullShares(chunks, step, ls) && c.to - c.from == (if |chunks| < ls then step + 1 else step) ==>
      FullShares(chunks + [c], step, ls)
  {
  }
}
