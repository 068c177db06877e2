// take_one_task and steal_one_task as loops over the queues of all workers.
module Worker {
  import opened Runtime

  // The worker at this distance, counting round from cur.
  function At(cur: nat, dis: nat, workers: nat): (v: nat)
    requires 0 < workers
    ensures v < workers
  {
    (cur + dis) % workers
  }

  lemma Around(cur: nat, dis: nat, workers: nat)
    requires cur < workers && dis <= workers
    ensures At(cur, dis, workers) == if cur + dis < workers then cur + dis else cur + dis - workers
    ensures At(cur, dis, workers) == cur <==> dis == 0 || dis == workers
  {
  }

  function Distance(cur: nat, v: nat, workers: nat): (dis: nat)
    requires cur < workers && v < workers && v != cur
    ensures 1 <= dis < workers && At(cur, dis, workers) == v
  {
    var dis := if v > cur then v - cur else v + workers - cur;
    Around(cur, dis, workers);
    dis
  }

  // The queues of worker v are empty.
  predicate Idle(boxes: map<Box, seq<nat>>, v: nat)
    requires Deque(v) in boxes && WaitQueue(v) in boxes
  {
    boxes[Deque(v)] == [] && boxes[WaitQueue(v)] == []
  }

  ghost predicate Queues(boxes: map<Box, seq<nat>>, count: nat) {
    forall v :: 0 <= v < count ==> Deque(v) in boxes && WaitQueue(v) in boxes
  }

  // Of the other workers that have anything the nearest one has this box, which is its
  // wait queue only if its deque is empty.
  ghost predicate Nearest(boxes: map<Box, seq<nat>>, count: nat, cur: nat, from: Box)
    requires Queues(boxes, count) && cur < count
  {
    && (from.Deque? || from.WaitQueue?) && from.w < count && from.w != cur && boxes[from] != []
    && (from.WaitQueue? ==> boxes[Deque(from.w)] == [])
    && forall v :: 0 <= v < count && v != cur && Distance(cur, v, count) < Distance(cur, from.w, count) ==> Idle(boxes, v)
  }

  // The first worker on the way round that has anything.
  lemma NearestIs(boxes: map<Box, seq<nat>>, count: nat, d: nat, v: nat, cur: nat)
    requires Queues(boxes, count) && cur < count && 1 <= d < count && v == At(cur, d, count)
    requires forall e :: 1 <= e < d ==> Idle(boxes, At(cur, e, count))
    ensures v != cur
    ensures boxes[Deque(v)] != [] ==> Nearest(boxes, count, cur, Deque(v))
    ensures boxes[Deque(v)] == [] && boxes[WaitQueue(v)] != [] ==> Nearest(boxes, count, cur, WaitQueue(v))
  {
    Around(cur, d, count);
    assert Distance(cur, v, count) == d;
    forall u | 0 <= u < count && u != cur && Distance(cur, u, count) < d ensures Idle(boxes, u) {
      var e := Distance(cur, u, count);
      assert At(cur, e, count) == u;
    }
  }

  lemma NearestHas(boxes: map<Box, seq<nat>>, count: nat, cur: nat, from: Box)
    requires Queues(boxes, count) && cur < count && Nearest(boxes, count, cur, from)
    ensures from.w < count && from.w != cur && !Idle(boxes, from.w)
  {
  }

  class Workers {
    const count: nat
    var boxes: map<Box, seq<nat>>
    // one retry counter per worker
    var ct: seq<nat>

    ghost predicate Valid()
      reads this
    {
      0 < count == |ct| && Shaped(State(count, boxes, []))
    }

    constructor (count: nat)
      requires 0 < count
      ensures Valid() && this.count == count
      ensures forall b :: b in boxes ==> boxes[b] == []
    {
      this.count := count;
      ct := seq(count, _ => 0);
      var all: map<Box, seq<nat>> := map[Finished := []];
      for i := 0 to count
        invariant Finished in all && forall b :: b in all ==> all[b] == []
        invariant forall w :: 0 <= w < i ==> Deque(w) in all && WaitQueue(w) in all && Hands(w) in all
      {
        all := all[Deque(i) := []][WaitQueue(i) := []][Hands(i) := []];
      }
      boxes := all;
    }

    // The effect of taking a task out of a box.
    twostate predicate Took(task: nat, from: Box, first: bool)
      reads this
    {
      && from in old(boxes) && old(boxes)[from] != [] && task == Picked(old(boxes)[from], first)
      && boxes == old(boxes)[from := Others(old(boxes)[from], first)]
    }

    method Pop(from: Box, first: bool) returns (ok: bool, task: nat)
      requires Valid() && from in boxes
      modifies this`boxes
      ensures Valid() && ok == (old(boxes)[from] != [])
      ensures if ok then Took(task, from, first) else boxes == old(boxes)
    {
      var q := boxes[from];
      if q == [] {
        return false, 0;
      }
      task := Picked(q, first);
      boxes := boxes[from := Others(q, first)];
      ok := true;
    }

    // Looks at every other worker in turn, first at its deque, then at its wait
    // queue, and takes from the nearest that has anything.
    method StealOneTask(cur: nat) returns (ok: bool, task: nat, ghost from: Box)
      requires Valid() && cur < count
      modifies this`boxes
      ensures Valid()
      ensures !ok ==> boxes == old(boxes) && forall v :: 0 <= v < count && v != cur ==> Idle(boxes, v)
      ensures ok ==> Nearest(old(boxes), count, cur, from) && Took(task, from, true)
    {
      from := Finished;
      var d := 1;
      Around(cur, 1, count);
      while At(cur, d, count) != cur
        invariant Valid() && 1 <= d <= count && boxes == old(boxes)
        invariant forall e :: 1 <= e < d ==> Idle(boxes, At(cur, e, count))
        decreases count - d
      {
        Around(cur, d, count);
        var v := At(cur, d, count);
        NearestIs(boxes, count, d, v, cur);
        ok, task := Pop(Deque(v), true);
        if ok {
          from := Deque(v);
          return;
        }
        ok, task := Pop(WaitQueue(v), true);
        if ok {
          from := WaitQueue(v);
          return;
        }
        d := d + 1;
      }
      Around(cur, d, count);
      forall v | 0 <= v < count && v != cur ensures Idle(boxes, v) {
        var e := Distance(cur, v, count);
      }
      return false, 0, from;
    }

    // A worker first takes the newest task of its own deque; otherwise it looks in
    // its wait queue and at the others: every other time that its deque was empty first in
    // its wait queue, and otherwise first at the others.
    method TakeOneTask(i: nat) returns (ok: bool, ghost from: Box, ghost first: bool)
      requires Valid() && i < count
      modifies this
      ensures Valid()
      ensures !ok ==> boxes == old(boxes) && forall v :: 0 <= v < count ==> Idle(boxes, v)
      ensures ok ==>
        && from in old(boxes) && !from.Hands? && !from.Finished? && old(boxes)[from] != []
        && boxes == old(boxes)[from := Others(old(boxes)[from], first)]
                              [Hands(i) := old(boxes)[Hands(i)] + [Picked(old(boxes)[from], first)]]
        && (first <==> from != Deque(i))
        && (old(boxes)[Deque(i)] != [] ==> from == Deque(i))
      ensures ct == old(ct)[i := old(ct)[i] + if old(boxes)[Deque(i)] == [] then 1 else 0]
      ensures ok && from.w != i ==> Nearest(old(boxes), count, i, from)
      ensures ok && old(boxes)[Deque(i)] == [] && old(boxes)[WaitQueue(i)] != [] ==>
        (from == WaitQueue(i) <==>
          (old(ct)[i] + 1) % 2 == 0 || forall v :: 0 <= v < count && v != i ==> Idle(old(boxes), v))
    {
      hide At, Picked, Others, Distance, Nearest;
      var task: nat;
      from, first := Deque(i), false;
      ok, task := Pop(Deque(i), false);
      if !ok {
        ct := ct[i := ct[i] + 1];
        first := true;
        if ct[i] % 2 == 0 {
          from := WaitQueue(i);
          ok, task := Pop(WaitQueue(i), true);
          if !ok {
            ok, task, from := StealOneTask(i);
          }
        } else {
          ok, task, from := StealOneTask(i);
          if ok {
            NearestHas(old(boxes), count, i, from);
          }
          if !ok {
            from := WaitQueue(i);
            ok, task := Pop(WaitQueue(i), true);
          }
        }
      }
      if ok {
        boxes := boxes[Hands(i) := boxes[Hands(i)] + [task]];
      }
    }
  }

  // What TakeOneTask does to the boxes is one of the steps of the runtime.
  lemma TakeIsAStep(s: State, i: nat, from: Box, first: bool)
    requires Inv(s) && i < s.workers && Free(s, i) && from in s.boxes && s.boxes[from] != []
    requires (from.Deque? && (first <==> from.w != i)) || (from.WaitQueue? && first)
    ensures
      var a := if from == Deque(i) then TakeOwn(i) else if from.Deque? then Steal(i, from.w) else TakeWaiting(i, from.w);
      Legal(s, a) && Next(s, a).boxes ==
        s.boxes[from := Others(s.boxes[from], first)][Hands(i) := s.boxes[Hands(i)] + [Picked(s.boxes[from], first)]]
  {
    assert Picked(s.boxes[from], first) < |s.tasks|;
  }
}
