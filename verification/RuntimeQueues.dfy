// The steps of the runtime on a queue and the calls on the queue objects: what schedule(),
// take_one_task() and run_task() do to a place is what a call of push_back, pop, steal or
// push on the ring does that runs alone.
module RuntimeQueues {
  import opened Ring
  import R = Runtime
  import T = TaskSteps
  import D = WorkStealing
  import C = DequeCalls
  import Q = SimoQueue
  import S = SimoCalls

  lemma CapacityIsMask()
    ensures Mask(8) == R.CAPACITY
  {
    assert Pow2(1) == 2 && Pow2(2) == 4 && Pow2(3) == 8 && Pow2(4) == 16;
    assert Pow2(5) == 32 && Pow2(6) == 64 && Pow2(7) == 128;
  }

  // The deque holds the tasks of worker w, and its owner is between two calls.
  ghost predicate HoldsDeque(q: D.State<nat>, s: R.State, w: nat) {
    && D.Inv(q) && q.bits == 8 && q.owner.Idle? && D.WellSized(q) && 0 <= q.tail <= q.head
    && R.Deque(w) in s.boxes && D.Deque(q) == s.boxes[R.Deque(w)]
  }

  // The wait queue holds the waiting tasks of worker v, and no push is under way.
  ghost predicate HoldsWaiting(q: Q.State<nat>, s: R.State, v: nat) {
    && Q.Inv(q) && q.bits == 8 && q.producer.Ready? && q.tail <= |q.pushed|
    && R.WaitQueue(v) in s.boxes && q.pushed[q.tail..] == s.boxes[R.WaitQueue(v)]
  }

  ghost predicate Reaches(q: D.State<nat>, q': D.State<nat>)
    requires D.Inv(q)
  {
    exists run :: D.Exec(q, run) == q'
  }

  lemma Ran(q: D.State<nat>, run: seq<D.Action<nat>>)
    requires D.Inv(q)
    ensures Reaches(q, D.Exec(q, run)) && D.Inv(D.Exec(q, run)) && D.Exec(q, run).bits == q.bits
  {
  }

  // A call of push_back, of pop and of steal, each run alone.
  lemma PushCall(q: D.State<nat>, t: nat) returns (q': D.State<nat>)
    requires D.Inv(q) && q.owner.Idle?
    ensures Reaches(q, q') && D.Inv(q') && q'.bits == q.bits && q'.owner.Idle?
    ensures D.WellSized(q) && 0 <= q.tail <= q.head && D.WellSized(q') && 0 <= q'.tail <= q'.head
    ensures
      var got := if |D.Deque(q)| < Mask(q.bits) then [t] else [];
      D.Deque(q') == D.Deque(q) + got && q'.pushed == q.pushed + got
  {
    hide D.Inv, D.Deque, D.Exec, Reaches;
    C.PushAlone(q, t);
    var run := if |D.Deque(q)| < Mask(q.bits) then [D.StartPush(t), D.OwnerAccess, D.OwnerAccess, D.OwnerAccess]
               else [D.StartPush(t), D.OwnerAccess];
    Ran(q, run);
    q' := D.Exec(q, run);
    Nothing(q.pushed, D.Deque(q));
  }

  lemma PopCall(q: D.State<nat>) returns (q': D.State<nat>, got: seq<nat>)
    requires D.Inv(q) && q.owner.Idle?
    ensures Reaches(q, q') && D.Inv(q') && q'.bits == q.bits && q'.owner.Idle?
    ensures D.WellSized(q) && 0 <= q.tail <= q.head && D.WellSized(q') && 0 <= q'.tail <= q'.head
    ensures q'.returned == q.returned + got && LastOf(D.Deque(q), got, D.Deque(q'))
  {
    hide D.Inv, D.Deque, D.Exec, Reaches;
    C.PopAlone(q);
    var o: D.Action<nat> := D.OwnerAccess;
    var d := D.Deque(q);
    if d == [] {
      Ran(q, [D.StartPop, o, o, o]);
      q', got := D.Exec(q, [D.StartPop, o, o, o]), [];
      Nothing(q.returned, d);
    } else {
      var run := [D.StartPop, o, o, o] + if |d| > 1 then [o] else [o, o, o, o];
      Ran(q, run);
      q', got := D.Exec(q, run), [d[|d| - 1]];
    }
  }

  lemma StealCall(q: D.State<nat>, i: nat) returns (q': D.State<nat>, got: seq<nat>)
    requires D.Inv(q) && q.owner.Idle? && i < |q.thieves| && q.thieves[i].Resting? && q.bits == 8
    ensures Reaches(q, q') && D.Inv(q') && q'.bits == q.bits && q'.owner.Idle?
    ensures D.WellSized(q) && 0 <= q.tail <= q.head && D.WellSized(q') && 0 <= q'.tail <= q'.head
    ensures q'.returned == q.returned + got && FirstOf(D.Deque(q), got, D.Deque(q'))
  {
    hide D.Inv, D.Deque, D.Exec, Reaches;
    C.IdleDeque(q);
    CapacityIsMask();
    C.StealAlone(q, i);
    var a: D.Action<nat> := D.Action<nat>.ThiefAccess(i);
    var d := D.Deque(q);
    if d == [] {
      Ran(q, [a, a]);
      q', got := D.Exec(q, [a, a]), [];
      Nothing(q.returned, d);
    } else {
      Ran(q, [a, a, a, a]);
      q', got := D.Exec(q, [a, a, a, a]), [d[0]];
    }
  }

  lemma Nothing(a: seq<nat>, b: seq<nat>)
    ensures a + [] == a && b + [] == b
  {
  }

  // The last, or the first, element was taken, or there was none.
  predicate LastOf(d: seq<nat>, got: seq<nat>, d': seq<nat>) {
    if d == [] then got == [] && d' == [] else got == [d[|d| - 1]] && d' == d[..|d| - 1]
  }

  predicate FirstOf(d: seq<nat>, got: seq<nat>, d': seq<nat>) {
    if d == [] then got == [] && d' == [] else got == [d[0]] && d' == d[1..]
  }

  // ---------------------------------------------------------------------- the deques

  // What moved from a place to the hands of a worker.
  ghost predicate Moved(s: R.State, s': R.State, w: nat, got: seq<nat>) {
    && R.Hands(w) in s.boxes && R.Hands(w) in s'.boxes && s'.boxes[R.Hands(w)] == s.boxes[R.Hands(w)] + got
  }

  // schedule(): push_back accepts the task exactly if the step puts it into the deque.
  lemma ScheduleIsPush(s: R.State, w: nat, kind: R.Kind, q: D.State<nat>) returns (q': D.State<nat>)
    requires R.Inv(s) && w < s.workers && R.Free(s, w) && HoldsDeque(q, s, w)
    ensures HoldsDeque(q', R.Next(s, R.Schedule(w, kind, true)), w) && Reaches(q, q')
    ensures q'.pushed == q.pushed + if |s.boxes[R.Deque(w)]| < R.CAPACITY then [|s.tasks|] else []
  {
    hide R.Inv, R.Next, D.Inv, D.Deque, D.Exec, R.Free, Reaches;
    CapacityIsMask();
    T.ScheduleGoes(s, w, kind, true);
    q' := PushCall(q, |s.tasks|);
  }

  // TakeOwn: pop returns the task that the step puts into the worker's hands.
  lemma TakeOwnIsPop(s: R.State, w: nat, q: D.State<nat>) returns (q': D.State<nat>, got: seq<nat>)
    requires R.Inv(s) && w < s.workers && R.Free(s, w) && HoldsDeque(q, s, w)
    ensures R.Shaped(s) && HoldsDeque(q', R.Next(s, R.TakeOwn(w)), w) && Reaches(q, q') && q'.returned == q.returned + got
    ensures Moved(s, R.Next(s, R.TakeOwn(w)), w, got) && LastOf(D.Deque(q), got, D.Deque(q'))
  {
    hide R.Inv, R.Next, D.Inv, D.Deque, D.Exec, R.Free, Reaches;
    TakesOwn(s, w);
    q', got := PopCall(q);
    Nothing(s.boxes[R.Hands(w)], []);
  }

  lemma TakesOwn(s: R.State, w: nat)
    requires R.Inv(s) && w < s.workers && R.Free(s, w)
    ensures R.Shaped(s) && R.Deque(w) in s.boxes && R.Hands(w) in s.boxes
    ensures
      var d := s.boxes[R.Deque(w)];
      R.Next(s, R.TakeOwn(w)).boxes ==
        if d == [] then s.boxes
        else s.boxes[R.Deque(w) := d[..|d| - 1]][R.Hands(w) := s.boxes[R.Hands(w)] + [d[|d| - 1]]]
  {
  }

  // Steal: a thief's call returns the task that the step puts into its worker's hands.
  lemma StealIsSteal(s: R.State, w: nat, v: nat, q: D.State<nat>, i: nat) returns (q': D.State<nat>, got: seq<nat>)
    requires R.Inv(s) && w < s.workers && v < s.workers && v != w && R.Free(s, w) && HoldsDeque(q, s, v)
    requires i < |q.thieves| && q.thieves[i].Resting?
    ensures R.Shaped(s) && HoldsDeque(q', R.Next(s, R.Steal(w, v)), v) && Reaches(q, q') && q'.returned == q.returned + got
    ensures Moved(s, R.Next(s, R.Steal(w, v)), w, got) && FirstOf(D.Deque(q), got, D.Deque(q'))
  {
    hide R.Inv, R.Next, D.Inv, D.Deque, D.Exec, R.Free, Reaches;
    TakesFirst(s, w, v, R.Deque(v), R.Steal(w, v));
    q', got := StealCall(q, i);
    Nothing(s.boxes[R.Hands(w)], []);
  }

  lemma TakesFirst(s: R.State, w: nat, v: nat, from: R.Box, a: R.Action)
    requires R.Inv(s) && w < s.workers && v < s.workers && R.Free(s, w)
    requires (from == R.Deque(v) && v != w && a == R.Steal(w, v)) || (from == R.WaitQueue(v) && a == R.TakeWaiting(w, v))
    ensures R.Shaped(s) && from in s.boxes && R.Hands(w) in s.boxes
    ensures
      var d := s.boxes[from];
      R.Next(s, a).boxes ==
        if d == [] then s.boxes else s.boxes[from := d[1..]][R.Hands(w) := s.boxes[R.Hands(w)] + [d[0]]]
  {
  }

  // ----------------------------------------------------------------- the wait queues

  ghost predicate Runs(q: Q.State<nat>, q': Q.State<nat>)
    requires Q.Inv(q)
  {
    exists run :: Q.Exec(q, run) == q'
  }

  lemma RanWaiting(q: Q.State<nat>, run: seq<Q.Action<nat>>)
    requires Q.Inv(q)
    ensures Runs(q, Q.Exec(q, run)) && Q.Inv(Q.Exec(q, run))
  {
    Q.ExecKeeps(q, run);
  }

  // TakeWaiting: a consumer's call returns the task that the step puts into its worker's
  // hands.
  lemma TakeWaitingIsPop(s: R.State, w: nat, v: nat, q: Q.State<nat>, i: nat) returns (q': Q.State<nat>, got: seq<nat>)
    requires R.Inv(s) && w < s.workers && v < s.workers && R.Free(s, w) && HoldsWaiting(q, s, v)
    requires i < |q.consumers| && q.consumers[i].Resting?
    ensures R.Shaped(s) && Moved(s, R.Next(s, R.TakeWaiting(w, v)), w, got)
    ensures HoldsWaiting(q', R.Next(s, R.TakeWaiting(w, v)), v) && Runs(q, q') && q'.taken == q.taken + got
    ensures got == if s.boxes[R.WaitQueue(v)] == [] then [] else [s.boxes[R.WaitQueue(v)][0]]
  {
    hide R.Inv, R.Next, Q.Inv, Q.Exec, R.Free, Runs;
    TakesFirst(s, w, v, R.WaitQueue(v), R.TakeWaiting(w, v));
    S.PopAlone(q, i);
    AllPublished(q);
    var p: Q.Action<nat> := Q.Action<nat>.PopAccess(i);
    var d := s.boxes[R.WaitQueue(v)];
    if d == [] {
      RanWaiting(q, [p, p]);
      q', got := q, [];
      Nothing(q.taken, s.boxes[R.Hands(w)]);
    } else {
      RanWaiting(q, [p, p, p, p]);
      q', got := Q.Exec(q, [p, p, p, p]), [d[0]];
      assert q.pushed[q.tail..][1..] == q.pushed[q.tail + 1..];
    }
  }

  lemma AllPublished(q: Q.State<nat>)
    requires Q.Inv(q) && q.producer.Ready?
    ensures |q.ring| == Pow2(q.bits) && |q.pushed| == q.head && |q.taken| == q.tail <= q.head <= q.tail + Mask(q.bits)
  {
  }

  // run_task() on a task that asks to be rescheduled: push accepts it exactly if the step
  // puts it into the wait queue.
  lemma SettleIsPush(s: R.State, w: nat, q: Q.State<nat>) returns (q': Q.State<nat>)
    requires R.Inv(s) && w < s.workers && R.HasTop(s, w) && HoldsWaiting(q, s, w)
    requires s.tasks[R.Top(s, w)].phase.Returned? && s.tasks[R.Top(s, w)].again
    ensures R.Shaped(s) && HoldsWaiting(q', R.Next(s, R.Settle(w, true)), w) && Runs(q, q')
    ensures q'.pushed == q.pushed + if |s.boxes[R.WaitQueue(w)]| < R.CAPACITY then [R.Top(s, w)] else []
  {
    hide R.Inv, R.Next, Q.Inv, Q.Exec, Runs;
    CapacityIsMask();
    SettlesInto(s, w);
    S.PushAlone(q, R.Top(s, w));
    AllPublished(q);
    var p, o := Q.BeginPush(R.Top(s, w)), Q.Action<nat>.PushAccess;
    if |s.boxes[R.WaitQueue(w)]| < R.CAPACITY {
      RanWaiting(q, [p, o, o, o]);
      q' := Q.Exec(q, [p, o, o, o]);
      assert q'.pushed[q.tail..] == q.pushed[q.tail..] + [R.Top(s, w)];
    } else {
      RanWaiting(q, [p, o]);
      q' := q;
      Nothing(q.pushed, []);
    }
  }

  lemma SettlesInto(s: R.State, w: nat)
    requires R.Inv(s) && w < s.workers && R.HasTop(s, w)
    requires s.tasks[R.Top(s, w)].phase.Returned? && s.tasks[R.Top(s, w)].again
    ensures R.Shaped(s) && R.Hands(w) in s.boxes && R.WaitQueue(w) in s.boxes && R.WaitQueue(w) in R.Next(s, R.Settle(w, true)).boxes
    ensures R.Next(s, R.Settle(w, true)).boxes[R.WaitQueue(w)] ==
      s.boxes[R.WaitQueue(w)] + if |s.boxes[R.WaitQueue(w)]| < R.CAPACITY then [R.Top(s, w)] else []
  {
  }
}
