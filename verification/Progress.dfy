// Nothing gets stuck: from every state between two runs in which tasks wait only for
// earlier ones and the wait queues have room, the workers can finish every task.
module Progress {
  import opened Waiting
  import opened Runtime
  import opened TaskSteps

  // No worker has a task in hand, and all tasks are in the queues of workers.
  ghost predicate Resting(s: State) {
    && Inv(s)
    && forall b :: b in s.boxes && s.boxes[b] != [] ==> b.Finished? || ((b.Deque? || b.WaitQueue?) && b.w < s.workers)
  }

  function Unfinished(s: State): (r: set<nat>) {
    set t: nat | t < |s.tasks| && !s.tasks[t].es.Over?
  }

  function Earlier(t: nat): (r: set<nat>)
    ensures forall u: nat :: u in r <==> u < t
  {
    if t == 0 then {} else Earlier(t - 1) + {t - 1}
  }

  // Each waiting task waits for something that holds once all earlier tasks are over.
  ghost predicate WaitsForEarlier(s: State) {
    forall t :: 0 <= t < |s.tasks| && s.tasks[t].kind.Waits? ==> Formula(s.tasks[t].kind.expr, Earlier(t))
  }

  // What a read finds while no task finishes.
  function Frozen(over: set<nat>): (r: Reads) {
    (n: nat, t: nat) => if t in over then Over else Init
  }

  lemma FrozenIsBetween(over: set<nat>)
    ensures Between(Frozen(over), over, over)
  {
  }

  lemma {:induction false} DistinctFits(q: seq<nat>, a: set<nat>)
    requires Distinct(q) && forall i :: 0 <= i < |q| ==> q[i] in a
    ensures |q| <= |a|
    decreases |q|
  {
    if q != [] {
      var x := q[|q| - 1];
      DistinctFits(q[..|q| - 1], a - {x});
    }
  }

  // A queue that does not hold the unfinished task t has room for it.
  lemma RoomFor(s: State, b: Box, t: nat)
    requires Inv(s) && b in s.boxes && b.WaitQueue? && t in Unfinished(s) && s.tasks[t].box != b
    requires |Unfinished(s)| <= CAPACITY
    ensures |s.boxes[b]| < CAPACITY
  {
    var q := s.boxes[b];
    forall i | 0 <= i < |q| ensures q[i] in Unfinished(s) - {t} {
      assert s.tasks[q[i]].box == b && TaskOk(s.tasks[q[i]], OverTasks(s));
    }
    DistinctFits(q, Unfinished(s) - {t});
  }

  // The task that the worker takes next.
  ghost predicate Takes(s: State, w: nat, from: Box, first: bool, t: nat) {
    && Resting(s) && w < s.workers && from in s.boxes && s.boxes[from] != [] && t == Picked(s.boxes[from], first)
    && ((from == Deque(w) && !first) || (from == WaitQueue(w) && first))
  }

  function TakeAction(w: nat, from: Box): (a: Action) {
    if from.Deque? then TakeOwn(w) else TakeWaiting(w, w)
  }

  lemma TakenInHand(s: State, w: nat, from: Box, first: bool, t: nat) returns (s1: State)
    requires Takes(s, w, from, first, t)
    ensures Shaped(s) && Legal(s, TakeAction(w, from)) && s1 == Next(s, TakeAction(w, from))
    ensures AboutToRun(s1, w, t) && s1.workers == s.workers && |s1.tasks| == |s.tasks| && t < |s.tasks|
    ensures Hands(w) in s.boxes && s.boxes[Hands(w)] == [] && s1.boxes == s.boxes[from := Others(s.boxes[from], first)][Hands(w) := [t]]
    ensures s1.tasks == s.tasks[t := s.tasks[t].(phase := Ready, box := Hands(w))] && s.tasks[t].box == from
    ensures !s.tasks[t].es.Over?
  {
    s1 := Next(s, TakeAction(w, from));
    assert CanTake(s, w, from, first);
    var u := TakeKeeps(s, w, from, first);
    assert s.tasks[t].box == from && TaskOk(s.tasks[t], OverTasks(s));
    hide Placed, TasksOk, Formula, Honest, NoEmpty;
    assert [] + [t] == [t];
  }

  lemma LegalOne(s: State, a: Action, others: seq<Action>)
    requires Shaped(s) && Legal(s, a) && LegalRun(Next(s, a), others)
    ensures Shaped(Next(s, a)) && LegalRun(s, [a] + others) && Exec(s, [a] + others) == Exec(Next(s, a), others)
  {
    ExecOne(s, a, others);
    hide Next, Legal, Shaped;
    assert ([a] + others)[1..] == others;
  }

  lemma LegalNone(s: State)
    requires Shaped(s)
    ensures LegalRun(s, []) && Exec(s, []) == s
  {
  }

  // What comes after a test is legal for every state.
  lemma LegalRest(s: State, w: nat, room: bool)
    requires Shaped(s)
    ensures LegalRun(s, [Settle(w, room)]) && LegalRun(s, [EndBody(w), Settle(w, room)])
  {
    hide Shaped, Next;
    assert [Settle(w, room)] == [Settle(w, room)] + [] && [EndBody(w), Settle(w, room)] == [EndBody(w)] + [Settle(w, room)];
    NextShaped(s, Settle(w, room));
    LegalNone(Next(s, Settle(w, room)));
    LegalOne(s, Settle(w, room), []);
    var s1 := Next(s, EndBody(w));
    NextShaped(s, EndBody(w));
    NextShaped(s1, Settle(w, room));
    LegalNone(Next(s1, Settle(w, room)));
    LegalOne(s1, Settle(w, room), []);
    LegalOne(s, EndBody(w), [Settle(w, room)]);
  }

  // Whether the next run of the task finishes it.
  predicate Finishes(s: State, t: nat)
    requires t < |s.tasks|
  {
    s.tasks[t].kind.Plain? || Formula(s.tasks[t].kind.expr, OverTasks(s))
  }

  // The run() of a task in hand while no other task finishes: it is finished, or goes to
  // the back of the wait queue.
  lemma RunsOnce(s: State, w: nat, t: nat) returns (run: seq<Action>, s': State)
    requires AboutToRun(s, w, t) && |s.boxes[WaitQueue(w)]| < CAPACITY
    ensures Shaped(s) && LegalRun(s, run) && s' == Exec(s, run) && t < |s'.tasks|
    ensures Hands(w) in s.boxes && Finished in s.boxes && WaitQueue(w) in s.boxes && s.boxes[Hands(w)] != []
    ensures Went(s, w, t, if Finishes(s, t) then Finished else WaitQueue(w), s') && SameKind(s.tasks[t].kind, s'.tasks[t].kind)
    ensures s'.tasks[t].es.Over? <==> Finishes(s, t)
  {
    HandsAre(s, w, t);
    hide Inv, Next, Exec, Formula, SameKind, LegalRun, Went;
    var seen := Frozen(OverTasks(s));
    FrozenIsBetween(OverTasks(s));
    if s.tasks[t].kind.Plain? {
      run := [RunTask(w), EndBody(w), Settle(w, true)];
      PlainTaskFinishes(s, w, t, true);
      LegalPlain(s, w);
      SameKindReflexive(s.tasks[t].kind);
    } else {
      var s2 := Tested(s, w, t, seen);
      LegalRest(s2, w, true);
      if Finishes(s, t) {
        run := [RunTask(w)] + [Test(w, seen), EndBody(w), Settle(w, true)];
        WaitingTaskFinishes(s, w, t, seen, true);
        assert [Test(w, seen), EndBody(w), Settle(w, true)] == [Test(w, seen)] + [EndBody(w), Settle(w, true)];
        LegalOne(Next(s, RunTask(w)), Test(w, seen), [EndBody(w), Settle(w, true)]);
        LegalOne(s, RunTask(w), [Test(w, seen), EndBody(w), Settle(w, true)]);
      } else {
        run := [RunTask(w), Test(w, seen), Settle(w, true)];
        WaitingTaskReturns(s, w, t, seen, true);
        assert run == [RunTask(w)] + ([Test(w, seen)] + [Settle(w, true)]);
        LegalOne(Next(s, RunTask(w)), Test(w, seen), [Settle(w, true)]);
        LegalOne(s, RunTask(w), [Test(w, seen)] + [Settle(w, true)]);
      }
    }
    s' := Exec(s, run);
  }

  lemma HandsAre(s: State, w: nat, t: nat)
    requires AboutToRun(s, w, t)
    ensures Shaped(s) && Hands(w) in s.boxes && Finished in s.boxes && WaitQueue(w) in s.boxes && s.boxes[Hands(w)] != []
  {
  }

  lemma LegalPlain(s: State, w: nat)
    requires Shaped(s)
    ensures LegalRun(s, [RunTask(w), EndBody(w), Settle(w, true)])
  {
    hide Shaped, Next;
    NextShaped(s, RunTask(w));
    LegalRest(Next(s, RunTask(w)), w, true);
    assert [RunTask(w), EndBody(w), Settle(w, true)] == [RunTask(w)] + [EndBody(w), Settle(w, true)];
    LegalOne(s, RunTask(w), [EndBody(w), Settle(w, true)]);
  }

  // The worker takes a task from one of its own queues and runs it.
  lemma Handles(s: State, w: nat, from: Box, first: bool, t: nat) returns (run: seq<Action>, s': State)
    requires Takes(s, w, from, first, t) && |Unfinished(s)| <= CAPACITY
    ensures Shaped(s) && LegalRun(s, run) && s' == Exec(s, run) && Inv(s') && s'.workers == s.workers
    ensures |s'.tasks| == |s.tasks| && t < |s.tasks| && forall u :: 0 <= u < |s.tasks| && u != t ==> s'.tasks[u] == s.tasks[u]
    ensures SameKind(s.tasks[t].kind, s'.tasks[t].kind) && (s'.tasks[t].es.Over? <==> Finishes(s, t)) && !s.tasks[t].es.Over?
    ensures
      var to := if Finishes(s, t) then Finished else WaitQueue(w);
      var left := s.boxes[from := Others(s.boxes[from], first)];
      to in left && s'.boxes == left[to := left[to] + [t]]
  {
    hide Placed, TasksOk, Formula, SameKind, Next, Exec, LegalRun;
    var s1 := TakenInHand(s, w, from, first, t);
    SameOver(s, t, s1.tasks[t], s.(tasks := s1.tasks));
    RoomAfter(s, w, from, first, t, s1);
    var rest;
    rest, s' := RunsOnce(s1, w, t);
    run := [TakeAction(w, from)] + rest;
    LegalOne(s, TakeAction(w, from), rest);
    ExecKeeps(s, run);
    hide Inv;
    assert Others([t], false) == [];
    assert s.boxes[from := Others(s.boxes[from], first)][Hands(w) := [t]][Hands(w) := []] == s.boxes[from := Others(s.boxes[from], first)];
  }

  lemma RoomAfter(s: State, w: nat, from: Box, first: bool, t: nat, s1: State)
    requires Takes(s, w, from, first, t) && |Unfinished(s)| <= CAPACITY && t < |s.tasks| && !s.tasks[t].es.Over?
    requires AboutToRun(s1, w, t) && |s1.tasks| == |s.tasks| && t < |s1.tasks|
    requires s1.tasks == s.tasks[t := s.tasks[t].(phase := Ready, box := Hands(w))]
    ensures WaitQueue(w) in s1.boxes && |s1.boxes[WaitQueue(w)]| < CAPACITY
  {
    assert Unfinished(s1) == Unfinished(s);
    hide Formula, Honest, NoEmpty, TasksOk, Placed;
    RoomFor(s1, WaitQueue(w), t);
  }

  // After that the hands are empty again, and waiting tasks still wait for earlier ones.
  lemma HandledRests(s: State, w: nat, from: Box, first: bool, t: nat, s': State)
    requires Takes(s, w, from, first, t) && WaitsForEarlier(s) && Inv(s') && s'.workers == s.workers
    requires |s'.tasks| == |s.tasks| && t < |s.tasks| && forall u :: 0 <= u < |s.tasks| && u != t ==> s'.tasks[u] == s.tasks[u]
    requires SameKind(s.tasks[t].kind, s'.tasks[t].kind) && !s.tasks[t].es.Over?
    requires
      var to := if Finishes(s, t) then Finished else WaitQueue(w);
      var left := s.boxes[from := Others(s.boxes[from], first)];
      to in left && s'.boxes == left[to := left[to] + [t]]
    ensures Resting(s') && WaitsForEarlier(s')
    ensures OverTasks(s') == OverTasks(s) + if s'.tasks[t].es.Over? then {t} else {}
    ensures Unfinished(s') == Unfinished(s) - if s'.tasks[t].es.Over? then {t} else {}
  {
    hide Inv, Formula, Others, Finishes;
    forall u | 0 <= u < |s'.tasks| && s'.tasks[u].kind.Waits? ensures Formula(s'.tasks[u].kind.expr, Earlier(u)) {
      if u == t {
        ShapeDecides(s.tasks[u].kind.expr, s'.tasks[u].kind.expr, Earlier(u));
      }
    }
    forall b | b in s'.boxes && s'.boxes[b] != []
      ensures b.Finished? || ((b.Deque? || b.WaitQueue?) && b.w < s'.workers)
    {
    }
  }

  lemma {:induction false} RunsOn(s: State, run: seq<Action>, s1: State, more: seq<Action>)
    requires Shaped(s) && Shaped(s1) && LegalRun(s, run) && s1 == Exec(s, run) && LegalRun(s1, more)
    ensures LegalRun(s, run + more) && Exec(s, run + more) == Exec(s1, more)
    decreases |run|
  {
    hide Next, Legal, Shaped;
    if run == [] {
      assert [] + more == more;
    } else {
      NextShaped(s, run[0]);
      RunsOn(Next(s, run[0]), run[1..], s1, more);
      assert run + more == [run[0]] + (run[1..] + more);
      LegalOne(s, run[0], run[1..] + more);
    }
  }

  function IndexOf(q: seq<nat>, t: nat): (i: nat)
    requires t in q
    ensures i < |q| && q[i] == t && forall k :: 0 <= k < i ==> q[k] != t
  {
    if q[0] == t then 0 else 1 + IndexOf(q[1..], t)
  }

  // How many tasks are taken before task t.
  function Before(q: seq<nat>, t: nat, first: bool): (n: nat)
    requires t in q
  {
    if first then IndexOf(q, t) else |q| - 1 - IndexOf(q, t)
  }

  lemma BeforeFalls(q: seq<nat>, t: nat, first: bool, q': seq<nat>)
    requires Distinct(q) && t in q && Picked(q, first) != t
    requires if first then q' == Others(q, first) + [Picked(q, first)] else q' == Others(q, first)
    ensures t in q' && Before(q', t, first) < Before(q, t, first)
  {
    var i := IndexOf(q, t);
    if first {
      assert q'[i - 1] == t;
      Unique(q', t, i - 1);
    } else {
      assert q'[i] == t;
      Unique(q', t, i);
    }
  }

  lemma Unique(q: seq<nat>, t: nat, i: nat)
    requires i < |q| && q[i] == t
    ensures t in q && IndexOf(q, t) <= i
  {
  }

  // Task t, the earliest unfinished one: where it is queued, and from which end.
  lemma EarliestIs(s: State, t: nat)
    requires Resting(s) && t in Unfinished(s) && WaitsForEarlier(s) && forall u: nat :: u < t ==> u in OverTasks(s)
    ensures
      var b := s.tasks[t].box;
      && t < |s.tasks| && b in s.boxes && (b.Deque? || b.WaitQueue?) && b.w < s.workers && t in s.boxes[b] && Distinct(s.boxes[b])
      && Finishes(s, t)
  {
    assert TaskOk(s.tasks[t], OverTasks(s));
    if s.tasks[t].kind.Waits? {
      FormulaGrows(s.tasks[t].kind.expr, Earlier(t), OverTasks(s));
    }
  }

  // How many tasks are ahead of task t where it is queued.
  function Ahead(s: State, t: nat): (n: nat) {
    if t < |s.tasks| && s.tasks[t].box in s.boxes && t in s.boxes[s.tasks[t].box] then
      Before(s.boxes[s.tasks[t].box], t, s.tasks[t].box.WaitQueue?) else 0
  }

  // If another task was taken and not finished, fewer are ahead of task t.
  lemma OneLessAhead(s: State, t: nat, first: bool, u: nat, s1: State)
    requires Resting(s) && WaitsForEarlier(s) && t in Unfinished(s) && forall v: nat :: v < t ==> v in OverTasks(s)
    requires t < |s.tasks| == |s1.tasks| && t != u && s1.tasks[t] == s.tasks[t] && first == s.tasks[t].box.WaitQueue?
    requires s.tasks[t].box in s.boxes && s.boxes[s.tasks[t].box] != [] && u == Picked(s.boxes[s.tasks[t].box], first)
    requires
      var from, q := s.tasks[t].box, s.boxes[s.tasks[t].box];
      from in s1.boxes && s1.boxes[from] == Others(q, first) + if first then [u] else []
    ensures Ahead(s1, t) < Ahead(s, t)
  {
    EarliestIs(s, t);
    hide Inv, WaitsForEarlier, Before;
    var q := s.boxes[s.tasks[t].box];
    assert Others(q, first) + [] == Others(q, first);
    BeforeFalls(q, t, first, s1.boxes[s.tasks[t].box]);
  }

  // The first task of the earliest one's queue is handled: that finishes it, or there is one
  // task less ahead of the earliest one.
  lemma StepTowards(s: State, t: nat) returns (run: seq<Action>, s': State)
    requires Resting(s) && WaitsForEarlier(s) && |Unfinished(s)| <= CAPACITY
    requires t in Unfinished(s) && forall u: nat :: u < t ==> u in OverTasks(s)
    ensures Shaped(s) && LegalRun(s, run) && s' == Exec(s, run) && Resting(s') && WaitsForEarlier(s') && Shaped(s')
    ensures |s'.tasks| == |s.tasks|
    ensures Unfinished(s') < Unfinished(s) ||
      (Unfinished(s') == Unfinished(s) && OverTasks(s') == OverTasks(s) && Ahead(s', t) < Ahead(s, t))
  {
    hide Inv, Formula, Placed, TasksOk, Exec, Next, LegalRun, Finishes, Distinct, Ahead, WaitsForEarlier;
    EarliestIs(s, t);
    var from := s.tasks[t].box;
    var first, w := from.WaitQueue?, from.w;
    var u := Picked(s.boxes[from], first);
    run, s' := Handles(s, w, from, first, u);
    HandledRests(s, w, from, first, u, s');
    if !Finishes(s, u) {
      assert Others(s.boxes[from], first) + [] == Others(s.boxes[from], first);
      OneLessAhead(s, t, first, u, s');
    }
    RestingIsShaped(s');
  }

  lemma RestingIsShaped(s: State)
    requires Resting(s)
    ensures Shaped(s)
  {
  }

  // One more task can be finished.
  lemma {:induction false} FinishesOne(s: State, t: nat) returns (run: seq<Action>, s': State)
    requires Resting(s) && WaitsForEarlier(s) && |Unfinished(s)| <= CAPACITY
    requires t in Unfinished(s) && forall u: nat :: u < t ==> u in OverTasks(s)
    ensures Shaped(s) && LegalRun(s, run) && s' == Exec(s, run) && Resting(s') && WaitsForEarlier(s')
    ensures |s'.tasks| == |s.tasks| && Unfinished(s') < Unfinished(s)
    decreases Ahead(s, t)
  {
    hide Resting, Exec, Next, LegalRun, Ahead, WaitsForEarlier, Unfinished, OverTasks;
    var run1, s1 := StepTowards(s, t);
    if Unfinished(s1) < Unfinished(s) {
      run, s' := run1, s1;
    } else {
      var more;
      more, s' := FinishesOne(s1, t);
      RunsOn(s, run1, s1, more);
      run := run1 + more;
    }
  }

  lemma SomeEarliest(s: State) returns (t: nat)
    requires Unfinished(s) != {}
    ensures t in Unfinished(s) && forall u: nat :: u < t ==> u in OverTasks(s)
  {
    var some :| some in Unfinished(s);
    t := 0;
    while s.tasks[t].es.Over?
      invariant t <= some && forall u: nat :: u < t ==> u in OverTasks(s)
      decreases some - t
    {
      t := t + 1;
    }
  }

  lemma FewerUnfinished(a: set<nat>, b: set<nat>)
    requires a < b
    ensures |a| < |b|
  {
    assert b == a + (b - a) && b - a != {};
  }

  // Whatever has run so far: if no task is in hand, each waiting task waits for earlier
  // ones only, and no more than CAPACITY tasks are unfinished, the workers can go on so
  // that every task is finished, having run once.
  lemma {:induction false} AllCanFinish(s: State) returns (run: seq<Action>)
    requires Resting(s) && WaitsForEarlier(s) && |Unfinished(s)| <= CAPACITY
    ensures Shaped(s) && LegalRun(s, run)
    ensures
      var s' := Exec(s, run);
      && |s'.tasks| == |s.tasks|
      && forall t :: 0 <= t < |s'.tasks| ==> s'.tasks[t].es.Over? && s'.tasks[t].runs == 1 && s'.tasks[t].box == Finished
    decreases |Unfinished(s)|
  {
    hide Inv, Formula, Exec, Next, LegalRun, WaitsForEarlier, Unfinished, OverTasks;
    if Unfinished(s) == {} {
      run := [];
      AllFinished(s);
      LegalNone(s);
    } else {
      var t := SomeEarliest(s);
      var run1, s1 := FinishesOne(s, t);
      FewerUnfinished(Unfinished(s1), Unfinished(s));
      var more := AllCanFinish(s1);
      RunsOn(s, run1, s1, more);
      run := run1 + more;
    }
  }

  lemma AllFinished(s: State)
    requires Resting(s) && Unfinished(s) == {}
    ensures Shaped(s)
    ensures forall t :: 0 <= t < |s.tasks| ==> s.tasks[t].es.Over? && s.tasks[t].runs == 1 && s.tasks[t].box == Finished
  {
    forall t | 0 <= t < |s.tasks| ensures s.tasks[t].es.Over? && s.tasks[t].runs == 1 && s.tasks[t].box == Finished {
      assert t !in Unfinished(s) && TaskOk(s.tasks[t], OverTasks(s));
      assert t in s.boxes[s.tasks[t].box];
    }
  }
}
