// Where the runtime's steps put a task, and what happens to a task from the start of its
// run to its end.
module TaskSteps {
  import opened Waiting
  import opened Runtime

  // schedule() puts the new task at the back of the worker's own deque, or on top of its
  // hands if the deque refuses it, and changes no other place and no other task.
  lemma ScheduleGoes(s: State, w: nat, kind: Kind, room: bool)
    requires Inv(s) && w < s.workers && Free(s, w)
    ensures
      var s', t := Next(s, Schedule(w, kind, room)), |s.tasks|;
      var box := if room && |s.boxes[Deque(w)]| < CAPACITY then Deque(w) else Hands(w);
      && s'.boxes == s.boxes[box := s.boxes[box] + [t]]
      && s'.tasks == s.tasks + [Task(kind, Init, false, 0, Ready, box)]
  {
  }

  // A worker that has just scheduled a task takes that very task next.
  lemma ScheduledIsNext(s: State, w: nat, kind: Kind)
    requires Inv(s) && w < s.workers && Free(s, w) && |s.boxes[Deque(w)]| < CAPACITY
    ensures
      var s', t := Next(Next(s, Schedule(w, kind, true)), TakeOwn(w)), |s.tasks|;
      && s'.boxes == s.boxes[Hands(w) := s.boxes[Hands(w)] + [t]]
      && s'.tasks == s.tasks + [Task(kind, Init, false, 0, Ready, Hands(w))]
  {
    ScheduleGoes(s, w, kind, true);
    hide Placed, TasksOk;
    var s1, t := Next(s, Schedule(w, kind, true)), |s.tasks|;
    assert s1.boxes[Deque(w)] == s.boxes[Deque(w)] + [t];
    assert (s.boxes[Deque(w)] + [t])[..|s.boxes[Deque(w)]|] == s.boxes[Deque(w)];
    assert Next(s1, TakeOwn(w)).boxes == s.boxes[Hands(w) := s.boxes[Hands(w)] + [t]];
  }

  // Of two tasks scheduled one after the other into an empty deque, another worker gets
  // the older one, and the worker itself the younger one.
  lemma OthersTakeTheOldest(s: State, w: nat, v: nat, a: Kind, b: Kind)
    requires Inv(s) && w < s.workers && v < s.workers && v != w && Free(s, w) && Free(s, v) && s.boxes[Deque(w)] == []
    ensures
      var t := |s.tasks|;
      var s2 := Next(Next(s, Schedule(w, a, true)), Schedule(w, b, true));
      && Next(s2, Steal(v, w)).boxes == s.boxes[Deque(w) := [t + 1]][Hands(v) := s.boxes[Hands(v)] + [t]]
      && Next(s2, TakeOwn(w)).boxes == s.boxes[Deque(w) := [t]][Hands(w) := s.boxes[Hands(w)] + [t + 1]]
  {
    var s2 := TwoScheduled(s, w, a, b);
    hide Inv, Next, Free;
    StillFree(s, s2, w);
    StillFree(s, s2, v);
    TakesAt(s2, v, Deque(w), true);
    TakesAt(s2, w, Deque(w), false);
    var t := |s.tasks|;
    assert Next(s2, Steal(v, w)) == Take(s2, v, Deque(w), true) by { NextIsTake(s2, v, w); }
    assert Next(s2, TakeOwn(w)) == Take(s2, w, Deque(w), false) by { NextIsTake(s2, w, w); }
  }

  lemma NextIsTake(s: State, v: nat, w: nat)
    requires Shaped(s) && v < s.workers
    ensures v != w ==> Next(s, Steal(v, w)) == Take(s, v, Deque(w), true)
    ensures Next(s, TakeOwn(v)) == Take(s, v, Deque(v), false)
  {
  }

  lemma TakesAt(s: State, v: nat, from: Box, first: bool)
    requires Shaped(s) && v < s.workers && from in s.boxes && from.Deque? && |s.boxes[from]| == 2
    requires Free(s, v) && s.boxes[from][0] < |s.tasks| && s.boxes[from][1] < |s.tasks|
    ensures
      var (got, kept) := if first then (s.boxes[from][0], s.boxes[from][1]) else (s.boxes[from][1], s.boxes[from][0]);
      Take(s, v, from, first).boxes == s.boxes[from := [kept]][Hands(v) := s.boxes[Hands(v)] + [got]]
  {
    assert s.boxes[from][1..] == [s.boxes[from][1]] && s.boxes[from][..1] == [s.boxes[from][0]];
  }

  lemma TwoScheduled(s: State, w: nat, a: Kind, b: Kind) returns (s2: State)
    requires Inv(s) && w < s.workers && Free(s, w) && s.boxes[Deque(w)] == []
    ensures Shaped(s) && Shaped(Next(s, Schedule(w, a, true)))
    ensures s2 == Next(Next(s, Schedule(w, a, true)), Schedule(w, b, true)) && s2.workers == s.workers
    ensures Shaped(s2) && s2.boxes == s.boxes[Deque(w) := [|s.tasks|, |s.tasks| + 1]]
    ensures |s2.tasks| == |s.tasks| + 2 && forall u :: 0 <= u < |s.tasks| ==> s2.tasks[u] == s.tasks[u]
  {
    var t := |s.tasks|;
    ScheduleGoes(s, w, a, true);
    hide TasksOk, Placed, Distinct;
    var s1 := Next(s, Schedule(w, a, true));
    assert [] + [t] == [t] && [t] + [t + 1] == [t, t + 1];
    StillFree(s, s1, w);
    s2 := Next(s1, Schedule(w, b, true));
  }

  lemma StillFree(s: State, s': State, w: nat)
    requires Shaped(s) && Shaped(s') && w < s.workers && w < s'.workers && Free(s, w) && s'.boxes[Hands(w)] == s.boxes[Hands(w)]
    requires |s.tasks| <= |s'.tasks| && forall u :: 0 <= u < |s.tasks| ==> s'.tasks[u] == s.tasks[u]
    ensures Free(s', w)
  {
  }

  // ----------------------------------------------------------------- a whole run()

  // The task on top of a worker's hands that is about to be run.
  ghost predicate AboutToRun(s: State, w: nat, t: nat) {
    && Inv(s) && w < s.workers && HasTop(s, w) && t == Top(s, w) && s.tasks[t].phase.Ready?
  }

  // Only task t changed, and it stayed where it was.
  ghost predicate Changed(s: State, t: nat, task: Task, s': State) {
    t < |s.tasks| && s' == s.(tasks := s.tasks[t := task])
  }

  lemma SameTop(s: State, w: nat, t: nat, task: Task, s': State)
    requires Shaped(s) && w < s.workers && HasTop(s, w) && t == Top(s, w) && Changed(s, t, task, s')
    ensures Shaped(s') && w < s'.workers && HasTop(s', w) && Top(s', w) == t
  {
  }

  // What is left when the task has gone from the hands to another place.
  ghost predicate Went(s: State, w: nat, t: nat, to: Box, s': State)
    requires Hands(w) in s.boxes && to in s.boxes && s.boxes[Hands(w)] != []
  {
    && s'.workers == s.workers && |s'.tasks| == |s.tasks|
    && s'.boxes == s.boxes[Hands(w) := Others(s.boxes[Hands(w)], false)][to := s.boxes[to] + [t]]
    && forall u :: 0 <= u < |s.tasks| && u != t ==> s'.tasks[u] == s.tasks[u]
  }

  // A plain task that is run to its end is finished, having run once.
  lemma PlainTaskFinishes(s: State, w: nat, t: nat, room: bool)
    requires AboutToRun(s, w, t) && s.tasks[t].kind.Plain?
    ensures
      var s' := Exec(s, [RunTask(w), EndBody(w), Settle(w, room)]);
      && Went(s, w, t, Finished, s')
      && s'.tasks[t] == Task(s.tasks[t].kind, Over, false, 1, Returned, Finished)
  {
    TopIs(s, w);
    var task := s.tasks[t];
    hide Placed, TasksOk;
    var task1 := task.(es := Run, phase := Body, runs := 1);
    var s1 := Next(s, RunTask(w));
    assert Changed(s, t, task1, s1);
    SameTop(s, w, t, task1, s1);
    Ends(s1, w, t, room);
    Three(s, RunTask(w), EndBody(w), Settle(w, room));
    assert s1.tasks[t := task1.(es := Over, phase := Returned, box := Finished)] == s.tasks[t := task1.(es := Over, phase := Returned, box := Finished)];
  }

  lemma ExecOne(s: State, a: Action, others: seq<Action>)
    requires Shaped(s)
    ensures Shaped(Next(s, a)) && Exec(s, [a] + others) == Exec(Next(s, a), others) && Exec(s, []) == s
  {
    NextShaped(s, a);
    hide Next;
    assert ([a] + others)[1..] == others;
  }

  lemma Three(s: State, a: Action, b: Action, c: Action)
    requires Shaped(s)
    ensures Shaped(Next(s, a)) && Shaped(Next(Next(s, a), b))
    ensures Exec(s, [a, b, c]) == Next(Next(Next(s, a), b), c)
  {
    hide Next, Exec;
    assert [a, b, c] == [a] + ([b] + ([c] + []));
    ExecOne(s, a, [b] + ([c] + []));
    ExecOne(Next(s, a), b, [c] + []);
    ExecOne(Next(Next(s, a), b), c, []);
    ExecOne(Next(Next(Next(s, a), b), c), c, []);
  }

  lemma NextShaped(s: State, a: Action)
    requires Shaped(s)
    ensures Shaped(Next(s, a))
  {
  }

  // The end of a body: the task is finished, whatever the wait queue.
  lemma Ends(s: State, w: nat, t: nat, room: bool)
    requires Shaped(s) && w < s.workers && HasTop(s, w) && t == Top(s, w)
    requires s.tasks[t].phase.Body? && !s.tasks[t].again
    ensures
      var s1 := Next(s, EndBody(w));
      && Shaped(s1) && Went(s, w, t, Finished, Next(s1, Settle(w, room)))
      && Next(s1, Settle(w, room)).tasks[t] == s.tasks[t].(es := Over, phase := Returned, box := Finished)
  {
    var s1 := Next(s, EndBody(w));
    var task1 := s.tasks[t].(es := Over, phase := Returned);
    assert Changed(s, t, task1, s1);
    SameTop(s, w, t, task1, s1);
  }

  // The start of a waiting task's run and its test, while no task finishes.
  lemma Tested(s: State, w: nat, t: nat, seen: Reads) returns (s2: State)
    requires AboutToRun(s, w, t) && s.tasks[t].kind.Waits? && Between(seen, OverTasks(s), OverTasks(s))
    ensures
      var s1 := Next(s, RunTask(w));
      && Legal(s, RunTask(w)) && Shaped(s1) && Legal(s1, Test(w, seen)) && s2 == Next(s1, Test(w, seen))
    ensures Shaped(s) && Inv(s2) && t < |s2.tasks| && Changed(s, t, s2.tasks[t], s2) && HasTop(s2, w) && Top(s2, w) == t && w < s2.workers
    ensures
      var task, task' := s.tasks[t], s2.tasks[t];
      && task'.box == Hands(w) && task'.es.Run? && SameKind(task.kind, task'.kind)
      && if Formula(task.kind.expr, OverTasks(s)) then task'.phase.Body? && !task'.again && task'.runs == 1
         else task'.phase.Returned? && task'.again && task'.runs == 0
  {
    TopIs(s, w);
    RunKeeps(s, w);
    var s1 := Next(s, RunTask(w));
    var task1 := s.tasks[t].(es := Run, phase := Testing(OverTasks(s)));
    assert Changed(s, t, task1, s1);
    SameTop(s, w, t, task1, s1);
    SameOver(s, t, task1, s1);
    TestKeeps(s1, w, seen);
    s2 := Next(s1, Test(w, seen));
    hide Placed, TasksOk, GetState, Formula, Between, Honest, NoEmpty;
    assert s2 == TestStep(s1, t, seen);
    SameTop(s1, w, t, s2.tasks[t], s2);
    assert s1.tasks[t := s2.tasks[t]] == s.tasks[t := s2.tasks[t]];
  }

  lemma SameOver(s: State, t: nat, task: Task, s': State)
    requires Changed(s, t, task, s') && (task.es.Over? <==> s.tasks[t].es.Over?)
    ensures OverTasks(s') == OverTasks(s)
  {
  }

  // A waiting task whose expression holds is finished by its next run, having run once,
  // whether it was rescheduled before or not.
  lemma WaitingTaskFinishes(s: State, w: nat, t: nat, seen: Reads, room: bool)
    requires AboutToRun(s, w, t) && s.tasks[t].kind.Waits? && Between(seen, OverTasks(s), OverTasks(s))
    requires Formula(s.tasks[t].kind.expr, OverTasks(s))
    ensures
      var s' := Exec(s, [RunTask(w)] + [Test(w, seen), EndBody(w), Settle(w, room)]);
      && Went(s, w, t, Finished, s') && SameKind(s.tasks[t].kind, s'.tasks[t].kind)
      && s'.tasks[t] == Task(s'.tasks[t].kind, Over, false, 1, Returned, Finished)
  {
    hide Inv, Next, Exec, Formula, Between, SameKind;
    var s2 := Tested(s, w, t, seen);
    ExecOne(s, RunTask(w), [Test(w, seen), EndBody(w), Settle(w, room)]);
    Three(Next(s, RunTask(w)), Test(w, seen), EndBody(w), Settle(w, room));
    Ends(s2, w, t, room);
  }

  // One whose expression does not hold goes to the back of the worker's wait queue, or
  // stays in its hands to be run again if that queue refuses it.
  lemma WaitingTaskReturns(s: State, w: nat, t: nat, seen: Reads, room: bool)
    requires AboutToRun(s, w, t) && s.tasks[t].kind.Waits? && Between(seen, OverTasks(s), OverTasks(s))
    requires !Formula(s.tasks[t].kind.expr, OverTasks(s))
    ensures
      var s' := Exec(s, [RunTask(w), Test(w, seen), Settle(w, room)]);
      var fits := room && |s.boxes[WaitQueue(w)]| < CAPACITY;
      && t < |s'.tasks|
      && (if fits then Went(s, w, t, WaitQueue(w), s') else s'.boxes == s.boxes && Changed(s, t, s'.tasks[t], s'))
      && SameKind(s.tasks[t].kind, s'.tasks[t].kind)
      && s'.tasks[t] == Task(s'.tasks[t].kind, Run, true, 0, Ready, if fits then WaitQueue(w) else Hands(w))
  {
    hide Inv, Next, Exec, Formula, Between, SameKind;
    var s2 := Tested(s, w, t, seen);
    Three(s, RunTask(w), Test(w, seen), Settle(w, room));
    Waits(s2, w, t, room);
  }

  lemma Waits(s: State, w: nat, t: nat, room: bool)
    requires Shaped(s) && w < s.workers && HasTop(s, w) && t == Top(s, w)
    requires s.tasks[t].phase.Returned? && s.tasks[t].again
    ensures
      var s', fits := Next(s, Settle(w, room)), room && |s.boxes[WaitQueue(w)]| < CAPACITY;
      && t < |s'.tasks|
      && (if fits then Went(s, w, t, WaitQueue(w), s') else Changed(s, t, s'.tasks[t], s'))
      && s'.tasks[t] == s.tasks[t].(phase := Ready, box := if fits then WaitQueue(w) else s.tasks[t].box)
  {
  }
}
