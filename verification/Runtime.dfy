// The task runtime: workers that schedule, take, steal and run tasks. Every queue
// operation is one step, and so are the start of a task, the test of a waiting
// expression, the end of a body, and what happens to a task that has returned.
module Runtime {
  import opened Waiting

  datatype Kind = Plain | Waits(expr: Expr)

  // Where a task in a worker's hands is in its run().
  datatype Phase = Ready | Testing(before: set<nat>) | Body | Returned

  // The places a task can be in.
  datatype Box = Deque(w: nat) | WaitQueue(w: nat) | Hands(w: nat) | Finished

  // m_iES, m_b_reschedule_flag, how often the body has started, and where it is.
  datatype Task = Task(kind: Kind, es: ExeState, again: bool, runs: nat, phase: Phase, box: Box)

  // The tasks ever scheduled, and the contents of all places. The hands of a worker
  // are a stack: a body may run other tasks before it ends.
  datatype State = State(workers: nat, boxes: map<Box, seq<nat>>, tasks: seq<Task>)

  // A ring of 1 << 8 slots holds at most MASK tasks.
  const CAPACITY: nat := 255

  datatype Action =
    | Schedule(w: nat, kind: Kind, room: bool)
    | TakeOwn(w: nat)
    | TakeWaiting(w: nat, v: nat)
    | Steal(w: nat, v: nat)
    | RunTask(w: nat)
    | Test(w: nat, seen: Reads)
    | EndBody(w: nat)
    | Settle(w: nat, room: bool)

  ghost predicate Shaped(s: State) {
    && (forall w :: 0 <= w < s.workers ==>
         Deque(w) in s.boxes && WaitQueue(w) in s.boxes && Hands(w) in s.boxes)
    && Finished in s.boxes
  }

  function OverTasks(s: State): (r: set<nat>) {
    set t: nat | t < |s.tasks| && s.tasks[t].es.Over?
  }

  // A worker is free to take or schedule tasks between runs, and inside a body.
  predicate Free(s: State, w: nat)
    requires Hands(w) in s.boxes
  {
    var hands := s.boxes[Hands(w)];
    hands == [] || (hands[|hands| - 1] < |s.tasks| && s.tasks[hands[|hands| - 1]].phase.Body?)
  }

  predicate HasTop(s: State, w: nat)
    requires Hands(w) in s.boxes
  {
    var hands := s.boxes[Hands(w)];
    hands != [] && hands[|hands| - 1] < |s.tasks|
  }

  function Top(s: State, w: nat): (t: nat)
    requires Hands(w) in s.boxes && HasTop(s, w)
    ensures t < |s.tasks|
  {
    s.boxes[Hands(w)][|s.boxes[Hands(w)]| - 1]
  }

  // ----------------------------------------------------------------------- steps

  // Takes the first or the last task of a box and puts it at the end of another.
  function Move(s: State, from: Box, first: bool, to: Box, phase: Phase): (r: State)
    requires from in s.boxes && to in s.boxes && from != to && s.boxes[from] != []
    requires s.boxes[from][if first then 0 else |s.boxes[from]| - 1] < |s.tasks|
  {
    var q := s.boxes[from];
    var t := q[if first then 0 else |q| - 1];
    var rest := if first then q[1..] else q[..|q| - 1];
    s.(boxes := s.boxes[from := rest][to := s.boxes[to] + [t]],
       tasks := s.tasks[t := s.tasks[t].(phase := phase, box := to)])
  }

  predicate CanTake(s: State, w: nat, from: Box, first: bool)
    requires Shaped(s)
  {
    && w < s.workers && Free(s, w) && from in s.boxes && from != Hands(w) && s.boxes[from] != []
    && s.boxes[from][if first then 0 else |s.boxes[from]| - 1] < |s.tasks|
  }

  function Take(s: State, w: nat, from: Box, first: bool): (r: State)
    requires Shaped(s)
  {
    if CanTake(s, w, from, first) then Move(s, from, first, Hands(w), Ready) else s
  }

  // schedule(): into the worker's own deque, or into its hands if the deque is full.
  function ScheduleStep(s: State, w: nat, kind: Kind, room: bool): (r: State)
    requires Shaped(s) && w < s.workers
  {
    var fits := room && |s.boxes[Deque(w)]| < CAPACITY;
    var box := if fits then Deque(w) else Hands(w);
    State(s.workers, s.boxes[box := s.boxes[box] + [|s.tasks|]], s.tasks + [Task(kind, Init, false, 0, Ready, box)])
  }

  // The start of run(): a plain body begins, a waiting task tests its expression.
  function RunStep(s: State, t: nat): (r: State)
    requires t < |s.tasks|
  {
    var task := s.tasks[t];
    s.(tasks := s.tasks[t :=
      if task.kind.Plain? then task.(es := Run, phase := Body, runs := task.runs + 1)
      else task.(es := Run, phase := Testing(OverTasks(s)))])
  }

  // The test of a waiting task, and the start of its continuation.
  function TestStep(s: State, t: nat, seen: Reads): (r: State)
    requires t < |s.tasks| && s.tasks[t].kind.Waits?
  {
    var task := s.tasks[t];
    var a := GetState(task.kind.expr, seen, 0);
    s.(tasks := s.tasks[t :=
      if a.state == Some(Over) then task.(kind := Waits(a.expr), again := false, phase := Body, runs := task.runs + 1)
      else task.(kind := Waits(a.expr), again := true, phase := Returned)])
  }

  function EndStep(s: State, t: nat): (r: State)
    requires t < |s.tasks|
  {
    s.(tasks := s.tasks[t := s.tasks[t].(es := Over, phase := Returned)])
  }

  // run_task() after run(): done, or into the wait queue, or run again if that is full.
  function SettleStep(s: State, w: nat, t: nat, room: bool): (r: State)
    requires Shaped(s) && w < s.workers && HasTop(s, w) && t == Top(s, w)
  {
    if !s.tasks[t].again then Move(s, Hands(w), false, Finished, Returned)
    else if room && |s.boxes[WaitQueue(w)]| < CAPACITY then Move(s, Hands(w), false, WaitQueue(w), Ready)
    else s.(tasks := s.tasks[t := s.tasks[t].(phase := Ready)])
  }

  function Next(s: State, a: Action): (r: State)
    requires Shaped(s)
  {
    if a.w >= s.workers then s
    else
      match a
      case Schedule(w, kind, room) => if Free(s, w) then ScheduleStep(s, w, kind, room) else s
      case TakeOwn(w) => Take(s, w, Deque(w), false)
      case TakeWaiting(w, v) => Take(s, w, WaitQueue(v), true)
      case Steal(w, v) => if v != w then Take(s, w, Deque(v), true) else s
      case RunTask(w) =>
        if HasTop(s, w) && s.tasks[Top(s, w)].phase.Ready? then RunStep(s, Top(s, w)) else s
      case Test(w, seen) =>
        if HasTop(s, w) && s.tasks[Top(s, w)].phase.Testing? && s.tasks[Top(s, w)].kind.Waits? then
          TestStep(s, Top(s, w), seen) else s
      case EndBody(w) =>
        if HasTop(s, w) && s.tasks[Top(s, w)].phase.Body? then EndStep(s, Top(s, w)) else s
      case Settle(w, room) =>
        if HasTop(s, w) && s.tasks[Top(s, w)].phase.Returned? then SettleStep(s, w, Top(s, w), room) else s
  }

  // A waiting task is accepted only with an expression that reaches no para without
  // a task and has not been tested; a test reads while tasks go on finishing.
  ghost predicate Legal(s: State, a: Action) {
    match a
    case Schedule(_, kind, _) => kind.Waits? ==> NoEmpty(kind.expr) && Honest(kind.expr, {})
    case Test(w, seen) =>
      Hands(w) in s.boxes && HasTop(s, w) && s.tasks[Top(s, w)].phase.Testing? ==>
        Between(seen, s.tasks[Top(s, w)].phase.before, OverTasks(s))
    case _ => true
  }

  // ------------------------------------------------------------------- invariant

  ghost predicate Distinct(q: seq<nat>) {
    forall i, j :: 0 <= i < j < |q| ==> q[i] != q[j]
  }

  // Each place lists tasks that say they are there, each once; each task is listed
  // where it says it is.
  ghost predicate Placed(s: State) {
    && (forall b, i :: b in s.boxes && 0 <= i < |s.boxes[b]| ==>
         s.boxes[b][i] < |s.tasks| && s.tasks[s.boxes[b][i]].box == b)
    && (forall b :: b in s.boxes ==> Distinct(s.boxes[b]))
    && (forall t :: 0 <= t < |s.tasks| ==> s.tasks[t].box in s.boxes && t in s.boxes[s.tasks[t].box])
  }

  // How far a task has come, given where it is and which tasks are over.
  ghost predicate TaskOk(task: Task, over: set<nat>) {
    && (task.kind.Waits? ==>
         && NoEmpty(task.kind.expr) && Honest(task.kind.expr, over)
         && (task.runs > 0 ==> Formula(task.kind.expr, over)))
    && match task.box
       case Deque(_) => task.runs == 0 && !task.es.Over? && !task.again && task.phase.Ready?
       case WaitQueue(_) => task.runs == 0 && !task.es.Over? && task.kind.Waits? && task.phase.Ready?
       case Finished => task.runs == 1 && task.es.Over? && task.phase.Returned?
       case Hands(_) =>
         match task.phase
         case Ready => task.runs == 0 && !task.es.Over? && (task.kind.Plain? ==> !task.again)
         case Testing(before) =>
           task.runs == 0 && task.es.Run? && task.kind.Waits? && before <= over && Honest(task.kind.expr, before)
         case Body => task.runs == 1 && task.es.Run? && !task.again
         case Returned =>
           if task.again then task.runs == 0 && task.es.Run? && task.kind.Waits?
           else task.runs == 1 && task.es.Over?
  }

  ghost predicate TasksOk(s: State) {
    forall t :: 0 <= t < |s.tasks| ==> TaskOk(s.tasks[t], OverTasks(s))
  }

  ghost predicate Inv(s: State) {
    Shaped(s) && Placed(s) && TasksOk(s)
  }

  // -------------------------------------------------------------------- placement

  function Picked(q: seq<nat>, first: bool): (t: nat)
    requires q != []
  {
    q[if first then 0 else |q| - 1]
  }

  function Others(q: seq<nat>, first: bool): (r: seq<nat>)
    requires q != []
  {
    if first then q[1..] else q[..|q| - 1]
  }

  lemma OthersAre(q: seq<nat>, first: bool)
    requires q != [] && Distinct(q)
    ensures Picked(q, first) !in Others(q, first) && Distinct(Others(q, first)) && Picked(q, first) in q
    ensures forall j :: j in q <==> j == Picked(q, first) || j in Others(q, first)
    ensures forall i :: 0 <= i < |Others(q, first)| ==> Others(q, first)[i] in q && Others(q, first)[i] != Picked(q, first)
  {
    assert q == if first then [q[0]] + q[1..] else q[..|q| - 1] + [q[|q| - 1]];
  }

  // A task listed in a box is in no other one.
  lemma ListedOnce(s: State, from: Box, to: Box, t: nat)
    requires Placed(s) && from in s.boxes && to in s.boxes && t in s.boxes[from] && from != to
    ensures t < |s.tasks| && s.tasks[t].box == from && t !in s.boxes[to]
  {
  }

  lemma AppendDistinct(q: seq<nat>, t: nat)
    requires Distinct(q) && t !in q
    ensures Distinct(q + [t])
    ensures forall j :: j in q + [t] <==> j == t || j in q
  {
    assert forall i :: 0 <= i < |q| ==> q[i] in q;
  }

  lemma MovePlaced(s: State, from: Box, first: bool, to: Box, phase: Phase)
    requires Placed(s) && from in s.boxes && to in s.boxes && from != to && s.boxes[from] != []
    ensures Picked(s.boxes[from], first) < |s.tasks|
    ensures Placed(Move(s, from, first, to, phase))
  {
    var q := s.boxes[from];
    var t, rest := Picked(q, first), Others(q, first);
    OthersAre(q, first);
    ListedOnce(s, from, to, t);
    AppendDistinct(s.boxes[to], t);
    var s' := Move(s, from, first, to, phase);
    assert s'.boxes == s.boxes[from := rest][to := s.boxes[to] + [t]];
    assert s'.tasks == s.tasks[t := s.tasks[t].(phase := phase, box := to)];
    hide Distinct, Picked, Others, Move;
    forall b, i | b in s'.boxes && 0 <= i < |s'.boxes[b]|
      ensures s'.boxes[b][i] < |s'.tasks| && s'.tasks[s'.boxes[b][i]].box == b
    {
      if b == from {
        assert rest[i] in q;
      } else if b == to && i == |s.boxes[to]| {
      } else {
        assert s.tasks[s.boxes[b][i]].box == b;
        assert s.boxes[b][i] != t;
      }
    }
    forall u | 0 <= u < |s'.tasks| ensures s'.tasks[u].box in s'.boxes && u in s'.boxes[s'.tasks[u].box] {
      if u != t {
        assert u in s.boxes[s.tasks[u].box];
      }
    }
  }

  lemma UpdatePlaced(s: State, t: nat, task: Task)
    requires Placed(s) && t < |s.tasks| && task.box == s.tasks[t].box
    ensures Placed(s.(tasks := s.tasks[t := task]))
  {
    var s' := s.(tasks := s.tasks[t := task]);
    assert forall u :: 0 <= u < |s.tasks| ==> s'.tasks[u].box == s.tasks[u].box;
  }

  lemma SchedulePlaced(s: State, w: nat, kind: Kind, room: bool)
    requires Shaped(s) && Placed(s) && w < s.workers
    ensures Placed(ScheduleStep(s, w, kind, room))
  {
    var s' := ScheduleStep(s, w, kind, room);
    var t := |s.tasks|;
    var box := s'.tasks[t].box;
    assert forall b, i :: b in s.boxes && 0 <= i < |s.boxes[b]| ==> s.boxes[b][i] != t;
    forall u | 0 <= u < |s'.tasks| ensures s'.tasks[u].box in s'.boxes && u in s'.boxes[s'.tasks[u].box] {
      if u < t {
        assert u in s.boxes[s.tasks[u].box];
      } else {
        assert s'.boxes[box][|s.boxes[box]|] == t;
      }
    }
  }

  // ---------------------------------------------------------------------- task by task

  lemma TaskOkGrows(task: Task, over: set<nat>, over': set<nat>)
    requires TaskOk(task, over) && over <= over'
    ensures TaskOk(task, over')
  {
    if task.kind.Waits? {
      FormulaGrows(task.kind.expr, over, over');
    }
  }

  // A step that changes one task, and only ever adds to the tasks that are over.
  ghost predicate OneTask(s: State, s': State, t: nat) {
    && t <= |s.tasks| && |s'.tasks| == (if t < |s.tasks| then |s.tasks| else t + 1)
    && (forall u :: 0 <= u < |s.tasks| && u != t ==> s'.tasks[u] == s.tasks[u])
    && (t < |s.tasks| && s.tasks[t].es.Over? ==> s'.tasks[t].es.Over?)
  }

  lemma OverGrows(s: State, s': State, t: nat)
    requires OneTask(s, s', t)
    ensures OverTasks(s) <= OverTasks(s')
  {
  }

  lemma TasksOkAfter(s: State, s': State, t: nat)
    requires TasksOk(s) && OneTask(s, s', t)
    requires TaskOk(s'.tasks[t], OverTasks(s'))
    ensures TasksOk(s')
  {
    hide TaskOk;
    OverGrows(s, s', t);
    forall u | 0 <= u < |s'.tasks| ensures TaskOk(s'.tasks[u], OverTasks(s')) {
      if u != t {
        TaskOkGrows(s.tasks[u], OverTasks(s), OverTasks(s'));
      }
    }
  }

  // ------------------------------------------------------------------ every step

  // The same kind of task, up to the caches of its expression.
  predicate SameKind(a: Kind, b: Kind) {
    if a.Plain? then b.Plain? else b.Waits? && SameShape(a.expr, b.expr)
  }

  lemma SameKindReflexive(a: Kind)
    ensures SameKind(a, a)
  {
    if a.Waits? {
      Reflexive(a.expr);
    }
  }

  // How a step may change a task that is already there: never a finished one.
  ghost predicate MovesOn(a: Task, b: Task) {
    && SameKind(a.kind, b.kind) && a.runs <= b.runs && !a.box.Finished? && (a.es.Over? ==> b.es.Over?)
  }

  // A step of one worker keeps the invariant and touches one task.
  ghost predicate Keeps(s: State, s': State, t: nat) {
    && Inv(s') && OneTask(s, s', t) && s'.workers == s.workers
    && (t < |s.tasks| ==> MovesOn(s.tasks[t], s'.tasks[t]))
  }

  lemma TakeKeeps(s: State, w: nat, from: Box, first: bool) returns (t: nat)
    requires Inv(s) && CanTake(s, w, from, first) && (from.Deque? || from.WaitQueue?)
    ensures Keeps(s, Take(s, w, from, first), t)
  {
    var s' := Take(s, w, from, first);
    t := Picked(s.boxes[from], first);
    MovePlaced(s, from, first, Hands(w), Ready);
    assert t == s.boxes[from][if first then 0 else |s.boxes[from]| - 1];
    assert s.tasks[t].box == from && TaskOk(s.tasks[t], OverTasks(s));
    assert s'.tasks[t] == s.tasks[t].(phase := Ready, box := Hands(w));
    SameKindReflexive(s.tasks[t].kind);
    hide Placed, Distinct, Formula, Honest, NoEmpty, SameShape;
    OverGrows(s, s', t);
    assert TaskOk(s'.tasks[t], OverTasks(s));
    TaskOkGrows(s'.tasks[t], OverTasks(s), OverTasks(s'));
    TasksOkAfter(s, s', t);
  }

  lemma ScheduleKeeps(s: State, w: nat, kind: Kind, room: bool)
    requires Inv(s) && w < s.workers && (kind.Waits? ==> NoEmpty(kind.expr) && Honest(kind.expr, {}))
    ensures Keeps(s, ScheduleStep(s, w, kind, room), |s.tasks|)
  {
    var s' := ScheduleStep(s, w, kind, room);
    SchedulePlaced(s, w, kind, room);
    hide Placed, Distinct, Formula, Honest, NoEmpty;
    if kind.Waits? {
      FormulaGrows(kind.expr, {}, OverTasks(s'));
    }
    TasksOkAfter(s, s', |s.tasks|);
  }

  // The task on top of a worker's hands.
  lemma TopIs(s: State, w: nat)
    requires Inv(s) && w < s.workers && HasTop(s, w)
    ensures TaskOk(s.tasks[Top(s, w)], OverTasks(s)) && s.tasks[Top(s, w)].box == Hands(w)
  {
  }

  lemma RunKeeps(s: State, w: nat)
    requires Inv(s) && w < s.workers && HasTop(s, w) && s.tasks[Top(s, w)].phase.Ready?
    ensures Keeps(s, RunStep(s, Top(s, w)), Top(s, w))
  {
    TopIs(s, w);
    var t := Top(s, w);
    var s' := RunStep(s, t);
    UpdatePlaced(s, t, s'.tasks[t]);
    SameKindReflexive(s.tasks[t].kind);
    hide Placed, Distinct, Formula, Honest, NoEmpty, SameShape;
    OverGrows(s, s', t);
    if s.tasks[t].kind.Waits? {
      FormulaGrows(s.tasks[t].kind.expr, OverTasks(s), OverTasks(s'));
    }
    TasksOkAfter(s, s', t);
  }

  lemma TestKeeps(s: State, w: nat, seen: Reads)
    requires Inv(s) && w < s.workers && HasTop(s, w) && s.tasks[Top(s, w)].phase.Testing?
    requires Between(seen, s.tasks[Top(s, w)].phase.before, OverTasks(s))
    ensures s.tasks[Top(s, w)].kind.Waits? && Keeps(s, TestStep(s, Top(s, w), seen), Top(s, w))
    ensures
      var task, task' := s.tasks[Top(s, w)], TestStep(s, Top(s, w), seen).tasks[Top(s, w)];
      && (Formula(task.kind.expr, task.phase.before) ==> task'.phase.Body?)
      && (task'.phase.Body? ==> Formula(task.kind.expr, OverTasks(s)) && task'.runs == 1 && !task'.again)
      && (!task'.phase.Body? ==> task'.phase.Returned? && task'.again && task'.runs == 0)
  {
    TopIs(s, w);
    var t := Top(s, w);
    var s' := TestStep(s, t, seen);
    UpdatePlaced(s, t, s'.tasks[t]);
    var e, over := s.tasks[t].kind.expr, OverTasks(s);
    GetStateMeans(e, seen, 0, s.tasks[t].phase.before, over);
    ShapeDecides(e, GetState(e, seen, 0).expr, over);
    hide Placed, Distinct, Formula, Honest, NoEmpty, GetState, Between, SameShape;
    assert OverTasks(s') == over;
    TasksOkAfter(s, s', t);
  }

  lemma EndKeeps(s: State, w: nat)
    requires Inv(s) && w < s.workers && HasTop(s, w) && s.tasks[Top(s, w)].phase.Body?
    ensures Keeps(s, EndStep(s, Top(s, w)), Top(s, w))
  {
    TopIs(s, w);
    var t := Top(s, w);
    var s' := EndStep(s, t);
    UpdatePlaced(s, t, s'.tasks[t]);
    SameKindReflexive(s.tasks[t].kind);
    hide Placed, Distinct, Formula, Honest, NoEmpty, SameShape;
    OverGrows(s, s', t);
    TaskOkGrows(s.tasks[t], OverTasks(s), OverTasks(s'));
    TasksOkAfter(s, s', t);
  }

  lemma SettleMoves(s: State, w: nat, to: Box, phase: Phase)
    requires Inv(s) && w < s.workers && HasTop(s, w) && to in s.boxes && to != Hands(w)
    requires TaskOk(s.tasks[Top(s, w)].(phase := phase, box := to), OverTasks(s))
    requires !s.tasks[Top(s, w)].box.Finished?
    ensures Keeps(s, Move(s, Hands(w), false, to, phase), Top(s, w))
  {
    var t := Top(s, w);
    MovePlaced(s, Hands(w), false, to, phase);
    var s' := Move(s, Hands(w), false, to, phase);
    assert s'.tasks[t] == s.tasks[t].(phase := phase, box := to);
    SameKindReflexive(s.tasks[t].kind);
    hide Placed, Move, SameKind, TaskOk;
    OverGrows(s, s', t);
    TaskOkGrows(s'.tasks[t], OverTasks(s), OverTasks(s'));
    TasksOkAfter(s, s', t);
  }

  lemma SettleAgain(s: State, w: nat)
    requires Inv(s) && w < s.workers && HasTop(s, w) && !s.tasks[Top(s, w)].box.Finished?
    requires TaskOk(s.tasks[Top(s, w)].(phase := Ready), OverTasks(s))
    ensures Keeps(s, s.(tasks := s.tasks[Top(s, w) := s.tasks[Top(s, w)].(phase := Ready)]), Top(s, w))
  {
    var t := Top(s, w);
    var s' := s.(tasks := s.tasks[t := s.tasks[t].(phase := Ready)]);
    UpdatePlaced(s, t, s'.tasks[t]);
    SameKindReflexive(s.tasks[t].kind);
    hide Placed, SameKind, TaskOk;
    OverGrows(s, s', t);
    TaskOkGrows(s'.tasks[t], OverTasks(s), OverTasks(s'));
    TasksOkAfter(s, s', t);
  }

  lemma SettleKeeps(s: State, w: nat, room: bool)
    requires Inv(s) && w < s.workers && HasTop(s, w) && s.tasks[Top(s, w)].phase.Returned?
    ensures Keeps(s, SettleStep(s, w, Top(s, w), room), Top(s, w))
  {
    hide Placed, Distinct, Formula, Honest, NoEmpty, SameShape, Keeps, TasksOk, Move;
    TopIs(s, w);
    var t := Top(s, w);
    if !s.tasks[t].again {
      SettleMoves(s, w, Finished, Returned);
    } else if room && |s.boxes[WaitQueue(w)]| < CAPACITY {
      SettleMoves(s, w, WaitQueue(w), Ready);
    } else {
      SettleAgain(s, w);
    }
  }

  // Every legal step either does nothing or touches one task and keeps the
  // invariant.
  lemma NextTouches(s: State, a: Action)
    requires Inv(s) && Legal(s, a)
    ensures Next(s, a) == s || exists t :: Keeps(s, Next(s, a), t)
  {
    hide Keeps, Placed, TasksOk, Move, ScheduleStep, RunStep, TestStep, EndStep, SettleStep;
    if a.w < s.workers {
      var w := a.w;
      match a
      case Schedule(_, kind, room) => if Free(s, w) { ScheduleKeeps(s, w, kind, room); }
      case TakeOwn(_) => TakeTouches(s, w, Deque(w), false);
      case TakeWaiting(_, v) => TakeTouches(s, w, WaitQueue(v), true);
      case Steal(_, v) => if v != w { TakeTouches(s, w, Deque(v), true); }
      case RunTask(_) => if HasTop(s, w) && s.tasks[Top(s, w)].phase.Ready? { RunKeeps(s, w); }
      case Test(_, seen) => if HasTop(s, w) && s.tasks[Top(s, w)].phase.Testing? { TestKeeps(s, w, seen); }
      case EndBody(_) => if HasTop(s, w) && s.tasks[Top(s, w)].phase.Body? { EndKeeps(s, w); }
      case Settle(_, room) => if HasTop(s, w) && s.tasks[Top(s, w)].phase.Returned? { SettleKeeps(s, w, room); }
    }
  }

  lemma TakeTouches(s: State, w: nat, from: Box, first: bool)
    requires Inv(s) && (from.Deque? || from.WaitQueue?)
    ensures Take(s, w, from, first) == s || exists t :: Keeps(s, Take(s, w, from, first), t)
  {
    hide Keeps, Placed, TasksOk, Move;
    if CanTake(s, w, from, first) {
      var t := TakeKeeps(s, w, from, first);
    }
  }

  // What a legal step keeps: over tasks stay over, a body once run is never run
  // again, and a finished task is never touched.
  lemma NextKeeps(s: State, a: Action)
    requires Inv(s) && Legal(s, a)
    ensures
      var s' := Next(s, a);
      && Inv(s') && OverTasks(s) <= OverTasks(s') && |s.tasks| <= |s'.tasks|
      && forall u :: 0 <= u < |s.tasks| ==> Onward(s.tasks[u], s'.tasks[u])
  {
    NextTouches(s, a);
    var s' := Next(s, a);
    hide Next, Placed, TasksOk;
    if s' == s {
      forall u | 0 <= u < |s.tasks| ensures Onward(s.tasks[u], s'.tasks[u]) {
        SameKindReflexive(s.tasks[u].kind);
      }
    } else {
      var t :| Keeps(s, s', t);
      OverGrows(s, s', t);
      forall u | 0 <= u < |s.tasks| ensures Onward(s.tasks[u], s'.tasks[u]) {
        SameKindReflexive(s.tasks[u].kind);
      }
    }
  }

  // How a task may develop over any number of steps.
  ghost predicate Onward(a: Task, b: Task) {
    && SameKind(a.kind, b.kind) && a.runs <= b.runs && (a.es.Over? ==> b.es.Over?)
    && (a.box.Finished? ==> b == a)
  }

  // ------------------------------------------------------------------ whole runs

  function Exec(s: State, actions: seq<Action>): (r: State)
    requires Shaped(s)
    ensures Shaped(r)
    decreases |actions|
  {
    if actions == [] then s else Exec(Next(s, actions[0]), actions[1..])
  }

  ghost predicate LegalRun(s: State, actions: seq<Action>)
    requires Shaped(s)
    decreases |actions|
  {
    actions == [] || (Legal(s, actions[0]) && LegalRun(Next(s, actions[0]), actions[1..]))
  }

  lemma {:induction false} SameShapeTransitive(a: Expr, b: Expr, c: Expr)
    requires SameShape(a, b) && SameShape(b, c)
    ensures SameShape(a, c)
  {
    match a
    case And(l, r, _) => SameShapeTransitive(l, b.l, c.l); SameShapeTransitive(r, b.r, c.r);
    case Or(l, r, _) => SameShapeTransitive(l, b.l, c.l); SameShapeTransitive(r, b.r, c.r);
    case _ =>
  }

  lemma OnwardTransitive(a: Task, b: Task, c: Task)
    requires Onward(a, b) && Onward(b, c)
    ensures Onward(a, c)
  {
    if a.kind.Waits? {
      SameShapeTransitive(a.kind.expr, b.kind.expr, c.kind.expr);
    }
  }

  lemma {:induction false} ExecKeeps(s: State, actions: seq<Action>)
    requires Inv(s) && LegalRun(s, actions)
    ensures
      var s' := Exec(s, actions);
      && Inv(s') && OverTasks(s) <= OverTasks(s') && |s.tasks| <= |s'.tasks|
      && forall u :: 0 <= u < |s.tasks| ==> Onward(s.tasks[u], s'.tasks[u])
    decreases |actions|
  {
    hide Placed, TasksOk, Next, Legal, OverTasks;
    if actions == [] {
      forall u | 0 <= u < |s.tasks| ensures Onward(s.tasks[u], s.tasks[u]) {
        SameKindReflexive(s.tasks[u].kind);
      }
    } else {
      NextKeeps(s, actions[0]);
      var s1 := Next(s, actions[0]);
      ExecKeeps(s1, actions[1..]);
      var s' := Exec(s1, actions[1..]);
      hide Onward;
      forall u | 0 <= u < |s.tasks| ensures Onward(s.tasks[u], s'.tasks[u]) {
        OnwardTransitive(s.tasks[u], s1.tasks[u], s'.tasks[u]);
      }
    }
  }

  // The runtime before anything is scheduled.
  ghost predicate Start(s: State) {
    Shaped(s) && s.tasks == [] && forall b :: b in s.boxes ==> s.boxes[b] == []
  }

  ghost predicate Listed(s: State, t: nat) {
    exists b :: b in s.boxes && t in s.boxes[b]
  }

  // Each scheduled task is listed in some place, ...
  lemma ListedSomewhere(s: State, t: nat)
    requires Inv(s) && t < |s.tasks|
    ensures Listed(s, t)
  {
    assert s.tasks[t].box in s.boxes;
  }

  // ... in no other one, and there only once.
  lemma ListedNowhereElse(s: State, b: Box, i: nat, c: Box, j: nat)
    requires Inv(s) && b in s.boxes && i < |s.boxes[b]| && c in s.boxes && j < |s.boxes[c]|
    requires s.boxes[b][i] == s.boxes[c][j]
    ensures b == c && i == j
  {
    assert s.tasks[s.boxes[b][i]].box == b && s.tasks[s.boxes[c][j]].box == c;
    assert Distinct(s.boxes[b]);
  }

  // In every state of every run: each scheduled task is listed in exactly one place
  // and once there; its body has started at most once, and has run to its end if the
  // task is finished; a continuation that has started had its formula satisfied.
  lemma ExactlyOnePlace(s0: State, actions: seq<Action>)
    requires Start(s0) && LegalRun(s0, actions)
    ensures
      var s := Exec(s0, actions);
      && (forall t :: 0 <= t < |s.tasks| ==> Listed(s, t) && s.tasks[t].runs <= 1)
      && (forall b, i, c, j | b in s.boxes && 0 <= i < |s.boxes[b]| && c in s.boxes && 0 <= j < |s.boxes[c]| ::
            s.boxes[b][i] == s.boxes[c][j] ==> b == c && i == j)
      && (forall t :: 0 <= t < |s.tasks| && t in s.boxes[Finished] ==> s.tasks[t].runs == 1 && s.tasks[t].es.Over?)
      && (forall t :: 0 <= t < |s.tasks| && s.tasks[t].kind.Waits? && s.tasks[t].runs > 0 ==>
            Formula(s.tasks[t].kind.expr, OverTasks(s)))
  {
    assert Inv(s0);
    ExecKeeps(s0, actions);
    var s := Exec(s0, actions);
    hide Placed, TasksOk, Exec, LegalRun, Start, Listed, OverTasks;
    forall t | 0 <= t < |s.tasks|
      ensures Listed(s, t) && s.tasks[t].runs <= 1
      ensures s.tasks[t].kind.Waits? && s.tasks[t].runs > 0 ==> Formula(s.tasks[t].kind.expr, OverTasks(s))
      ensures t in s.boxes[Finished] ==> s.tasks[t].runs == 1 && s.tasks[t].es.Over?
    {
      ListedSomewhere(s, t);
      HowFar(s, t);
    }
    forall b, i, c, j | b in s.boxes && 0 <= i < |s.boxes[b]| && c in s.boxes && 0 <= j < |s.boxes[c]| && s.boxes[b][i] == s.boxes[c][j]
      ensures b == c && i == j
    {
      ListedNowhereElse(s, b, i, c, j);
    }
  }

  lemma HowFar(s: State, t: nat)
    requires Inv(s) && t < |s.tasks|
    ensures s.tasks[t].runs <= 1
    ensures s.tasks[t].kind.Waits? && s.tasks[t].runs > 0 ==> Formula(s.tasks[t].kind.expr, OverTasks(s))
    ensures t in s.boxes[Finished] ==> s.tasks[t].runs == 1 && s.tasks[t].es.Over?
  {
    hide Formula, Honest, NoEmpty, OverTasks;
    assert TaskOk(s.tasks[t], OverTasks(s));
    if t in s.boxes[Finished] {
      var i :| 0 <= i < |s.boxes[Finished]| && s.boxes[Finished][i] == t;
      assert s.tasks[s.boxes[Finished][i]].box == Finished;
    }
  }

  // Nothing is dropped: once the queues and the hands are empty, every task ever
  // scheduled has run exactly once.
  lemma NothingDropped(s0: State, actions: seq<Action>)
    requires Start(s0) && LegalRun(s0, actions)
    requires forall b :: b in Exec(s0, actions).boxes && b != Finished ==> Exec(s0, actions).boxes[b] == []
    ensures
      var s := Exec(s0, actions);
      forall t :: 0 <= t < |s.tasks| ==> s.tasks[t].runs == 1 && s.tasks[t].es.Over?
  {
    assert Inv(s0);
    ExecKeeps(s0, actions);
    var s := Exec(s0, actions);
    assert Placed(s) && TasksOk(s);
    forall t | 0 <= t < |s.tasks| ensures s.tasks[t].runs == 1 && s.tasks[t].es.Over? {
      assert t in s.boxes[s.tasks[t].box];
      assert TaskOk(s.tasks[t], OverTasks(s));
    }
  }
}
