// Whole calls on the deque: when push_back, pop and steal succeed, what a call does that
// runs alone, and that every call comes to its end whatever the other threads do.
module DequeCalls {
  import opened Ring
  import opened WorkStealing

  // steal gives up exactly if it finds no task below head, or if another CAS has moved
  // tail since it read it; otherwise it goes on, and a won CAS ends it with a task.
  lemma StealGivesUpIff<T>(s: State<T>, i: nat)
    requires Inv(s) && i < |s.thieves|
    ensures
      var r, th := ThiefStep(s, i), s.thieves[i];
      && (th.StealHead? && s.head - th.t < 0x8000_0000 ==> (r.state.thieves[i].Resting? <==> s.head <= th.t))
      && (th.StealRead? ==> r.state.thieves[i].StealCas?)
      && (th.StealCas? ==> r.state.thieves[i].Resting? && (r.event.Stolen? <==> s.tail == th.t))
  {
    assert ThiefOk(s.thieves[i], s.tail, StealLimit(s.owner, s.head, s.tail), s.ring, s.bits);
    hide Conserved, Window;
  }

  function With<T>(s: State<T>, i: nat, th: Thief<T>): (r: State<T>)
    requires i < |s.thieves|
  {
    s.(thieves := s.thieves[i := th])
  }

  lemma WithTwice<T>(s: State<T>, i: nat, a: Thief<T>, b: Thief<T>)
    requires i < |s.thieves|
    ensures With(With(s, i, a), i, b) == With(s, i, b)
    ensures s.thieves[i] == b ==> With(s, i, b) == s
  {
  }

  lemma ExecOne<T>(s: State<T>, a: Action<T>, others: seq<Action<T>>)
    requires Inv(s)
    ensures Inv(Next(s, a).state) && Exec(s, [a] + others) == Exec(Next(s, a).state, others)
    ensures Exec(s, []) == s
  {
    StepSafe(s, a);
    hide Inv, Next;
    assert ([a] + others)[1..] == others;
  }

  // The four accesses of a thief while nobody else moves.
  lemma ThiefLoads<T>(s: State<T>, i: nat, t: State<T>)
    requires Inv(s) && i < |s.thieves| && s.thieves[i].Resting? && t == With(s, i, StealHead(s.tail))
    ensures Next(s, Action<T>.ThiefAccess(i)).state == t
  {
    hide Inv;
  }

  lemma ThiefTests<T>(s: State<T>, i: nat, t: State<T>)
    requires Inv(s) && i < |s.thieves| && s.thieves[i] == StealHead(s.tail) && s.head - s.tail < 0x8000_0000
    requires t == With(s, i, if s.head <= s.tail then Resting else StealRead(s.tail))
    ensures Next(s, Action<T>.ThiefAccess(i)).state == t
  {
    hide Conserved, Window, ThievesOk;
  }

  lemma ThiefReads<T>(s: State<T>, i: nat) returns (val: T)
    requires Inv(s) && i < |s.thieves| && s.thieves[i] == StealRead(s.tail)
    ensures Next(s, Action<T>.ThiefAccess(i)).state == With(s, i, StealCas(s.tail, val))
  {
    ThiefIndex(s, i);
    TailIndex(s);
    val := Cell(s.ring, s.bits, s.tail);
    hide Inv, Cell;
  }

  lemma TailIndex<T>(s: State<T>)
    requires Inv(s)
    ensures 0 <= s.tail && WellSized(s)
  {
  }

  lemma ThiefSwaps<T>(s: State<T>, i: nat)
    requires Inv(s) && i < |s.thieves| && s.thieves[i].StealCas? && s.thieves[i].t == s.tail
    ensures Next(s, Action<T>.ThiefAccess(i)).state ==
      With(s, i, Resting).(tail := s.tail + 1, returned := s.returned + [s.thieves[i].val])
  {
    hide Inv;
  }

  lemma ThiefWins<T>(s: State<T>, i: nat)
    requires Inv(s) && i < |s.thieves| && s.thieves[i].StealCas? && s.thieves[i].t == s.tail
    ensures
      var t := With(s, i, Resting).(tail := s.tail + 1, returned := s.returned + [Deque(s)[0]]);
      Inv(t) && Deque(s) != [] && Deque(t) == Deque(s)[1..] && Next(s, Action<T>.ThiefAccess(i)).state == t
  {
    StolenSafe(s, i);
    ThiefSwaps(s, i);
    InvDeque(s);
    InvDeque(Next(s, Action<T>.ThiefAccess(i)).state);
    hide Inv, Deque, Next, Top, WellSized;
  }

  lemma SameDeque<T>(s: State<T>, i: nat, th: Thief<T>)
    requires Inv(s) && i < |s.thieves|
    ensures WellSized(s) && WellSized(With(s, i, th)) && 0 <= s.tail <= Top(s.owner, s.head, s.tail)
    ensures Deque(With(s, i, th)) == Deque(s)
  {
  }

  // Wherever the owner and the other thieves stand: a thief that runs alone takes the
  // oldest task if head is above tail, and otherwise gives up, changing nothing.
  lemma StealAlone<T>(s: State<T>, i: nat)
    requires Inv(s) && i < |s.thieves| && s.thieves[i].Resting? && s.head - s.tail < 0x8000_0000
    ensures
      var a := Action<T>.ThiefAccess(i);
      && (s.head <= s.tail ==> Exec(s, [a, a]) == s)
      && (s.tail < s.head ==>
           && Deque(s) != []
           && Exec(s, [a, a, a, a]) == s.(tail := s.tail + 1, returned := s.returned + [Deque(s)[0]])
           && Deque(Exec(s, [a, a, a, a])) == Deque(s)[1..])
  {
    var a: Action<T> := Action<T>.ThiefAccess(i);
    hide Inv, Next, Exec, Deque;
    assert [a, a] == [a] + [a] && [a, a, a] == [a] + [a, a] && [a, a, a, a] == [a] + [a, a, a] && [a] == [a] + [];
    var s1 := With(s, i, StealHead(s.tail));
    ThiefLoads(s, i, s1);
    ExecOne(s, a, [a]);
    ExecOne(s, a, [a, a, a]);
    var s2 := With(s, i, if s.head <= s.tail then Resting else StealRead(s.tail));
    WithTwice(s, i, StealHead(s.tail), s2.thieves[i]);
    ThiefTests(s1, i, s2);
    ExecOne(s1, a, []);
    ExecOne(s1, a, [a, a]);
    if s.head <= s.tail {
      ExecOne(s2, a, []);
    } else {
      ExecOne(s2, a, [a]);
      var val := ThiefReads(s2, i);
      WithTwice(s, i, StealRead(s.tail), StealCas(s.tail, val));
      var s3 := With(s, i, StealCas(s.tail, val));
      ExecOne(s3, a, []);
      ThiefWins(s3, i);
      SameDeque(s, i, s3.thieves[i]);
      WithTwice(s, i, s3.thieves[i], Resting);
      ExecOne(Next(s3, a).state, a, []);
    }
  }

  // ----------------------------------------------------------- the owner's calls

  // One access of the owner: where it then stands, and what happened to the deque.
  lemma OwnerOne<T>(s: State<T>, a: Action<T>, others: seq<Action<T>>)
    requires Inv(s)
    ensures
      var r := Next(s, a);
      && Inv(r.state) && Exec(s, [a] + others) == Exec(r.state, others) && Exec(s, []) == s
      && WellSized(s) && 0 <= s.tail <= Top(s.owner, s.head, s.tail)
      && WellSized(r.state) && 0 <= r.state.tail <= Top(r.state.owner, r.state.head, r.state.tail)
      && Deque(r.state) == Apply(Deque(s), r.event)
  {
    hide Inv, Next, Deque, Top, WellSized, Apply;
    ExecOne(s, a, others);
    StepApplies(s, a);
    InvDeque(s);
    InvDeque(Next(s, a).state);
  }

  lemma IdleDeque<T>(s: State<T>)
    requires Inv(s) && s.owner.Idle?
    ensures WellSized(s) && 0 <= s.tail <= s.head && |Deque(s)| == s.head - s.tail <= Mask(s.bits)
  {
  }

  // The accesses of push_back: the outcome of each.
  lemma PushOutcomes<T>(s: State<T>, val: T)
    requires Inv(s)
    ensures s.owner.Idle? ==> Next(s, StartPush(val)) == Outcome(s.(owner := PushTail(s.head, val)), Silent)
    ensures s.owner == PushTail(s.head, val) ==>
      Next(s, OwnerAccess) ==
        if s.head - s.tail == Mask(s.bits) then Outcome(s.(owner := Idle), Rejected)
        else Outcome(s.(owner := PushWrite(s.head, val)), Silent)
    ensures s.owner == PushWrite(s.head, val) ==>
      var r := Next(s, OwnerAccess);
      r.event == Silent && r.state == s.(ring := r.state.ring, owner := PushHead(s.head, val))
    ensures s.owner == PushHead(s.head, val) ==>
      Next(s, OwnerAccess) ==
        Outcome(s.(head := s.head + 1, owner := Idle, pushed := s.pushed + [val]), Pushed(val))
  {
    hide Conserved, ThievesOk, Window;
  }

  // Wherever the thieves stand: push_back run alone adds the task at the back if fewer than
  // MASK tasks are held, and otherwise changes nothing.
  lemma PushAlone<T>(s: State<T>, val: T)
    requires Inv(s) && s.owner.Idle?
    ensures WellSized(s) && 0 <= s.tail <= s.head && |Deque(s)| <= Mask(s.bits)
    ensures |Deque(s)| == Mask(s.bits) ==> Exec(s, [StartPush(val), OwnerAccess]) == s
    ensures |Deque(s)| < Mask(s.bits) ==>
      var t := Exec(s, [StartPush(val), OwnerAccess, OwnerAccess, OwnerAccess]);
      && WellSized(t) && t.owner.Idle? && 0 <= t.tail <= t.head && Deque(t) == Deque(s) + [val]
      && t == s.(ring := t.ring, head := s.head + 1, pushed := s.pushed + [val])
  {
    IdleDeque(s);
    hide Inv, Next, Exec, Deque;
    if |Deque(s)| == Mask(s.bits) {
      PushFull(s, val);
    } else {
      PushFits(s, val);
    }
  }

  lemma Applied<T>(d: seq<T>, v: T)
    ensures Apply(d, Silent) == d && Apply(d, Pushed(v)) == d + [v]
  {
  }

  lemma PushFull<T>(s: State<T>, val: T)
    requires Inv(s) && s.owner.Idle? && s.head - s.tail == Mask(s.bits)
    ensures Exec(s, [StartPush(val), OwnerAccess]) == s
  {
    var o, p := Action<T>.OwnerAccess, StartPush(val);
    hide Inv, Next, Exec, Deque;
    assert [p, o] == [p, o] + [];
    OwnerTwo(s, p, []);
    PushOutcomes(s, val);
    PushOutcomes(Next(s, p).state, val);
    ExecOne(s, p, []);
  }

  lemma PushFits<T>(s: State<T>, val: T)
    requires Inv(s) && s.owner.Idle? && s.head - s.tail < Mask(s.bits)
    ensures
      var t := Exec(s, [StartPush(val), OwnerAccess, OwnerAccess, OwnerAccess]);
      && WellSized(s) && WellSized(t) && t.owner.Idle? && 0 <= s.tail <= s.head && 0 <= t.tail <= t.head
      && Deque(t) == Deque(s) + [val] && t == s.(ring := t.ring, head := s.head + 1, pushed := s.pushed + [val])
  {
    var o, p := Action<T>.OwnerAccess, StartPush(val);
    hide Inv, Next, Exec, Deque, Apply;
    assert [p, o, o, o] == [p] + ([o] + ([o] + ([o] + [])));
    PushOutcomes(s, val);
    OwnerOne(s, p, [o] + ([o] + ([o] + [])));
    var s1 := Next(s, p).state;
    PushOutcomes(s1, val);
    OwnerOne(s1, o, [o] + ([o] + []));
    var s2 := Next(s1, o).state;
    PushOutcomes(s2, val);
    OwnerOne(s2, o, [o] + []);
    var s3 := Next(s2, o).state;
    PushOutcomes(s3, val);
    OwnerOne(s3, o, []);
    OwnerOne(Next(s3, o).state, o, []);
    Applied(Deque(s), val);
  }

  // The accesses of pop while no thief moves.
  lemma PopOutcomes<T>(s: State<T>)
    requires Inv(s)
    ensures s.owner.Idle? ==> Next(s, StartPop) == Outcome(s.(owner := PopTail(s.head)), Silent)
    ensures s.owner == PopTail(s.head) ==>
      Next(s, OwnerAccess) ==
        if s.head <= s.tail then Outcome(s.(owner := PopReset), FoundEmpty) else Outcome(s.(owner := PopDec(s.head)), Silent)
    ensures s.owner.PopReset? ==> Next(s, OwnerAccess) == Outcome(s.(owner := PopResetStore(s.tail)), Silent)
    ensures s.owner == PopResetStore(s.tail) ==> Next(s, OwnerAccess) == Outcome(s.(head := s.tail, owner := Idle), Silent)
    ensures s.owner == PopDec(s.head) ==>
      Next(s, OwnerAccess) == Outcome(s.(head := s.head - 1, owner := PopFence(s.head - 1)), Silent)
    ensures s.owner == PopFence(s.head) && s.tail <= s.head ==>
      Next(s, OwnerAccess) == Outcome(s.(owner := PopRead(s.head, s.tail)), Silent)
  {
    hide Conserved, ThievesOk, Window;
  }

  lemma PopEnds<T>(s: State<T>)
    requires Inv(s)
    ensures s.owner == PopRead(s.head, s.tail) ==>
      var r := Next(s, OwnerAccess);
      if s.tail < s.head then
        r.event.PoppedBack? && r.state == s.(owner := Idle, returned := s.returned + [r.event.val])
      else
        r.event == Silent && r.state.owner.PopCas? && r.state.owner.h == s.head && r.state == s.(owner := r.state.owner)
    ensures s.owner.PopCas? && s.owner.h == s.head == s.tail ==>
      Next(s, OwnerAccess) ==
        Outcome(s.(tail := s.tail + 1, owner := PopReload(Got(s.owner.val))), PoppedBack(s.owner.val))
    ensures s.owner.PopReload? ==> Next(s, OwnerAccess) == Outcome(s.(owner := PopStore(s.owner.res, s.tail)), Silent)
    ensures s.owner.PopStore? && s.owner.res.Got? ==>
      Next(s, OwnerAccess) ==
        Outcome(s.(head := s.owner.t, owner := Idle, returned := s.returned + [s.owner.res.value]), Silent)
  {
    hide Conserved, ThievesOk, Window;
  }

  // Two accesses of the owner, one after the other.
  lemma OwnerTwo<T>(s: State<T>, a: Action<T>, others: seq<Action<T>>)
    requires Inv(s)
    ensures
      var r := Next(s, a).state;
      && Inv(r) && Inv(Next(r, OwnerAccess).state)
      && Exec(s, [a, OwnerAccess] + others) == Exec(Next(r, OwnerAccess).state, others)
  {
    hide Inv, Next, Exec;
    var o := Action<T>.OwnerAccess;
    assert [a, o] + others == [a] + ([o] + others);
    ExecOne(s, a, [o] + others);
    ExecOne(Next(s, a).state, o, others);
  }

  // pop up to its read of tail, while no thief moves.
  lemma PopStarts<T>(s: State<T>, others: seq<Action<T>>) returns (t: State<T>)
    requires Inv(s) && s.owner.Idle? && s.tail < s.head
    ensures t == s.(head := s.head - 1, owner := PopRead(s.head - 1, s.tail)) && Inv(t)
    ensures Exec(s, [StartPop, OwnerAccess, OwnerAccess, OwnerAccess] + others) == Exec(t, others)
    ensures WellSized(s) && WellSized(t) && 0 <= s.tail && Deque(t) == Deque(s)
  {
    hide Inv, Next, Exec, Deque;
    var o, p := Action<T>.OwnerAccess, Action<T>.StartPop;
    assert [p, o, o, o] + others == [p] + ([o] + ([o] + ([o] + others)));
    PopOutcomes(s);
    OwnerOne(s, p, [o] + ([o] + ([o] + others)));
    var s1 := Next(s, p).state;
    PopOutcomes(s1);
    OwnerOne(s1, o, [o] + ([o] + others));
    var s2 := Next(s1, o).state;
    PopOutcomes(s2);
    OwnerOne(s2, o, [o] + others);
    var s3 := Next(s2, o).state;
    PopOutcomes(s3);
    OwnerOne(s3, o, others);
    t := Next(s3, o).state;
    OwnerOne(t, o, others);
  }

  // Wherever the thieves stand: pop run alone returns the youngest task if any is held,
  // and otherwise changes nothing.
  lemma PopAlone<T>(s: State<T>)
    requires Inv(s) && s.owner.Idle?
    ensures WellSized(s) && 0 <= s.tail <= s.head
    ensures
      var (o, n) := (Action<T>.OwnerAccess, |Deque(s)|);
      && (n == 0 ==> Exec(s, [StartPop, o, o, o]) == s)
      && (n > 0 ==>
           var t := Exec(s, [StartPop, o, o, o] + if n > 1 then [o] else [o, o, o, o]);
           && WellSized(t) && t.owner.Idle? && 0 <= t.tail <= t.head && t.thieves == s.thieves
           && Deque(t) == Deque(s)[..n - 1] && t.returned == s.returned + [Deque(s)[n - 1]] && t.pushed == s.pushed)
  {
    IdleDeque(s);
    hide Inv, Next, Exec, Deque, Apply;
    if |Deque(s)| == 0 {
      PopEmpty(s);
    } else if |Deque(s)| > 1 {
      PopOneOfMany(s);
    } else {
      PopLast(s);
    }
  }

  lemma PopEmpty<T>(s: State<T>)
    requires Inv(s) && s.owner.Idle? && s.head == s.tail
    ensures Exec(s, [StartPop, OwnerAccess, OwnerAccess, OwnerAccess]) == s
  {
    hide Inv, Next, Exec, Deque, Apply;
    var o, p := Action<T>.OwnerAccess, Action<T>.StartPop;
    assert [p, o, o, o] == [p, o] + ([o, o] + []);
    OwnerTwo(s, p, [o, o] + []);
    PopOutcomes(s);
    PopOutcomes(Next(s, p).state);
    var t := Next(Next(s, p).state, o).state;
    OwnerTwo(t, o, []);
    PopOutcomes(t);
    PopOutcomes(Next(t, o).state);
    ExecOne(s, p, []);
  }

  lemma PopOneOfMany<T>(s: State<T>)
    requires Inv(s) && s.owner.Idle? && s.head - s.tail > 1
    ensures
      var o := Action<T>.OwnerAccess;
      var t := Exec(s, [StartPop, o, o, o] + [o]);
      && WellSized(s) && WellSized(t) && t.owner.Idle? && 0 <= s.tail && 0 <= t.tail <= t.head && t.thieves == s.thieves
      && Deque(s) != [] && Deque(t) == Deque(s)[..|Deque(s)| - 1]
      && t.returned == s.returned + [Deque(s)[|Deque(s)| - 1]] && t.pushed == s.pushed
  {
    IdleDeque(s);
    hide Inv, Next, Exec, Deque, Apply;
    var o := Action<T>.OwnerAccess;
    var t := PopStarts(s, [o]);
    PopEnds(t);
    assert [o] == [o] + [];
    OwnerOne(t, o, []);
    OwnerOne(Next(t, o).state, o, []);
    PoppedLast(t, o);
  }

  lemma PoppedLast<T>(s: State<T>, a: Action<T>)
    requires Inv(s)
    ensures
      var r := Next(s, a);
      && WellSized(s) && 0 <= s.tail <= Top(s.owner, s.head, s.tail)
      && WellSized(r.state) && 0 <= r.state.tail <= Top(r.state.owner, r.state.head, r.state.tail)
      && (r.event.PoppedBack? ==>
           && Deque(s) != [] && Deque(r.state) == Deque(s)[..|Deque(s)| - 1]
           && r.event.val == Deque(s)[|Deque(s)| - 1])
  {
    hide Next, Deque, OwnerOk, ThiefOk, ThievesOk, Conserved;
    StepSafe(s, a);
  }

  lemma PopLast<T>(s: State<T>)
    requires Inv(s) && s.owner.Idle? && s.head - s.tail == 1
    ensures
      var o := Action<T>.OwnerAccess;
      var t := Exec(s, [StartPop, o, o, o] + [o, o, o, o]);
      && WellSized(s) && WellSized(t) && t.owner.Idle? && 0 <= s.tail && 0 <= t.tail <= t.head && t.thieves == s.thieves
      && |Deque(s)| == 1 && Deque(t) == [] && t.returned == s.returned + [Deque(s)[0]] && t.pushed == s.pushed
  {
    IdleDeque(s);
    hide Inv, Next, Exec, Deque;
    var o := Action<T>.OwnerAccess;
    var t := PopStarts(s, [o, o, o, o]);
    assert [o, o, o, o] == [o] + ([o] + ([o] + ([o] + [])));
    PopEnds(t);
    OwnerOne(t, o, [o] + ([o] + ([o] + [])));
    var t1 := Next(t, o).state;
    PopEnds(t1);
    StepSafe(t1, o);
    OwnerOne(t1, o, [o] + ([o] + []));
    var t2 := Next(t1, o).state;
    PopEnds(t2);
    OwnerOne(t2, o, [o] + []);
    var t3 := Next(t2, o).state;
    PopEnds(t3);
    OwnerOne(t3, o, []);
    var t4 := Next(t3, o).state;
    OwnerOne(t4, o, []);
  }

  // ------------------------------------------------------ every call comes to its end

  // How many more accesses a call of the owner, or of a thief, takes at most.
  function OwnerLeft<T>(o: Owner<T>): (n: nat)
    ensures n <= 7
  {
    match o
    case Idle => 0
    case PushTail(_, _) => 3
    case PushWrite(_, _) => 2
    case PushHead(_, _) => 1
    case PopTail(_) => 7
    case PopReset => 2
    case PopResetStore(_) => 1
    case PopDec(_) => 6
    case PopFence(_) => 5
    case PopRead(_, _) => 4
    case PopCas(_, _) => 3
    case PopReload(_) => 2
    case PopStore(_, _) => 1
  }

  function ThiefLeft<T>(th: Thief<T>): (n: nat)
    ensures n <= 3
  {
    match th
    case Resting => 0
    case StealHead(_) => 3
    case StealRead(_) => 2
    case StealCas(_, _) => 1
  }

  // How often this access occurs in a run.
  ghost function Times<T>(run: seq<Action<T>>, a: Action<T>): (n: nat) {
    if run == [] then 0 else Times(run[1..], a) + if run[0] == a then 1 else 0
  }

  lemma OwnerMoves<T>(s: State<T>, a: Action<T>)
    requires Inv(s) && !s.owner.Idle?
    ensures OwnerLeft(Next(s, a).state.owner) <= OwnerLeft(s.owner) - if a.OwnerAccess? then 1 else 0
  {
    hide Inv;
  }

  lemma ThiefMoves<T>(s: State<T>, a: Action<T>, i: nat)
    requires Inv(s) && i < |s.thieves| && !s.thieves[i].Resting?
    ensures |Next(s, a).state.thieves| == |s.thieves|
    ensures ThiefLeft(Next(s, a).state.thieves[i]) <= ThiefLeft(s.thieves[i]) - if a == Action<T>.ThiefAccess(i) then 1 else 0
  {
    hide Inv;
  }

  // push_back and pop are wait-free: whatever the thieves do, the owner's call has ended
  // before its eighth access.
  lemma {:induction false} OwnerReturns<T>(s: State<T>, run: seq<Action<T>>)
    requires Inv(s) && OwnerLeft(s.owner) <= Times(run, OwnerAccess)
    ensures exists n :: 0 <= n <= |run| && Exec(s, run[..n]).owner.Idle?
    decreases |run|
  {
    hide Inv, Next;
    if s.owner.Idle? {
      assert Exec(s, run[..0]).owner.Idle?;
    } else {
      OwnerMoves(s, run[0]);
      StepSafe(s, run[0]);
      OwnerReturns(Next(s, run[0]).state, run[1..]);
      var n :| 0 <= n <= |run| - 1 && Exec(Next(s, run[0]).state, run[1..][..n]).owner.Idle?;
      assert run[..n + 1] == [run[0]] + run[1..][..n];
      ExecOne(s, run[0], run[1..][..n]);
    }
  }

  // So is steal: a thief's call has ended after three more accesses of its own.
  lemma {:induction false} ThiefReturns<T>(s: State<T>, run: seq<Action<T>>, i: nat)
    requires Inv(s) && i < |s.thieves| && ThiefLeft(s.thieves[i]) <= Times(run, Action<T>.ThiefAccess(i))
    ensures exists n :: 0 <= n <= |run| && i < |Exec(s, run[..n]).thieves| && Exec(s, run[..n]).thieves[i].Resting?
    decreases |run|
  {
    hide Inv, Next;
    if s.thieves[i].Resting? {
      assert Exec(s, run[..0]).thieves[i].Resting?;
    } else {
      ThiefMoves(s, run[0], i);
      StepSafe(s, run[0]);
      var t := Next(s, run[0]).state;
      ThiefReturns(t, run[1..], i);
      var n :| 0 <= n <= |run| - 1 && i < |Exec(t, run[1..][..n]).thieves| && Exec(t, run[1..][..n]).thieves[i].Resting?;
      assert run[..n + 1] == [run[0]] + run[1..][..n];
      ExecOne(s, run[0], run[1..][..n]);
    }
  }
}
