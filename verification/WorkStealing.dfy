// The owner/thief deque default_work_stealing_queue, one shared-memory access
// per step, under sequentially consistent memory, for any number of thieves.
module WorkStealing {
  import opened Ring

  // Where the owner stands between two of its shared accesses.
  datatype Owner<T> =
    | Idle
    | PushTail(h: int, val: T)            // about to load tail for the "full" test
    | PushWrite(h: int, val: T)           // about to write array[h & MASK]
    | PushHead(h: int, val: T)            // about to store head = h + 1
    | PopTail(h: int)                     // about to load tail for the "empty" test
    | PopReset                            // found empty: about to load tail ...
    | PopResetStore(t: int)               // ... and to store it in head
    | PopDec(h: int)                      // about to store head = h - 1
    | PopFence(h: int)                    // head is decremented: about to load tail
    | PopRead(h: int, t: int)             // about to read array[h & MASK]
    | PopCas(h: int, val: T)              // last element: about to CAS tail
    | PopReload(res: Result<T>)           // about to load tail ...
    | PopStore(res: Result<T>, t: int)    // ... and to store it in head

  datatype Result<T> = Got(value: T) | Nothing

  // Where a thief stands between two of its shared accesses.
  datatype Thief<T> =
    | Resting
    | StealHead(t: int)                   // about to load head
    | StealRead(t: int)                   // about to read array[t & MASK]
    | StealCas(t: int, val: T)            // about to CAS tail

  // pushed and returned are histories: what push_back accepted, and what pop
  // and steal handed to their callers.
  datatype State<T> = State(
    bits: nat, head: int, tail: int, ring: seq<T>,
    owner: Owner<T>, thieves: seq<Thief<T>>,
    pushed: seq<T>, returned: seq<T>)

  datatype Action<T> =
    | StartPush(val: T)
    | StartPop
    | OwnerAccess
    | ThiefAccess(i: nat)

  // What a step means for the abstract deque.
  datatype Event<T> =
    | Silent
    | Pushed(val: T)
    | Rejected
    | PoppedBack(val: T)
    | FoundEmpty
    | Stolen(val: T)

  datatype Outcome<T> = Outcome(state: State<T>, event: Event<T>)

  // static conversion of a 64-bit difference to int
  function ToInt32(x: int): (r: int) {
    (x + 0x8000_0000) % 0x1_0000_0000 - 0x8000_0000
  }

  ghost predicate WellSized<T>(s: State<T>) {
    |s.ring| == Pow2(s.bits)
  }

  function Start<T>(bits: nat, ring: seq<T>, thieves: nat): (s: State<T>) {
    State(bits, 0, 0, ring, Idle, seq(thieves, _ => Resting), [], [])
  }

  function OwnerStep<T>(s: State<T>): (r: Outcome<T>)
    requires Inv(s)
  {
    match s.owner
    case Idle => Outcome(s, Silent)
    case PushTail(h, val) =>
      if h - s.tail == Mask(s.bits) then Outcome(s.(owner := Idle), Rejected)
      else Outcome(s.(owner := PushWrite(h, val)), Silent)
    case PushWrite(h, val) =>
      Outcome(s.(ring := Put(s.ring, s.bits, h, val), owner := PushHead(h, val)), Silent)
    case PushHead(h, val) =>
      Outcome(s.(head := h + 1, owner := Idle, pushed := s.pushed + [val]), Pushed(val))
    case PopTail(h) =>
      if h <= s.tail then Outcome(s.(owner := PopReset), FoundEmpty)
      else Outcome(s.(owner := PopDec(h)), Silent)
    case PopReset => Outcome(s.(owner := PopResetStore(s.tail)), Silent)
    case PopResetStore(t) => Outcome(s.(head := t, owner := Idle), Silent)
    case PopDec(h) => Outcome(s.(head := h - 1, owner := PopFence(h - 1)), Silent)
    case PopFence(h) =>
      if h < s.tail then Outcome(s.(owner := PopReload(Nothing)), FoundEmpty)
      else Outcome(s.(owner := PopRead(h, s.tail)), Silent)
    case PopRead(h, t) =>
      var val := Cell(s.ring, s.bits, h);
      if h > t then Outcome(s.(owner := Idle, returned := s.returned + [val]), PoppedBack(val))
      else Outcome(s.(owner := PopCas(h, val)), Silent)
    case PopCas(h, val) =>
      if s.tail == h then Outcome(s.(tail := h + 1, owner := PopReload(Got(val))), PoppedBack(val))
      else Outcome(s.(owner := PopReload(Nothing)), FoundEmpty)
    case PopReload(res) => Outcome(s.(owner := PopStore(res, s.tail)), Silent)
    case PopStore(res, t) =>
      Outcome(s.(head := t, owner := Idle, returned := s.returned + InHandOf(s.owner)), Silent)
  }

  function ThiefStep<T>(s: State<T>, i: nat): (r: Outcome<T>)
    requires Inv(s) && i < |s.thieves|
  {
    assert ThiefOk(s.thieves[i], s.tail, StealLimit(s.owner, s.head, s.tail), s.ring, s.bits);
    match s.thieves[i]
    case Resting => Outcome(s.(thieves := s.thieves[i := StealHead(s.tail)]), Silent)
    case StealHead(t) =>
      if ToInt32(s.head - t) <= 0 then Outcome(s.(thieves := s.thieves[i := Resting]), Silent)
      else Outcome(s.(thieves := s.thieves[i := StealRead(t)]), Silent)
    case StealRead(t) =>
      Outcome(s.(thieves := s.thieves[i := StealCas(t, Cell(s.ring, s.bits, t))]), Silent)
    case StealCas(t, val) =>
      var s' := s.(thieves := s.thieves[i := Resting]);
      if s.tail == t then Outcome(s'.(tail := t + 1, returned := s.returned + [val]), Stolen(val))
      else Outcome(s', Silent)
  }

  // One step of the whole system; an action that is not enabled does nothing.
  function Next<T>(s: State<T>, a: Action<T>): (r: Outcome<T>)
    requires Inv(s)
  {
    match a
    case StartPush(val) =>
      if s.owner.Idle? then Outcome(s.(owner := PushTail(s.head, val)), Silent) else Outcome(s, Silent)
    case StartPop =>
      if s.owner.Idle? then Outcome(s.(owner := PopTail(s.head)), Silent) else Outcome(s, Silent)
    case OwnerAccess => OwnerStep(s)
    case ThiefAccess(i) => if i < |s.thieves| then ThiefStep(s, i) else Outcome(s, Silent)
  }

  // ---------------------------------------------------------------- abstraction

  // The index just past the youngest task that is still in the deque. While a
  // pop is undecided the decremented head is not yet the logical end.
  function Top<T>(o: Owner<T>, head: int, tail: int): (r: int) {
    match o
    case PopFence(h) => h + 1
    case PopRead(h, _) => h + 1
    case PopCas(h, _) => h + 1
    case PopReload(_) => tail
    case PopStore(_, _) => tail
    case _ => head
  }

  // The deque as a sequence: oldest task (next to be stolen) first.
  function Deque<T>(s: State<T>): (d: seq<T>)
    requires WellSized(s) && 0 <= s.tail <= Top(s.owner, s.head, s.tail)
  {
    Window(s.ring, s.bits, s.tail, Top(s.owner, s.head, s.tail))
  }

  // A task the owner has won by CAS but not yet handed to its caller.
  function InHandOf<T>(o: Owner<T>): (r: seq<T>) {
    match o
    case PopReload(Got(v)) => [v]
    case PopStore(Got(v), _) => [v]
    case _ => []
  }

  // ------------------------------------------------------------------ invariant

  // A thief whose cached tail is current is after an index below this limit: the
  // owner's plain read in `pop` can never race with a winning steal.
  function StealLimit<T>(o: Owner<T>, head: int, tail: int): (r: int) {
    match o
    case PopRead(h, t) => if t < h then h else h + 1
    case _ => Top(o, head, tail)
  }

  ghost predicate OwnerOk<T>(o: Owner<T>, head: int, tail: int, ring: seq<T>, bits: nat)
    requires |ring| == Pow2(bits)
  {
    match o
    case Idle => tail <= head
    case PushTail(h, _) => h == head && tail <= h
    case PushWrite(h, _) => h == head && tail <= h && h - tail < Mask(bits)
    case PushHead(h, v) => h == head && 0 <= tail <= h && h - tail < Mask(bits) && Cell(ring, bits, h) == v
    case PopTail(h) => h == head && tail <= h
    case PopReset => head == tail
    case PopResetStore(t) => head == tail == t
    case PopDec(h) => h == head && tail <= h && 0 < h
    case PopFence(h) => h == head && tail <= h + 1 && 0 <= h
    case PopRead(h, t) => h == head && 0 <= t <= h && t <= tail && tail <= (if t < h then h else h + 1)
    case PopCas(h, v) => h == head && 0 <= h <= tail <= h + 1 && (tail == h ==> v == Cell(ring, bits, h))
    case PopReload(_) => tail == head + 1
    case PopStore(_, t) => tail == t == head + 1
  }

  ghost predicate ThiefOk<T>(th: Thief<T>, tail: int, limit: int, ring: seq<T>, bits: nat)
    requires |ring| == Pow2(bits)
  {
    match th
    case Resting => true
    case StealHead(t) => 0 <= t <= tail
    case StealRead(t) => 0 <= t <= tail && (t == tail ==> t < limit)
    case StealCas(t, v) => 0 <= t <= tail && (t == tail ==> t < limit && v == Cell(ring, bits, t))
  }

  ghost predicate ThievesOk<T>(thieves: seq<Thief<T>>, tail: int, limit: int, ring: seq<T>, bits: nat)
    requires |ring| == Pow2(bits)
  {
    forall i :: 0 <= i < |thieves| ==> ThiefOk(thieves[i], tail, limit, ring, bits)
  }

  ghost predicate Conserved<T>(s: State<T>)
    requires WellSized(s) && 0 <= s.tail <= Top(s.owner, s.head, s.tail)
  {
    multiset(s.pushed) == multiset(s.returned) + multiset(Deque(s)) + multiset(InHandOf(s.owner))
  }

  ghost predicate Inv<T>(s: State<T>) {
    && WellSized(s)
    && 0 <= s.tail <= Top(s.owner, s.head, s.tail) <= s.tail + Mask(s.bits)
    && OwnerOk(s.owner, s.head, s.tail, s.ring, s.bits)
    && ThievesOk(s.thieves, s.tail, StealLimit(s.owner, s.head, s.tail), s.ring, s.bits)
    && Conserved(s)
  }

  // What each event does to a deque that holds at most `capacity` tasks.
  ghost predicate DequeStep<T>(d: seq<T>, e: Event<T>, d': seq<T>, capacity: nat) {
    match e
    case Silent => d' == d
    case Pushed(v) => |d| < capacity && d' == d + [v]
    case Rejected => |d| == capacity && d' == d
    case PoppedBack(v) => d == d' + [v]
    case FoundEmpty => d == [] && d' == []
    case Stolen(v) => d == [v] + d'
  }

  lemma StartInv<T>(bits: nat, ring: seq<T>, thieves: nat)
    requires |ring| == Pow2(bits)
    ensures Inv(Start(bits, ring, thieves)) && Deque(Start(bits, ring, thieves)) == []
  {
  }

  // A step that keeps the invariant and acts on the abstract deque as its event says.
  ghost predicate Safe<T>(s: State<T>, e: Event<T>, s': State<T>)
    requires Inv(s)
  {
    && Inv(s')
    && s'.bits == s.bits && |s'.thieves| == |s.thieves|
    && s.tail <= s'.tail
    && DequeStep(Deque(s), e, Deque(s'), Mask(s.bits))
  }

  lemma PushWriteSafe<T>(s: State<T>)
    requires Inv(s) && s.owner.PushWrite?
    ensures Safe(s, OwnerStep(s).event, OwnerStep(s).state)
  {
    var s' := OwnerStep(s).state;
    WindowPut(s.ring, s.bits, s.tail, s.head, s.owner.h, s.owner.val);
    if s.tail < s.head {
      SlotsDiffer(s.tail, s.head, s.bits);
    }
    forall i | 0 <= i < |s'.thieves|
      ensures ThiefOk(s'.thieves[i], s.tail, s.head, s'.ring, s.bits)
    {
      assert ThiefOk(s.thieves[i], s.tail, s.head, s.ring, s.bits);
    }
  }

  // The owner's step moves the end of the deque: the thieves only need their
  // limit not to drop while their cached tail is current.
  lemma LimitMoves<T>(thieves: seq<Thief<T>>, tail: int, limit: int, limit': int, ring: seq<T>, bits: nat)
    requires |ring| == Pow2(bits) && ThievesOk(thieves, tail, limit, ring, bits)
    requires tail < limit ==> tail < limit'
    ensures ThievesOk(thieves, tail, limit', ring, bits)
  {
    forall i | 0 <= i < |thieves| ensures ThiefOk(thieves[i], tail, limit', ring, bits) {
      assert ThiefOk(thieves[i], tail, limit, ring, bits);
    }
  }

  // When tail advances, every cached tail becomes stale.
  lemma TailAdvances<T>(thieves: seq<Thief<T>>, tail: int, limit: int, limit': int, ring: seq<T>, bits: nat)
    requires |ring| == Pow2(bits) && ThievesOk(thieves, tail, limit, ring, bits)
    ensures ThievesOk(thieves, tail + 1, limit', ring, bits)
  {
    forall i | 0 <= i < |thieves| ensures ThiefOk(thieves[i], tail + 1, limit', ring, bits) {
      assert ThiefOk(thieves[i], tail, limit, ring, bits);
    }
  }

  lemma PopCasSafe<T>(s: State<T>)
    requires Inv(s) && s.owner.PopCas?
    ensures Safe(s, OwnerStep(s).event, OwnerStep(s).state)
  {
    var s' := OwnerStep(s).state;
    var limit := StealLimit(s.owner, s.head, s.tail);
    var limit' := StealLimit(s'.owner, s'.head, s'.tail);
    if s'.tail == s.tail {
      LimitMoves(s.thieves, s.tail, limit, limit', s.ring, s.bits);
    } else {
      TailAdvances(s.thieves, s.tail, limit, limit', s.ring, s.bits);
    }
  }

  // Moving one task from either end of the deque to the returned ones.
  lemma HandedOut<T>(pushed: seq<T>, returned: seq<T>, d: seq<T>, v: T, d': seq<T>, hand: seq<T>)
    requires multiset(pushed) == multiset(returned) + multiset(d) + multiset(hand)
    requires d == [v] + d' || d == d' + [v]
    ensures multiset(pushed) == multiset(returned + [v]) + multiset(d') + multiset(hand)
  {
  }

  lemma PopReadSafe<T>(s: State<T>)
    requires Inv(s) && s.owner.PopRead?
    ensures Safe(s, OwnerStep(s).event, OwnerStep(s).state)
  {
    var r := OwnerStep(s);
    LimitMoves(s.thieves, s.tail, StealLimit(s.owner, s.head, s.tail),
               StealLimit(r.state.owner, s.head, s.tail), s.ring, s.bits);
    if s.owner.t < s.owner.h {
      var d' := Window(s.ring, s.bits, s.tail, s.head);
      HandedOut(s.pushed, s.returned, Deque(s), Cell(s.ring, s.bits, s.head), d', []);
    }
  }

  // Steps that move the owner along and at most store head, leaving the deque as
  // it is.
  lemma QuietSafe<T>(s: State<T>, s': State<T>)
    requires Inv(s)
    requires s' == s.(head := s'.head, owner := s'.owner)
    requires Top(s'.owner, s'.head, s'.tail) == Top(s.owner, s.head, s.tail)
    requires s.tail < StealLimit(s.owner, s.head, s.tail) ==> s.tail < StealLimit(s'.owner, s'.head, s'.tail)
    requires OwnerOk(s'.owner, s'.head, s'.tail, s.ring, s.bits)
    requires InHandOf(s'.owner) == InHandOf(s.owner)
    ensures Inv(s') && Deque(s') == Deque(s)
  {
    LimitMoves(s.thieves, s.tail, StealLimit(s.owner, s.head, s.tail),
               StealLimit(s'.owner, s'.head, s'.tail), s.ring, s.bits);
  }

  lemma PushHeadSafe<T>(s: State<T>)
    requires Inv(s) && s.owner.PushHead?
    ensures Safe(s, OwnerStep(s).event, OwnerStep(s).state)
  {
    var s' := OwnerStep(s).state;
    assert Deque(s') == Deque(s) + [s.owner.val];
    LimitMoves(s.thieves, s.tail, s.head, s'.head, s.ring, s.bits);
  }

  lemma PopStoreSafe<T>(s: State<T>)
    requires Inv(s) && s.owner.PopStore?
    ensures Safe(s, OwnerStep(s).event, OwnerStep(s).state)
  {
    var s' := OwnerStep(s).state;
    LimitMoves(s.thieves, s.tail, s.tail, s'.head, s.ring, s.bits);
  }

  ghost predicate Quiet<T>(o: Owner<T>) {
    !o.PushWrite? && !o.PushHead? && !o.PopRead? && !o.PopCas? && !o.PopStore?
  }

  lemma QuietOwnerSafe<T>(s: State<T>)
    requires Inv(s) && Quiet(s.owner)
    ensures Safe(s, OwnerStep(s).event, OwnerStep(s).state)
  {
    hide Window, Conserved, ThiefOk;
    QuietSafe(s, OwnerStep(s).state);
  }

  lemma OwnerSafe<T>(s: State<T>)
    requires Inv(s)
    ensures Safe(s, OwnerStep(s).event, OwnerStep(s).state)
  {
    hide OwnerStep, Inv, DequeStep, OwnerOk, ThiefOk, Window, Top;
    if s.owner.PushWrite? {
      PushWriteSafe(s);
    } else if s.owner.PushHead? {
      PushHeadSafe(s);
    } else if s.owner.PopRead? {
      PopReadSafe(s);
    } else if s.owner.PopCas? {
      PopCasSafe(s);
    } else if s.owner.PopStore? {
      PopStoreSafe(s);
    } else {
      QuietOwnerSafe(s);
    }
  }

  // A steal below the limit never invalidates what the owner relies on.
  lemma OwnerSurvivesSteal<T>(o: Owner<T>, head: int, tail: int, ring: seq<T>, bits: nat)
    requires |ring| == Pow2(bits) && 0 <= tail
    requires OwnerOk(o, head, tail, ring, bits) && tail < StealLimit(o, head, tail)
    ensures OwnerOk(o, head, tail + 1, ring, bits)
    ensures Top(o, head, tail + 1) == Top(o, head, tail) >= tail + 1
  {
  }

  lemma StolenSafe<T>(s: State<T>, i: nat)
    requires Inv(s) && i < |s.thieves| && s.thieves[i].StealCas? && s.thieves[i].t == s.tail
    ensures
      var v := s.thieves[i].val;
      var s' := s.(tail := s.tail + 1, thieves := s.thieves[i := Resting], returned := s.returned + [v]);
      Inv(s') && Deque(s) == [v] + Deque(s')
  {
    var v := s.thieves[i].val;
    var limit := StealLimit(s.owner, s.head, s.tail);
    var limit' := StealLimit(s.owner, s.head, s.tail + 1);
    var top := Top(s.owner, s.head, s.tail);
    assert ThiefOk(s.thieves[i], s.tail, limit, s.ring, s.bits);
    OwnerSurvivesSteal(s.owner, s.head, s.tail, s.ring, s.bits);
    WindowFront(s.ring, s.bits, s.tail, top);
    TailAdvances(s.thieves, s.tail, limit, limit', s.ring, s.bits);
    HandedOut(s.pushed, s.returned, Deque(s), v, Window(s.ring, s.bits, s.tail + 1, top), InHandOf(s.owner));
    hide OwnerOk, ThiefOk, Window, StealLimit, Top, InHandOf;
    assert ThievesOk(s.thieves[i := Resting], s.tail + 1, limit', s.ring, s.bits) by {
      assert ThiefOk(Resting, s.tail + 1, limit', s.ring, s.bits);
    }
  }

  // A steal attempt that takes nothing.
  lemma ThiefMovesSafe<T>(s: State<T>, i: nat, th: Thief<T>)
    requires Inv(s) && i < |s.thieves|
    requires ThiefOk(th, s.tail, StealLimit(s.owner, s.head, s.tail), s.ring, s.bits)
    ensures var s' := s.(thieves := s.thieves[i := th]); Inv(s') && Deque(s') == Deque(s)
  {
  }

  lemma HeadBelowLimit<T>(s: State<T>, t: int)
    requires Inv(s) && 0 <= t <= s.tail && ToInt32(s.head - t) > 0
    ensures t == s.tail ==> t < StealLimit(s.owner, s.head, s.tail)
  {
  }

  lemma ThiefSafe<T>(s: State<T>, i: nat)
    requires Inv(s) && i < |s.thieves|
    ensures Safe(s, ThiefStep(s, i).event, ThiefStep(s, i).state)
  {
    hide OwnerStep, OwnerOk, Window, Top, StealLimit, Conserved, Cell, ToInt32;
    assert ThiefOk(s.thieves[i], s.tail, StealLimit(s.owner, s.head, s.tail), s.ring, s.bits);
    match s.thieves[i]
    case Resting => ThiefMovesSafe(s, i, StealHead(s.tail));
    case StealHead(t) =>
      if ToInt32(s.head - t) <= 0 {
        ThiefMovesSafe(s, i, Resting);
      } else {
        HeadBelowLimit(s, t);
        ThiefMovesSafe(s, i, StealRead(t));
      }
    case StealRead(t) => ThiefMovesSafe(s, i, StealCas(t, Cell(s.ring, s.bits, t)));
    case StealCas(t, _) =>
      if t == s.tail {
        StolenSafe(s, i);
      } else {
        ThiefMovesSafe(s, i, Resting);
      }
  }

  lemma NothingSafe<T>(s: State<T>)
    requires Inv(s)
    ensures Safe(s, Silent, s)
  {
  }

  lemma StartSafe<T>(s: State<T>, o: Owner<T>)
    requires Inv(s)
    requires (o.PushTail? || o.PopTail?) && o.h == s.head
    ensures s.owner.Idle? ==> Safe(s, Silent, s.(owner := o))
    ensures Safe(s, Silent, s)
  {
    if s.owner.Idle? {
      QuietSafe(s, s.(owner := o));
    }
  }

  // Every atomic step of every thread keeps the invariant and acts on the
  // abstract deque exactly as its event says.
  lemma StepSafe<T>(s: State<T>, a: Action<T>)
    requires Inv(s)
    ensures Safe(s, Next(s, a).event, Next(s, a).state)
  {
    hide OwnerStep, ThiefStep, Inv, DequeStep, OwnerOk, ThiefOk, Window, Top;
    match a
    case OwnerAccess => OwnerSafe(s);
    case ThiefAccess(i) =>
      if i < |s.thieves| {
        ThiefSafe(s, i);
      } else {
        NothingSafe(s);
      }
    case StartPush(val) => StartSafe(s, PushTail(s.head, val));
    case StartPop => StartSafe(s, PopTail(s.head));
  }

  // ------------------------------------------------------------------ whole runs

  function Exec<T>(s: State<T>, run: seq<Action<T>>): (r: State<T>)
    requires Inv(s)
    ensures Inv(r) && r.bits == s.bits
    decreases |run|
  {
    if run == [] then s
    else
      StepSafe(s, run[0]);
      Exec(Next(s, run[0]).state, run[1..])
  }

  function Events<T>(s: State<T>, run: seq<Action<T>>): (r: seq<Event<T>>)
    requires Inv(s)
    decreases |run|
  {
    if run == [] then []
    else
      StepSafe(s, run[0]);
      [Next(s, run[0]).event] + Events(Next(s, run[0]).state, run[1..])
  }

  // What each event leaves of a sequential deque.
  function Apply<T>(d: seq<T>, e: Event<T>): (r: seq<T>) {
    match e
    case Pushed(v) => d + [v]
    case PoppedBack(_) => if d == [] then d else d[..|d| - 1]
    case Stolen(_) => if d == [] then d else d[1..]
    case _ => d
  }

  // The events are a legal history of a sequential deque from d to d'.
  ghost predicate LegalHistory<T>(d: seq<T>, events: seq<Event<T>>, d': seq<T>, capacity: nat)
    decreases |events|
  {
    if events == [] then d' == d
    else
      var m := Apply(d, events[0]);
      DequeStep(d, events[0], m, capacity) && LegalHistory(m, events[1..], d', capacity)
  }

  lemma ApplyIs<T>(d: seq<T>, e: Event<T>, d': seq<T>, capacity: nat)
    requires DequeStep(d, e, d', capacity)
    ensures d' == Apply(d, e)
  {
  }

  lemma InvDeque<T>(s: State<T>)
    requires Inv(s)
    ensures WellSized(s) && 0 <= s.tail <= Top(s.owner, s.head, s.tail)
  {
  }

  lemma StepApplies<T>(s: State<T>, a: Action<T>)
    requires Inv(s)
    ensures Safe(s, Next(s, a).event, Next(s, a).state)
    ensures Deque(Next(s, a).state) == Apply(Deque(s), Next(s, a).event)
  {
    hide Inv, Next, WellSized, Top, Deque, DequeStep, Apply;
    StepSafe(s, a);
    var s' := Next(s, a).state;
    InvDeque(s);
    InvDeque(s');
    ApplyIs(Deque(s), Next(s, a).event, Deque(s'), Mask(s.bits));
  }

  // In every interleaving the concurrent deque behaves like the sequential one:
  // thieves take the oldest task, the owner the youngest; push_back fails only
  // on a full deque and pop only on an empty one.
  lemma {:induction false} Linearizable<T>(s: State<T>, run: seq<Action<T>>)
    requires Inv(s)
    ensures LegalHistory(Deque(s), Events(s, run), Deque(Exec(s, run)), Mask(s.bits))
    decreases |run|
  {
    hide Inv, Deque, DequeStep, Next, Apply;
    if run != [] {
      StepApplies(s, run[0]);
      var s' := Next(s, run[0]).state;
      Linearizable(s', run[1..]);
      var events := Events(s, run);
      assert events[0] == Next(s, run[0]).event && events[1..] == Events(s', run[1..]);
    }
  }

  ghost predicate Distinct<T>(q: seq<T>) {
    forall i, j :: 0 <= i < j < |q| ==> q[i] != q[j]
  }

  lemma {:induction false} DistinctCounts<T>(q: seq<T>)
    ensures Distinct(q) <==> forall v :: v in q ==> multiset(q)[v] <= 1
  {
    if |q| > 0 {
      var p, x := q[..|q| - 1], q[|q| - 1];
      assert q == p + [x];
      DistinctCounts(p);
      assert multiset(q) == multiset(p) + multiset{x};
      if Distinct(q) {
        assert x !in p;
        forall v | v in q ensures multiset(q)[v] <= 1 {
          assert v in p ==> multiset(p)[v] <= 1;
        }
      }
      if forall v :: v in q ==> multiset(q)[v] <= 1 {
        forall v | v in p ensures multiset(p)[v] <= 1 {
          assert v in q && multiset(q)[v] <= 1;
        }
        assert x in q && multiset(q)[x] <= 1;
        assert x !in p;
      }
    }
  }

  // Nothing is lost and nothing is duplicated: after any run, what was pushed is
  // what was returned plus what is still held. Distinct tasks are returned at
  // most once, and a returned task is no longer in the deque.
  lemma NothingLostNothingTwice<T>(bits: nat, ring: seq<T>, thieves: nat, run: seq<Action<T>>)
    requires |ring| == Pow2(bits)
    ensures Inv(Start(bits, ring, thieves))
    ensures
      var s := Exec(Start(bits, ring, thieves), run);
      && multiset(s.pushed) == multiset(s.returned) + multiset(Deque(s)) + multiset(InHandOf(s.owner))
      && (Distinct(s.pushed) ==> Distinct(s.returned) && forall v :: v in s.returned ==> v !in Deque(s))
  {
    StartInv(bits, ring, thieves);
    var s := Exec(Start(bits, ring, thieves), run);
    if Distinct(s.pushed) {
      DistinctCounts(s.pushed);
      DistinctCounts(s.returned);
      forall v | v in s.returned
        ensures multiset(s.returned)[v] <= 1 && v !in Deque(s)
      {
        assert v in multiset(s.pushed) && multiset(s.pushed)[v] <= 1;
        assert multiset(s.returned)[v] + multiset(Deque(s))[v] <= 1;
      }
    }
  }

  // ------------------------------------------------------------- the queue object

  lemma OwnerIndex<T>(s: State<T>)
    requires Inv(s)
    ensures WellSized(s)
    ensures s.owner.PushWrite? || s.owner.PopRead? ==> 0 <= s.owner.h
  {
  }

  lemma ThiefIndex<T>(s: State<T>, i: nat)
    requires Inv(s) && i < |s.thieves|
    ensures WellSized(s)
    ensures s.thieves[i].StealRead? ==> 0 <= s.thieves[i].t
  {
    assert ThiefOk(s.thieves[i], s.tail, StealLimit(s.owner, s.head, s.tail), s.ring, s.bits);
  }

  // default_work_stealing_queue with its fields updated in place, together with
  // the program positions of the threads that use it. Each method performs one
  // shared access.
  class WorkStealingQueue<T> {
    const bits: nat
    var head: int
    var tail: int
    const slots: array<T>
    var owner: Owner<T>
    var thieves: seq<Thief<T>>
    ghost var pushed: seq<T>
    ghost var returned: seq<T>

    constructor (bits: nat, storage: array<T>, thiefCount: nat)
      requires storage.Length == Pow2(bits)
      ensures slots == storage && this.bits == bits
      ensures View() == Start(bits, storage[..], thiefCount) && Inv(View())
    {
      this.bits := bits;
      head := 0;
      tail := 0;
      slots := storage;
      owner := Idle;
      thieves := seq(thiefCount, _ => Resting);
      pushed := [];
      returned := [];
      new;
      StartInv(bits, storage[..], thiefCount);
    }

    ghost function View(): (s: State<T>)
      reads this, slots
    {
      State(bits, head, tail, slots[..], owner, thieves, pushed, returned)
    }

    method Begin(push: bool, val: T)
      requires Inv(View()) && owner.Idle?
      modifies this`owner
      ensures View() == Next(old(View()), if push then StartPush(val) else StartPop).state && Inv(View())
    {
      StepSafe(View(), if push then StartPush(val) else StartPop);
      hide Inv;
      owner := if push then PushTail(head, val) else PopTail(head);
    }

    // The accesses of push_back.
    method PushAccess()
      requires Inv(View()) && (owner.PushTail? || owner.PushWrite? || owner.PushHead?)
      modifies this`head, this`owner, this`pushed, slots
      ensures View() == Next(old(View()), OwnerAccess).state && Inv(View())
    {
      hide Inv, OwnerOk, ThiefOk, ThievesOk, Conserved, Window, Top, StealLimit, DequeStep, ThiefStep, Deque;
      ghost var s := View();
      StepSafe(s, OwnerAccess);
      OwnerIndex(s);
      assert Next(s, OwnerAccess) == OwnerStep(s);
      match owner {
        case PushTail(h, val) =>
          owner := if h - tail == Mask(bits) then Idle else PushWrite(h, val);
        case PushWrite(h, val) =>
          slots[Slot(h, bits)] := val;
          owner := PushHead(h, val);
        case PushHead(h, val) =>
          head := h + 1;
          owner := Idle;
          pushed := pushed + [val];
      }
    }

    // The accesses of pop up to the read of the task.
    method PopAccess()
      requires Inv(View())
      requires owner.PopTail? || owner.PopReset? || owner.PopResetStore? || owner.PopDec? || owner.PopFence?
      modifies this`head, this`owner
      ensures View() == Next(old(View()), OwnerAccess).state && Inv(View())
    {
      hide Inv, OwnerOk, ThiefOk, ThievesOk, Conserved, Window, Top, StealLimit, DequeStep, ThiefStep, Deque;
      ghost var s := View();
      StepSafe(s, OwnerAccess);
      assert Next(s, OwnerAccess) == OwnerStep(s);
      match owner {
        case PopTail(h) =>
          owner := if h <= tail then PopReset else PopDec(h);
        case PopReset =>
          owner := PopResetStore(tail);
        case PopResetStore(t) =>
          head := t;
          owner := Idle;
        case PopDec(h) =>
          head := h - 1;
          owner := PopFence(h - 1);
        case PopFence(h) =>
          owner := if h < tail then PopReload(Nothing) else PopRead(h, tail);
      }
    }

    // The accesses of pop from the read of the task on.
    method PopDecide()
      requires Inv(View())
      requires owner.PopRead? || owner.PopCas? || owner.PopReload? || owner.PopStore?
      modifies this`head, this`tail, this`owner, this`returned
      ensures View() == Next(old(View()), OwnerAccess).state && Inv(View())
    {
      hide Inv, OwnerOk, ThiefOk, ThievesOk, Conserved, Window, Top, StealLimit, DequeStep, ThiefStep, Deque;
      ghost var s := View();
      StepSafe(s, OwnerAccess);
      OwnerIndex(s);
      assert Next(s, OwnerAccess) == OwnerStep(s);
      match owner {
        case PopRead(h, t) =>
          var val := slots[Slot(h, bits)];
          if h > t {
            owner := Idle;
            returned := returned + [val];
          } else {
            owner := PopCas(h, val);
          }
        case PopCas(h, val) =>
          if tail == h {
            tail := h + 1;
            owner := PopReload(Got(val));
          } else {
            owner := PopReload(Nothing);
          }
        case PopReload(res) =>
          owner := PopStore(res, tail);
        case PopStore(res, t) =>
          returned := returned + InHandOf(owner);
          head := t;
          owner := Idle;
      }
      assert slots[..] == s.ring;
    }

    method ThiefAccess(i: nat)
      requires Inv(View()) && i < |thieves|
      modifies this`tail, this`thieves, this`returned
      ensures View() == Next(old(View()), Action<T>.ThiefAccess(i)).state && Inv(View())
    {
      hide Inv, OwnerOk, ThiefOk, ThievesOk, Conserved, Window, Top, StealLimit, DequeStep, OwnerStep, Deque;
      ghost var s := View();
      StepSafe(s, Action<T>.ThiefAccess(i));
      ThiefIndex(s, i);
      assert Next(s, Action<T>.ThiefAccess(i)) == ThiefStep(s, i);
      match thieves[i] {
        case Resting =>
          thieves := thieves[i := StealHead(tail)];
        case StealHead(t) =>
          thieves := thieves[i := if ToInt32(head - t) <= 0 then Resting else StealRead(t)];
        case StealRead(t) =>
          thieves := thieves[i := StealCas(t, slots[Slot(t, bits)])];
        case StealCas(t, val) =>
          if tail == t {
            tail := t + 1;
            returned := returned + [val];
          }
          thieves := thieves[i := Resting];
      }
    }
  }
}
