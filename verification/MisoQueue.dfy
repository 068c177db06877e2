// miso_queue: any number of producers, one consumer, one shared-memory access per
// step, under sequentially consistent memory. A producer reserves a ticket by a
// CAS on whead, writes its slot, and publishes in ticket order by a CAS on head.
module MisoQueue {
  import opened Ring

  datatype Producer<T> =
    | Ready
    | Loop(h: nat, val: T)                  // loop condition: about to load tail
    | Reserve(h: nat, val: T)               // loop condition: about to CAS whead
    | Reload(val: T)                        // loop body: about to load whead
    | Retest(h: nat, val: T, owned: bool)   // second "full" test: about to load tail
    | Write(h: nat, val: T)                 // about to write array[h & MASK]
    | Publish(h: nat, val: T)               // about to CAS head

  datatype Consumer<T> =
    | Resting
    | LoadHead          // about to compare tail with head
    | LoadCell          // about to read array[tail & MASK]
    | Bump(val: T)      // about to store tail + 1

  // Histories: tickets[k] is the value whose producer won ticket k, owners[k]
  // that producer, popped the values handed to pop's caller, begun the number of
  // calls of push so far. The flag `owned` of Retest records how the loop ended;
  // the code itself does not know it.
  datatype State<T> = State(
    bits: nat, head: nat, whead: nat, tail: nat, ring: seq<T>,
    producers: seq<Producer<T>>, consumer: Consumer<T>,
    tickets: seq<T>, owners: seq<nat>, popped: seq<T>, begun: nat)

  datatype Action<T> =
    | BeginPush(i: nat, val: T)
    | PushAccess(i: nat)
    | PopAccess

  function Start<T>(bits: nat, ring: seq<T>, producers: nat): (s: State<T>) {
    State(bits, 0, 0, 0, ring, seq(producers, _ => Ready), Resting, [], [], [], 0)
  }

  function At<T>(s: State<T>, i: nat, p: Producer<T>): (r: State<T>)
    requires i < |s.producers|
  {
    s.(producers := s.producers[i := p])
  }

  function PushStep<T>(s: State<T>, i: nat): (r: State<T>)
    requires |s.ring| == Pow2(s.bits) && i < |s.producers|
  {
    match s.producers[i]
    case Ready => s
    case Loop(h, val) =>
      if h - s.tail < Mask(s.bits) then At(s, i, Reserve(h, val)) else At(s, i, Retest(h, val, false))
    case Reserve(h, val) =>
      if s.whead == h then
        At(s, i, Retest(h, val, true)).(whead := h + 1, tickets := s.tickets + [val], owners := s.owners + [i])
      else At(s, i, Reload(val))
    case Reload(val) => At(s, i, Loop(s.whead, val))
    case Retest(h, val, _) =>
      if h - s.tail >= Mask(s.bits) then At(s, i, Ready) else At(s, i, Write(h, val))
    case Write(h, val) => At(s, i, Publish(h, val)).(ring := Put(s.ring, s.bits, h, val))
    case Publish(h, val) => if s.head == h then At(s, i, Ready).(head := h + 1) else s
  }

  function PopStep<T>(s: State<T>): (r: State<T>)
    requires |s.ring| == Pow2(s.bits)
  {
    match s.consumer
    case Resting => s.(consumer := LoadHead)
    case LoadHead => s.(consumer := if s.tail == s.head then Resting else LoadCell)
    case LoadCell => s.(consumer := Bump(Cell(s.ring, s.bits, s.tail)))
    case Bump(val) => s.(tail := s.tail + 1, popped := s.popped + [val], consumer := Resting)
  }

  function Next<T>(s: State<T>, a: Action<T>): (r: State<T>)
    requires |s.ring| == Pow2(s.bits)
    ensures r.bits == s.bits && |r.ring| == |s.ring|
  {
    match a
    case BeginPush(i, val) =>
      if i < |s.producers| && s.producers[i].Ready?
      then At(s, i, Loop(s.head, val)).(begun := s.begun + 1) else s
    case PushAccess(i) => if i < |s.producers| then PushStep(s, i) else s
    case PopAccess => PopStep(s)
  }

  // ------------------------------------------------------------------ invariant

  // The producer holds ticket k: it may write slot k and publish it.
  predicate Holds<T>(p: Producer<T>, k: nat) {
    ((p.Retest? && p.owned) || p.Write? || p.Publish?) && p.h == k
  }

  ghost predicate ProducerOk<T>(s: State<T>, i: nat)
    requires |s.ring| == Pow2(s.bits) && i < |s.producers|
    requires |s.tickets| == |s.owners| == s.whead
  {
    match s.producers[i]
    case Ready => true
    case Loop(h, _) => h <= s.whead
    case Reserve(h, _) => h <= s.whead && h < s.tail + Mask(s.bits)
    case Reload(_) => true
    case Retest(h, val, owned) => h <= s.whead && (owned ==> s.head <= h < s.whead && s.owners[h] == i && s.tickets[h] == val)
    case Write(h, val) => s.head <= h < s.whead && s.owners[h] == i && s.tickets[h] == val
    case Publish(h, val) =>
      s.head <= h < s.whead && s.owners[h] == i && s.tickets[h] == val && Cell(s.ring, s.bits, h) == val
  }

  ghost predicate ConsumerOk<T>(s: State<T>)
    requires |s.ring| == Pow2(s.bits)
  {
    match s.consumer
    case LoadCell => s.tail < s.head
    case Bump(val) => s.tail < s.head && val == Cell(s.ring, s.bits, s.tail)
    case _ => true
  }

  ghost predicate Inv<T>(s: State<T>) {
    && |s.ring| == Pow2(s.bits)
    && s.tail <= s.head <= s.whead <= s.tail + Mask(s.bits)
    && |s.tickets| == |s.owners| == s.whead
    && s.popped == s.tickets[..s.tail]
    && Window(s.ring, s.bits, s.tail, s.head) == s.tickets[s.tail..s.head]
    && ConsumerOk(s)
    && (forall i :: 0 <= i < |s.producers| ==> ProducerOk(s, i))
    && (forall k :: s.head <= k < s.whead ==> s.owners[k] < |s.producers| && Holds(s.producers[s.owners[k]], k))
  }

  lemma StartInv<T>(bits: nat, ring: seq<T>, producers: nat)
    requires |ring| == Pow2(bits)
    ensures Inv(Start(bits, ring, producers))
  {
  }

  // A producer whose loop ended because the queue was full, and which now sees it
  // no longer full: it goes on to write without a ticket.
  predicate Rogue<T>(s: State<T>, a: Action<T>) {
    a.PushAccess? && a.i < |s.producers| && s.producers[a.i].Retest? && !s.producers[a.i].owned
    && s.producers[a.i].h - s.tail < Mask(s.bits)
  }

  // Moves of producer i that neither reserve, write nor publish.
  lemma MoveKeeps<T>(s: State<T>, i: nat, p: Producer<T>)
    requires Inv(s) && i < |s.producers|
    requires forall k :: s.head <= k < s.whead && Holds(s.producers[i], k) ==> Holds(p, k)
    requires ProducerOk(At(s, i, p), i)
    ensures Inv(At(s, i, p))
  {
    var s' := At(s, i, p);
    forall j | 0 <= j < |s'.producers| ensures ProducerOk(s', j) {
      assert ProducerOk(s, j);
    }
    forall k | s'.head <= k < s'.whead
      ensures s'.owners[k] < |s'.producers| && Holds(s'.producers[s'.owners[k]], k)
    {
      assert Holds(s.producers[s.owners[k]], k);
    }
  }

  lemma ReserveKeeps<T>(s: State<T>, i: nat)
    requires Inv(s) && i < |s.producers| && s.producers[i].Reserve? && s.producers[i].h == s.whead
    ensures Inv(PushStep(s, i))
  {
    var s' := PushStep(s, i);
    assert ProducerOk(s, i);
    assert s'.tickets[..s.tail] == s.tickets[..s.tail];
    assert s'.tickets[s.tail..s.head] == s.tickets[s.tail..s.head];
    forall j | 0 <= j < |s'.producers| ensures ProducerOk(s', j) {
      assert ProducerOk(s, j);
    }
    forall k | s'.head <= k < s'.whead
      ensures s'.owners[k] < |s'.producers| && Holds(s'.producers[s'.owners[k]], k)
    {
      if k < s.whead {
        assert Holds(s.producers[s.owners[k]], k);
      }
    }
  }

  lemma WriteKeeps<T>(s: State<T>, i: nat)
    requires Inv(s) && i < |s.producers| && s.producers[i].Write?
    ensures Inv(PushStep(s, i))
  {
    var s' := PushStep(s, i);
    var h := s.producers[i].h;
    assert ProducerOk(s, i);
    WindowPut(s.ring, s.bits, s.tail, s.head, h, s.producers[i].val);
    if s.tail < s.head {
      SlotsDiffer(s.tail, h, s.bits);
    }
    forall j | 0 <= j < |s'.producers| ensures ProducerOk(s', j) {
      assert ProducerOk(s, j);
      if j != i && s.producers[j].Publish? {
        var g := s.producers[j].h;
        if g < h { SlotsDiffer(g, h, s.bits); } else { SlotsDiffer(h, g, s.bits); }
      }
    }
    forall k | s'.head <= k < s'.whead
      ensures s'.owners[k] < |s'.producers| && Holds(s'.producers[s'.owners[k]], k)
    {
      assert Holds(s.producers[s.owners[k]], k);
    }
  }

  lemma PublishKeeps<T>(s: State<T>, i: nat)
    requires Inv(s) && i < |s.producers| && s.producers[i].Publish?
    ensures Inv(PushStep(s, i))
  {
    var s' := PushStep(s, i);
    assert ProducerOk(s, i);
    if s'.head != s.head {
      assert s.tickets[s.tail..s.head + 1] == s.tickets[s.tail..s.head] + [s.tickets[s.head]];
      forall j | 0 <= j < |s'.producers| ensures ProducerOk(s', j) {
        assert ProducerOk(s, j);
      }
      forall k | s'.head <= k < s'.whead
        ensures s'.owners[k] < |s'.producers| && Holds(s'.producers[s'.owners[k]], k)
      {
        assert Holds(s.producers[s.owners[k]], k);
      }
    }
  }

  lemma PopKeeps<T>(s: State<T>)
    requires Inv(s)
    ensures Inv(PopStep(s))
  {
    var s' := PopStep(s);
    if s.consumer.Bump? {
      WindowFront(s.ring, s.bits, s.tail, s.head);
      assert s.tickets[s.tail..s.head][0] == s.tickets[s.tail];
      assert s.tickets[s.tail..s.head][1..] == s.tickets[s.tail + 1..s.head];
      assert s.tickets[..s.tail + 1] == s.tickets[..s.tail] + [s.tickets[s.tail]];
    }
    forall j | 0 <= j < |s'.producers| ensures ProducerOk(s', j) {
      assert ProducerOk(s, j);
    }
    forall k | s'.head <= k < s'.whead
      ensures s'.owners[k] < |s'.producers| && Holds(s'.producers[s'.owners[k]], k)
    {
      assert Holds(s.producers[s.owners[k]], k);
    }
  }

  lemma PushKeeps<T>(s: State<T>, i: nat)
    requires Inv(s) && i < |s.producers| && !Rogue(s, PushAccess(i))
    ensures Inv(PushStep(s, i))
  {
    assert ProducerOk(s, i);
    match s.producers[i]
    case Ready =>
    case Reserve(h, val) =>
      if s.whead == h { ReserveKeeps(s, i); } else { MoveKeeps(s, i, Reload(val)); }
    case Write(_, _) => WriteKeeps(s, i);
    case Publish(_, _) => PublishKeeps(s, i);
    case _ => MoveKeeps(s, i, PushStep(s, i).producers[i]);
  }

  lemma RogueBreaks<T>(s: State<T>, a: Action<T>)
    requires Inv(s) && Rogue(s, a)
    ensures !Inv(Next(s, a))
  {
    var h := s.producers[a.i].h;
    assert s.head <= h < s.whead ==> Holds(s.producers[s.owners[h]], h);
    assert !ProducerOk(Next(s, a), a.i);
  }

  // The exact boundary: a step keeps the invariant if and only if it is not the
  // second "full" test letting a producer through without a ticket.
  lemma NextKeepsIff<T>(s: State<T>, a: Action<T>)
    requires Inv(s)
    ensures Inv(Next(s, a)) <==> !Rogue(s, a)
  {
    if Rogue(s, a) {
      RogueBreaks(s, a);
    } else {
      match a
      case BeginPush(i, val) =>
        if i < |s.producers| && s.producers[i].Ready? {
          MoveKeeps(s, i, Loop(s.head, val));
          var s1 := At(s, i, Loop(s.head, val));
          BegunIrrelevant(s1, s.begun + 1);
        }
      case PushAccess(i) => if i < |s.producers| { PushKeeps(s, i); }
      case PopAccess => PopKeeps(s);
    }
  }

  lemma BegunIrrelevant<T>(s: State<T>, n: nat)
    requires Inv(s)
    ensures Inv(s.(begun := n))
  {
    var s' := s.(begun := n);
    forall j | 0 <= j < |s'.producers| ensures ProducerOk(s', j) {
      assert ProducerOk(s, j);
    }
    forall k | s'.head <= k < s'.whead
      ensures s'.owners[k] < |s'.producers| && Holds(s'.producers[s'.owners[k]], k)
    {
      assert Holds(s.producers[s.owners[k]], k);
    }
  }

  // ------------------------------------------------------------------ whole runs

  function Exec<T>(s: State<T>, run: seq<Action<T>>): (r: State<T>)
    requires |s.ring| == Pow2(s.bits)
    decreases |run|
  {
    if run == [] then s else Exec(Next(s, run[0]), run[1..])
  }

  ghost predicate GoodThroughout<T>(s: State<T>, run: seq<Action<T>>)
    decreases |run|
  {
    Inv(s) && (run != [] ==> GoodThroughout(Next(s, run[0]), run[1..]))
  }

  predicate NeverRogue<T>(s: State<T>, run: seq<Action<T>>)
    requires |s.ring| == Pow2(s.bits)
    decreases |run|
  {
    run != [] ==> !Rogue(s, run[0]) && NeverRogue(Next(s, run[0]), run[1..])
  }

  // A run respects the ticket protocol from beginning to end if and only if no
  // push slips through its second test.
  lemma {:induction false} GoodIffNeverRogue<T>(s: State<T>, run: seq<Action<T>>)
    requires Inv(s)
    ensures GoodThroughout(s, run) <==> NeverRogue(s, run)
    decreases |run|
  {
    if run != [] {
      NextKeepsIff(s, run[0]);
      assert |s.ring| == Pow2(s.bits);
      hide Inv, Next, Rogue;
      if !Rogue(s, run[0]) {
        GoodIffNeverRogue(Next(s, run[0]), run[1..]);
      } else {
        assert !Inv(Next(s, run[0]));
      }
    }
  }

  // While the protocol is respected, pop returns the values in ticket order,
  // each exactly once, and everything else that won a ticket is published in the
  // ring or still in the hands of its producer.
  lemma PopsInTicketOrder<T>(s: State<T>)
    requires Inv(s)
    ensures s.popped + Window(s.ring, s.bits, s.tail, s.head) == s.tickets[..s.head]
    ensures forall k :: s.head <= k < s.whead ==>
      s.owners[k] < |s.producers| && Holds(s.producers[s.owners[k]], k) && s.producers[s.owners[k]].val == s.tickets[k]
  {
    assert s.tickets[..s.head] == s.tickets[..s.tail] + s.tickets[s.tail..s.head];
    forall k | s.head <= k < s.whead
      ensures s.owners[k] < |s.producers| && Holds(s.producers[s.owners[k]], k) && s.producers[s.owners[k]].val == s.tickets[k]
    {
      assert ProducerOk(s, s.owners[k]);
    }
  }

  // A reservation is never abandoned: a producer that won a ticket passes the
  // second test.
  lemma ReservationKept<T>(s: State<T>, i: nat)
    requires Inv(s) && i < |s.producers| && s.producers[i].Retest? && s.producers[i].owned
    ensures PushStep(s, i).producers[i] == Write(s.producers[i].h, s.producers[i].val)
  {
    assert ProducerOk(s, i);
  }

  // ------------------------------------------------ a caller-side sufficient rule

  predicate Unreserved<T>(p: Producer<T>) {
    p.Loop? || p.Reserve? || p.Reload?
  }

  function CountUnreserved<T>(ps: seq<Producer<T>>): (r: nat) {
    if ps == [] then 0
    else (if Unreserved(ps[0]) then 1 else 0) + CountUnreserved(ps[1..])
  }

  lemma {:induction false} CountAfterMove<T>(ps: seq<Producer<T>>, i: nat, p: Producer<T>)
    requires i < |ps|
    ensures CountUnreserved(ps[i := p])
      == CountUnreserved(ps) - (if Unreserved(ps[i]) then 1 else 0) + (if Unreserved(p) then 1 else 0)
    ensures Unreserved(ps[i]) ==> 1 <= CountUnreserved(ps)
  {
    if i == 0 {
      assert ps[i := p][1..] == ps[1..];
    } else {
      assert ps[i := p][1..] == ps[1..][i - 1 := p];
      CountAfterMove(ps[1..], i - 1, p);
    }
  }

  lemma {:induction false} NoneUnreserved<T>(ps: seq<Producer<T>>)
    requires forall i :: 0 <= i < |ps| ==> ps[i].Ready?
    ensures CountUnreserved(ps) == 0
  {
    if ps != [] {
      NoneUnreserved(ps[1..]);
    }
  }

  // Callers start a push only while fewer than MASK values are on their way
  // from a call of push to a pop.
  predicate Disciplined<T>(s: State<T>, a: Action<T>) {
    a.BeginPush? ==> s.begun - s.tail < Mask(s.bits)
  }

  ghost predicate Bounded<T>(s: State<T>) {
    && s.begun == s.whead + CountUnreserved(s.producers)
    && s.begun <= s.tail + Mask(s.bits)
    && forall i :: 0 <= i < |s.producers| ==> (s.producers[i].Retest? ==> s.producers[i].owned)
  }

  lemma DisciplineKeeps<T>(s: State<T>, a: Action<T>)
    requires Inv(s) && Bounded(s) && Disciplined(s, a)
    ensures !Rogue(s, a) && Bounded(Next(s, a))
    ensures a.PushAccess? && a.i < |s.producers| && s.producers[a.i].Retest? ==> Next(s, a).producers[a.i].Write?
  {
    if !a.PopAccess? && a.i < |s.producers| {
      var s' := Next(s, a);
      assert ProducerOk(s, a.i);
      CountAfterMove(s.producers, a.i, s'.producers[a.i]);
      assert s'.producers == s.producers[a.i := s'.producers[a.i]];
    }
  }

  predicate DisciplinedRun<T>(s: State<T>, run: seq<Action<T>>)
    requires |s.ring| == Pow2(s.bits)
    decreases |run|
  {
    run != [] ==> Disciplined(s, run[0]) && DisciplinedRun(Next(s, run[0]), run[1..])
  }

  lemma {:induction false} DisciplinedStaysGood<T>(s: State<T>, run: seq<Action<T>>)
    requires Inv(s) && Bounded(s) && DisciplinedRun(s, run)
    ensures GoodThroughout(s, run)
    decreases |run|
  {
    if run != [] {
      DisciplineKeeps(s, run[0]);
      NextKeepsIff(s, run[0]);
      hide Inv, Next, Rogue, Disciplined, Bounded;
      DisciplinedStaysGood(Next(s, run[0]), run[1..]);
    }
  }

  lemma DisciplinedIsGood<T>(bits: nat, ring: seq<T>, producers: nat, run: seq<Action<T>>)
    requires |ring| == Pow2(bits) && DisciplinedRun(Start(bits, ring, producers), run)
    ensures GoodThroughout(Start(bits, ring, producers), run)
  {
    StartInv(bits, ring, producers);
    NoneUnreserved(Start(bits, ring, producers).producers);
    DisciplinedStaysGood(Start(bits, ring, producers), run);
  }

  // ---------------------------------------------------------- and how it can fail

  // Any producer whose loop found the queue exactly full can be overtaken by a
  // pop: from such a state six more steps publish an index nobody reserved.
  lemma OvertakenPush<T>(s: State<T>, i: nat)
    requires Inv(s) && i < |s.producers| && s.consumer.Resting?
    requires s.producers[i].Retest? && !s.producers[i].owned
    requires s.producers[i].h == s.head == s.whead == s.tail + Mask(s.bits) && 1 <= Mask(s.bits)
    ensures
      var push := PushAccess(i);
      var s' := Exec(s, [PopAccess, PopAccess, PopAccess, PopAccess] + [push, push, push]);
      s'.whead < s'.head && |s'.tickets| < s'.head
  {
    var push: Action<T> := PushAccess(i);
    assert |s.ring| == Pow2(s.bits);
    hide Inv, Window;
    var h, val := s.producers[i].h, s.producers[i].val;
    var v := Cell(s.ring, s.bits, s.tail);
    var s4 := s.(tail := s.tail + 1, popped := s.popped + [v]);
    PopTakesOne(s);
    var s5 := At(s4, i, Write(h, val));
    assert Next(s4, push) == s5;
    var s6 := At(s4, i, Publish(h, val)).(ring := Put(s.ring, s.bits, h, val));
    assert Next(s5, push) == s6;
    var s7 := Next(s6, push);
    hide Next, At;
    ExecChain(s4, [push, push, push], [s4, s5, s6, s7]);
    ExecAppend(s, [PopAccess, PopAccess, PopAccess, PopAccess], [push, push, push]);
  }

  lemma PopChecks<T>(s: State<T>)
    requires |s.ring| == Pow2(s.bits) && s.consumer.Resting? && s.tail != s.head
    ensures Exec(s, [PopAccess, PopAccess]) == s.(consumer := LoadCell)
  {
    var s1 := s.(consumer := LoadHead);
    assert Next(s, PopAccess) == s1 && Next(s1, PopAccess) == s.(consumer := LoadCell);
    ExecChain(s, [PopAccess, PopAccess], [s, s1, s.(consumer := LoadCell)]);
  }

  lemma PopTakes<T>(s: State<T>)
    requires |s.ring| == Pow2(s.bits) && s.consumer.LoadCell?
    ensures Exec(s, [PopAccess, PopAccess])
      == s.(tail := s.tail + 1, popped := s.popped + [Cell(s.ring, s.bits, s.tail)], consumer := Resting)
  {
    var s1 := Next(s, PopAccess);
    ExecChain(s, [PopAccess, PopAccess], [s, s1, Next(s1, PopAccess)]);
  }

  lemma PopTakesOne<T>(s: State<T>)
    requires |s.ring| == Pow2(s.bits) && s.consumer.Resting? && s.tail != s.head
    ensures Exec(s, [PopAccess, PopAccess, PopAccess, PopAccess])
      == s.(tail := s.tail + 1, popped := s.popped + [Cell(s.ring, s.bits, s.tail)])
  {
    hide Next, Exec, Cell;
    var two: seq<Action<T>> := [PopAccess, PopAccess];
    PopChecks(s);
    PopTakes(s.(consumer := LoadCell));
    ExecAppend(s, two, two);
    assert two + two == [PopAccess, PopAccess, PopAccess, PopAccess];
  }

  lemma {:induction false} ExecChain<T>(s: State<T>, run: seq<Action<T>>, states: seq<State<T>>)
    requires |s.ring| == Pow2(s.bits) && |states| == |run| + 1 && states[0] == s
    requires forall k :: 0 <= k < |run| ==> |states[k].ring| == Pow2(states[k].bits) && states[k + 1] == Next(states[k], run[k])
    ensures Exec(s, run) == states[|run|]
    decreases |run|
  {
    if run != [] {
      assert states[1] == Next(states[0], run[0]);
      ExecChain(states[1], run[1..], states[1..]);
    }
  }

  lemma {:induction false} ExecAppend<T>(s: State<T>, run: seq<Action<T>>, more: seq<Action<T>>)
    requires |s.ring| == Pow2(s.bits)
    ensures |Exec(s, run).ring| == Pow2(Exec(s, run).bits)
    ensures Exec(s, run + more) == Exec(Exec(s, run), more)
    decreases |run|
  {
    if run == [] {
      assert run + more == more;
    } else {
      assert (run + more)[1..] == run[1..] + more;
      ExecAppend(Next(s, run[0]), run[1..], more);
    }
  }

  // Such a state is reached: a ring of two slots, one producer pushing twice.
  function OnePushed<T>(a: T, slot: T): (s: State<T>) {
    State(1, 1, 1, 0, [a, slot], [Ready], Resting, [a], [0], [], 1)
  }

  function StuckFull<T>(a: T, b: T, slot: T): (s: State<T>) {
    State(1, 1, 1, 0, [a, slot], [Retest(1, b, false)], Resting, [a], [0], [], 2)
  }

  // The accesses of the first push, one by one.
  function Alone<T>(whead: nat, ring: seq<T>, p: Producer<T>, tickets: seq<T>, owners: seq<nat>): (s: State<T>) {
    State(1, 0, whead, 0, ring, [p], Resting, tickets, owners, [], 1)
  }

  lemma TwoSlots()
    ensures Pow2(1) == 2 && Mask(1) == 1
  {
    assert Pow2(1) == 2 * Pow2(0);
  }

  lemma BeginsAlone<T>(a: T, slot: T)
    requires Pow2(1) == 2
    ensures Next(Start(1, [slot, slot], 1), BeginPush(0, a)) == Alone(0, [slot, slot], Loop(0, a), [], [])
  {
    assert Start(1, [slot, slot], 1).producers == [Producer<T>.Ready];
  }

  lemma ReservesAlone<T>(a: T, slot: T)
    requires Pow2(1) == 2 && Mask(1) == 1
    ensures Next(Alone(0, [slot, slot], Loop(0, a), [], []), PushAccess(0)) == Alone(0, [slot, slot], Reserve(0, a), [], [])
    ensures Next(Alone(0, [slot, slot], Reserve(0, a), [], []), PushAccess(0)) == Alone(1, [slot, slot], Retest(0, a, true), [a], [0])
    ensures Next(Alone(1, [slot, slot], Retest(0, a, true), [a], [0]), PushAccess(0)) == Alone(1, [slot, slot], Write(0, a), [a], [0])
  {
  }

  lemma PublishesAlone<T>(a: T, slot: T)
    requires Pow2(1) == 2
    ensures Next(Alone(1, [slot, slot], Write(0, a), [a], [0]), PushAccess(0)) == Alone(1, [a, slot], Publish(0, a), [a], [0])
    ensures Next(Alone(1, [a, slot], Publish(0, a), [a], [0]), PushAccess(0)) == OnePushed(a, slot)
  {
  }

  lemma FirstPush<T>(a: T, slot: T)
    ensures Pow2(1) == 2
    ensures
      var push := PushAccess(0);
      Exec(Start(1, [slot, slot], 1), [BeginPush(0, a), push, push, push, push, push]) == OnePushed(a, slot)
  {
    hide Next, Start;
    TwoSlots();
    BeginsAlone(a, slot);
    ReservesAlone(a, slot);
    PublishesAlone(a, slot);
    var push: Action<T> := PushAccess(0);
    StartRing(slot);
    ExecChain(Start(1, [slot, slot], 1), [BeginPush(0, a), push, push, push, push, push],
              [Start(1, [slot, slot], 1), Alone(0, [slot, slot], Loop(0, a), [], []), Alone(0, [slot, slot], Reserve(0, a), [], []),
               Alone(1, [slot, slot], Retest(0, a, true), [a], [0]), Alone(1, [slot, slot], Write(0, a), [a], [0]),
               Alone(1, [a, slot], Publish(0, a), [a], [0]), OnePushed(a, slot)]);
  }

  lemma StartRing<T>(slot: T)
    ensures Start(1, [slot, slot], 1).bits == 1 && |Start(1, [slot, slot], 1).ring| == 2
  {
  }

  lemma SecondPush<T>(a: T, b: T, slot: T)
    requires Pow2(1) == 2
    ensures Exec(OnePushed(a, slot), [BeginPush(0, b), PushAccess(0)]) == StuckFull(a, b, slot)
    ensures Inv(StuckFull(a, b, slot))
  {
    var s0 := OnePushed(a, slot);
    var s1 := Next(s0, BeginPush(0, b));
    var s2 := Next(s1, PushAccess(0));
    ExecChain(s0, [BeginPush(0, b), PushAccess(0)], [s0, s1, s2]);
    assert Window([a, slot], 1, 0, 1) == [a];
  }

  // A complete run, from the empty queue, that breaks head <= whead.
  lemma TicketsFail<T>(a: T, b: T, slot: T)
    ensures
      var push := PushAccess(0);
      var run := [BeginPush(0, a), push, push, push, push, push] + ([BeginPush(0, b), push]
        + ([PopAccess, PopAccess, PopAccess, PopAccess] + [push, push, push]));
      |[slot, slot]| == Pow2(1) && Exec(Start(1, [slot, slot], 1), run).whead < Exec(Start(1, [slot, slot], 1), run).head
  {
    var push: Action<T> := PushAccess(0);
    var run2: seq<Action<T>> := [BeginPush(0, b), push];
    var run3: seq<Action<T>> := [PopAccess, PopAccess, PopAccess, PopAccess] + [push, push, push];
    FirstPush(a, slot);
    SecondPush(a, b, slot);
    OvertakenPush(StuckFull(a, b, slot), 0);
    hide Inv, Next;
    ExecAppend(OnePushed(a, slot), run2, run3);
    ExecAppend(Start(1, [slot, slot], 1), [BeginPush(0, a), push, push, push, push, push], run2 + run3);
  }

  // ------------------------------------------------------------- the queue object

  // miso_queue with its fields updated in place, together with the program
  // positions of the threads that use it.
  class Queue<T> {
    const bits: nat
    var head: nat
    var whead: nat
    var tail: nat
    const slots: array<T>
    var producers: seq<Producer<T>>
    var consumer: Consumer<T>
    ghost var tickets: seq<T>
    ghost var owners: seq<nat>
    ghost var popped: seq<T>
    ghost var begun: nat

    constructor (bits: nat, storage: array<T>, producerCount: nat)
      requires storage.Length == Pow2(bits)
      ensures slots == storage && View() == Start(bits, storage[..], producerCount) && Inv(View())
    {
      this.bits := bits;
      head, whead, tail := 0, 0, 0;
      slots := storage;
      producers := seq(producerCount, _ => Ready);
      consumer := Resting;
      tickets, owners, popped, begun := [], [], [], 0;
      new;
      StartInv(bits, storage[..], producerCount);
    }

    ghost function View(): (s: State<T>)
      reads this, slots
    {
      State(bits, head, whead, tail, slots[..], producers, consumer, tickets, owners, popped, begun)
    }

    method BeginPush(i: nat, val: T)
      requires i < |producers| && producers[i].Ready? && slots.Length == Pow2(bits)
      modifies this`producers, this`begun
      ensures View() == Next(old(View()), Action.BeginPush(i, val))
    {
      producers := producers[i := Loop(head, val)];
      begun := begun + 1;
    }

    method PushAccess(i: nat)
      requires i < |producers| && slots.Length == Pow2(bits)
      modifies this`head, this`whead, this`producers, this`tickets, this`owners, slots
      ensures View() == Next(old(View()), Action.PushAccess(i))
    {
      match producers[i] {
        case Ready =>
        case Loop(h, val) =>
          producers := producers[i := if h - tail < Mask(bits) then Reserve(h, val) else Retest(h, val, false)];
        case Reserve(h, val) =>
          if whead == h {
            whead := h + 1;
            tickets, owners := tickets + [val], owners + [i];
            producers := producers[i := Retest(h, val, true)];
          } else {
            producers := producers[i := Reload(val)];
          }
        case Reload(val) =>
          producers := producers[i := Loop(whead, val)];
        case Retest(h, val, _) =>
          producers := producers[i := if h - tail >= Mask(bits) then Ready else Write(h, val)];
        case Write(h, val) =>
          slots[Slot(h, bits)] := val;
          producers := producers[i := Publish(h, val)];
        case Publish(h, val) =>
          if head == h {
            head := h + 1;
            producers := producers[i := Ready];
          }
      }
    }

    method PopAccess()
      requires slots.Length == Pow2(bits)
      modifies this`tail, this`consumer, this`popped
      ensures View() == Next(old(View()), Action.PopAccess)
    {
      match consumer {
        case Resting => consumer := LoadHead;
        case LoadHead => consumer := if tail == head then Resting else LoadCell;
        case LoadCell => consumer := Bump(slots[Slot(tail, bits)]);
        case Bump(val) =>
          tail := tail + 1;
          popped := popped + [val];
          consumer := Resting;
      }
    }
  }
}
