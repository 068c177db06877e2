// The rule for callers of miso_queue is exact: one push begun against it is enough to let
// a producer publish an index nobody reserved.
module MisoDiscipline {
  import opened Ring
  import opened MisoQueue

  // Apart from other producers and what they publish, nothing changed.
  ghost predicate OthersMoved<T>(s: State<T>, t: State<T>, i: nat) {
    && t.bits == s.bits && t.tail == s.tail && t.consumer == s.consumer && t.popped == s.popped
    && |t.producers| == |s.producers| && (i < |s.producers| ==> t.producers[i] == s.producers[i])
  }

  function PushOf<T>(j: nat): (a: Action<T>) {
    PushAccess(j)
  }

  lemma OneAccess<T>(s: State<T>, a: Action<T>)
    requires |s.ring| == Pow2(s.bits)
    ensures Exec(s, [a]) == Next(s, a)
  {
    assert [a][1..] == [];
  }

  // Producer i holds no ticket: it waits at its loop, or its loop found the queue full.
  predicate NoTicket<T>(p: Producer<T>) {
    p.Loop? || p.Reload? || p.Reserve? || (p.Retest? && !p.owned)
  }

  function StepsLeft<T>(p: Producer<T>): (r: nat) {
    match p
    case Retest(_, _, _) => 3
    case Write(_, _) => 2
    case Publish(_, _) => 1
    case _ => 0
  }

  // The producers with tickets publish, in ticket order.
  lemma {:induction false} PublishAll<T>(s: State<T>, i: nat) returns (run: seq<Action<T>>)
    requires Inv(s) && i < |s.producers| && NoTicket(s.producers[i])
    ensures |s.ring| == Pow2(s.bits) && NeverBegins(run)
    ensures
      var t := Exec(s, run);
      && Inv(t) && OthersMoved(s, t, i) && t.whead == s.whead == t.head && t.tickets == s.tickets
      && CountUnreserved(t.producers) == CountUnreserved(s.producers)
    decreases s.whead - s.head, if s.head < s.whead then StepsLeft(s.producers[s.owners[s.head]]) else 0
  {
    hide Window, Put, Slot, Mask, Pow2;
    if s.head == s.whead {
      run := [];
    } else {
      var j := s.owners[s.head];
      assert Holds(s.producers[j], s.head) && ProducerOk(s, j);
      var t := Next(s, PushOf(j));
      NextKeepsIff(s, PushOf(j));
      CountAfterMove(s.producers, j, t.producers[j]);
      assert t.producers == s.producers[j := t.producers[j]];
      var rest := PublishAll(t, i);
      run := [PushOf(j)] + rest;
      assert run[1..] == rest;
    }
  }

  // No further push begins.
  predicate NeverBegins<T>(run: seq<Action<T>>) {
    forall k :: 0 <= k < |run| ==> !run[k].BeginPush?
  }

  function TriesLeft<T>(s: State<T>, p: Producer<T>): (r: nat) {
    match p
    case Loop(h, _) => if h == s.whead then 2 else 5
    case Reserve(h, _) => if h == s.whead then 1 else 4
    case Reload(_) => 3
    case _ => 0
  }

  // An unreserved producer takes a ticket while there is room.
  lemma {:induction false} TakeTicket<T>(s: State<T>, i: nat, j: nat) returns (run: seq<Action<T>>)
    requires Inv(s) && i < |s.producers| && j < |s.producers| && i != j && Unreserved(s.producers[j])
    requires s.whead < s.tail + Mask(s.bits)
    ensures |s.ring| == Pow2(s.bits) && NeverBegins(run)
    ensures
      var t := Exec(s, run);
      && Inv(t) && OthersMoved(s, t, i) && t.whead == s.whead + 1
      && CountUnreserved(t.producers) + 1 == CountUnreserved(s.producers)
    decreases TriesLeft(s, s.producers[j])
  {
    assert ProducerOk(s, j);
    var t := Next(s, PushOf(j));
    NextKeepsIff(s, PushOf(j));
    CountAfterMove(s.producers, j, t.producers[j]);
    assert t.producers == s.producers[j := t.producers[j]];
    if t.whead != s.whead {
      run := [PushOf(j)];
      OneAccess(s, PushOf(j));
    } else {
      var rest := TakeTicket(t, i, j);
      run := [PushOf(j)] + rest;
      assert run[1..] == rest;
    }
  }

  lemma {:induction false} SomeUnreserved<T>(ps: seq<Producer<T>>) returns (j: nat)
    requires 1 <= CountUnreserved(ps)
    ensures j < |ps| && Unreserved(ps[j])
  {
    if Unreserved(ps[0]) {
      j := 0;
    } else {
      var k := SomeUnreserved(ps[1..]);
      j := k + 1;
    }
  }

  lemma AnotherUnreserved<T>(ps: seq<Producer<T>>, i: nat) returns (j: nat)
    requires i < |ps| && 2 <= CountUnreserved(ps)
    ensures j < |ps| && j != i && Unreserved(ps[j])
  {
    CountAfterMove(ps, i, Ready);
    j := SomeUnreserved(ps[i := Ready]);
  }

  // All producers but i take their tickets.
  lemma {:induction false} TakeTickets<T>(s: State<T>, i: nat) returns (run: seq<Action<T>>)
    requires Inv(s) && i < |s.producers| && s.producers[i].Loop?
    requires s.whead + CountUnreserved(s.producers) == s.tail + Mask(s.bits) + 1
    ensures |s.ring| == Pow2(s.bits) && NeverBegins(run)
    ensures
      var t := Exec(s, run);
      Inv(t) && OthersMoved(s, t, i) && t.whead == t.tail + Mask(t.bits)
    decreases CountUnreserved(s.producers)
  {
    CountAfterMove(s.producers, i, Ready);
    if CountUnreserved(s.producers) == 1 {
      run := [];
    } else {
      var j := AnotherUnreserved(s.producers, i);
      var first := TakeTicket(s, i, j);
      var t := Exec(s, first);
      var rest := TakeTickets(t, i);
      run := first + rest;
      ExecAppend(s, first, rest);
    }
  }

  // With the ring full, a producer at its loop finds it full, whatever index it had read.
  lemma SeesFull<T>(s: State<T>, i: nat) returns (run: seq<Action<T>>)
    requires Inv(s) && i < |s.producers| && s.producers[i].Loop? && s.whead == s.tail + Mask(s.bits)
    ensures |s.ring| == Pow2(s.bits) && NeverBegins(run)
    ensures Exec(s, run) == At(s, i, Retest(s.whead, s.producers[i].val, false))
  {
    var h, val := s.producers[i].h, s.producers[i].val;
    assert ProducerOk(s, i);
    hide Inv;
    if h == s.whead {
      run := [PushOf(i)];
      OneAccess(s, PushOf(i));
    } else {
      run := [PushOf(i), PushOf(i), PushOf(i), PushOf(i)];
      var s1 := At(s, i, Reserve(h, val));
      assert Next(s, PushOf(i)) == s1;
      var s2 := At(s, i, Reload(val));
      assert Next(s1, PushOf(i)) == s2;
      var s3 := At(s, i, Loop(s.whead, val));
      assert Next(s2, PushOf(i)) == s3;
      var s4 := At(s, i, Retest(s.whead, val, false));
      assert Next(s3, PushOf(i)) == s4;
      hide Next, At;
      ExecChain(s, run, [s, s1, s2, s3, s4]);
    }
  }

  // The consumer, wherever it is, completes one pop.
  lemma PopOnce<T>(s: State<T>) returns (run: seq<Action<T>>)
    requires Inv(s) && s.tail < s.head
    ensures |s.ring| == Pow2(s.bits) && NeverBegins(run)
    ensures
      var t := Exec(s, run);
      && t.bits == s.bits && |t.ring| == |s.ring| && t.tail == s.tail + 1 && t.head == s.head && t.whead == s.whead
      && t.producers == s.producers
    decreases match s.consumer case Resting => 3 case LoadHead => 2 case LoadCell => 1 case Bump(_) => 0
  {
    var t := Next(s, PopAccess);
    if s.consumer.Bump? {
      run := [PopAccess];
      OneAccess(s, PopAccess);
    } else {
      NextKeepsIff(s, PopAccess);
      var rest := PopOnce(t);
      run := [PopAccess] + rest;
      assert run[1..] == rest;
    }
  }

  // A producer past a full test without a ticket, and room again: it publishes an index
  // beyond all tickets.
  lemma PassesUnreserved<T>(s: State<T>, i: nat)
    requires |s.ring| == Pow2(s.bits) && i < |s.producers| && s.producers[i].Retest?
    requires s.producers[i].h == s.head == s.whead && s.producers[i].h - s.tail < Mask(s.bits)
    ensures
      var t := Exec(s, [PushOf(i), PushOf(i), PushOf(i)]);
      t.head == s.head + 1 && t.whead == s.whead
  {
    var h, val := s.producers[i].h, s.producers[i].val;
    var s1 := At(s, i, Write(h, val));
    assert Next(s, PushOf(i)) == s1;
    var s2 := At(s, i, Publish(h, val)).(ring := Put(s.ring, s.bits, h, val));
    assert Next(s1, PushOf(i)) == s2;
    var s3 := Next(s2, PushOf(i));
    hide Next, At;
    ExecChain(s, [PushOf(i), PushOf(i), PushOf(i)], [s, s1, s2, s3]);
  }

  // Every producer that leaves its loop because the queue is full can be overtaken: the
  // others publish, one pop completes, and it publishes an index nobody reserved.
  lemma FullExitOvertaken<T>(s: State<T>, i: nat) returns (run: seq<Action<T>>)
    requires Inv(s) && i < |s.producers| && s.producers[i].Retest? && !s.producers[i].owned && 1 <= Mask(s.bits)
    requires s.tail + Mask(s.bits) <= s.producers[i].h <= s.whead
    ensures |s.ring| == Pow2(s.bits) && NeverBegins(run)
    ensures Exec(s, run).whead < Exec(s, run).head
  {
    var publish := PublishAll(s, i);
    var s1 := Exec(s, publish);
    var pop := PopOnce(s1);
    var s2 := Exec(s1, pop);
    hide Inv, Next;
    PassesUnreserved(s2, i);
    var push: seq<Action<T>> := [PushOf(i), PushOf(i), PushOf(i)];
    ExecAppend(s1, pop, push);
    ExecAppend(s, publish, pop + push);
    run := publish + (pop + push);
  }

  // The converse of the rule: from any good state in which MASK values are under way, a
  // push that begins can go wrong, although no other push begins after it.
  lemma UndisciplinedFails<T>(s: State<T>, i: nat, val: T) returns (run: seq<Action<T>>)
    requires Inv(s) && Bounded(s) && i < |s.producers| && s.producers[i].Ready? && 1 <= Mask(s.bits)
    requires !Disciplined(s, BeginPush(i, val))
    ensures NeverBegins(run) && |Next(s, BeginPush(i, val)).ring| == Pow2(s.bits)
    ensures
      var t := Exec(Next(s, BeginPush(i, val)), run);
      t.whead < t.head
  {
    var s0 := Next(s, BeginPush(i, val));
    NextKeepsIff(s, BeginPush(i, val));
    CountAfterMove(s.producers, i, s0.producers[i]);
    hide Next;
    var take := TakeTickets(s0, i);
    var s1 := Exec(s0, take);
    var publish := PublishAll(s1, i);
    var s2 := Exec(s1, publish);
    var see := SeesFull(s2, i);
    var s3 := Exec(s2, see);
    SeenIsGood(s2, i);
    var rest := FullExitOvertaken(s3, i);
    hide Inv;
    ExecAppend(s2, see, rest);
    ExecAppend(s1, publish, see + rest);
    ExecAppend(s0, take, publish + (see + rest));
    run := take + (publish + (see + rest));
  }

  lemma SeenIsGood<T>(s: State<T>, i: nat)
    requires Inv(s) && i < |s.producers| && s.producers[i].Loop?
    ensures Inv(At(s, i, Retest(s.whead, s.producers[i].val, false)))
  {
    MoveKeeps(s, i, Retest(s.whead, s.producers[i].val, false));
  }

  // A good run ends with head not beyond whead.
  lemma {:induction false} GoodEnds<T>(s: State<T>, run: seq<Action<T>>)
    requires GoodThroughout(s, run)
    ensures |s.ring| == Pow2(s.bits) && Exec(s, run).head <= Exec(s, run).whead
    decreases |run|
  {
    if run != [] {
      GoodEnds(Next(s, run[0]), run[1..]);
    }
  }

  lemma NotGood<T>(s: State<T>, run: seq<Action<T>>)
    requires |s.ring| == Pow2(s.bits) && Exec(s, run).whead < Exec(s, run).head
    ensures !GoodThroughout(s, run)
  {
    hide Exec;
    if GoodThroughout(s, run) {
      GoodEnds(s, run);
      assert false;
    }
  }

  lemma {:induction false} NoBeginIsDisciplined<T>(s: State<T>, run: seq<Action<T>>)
    requires |s.ring| == Pow2(s.bits) && NeverBegins(run)
    ensures DisciplinedRun(s, run)
    decreases |run|
  {
    if run != [] {
      assert NeverBegins(run[1..]);
      NoBeginIsDisciplined(Next(s, run[0]), run[1..]);
    }
  }

  // The rule is exact: a push may begin if and only if nothing that callers do according
  // to the rule afterwards can break the ticket protocol.
  lemma DisciplineIsExact<T>(s: State<T>, i: nat, val: T)
    requires Inv(s) && Bounded(s) && i < |s.producers| && s.producers[i].Ready? && 1 <= Mask(s.bits)
    ensures |Next(s, BeginPush(i, val)).ring| == Pow2(Next(s, BeginPush(i, val)).bits)
    ensures
      Disciplined(s, BeginPush(i, val)) <==>
      forall run :: DisciplinedRun(Next(s, BeginPush(i, val)), run) ==> GoodThroughout(Next(s, BeginPush(i, val)), run)
  {
    var s0 := Next(s, BeginPush(i, val));
    assert |s0.ring| == Pow2(s0.bits);
    if Disciplined(s, BeginPush(i, val)) {
      DisciplineKeeps(s, BeginPush(i, val));
      NextKeepsIff(s, BeginPush(i, val));
      forall run | DisciplinedRun(s0, run) ensures GoodThroughout(s0, run) {
        DisciplinedStaysGood(s0, run);
      }
    } else {
      var run := UndisciplinedFails(s, i, val);
      NoBeginIsDisciplined(s0, run);
      NotGood(s0, run);
      hide Inv, Next, Bounded, Disciplined, DisciplinedRun, GoodThroughout;
      assert DisciplinedRun(Next(s, BeginPush(i, val)), run) && !GoodThroughout(Next(s, BeginPush(i, val)), run);
    }
  }
}
