// Whole calls on the many-producer ring: when push and pop give up, and what a call does
// that runs alone.
module MisoCalls {
  import opened Ring
  import opened MisoQueue

  // Each test of push: the loop ends because of a full queue exactly if MASK values are
  // reserved or waiting, a reservation fails exactly if another one came first, push gives
  // up exactly if its last test finds the queue full, and publishing waits exactly for
  // earlier tickets. What the tests compare with MASK is then the number of reserved
  // values that are not popped.
  lemma PushGivesUpIff<T>(s: State<T>, i: nat)
    requires Inv(s) && i < |s.producers|
    ensures
      var p, q := s.producers[i], PushStep(s, i).producers[i];
      && (p.Loop? ==> q == if p.h - s.tail < Mask(s.bits) then Reserve(p.h, p.val) else Retest(p.h, p.val, false))
      && (p.Loop? && q.Retest? ==> s.whead == s.tail + Mask(s.bits))
      && (p.Reserve? ==> q == if s.whead == p.h then Retest(p.h, p.val, true) else Reload(p.val))
      && (p.Reload? ==> q == Loop(s.whead, p.val))
      && (p.Retest? ==> q == if p.h - s.tail >= Mask(s.bits) then Ready else Write(p.h, p.val))
      && (p.Retest? && q.Ready? ==> !p.owned && s.whead == s.tail + Mask(s.bits))
      && (p.Write? ==> q == Publish(p.h, p.val))
      && (p.Publish? ==> q == if s.head == p.h then Ready else p)
  {
    assert ProducerOk(s, i);
    hide Window;
  }

  // pop gives up exactly if no value is published.
  lemma PopGivesUpIff<T>(s: State<T>)
    requires Inv(s)
    ensures
      var c := PopStep(s).consumer;
      && (s.consumer.Resting? ==> c.LoadHead?)
      && (s.consumer.LoadHead? ==> c == if s.tail == s.head then Resting else LoadCell)
      && (s.consumer.LoadCell? ==> c == Bump(s.tickets[s.tail]))
      && (s.consumer.Bump? ==> c.Resting?)
  {
    if s.consumer.LoadCell? {
      WindowFront(s.ring, s.bits, s.tail, s.head);
      assert s.tickets[s.tail..s.head][0] == s.tickets[s.tail];
    }
  }

  lemma ExecOne<T>(s: State<T>, a: Action<T>, others: seq<Action<T>>)
    requires |s.ring| == Pow2(s.bits)
    ensures Exec(s, [a] + others) == Exec(Next(s, a), others) && Exec(s, []) == s
  {
    hide Next;
    assert ([a] + others)[1..] == others;
  }

  lemma AtTwice<T>(s: State<T>, i: nat, p: Producer<T>, q: Producer<T>)
    requires i < |s.producers|
    ensures At(At(s, i, p), i, q) == At(s, i, q) && At(s, i, s.producers[i]) == s
  {
  }

  // The accesses of push, as steps of the queue.
  lemma PushIs<T>(s: State<T>, i: nat)
    requires |s.ring| == Pow2(s.bits) && i < |s.producers|
    ensures Next(s, Action<T>.PushAccess(i)) == PushStep(s, i)
  {
  }

  // What a push by producer i leaves that has given up.
  function Begun<T>(s: State<T>): (r: State<T>) {
    s.(begun := s.begun + 1)
  }

  // Whatever the others have reserved or not yet published: a push on a queue with MASK
  // values reserved or waiting, run alone, comes back and changes nothing.
  lemma FullPushReturns<T>(s: State<T>, i: nat, val: T)
    requires Inv(s) && i < |s.producers| && s.producers[i].Ready? && s.whead == s.tail + Mask(s.bits)
    ensures
      var a := Action<T>.PushAccess(i);
      && (s.head == s.whead ==> Exec(s, [BeginPush(i, val)] + [a, a]) == Begun(s))
      && (s.head < s.whead ==> Exec(s, [BeginPush(i, val)] + [a, a, a, a, a]) == Begun(s))
  {
    var a: Action<T> := Action<T>.PushAccess(i);
    HeadBelow(s);
    hide Inv, Exec, Next, At;
    BeginIs(s, i, val);
    if s.head == s.whead {
      GivesUp(s, i, val, s.head);
      ExecOne(s, BeginPush(i, val), [a, a]);
    } else {
      ExecOne(s, BeginPush(i, val), [a, a, a, a, a]);
      TriesAgain(s, i, val, [a, a]);
      assert [a, a, a] + [a, a] == [a, a, a, a, a];
      GivesUp(s, i, val, s.whead);
    }
  }

  lemma BeginIs<T>(s: State<T>, i: nat, val: T)
    requires |s.ring| == Pow2(s.bits) && i < |s.producers| && s.producers[i].Ready?
    ensures Next(s, BeginPush(i, val)) == At(Begun(s), i, Loop(s.head, val))
  {
  }

  // A push whose reservation comes too late reads whead and tests again.
  lemma TriesAgain<T>(s: State<T>, i: nat, val: T, others: seq<Action<T>>)
    requires |s.ring| == Pow2(s.bits) && i < |s.producers| && s.head != s.whead && s.head - s.tail < Mask(s.bits)
    ensures
      var a := Action<T>.PushAccess(i);
      Exec(At(Begun(s), i, Loop(s.head, val)), [a, a, a] + others) == Exec(At(Begun(s), i, Loop(s.whead, val)), others)
  {
    var a: Action<T> := Action<T>.PushAccess(i);
    hide Exec;
    assert [a, a, a] + others == [a] + ([a] + ([a] + others));
    var s1 := At(Begun(s), i, Loop(s.head, val));
    ExecOne(s1, a, [a] + ([a] + others));
    var s2 := At(Begun(s), i, Reserve(s.head, val));
    AtTwice(Begun(s), i, s1.producers[i], s2.producers[i]);
    ExecOne(s2, a, [a] + others);
    var s3 := At(Begun(s), i, Reload(val));
    AtTwice(Begun(s), i, s2.producers[i], s3.producers[i]);
    ExecOne(s3, a, others);
    AtTwice(Begun(s), i, s3.producers[i], Loop(s.whead, val));
  }

  lemma HeadBelow<T>(s: State<T>)
    requires Inv(s)
    ensures |s.ring| == Pow2(s.bits) && s.tail <= s.head <= s.whead <= s.tail + Mask(s.bits)
  {
  }

  // The last two accesses of a push that gives up.
  lemma GivesUp<T>(s: State<T>, i: nat, val: T, h: nat)
    requires |s.ring| == Pow2(s.bits) && i < |s.producers| && s.producers[i].Ready? && h - s.tail >= Mask(s.bits)
    ensures
      var a := Action<T>.PushAccess(i);
      Exec(At(Begun(s), i, Loop(h, val)), [a, a]) == Begun(s)
  {
    var a: Action<T> := Action<T>.PushAccess(i);
    hide Exec;
    assert [a, a] == [a] + ([a] + []);
    var s1 := At(Begun(s), i, Loop(h, val));
    ExecOne(s1, a, [a] + []);
    var s2 := At(Begun(s), i, Retest(h, val, false));
    AtTwice(Begun(s), i, s1.producers[i], s2.producers[i]);
    ExecOne(s2, a, []);
    AtTwice(Begun(s), i, s2.producers[i], Ready);
    ExecOne(Begun(s), a, []);
  }

  // A push, run alone, on a queue with room and nothing half published takes the next
  // ticket and publishes it.
  lemma PushAlone<T>(s: State<T>, i: nat, val: T)
    requires Inv(s) && i < |s.producers| && s.producers[i].Ready? && s.head == s.whead < s.tail + Mask(s.bits)
    ensures
      var a := Action<T>.PushAccess(i);
      var t := Exec(s, [BeginPush(i, val)] + [a, a, a, a, a]);
      && Inv(t)
      && t == Begun(s).(ring := t.ring, head := s.head + 1, whead := s.whead + 1,
                        tickets := s.tickets + [val], owners := s.owners + [i])
  {
    var a: Action<T> := Action<T>.PushAccess(i);
    HeadBelow(s);
    hide Inv, Exec;
    assert [a, a, a, a, a] == [a] + ([a] + [a, a, a]);
    ExecOne(s, BeginPush(i, val), [a] + ([a] + [a, a, a]));
    var s1 := At(Begun(s), i, Loop(s.head, val));
    Good(s, BeginPush(i, val), s1);
    ExecOne(s1, a, [a] + [a, a, a]);
    var s2 := At(Begun(s), i, Reserve(s.head, val));
    AtTwice(Begun(s), i, s1.producers[i], s2.producers[i]);
    Good(s1, a, s2);
    ExecOne(s2, a, [a, a, a]);
    var r := Reserved(s, i, val);
    AtTwice(r, i, s2.producers[i], Retest(s.head, val, true));
    Good(s2, a, At(r, i, Retest(s.head, val, true)));
    Publishes(r, i, val, s.head);
  }

  function Reserved<T>(s: State<T>, i: nat, val: T): (r: State<T>) {
    Begun(s).(whead := s.whead + 1, tickets := s.tickets + [val], owners := s.owners + [i])
  }

  // The accesses of a push that has its ticket, when all earlier ones are published.
  lemma Publishes<T>(r: State<T>, i: nat, val: T, h: nat)
    requires i < |r.producers| && r.producers[i].Ready? && |r.ring| == Pow2(r.bits)
    requires Inv(At(r, i, Retest(h, val, true))) && h == r.head && h - r.tail < Mask(r.bits)
    ensures
      var a := Action<T>.PushAccess(i);
      var t := Exec(At(r, i, Retest(h, val, true)), [a, a, a]);
      Inv(t) && t == r.(ring := t.ring, head := h + 1)
  {
    var a: Action<T> := Action<T>.PushAccess(i);
    hide Inv, Exec;
    assert [a, a, a] == [a] + ([a] + ([a] + []));
    var s3 := At(r, i, Retest(h, val, true));
    ExecOne(s3, a, [a] + ([a] + []));
    var s4 := At(r, i, Write(h, val));
    AtTwice(r, i, s3.producers[i], s4.producers[i]);
    Good(s3, a, s4);
    ExecOne(s4, a, [a] + []);
    var w := r.(ring := Put(r.ring, r.bits, h, val));
    var s5 := At(w, i, Publish(h, val));
    AtTwice(w, i, s4.producers[i], s5.producers[i]);
    Good(s4, a, s5);
    ExecOne(s5, a, []);
    AtTwice(w, i, s5.producers[i], Ready);
    Good(s5, a, w.(head := h + 1));
    ExecOne(w.(head := h + 1), a, []);
  }

  lemma Good<T>(s: State<T>, a: Action<T>, t: State<T>)
    requires Inv(s) && !Rogue(s, a) && t == Next(s, a)
    ensures Inv(t)
  {
    NextKeepsIff(s, a);
  }

  // pop, run alone, returns the value of the oldest ticket if it is published, and
  // otherwise changes nothing.
  lemma PopAlone<T>(s: State<T>)
    requires Inv(s) && s.consumer.Resting?
    ensures s.tail <= s.head <= |s.tickets|
    ensures s.tail == s.head ==> Exec(s, [PopAccess, PopAccess]) == s
    ensures s.tail < s.head ==>
      Exec(s, [PopAccess, PopAccess, PopAccess, PopAccess]) ==
        s.(tail := s.tail + 1, popped := s.popped + [s.tickets[s.tail]])
  {
    var p: Action<T> := PopAccess;
    HeadBelow(s);
    var s1 := s.(consumer := LoadHead);
    Good(s, p, s1);
    PopGivesUpIff(s1);
    hide Exec;
    assert [p, p] == [p] + ([p] + []) && [p, p, p, p] == [p] + ([p] + ([p] + ([p] + [])));
    ExecOne(s, p, [p] + []);
    ExecOne(s, p, [p] + ([p] + ([p] + [])));
    ExecOne(s1, p, []);
    ExecOne(s1, p, [p] + ([p] + []));
    if s.tail == s.head {
      ExecOne(s, p, []);
    } else {
      var s2 := s.(consumer := LoadCell);
      Good(s1, p, s2);
      PopGivesUpIff(s2);
      ExecOne(s2, p, [p] + []);
      var s3 := s.(consumer := Bump(s.tickets[s.tail]));
      ExecOne(s3, p, []);
      ExecOne(Next(s3, p), p, []);
    }
  }
}
