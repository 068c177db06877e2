// Whole calls on the one-producer ring: when push and pop give up, and what a call does
// that runs alone.
module SimoCalls {
  import opened Ring
  import opened SimoQueue

  // A consumer gives up exactly if no published value is waiting at the index it read, and
  // its CAS wins exactly if no other consumer took that value first; having lost, it reads
  // tail again.
  lemma PopGivesUpIff<T>(s: State<T>, i: nat)
    requires Inv(s) && i < |s.consumers|
    ensures
      var c, t := s.consumers[i], PopStep(s, i);
      && (c.Resting? ==> t.consumers[i] == LoadHead(s.tail))
      && (c.LoadHead? ==> t.consumers[i] == if c.t == s.head then Resting else LoadCell(c.t))
      && (c.LoadCell? && c.t == s.tail ==> t.consumers[i] == Swap(c.t, s.pushed[s.tail]))
      && (c.LoadCell? ==> t.consumers[i].Swap? && t.consumers[i].t == c.t)
      && (c.Swap? ==>
           if s.tail == c.t then t.consumers[i].Resting? && t.taken == s.taken + [s.pushed[s.tail]]
           else t.consumers[i] == LoadHead(s.tail) && t.taken == s.taken)
  {
    assert ConsumerOk(s.consumers[i], s.head, s.tail, s.ring, s.bits);
    if (s.consumers[i].LoadCell? || s.consumers[i].Swap?) && s.consumers[i].t == s.tail {
      WindowFront(s.ring, s.bits, s.tail, Stored(s));
      assert s.pushed[s.tail..][0] == s.pushed[s.tail];
    }
  }

  lemma ExecOne<T>(s: State<T>, a: Action<T>, others: seq<Action<T>>)
    requires |s.ring| == Pow2(s.bits)
    ensures Exec(s, [a] + others) == Exec(Next(s, a), others) && Exec(s, []) == s
  {
    hide Next;
    assert ([a] + others)[1..] == others;
  }

  // Wherever the consumers stand: push, run alone, publishes its value if fewer than MASK
  // values are waiting, and otherwise changes nothing.
  lemma PushAlone<T>(s: State<T>, val: T)
    requires Inv(s) && s.producer.Ready?
    ensures
      var t := Exec(s, [BeginPush(val), PushAccess, PushAccess, PushAccess]);
      |s.pushed| - |s.taken| < Mask(s.bits) ==>
        t == s.(ring := t.ring, head := s.head + 1, pushed := s.pushed + [val])
    ensures |s.pushed| - |s.taken| == Mask(s.bits) ==> Exec(s, [BeginPush(val), PushAccess]) == s
  {
    var p, o := BeginPush(val), Action<T>.PushAccess;
    assert |s.ring| == Pow2(s.bits) && |s.taken| == s.tail && |s.pushed| == s.head;
    hide Inv, Exec;
    assert [p, o] == [p] + ([o] + []) && [p, o, o, o] == [p] + ([o] + ([o] + ([o] + [])));
    ExecOne(s, p, [o] + []);
    ExecOne(s, p, [o] + ([o] + ([o] + [])));
    var s1 := s.(producer := Test(val));
    ExecOne(s1, o, []);
    ExecOne(s1, o, [o] + ([o] + []));
    if |s.pushed| - |s.taken| < Mask(s.bits) {
      var s2 := s.(producer := Write(val));
      ExecOne(s2, o, [o] + []);
      var s3 := s.(ring := Put(s.ring, s.bits, s.head, val), producer := Bump, pushed := s.pushed + [val]);
      ExecOne(s3, o, []);
      ExecOne(s3.(head := s.head + 1, producer := Ready), o, []);
    } else {
      ExecOne(s, o, []);
    }
  }

  function With<T>(s: State<T>, i: nat, c: Consumer<T>): (r: State<T>)
    requires i < |s.consumers|
  {
    s.(consumers := s.consumers[i := c])
  }

  lemma WithTwice<T>(s: State<T>, i: nat, a: Consumer<T>, b: Consumer<T>)
    requires i < |s.consumers|
    ensures With(With(s, i, a), i, b) == With(s, i, b) && With(s, i, s.consumers[i]) == s
  {
  }

  // An access of consumer i that changes only where it stands.
  lemma PopMoves<T>(s: State<T>, i: nat, c: Consumer<T>, others: seq<Action<T>>)
    requires Inv(s) && i < |s.consumers| && PopStep(s, i) == With(s, i, c)
    ensures Inv(With(s, i, c))
    ensures Exec(s, [Action<T>.PopAccess(i)] + others) == Exec(With(s, i, c), others)
  {
    NextKeeps(s, Action<T>.PopAccess(i));
    ExecOne(s, Action<T>.PopAccess(i), others);
  }

  lemma PopStepIs<T>(s: State<T>, i: nat)
    requires Inv(s) && i < |s.consumers| && (s.consumers[i].Swap? ==> s.consumers[i].t != s.tail)
    ensures PopStep(s, i) == With(s, i, PopStep(s, i).consumers[i])
  {
    hide Inv;
  }

  // Wherever the producer and the other consumers stand: pop, run alone, takes the oldest
  // value that is waiting if one is published, and otherwise changes nothing.
  lemma PopAlone<T>(s: State<T>, i: nat)
    requires Inv(s) && i < |s.consumers| && s.consumers[i].Resting?
    ensures s.tail <= s.head <= |s.pushed|
    ensures
      var p := Action<T>.PopAccess(i);
      && (s.tail == s.head ==> Exec(s, [p, p]) == s)
      && (s.tail < s.head ==>
           Exec(s, [p, p, p, p]) == s.(tail := s.tail + 1, taken := s.taken + [s.pushed[s.tail]]))
  {
    var p: Action<T> := Action<T>.PopAccess(i);
    assert s.tail <= s.head <= |s.pushed|;
    hide Inv, Exec, Next, PopStep;
    assert [p, p] == [p] + ([p] + []) && [p, p, p, p] == [p] + ([p] + ([p] + ([p] + [])));
    PopGivesUpIff(s, i);
    PopStepIs(s, i);
    PopMoves(s, i, LoadHead(s.tail), [p] + []);
    PopMoves(s, i, LoadHead(s.tail), [p] + ([p] + ([p] + [])));
    var s1 := With(s, i, LoadHead(s.tail));
    PopGivesUpIff(s1, i);
    PopStepIs(s1, i);
    if s.tail == s.head {
      WithTwice(s, i, LoadHead(s.tail), Resting);
      PopMoves(s1, i, Resting, []);
      Nothing(s);
    } else {
      WithTwice(s, i, LoadHead(s.tail), LoadCell(s.tail));
      PopMoves(s1, i, LoadCell(s.tail), [p] + ([p] + []));
      TakesValue(s, i);
    }
  }

  lemma Nothing<T>(s: State<T>)
    requires |s.ring| == Pow2(s.bits)
    ensures Exec(s, []) == s
  {
  }

  lemma TakesValue<T>(s: State<T>, i: nat)
    requires i < |s.consumers| && s.consumers[i].Resting? && Inv(With(s, i, LoadCell(s.tail)))
    ensures s.tail < |s.pushed|
    ensures
      var p := Action<T>.PopAccess(i);
      var t := With(s, i, LoadCell(s.tail));
      |t.ring| == Pow2(t.bits) && Exec(t, [p] + ([p] + [])) == s.(tail := s.tail + 1, taken := s.taken + [s.pushed[s.tail]])
  {
    var p: Action<T> := Action<T>.PopAccess(i);
    var s2 := With(s, i, LoadCell(s.tail));
    assert ConsumerOk(s2.consumers[i], s2.head, s2.tail, s2.ring, s2.bits);
    PopGivesUpIff(s2, i);
    PopStepIs(s2, i);
    hide Inv, Exec, PopStep;
    var c := Swap(s.tail, s.pushed[s.tail]);
    WithTwice(s, i, LoadCell(s.tail), c);
    PopMoves(s2, i, c, [p] + []);
    var s3 := With(s, i, c);
    Wins(s3, i);
    ExecOne(s3, p, []);
    WithTwice(s, i, c, Resting);
    Nothing(s.(tail := s.tail + 1, taken := s.taken + [s.pushed[s.tail]]));
  }

  lemma Wins<T>(s: State<T>, i: nat)
    requires |s.ring| == Pow2(s.bits) && i < |s.consumers| && s.consumers[i].Swap? && s.consumers[i].t == s.tail
    ensures Next(s, Action<T>.PopAccess(i)) ==
      With(s, i, Resting).(tail := s.tail + 1, taken := s.taken + [s.consumers[i].val])
  {
  }
}
