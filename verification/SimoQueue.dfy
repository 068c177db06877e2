// simo_queue: one producer, any number of consumers, one shared-memory access per
// step, under sequentially consistent memory.
module SimoQueue {
  import opened Ring

  datatype Producer<T> =
    | Ready
    | Test(val: T)      // about to load tail for the "full" test
    | Write(val: T)     // about to write array[head & MASK]
    | Bump              // about to store head + 1

  datatype Consumer<T> =
    | Resting
    | LoadHead(t: nat)          // about to compare its cached tail with head
    | LoadCell(t: nat)          // about to read array[t & MASK]
    | Swap(t: nat, val: T)      // about to CAS tail

  // pushed and taken are histories: every value push accepted, and every value
  // whose CAS was won, in the order of the winning CASes.
  datatype State<T> = State(
    bits: nat, head: nat, tail: nat, ring: seq<T>,
    producer: Producer<T>, consumers: seq<Consumer<T>>,
    pushed: seq<T>, taken: seq<T>)

  datatype Action<T> =
    | BeginPush(val: T)
    | PushAccess
    | PopAccess(i: nat)

  function Start<T>(bits: nat, ring: seq<T>, consumers: nat): (s: State<T>) {
    State(bits, 0, 0, ring, Ready, seq(consumers, _ => Resting), [], [])
  }

  function PushStep<T>(s: State<T>): (r: State<T>)
    requires |s.ring| == Pow2(s.bits)
  {
    match s.producer
    case Ready => s
    case Test(val) => s.(producer := if s.head - s.tail >= Mask(s.bits) then Ready else Write(val))
    case Write(val) => s.(ring := Put(s.ring, s.bits, s.head, val), producer := Bump, pushed := s.pushed + [val])
    case Bump => s.(head := s.head + 1, producer := Ready)
  }

  function PopStep<T>(s: State<T>, i: nat): (r: State<T>)
    requires |s.ring| == Pow2(s.bits) && i < |s.consumers|
  {
    match s.consumers[i]
    case Resting => s.(consumers := s.consumers[i := LoadHead(s.tail)])
    case LoadHead(t) => s.(consumers := s.consumers[i := if t == s.head then Resting else LoadCell(t)])
    case LoadCell(t) => s.(consumers := s.consumers[i := Swap(t, Cell(s.ring, s.bits, t))])
    case Swap(t, val) =>
      if s.tail == t then s.(tail := t + 1, consumers := s.consumers[i := Resting], taken := s.taken + [val])
      else s.(consumers := s.consumers[i := LoadHead(s.tail)])
  }

  function Next<T>(s: State<T>, a: Action<T>): (r: State<T>)
    requires |s.ring| == Pow2(s.bits)
    ensures r.bits == s.bits && |r.ring| == |s.ring|
  {
    match a
    case BeginPush(val) => if s.producer.Ready? then s.(producer := Test(val)) else s
    case PushAccess => PushStep(s)
    case PopAccess(i) => if i < |s.consumers| then PopStep(s, i) else s
  }

  // ------------------------------------------------------------------ invariant

  ghost predicate ConsumerOk<T>(c: Consumer<T>, head: nat, tail: nat, ring: seq<T>, bits: nat)
    requires |ring| == Pow2(bits)
  {
    match c
    case Resting => true
    case LoadHead(t) => t <= tail
    case LoadCell(t) => t <= tail && (t == tail ==> t < head)
    case Swap(t, v) => t <= tail && (t == tail ==> t < head && v == Cell(ring, bits, t))
  }

  // The number of values push has stored, counting one that head does not
  // cover yet.
  function Stored<T>(s: State<T>): (r: nat) {
    s.head + if s.producer.Bump? then 1 else 0
  }

  ghost predicate Inv<T>(s: State<T>) {
    && |s.ring| == Pow2(s.bits)
    && s.tail <= s.head <= Stored(s) <= s.tail + Mask(s.bits)
    && (s.producer.Write? ==> s.head < s.tail + Mask(s.bits))
    && |s.pushed| == Stored(s)
    && s.taken == s.pushed[..s.tail]
    && Window(s.ring, s.bits, s.tail, Stored(s)) == s.pushed[s.tail..]
    && forall i :: 0 <= i < |s.consumers| ==> ConsumerOk(s.consumers[i], s.head, s.tail, s.ring, s.bits)
  }

  lemma StartInv<T>(bits: nat, ring: seq<T>, consumers: nat)
    requires |ring| == Pow2(bits)
    ensures Inv(Start(bits, ring, consumers))
  {
  }

  lemma WriteKeeps<T>(s: State<T>)
    requires Inv(s) && s.producer.Write?
    ensures Inv(PushStep(s))
  {
    var s' := PushStep(s);
    WindowPut(s.ring, s.bits, s.tail, s.head, s.head, s.producer.val);
    assert s'.pushed[s.tail..] == s.pushed[s.tail..] + [s.producer.val];
    assert s'.pushed[..s.tail] == s.pushed[..s.tail];
    if s.tail < s.head {
      SlotsDiffer(s.tail, s.head, s.bits);
    }
    forall i | 0 <= i < |s'.consumers|
      ensures ConsumerOk(s'.consumers[i], s'.head, s'.tail, s'.ring, s.bits)
    {
      assert ConsumerOk(s.consumers[i], s.head, s.tail, s.ring, s.bits);
    }
  }

  lemma BumpKeeps<T>(s: State<T>)
    requires Inv(s) && !s.producer.Write?
    ensures Inv(PushStep(s))
  {
    var s' := PushStep(s);
    forall i | 0 <= i < |s'.consumers|
      ensures ConsumerOk(s'.consumers[i], s'.head, s'.tail, s'.ring, s.bits)
    {
      assert ConsumerOk(s.consumers[i], s.head, s.tail, s.ring, s.bits);
    }
  }

  // A winning CAS takes the oldest pushed value that is still in the ring, even
  // though the consumer read it earlier.
  lemma WinKeeps<T>(s: State<T>, i: nat)
    requires Inv(s) && i < |s.consumers| && s.consumers[i].Swap? && s.consumers[i].t == s.tail
    ensures Inv(PopStep(s, i)) && s.consumers[i].val == s.pushed[s.tail]
  {
    var s' := PopStep(s, i);
    assert ConsumerOk(s.consumers[i], s.head, s.tail, s.ring, s.bits);
    WindowFront(s.ring, s.bits, s.tail, Stored(s));
    assert s.pushed[s.tail..][0] == s.pushed[s.tail];
    assert s.pushed[s.tail..][1..] == s.pushed[s.tail + 1..];
    assert s.pushed[..s.tail + 1] == s.pushed[..s.tail] + [s.pushed[s.tail]];
    forall j | 0 <= j < |s'.consumers|
      ensures ConsumerOk(s'.consumers[j], s'.head, s'.tail, s'.ring, s.bits)
    {
      assert ConsumerOk(s.consumers[j], s.head, s.tail, s.ring, s.bits);
    }
  }

  lemma RetryKeeps<T>(s: State<T>, i: nat)
    requires Inv(s) && i < |s.consumers|
    requires !(s.consumers[i].Swap? && s.consumers[i].t == s.tail)
    ensures Inv(PopStep(s, i))
  {
    var s' := PopStep(s, i);
    forall j | 0 <= j < |s'.consumers|
      ensures ConsumerOk(s'.consumers[j], s'.head, s'.tail, s'.ring, s.bits)
    {
      assert ConsumerOk(s.consumers[j], s.head, s.tail, s.ring, s.bits);
    }
  }

  lemma NextKeeps<T>(s: State<T>, a: Action<T>)
    requires Inv(s)
    ensures Inv(Next(s, a)) && s.tail <= Next(s, a).tail && s.taken <= Next(s, a).taken
  {
    match a
    case BeginPush(_) =>
    case PushAccess =>
      if s.producer.Write? { WriteKeeps(s); } else { BumpKeeps(s); }
    case PopAccess(i) =>
      if i < |s.consumers| {
        if s.consumers[i].Swap? && s.consumers[i].t == s.tail { WinKeeps(s, i); } else { RetryKeeps(s, i); }
      }
  }

  function Exec<T>(s: State<T>, run: seq<Action<T>>): (r: State<T>)
    requires |s.ring| == Pow2(s.bits)
    decreases |run|
  {
    if run == [] then s else Exec(Next(s, run[0]), run[1..])
  }

  lemma {:induction false} ExecKeeps<T>(s: State<T>, run: seq<Action<T>>)
    requires Inv(s)
    ensures Inv(Exec(s, run))
    decreases |run|
  {
    if run != [] {
      NextKeeps(s, run[0]);
      hide Inv, Next;
      ExecKeeps(Next(s, run[0]), run[1..]);
    }
  }

  // In every interleaving the values taken, in the order of the winning CASes,
  // are a prefix of the values pushed, and the rest is exactly what the ring
  // still holds: no loss, no duplicate, no reordering.
  lemma TakenIsPrefix<T>(bits: nat, ring: seq<T>, consumers: nat, run: seq<Action<T>>)
    requires |ring| == Pow2(bits)
    ensures
      var s := Exec(Start(bits, ring, consumers), run);
      && |s.ring| == Pow2(s.bits) && s.tail <= Stored(s)
      && s.pushed == s.taken + Window(s.ring, s.bits, s.tail, Stored(s))
      && |s.pushed| - |s.taken| <= Mask(s.bits)
  {
    StartInv(bits, ring, consumers);
    ExecKeeps(Start(bits, ring, consumers), run);
    var s := Exec(Start(bits, ring, consumers), run);
    assert s.pushed == s.pushed[..s.tail] + s.pushed[s.tail..];
  }

  // push gives up only when MASK published values are waiting, pop only when no
  // published value is.
  lemma FailureIsHonest<T>(s: State<T>, i: nat)
    requires Inv(s) && i < |s.consumers|
    ensures s.producer.Test? ==> (PushStep(s).producer.Ready? <==> |s.pushed| - |s.taken| == Mask(s.bits))
    ensures s.consumers[i].LoadHead? && PopStep(s, i).consumers[i].Resting? ==> s.taken == s.pushed[..s.head] && s.tail == s.head
  {
    assert ConsumerOk(s.consumers[i], s.head, s.tail, s.ring, s.bits);
  }

  // ------------------------------------------------------------- the queue object

  // simo_queue with its fields updated in place, together with the program
  // positions of the threads that use it.
  class Queue<T> {
    const bits: nat
    var head: nat
    var tail: nat
    const slots: array<T>
    var producer: Producer<T>
    var consumers: seq<Consumer<T>>
    ghost var pushed: seq<T>
    ghost var taken: seq<T>

    constructor (bits: nat, storage: array<T>, consumerCount: nat)
      requires storage.Length == Pow2(bits)
      ensures slots == storage && View() == Start(bits, storage[..], consumerCount) && Inv(View())
    {
      this.bits := bits;
      head := 0;
      tail := 0;
      slots := storage;
      producer := Ready;
      consumers := seq(consumerCount, _ => Resting);
      pushed := [];
      taken := [];
      new;
      StartInv(bits, storage[..], consumerCount);
    }

    ghost function View(): (s: State<T>)
      reads this, slots
    {
      State(bits, head, tail, slots[..], producer, consumers, pushed, taken)
    }

    method BeginPush(val: T)
      requires Inv(View()) && producer.Ready?
      modifies this`producer
      ensures View() == Next(old(View()), Action.BeginPush(val)) && Inv(View())
    {
      NextKeeps(View(), Action.BeginPush(val));
      producer := Test(val);
    }

    method PushAccess()
      requires Inv(View())
      modifies this`head, this`producer, this`pushed, slots
      ensures View() == Next(old(View()), Action.PushAccess) && Inv(View())
    {
      ghost var s := View();
      NextKeeps(s, Action.PushAccess);
      assert |s.ring| == Pow2(bits);
      hide Inv;
      match producer {
        case Ready =>
        case Test(val) =>
          producer := if head - tail >= Mask(bits) then Ready else Write(val);
        case Write(val) =>
          slots[Slot(head, bits)] := val;
          producer := Bump;
          pushed := pushed + [val];
        case Bump =>
          head := head + 1;
          producer := Ready;
      }
    }

    method PopAccess(i: nat)
      requires Inv(View()) && i < |consumers|
      modifies this`tail, this`consumers, this`taken
      ensures View() == Next(old(View()), Action.PopAccess(i)) && Inv(View())
    {
      ghost var s := View();
      NextKeeps(s, Action<T>.PopAccess(i));
      assert |s.ring| == Pow2(bits);
      hide Inv;
      match consumers[i] {
        case Resting =>
          consumers := consumers[i := LoadHead(tail)];
        case LoadHead(t) =>
          consumers := consumers[i := if t == head then Resting else LoadCell(t)];
        case LoadCell(t) =>
          consumers := consumers[i := Swap(t, slots[Slot(t, bits)])];
        case Swap(t, val) =>
          if tail == t {
            tail := t + 1;
            consumers := consumers[i := Resting];
            taken := taken + [val];
          } else {
            consumers := consumers[i := LoadHead(tail)];
          }
      }
    }
  }
}
