// Branches whose lengths do not fit: the groupby above the split closes a group of which
// its source still has rows, and the outputs end up with other records.
module UnevenForks {
  import opened Operators
  import opened Dataflow
  import opened Scheduler
  import opened StreamMeaning
  import opened GraphMeaning
  import opened Broadcast
  import opened Streams
  import opened BroadcastEnds
  import opened SplitFuture
  import opened Alternation
  import opened SplitMeaning
  import opened Forks

  // Two groups, the second one of two rows.
  const ROWS := [Row(1, 10), Row(2, 20), Row(2, 30)]

  function KeepAll(r: Row): (b: bool) {
    true
  }

  function Group(data: int, grouping: bool, last: int, row: Row): (r: Op) {
    GroupBy(Agg(Sum, data, 0, grouping), last, row)
  }

  // The groupby before its first row, in its first group, and in its second one.
  const FRESH := Group(0, false, 0, NO_ROW)
  const OPEN := Group(10, true, 1, Row(1, 0))
  const NEXT := Group(20, true, 2, Row(2, 10))

  // What is between the source and the split at the start.
  ghost predicate Middle(op: Op) {
    op == FRESH || op == Concat(0)
  }

  // ---------------------------------------------------------------- states of one run

  ghost predicate Reaches(g: Graph, outputs: seq<nat>, s: Sched, t: Sched) {
    InRange(outputs, |s.nodes|) && exists n: nat :: Turns(g, outputs, s, n) == t
  }

  lemma {:induction false} TurnsAdd(g: Graph, outputs: seq<nat>, s: Sched, m: nat, n: nat)
    requires InRange(outputs, |s.nodes|)
    ensures Turns(g, outputs, s, m + n) == Turns(g, outputs, Turns(g, outputs, s, m), n)
    decreases m
  {
    hide Round;
    if m != 0 {
      TurnsAdd(g, outputs, Round(g, outputs, s), m - 1, n);
    }
  }

  lemma ReachesOn(g: Graph, outputs: seq<nat>, s: Sched, t: Sched, u: Sched)
    requires Reaches(g, outputs, s, t) && Reaches(g, outputs, t, u)
    ensures Reaches(g, outputs, s, u)
  {
    var m: nat :| Turns(g, outputs, s, m) == t;
    var n: nat :| Turns(g, outputs, t, n) == u;
    hide Turns;
    TurnsAdd(g, outputs, s, m, n);
  }

  lemma ReachesNext(g: Graph, outputs: seq<nat>, s: Sched)
    requires Acyclic(g) && Inv(g, outputs, s) && Unread(g, outputs) && (s.queue != [] || s.stack != [])
    ensures CanTurn(g, s) && Reaches(g, outputs, s, Turn(g, s)) && Inv(g, outputs, Turn(g, s))
  {
    TurnKeeps(g, outputs, s);
    InQueue(g, outputs, s);
    hide Turn, CanTurn, Inv;
    assert Turns(g, outputs, Turn(g, s), 0) == Turn(g, s);
    assert Turns(g, outputs, s, 1) == Turn(g, s) by {
      assert Round(g, outputs, s) == Turn(g, s);
    }
  }

  // A turn that visits a functor with one predecessor.
  lemma VisitIs(g: Graph, outputs: seq<nat>, s: Sched, f: nat, q: nat)
    requires Acyclic(g) && Inv(g, outputs, s) && Unread(g, outputs) && s.queue != [] && s.queue[0] == f
    requires f < |g.preds| && g.preds[f] == [q] && q < |s.nodes|
    ensures CanTurn(g, s) && Reaches(g, outputs, s, Turn(g, s)) && Inv(g, outputs, Turn(g, s))
    ensures
      var t, wanted := Turn(g, s), Wanted(s.nodes[q]);
      && t.queue == s.queue[1..] + (if wanted then [q] else []) && t.stack == s.stack + [f] && |t.nodes| == |s.nodes|
      && forall x :: 0 <= x < |s.nodes| ==> t.nodes[x] == s.nodes[x].(status :=
           if x == f then Processing else if x == q && wanted then ToProcess else s.nodes[x].status)
  {
    ReachesNext(g, outputs, s);
    assert g.rank[g.preds[f][0]] < g.rank[f];
    RequestOne(WithStatus(s.nodes, f, Processing), s.queue[1..], q);
    hide AllFit, AllEnded, Request;
  }

  lemma RequestOne(nodes: seq<Node>, queue: seq<nat>, q: nat)
    requires q < |nodes|
    ensures Request(nodes, queue, [q]) ==
            if Wanted(nodes[q]) then (WithStatus(nodes, q, ToProcess), queue + [q]) else (nodes, queue)
  {
    assert [q][1..] == [];
  }

  // A turn that calls f changes nothing of x but its status, if f does not read x and x is
  // no stream of f.
  lemma LeavesAlone(g: Graph, s: Sched, f: nat, x: nat)
    requires CanTurn(g, s) && Called(g, s) == Some(f) && x < |s.nodes| && x != f && x !in g.preds[f]
    requires s.nodes[x].op.RawData? ==> f !in g.preds[x]
    ensures |Turn(g, s).nodes| == |s.nodes| && Turn(g, s).nodes[x] == s.nodes[x].(status := Turn(g, s).nodes[x].status)
  {
    TurnNode(g, s, x);
    RunAt(g, s.nodes, f, s.queue == [], x);
    WorkAt(g, s.nodes, f, s.queue == [], x);
    ValueAt(g, s.nodes, f, s.queue == [], x);
    hide Turn, RunBroadcast, ProcessIn;
  }

  // What the called functor becomes.
  lemma CalledBecomes(g: Graph, s: Sched, f: nat)
    requires CanTurn(g, s) && Called(g, s) == Some(f)
    ensures
      var o, n, n' := ProcessIn(g, s.nodes, f), s.nodes[f], Turn(g, s).nodes[f];
      && n'.op == o.op && n'.produced == n.produced + Delivered(o)
      && n'.value == (if o.ok then o.value else n.value)
      && n'.hasValue == if o.ok then !o.op.Output? else n.hasValue && s.queue != []
  {
    TurnNode(g, s, f);
    RunAt(g, s.nodes, f, s.queue == [], f);
    WorkAt(g, s.nodes, f, s.queue == [], f);
    ValueAt(g, s.nodes, f, s.queue == [], f);
    hide Turn, RunBroadcast, ProcessIn;
  }

  // What the functor it reads becomes.
  lemma ReadBecomes(g: Graph, s: Sched, f: nat, q: nat)
    requires Acyclic(g) && CanTurn(g, s) && Called(g, s) == Some(f) && g.preds[f] == [q] && !s.nodes[f].op.RawData?
    ensures q < |Turn(g, s).nodes| && q < |s.nodes|
    ensures
      var n, n' := s.nodes[q], Turn(g, s).nodes[q];
      n' == n.(status := n'.status, hasValue := n.hasValue && 0 !in ProcessIn(g, s.nodes, f).taken)
  {
    assert g.rank[g.preds[f][0]] < g.rank[f];
    TurnNode(g, s, q);
    RunAt(g, s.nodes, f, s.queue == [], q);
    WorkAt(g, s.nodes, f, s.queue == [], q);
    ValueAt(g, s.nodes, f, s.queue == [], q);
    TakenIs(g, f, ProcessIn(g, s.nodes, f).taken, q);
    assert f !in g.preds[q];
    hide Turn, RunBroadcast, ProcessIn;
  }

  lemma TakenIs(g: Graph, f: nat, taken: set<nat>, q: nat)
    requires f < |g.preds| && g.preds[f] == [q]
    ensures Taken(g, f, taken, q) <==> 0 in taken
  {
    assert 0 in taken ==> g.preds[f][0] == q;
  }

  // ------------------------------------------------------------- the first visits

  // The part of a branch still to be visited.
  ghost predicate Tail(g: Graph, c: seq<nat>) {
    && 1 <= |c| && Distinct(c)
    && (forall k :: 0 <= k < |c| ==> 3 <= c[k] < |g.preds|)
    && forall k {:trigger g.preds[c[k]]} :: 0 <= k < |c| ==> g.preds[c[k]] == [Next(c, k)]
  }

  lemma TailOf(g: Graph, c: seq<nat>, r: nat)
    requires Branch(g, c) && r < |c|
    ensures Tail(g, c[r..])
  {
    var d := c[r..];
    forall k | 0 <= k < |d| ensures 3 <= d[k] < |g.preds| && g.preds[d[k]] == [Next(d, k)] {
      assert d[k] == c[r + k];
      assert g.preds[c[r + k]] == [Next(c, r + k)];
    }
  }

  // Nothing but statuses differs from the start.
  ghost predicate Calm(base: seq<Node>, nodes: seq<Node>) {
    && |nodes| == |base|
    && forall x :: 0 <= x < |base| ==> nodes[x] == base[x].(status := nodes[x].status)
  }

  ghost predicate IdleFrom(nodes: seq<Node>, c: seq<nat>, r: nat) {
    forall k :: r <= k < |c| ==> c[k] < |nodes| && nodes[c[k]].status == Idle
  }

  // What stays the same while functors are visited.
  ghost predicate Setting(g: Graph, outputs: seq<nat>, base: seq<Node>, s: Sched) {
    && Acyclic(g) && Inv(g, outputs, s) && Unread(g, outputs) && 3 <= |g.preds| && Calm(base, s.nodes)
    && forall x :: 0 <= x < |base| ==> !base[x].hasValue
  }

  // Both branches are visited down to their r-th functors.
  ghost predicate Lock(g: Graph, first: seq<nat>, second: seq<nat>, outputs: seq<nat>, base: seq<Node>, s: Sched, r: nat) {
    && Setting(g, outputs, base, s) && Fork(g, first, second) && r < |first| && r < |second|
    && s.queue == [first[r], second[r]]
    && IdleFrom(s.nodes, first, r + 1) && IdleFrom(s.nodes, second, r + 1) && IdleFrom(s.nodes, [0, 1, 2], 0)
  }

  // The visit of functor f of a branch that asks for an idle one.
  lemma Asks(g: Graph, outputs: seq<nat>, base: seq<Node>, s: Sched, f: nat, q: nat) returns (t: Sched)
    requires Setting(g, outputs, base, s) && s.queue != [] && s.queue[0] == f < |g.preds| && g.preds[f] == [q]
    requires q < |s.nodes| && s.nodes[q].status != ToProcess && s.nodes[q].status != Ended
    ensures Reaches(g, outputs, s, t) && Setting(g, outputs, base, t)
    ensures t.queue == s.queue[1..] + [q] && t.stack == s.stack + [f] && f != q
    ensures forall x :: 0 <= x < |s.nodes| ==>
      t.nodes[x].status == if x == f then Processing else if x == q then ToProcess else s.nodes[x].status
  {
    hide Inv, Reaches, CanRun;
    VisitIs(g, outputs, s, f, q);
    t := Turn(g, s);
    hide Turn;
    assert g.rank[g.preds[f][0]] < g.rank[f];
  }

  ghost predicate Avoids(c: seq<nat>, r: nat, changed: set<nat>) {
    forall k :: r <= k < |c| ==> c[k] !in changed
  }

  lemma IdleKeeps(nodes: seq<Node>, nodes': seq<Node>, c: seq<nat>, r: nat, changed: set<nat>)
    requires |nodes'| == |nodes| && IdleFrom(nodes, c, r)
    requires forall x :: 0 <= x < |nodes| && x !in changed ==> nodes'[x].status == nodes[x].status
    requires Avoids(c, r, changed)
    ensures IdleFrom(nodes', c, r)
  {
  }

  // What the visits of the functors at place r need.
  lemma LockFacts(g: Graph, first: seq<nat>, second: seq<nat>, outputs: seq<nat>, base: seq<Node>, s: Sched, r: nat)
    requires Lock(g, first, second, outputs, base, s, r) && r + 1 < |first| && r + 1 < |second|
    ensures |s.nodes| == |base| == |g.preds| && Setting(g, outputs, base, s) && Fork(g, first, second)
    ensures s.queue == [first[r], second[r]]
    ensures first[r] < |s.nodes| && g.preds[first[r]] == [first[r + 1]] && first[r + 1] < |s.nodes|
    ensures second[r] < |s.nodes| && g.preds[second[r]] == [second[r + 1]] && second[r + 1] < |s.nodes|
    ensures s.nodes[first[r + 1]].status == Idle && s.nodes[second[r + 1]].status == Idle
    ensures first[r] != second[r + 1] && first[r + 1] != second[r + 1] && first[r] != second[r]
    ensures IdleFrom(s.nodes, first, r + 2) && IdleFrom(s.nodes, second, r + 2) && IdleFrom(s.nodes, [0, 1, 2], 0)
    ensures
      var changed: set<nat> := {first[r], second[r], first[r + 1], second[r + 1]};
      Avoids([0, 1, 2], 0, changed) && Avoids(first, r + 2, changed) && Avoids(second, r + 2, changed)
  {
    BranchPlace(g, first, r);
    BranchPlace(g, second, r);
  }

  lemma LockStep(g: Graph, first: seq<nat>, second: seq<nat>, outputs: seq<nat>, base: seq<Node>, s: Sched, r: nat) returns (t: Sched)
    requires Lock(g, first, second, outputs, base, s, r) && r + 1 < |first| && r + 1 < |second|
    ensures Lock(g, first, second, outputs, base, t, r + 1) && Reaches(g, outputs, s, t)
  {
    LockFacts(g, first, second, outputs, base, s, r);
    hide Inv, Reaches, Acyclic, Fork, IdleFrom, Calm, Unread, Setting, Avoids;
    var u := Asks(g, outputs, base, s, first[r], first[r + 1]);
    CalmLength(g, outputs, base, s, u);
    t := Asks(g, outputs, base, u, second[r], second[r + 1]);
    CalmLength(g, outputs, base, s, t);
    ReachesOn(g, outputs, s, u, t);
    var changed: set<nat> := {first[r], second[r], first[r + 1], second[r + 1]};
    IdleKeeps(s.nodes, t.nodes, first, r + 2, changed);
    IdleKeeps(s.nodes, t.nodes, second, r + 2, changed);
    IdleKeeps(s.nodes, t.nodes, [0, 1, 2], 0, changed);
  }

  lemma CalmLength(g: Graph, outputs: seq<nat>, base: seq<Node>, s: Sched, t: Sched)
    requires Setting(g, outputs, base, s) && Setting(g, outputs, base, t)
    ensures |s.nodes| == |t.nodes| == |base| == |g.preds|
  {
  }

  lemma ReachesItself(g: Graph, outputs: seq<nat>, s: Sched)
    requires InRange(outputs, |s.nodes|)
    ensures Reaches(g, outputs, s, s)
  {
    assert Turns(g, outputs, s, 0) == s;
  }

  lemma {:induction false} LockRun(g: Graph, first: seq<nat>, second: seq<nat>, outputs: seq<nat>, base: seq<Node>, s: Sched,
                                   r: nat, last: nat) returns (t: Sched)
    requires Lock(g, first, second, outputs, base, s, r) && r <= last < |first| && last < |second|
    ensures Lock(g, first, second, outputs, base, t, last) && Reaches(g, outputs, s, t)
    decreases last - r
  {
    hide Reaches, Fork, IdleFrom, Calm, Inv, Acyclic;
    if r == last {
      t := s;
      InQueue(g, outputs, s);
      ReachesItself(g, outputs, s);
    } else {
      var u := LockStep(g, first, second, outputs, base, s, r);
      t := LockRun(g, first, second, outputs, base, u, r + 1, last);
      ReachesOn(g, outputs, s, u, t);
    }
  }

  // The split is about to be visited; what is left of the longer branch is c.
  ghost predicate Meets(g: Graph, c: seq<nat>, outputs: seq<nat>, base: seq<Node>, s: Sched) {
    && Setting(g, outputs, base, s) && Tail(g, c) && g.preds[0] == [] && g.preds[1] == [0] && g.preds[2] == [1]
    && s.queue == [2, c[0]] && IdleFrom(s.nodes, c, 1) && IdleFrom(s.nodes, [0, 1], 0) && |base| == |g.preds|
  }

  // What the visits of the last functor of `first` and the one beside it need.
  lemma LaterFacts(g: Graph, first: seq<nat>, second: seq<nat>, outputs: seq<nat>, base: seq<Node>, s: Sched, r: nat)
    requires r + 1 == |first| < |second| && Lock(g, first, second, outputs, base, s, r)
    ensures |s.nodes| == |base| == |g.preds|
    ensures Setting(g, outputs, base, s) && s.queue == [first[r], second[r]]
    ensures first[r] < |s.nodes| && g.preds[first[r]] == [2] && second[r] < |s.nodes| && g.preds[second[r]] == [second[r + 1]]
    ensures first[r] != second[r] && first[r] != second[r + 1] && second[r + 1] < |s.nodes|
    ensures s.nodes[2].status == Idle && s.nodes[second[r + 1]].status == Idle && second[r + 1] != 2
    ensures Tail(g, second[r + 1..]) && g.preds[0] == [] && g.preds[1] == [0] && g.preds[2] == [1]
    ensures IdleFrom(s.nodes, second[r + 1..], 1) && IdleFrom(s.nodes, [0, 1], 0)
    ensures
      var changed: set<nat> := {first[r], second[r], 2, second[r + 1]};
      Avoids([0, 1], 0, changed) && Avoids(second[r + 1..], 1, changed)
  {
    BranchPlace(g, first, r);
    BranchPlace(g, second, r);
    TailOf(g, second, r + 1);
    assert s.nodes[[0, 1, 2][2]].status == Idle;
    IdleTail(s.nodes, second, r + 1);
    IdlePair(s.nodes);
  }

  lemma MeetsLater(g: Graph, first: seq<nat>, second: seq<nat>, outputs: seq<nat>, base: seq<Node>, s: Sched, r: nat) returns (t: Sched)
    requires r + 1 == |first| < |second| && Lock(g, first, second, outputs, base, s, r)
    ensures Meets(g, second[r + 1..], outputs, base, t) && Reaches(g, outputs, s, t)
  {
    hide Inv, Reaches, Acyclic, Lock, Calm, Unread, Setting, IdleFrom, Tail;
    LaterFacts(g, first, second, outputs, base, s, r);
    var u := Asks(g, outputs, base, s, first[r], 2);
    CalmLength(g, outputs, base, s, u);
    t := Asks(g, outputs, base, u, second[r], second[r + 1]);
    CalmLength(g, outputs, base, s, t);
    ReachesOn(g, outputs, s, u, t);
    var changed: set<nat> := {first[r], second[r], 2, second[r + 1]};
    IdleKeeps(s.nodes, t.nodes, second[r + 1..], 1, changed);
    IdleKeeps(s.nodes, t.nodes, [0, 1], 0, changed);
  }

  // What the last visits before the split need when `first` is the longer branch.
  lemma SoonerFacts(g: Graph, first: seq<nat>, second: seq<nat>, outputs: seq<nat>, base: seq<Node>, s: Sched, r: nat)
    requires r + 1 == |second| && |second| + 2 <= |first| && Lock(g, first, second, outputs, base, s, r)
    ensures |s.nodes| == |base| == |g.preds| && Fork(g, first, second)
    ensures Setting(g, outputs, base, s) && s.queue == [first[r], second[r]]
    ensures first[r] < |s.nodes| && g.preds[first[r]] == [first[r + 1]] && second[r] < |s.nodes| && g.preds[second[r]] == [2]
    ensures first[r + 1] < |s.nodes| && g.preds[first[r + 1]] == [first[r + 2]] && first[r + 2] < |s.nodes|
    ensures s.nodes[first[r + 1]].status == Idle && s.nodes[first[r + 2]].status == Idle && s.nodes[2].status == Idle
    ensures first[r] != second[r] && first[r] != first[r + 1] && second[r] != first[r + 1]
    ensures 3 <= first[r] && 3 <= first[r + 1] && 3 <= second[r]
    ensures first[r + 2] != first[r] && first[r + 2] != second[r] && first[r + 2] != first[r + 1] && 3 <= first[r + 2]
    ensures Tail(g, first[r + 2..]) && g.preds[0] == [] && g.preds[1] == [0] && g.preds[2] == [1]
    ensures IdleFrom(s.nodes, first[r + 2..], 1) && IdleFrom(s.nodes, [0, 1], 0)
  {
    BranchPlace(g, first, r);
    BranchPlace(g, first, r + 1);
    BranchPlace(g, second, r);
    TailOf(g, first, r + 2);
    assert s.nodes[[0, 1, 2][2]].status == Idle;
    assert IdleFrom(s.nodes, first, r + 3);
    IdleTail(s.nodes, first, r + 2);
    IdlePair(s.nodes);
  }

  lemma SoonerAvoids(g: Graph, first: seq<nat>, second: seq<nat>, r: nat)
    requires r < |second| && r + 2 < |first| && Fork(g, first, second)
    ensures
      var changed: set<nat> := {first[r], second[r], first[r + 1], 2, first[r + 2]};
      Avoids([0, 1], 0, changed) && Avoids(first[r + 2..], 1, changed)
  {
  }

  lemma MeetsSooner(g: Graph, first: seq<nat>, second: seq<nat>, outputs: seq<nat>, base: seq<Node>, s: Sched, r: nat) returns (t: Sched)
    requires r + 1 == |second| && |second| + 2 <= |first| && Lock(g, first, second, outputs, base, s, r)
    ensures Meets(g, first[r + 2..], outputs, base, t) && Reaches(g, outputs, s, t)
  {
    hide Inv, Reaches, Acyclic, Lock, Calm, Unread, Setting, IdleFrom, Tail, Avoids;
    SoonerFacts(g, first, second, outputs, base, s, r);
    SoonerAvoids(g, first, second, r);
    hide Fork;
    var u := Asks(g, outputs, base, s, first[r], first[r + 1]);
    CalmLength(g, outputs, base, s, u);
    var v := Asks(g, outputs, base, u, second[r], 2);
    CalmLength(g, outputs, base, s, v);
    t := Asks(g, outputs, base, v, first[r + 1], first[r + 2]);
    CalmLength(g, outputs, base, s, t);
    ReachesOn(g, outputs, s, u, v);
    ReachesOn(g, outputs, s, v, t);
    var changed: set<nat> := {first[r], second[r], first[r + 1], 2, first[r + 2]};
    IdleKeeps(s.nodes, t.nodes, first[r + 2..], 1, changed);
    IdleKeeps(s.nodes, t.nodes, [0, 1], 0, changed);
  }

  lemma IdleTail(nodes: seq<Node>, c: seq<nat>, r: nat)
    requires r < |c| && IdleFrom(nodes, c, r + 1)
    ensures IdleFrom(nodes, c[r..], 1)
  {
    var d := c[r..];
    forall k | 1 <= k < |d| ensures d[k] < |nodes| && nodes[d[k]].status == Idle {
      assert d[k] == c[r + k];
    }
  }

  lemma IdlePair(nodes: seq<Node>)
    requires IdleFrom(nodes, [0, 1, 2], 0)
    ensures IdleFrom(nodes, [0, 1], 0)
  {
    assert nodes[[0, 1, 2][0]].status == Idle && nodes[[0, 1, 2][1]].status == Idle;
  }

  // ------------------------------------------------------- the split is visited twice

  // The source holds its first row, and nothing else has happened yet.
  ghost predicate Held(base: seq<Node>, nodes: seq<Node>) {
    && 0 < |nodes| == |base|
    && nodes[0].op == RawData(ROWS, 0) && nodes[0].hasValue && nodes[0].value == ROWS[0] && nodes[0].status == Idle
    && forall x :: 1 <= x < |base| ==> nodes[x] == base[x].(status := nodes[x].status)
  }

  ghost predicate HeldSetting(g: Graph, outputs: seq<nat>, base: seq<Node>, s: Sched) {
    && Acyclic(g) && Inv(g, outputs, s) && Unread(g, outputs) && 3 <= |g.preds| && Held(base, s.nodes)
    && (forall x :: 0 <= x < |base| ==> !base[x].hasValue) && g.preds[1] == [0]
  }

  lemma SourceRuns(g: Graph, outputs: seq<nat>, base: seq<Node>, s: Sched) returns (t: Sched)
    requires Setting(g, outputs, base, s) && s.queue != [] && s.queue[0] == 0 && g.preds[0] == [] && g.preds[1] == [0]
    requires base != [] && base[0].op == RawData(ROWS, -1)
    ensures Reaches(g, outputs, s, t) && HeldSetting(g, outputs, base, t)
    ensures t.queue == s.queue[1..] && t.stack == s.stack
    ensures forall x :: 1 <= x < |s.nodes| ==> t.nodes[x].status == s.nodes[x].status
  {
    ReachesNext(g, outputs, s);
    t := Turn(g, s);
    CalledBecomes(g, s, 0);
    assert ProcessIn(g, s.nodes, 0) == Outcome(RawData(ROWS, 0), true, ROWS[0], {});
    Timed.VisitStatus(g, s, 0);
    Runnable(g, s.nodes, 0);
    forall x | 1 <= x < |s.nodes| ensures |t.nodes| == |s.nodes| && t.nodes[x] == s.nodes[x].(status := t.nodes[x].status) {
      SourceFeedsNoStream(g, s, x);
      LeavesAlone(g, s, 0, x);
    }
    forall x | 1 <= x < |s.nodes| ensures t.nodes[x].status == s.nodes[x].status {
      Timed.VisitStatus(g, s, x);
    }
    hide RunBroadcast, AllFit, AllEnded;
  }

  lemma SourceFeedsNoStream(g: Graph, s: Sched, x: nat)
    requires Acyclic(g) && AllFit(g, s.nodes) && x < |s.nodes| && s.nodes[0].op.RawData?
    ensures s.nodes[x].op.RawData? ==> 0 !in g.preds[x]
  {
    assert FitsAt(g, s.nodes, x);
  }

  // Visits while the source holds its row.
  lemma HeldAsks(g: Graph, outputs: seq<nat>, base: seq<Node>, s: Sched, f: nat, q: nat) returns (t: Sched)
    requires HeldSetting(g, outputs, base, s) && s.queue != [] && s.queue[0] == f < |g.preds| && g.preds[f] == [q]
    requires f != 0 && q != 0
    requires q < |s.nodes| && s.nodes[q].status != ToProcess && s.nodes[q].status != Ended
    ensures Reaches(g, outputs, s, t) && HeldSetting(g, outputs, base, t)
    ensures t.queue == s.queue[1..] + [q] && t.stack == s.stack + [f] && f != q
    ensures forall x :: 0 <= x < |s.nodes| ==>
      t.nodes[x].status == if x == f then Processing else if x == q then ToProcess else s.nodes[x].status
  {
    hide Inv, Reaches, CanRun;
    VisitIs(g, outputs, s, f, q);
    t := Turn(g, s);
    hide Turn;
    assert g.rank[g.preds[f][0]] < g.rank[f];
  }

  lemma HeldVisit(g: Graph, outputs: seq<nat>, base: seq<Node>, s: Sched) returns (t: Sched)
    requires HeldSetting(g, outputs, base, s) && s.queue != [] && s.queue[0] == 1
    ensures Reaches(g, outputs, s, t) && HeldSetting(g, outputs, base, t)
    ensures t.queue == s.queue[1..] && t.stack == s.stack + [1]
  {
    hide Inv, Reaches, CanRun;
    VisitIs(g, outputs, s, 1, 0);
    t := Turn(g, s);
    hide Turn;
  }

  // The rest of the branch, then the split and the groupby once more.
  function Path(c: seq<nat>): (d: seq<nat>)
    ensures |d| == |c| + 2
  {
    c + [2, 1]
  }

  ghost predicate Unasked(nodes: seq<Node>, d: seq<nat>, k: nat) {
    forall j :: k <= j < |d| ==> d[j] < |nodes| && nodes[d[j]].status != ToProcess && nodes[d[j]].status != Ended
  }

  ghost predicate OnPath(g: Graph, c: seq<nat>, outputs: seq<nat>, base: seq<Node>, s: Sched, below: seq<nat>, k: nat) {
    && HeldSetting(g, outputs, base, s) && Tail(g, c) && g.preds[2] == [1]
    && 2 <= k < |Path(c)| && s.queue == [Path(c)[k]] && s.stack == below + [2, c[0], 1] + Path(c)[1..k]
    && Unasked(s.nodes, Path(c), k + 1)
  }

  // Everything is visited: the split and the groupby are on the stack twice, with the
  // rest of the longer branch in between.
  ghost predicate Deep(g: Graph, c: seq<nat>, outputs: seq<nat>, base: seq<Node>, s: Sched, below: seq<nat>) {
    && HeldSetting(g, outputs, base, s) && Tail(g, c) && g.preds[2] == [1]
    && s.queue == [] && s.stack == below + [2, c[0], 1] + c[1..] + [2, 1]
  }

  lemma PathStep(g: Graph, c: seq<nat>, k: nat)
    requires 3 <= |g.preds| && Tail(g, c) && g.preds[2] == [1] && 2 <= k && k + 1 < |Path(c)|
    ensures
      var d := Path(c);
      && d[k] < |g.preds| && d[k + 1] < |g.preds| && g.preds[d[k]] == [d[k + 1]] && d[k] != 0 && d[k + 1] != 0
      && d[1..k] + [d[k]] == d[1..k + 1]
      && forall j :: k + 2 <= j < |d| ==> d[j] != d[k] && d[j] != d[k + 1]
  {
    var d := Path(c);
    if k < |c| {
      assert d[k] == c[k];
      assert g.preds[c[k]] == [Next(c, k)];
    }
  }

  lemma {:induction false} WalkPath(g: Graph, c: seq<nat>, outputs: seq<nat>, base: seq<Node>, s: Sched, below: seq<nat>, k: nat)
    returns (t: Sched)
    requires OnPath(g, c, outputs, base, s, below, k)
    ensures Deep(g, c, outputs, base, t, below) && Reaches(g, outputs, s, t)
    decreases |c| + 2 - k
  {
    hide Inv, Reaches, Acyclic, HeldSetting, Tail;
    var d := Path(c);
    HeldLength(g, outputs, base, s);
    if k + 1 == |d| {
      t := HeldVisit(g, outputs, base, s);
      assert d[1..k] + [1] == c[1..] + [2, 1];
    } else {
      PathStep(g, c, k);
      var u := HeldAsks(g, outputs, base, s, d[k], d[k + 1]);
      HeldLength(g, outputs, base, u);
      assert [d[k]][1..] + [d[k + 1]] == [d[k + 1]];
      assert Unasked(u.nodes, d, k + 2);
      t := WalkPath(g, c, outputs, base, u, below, k + 1);
      ReachesOn(g, outputs, s, u, t);
    }
  }

  lemma HeldLength(g: Graph, outputs: seq<nat>, base: seq<Node>, s: Sched)
    requires HeldSetting(g, outputs, base, s)
    ensures |s.nodes| == |base| == |g.preds| && 3 <= |g.preds| && Acyclic(g)
  {
  }

  lemma MeetsFacts(g: Graph, c: seq<nat>, outputs: seq<nat>, base: seq<Node>, s: Sched)
    requires Meets(g, c, outputs, base, s)
    ensures |s.nodes| == |base| == |g.preds| && 3 <= |base|
    ensures c[0] < |s.nodes| && 3 <= c[0] && g.preds[c[0]] == [Next(c, 0)]
    ensures s.nodes[0].status == Idle && s.nodes[1].status == Idle && g.preds[0] == [] && g.preds[1] == [0] && g.preds[2] == [1]
    ensures 2 <= |c| ==> c[1] < |s.nodes| && 3 <= c[1] && c[1] != c[0] && s.nodes[c[1]].status == Idle && g.preds[c[1]] == [Next(c, 1)]
    ensures 3 <= |c| ==> c[2] < |s.nodes| && 3 <= c[2] && c[2] != c[0] && c[2] != c[1] && s.nodes[c[2]].status == Idle
    ensures 3 <= |c| ==> IdleFrom(s.nodes, c, 3) && Avoids(c, 3, {0, 1, 2, c[0], c[1], c[2]})
  {
    assert s.nodes[[0, 1][0]].status == Idle && s.nodes[[0, 1][1]].status == Idle;
    assert g.preds[c[0]] == [Next(c, 0)];
    if 2 <= |c| {
      assert g.preds[c[1]] == [Next(c, 1)];
    }
  }

  // What is left of the branch is its stream.
  lemma DescendShort(g: Graph, c: seq<nat>, outputs: seq<nat>, base: seq<Node>, s: Sched) returns (t: Sched)
    requires Meets(g, c, outputs, base, s) && |c| == 1 && base[0].op == RawData(ROWS, -1)
    ensures OnPath(g, c, outputs, base, t, s.stack, 2) && Reaches(g, outputs, s, t)
  {
    hide Inv, Reaches, Acyclic, Calm, Unread, Setting, HeldSetting, IdleFrom, Tail, Avoids;
    MeetsFacts(g, c, outputs, base, s);
    var u1 := Asks(g, outputs, base, s, 2, 1);
    CalmLength(g, outputs, base, s, u1);
    var u2 := Asks(g, outputs, base, u1, c[0], 2);
    CalmLength(g, outputs, base, s, u2);
    var u3 := Asks(g, outputs, base, u2, 1, 0);
    CalmLength(g, outputs, base, s, u3);
    var u4 := Asks(g, outputs, base, u3, 2, 1);
    CalmLength(g, outputs, base, s, u4);
    t := SourceRuns(g, outputs, base, u4);
    HeldLength(g, outputs, base, t);
    ReachesOn(g, outputs, s, u1, u2);
    ReachesOn(g, outputs, s, u2, u3);
    ReachesOn(g, outputs, s, u3, u4);
    ReachesOn(g, outputs, s, u4, t);
    assert Path(c) == [c[0], 2, 1] && Path(c)[1..2] == [2];
  }

  lemma DescendLong(g: Graph, c: seq<nat>, outputs: seq<nat>, base: seq<Node>, s: Sched) returns (t: Sched)
    requires Meets(g, c, outputs, base, s) && 2 <= |c| && base[0].op == RawData(ROWS, -1)
    ensures OnPath(g, c, outputs, base, t, s.stack, 2) && Reaches(g, outputs, s, t)
  {
    hide Inv, Reaches, Acyclic, Calm, Unread, Setting, HeldSetting, IdleFrom, Tail, Avoids;
    MeetsFacts(g, c, outputs, base, s);
    var u1 := Asks(g, outputs, base, s, 2, 1);
    CalmLength(g, outputs, base, s, u1);
    var u2 := Asks(g, outputs, base, u1, c[0], c[1]);
    CalmLength(g, outputs, base, s, u2);
    var u3 := Asks(g, outputs, base, u2, 1, 0);
    CalmLength(g, outputs, base, s, u3);
    var u4 := Asks(g, outputs, base, u3, c[1], Next(c, 1));
    CalmLength(g, outputs, base, s, u4);
    ReachesOn(g, outputs, s, u1, u2);
    ReachesOn(g, outputs, s, u2, u3);
    ReachesOn(g, outputs, s, u3, u4);
    if 3 <= |c| {
      IdleKeeps(s.nodes, u4.nodes, c, 3, {0, 1, 2, c[0], c[1], c[2]});
    }
    t := SourceLast(g, c, outputs, base, u4, s.stack);
    ReachesOn(g, outputs, s, u4, t);
  }

  // The source is visited last.
  lemma SourceLast(g: Graph, c: seq<nat>, outputs: seq<nat>, base: seq<Node>, s: Sched, below: seq<nat>) returns (t: Sched)
    requires Setting(g, outputs, base, s) && Tail(g, c) && g.preds[0] == [] && g.preds[1] == [0] && g.preds[2] == [1]
    requires 2 <= |c| && base != [] && base[0].op == RawData(ROWS, -1) && 3 <= |s.nodes|
    requires s.queue == [0, Next(c, 1)] && s.stack == below + [2] + [c[0]] + [1] + [c[1]]
    requires s.nodes[1].status == Processing && (3 <= |c| ==> s.nodes[2].status == Processing && IdleFrom(s.nodes, c, 3))
    ensures OnPath(g, c, outputs, base, t, below, 2) && Reaches(g, outputs, s, t)
  {
    ThreeUp(g, c);
    hide Inv, Reaches, Acyclic, Calm, Unread, Setting, HeldSetting, IdleFrom, Tail;
    t := SourceRuns(g, outputs, base, s);
    HeldLength(g, outputs, base, t);
    assert Path(c)[1..2] == [c[1]];
    StillUnasked(c, s.nodes, t.nodes);
  }

  lemma ThreeUp(g: Graph, c: seq<nat>)
    requires Tail(g, c)
    ensures forall k :: 0 <= k < |c| ==> 3 <= c[k]
  {
  }

  lemma StillUnasked(c: seq<nat>, nodes: seq<Node>, nodes': seq<Node>)
    requires 2 <= |c| && |nodes'| == |nodes| && 3 <= |nodes| && (3 <= |c| ==> IdleFrom(nodes, c, 3))
    requires forall x :: 1 <= x < |nodes| ==> nodes'[x].status == nodes[x].status
    requires forall k :: 0 <= k < |c| ==> 3 <= c[k]
    requires nodes[1].status == Processing && (3 <= |c| ==> nodes[2].status == Processing)
    ensures Unasked(nodes', Path(c), 3)
  {
    var d := Path(c);
    forall j | 3 <= j < |d| ensures d[j] < |nodes'| && nodes'[d[j]].status != ToProcess && nodes'[d[j]].status != Ended {
      if j < |c| {
        assert d[j] == c[j];
      }
    }
  }

  lemma Descend(g: Graph, c: seq<nat>, outputs: seq<nat>, base: seq<Node>, s: Sched) returns (t: Sched)
    requires 1 <= |c| && Meets(g, c, outputs, base, s) && base[0].op == RawData(ROWS, -1)
    ensures Deep(g, c, outputs, base, t, s.stack) && Reaches(g, outputs, s, t)
  {
    hide Meets, OnPath, Deep, Reaches;
    var u: Sched;
    if |c| == 1 {
      u := DescendShort(g, c, outputs, base, s);
    } else {
      u := DescendLong(g, c, outputs, base, s);
    }
    t := WalkPath(g, c, outputs, base, u, s.stack, 2);
    ReachesOn(g, outputs, s, u, t);
  }

  // --------------------------------------------------------------- the group closes early

  // The top of the stack is f.
  ghost predicate Top(g: Graph, outputs: seq<nat>, s: Sched, f: nat) {
    && Acyclic(g) && Inv(g, outputs, s) && Unread(g, outputs) && 3 <= |g.preds| == |s.nodes|
    && g.preds[0] == [] && g.preds[1] == [0] && g.preds[2] == [1]
    && s.queue == [] && s.stack != [] && s.stack[|s.stack| - 1] == f
  }

  // Apart from these functors only statuses changed.
  ghost predicate OnlyThese(s: Sched, t: Sched, these: set<nat>) {
    && |t.nodes| == |s.nodes|
    && forall x :: 0 <= x < |s.nodes| && x !in these ==> t.nodes[x] == s.nodes[x].(status := t.nodes[x].status)
  }

  // A call of functor 1 that sees this.
  function MiddleOutcome(op: Op, head: Option<Row>): (o: Outcome)
    requires op.GroupBy? || op.Concat?
    ensures op.GroupBy? ==> o.op.GroupBy?
    ensures op.Concat? ==> o.op.Concat?
  {
    if op.GroupBy? then ProcessGroupBy(op, head) else Process(op, [head])
  }

  lemma MiddleSees(g: Graph, nodes: seq<Node>)
    requires CanRun(g, nodes, 1) && g.preds[1] == [0] && (nodes[1].op.GroupBy? || nodes[1].op.Concat?)
    ensures ProcessIn(g, nodes, 1) == MiddleOutcome(nodes[1].op, if nodes[0].hasValue then Some(nodes[0].value) else None)
  {
    var head := if nodes[0].hasValue then Some(nodes[0].value) else None;
    assert HeadsOf(g, nodes, 1) == [head];
  }

  lemma MiddleTurn(g: Graph, outputs: seq<nat>, s: Sched) returns (t: Sched)
    requires Top(g, outputs, s, 1) && (s.nodes[1].op.GroupBy? || s.nodes[1].op.Concat?) && s.nodes[0].op.RawData?
    ensures Reaches(g, outputs, s, t) && Acyclic(g) && Inv(g, outputs, t) && OnlyThese(s, t, {0, 1})
    ensures
      var o, n, n' := MiddleOutcome(s.nodes[1].op, if s.nodes[0].hasValue then Some(s.nodes[0].value) else None), s.nodes[1], t.nodes[1];
      && n'.op == o.op && n'.produced == n.produced + Delivered(o) && n'.value == (if o.ok then o.value else n.value)
      && n'.hasValue == o.ok
      && t.nodes[0] == s.nodes[0].(status := t.nodes[0].status, hasValue := s.nodes[0].hasValue && 0 !in o.taken)
      && (o.ok ==> t.queue == [] && t.stack == s.stack[..|s.stack| - 1])
      && (!o.ok && (0 in o.taken || !s.nodes[0].hasValue) && s.nodes[0].status != Ended ==> t.queue == [0] && t.stack == s.stack)
  {
    hide AllFit, AllEnded;
    ReachesNext(g, outputs, s);
    t := Turn(g, s);
    MiddleSees(g, s.nodes);
    CalledBecomes(g, s, 1);
    ReadBecomes(g, s, 1, 0);
    RequestOne(RunBroadcast(g, s.nodes, 1, true), [], 0);
    RunAt(g, s.nodes, 1, true, 0);
    TakenIs(g, 1, ProcessIn(g, s.nodes, 1).taken, 0);
    forall x | 2 <= x < |s.nodes| ensures |t.nodes| == |s.nodes| && t.nodes[x] == s.nodes[x].(status := t.nodes[x].status) {
      MiddleFeedsNoStream(g, outputs, s, x);
      LeavesAlone(g, s, 1, x);
    }
    assert s.nodes[0].status != ToProcess;
    hide RunBroadcast, ProcessIn, MiddleOutcome, Request, Inv;
  }

  lemma MiddleFeedsNoStream(g: Graph, outputs: seq<nat>, s: Sched, x: nat)
    requires Acyclic(g) && Inv(g, outputs, s) && x < |s.nodes| && 2 <= |s.nodes| && (s.nodes[1].op.GroupBy? || s.nodes[1].op.Concat?)
    ensures s.nodes[x].op.RawData? ==> 1 !in g.preds[x]
  {
    assert FitsAt(g, s.nodes, x);
  }

  // The source delivers its next row.
  lemma NextRow(g: Graph, outputs: seq<nat>, s: Sched) returns (t: Sched)
    requires Acyclic(g) && Inv(g, outputs, s) && Unread(g, outputs) && 3 <= |g.preds| == |s.nodes| && g.preds[0] == []
    requires s.queue == [0] && s.nodes[0].op == RawData(ROWS, 0)
    ensures Reaches(g, outputs, s, t) && Inv(g, outputs, t) && OnlyThese(s, t, {0})
    ensures t.queue == [] && t.stack == s.stack && t.nodes[0].op == RawData(ROWS, 1) && t.nodes[0].hasValue
    ensures t.nodes[0].value == ROWS[1] && t.nodes[0].status == Idle
  {
    ReachesNext(g, outputs, s);
    t := Turn(g, s);
    CalledBecomes(g, s, 0);
    Runnable(g, s.nodes, 0);
    forall x | 1 <= x < |s.nodes| ensures |t.nodes| == |s.nodes| && t.nodes[x] == s.nodes[x].(status := t.nodes[x].status) {
      SourceFeedsNoStream(g, s, x);
      LeavesAlone(g, s, 0, x);
    }
    hide RunBroadcast, AllFit, AllEnded;
  }

  // The split takes a record and hands it to its streams.
  lemma SplitTurn(g: Graph, outputs: seq<nat>, s: Sched) returns (t: Sched)
    requires Top(g, outputs, s, 2) && s.nodes[2].op.Output? && s.nodes[1].hasValue
    ensures Reaches(g, outputs, s, t) && Inv(g, outputs, t) && |t.nodes| == |s.nodes|
    ensures t.queue == [] && t.stack == s.stack[..|s.stack| - 1]
    ensures t.nodes[0] == s.nodes[0].(status := t.nodes[0].status)
    ensures t.nodes[1] == s.nodes[1].(status := t.nodes[1].status, hasValue := false)
    ensures forall x :: 3 <= x < |s.nodes| && g.preds[x] != [2] ==> t.nodes[x] == s.nodes[x].(status := t.nodes[x].status)
    ensures forall x :: 3 <= x < |s.nodes| && g.preds[x] == [2] && s.nodes[x].op.RawData? ==>
      t.nodes[x].op == s.nodes[x].op.(rows := s.nodes[x].op.rows + [s.nodes[1].value]) && t.nodes[x].hasValue == s.nodes[x].hasValue
  {
    ReachesNext(g, outputs, s);
    t := Turn(g, s);
    var o := ProcessIn(g, s.nodes, 2);
    assert HeadsOf(g, s.nodes, 2)[0] == Some(s.nodes[1].value);
    CalledBecomes(g, s, 2);
    ReadBecomes(g, s, 2, 1);
    SourceFeedsNoSplit(g, s);
    LeavesAlone(g, s, 2, 0);
    forall x | 3 <= x < |s.nodes|
      ensures g.preds[x] != [2] ==> t.nodes[x] == s.nodes[x].(status := t.nodes[x].status)
      ensures g.preds[x] == [2] && s.nodes[x].op.RawData? ==>
        t.nodes[x].op == s.nodes[x].op.(rows := s.nodes[x].op.rows + [s.nodes[1].value]) && t.nodes[x].hasValue == s.nodes[x].hasValue
    {
      ReadsTheSplit(g, s, x);
      if s.nodes[x].op.RawData? && 2 in g.preds[x] {
        TurnNode(g, s, x);
        RunAt(g, s.nodes, 2, true, x);
        assert !Taken(g, 2, o.taken, x);
      } else {
        LeavesAlone(g, s, 2, x);
      }
    }
    hide RunBroadcast, AllFit, AllEnded, Inv;
  }

  lemma SourceFeedsNoSplit(g: Graph, s: Sched)
    requires Acyclic(g) && 3 <= |g.preds| && g.preds[0] == [] && g.preds[2] == [1]
    ensures 2 !in g.preds[0] && 0 !in g.preds[2]
  {
  }

  lemma ReadsTheSplit(g: Graph, s: Sched, x: nat)
    requires Acyclic(g) && AllFit(g, s.nodes) && 3 <= x < |s.nodes|
    ensures s.nodes[x].op.RawData? ==> (2 in g.preds[x] <==> g.preds[x] == [2])
  {
    assert FitsAt(g, s.nodes, x);
  }

  // The functors of c from place 1 to k are ready to pass on a record.
  ghost predicate PassAll(nodes: seq<Node>, c: seq<nat>, k: nat) {
    && forall j :: 1 <= j <= k && j < |c| ==>
         && c[j] < |nodes|
         && if j == |c| - 1 then nodes[c[j]].op.RawData? && nodes[c[j]].op.index == -1 && nodes[c[j]].op.rows != []
            else nodes[c[j]].op == Filter(KeepAll)
  }

  // The functor on top passes on what the next one holds.
  lemma PassTurn(g: Graph, outputs: seq<nat>, s: Sched, c: seq<nat>, k: nat) returns (t: Sched)
    requires Tail(g, c) && 1 <= k < |c| && Top(g, outputs, s, c[k])
    requires if k == |c| - 1 then s.nodes[c[k]].op.RawData? && s.nodes[c[k]].op.index == -1 && s.nodes[c[k]].op.rows != []
             else s.nodes[c[k]].op == Filter(KeepAll) && s.nodes[c[k + 1]].hasValue
    ensures Reaches(g, outputs, s, t) && Inv(g, outputs, t) && |t.nodes| == |s.nodes|
    ensures t.queue == [] && t.stack == s.stack[..|s.stack| - 1] && t.nodes[c[k]].hasValue
    ensures t.nodes[0] == s.nodes[0].(status := t.nodes[0].status) && t.nodes[1] == s.nodes[1].(status := t.nodes[1].status)
    ensures forall j :: 1 <= j < k ==> t.nodes[c[j]] == s.nodes[c[j]].(status := t.nodes[c[j]].status)
  {
    var f := c[k];
    assert g.preds[c[k]] == [Next(c, k)];
    ReachesNext(g, outputs, s);
    t := Turn(g, s);
    CalledBecomes(g, s, f);
    Runnable(g, s.nodes, f);
    PassDelivers(g, s, c, k);
    NoSplit(g, s, f, 0);
    NoSplit(g, s, f, 1);
    LeavesAlone(g, s, f, 0);
    LeavesAlone(g, s, f, 1);
    forall j | 1 <= j < k ensures t.nodes[c[j]] == s.nodes[c[j]].(status := t.nodes[c[j]].status) {
      NoSplit(g, s, f, c[j]);
      LeavesAlone(g, s, f, c[j]);
    }
    hide RunBroadcast, AllFit, AllEnded, Inv, ProcessIn;
  }

  lemma PassDelivers(g: Graph, s: Sched, c: seq<nat>, k: nat)
    requires Tail(g, c) && 1 <= k < |c| && CanRun(g, s.nodes, c[k])
    requires if k == |c| - 1 then s.nodes[c[k]].op.RawData? && s.nodes[c[k]].op.index == -1 && s.nodes[c[k]].op.rows != []
             else s.nodes[c[k]].op == Filter(KeepAll) && c[k + 1] < |s.nodes| && s.nodes[c[k + 1]].hasValue
    ensures ProcessIn(g, s.nodes, c[k]).ok && !ProcessIn(g, s.nodes, c[k]).op.Output?
  {
    assert g.preds[c[k]] == [Next(c, k)];
    if k < |c| - 1 {
      assert HeadsOf(g, s.nodes, c[k])[0] == Some(s.nodes[c[k + 1]].value);
    }
  }

  // Only splits have streams.
  lemma NoSplit(g: Graph, s: Sched, f: nat, x: nat)
    requires Acyclic(g) && AllFit(g, s.nodes) && x < |s.nodes| && f < |s.nodes| && !s.nodes[f].op.Output?
    ensures s.nodes[x].op.RawData? ==> f !in g.preds[x]
  {
    assert FitsAt(g, s.nodes, x);
  }

  ghost predicate Passing(g: Graph, outputs: seq<nat>, s: Sched, c: seq<nat>, below: seq<nat>, k: nat) {
    && Tail(g, c) && k < |c| && Acyclic(g) && Inv(g, outputs, s) && Unread(g, outputs) && 3 <= |g.preds| == |s.nodes|
    && g.preds[0] == [] && g.preds[1] == [0] && g.preds[2] == [1]
    && s.queue == [] && s.stack == below + c[1..k + 1]
    && PassAll(s.nodes, c, k) && (k + 1 < |c| ==> s.nodes[c[k + 1]].hasValue)
  }

  // From the stream up to place 1, every functor passes the record on.
  lemma {:induction false} PassOn(g: Graph, outputs: seq<nat>, s: Sched, c: seq<nat>, below: seq<nat>, k: nat) returns (t: Sched)
    requires Passing(g, outputs, s, c, below, k)
    ensures Reaches(g, outputs, s, t) && Inv(g, outputs, t) && |t.nodes| == |s.nodes|
    ensures t.queue == [] && t.stack == below
    ensures t.nodes[0] == s.nodes[0].(status := t.nodes[0].status) && t.nodes[1] == s.nodes[1].(status := t.nodes[1].status)
    decreases k
  {
    hide Inv, Reaches, Acyclic, Unread;
    if k == 0 {
      t := s;
      assert c[1..1] == [];
      Itself(g, outputs, s);
    } else {
      assert c[1..k + 1][..k - 1] == c[1..k] && c[1..k + 1][k - 1] == c[k];
      assert s.stack[..|s.stack| - 1] == below + c[1..k];
      assert Top(g, outputs, s, c[k]);
      var u := PassTurn(g, outputs, s, c, k);
      t := PassOn(g, outputs, u, c, below, k - 1);
      ReachesOn(g, outputs, s, u, t);
    }
  }

  lemma Itself(g: Graph, outputs: seq<nat>, s: Sched)
    requires Acyclic(g) && Inv(g, outputs, s) && Unread(g, outputs)
    ensures Reaches(g, outputs, s, s)
  {
    InQueue(g, outputs, s);
    ReachesItself(g, outputs, s);
  }

  // How the functors start.
  ghost predicate Bases(g: Graph, base: seq<Node>, c: seq<nat>) {
    && 3 <= |g.preds| == |base| && Tail(g, c)
    && base[0].op == RawData(ROWS, -1) && base[1].produced == [] && base[2].op.Output?
    && (forall x :: 0 <= x < |base| ==> !base[x].hasValue)
    && forall j :: 1 <= j < |c| ==>
         if j == |c| - 1 then base[c[j]].op.RawData? && base[c[j]].op.index == -1 else base[c[j]].op == Filter(KeepAll)
  }

  // The split takes what functor 1 holds, and the branch passes it on.
  lemma HandedDown(g: Graph, c: seq<nat>, outputs: seq<nat>, base: seq<Node>, s: Sched, below: seq<nat>) returns (t: Sched)
    requires Top(g, outputs, s, 2) && Bases(g, base, c) && s.stack == below + c[1..] + [2]
    requires s.nodes[1].hasValue && s.nodes[2].op.Output?
    requires forall x :: 3 <= x < |base| ==> s.nodes[x] == base[x].(status := s.nodes[x].status)
    ensures Reaches(g, outputs, s, t) && Inv(g, outputs, t) && |t.nodes| == |s.nodes| && t.queue == [] && t.stack == below
    ensures t.nodes[0] == s.nodes[0].(status := t.nodes[0].status)
    ensures t.nodes[1] == s.nodes[1].(status := t.nodes[1].status, hasValue := false)
  {
    hide Inv, Reaches, Acyclic, Unread;
    var u := SplitTurn(g, outputs, s);
    assert c[1..] == c[1..|c|] && u.stack == below + c[1..|c|];
    StillPassing(g, c, base, s, u);
    t := PassOn(g, outputs, u, c, below, |c| - 1);
    ReachesOn(g, outputs, s, u, t);
  }

  // The groupby takes the first two rows and delivers the first record.
  lemma DeliversFirst(g: Graph, outputs: seq<nat>, s: Sched) returns (t: Sched)
    requires Top(g, outputs, s, 1) && s.nodes[1].op == FRESH && s.nodes[1].produced == []
    requires s.nodes[0].op == RawData(ROWS, 0) && s.nodes[0].hasValue && s.nodes[0].value == ROWS[0] && s.nodes[0].status == Idle
    ensures Reaches(g, outputs, s, t) && Inv(g, outputs, t) && OnlyThese(s, t, {0, 1})
    ensures t.queue == [] && t.stack == s.stack[..|s.stack| - 1]
    ensures t.nodes[1].op == NEXT && t.nodes[1].produced == [Row(2, 10)] && t.nodes[1].hasValue
    ensures t.nodes[0].op == RawData(ROWS, 1) && !t.nodes[0].hasValue
  {
    hide Inv, Reaches, Acyclic, Unread, MiddleOutcome;
    GroupOutcomes();
    var u1 := MiddleTurn(g, outputs, s);
    var u2 := NextRow(g, outputs, u1);
    t := MiddleTurn(g, outputs, u2);
    ReachesOn(g, outputs, s, u1, u2);
    ReachesOn(g, outputs, s, u2, t);
  }

  // From there the groupby delivers the first record, and then, although its source has
  // another row of the second group, closes that group.
  lemma ClosesEarly(g: Graph, c: seq<nat>, outputs: seq<nat>, base: seq<Node>, s: Sched, below: seq<nat>) returns (t: Sched)
    requires Deep(g, c, outputs, base, s, below) && Bases(g, base, c) && base[1].op == FRESH && g.preds[0] == []
    ensures Reaches(g, outputs, s, t) && |t.nodes| == |base| && Inv(g, outputs, t)
    ensures t.nodes[1].produced == [Row(2, 10), Row(2, 20)] && t.nodes[0].op == RawData(ROWS, 1)
  {
    hide Inv, Reaches, Acyclic, Unread, MiddleOutcome;
    GroupOutcomes();
    HeldLength(g, outputs, base, s);
    var under := below + [2, c[0], 1];
    assert s.stack == (under + c[1..] + [2]) + [1];
    var u := DeliversFirst(g, outputs, s);
    assert u.stack == under + c[1..] + [2];
    var v := HandedDown(g, c, outputs, base, u, under);
    assert under == (below + [2, c[0]]) + [1];
    t := MiddleTurn(g, outputs, v);
    ReachesOn(g, outputs, s, u, v);
    ReachesOn(g, outputs, s, v, t);
  }

  // The calls of the groupby in this run.
  lemma GroupOutcomes()
    ensures MiddleOutcome(FRESH, Some(ROWS[0])) == Outcome(OPEN, false, NO_ROW, {0})
    ensures MiddleOutcome(OPEN, Some(ROWS[1])) == Outcome(NEXT, true, Row(2, 10), {0})
    ensures MiddleOutcome(NEXT, None).ok && MiddleOutcome(NEXT, None).value == Row(2, 20)
  {
  }

  // From there the concat delivers the first row, and then, although its source has two
  // more, passes over it.
  lemma SkipsEarly(g: Graph, c: seq<nat>, outputs: seq<nat>, base: seq<Node>, s: Sched, below: seq<nat>) returns (t: Sched)
    requires Deep(g, c, outputs, base, s, below) && Bases(g, base, c) && base[1].op == Concat(0) && g.preds[0] == []
    ensures Reaches(g, outputs, s, t) && |t.nodes| == |base| && Inv(g, outputs, t)
    ensures t.nodes[1].op == Concat(1) && t.nodes[1].produced == [ROWS[0]] && t.nodes[0].op == RawData(ROWS, 0)
  {
    hide Inv, Reaches, Acyclic, Unread, MiddleOutcome;
    ConcatOutcomes();
    HeldLength(g, outputs, base, s);
    var under := below + [2, c[0], 1];
    assert s.stack == (under + c[1..] + [2]) + [1];
    var u1 := MiddleTurn(g, outputs, s);
    assert u1.stack == under + c[1..] + [2];
    var u2 := HandedDown(g, c, outputs, base, u1, under);
    assert under == (below + [2, c[0]]) + [1];
    t := MiddleTurn(g, outputs, u2);
    ReachesOn(g, outputs, s, u1, u2);
    ReachesOn(g, outputs, s, u2, t);
  }

  // The calls of the concat in this run.
  lemma ConcatOutcomes()
    ensures MiddleOutcome(Concat(0), Some(ROWS[0])) == Outcome(Concat(0), true, ROWS[0], {0})
    ensures MiddleOutcome(Concat(0), None) == Failed(Concat(1))
  {
    assert SkipEmpty([None], 1) == 1;
  }

  // The split handed a row to the stream of c; the filters are as at the start.
  lemma StillPassing(g: Graph, c: seq<nat>, base: seq<Node>, s: Sched, t: Sched)
    requires Bases(g, base, c) && |s.nodes| == |t.nodes| == |base|
    requires forall x :: 3 <= x < |base| ==> s.nodes[x] == base[x].(status := s.nodes[x].status)
    requires forall x :: 3 <= x < |s.nodes| && g.preds[x] != [2] ==> t.nodes[x] == s.nodes[x].(status := t.nodes[x].status)
    requires forall x :: 3 <= x < |s.nodes| && g.preds[x] == [2] && s.nodes[x].op.RawData? ==>
      t.nodes[x].op == s.nodes[x].op.(rows := s.nodes[x].op.rows + [s.nodes[1].value]) && t.nodes[x].hasValue == s.nodes[x].hasValue
    ensures PassAll(t.nodes, c, |c| - 1)
  {
    forall j | 1 <= j < |c|
      ensures
        && c[j] < |t.nodes|
        && if j == |c| - 1 then t.nodes[c[j]].op.RawData? && t.nodes[c[j]].op.index == -1 && t.nodes[c[j]].op.rows != []
           else t.nodes[c[j]].op == Filter(KeepAll)
    {
      assert g.preds[c[j]] == [Next(c, j)];
    }
  }

  // ---------------------------------------------------------------------- the whole run

  ghost function WitnessOp(first: seq<nat>, second: seq<nat>, middle: Op, x: nat): (r: Op)
    requires first != [] && second != []
  {
    if x == 0 then RawData(ROWS, -1)
    else if x == 1 then middle
    else if x == 2 || x == first[0] || x == second[0] then Output([])
    else if x == first[|first| - 1] || x == second[|second| - 1] then RawData([], -1)
    else Filter(KeepAll)
  }

  // The source has the three rows, and the filters keep every row.
  ghost function Witness(g: Graph, first: seq<nat>, second: seq<nat>, middle: Op): (s: Sched)
    requires first != [] && second != []
    ensures |s.nodes| == |g.preds| && s.queue == [] && s.stack == []
    ensures forall x :: 0 <= x < |s.nodes| ==> s.nodes[x] == Node(WitnessOp(first, second, middle, x), false, Idle, NO_ROW, [])
  {
    Sched(seq(|g.preds|, x requires 0 <= x < |g.preds| => Node(WitnessOp(first, second, middle, x), false, Idle, NO_ROW, [])), [], [])
  }

  lemma WitnessOnBranch(g: Graph, first: seq<nat>, second: seq<nat>, middle: Op, c: seq<nat>, k: nat)
    requires Fork(g, first, second) && Middle(middle) && (c == first || c == second) && k < |c|
    ensures
      var op := WitnessOp(first, second, middle, c[k]);
      if k == 0 then op == Output([]) else if k == |c| - 1 then op == RawData([], -1) else op == Filter(KeepAll)
  {
  }

  lemma WitnessFits(g: Graph, first: seq<nat>, second: seq<nat>, middle: Op, f: nat)
    requires Fork(g, first, second) && Middle(middle) && f < |g.preds|
    ensures FitsAt(g, Witness(g, first, second, middle).nodes, f)
  {
    hide Fork;
    ThreePlaces(g, first, second, middle);
    var nodes := Witness(g, first, second, middle).nodes;
    Places(g, first, second, f);
    if k: nat :| OnBranch(g, first, f, k) {
      WitnessOnBranch(g, first, second, middle, first, k);
      if k + 1 < |first| {
        WitnessOnBranch(g, first, second, middle, first, k + 1);
      }
    } else if k: nat :| OnBranch(g, second, f, k) {
      WitnessOnBranch(g, first, second, middle, second, k);
      if k + 1 < |second| {
        WitnessOnBranch(g, first, second, middle, second, k + 1);
      }
    }
  }

  lemma ThreePlaces(g: Graph, first: seq<nat>, second: seq<nat>, middle: Op)
    requires Fork(g, first, second) && Middle(middle)
    ensures 3 <= |g.preds| && Acyclic(g) && g.preds[0] == [] && g.preds[1] == [0] && g.preds[2] == [1]
    ensures WitnessOp(first, second, middle, 0) == RawData(ROWS, -1) && WitnessOp(first, second, middle, 1) == middle
    ensures WitnessOp(first, second, middle, 2) == Output([]) && 2 <= |first| && 2 <= |second|
    ensures forall k :: 0 <= k < |first| ==> 3 <= first[k] < |g.preds|
    ensures forall k :: 0 <= k < |second| ==> 3 <= second[k] < |g.preds|
  {
  }

  lemma WitnessStarts(g: Graph, first: seq<nat>, second: seq<nat>, middle: Op)
    requires Fork(g, first, second) && Middle(middle)
    ensures ForkStart(g, first, second, Witness(g, first, second, middle))
  {
    hide Fork, FitsAt;
    ThreePlaces(g, first, second, middle);
    var s := Witness(g, first, second, middle);
    forall f | 0 <= f < |s.nodes| ensures FitsAt(g, s.nodes, f) {
      WitnessFits(g, first, second, middle, f);
    }
    forall k | 0 <= k < |first| ensures s.nodes[first[k]].op == WitnessOp(first, second, middle, first[k]) {
      WitnessOnBranch(g, first, second, middle, first, k);
    }
    forall k | 0 <= k < |first|
      ensures
        if k == 0 then s.nodes[first[k]].op.Output?
        else if k == |first| - 1 then s.nodes[first[k]].op.RawData?
        else s.nodes[first[k]].op.Filter?
    {
      WitnessOnBranch(g, first, second, middle, first, k);
    }
    forall k | 0 <= k < |second|
      ensures
        if k == 0 then s.nodes[second[k]].op.Output?
        else if k == |second| - 1 then s.nodes[second[k]].op.RawData?
        else s.nodes[second[k]].op.Filter?
    {
      WitnessOnBranch(g, first, second, middle, second, k);
    }
  }

  lemma FirstRound(g: Graph, first: seq<nat>, second: seq<nat>, middle: Op)
    requires Fork(g, first, second) && Middle(middle)
    ensures
      var s, a, b := Witness(g, first, second, middle), first[0], second[0];
      && a < |s.nodes| && b < |s.nodes| && a != b
      && Round(g, [a, b], s) == Sched(WithStatus(WithStatus(s.nodes, a, ToProcess), b, ToProcess), [a, b], [])
  {
    ReseedTwo(Witness(g, first, second, middle), first[0], second[0]);
  }

  lemma StartLocks(g: Graph, first: seq<nat>, second: seq<nat>, middle: Op) returns (t: Sched)
    requires Fork(g, first, second) && Middle(middle)
    ensures
      var s, outputs := Witness(g, first, second, middle), [first[0], second[0]];
      && Lock(g, first, second, outputs, s.nodes, t, 0) && Reaches(g, outputs, s, t)
  {
    ThreePlaces(g, first, second, middle);
    var s, outputs: seq<nat> := Witness(g, first, second, middle), [first[0], second[0]];
    WitnessStarts(g, first, second, middle);
    OutputsUnread(g, first, second);
    UnusedIsInv(g, outputs, s);
    hide Inv, FitsAt, WitnessOp, AllFit, Round, Reaches, Untouched, Unread;
    FirstRound(g, first, second, middle);
    t := Round(g, outputs, s);
    RoundKeeps(g, outputs, s);
    InQueue(g, outputs, s);
    ReachesRound(g, outputs, s);
    assert Calm(s.nodes, t.nodes);
    FirstIdle(g, first, second, t.nodes);
  }

  lemma FirstIdle(g: Graph, first: seq<nat>, second: seq<nat>, nodes: seq<Node>)
    requires Fork(g, first, second) && |nodes| == |g.preds|
    requires forall x :: 0 <= x < |nodes| && x != first[0] && x != second[0] ==> nodes[x].status == Idle
    ensures IdleFrom(nodes, first, 1) && IdleFrom(nodes, second, 1) && IdleFrom(nodes, [0, 1, 2], 0)
  {
  }

  lemma ReachesRound(g: Graph, outputs: seq<nat>, s: Sched)
    requires InRange(outputs, |s.nodes|)
    ensures Reaches(g, outputs, s, Round(g, outputs, s))
  {
    hide Round;
    assert Turns(g, outputs, Round(g, outputs, s), 0) == Round(g, outputs, s);
    assert Turns(g, outputs, s, 1) == Round(g, outputs, s);
  }

  lemma ReseedTwo(s: Sched, a: nat, b: nat)
    requires a < |s.nodes| && b < |s.nodes| && a != b && s.queue == []
    requires s.nodes[a].status == Idle && s.nodes[b].status == Idle
    ensures Reseed(s, [a, b]) == Sched(WithStatus(WithStatus(s.nodes, a, ToProcess), b, ToProcess), [a, b], s.stack)
  {
    assert [a, b][1..] == [b] && [b][1..] == [];
    var s1 := s.(nodes := WithStatus(s.nodes, a, ToProcess), queue := s.queue + [a]);
    assert s1.queue == [a];
    assert Reseed(s, [a, b]) == Reseed(s1, [b]);
    var s2 := s1.(nodes := WithStatus(s1.nodes, b, ToProcess), queue := s1.queue + [b]);
    assert Reseed(s1, [b]) == Reseed(s2, []);
    assert s2.queue == [a, b];
  }

  lemma TailBases(g: Graph, first: seq<nat>, second: seq<nat>, middle: Op, c: seq<nat>, r: nat)
    requires Fork(g, first, second) && Middle(middle) && (c == first || c == second) && 1 <= r < |c|
    ensures Bases(g, Witness(g, first, second, middle).nodes, c[r..])
  {
    hide Fork;
    ThreePlaces(g, first, second, middle);
    var base, d := Witness(g, first, second, middle).nodes, c[r..];
    assert Tail(g, d) by {
      BranchesAre(g, first, second);
      TailOf(g, c, r);
    }
    forall j | 1 <= j < |d|
      ensures if j == |d| - 1 then base[d[j]].op.RawData? && base[d[j]].op.index == -1 else base[d[j]].op == Filter(KeepAll)
    {
      assert d[j] == c[r + j];
      WitnessOnBranch(g, first, second, middle, c, r + j);
    }
  }

  lemma BranchesAre(g: Graph, first: seq<nat>, second: seq<nat>)
    requires Fork(g, first, second)
    ensures Branch(g, first) && Branch(g, second)
  {
  }

  // When the branches do not fit, the run of the witness comes to have the split on the
  // stack twice.
  lemma UnevenIsDeep(g: Graph, first: seq<nat>, second: seq<nat>, middle: Op) returns (c: seq<nat>, below: seq<nat>, t: Sched)
    requires Fork(g, first, second) && Middle(middle) && |first| != |second| && |first| != |second| + 1
    ensures
      var s, outputs := Witness(g, first, second, middle), [first[0], second[0]];
      Reaches(g, outputs, s, t) && Deep(g, c, outputs, s.nodes, t, below) && Bases(g, s.nodes, c)
  {
    hide Fork, Lock, Meets, Deep, Bases, Reaches, Inv;
    ThreePlaces(g, first, second, middle);
    var base, outputs: seq<nat> := Witness(g, first, second, middle).nodes, [first[0], second[0]];
    var s := Witness(g, first, second, middle);
    var u := StartLocks(g, first, second, middle);
    var v, w;
    if |first| < |second| {
      v := LockRun(g, first, second, outputs, base, u, 0, |first| - 1);
      w := MeetsLater(g, first, second, outputs, base, v, |first| - 1);
      c := second[|first|..];
      TailBases(g, first, second, middle, second, |first|);
    } else {
      v := LockRun(g, first, second, outputs, base, u, 0, |second| - 1);
      w := MeetsSooner(g, first, second, outputs, base, v, |second| - 1);
      c := first[|second| + 1..];
      TailBases(g, first, second, middle, first, |second| + 1);
    }
    below := w.stack;
    t := Descend(g, c, outputs, base, w);
    ReachesOn(g, outputs, s, u, v);
    ReachesOn(g, outputs, s, v, w);
    ReachesOn(g, outputs, s, w, t);
  }

  // Then a groupby closes the second group early.
  lemma UnevenCloses(g: Graph, first: seq<nat>, second: seq<nat>) returns (t: Sched)
    requires Fork(g, first, second) && |first| != |second| && |first| != |second| + 1
    ensures Reaches(g, [first[0], second[0]], Witness(g, first, second, FRESH), t)
    ensures 2 <= |t.nodes| == |g.preds| && Inv(g, [first[0], second[0]], t)
    ensures t.nodes[1].produced == [Row(2, 10), Row(2, 20)] && t.nodes[0].op == RawData(ROWS, 1)
  {
    hide Fork, Deep, Bases, Reaches, Inv;
    ThreePlaces(g, first, second, FRESH);
    var s, outputs: seq<nat> := Witness(g, first, second, FRESH), [first[0], second[0]];
    var c, below, u := UnevenIsDeep(g, first, second, FRESH);
    t := ClosesEarly(g, c, outputs, s.nodes, u, below);
    ReachesOn(g, outputs, s, u, t);
  }

  // And a concat passes over its source early.
  lemma UnevenSkips(g: Graph, first: seq<nat>, second: seq<nat>) returns (t: Sched)
    requires Fork(g, first, second) && |first| != |second| && |first| != |second| + 1
    ensures Reaches(g, [first[0], second[0]], Witness(g, first, second, Concat(0)), t)
    ensures 2 <= |t.nodes| == |g.preds| && Inv(g, [first[0], second[0]], t)
    ensures t.nodes[1].op == Concat(1) && t.nodes[1].produced == [ROWS[0]] && t.nodes[0].op == RawData(ROWS, 0)
  {
    hide Fork, Deep, Bases, Reaches, Inv;
    ThreePlaces(g, first, second, Concat(0));
    var s, outputs: seq<nat> := Witness(g, first, second, Concat(0)), [first[0], second[0]];
    var c, below, u := UnevenIsDeep(g, first, second, Concat(0));
    t := SkipsEarly(g, c, outputs, s.nodes, u, below);
    ReachesOn(g, outputs, s, u, t);
  }

  // ------------------------------------------------------------ what the outputs end with

  lemma {:induction false} ProducedGrows(g: Graph, outputs: seq<nat>, s: Sched, x: nat, n: nat)
    requires Acyclic(g) && Inv(g, outputs, s) && Unread(g, outputs) && x < |s.nodes|
    ensures InRange(outputs, |s.nodes|) && s.nodes[x].produced <= Turns(g, outputs, s, n).nodes[x].produced
    decreases n
  {
    hide Inv, Round;
    InQueue(g, outputs, s);
    if n != 0 {
      RoundKeeps(g, outputs, s);
      RoundGrows(g, outputs, s, x);
      ProducedGrows(g, outputs, Round(g, outputs, s), x, n - 1);
    }
  }

  lemma RoundGrows(g: Graph, outputs: seq<nat>, s: Sched, x: nat)
    requires InRange(outputs, |s.nodes|) && x < |s.nodes|
    ensures s.nodes[x].produced <= Round(g, outputs, s).nodes[x].produced
  {
    if s.queue == [] && s.stack == [] {
      ReseedWorks(s, outputs, x);
    } else if CanTurn(g, s) {
      TurnWorks(g, s, x, true);
      if Called(g, s).Some? {
        WorkAt(g, s.nodes, Called(g, s).value, true, x);
      }
      hide Turn, RunBroadcast, ProcessIn;
    }
  }

  // A concat that has passed over its only stream stays as it is.
  lemma PassedOver(g: Graph, outputs: seq<nat>, s: Sched)
    requires Acyclic(g) && Inv(g, outputs, s) && InRange(outputs, |s.nodes|) && 1 < |g.preds| && g.preds[1] == [0]
    requires s.nodes[1].op == Concat(1)
    ensures SameWork(Round(g, outputs, s).nodes[1], s.nodes[1])
  {
    if s.queue == [] && s.stack == [] {
      ReseedWorks(s, outputs, 1);
    } else if CanTurn(g, s) {
      TurnWorks(g, s, 1, true);
      if Called(g, s).Some? {
        PassedOverFails(g, s.nodes);
        WorkAt(g, s.nodes, Called(g, s).value, true, 1);
      }
      hide Turn, RunBroadcast, ProcessIn;
    }
  }

  lemma PassedOverFails(g: Graph, nodes: seq<Node>)
    requires Acyclic(g) && AllFit(g, nodes) && 1 < |g.preds| && g.preds[1] == [0] && nodes[1].op == Concat(1)
    ensures CanRun(g, nodes, 1) && ProcessIn(g, nodes, 1) == Failed(Concat(1))
  {
    assert FitsAt(g, nodes, 1);
  }

  lemma {:induction false} StaysPassedOver(g: Graph, outputs: seq<nat>, s: Sched, n: nat)
    requires Acyclic(g) && Inv(g, outputs, s) && Unread(g, outputs) && 1 < |g.preds| && g.preds[1] == [0]
    requires s.nodes[1].op == Concat(1)
    ensures InRange(outputs, |s.nodes|) && SameWork(Turns(g, outputs, s, n).nodes[1], s.nodes[1])
    decreases n
  {
    InQueue(g, outputs, s);
    if n != 0 {
      RoundKeeps(g, outputs, s);
      PassedOver(g, outputs, s);
      hide Inv, Round;
      StaysPassedOver(g, outputs, Round(g, outputs, s), n - 1);
    }
  }

  lemma {:induction false} KeepsAll(rows: seq<Row>)
    ensures Matching(KeepAll, rows) == rows
    decreases |rows|
  {
    if rows != [] {
      KeepsAll(rows[1..]);
    }
  }

  // What the three rows stand for after grouping.
  lemma RowsGrouped()
    ensures Records(Sum, Runs(ROWS)) == [Row(2, 10), Row(2, 50)]
  {
    RunsOf([Row(1, 10)], [Row(2, 20), Row(2, 30)], 1);
    RunsOf([Row(2, 20), Row(2, 30)], [], 2);
    assert ROWS == [Row(1, 10)] + [Row(2, 20), Row(2, 30)];
    assert [Row(2, 20), Row(2, 30)] + [] == [Row(2, 20), Row(2, 30)];
    RecordsCons(Sum, [Row(2, 20), Row(2, 30)], []);
    RecordsCons(Sum, [Row(1, 10)], [[Row(2, 20), Row(2, 30)]]);
    assert [Row(2, 20), Row(2, 30)][..1] == [Row(2, 20)] && [Row(2, 20)][..0] == [] && [Row(1, 10)][..0] == [];
    assert [[Row(2, 20), Row(2, 30)]] + [] == [[Row(2, 20), Row(2, 30)]];
    NoRecords(Sum);
  }

  // What functor 1 means, and with it the split.
  function MeantBy(middle: Op): (r: seq<Row>) {
    if middle.Concat? then ROWS else [Row(2, 10), Row(2, 50)]
  }

  lemma SplitMeans(g: Graph, first: seq<nat>, second: seq<nat>, middle: Op)
    requires Fork(g, first, second) && Middle(middle) && ForkStart(g, first, second, Witness(g, first, second, middle))
    ensures Means(g, Witness(g, first, second, middle).nodes, 2) == MeantBy(middle)
  {
    hide Fork, Records, Runs, Flatten;
    ThreePlaces(g, first, second, middle);
    RowsGrouped();
    var nodes := Witness(g, first, second, middle).nodes;
    assert Means(g, nodes, 0) == ROWS;
    assert MeansOfPreds(g, nodes, 1) == [ROWS];
    OneFlat(ROWS);
    assert Means(g, nodes, 1) == MeantBy(middle);
    assert MeansOfPreds(g, nodes, 2)[0] == Means(g, nodes, 1);
  }

  lemma OneFlat(rows: seq<Row>)
    ensures Flatten([rows]) == rows
  {
    assert [rows][1..] == [];
  }

  // A stream, an output and a filter that keeps every row mean what they read.
  lemma MeansTheSame(g: Graph, nodes: seq<Node>, x: nat, y: nat)
    requires Acyclic(g) && AllFit(g, nodes) && x < |nodes| && y < |nodes| && g.preds[x] == [y]
    requires forall i :: 0 <= i < |nodes| ==> FreshOp(nodes[i].op)
    requires nodes[x].op.RawData? || nodes[x].op.Output? || nodes[x].op == Filter(KeepAll)
    ensures Means(g, nodes, x) == Means(g, nodes, y)
  {
    assert FitsAt(g, nodes, x);
    if !nodes[x].op.RawData? {
      assert MeansOfPreds(g, nodes, x)[0] == Means(g, nodes, y);
      KeepsAll(Means(g, nodes, y));
    }
  }

  // Every functor of a branch means what the split means.
  lemma {:induction false} BranchMeans(g: Graph, first: seq<nat>, second: seq<nat>, middle: Op, c: seq<nat>, k: nat)
    requires Fork(g, first, second) && Middle(middle) && ForkStart(g, first, second, Witness(g, first, second, middle))
    requires (c == first || c == second) && k < |c|
    ensures c[k] < |g.preds| && Means(g, Witness(g, first, second, middle).nodes, c[k]) == Means(g, Witness(g, first, second, middle).nodes, 2)
    decreases |c| - k
  {
    hide Fork, Means, AllFit, WitnessOp;
    ThreePlaces(g, first, second, middle);
    BranchesAre(g, first, second);
    BranchPlace(g, c, k);
    WitnessOnBranch(g, first, second, middle, c, k);
    if k + 1 < |c| {
      BranchMeans(g, first, second, middle, c, k + 1);
    }
    MeansTheSame(g, Witness(g, first, second, middle).nodes, c[k], Next(c, k));
  }

  // ----------------------------------------------------------- at the end of such a run

  // The functor read by a branch's functor has ended with it.
  lemma EndsBefore(g: Graph, outputs: seq<nat>, nodes: seq<Node>, x: nat, y: nat)
    requires Acyclic(g) && AllFit(g, nodes) && AllEnded(g, outputs, nodes) && x < |nodes| && y < |nodes|
    requires g.preds[x] == [y] && Patient(nodes[x].op) && nodes[x].status == Ended
    ensures nodes[y].status == Ended
  {
    assert EndedAt(g, outputs, nodes, x) && FitsAt(g, nodes, x);
    assert Gone(g, nodes, x)[0] == (nodes[y].status == Ended);
  }

  // A reader that has ended has delivered what it makes of all that it read.
  lemma EndPasses(g: Graph, outputs: seq<nat>, s: Sched, x: nat, y: nat, n: nat)
    requires Acyclic(g) && Unused(g, s) && Unread(g, outputs) && OneReader(g, s.nodes) && Reads(g, s.nodes, x, y)
    requires s.nodes[x].op.Output? || s.nodes[x].op == Filter(KeepAll)
    requires InRange(outputs, |s.nodes|) && |Turns(g, outputs, s, n).nodes| == |s.nodes| && Turns(g, outputs, s, n).nodes[x].status == Ended
    ensures
      var t := Turns(g, outputs, s, n);
      t.nodes[y].status == Ended && t.nodes[x].produced == t.nodes[y].produced
  {
    var t := Turns(g, outputs, s, n);
    UnusedIsInv(g, outputs, s);
    InvStays(g, outputs, s, n);
    assert Passed(s.nodes, x, y);
    RunPasses(g, outputs, s, x, y, n);
    assert g.preds[x][0] == y;
    hide Turns, Unused;
    EndsBefore(g, outputs, t.nodes, x, y);
    assert EndedAt(g, outputs, t.nodes, y);
    KeepsAll(t.nodes[y].produced);
  }

  // The witness and its graph are as the general theorems want them.
  lemma WitnessIsFit(g: Graph, first: seq<nat>, second: seq<nat>, middle: Op)
    requires Fork(g, first, second) && Middle(middle)
    ensures
      var s, outputs := Witness(g, first, second, middle), [first[0], second[0]];
      && Acyclic(g) && Unused(g, s) && Unread(g, outputs) && OneReader(g, s.nodes) && InRange(outputs, |s.nodes|)
  {
    hide OneReader, Unread;
    WitnessStarts(g, first, second, middle);
    ForkIsShaped(g, first, second, Witness(g, first, second, middle));
    OutputsUnread(g, first, second);
  }

  // On a branch, functor k reads functor k + 1 and passes on all it reads.
  lemma BranchReads(g: Graph, first: seq<nat>, second: seq<nat>, middle: Op, c: seq<nat>, k: nat)
    requires Fork(g, first, second) && Middle(middle) && (c == first || c == second) && k + 1 < |c|
    ensures
      var nodes := Witness(g, first, second, middle).nodes;
      && Reads(g, nodes, c[k], c[k + 1])
      && (nodes[c[k]].op.Output? || nodes[c[k]].op == Filter(KeepAll))
  {
    hide WitnessOp;
    BranchPlace(g, c, k);
    WitnessOnBranch(g, first, second, middle, c, k);
    WitnessOnBranch(g, first, second, middle, c, k + 1);
    assert 3 <= c[k] < |g.preds| && 3 <= c[k + 1] < |g.preds| && c[k] != c[k + 1];
  }

  lemma SplitReads(g: Graph, first: seq<nat>, second: seq<nat>, middle: Op, c: seq<nat>)
    requires Fork(g, first, second) && Middle(middle) && (c == first || c == second)
    ensures
      var nodes, j := Witness(g, first, second, middle).nodes, c[|c| - 1];
      Reads(g, nodes, 2, 1) && nodes[2].op.Output? && IsStream(g, nodes, 2, j)
  {
    var j := c[|c| - 1];
    BranchPlace(g, c, |c| - 1);
    WitnessOnBranch(g, first, second, middle, c, |c| - 1);
  }

  lemma TurnsLength(g: Graph, outputs: seq<nat>, s: Sched, n: nat)
    requires InRange(outputs, |s.nodes|)
    ensures |Turns(g, outputs, s, n).nodes| == |s.nodes|
  {
  }

  // At the end all of a branch has ended, having delivered what its output holds.
  lemma {:induction false} BranchEnds(g: Graph, first: seq<nat>, second: seq<nat>, middle: Op, c: seq<nat>, n: nat, k: nat)
    requires Fork(g, first, second) && Middle(middle) && (c == first || c == second) && k < |c| && c[0] < |g.preds| && c[k] < |g.preds|
    requires first[0] < |g.preds| && second[0] < |g.preds|
    requires Turns(g, [first[0], second[0]], Witness(g, first, second, middle), n).nodes[c[0]].status == Ended
    ensures
      var nodes := Turns(g, [first[0], second[0]], Witness(g, first, second, middle), n).nodes;
      nodes[c[k]].status == Ended && nodes[c[k]].produced == nodes[c[0]].produced
    decreases k
  {
    hide Turns, Witness, Reads, Unused, OneReader;
    if k > 0 {
      BranchReads(g, first, second, middle, c, k - 1);
      WitnessIsFit(g, first, second, middle);
      ReadsInRange(g, first, second, c, k - 1);
      hide Fork;
      BranchEnds(g, first, second, middle, c, n, k - 1);
      TurnsLength(g, [first[0], second[0]], Witness(g, first, second, middle), n);
      EndPasses(g, [first[0], second[0]], Witness(g, first, second, middle), c[k - 1], c[k], n);
    }
  }

  lemma ReadsInRange(g: Graph, first: seq<nat>, second: seq<nat>, c: seq<nat>, k: nat)
    requires Fork(g, first, second) && (c == first || c == second) && k + 1 < |c|
    ensures c[k] < |g.preds| && c[k + 1] < |g.preds|
  {
  }

  // The output of a branch holds what the groupby delivered.
  lemma OutputHoldsGroups(g: Graph, first: seq<nat>, second: seq<nat>, middle: Op, c: seq<nat>, n: nat)
    requires Fork(g, first, second) && Middle(middle) && (c == first || c == second) && 3 <= |g.preds|
    requires first[0] < |g.preds| && second[0] < |g.preds|
    requires Turns(g, [first[0], second[0]], Witness(g, first, second, middle), n).nodes[c[0]].status == Ended
    ensures
      var nodes := Turns(g, [first[0], second[0]], Witness(g, first, second, middle), n).nodes;
      nodes[c[0]].produced == nodes[1].produced
  {
    hide Turns, Witness, Reads, Unused, OneReader, IsStream;
    var s, outputs: seq<nat>, j := Witness(g, first, second, middle), [first[0], second[0]], c[|c| - 1];
    WitnessIsFit(g, first, second, middle);
    SplitReads(g, first, second, middle, c);
    ReadsInRange(g, first, second, c, |c| - 2);
    hide Fork;
    BranchEnds(g, first, second, middle, c, n, |c| - 1);
    TurnsLength(g, outputs, s, n);
    StreamsInStep(g, outputs, s, 2, j, n);
    EndPasses(g, outputs, s, 2, 1, n);
  }

  // The run of the witness goes on from t until it is over; then both outputs hold what
  // functor 1 has delivered.
  lemma UnevenEnds(g: Graph, first: seq<nat>, second: seq<nat>, middle: Op, t: Sched) returns (n: nat, more: nat)
    requires Fork(g, first, second) && Middle(middle)
    requires Reaches(g, [first[0], second[0]], Witness(g, first, second, middle), t) && Inv(g, [first[0], second[0]], t)
    ensures
      var s, outputs := Witness(g, first, second, middle), [first[0], second[0]];
      && InRange(outputs, |s.nodes|) && InRange(outputs, |t.nodes|) && first[0] < |s.nodes| && second[0] < |s.nodes|
      && Turns(g, outputs, s, n) == Turns(g, outputs, t, more) && Over(outputs, Turns(g, outputs, s, n))
      && Turns(g, outputs, s, n).nodes[first[0]].produced == Turns(g, outputs, s, n).nodes[1].produced
      && Turns(g, outputs, s, n).nodes[second[0]].produced == Turns(g, outputs, s, n).nodes[1].produced
  {
    hide Turns, Witness, Fork, Inv, Over, Unused, OneReader;
    ThreePlaces(g, first, second, middle);
    var s, outputs: seq<nat> := Witness(g, first, second, middle), [first[0], second[0]];
    WitnessIsFit(g, first, second, middle);
    ReadsInRange(g, first, second, first, 0);
    ReadsInRange(g, first, second, second, 0);
    more := RunEnds(g, outputs, t);
    var m: nat :| Turns(g, outputs, s, m) == t;
    TurnsAdd(g, outputs, s, m, more);
    n := m + more;
    OverIsEnded(g, outputs, s, n);
    assert outputs[0] == first[0] && outputs[1] == second[0];
    OutputHoldsGroups(g, first, second, middle, first, n);
    OutputHoldsGroups(g, first, second, middle, second, n);
  }

  // With a groupby both outputs begin with the two records of a group closed early.
  lemma UnevenRun(g: Graph, first: seq<nat>, second: seq<nat>) returns (n: nat)
    requires Fork(g, first, second) && |first| != |second| && |first| != |second| + 1
    ensures
      var s, outputs := Witness(g, first, second, FRESH), [first[0], second[0]];
      && InRange(outputs, |s.nodes|) && first[0] < |s.nodes| && second[0] < |s.nodes| && Over(outputs, Turns(g, outputs, s, n))
      && [Row(2, 10), Row(2, 20)] <= Turns(g, outputs, s, n).nodes[first[0]].produced
      && [Row(2, 10), Row(2, 20)] <= Turns(g, outputs, s, n).nodes[second[0]].produced
  {
    hide Turns, Witness, Fork, Inv, Over, Reaches;
    ThreePlaces(g, first, second, FRESH);
    OutputsUnread(g, first, second);
    var t := UnevenCloses(g, first, second);
    var more: nat;
    n, more := UnevenEnds(g, first, second, FRESH, t);
    ProducedGrows(g, [first[0], second[0]], t, 1, more);
  }

  // With a concat both outputs hold the first of the three rows and nothing else.
  lemma UnevenConcatRun(g: Graph, first: seq<nat>, second: seq<nat>) returns (n: nat)
    requires Fork(g, first, second) && |first| != |second| && |first| != |second| + 1
    ensures
      var s, outputs := Witness(g, first, second, Concat(0)), [first[0], second[0]];
      && InRange(outputs, |s.nodes|) && first[0] < |s.nodes| && second[0] < |s.nodes| && Over(outputs, Turns(g, outputs, s, n))
      && Turns(g, outputs, s, n).nodes[first[0]].produced == [ROWS[0]]
      && Turns(g, outputs, s, n).nodes[second[0]].produced == [ROWS[0]]
  {
    hide Turns, Witness, Fork, Inv, Over, Reaches;
    ThreePlaces(g, first, second, Concat(0));
    OutputsUnread(g, first, second);
    var t := UnevenSkips(g, first, second);
    var more: nat;
    n, more := UnevenEnds(g, first, second, Concat(0), t);
    StaysPassedOver(g, [first[0], second[0]], t, more);
  }

  // For branches that do not fit there are rows for which the outputs do not hold what
  // they mean.
  lemma UnevenIsWrong(g: Graph, first: seq<nat>, second: seq<nat>, middle: Op)
    requires Fork(g, first, second) && Middle(middle) && |first| != |second| && |first| != |second| + 1
    ensures
      var s := Witness(g, first, second, middle);
      && ForkStart(g, first, second, s) && InRange([first[0], second[0]], |s.nodes|)
      && (s.nodes[1].op.Concat? <==> middle.Concat?) && !RunsRight(g, [first[0], second[0]], s)
  {
    hide Fork, Turns, Witness, Means, Over, RunsRight;
    ThreePlaces(g, first, second, middle);
    OutputsUnread(g, first, second);
    WitnessStarts(g, first, second, middle);
    BranchMeans(g, first, second, middle, first, 0);
    SplitMeans(g, first, second, middle);
    var n: nat;
    if middle.Concat? {
      n := UnevenConcatRun(g, first, second);
      assert [ROWS[0]] != ROWS by {
        assert |[ROWS[0]]| != |ROWS|;
      }
    } else {
      n := UnevenRun(g, first, second);
      TwoRecords(Turns(g, [first[0], second[0]], Witness(g, first, second, middle), n).nodes[first[0]].produced);
    }
    NotRight(g, [first[0], second[0]], Witness(g, first, second, middle), n);
  }

  lemma TwoRecords(produced: seq<Row>)
    requires [Row(2, 10), Row(2, 20)] <= produced
    ensures produced != [Row(2, 10), Row(2, 50)]
  {
    assert produced[1] == Row(2, 20);
    assert [Row(2, 10), Row(2, 50)][1] == Row(2, 50);
  }

  lemma NotRight(g: Graph, outputs: seq<nat>, s: Sched, n: nat)
    requires Acyclic(g) && Untouched(g, s) && InRange(outputs, |s.nodes|) && outputs != [] && Over(outputs, Turns(g, outputs, s, n))
    requires Turns(g, outputs, s, n).nodes[outputs[0]].produced != Means(g, s.nodes, outputs[0])
    ensures !RunsRight(g, outputs, s)
  {
    hide Turns, Means, Over;
  }

  // In a fork with a groupby above the split, run() gives the outputs what they mean,
  // for all rows, aggregators and filters, exactly if the branches are equally long or
  // the one whose output comes first is longer by one; and so with a concat.
  lemma RightIffBranchesFit(g: Graph, first: seq<nat>, second: seq<nat>)
    requires Fork(g, first, second)
    ensures InRange([first[0], second[0]], |g.preds|)
    ensures
      (forall s :: ForkStart(g, first, second, s) && s.nodes[1].op.GroupBy? ==> RunsRight(g, [first[0], second[0]], s)) <==>
      (|first| == |second| || |first| == |second| + 1)
    ensures
      (forall s :: ForkStart(g, first, second, s) && s.nodes[1].op.Concat? ==> RunsRight(g, [first[0], second[0]], s)) <==>
      (|first| == |second| || |first| == |second| + 1)
  {
    hide RunsRight, BranchNodes, FitsAt;
    ReadsInRange(g, first, second, first, 0);
    OutputsUnread(g, first, second);
    if |first| == |second| || |first| == |second| + 1 {
      forall s | ForkStart(g, first, second, s) ensures RunsRight(g, [first[0], second[0]], s) {
        FittingBranches(g, first, second, s);
      }
    } else {
      UnevenIsWrong(g, first, second, FRESH);
      UnevenIsWrong(g, first, second, Concat(0));
    }
  }

  // Which of two branches has its output first the caller does not know: run() gives the
  // outputs what they mean in both orders exactly if the branches are equally long.
  lemma RightInBothOrdersIff(g: Graph, first: seq<nat>, second: seq<nat>)
    requires Fork(g, first, second)
    ensures InRange([first[0], second[0]], |g.preds|) && InRange([second[0], first[0]], |g.preds|)
    ensures
      (forall s :: ForkStart(g, first, second, s) && s.nodes[1].op.GroupBy? ==>
         RunsRight(g, [first[0], second[0]], s) && RunsRight(g, [second[0], first[0]], s)) <==> |first| == |second|
    ensures
      (forall s :: ForkStart(g, first, second, s) && s.nodes[1].op.Concat? ==>
         RunsRight(g, [first[0], second[0]], s) && RunsRight(g, [second[0], first[0]], s)) <==> |first| == |second|
  {
    ForkTurned(g, first, second);
    hide RunsRight, BranchNodes, Fork, Untouched;
    RightIffBranchesFit(g, first, second);
    RightIffBranchesFit(g, second, first);
    assert forall s :: ForkStart(g, first, second, s) <==> ForkStart(g, second, first, s);
  }

  lemma ForkTurned(g: Graph, first: seq<nat>, second: seq<nat>)
    requires Fork(g, first, second)
    ensures Fork(g, second, first)
  {
    hide Branch, Acyclic;
  }
}
