// Every run ends on every graph without cycles, also with splits, where functors can
// be on the stack more than once.
module BroadcastEnds {
  import opened Operators
  import opened Dataflow
  import opened Scheduler
  import opened Broadcast
  import opened Streams

  // ------------------------------------------------------------------------- weights

  function Power(b: nat, e: nat): (r: nat)
    ensures 1 <= b ==> 1 <= r
  {
    if e == 0 then 1 else b * Power(b, e - 1)
  }

  lemma {:induction false} PowerGrows(b: nat, d: nat, e: nat)
    requires 1 <= b && d <= e
    ensures Power(b, d) <= Power(b, e)
    decreases e
  {
    if d < e {
      PowerGrows(b, d, e - 1);
      assert Power(b, e - 1) <= b * Power(b, e - 1);
    }
  }

  // A number above all of them.
  function Above(ns: seq<nat>): (r: nat)
    ensures forall k :: 0 <= k < |ns| ==> ns[k] < r
  {
    if ns == [] then 0
    else
      var last := |ns| - 1;
      var r := Above(ns[..last]);
      if ns[last] < r then r else ns[last] + 1
  }

  // What a value held by functor f is worth: more than all that can come of it further
  // down, with one row for each stream of a split.
  function Worth(g: Graph, f: nat): (r: nat)
    requires f < |g.rank|
    ensures 1 <= r
  {
    Power(|g.preds| + 6, Above(g.rank) - g.rank[f])
  }

  // What one more row is worth in any functor further down than f, at most.
  function WorthBelow(g: Graph, f: nat): (r: nat)
    requires f < |g.rank|
  {
    Power(|g.preds| + 6, Above(g.rank) - g.rank[f] - 1)
  }

  lemma WorthFalls(g: Graph, q: nat, f: nat)
    requires q < |g.rank| && f < |g.rank| && g.rank[q] < g.rank[f]
    ensures (|g.preds| + 6) * Worth(g, f) <= Worth(g, q)
    ensures Worth(g, f) <= WorthBelow(g, q)
    ensures Worth(g, q) == (|g.preds| + 6) * WorthBelow(g, q)
  {
    var b, top := |g.preds| + 6, Above(g.rank);
    PowerGrows(b, top - g.rank[f], top - g.rank[q] - 1);
    Scale(b, Worth(g, f), WorthBelow(g, q));
  }

  lemma Scale(b: nat, x: nat, y: nat)
    requires x <= y
    ensures b * x <= b * y
  {
  }

  function Load(w: nat, held: bool, pending: nat): (r: nat) {
    (if held then w else 0) + 2 * w * pending
  }

  lemma LoadMoves(w: nat, held: bool, pending: nat, held': bool, pending': nat)
    ensures pending' <= pending ==> Load(w, held', pending') <= Load(w, held, pending) + w
    ensures pending' <= pending && (held' ==> held) ==> Load(w, held', pending') <= Load(w, held, pending)
    ensures pending' <= pending + 1 ==> Load(w, held', pending') <= Load(w, held, pending) + 3 * w
    ensures pending' <= pending + 1 && (held' ==> held) ==> Load(w, held', pending') <= Load(w, held, pending) + 2 * w
    ensures pending' + 1 <= pending ==> Load(w, held', pending') + w <= Load(w, held, pending)
    ensures pending' == pending && held && !held' ==> Load(w, held', pending') + w == Load(w, held, pending)
  {
    if pending' <= pending {
      Scale(2 * w, pending', pending);
    }
    if pending' <= pending + 1 {
      Scale(2 * w, pending', pending + 1);
    }
    if pending' + 1 <= pending {
      Scale(2 * w, pending' + 1, pending);
    }
  }

  function LoadAt(g: Graph, nodes: seq<Node>, x: nat): (r: nat)
    requires x < |nodes| <= |g.rank|
  {
    Load(Worth(g, x), nodes[x].hasValue, Pending(nodes[x].op))
  }

  function Total(g: Graph, nodes: seq<Node>, n: nat): (r: nat)
    requires n <= |nodes| <= |g.rank|
  {
    if n == 0 then 0 else Total(g, nodes, n - 1) + LoadAt(g, nodes, n - 1)
  }

  lemma {:induction false} TotalNoMore(g: Graph, nodes: seq<Node>, nodes': seq<Node>, n: nat)
    requires n <= |nodes| == |nodes'| <= |g.rank|
    requires forall x :: 0 <= x < n ==> LoadAt(g, nodes', x) <= LoadAt(g, nodes, x)
    ensures Total(g, nodes', n) <= Total(g, nodes, n)
    ensures (exists x :: 0 <= x < n && LoadAt(g, nodes', x) < LoadAt(g, nodes, x)) ==> Total(g, nodes', n) < Total(g, nodes, n)
    decreases n
  {
    hide LoadAt;
    if n != 0 {
      TotalNoMore(g, nodes, nodes', n - 1);
    }
  }

  // One functor gains at most `gain`, another one loses `loss`, the rest gain at most
  // `each`.
  lemma {:induction false} TotalShifts(g: Graph, nodes: seq<Node>, nodes': seq<Node>, f: nat, q: nat,
                                       gain: nat, loss: nat, each: nat, n: nat)
    requires n <= |nodes| == |nodes'| <= |g.rank| && f < |nodes| && q < |nodes| && f != q
    requires LoadAt(g, nodes', f) <= LoadAt(g, nodes, f) + gain && LoadAt(g, nodes', q) + loss <= LoadAt(g, nodes, q)
    requires forall x :: 0 <= x < |nodes| && x != f && x != q ==> LoadAt(g, nodes', x) <= LoadAt(g, nodes, x) + each
    ensures Total(g, nodes', n) + (if q < n then loss else 0) <= Total(g, nodes, n) + n * each + (if f < n then gain else 0)
    decreases n
  {
    hide LoadAt;
    if n != 0 {
      TotalShifts(g, nodes, nodes', f, q, gain, loss, each, n - 1);
      assert n * each == (n - 1) * each + each;
    }
  }

  // -------------------------------------------------------------- one call of process

  lemma OutcomePays(op: Op, heads: seq<Option<Row>>)
    requires if op.RawData? then -1 <= op.index else Arity(op, |heads|)
    ensures
      var o := Outcomes(op, heads);
      && Pending(o.op) <= Pending(op) + (if o.taken == {} then 0 else 1)
      && (o.ok && o.taken == {} ==> Pending(o.op) + 1 <= Pending(op) && !op.Output?)
  {
    hide UnsignedQuotient, Insert;
    LeastHolds(heads);
  }

  lemma RunGains(g: Graph, nodes: seq<Node>, f: nat, reset: bool, x: nat)
    requires Acyclic(g) && AllFit(g, nodes) && CanRun(g, nodes, f) && x < |nodes| && x != f
    ensures
      var o, nodes' := ProcessIn(g, nodes, f), RunBroadcast(g, nodes, f, reset);
      && LoadAt(g, nodes', x) <= LoadAt(g, nodes, x) + 2 * WorthBelow(g, f)
      && (o.taken == {} ==> LoadAt(g, nodes', x) <= LoadAt(g, nodes, x))
      && (Taken(g, f, o.taken, x) && nodes[x].hasValue ==> LoadAt(g, nodes', x) + Worth(g, x) == LoadAt(g, nodes, x))
  {
    RunAt(g, nodes, f, reset, x);
    Runnable(g, nodes, f);
    assert FitsAt(g, nodes, f) && FitsAt(g, nodes, x);
    var heads := HeadsOf(g, nodes, f);
    OutcomePays(nodes[f].op, heads);
    OutcomesFit(nodes[f].op, heads);
    hide RunBroadcast, ProcessIn, Process, ProcessRawData, HeadsOf, Worth, WorthBelow, Load;
    var n, n' := nodes[x], RunBroadcast(g, nodes, f, reset)[x];
    LoadMoves(Worth(g, x), n.hasValue, Pending(n.op), n'.hasValue, Pending(n'.op));
    if n'.op != n.op {
      assert g.rank[f] < g.rank[x];
      WorthFalls(g, f, x);
    }
    var o := ProcessIn(g, nodes, f);
    if Taken(g, f, o.taken, x) {
      var k :| 0 <= k < |g.preds[f]| && k in o.taken && g.preds[f][k] == x;
      assert g.rank[x] < g.rank[f];
    }
  }

  lemma OwnGain(g: Graph, nodes: seq<Node>, f: nat, reset: bool)
    requires Acyclic(g) && AllFit(g, nodes) && CanRun(g, nodes, f)
    ensures
      var o, nodes' := ProcessIn(g, nodes, f), RunBroadcast(g, nodes, f, reset);
      && LoadAt(g, nodes', f) <= LoadAt(g, nodes, f) + 3 * Worth(g, f)
      && (o.taken == {} ==> LoadAt(g, nodes', f) <= LoadAt(g, nodes, f))
      && (o.taken == {} && o.ok ==> LoadAt(g, nodes', f) < LoadAt(g, nodes, f))
  {
    RunAt(g, nodes, f, reset, f);
    Runnable(g, nodes, f);
    assert FitsAt(g, nodes, f);
    OutcomePays(nodes[f].op, HeadsOf(g, nodes, f));
    hide RunBroadcast, ProcessIn, Process, ProcessRawData, HeadsOf, Worth, WorthBelow, Load;
    var n, n' := nodes[f], RunBroadcast(g, nodes, f, reset)[f];
    LoadMoves(Worth(g, f), n.hasValue, Pending(n.op), n'.hasValue, Pending(n'.op));
  }

  // A call that delivers or takes anything lowers the total; no call raises it.
  lemma CallPays(g: Graph, nodes: seq<Node>, f: nat, reset: bool)
    requires Acyclic(g) && AllFit(g, nodes) && CanRun(g, nodes, f)
    ensures
      var o, nodes' := ProcessIn(g, nodes, f), RunBroadcast(g, nodes, f, reset);
      && Total(g, nodes', |nodes|) <= Total(g, nodes, |nodes|)
      && (o.ok || o.taken != {} ==> Total(g, nodes', |nodes|) < Total(g, nodes, |nodes|))
  {
    var o, nodes' := ProcessIn(g, nodes, f), RunBroadcast(g, nodes, f, reset);
    OwnGain(g, nodes, f, reset);
    Runnable(g, nodes, f);
    hide RunBroadcast, ProcessIn, LoadAt, Worth, WorthBelow, CanRun, Outcomes;
    forall x | 0 <= x < |nodes| && x != f
      ensures LoadAt(g, nodes', x) <= LoadAt(g, nodes, x) + 2 * WorthBelow(g, f)
      ensures o.taken == {} ==> LoadAt(g, nodes', x) <= LoadAt(g, nodes, x)
    {
      RunGains(g, nodes, f, reset, x);
    }
    if o.taken == {} {
      TotalNoMore(g, nodes, nodes', |nodes|);
    } else {
      var k := SomeTaken(g, nodes, f);
      var q := g.preds[f][k];
      RunGains(g, nodes, f, reset, q);
      assert g.rank[q] < g.rank[f];
      TotalShifts(g, nodes, nodes', f, q, 3 * Worth(g, f), Worth(g, q), 2 * WorthBelow(g, f), |nodes|);
      Outweighs(g, q, f);
    }
  }

  lemma SomeTaken(g: Graph, nodes: seq<Node>, f: nat) returns (k: nat)
    requires Acyclic(g) && AllFit(g, nodes) && CanRun(g, nodes, f) && ProcessIn(g, nodes, f).taken != {}
    ensures k < |g.preds[f]| && nodes[g.preds[f][k]].hasValue && Taken(g, f, ProcessIn(g, nodes, f).taken, g.preds[f][k])
  {
    Runnable(g, nodes, f);
    hide ProcessIn, Outcomes;
    k :| k in ProcessIn(g, nodes, f).taken;
    TakenHeld(nodes[f].op, HeadsOf(g, nodes, f), k);
    Held(g, nodes, f, k);
  }

  lemma Outweighs(g: Graph, q: nat, f: nat)
    requires Acyclic(g) && q < |g.preds| && f < |g.preds| && g.rank[q] < g.rank[f]
    ensures 3 * Worth(g, f) + |g.preds| * (2 * WorthBelow(g, f)) < Worth(g, q)
  {
    WorthFalls(g, q, f);
    assert Worth(g, f) == (|g.preds| + 6) * WorthBelow(g, f);
    Shares(|g.preds|, Worth(g, f), WorthBelow(g, f), Worth(g, q));
  }

  lemma Shares(n: nat, w: nat, u: nat, v: nat)
    requires w == (n + 6) * u && (n + 6) * w <= v && 1 <= w
    ensures 3 * w + n * (2 * u) < v
  {
    assert n * (2 * u) == 2 * (n * u);
    assert (n + 6) * u == n * u + 6 * u;
    assert (n + 6) * w == n * w + 6 * w;
  }

  // ------------------------------------------------------------- between two deliveries

  // How many of the first n functors have not ended.
  function NotEnded(nodes: seq<Node>, n: nat): (r: nat)
    requires n <= |nodes|
  {
    if n == 0 then 0 else NotEnded(nodes, n - 1) + if nodes[n - 1].status == Ended then 0 else 1
  }

  lemma {:induction false} NotEndedFalls(nodes: seq<Node>, nodes': seq<Node>, n: nat)
    requires n <= |nodes| && EndsStay(nodes, nodes')
    ensures NotEnded(nodes', n) <= NotEnded(nodes, n)
    ensures (exists x :: 0 <= x < n && nodes'[x].status == Ended && nodes[x].status != Ended) ==>
      NotEnded(nodes', n) < NotEnded(nodes, n)
    decreases n
  {
    if n != 0 {
      NotEndedFalls(nodes, nodes', n - 1);
    }
  }

  // How many places of the stack hold functors that have ended.
  function EndedOn(nodes: seq<Node>, stack: seq<nat>): (r: nat)
    requires InRange(stack, |nodes|)
    decreases |stack|
  {
    if stack == [] then 0
    else
      var last := |stack| - 1;
      EndedOn(nodes, stack[..last]) + if nodes[stack[last]].status == Ended then 1 else 0
  }

  lemma {:induction false} EndedOnSame(nodes: seq<Node>, nodes': seq<Node>, stack: seq<nat>)
    requires InRange(stack, |nodes|) && |nodes'| == |nodes|
    requires forall x :: 0 <= x < |nodes| ==> (nodes'[x].status == Ended <==> nodes[x].status == Ended)
    ensures EndedOn(nodes', stack) == EndedOn(nodes, stack)
    decreases |stack|
  {
    if stack != [] {
      EndedOnSame(nodes, nodes', stack[..|stack| - 1]);
    }
  }

  function Highest(g: Graph, queue: seq<nat>): (r: nat)
    requires InRange(queue, |g.rank|)
    ensures forall k :: 0 <= k < |queue| ==> g.rank[queue[k]] <= r
    ensures queue != [] ==> exists k :: 0 <= k < |queue| && g.rank[queue[k]] == r
  {
    if queue == [] then 0
    else
      var r := Highest(g, queue[1..]);
      if |queue| == 1 || r < g.rank[queue[0]] then
        assert g.rank[queue[0]] == g.rank[queue[0]];
        g.rank[queue[0]]
      else
        assert exists k :: 0 <= k < |queue[1..]| && g.rank[queue[1..][k]] == r && queue[k + 1] == queue[1..][k];
        r
  }

  function Degree(g: Graph): (r: nat)
    ensures forall f :: 0 <= f < |g.preds| ==> |g.preds[f]| < r
  {
    var degrees := seq(|g.preds|, f requires 0 <= f < |g.preds| => |g.preds[f]|);
    assert forall f :: 0 <= f < |g.preds| ==> degrees[f] == |g.preds[f]|;
    Above(degrees)
  }

  // The visits a functor in the queue can lead to, itself included, at most.
  function Visits(g: Graph, f: nat): (r: nat)
    requires f < |g.preds| == |g.rank|
    ensures 1 <= r
  {
    assert |g.preds[f]| < Degree(g);
    Power(Degree(g), g.rank[f])
  }

  function QueueVisits(g: Graph, queue: seq<nat>): (r: nat)
    requires |g.preds| == |g.rank| && InRange(queue, |g.preds|)
    ensures queue != [] ==> 1 <= r
  {
    if queue == [] then 0 else Visits(g, queue[0]) + QueueVisits(g, queue[1..])
  }

  lemma {:induction false} OneMore(g: Graph, queue: seq<nat>, x: nat)
    requires |g.preds| == |g.rank| && InRange(queue, |g.preds|) && x < |g.preds|
    ensures QueueVisits(g, queue + [x]) == QueueVisits(g, queue) + Visits(g, x)
    decreases |queue|
  {
    hide Visits;
    if queue == [] {
      assert [] + [x] == [x] && [x][1..] == [];
    } else {
      assert (queue + [x])[1..] == queue[1..] + [x];
      OneMore(g, queue[1..], x);
    }
  }

  lemma {:induction false} RequestAdds(g: Graph, nodes: seq<Node>, queue: seq<nat>, ps: seq<nat>, most: nat)
    requires |g.preds| == |g.rank| == |nodes| && InRange(queue, |nodes|) && InRange(ps, |nodes|)
    requires forall k :: 0 <= k < |ps| ==> Visits(g, ps[k]) <= most
    ensures InRange(Request(nodes, queue, ps).1, |nodes|)
    ensures QueueVisits(g, Request(nodes, queue, ps).1) <= QueueVisits(g, queue) + |ps| * most
    decreases |ps|
  {
    hide Visits, QueueVisits;
    if ps != [] {
      assert |ps| * most == |ps[1..]| * most + most;
      if Wanted(nodes[ps[0]]) {
        OneMore(g, queue, ps[0]);
        RequestAdds(g, WithStatus(nodes, ps[0], ToProcess), queue + [ps[0]], ps[1..], most);
      } else {
        RequestAdds(g, nodes, queue, ps[1..], most);
      }
    }
  }

  // A visit replaces a functor by its predecessors, which together lead to fewer visits.
  lemma VisitLeadsToFewer(g: Graph, nodes: seq<Node>, queue: seq<nat>, f: nat)
    requires Acyclic(g) && |nodes| == |g.preds| && InRange(queue, |nodes|) && f < |nodes|
    ensures InRange(Request(nodes, queue, g.preds[f]).1, |nodes|)
    ensures QueueVisits(g, Request(nodes, queue, g.preds[f]).1) < Visits(g, f) + QueueVisits(g, queue)
  {
    var ps := g.preds[f];
    var b := Degree(g);
    assert |ps| < b;
    if ps == [] {
    } else {
      assert g.rank[ps[0]] < g.rank[f];
      var most := Power(b, g.rank[f] - 1);
      forall k | 0 <= k < |ps| ensures Visits(g, ps[k]) <= most {
        assert g.rank[ps[k]] < g.rank[f];
        PowerGrows(b, g.rank[ps[k]], g.rank[f] - 1);
      }
      RequestAdds(g, nodes, queue, ps, most);
      Scale(most, |ps| + 1, b);
      assert most * (|ps| + 1) == |ps| * most + most;
      assert Visits(g, f) == b * most;
    }
  }

  // ------------------------------------------------------------- what every turn lowers

  // The rank below which the next requests are.
  function Peak(g: Graph, s: Sched): (r: nat)
    requires InRange(s.queue, |g.rank|) && InRange(s.stack, |g.rank|)
  {
    if s.queue != [] then Highest(g, s.queue)
    else if s.stack != [] then g.rank[s.stack[|s.stack| - 1]]
    else Above(g.rank)
  }

  ghost predicate WellPlaced(g: Graph, s: Sched) {
    |g.rank| == |g.preds| == |s.nodes| && InRange(s.queue, |s.nodes|) && InRange(s.stack, |s.nodes|)
  }

  // The next state is lower, lexicographically.
  ghost predicate Lower(g: Graph, t: Sched, s: Sched)
    requires WellPlaced(g, t) && WellPlaced(g, s)
  {
    var n, m := |t.nodes|, |s.nodes|;
    && Total(g, t.nodes, n) <= Total(g, s.nodes, m)
    && (Total(g, t.nodes, n) < Total(g, s.nodes, m) || (
      && NotEnded(t.nodes, n) <= NotEnded(s.nodes, m)
      && (NotEnded(t.nodes, n) < NotEnded(s.nodes, m) || (
        && EndedOn(t.nodes, t.stack) <= EndedOn(s.nodes, s.stack)
        && (EndedOn(t.nodes, t.stack) < EndedOn(s.nodes, s.stack) || (
          && Peak(g, t) <= Peak(g, s)
          && (Peak(g, t) < Peak(g, s) || QueueVisits(g, t.queue) < QueueVisits(g, s.queue))))))))
  }

  lemma InvIsPlaced(g: Graph, outputs: seq<nat>, s: Sched)
    requires Acyclic(g) && Inv(g, outputs, s)
    ensures WellPlaced(g, s)
  {
  }

  lemma SameLoads(g: Graph, nodes: seq<Node>, nodes': seq<Node>)
    requires |nodes| == |nodes'| <= |g.rank|
    requires forall x :: 0 <= x < |nodes| ==> nodes'[x] == nodes[x].(status := nodes'[x].status)
    ensures Total(g, nodes', |nodes|) == Total(g, nodes, |nodes|)
  {
    forall x | 0 <= x < |nodes| ensures LoadAt(g, nodes', x) == LoadAt(g, nodes, x) {
    }
    hide LoadAt;
    TotalNoMore(g, nodes, nodes', |nodes|);
    TotalNoMore(g, nodes', nodes, |nodes|);
  }

  lemma SourceLowers(g: Graph, outputs: seq<nat>, s: Sched)
    requires Acyclic(g) && Inv(g, outputs, s) && Unread(g, outputs) && CanTurn(g, s)
    requires s.queue != [] && g.preds[s.queue[0]] == [] && WellPlaced(g, s) && WellPlaced(g, Turn(g, s))
    requires EndsStay(s.nodes, Turn(g, s).nodes)
    ensures Lower(g, Turn(g, s), s)
  {
    var f := s.queue[0];
    var nodes1 := RunBroadcast(g, s.nodes, f, false);
    var nodes' := Turn(g, s).nodes;
    assert s.nodes[f].status == ToProcess;
    CallPays(g, s.nodes, f, false);
    SameLoads(g, nodes1, nodes');
    hide Total, RunBroadcast, ProcessIn, DeadOp, NotEnded, EndedOn, Peak, QueueVisits;
    NotEndedFalls(s.nodes, nodes', |s.nodes|);
  }

  // A functor f is taken from the queue; its predecessors are requested.
  lemma VisitedIsLower(g: Graph, outputs: seq<nat>, s: Sched, nodes1: seq<Node>, t: Sched)
    requires Acyclic(g) && s.queue != [] && WellPlaced(g, s) && WellPlaced(g, t)
    requires s.nodes[s.queue[0]].status != Ended && nodes1 == WithStatus(s.nodes, s.queue[0], Processing)
    requires t.stack == s.stack + [s.queue[0]] && Relabels(outputs, nodes1, t.nodes)
    requires forall x :: x in t.queue ==> x in s.queue[1..] || x in g.preds[s.queue[0]]
    requires QueueVisits(g, t.queue) < QueueVisits(g, s.queue)
    ensures Lower(g, t, s)
  {
    var f := s.queue[0];
    hide Total, NotEnded, QueueVisits, Highest;
    SameLoads(g, s.nodes, t.nodes);
    NotEndedFalls(s.nodes, t.nodes, |s.nodes|);
    EndedOnSame(s.nodes, t.nodes, s.stack);
    assert t.stack[..|s.stack|] == s.stack;
    if t.queue != [] {
      var k :| 0 <= k < |t.queue| && g.rank[t.queue[k]] == Highest(g, t.queue);
      NotHigher(g, s.queue, t.queue, f, k);
    }
  }

  lemma VisitLowers(g: Graph, outputs: seq<nat>, s: Sched)
    requires Acyclic(g) && Inv(g, outputs, s) && CanTurn(g, s)
    requires s.queue != [] && g.preds[s.queue[0]] != [] && WellPlaced(g, s) && WellPlaced(g, Turn(g, s))
    ensures Lower(g, Turn(g, s), s)
  {
    var f := s.queue[0];
    var nodes1 := WithStatus(s.nodes, f, Processing);
    assert s.nodes[f].status == ToProcess;
    hide Request, DeadOp, AllFit, AllEnded, CanRun, Visits, Lower, Relabels;
    PopQueue(s.nodes, nodes1, s.queue);
    RequestRelabels(outputs, nodes1, s.queue[1..], g.preds[f]);
    VisitLeadsToFewer(g, nodes1, s.queue[1..], f);
    VisitedIsLower(g, outputs, s, nodes1, Turn(g, s));
  }

  // What a visit leaves in the queue was there or is a predecessor.
  lemma NotHigher(g: Graph, queue: seq<nat>, queue': seq<nat>, f: nat, k: nat)
    requires Acyclic(g) && InRange(queue, |g.preds|) && InRange(queue', |g.preds|) && queue != [] && queue[0] == f
    requires k < |queue'| && (queue'[k] in queue[1..] || queue'[k] in g.preds[f])
    ensures g.rank[queue'[k]] <= Highest(g, queue)
  {
    if queue'[k] in queue[1..] {
      assert queue'[k] in queue;
    }
  }

  // The top of the stack delivers ...
  lemma TopPays(g: Graph, outputs: seq<nat>, s: Sched)
    requires Acyclic(g) && Inv(g, outputs, s) && CanTurn(g, s) && s.queue == [] && s.stack != []
    requires WellPlaced(g, s) && WellPlaced(g, Turn(g, s)) && ProcessIn(g, s.nodes, s.stack[|s.stack| - 1]).ok
    ensures Lower(g, Turn(g, s), s)
  {
    var f := s.stack[|s.stack| - 1];
    CallPays(g, s.nodes, f, true);
    hide Total, NotEnded, EndedOn, DeadOp, QueueVisits, Highest, RunBroadcast, ProcessIn, AllFit, AllEnded;
    SameLoads(g, RunBroadcast(g, s.nodes, f, true), Turn(g, s).nodes);
  }

  // ... or fails and asks for more ...
  lemma TopAsks(g: Graph, outputs: seq<nat>, s: Sched, nodes1: seq<Node>, t: Sched)
    requires Acyclic(g) && |s.nodes| == |nodes1| && QueueOk(nodes1, []) && s.queue == [] && s.stack != []
    requires WellPlaced(g, s) && WellPlaced(g, t) && Total(g, nodes1, |nodes1|) <= Total(g, s.nodes, |s.nodes|)
    requires forall x :: 0 <= x < |nodes1| ==> nodes1[x].status == s.nodes[x].status
    requires
      var (nodes', queue') := Request(nodes1, [], g.preds[s.stack[|s.stack| - 1]]);
      t == Sched(nodes', queue', s.stack) && queue' != []
    ensures Lower(g, t, s)
  {
    var f := s.stack[|s.stack| - 1];
    RequestRelabels(outputs, nodes1, [], g.preds[f]);
    hide Request, Total, NotEnded, EndedOn, QueueVisits, Highest, Wanted;
    SameLoads(g, nodes1, t.nodes);
    NotEndedFalls(s.nodes, t.nodes, |s.nodes|);
    EndedOnSame(s.nodes, t.nodes, s.stack);
    var k :| 0 <= k < |t.queue| && g.rank[t.queue[k]] == Highest(g, t.queue);
    assert t.queue[k] in g.preds[f];
  }

  // ... or fails and has ended.
  lemma TopEnds(g: Graph, s: Sched, nodes1: seq<Node>, t: Sched)
    requires |s.nodes| == |nodes1| && s.queue == [] && s.stack != []
    requires WellPlaced(g, s) && WellPlaced(g, t) && Total(g, nodes1, |nodes1|) <= Total(g, s.nodes, |s.nodes|)
    requires forall x :: 0 <= x < |nodes1| ==> nodes1[x].status == s.nodes[x].status
    requires t == Sched(WithStatus(nodes1, s.stack[|s.stack| - 1], Ended), [], s.stack[..|s.stack| - 1])
    ensures Lower(g, t, s)
  {
    var f := s.stack[|s.stack| - 1];
    hide Total, NotEnded, QueueVisits, Highest;
    SameLoads(g, nodes1, t.nodes);
    NotEndedFalls(s.nodes, t.nodes, |s.nodes|);
    if s.nodes[f].status == Ended {
      EndedOnSame(s.nodes, t.nodes, t.stack);
    }
  }

  lemma TopLowers(g: Graph, outputs: seq<nat>, s: Sched)
    requires Acyclic(g) && Inv(g, outputs, s) && CanTurn(g, s) && s.queue == [] && s.stack != []
    requires WellPlaced(g, s) && WellPlaced(g, Turn(g, s))
    ensures Lower(g, Turn(g, s), s)
  {
    hide Total, NotEnded, EndedOn, Peak, DeadOp, AllFit, AllEnded, QueueVisits, RunBroadcast, ProcessIn, Lower, Request;
    var f, t := s.stack[|s.stack| - 1], Turn(g, s);
    var nodes1 := RunBroadcast(g, s.nodes, f, true);
    if ProcessIn(g, s.nodes, f).ok {
      TopPays(g, outputs, s);
    } else {
      RunStatuses(g, s.nodes, f, true);
      RequestRelabels(outputs, nodes1, [], g.preds[f]);
      CallPays(g, s.nodes, f, true);
      if t.queue != [] {
        TopAsks(g, outputs, s, nodes1, t);
      } else {
        TopEnds(g, s, nodes1, t);
      }
    }
  }

  lemma TurnLowers(g: Graph, outputs: seq<nat>, s: Sched)
    requires Acyclic(g) && Inv(g, outputs, s) && Unread(g, outputs) && (s.queue != [] || s.stack != [])
    ensures CanTurn(g, s) && WellPlaced(g, s) && WellPlaced(g, Turn(g, s)) && Lower(g, Turn(g, s), s)
  {
    hide Inv, Turn, Lower;
    TurnKeeps(g, outputs, s);
    InvIsPlaced(g, outputs, s);
    InvIsPlaced(g, outputs, Turn(g, s));
    if s.queue == [] {
      TopLowers(g, outputs, s);
    } else if g.preds[s.queue[0]] == [] {
      SourceLowers(g, outputs, s);
    } else {
      VisitLowers(g, outputs, s);
    }
  }

  // Requesting the outputs again, when nothing is left to do.
  lemma ReseedLowers(g: Graph, outputs: seq<nat>, s: Sched)
    requires Acyclic(g) && Inv(g, outputs, s) && Unread(g, outputs) && s.queue == [] && s.stack == []
    ensures InRange(outputs, |s.nodes|) && WellPlaced(g, s) && WellPlaced(g, Reseed(s, outputs))
    ensures Reseed(s, outputs).queue != [] ==> Lower(g, Reseed(s, outputs), s)
  {
    InvIsPlaced(g, outputs, s);
    ReseedRelabels(s, outputs, outputs);
    var t := Reseed(s, outputs);
    hide Reseed, Total, NotEnded, DeadOp, AllFit, AllEnded, QueueVisits, Highest;
    SameLoads(g, s.nodes, t.nodes);
    NotEndedFalls(s.nodes, t.nodes, |s.nodes|);
  }

  // ------------------------------------------------------------------------- whole runs

  // Nothing is left to do, and requesting the outputs adds nothing: run() returns.
  ghost predicate Over(outputs: seq<nat>, s: Sched)
    requires InRange(outputs, |s.nodes|)
  {
    s.queue == [] && s.stack == [] && Reseed(s, outputs).queue == []
  }

  lemma RoundLowers(g: Graph, outputs: seq<nat>, s: Sched)
    requires Acyclic(g) && Inv(g, outputs, s) && Unread(g, outputs)
    ensures InRange(outputs, |s.nodes|) && WellPlaced(g, s) && WellPlaced(g, Round(g, outputs, s))
    ensures Over(outputs, s) || Lower(g, Round(g, outputs, s), s)
  {
    hide Inv, Turn, CanTurn, Lower, Reseed, WellPlaced;
    if s.queue == [] && s.stack == [] {
      ReseedLowers(g, outputs, s);
    } else {
      InQueue(g, outputs, s);
      TurnLowers(g, outputs, s);
    }
  }

  lemma {:induction false} RunEnds(g: Graph, outputs: seq<nat>, s: Sched) returns (n: nat)
    requires Acyclic(g) && Inv(g, outputs, s) && Unread(g, outputs)
    ensures InRange(outputs, |s.nodes|) && Over(outputs, Turns(g, outputs, s, n))
    decreases Total(g, s.nodes, |s.nodes|), NotEnded(s.nodes, |s.nodes|), EndedOn(s.nodes, s.stack), Peak(g, s),
              QueueVisits(g, s.queue)
  {
    hide Inv, Round, Over, WellPlaced, Total, NotEnded, EndedOn, Peak, QueueVisits;
    RoundLowers(g, outputs, s);
    RoundKeeps(g, outputs, s);
    if Over(outputs, s) {
      n := 0;
    } else {
      var m := RunEnds(g, outputs, Round(g, outputs, s));
      n := m + 1;
    }
  }

  lemma {:induction false} OverMeans(s: Sched, outputs: seq<nat>)
    requires InRange(outputs, |s.nodes|)
    ensures |s.queue| <= |Reseed(s, outputs).queue|
    ensures |s.queue| == |Reseed(s, outputs).queue| ==>
      && Reseed(s, outputs) == s
      && forall k :: 0 <= k < |outputs| ==> s.nodes[outputs[k]].status == Ended || s.nodes[outputs[k]].status == ToProcess
    decreases |outputs|
  {
    if outputs != [] {
      var n := s.nodes[outputs[0]];
      if n.status != Ended && n.status != ToProcess {
        OverMeans(s.(nodes := WithStatus(s.nodes, outputs[0], ToProcess), queue := s.queue + [outputs[0]]), outputs[1..]);
      } else {
        OverMeans(s, outputs[1..]);
      }
    }
  }

  // On every graph without cycles in which only streams read splits, run() returns: after
  // some number of turns nothing is left to do, every output has ended, and requesting
  // the outputs again changes nothing.
  lemma EveryRunEnds(g: Graph, outputs: seq<nat>, s: Sched) returns (n: nat)
    requires Acyclic(g) && Unused(g, s) && Unread(g, outputs)
    ensures InRange(outputs, |s.nodes|)
    ensures
      var t := Turns(g, outputs, s, n);
      && t.queue == [] && t.stack == [] && Round(g, outputs, t) == t
      && forall k :: 0 <= k < |outputs| ==> t.nodes[outputs[k]].status == Ended
  {
    UnusedIsInv(g, outputs, s);
    n := RunEnds(g, outputs, s);
    InvStays(g, outputs, s, n);
    var t := Turns(g, outputs, s, n);
    hide Turns, AllFit, AllEnded;
    OverMeans(t, outputs);
  }

  lemma UnusedIsInv(g: Graph, outputs: seq<nat>, s: Sched)
    requires Acyclic(g) && Unused(g, s)
    ensures Inv(g, outputs, s)
  {
    hide DeadOp;
  }

  lemma {:induction false} InvStays(g: Graph, outputs: seq<nat>, s: Sched, n: nat)
    requires Acyclic(g) && Inv(g, outputs, s) && Unread(g, outputs)
    ensures InRange(outputs, |s.nodes|) && Inv(g, outputs, Turns(g, outputs, s, n))
    decreases n
  {
    hide Inv, Round;
    InQueue(g, outputs, s);
    if n != 0 {
      RoundKeeps(g, outputs, s);
      InvStays(g, outputs, Round(g, outputs, s), n - 1);
    }
  }
}
