// Waiting expressions: and, or, all and any over paras, with the state each of
// them caches.
module Waiting {
  datatype Option<+T> = None | Some(value: T)

  datatype ExeState = Empty | Init | Wait | Over | Run

  // A para that was never given a task (None), or the task it stands for.
  type ParaRef = Option<nat>

  // The caches m_iES live inside the expression, which holds its operands by
  // value. A group without entities object is None.
  datatype Expr =
    | Para(p: ParaRef)
    | And(l: Expr, r: Expr, es: ExeState)
    | Or(l: Expr, r: Expr, es: ExeState)
    | All(group: Option<seq<ParaRef>>, es: ExeState)
    | Any(group: Option<seq<ParaRef>>, es: ExeState)

  // Combining two states; None stands for empty_para_exception.
  function StateAnd(a: ExeState, b: ExeState): (r: Option<ExeState>)
    ensures r.None? <==> a.Empty? || b.Empty?
    ensures r == Some(Over) <==> a.Over? && b.Over?
    ensures r.Some? ==> (r.value == a && a == b) || (r.value.Wait? && a != b)
  {
    if a.Empty? || b.Empty? then None
    else if a == b then Some(a)
    else Some(Wait)
  }

  function StateOr(a: ExeState, b: ExeState): (r: Option<ExeState>)
    ensures r.None? <==> a.Empty? || b.Empty?
    ensures r == Some(Over) <==> (a.Over? && !b.Empty?) || (b.Over? && !a.Empty?)
    ensures r.Some? ==> r.value.Over? || r.value.Wait?
  {
    if a.Empty? || b.Empty? then None
    else if a.Over? || b.Over? then Some(Over)
    else Some(Wait)
  }

  // ---------------------------------------------------------- the boolean formula

  predicate ParaHolds(p: ParaRef, over: set<nat>) {
    p.Some? && p.value in over
  }

  // What the expression waits for, given which tasks are over.
  predicate Formula(e: Expr, over: set<nat>) {
    match e
    case Para(p) => ParaHolds(p, over)
    case And(l, r, _) => Formula(l, over) && Formula(r, over)
    case Or(l, r, _) => Formula(l, over) || Formula(r, over)
    case All(group, _) => group.None? || forall i :: 0 <= i < |group.value| ==> ParaHolds(group.value[i], over)
    case Any(group, _) =>
      group.None? || group.value == [] || exists i :: 0 <= i < |group.value| && ParaHolds(group.value[i], over)
  }

  // No operand is a para without a task.
  predicate NoEmpty(e: Expr) {
    match e
    case Para(p) => p.Some?
    case And(l, r, _) => NoEmpty(l) && NoEmpty(r)
    case Or(l, r, _) => NoEmpty(l) && NoEmpty(r)
    case All(group, _) => group.Some? ==> forall i :: 0 <= i < |group.value| ==> group.value[i].Some?
    case Any(group, _) => group.Some? ==> forall i :: 0 <= i < |group.value| ==> group.value[i].Some?
  }

  // Every cached exe_over is justified.
  predicate Honest(e: Expr, over: set<nat>) {
    match e
    case Para(_) => true
    case And(l, r, es) => Honest(l, over) && Honest(r, over) && (es.Over? ==> Formula(e, over))
    case Or(l, r, es) => Honest(l, over) && Honest(r, over) && (es.Over? ==> Formula(e, over))
    case _ => e.es.Over? ==> Formula(e, over)
  }

  // The same expression up to its caches.
  predicate SameShape(e: Expr, e': Expr) {
    match e
    case Para(p) => e' == e
    case And(l, r, _) => e'.And? && SameShape(l, e'.l) && SameShape(r, e'.r)
    case Or(l, r, _) => e'.Or? && SameShape(l, e'.l) && SameShape(r, e'.r)
    case All(group, _) => e'.All? && e'.group == group
    case Any(group, _) => e'.Any? && e'.group == group
  }

  lemma {:induction false} ShapeDecides(e: Expr, e': Expr, over: set<nat>)
    requires SameShape(e, e')
    ensures Formula(e, over) == Formula(e', over) && NoEmpty(e) == NoEmpty(e')
  {
    match e
    case And(l, r, _) => ShapeDecides(l, e'.l, over); ShapeDecides(r, e'.r, over);
    case Or(l, r, _) => ShapeDecides(l, e'.l, over); ShapeDecides(r, e'.r, over);
    case _ =>
  }

  // Over never reverts, so neither does the formula.
  lemma {:induction false} FormulaGrows(e: Expr, over: set<nat>, over': set<nat>)
    requires over <= over'
    ensures Formula(e, over) ==> Formula(e, over')
    ensures Honest(e, over) ==> Honest(e, over')
  {
    match e
    case And(l, r, _) => FormulaGrows(l, over, over'); FormulaGrows(r, over, over');
    case Or(l, r, _) => FormulaGrows(l, over, over'); FormulaGrows(r, over, over');
    case Any(group, _) =>
      if Formula(e, over) && group.Some? && group.value != [] {
        var i :| 0 <= i < |group.value| && ParaHolds(group.value[i], over);
        assert ParaHolds(group.value[i], over');
      }
    case _ =>
  }

  // ------------------------------------------------------------------- get_state

  // What each read of a task's state finds: read number n sees reads(n).
  type Reads = (nat, nat) -> ExeState

  function ReadPara(p: ParaRef, seen: Reads, n: nat): (r: ExeState) {
    if p.None? then Empty else seen(n, p.value)
  }

  // The expression with its new caches, the state returned (None if it throws),
  // and the number of the next read.
  datatype Answer = Answer(expr: Expr, state: Option<ExeState>, next: nat)

  // The loop of wait_all: the cache so far, over the first i members.
  function ScanAll(ps: seq<ParaRef>, seen: Reads, n: nat, i: nat): (r: (ExeState, bool))
    requires i <= |ps|
  {
    if i == 0 then (Over, true)
    else
      var (es, ok) := ScanAll(ps, seen, n, i - 1);
      if !ok then (es, false)
      else
        var next := StateAnd(es, ReadPara(ps[i - 1], seen, n + i - 1));
        if next.None? then (es, false) else (next.value, true)
  }

  // The loop of wait_any.
  function ScanAny(ps: seq<ParaRef>, seen: Reads, n: nat, i: nat): (r: (ExeState, bool))
    requires i <= |ps|
  {
    if i == 0 then (Wait, true)
    else
      var (es, ok) := ScanAny(ps, seen, n, i - 1);
      if !ok then (es, false)
      else
        var next := StateOr(es, ReadPara(ps[i - 1], seen, n + i - 1));
        if next.None? then (es, false) else (next.value, true)
  }

  function GetState(e: Expr, seen: Reads, n: nat): (r: Answer)
    ensures r.next >= n
    decreases e
  {
    match e
    case Para(p) => Answer(e, Some(ReadPara(p, seen, n)), n + 1)
    case And(l, r, es) =>
      if es.Over? then Answer(e, Some(Over), n)
      else
        var a := GetState(l, seen, n);
        if a.state.None? then Answer(And(a.expr, r, es), None, a.next)
        else
          var b := GetState(r, seen, a.next);
          if b.state.None? then Answer(And(a.expr, b.expr, es), None, b.next)
          else
            var both := StateAnd(a.state.value, b.state.value);
            Answer(And(a.expr, b.expr, if both.None? then es else both.value), both, b.next)
    case Or(l, r, es) =>
      if es.Over? then Answer(e, Some(Over), n)
      else
        var a := GetState(l, seen, n);
        if a.state.None? then Answer(Or(a.expr, r, es), None, a.next)
        else
          var b := GetState(r, seen, a.next);
          if b.state.None? then Answer(Or(a.expr, b.expr, es), None, b.next)
          else
            var either := StateOr(a.state.value, b.state.value);
            Answer(Or(a.expr, b.expr, if either.None? then es else either.value), either, b.next)
    case All(group, es) =>
      if group.None? || es.Over? then Answer(All(group, Over), Some(Over), n)
      else
        var (es', ok) := ScanAll(group.value, seen, n, |group.value|);
        Answer(All(group, es'), if ok then Some(es') else None, n + |group.value|)
    case Any(group, es) =>
      if group.None? || es.Over? then Answer(Any(group, Over), Some(Over), n)
      else if group.value == [] then Answer(Any(group, Over), Some(Over), n)
      else
        var (es', ok) := ScanAny(group.value, seen, n, |group.value|);
        Answer(Any(group, es'), if ok then Some(es') else None, n + |group.value|)
  }

  // Every read happens while between `before` and `after` are over, and a task
  // once scheduled is never exe_empty.
  ghost predicate Between(seen: Reads, before: set<nat>, after: set<nat>) {
    forall n: nat, t: nat ::
      && (t in before ==> seen(n, t).Over?)
      && (seen(n, t).Over? ==> t in after)
      && !seen(n, t).Empty?
  }

  lemma {:induction false} ScanAllMeans(ps: seq<ParaRef>, seen: Reads, n: nat, i: nat, before: set<nat>, after: set<nat>)
    requires i <= |ps| && Between(seen, before, after) && forall k :: 0 <= k < |ps| ==> ps[k].Some?
    ensures
      var (es, ok) := ScanAll(ps, seen, n, i);
      && ok && !es.Empty?
      && (es.Over? ==> forall k :: 0 <= k < i ==> ParaHolds(ps[k], after))
      && ((forall k :: 0 <= k < i ==> ParaHolds(ps[k], before)) ==> es.Over?)
  {
    if i != 0 {
      ScanAllMeans(ps, seen, n, i - 1, before, after);
      assert !seen(n + i - 1, ps[i - 1].value).Empty?;
    }
  }

  lemma {:induction false} ScanAnyMeans(ps: seq<ParaRef>, seen: Reads, n: nat, i: nat, before: set<nat>, after: set<nat>)
    requires i <= |ps| && Between(seen, before, after) && forall k :: 0 <= k < |ps| ==> ps[k].Some?
    ensures
      var (es, ok) := ScanAny(ps, seen, n, i);
      && ok && !es.Empty?
      && (es.Over? ==> exists k :: 0 <= k < i && ParaHolds(ps[k], after))
      && ((exists k :: 0 <= k < i && ParaHolds(ps[k], before)) ==> es.Over?)
  {
    if i != 0 {
      ScanAnyMeans(ps, seen, n, i - 1, before, after);
      assert !seen(n + i - 1, ps[i - 1].value).Empty?;
      if seen(n + i - 1, ps[i - 1].value).Over? {
        assert ParaHolds(ps[i - 1], after);
      }
    }
  }

  // get_state of any nesting, read by read while tasks go on finishing: it says
  // exe_over if the formula held before the first read, and only if it holds after
  // the last one; and its caches stay honest.
  lemma {:induction false} GetStateMeans(e: Expr, seen: Reads, n: nat, before: set<nat>, after: set<nat>)
    requires NoEmpty(e) && Honest(e, before) && before <= after && Between(seen, before, after)
    ensures
      var a := GetState(e, seen, n);
      && a.state.Some? && !a.state.value.Empty?
      && (Formula(e, before) ==> a.state == Some(Over))
      && (a.state == Some(Over) ==> Formula(e, after))
      && SameShape(e, a.expr) && Honest(a.expr, after)
    decreases e
  {
    FormulaGrows(e, before, after);
    match e
    case Para(p) => assert !seen(n, p.value).Empty?;
    case And(l, r, es) =>
      Reflexive(e);
      if !es.Over? {
        GetStateMeans(l, seen, n, before, after);
        GetStateMeans(r, seen, GetState(l, seen, n).next, before, after);
        ShapeDecides(e, GetState(e, seen, n).expr, after);
      }
    case Or(l, r, es) =>
      Reflexive(e);
      if !es.Over? {
        GetStateMeans(l, seen, n, before, after);
        GetStateMeans(r, seen, GetState(l, seen, n).next, before, after);
        ShapeDecides(e, GetState(e, seen, n).expr, after);
      }
    case All(group, es) =>
      if group.Some? {
        ScanAllMeans(group.value, seen, n, |group.value|, before, after);
      }
    case Any(group, es) =>
      if group.Some? {
        ScanAnyMeans(group.value, seen, n, |group.value|, before, after);
      }
  }

  lemma {:induction false} Reflexive(e: Expr)
    ensures SameShape(e, e)
  {
    match e
    case And(l, r, _) => Reflexive(l); Reflexive(r);
    case Or(l, r, _) => Reflexive(l); Reflexive(r);
    case _ =>
  }

  // When nothing finishes meanwhile, exe_over is returned exactly when the formula
  // holds.
  lemma OverIffFormula(e: Expr, seen: Reads, over: set<nat>)
    requires NoEmpty(e) && Honest(e, over) && Between(seen, over, over)
    ensures GetState(e, seen, 0).state == Some(Over) <==> Formula(e, over)
  {
    GetStateMeans(e, seen, 0, over, over);
  }

  // Once get_state has reported exe_over for a composed expression, it does so again on
  // every later call, without reading any task.
  lemma OverIsKept(e: Expr, seen: Reads, n: nat, later: Reads, m: nat)
    requires !e.Para? && GetState(e, seen, n).state == Some(Over)
    ensures GetState(GetState(e, seen, n).expr, later, m) == Answer(GetState(e, seen, n).expr, Some(Over), m)
  {
  }

  // ----------------------------------------------- paras that were never given a task

  // Some operand that a get_state would reach has no task. A single para reports
  // exe_empty instead of throwing.
  predicate Reaches(e: Expr) {
    match e
    case Para(p) => p.None?
    case And(l, r, es) => !es.Over? && (Reaches(l) || Reaches(r))
    case Or(l, r, es) => !es.Over? && (Reaches(l) || Reaches(r))
    case All(group, es) => !es.Over? && group.Some? && exists i :: 0 <= i < |group.value| && group.value[i].None?
    case Any(group, es) => !es.Over? && group.Some? && exists i :: 0 <= i < |group.value| && group.value[i].None?
  }

  // Scheduled tasks are never exe_empty.
  ghost predicate Scheduled(seen: Reads) {
    forall n: nat, t: nat :: !seen(n, t).Empty?
  }

  predicate Throws(a: Answer) {
    a.state.None? || a.state.value.Empty?
  }

  // operator[] refuses an expression exactly when it reaches a para without task.
  lemma {:induction false} ThrowsIffEmpty(e: Expr, seen: Reads, n: nat)
    requires Scheduled(seen)
    ensures Throws(GetState(e, seen, n)) <==> Reaches(e)
    decreases e
  {
    match e
    case Para(p) => if p.Some? { assert !seen(n, p.value).Empty?; }
    case And(l, r, es) =>
      if !es.Over? {
        ThrowsIffEmpty(l, seen, n);
        ThrowsIffEmpty(r, seen, GetState(l, seen, n).next);
      }
    case Or(l, r, es) =>
      if !es.Over? {
        ThrowsIffEmpty(l, seen, n);
        ThrowsIffEmpty(r, seen, GetState(l, seen, n).next);
      }
    case All(group, es) =>
      if group.Some? { ScanAllThrows(group.value, seen, n, |group.value|); }
    case Any(group, es) =>
      if group.Some? { ScanAnyThrows(group.value, seen, n, |group.value|); }
  }

  lemma {:induction false} ScanAllThrows(ps: seq<ParaRef>, seen: Reads, n: nat, i: nat)
    requires i <= |ps| && Scheduled(seen)
    ensures !ScanAll(ps, seen, n, i).1 <==> exists k :: 0 <= k < i && ps[k].None?
    ensures !ScanAll(ps, seen, n, i).0.Empty?
  {
    if i != 0 {
      ScanAllThrows(ps, seen, n, i - 1);
      if ps[i - 1].Some? { assert !seen(n + i - 1, ps[i - 1].value).Empty?; }
    }
  }

  lemma {:induction false} ScanAnyThrows(ps: seq<ParaRef>, seen: Reads, n: nat, i: nat)
    requires i <= |ps| && Scheduled(seen)
    ensures !ScanAny(ps, seen, n, i).1 <==> exists k :: 0 <= k < i && ps[k].None?
    ensures !ScanAny(ps, seen, n, i).0.Empty?
  {
    if i != 0 {
      ScanAnyThrows(ps, seen, n, i - 1);
      if ps[i - 1].Some? { assert !seen(n + i - 1, ps[i - 1].value).Empty?; }
    }
  }

  // Where the scan of wait_all leaves the cache when member k has no task.
  lemma {:induction false} ThrowLeavesOver(ps: seq<ParaRef>, seen: Reads, k: nat, i: nat)
    requires Scheduled(seen) && k < i <= |ps|
    requires ps[k].None? && forall j :: 0 <= j < k ==> ps[j].Some?
    ensures ScanAll(ps, seen, 0, i).0.Over? <==> forall j :: 0 <= j < k ==> seen(j, ps[j].value).Over?
    ensures !ScanAll(ps, seen, 0, i).1
  {
    if i - 1 > k {
      ThrowLeavesOver(ps, seen, k, i - 1);
    } else {
      SeenSoFar(ps, seen, k);
    }
  }

  lemma {:induction false} SeenSoFar(ps: seq<ParaRef>, seen: Reads, i: nat)
    requires Scheduled(seen) && i <= |ps| && forall j :: 0 <= j < i ==> ps[j].Some?
    ensures ScanAll(ps, seen, 0, i).1 && !ScanAll(ps, seen, 0, i).0.Empty?
    ensures ScanAll(ps, seen, 0, i).0.Over? <==> forall j :: 0 <= j < i ==> seen(j, ps[j].value).Over?
  {
    if i != 0 {
      SeenSoFar(ps, seen, i - 1);
      assert !seen(i - 1, ps[i - 1].value).Empty?;
    }
  }

  // wait_all caches as it scans: after a throw at member k it reports exe_over,
  // although its formula does not hold, exactly if it saw every member before k
  // over.
  lemma ThrownThenOver(ps: seq<ParaRef>, es: ExeState, seen: Reads, seen': Reads, over: set<nat>, k: nat)
    requires Scheduled(seen) && Scheduled(seen') && !es.Over? && k < |ps|
    requires ps[k].None? && forall j :: 0 <= j < k ==> ps[j].Some?
    ensures
      var first := GetState(All(Some(ps), es), seen, 0);
      && first.state.None? && !Formula(first.expr, over)
      && (GetState(first.expr, seen', 0).state == Some(Over) <==>
            forall j :: 0 <= j < k ==> seen(j, ps[j].value).Over?)
  {
    ThrowLeavesOver(ps, seen, k, |ps|);
    ScanAllThrows(ps, seen', 0, |ps|);
    assert !ParaHolds(ps[k], over);
  }

  lemma {:induction false} ScanAllStops(ps: seq<ParaRef>, seen: Reads, n: nat, i: nat, j: nat)
    requires i <= j <= |ps| && !ScanAll(ps, seen, n, i).1
    ensures ScanAll(ps, seen, n, j) == ScanAll(ps, seen, n, i)
  {
    if i < j {
      ScanAllStops(ps, seen, n, i, j - 1);
    }
  }

  lemma {:induction false} ScanAnyStops(ps: seq<ParaRef>, seen: Reads, n: nat, i: nat, j: nat)
    requires i <= j <= |ps| && !ScanAny(ps, seen, n, i).1
    ensures ScanAny(ps, seen, n, j) == ScanAny(ps, seen, n, i)
  {
    if i < j {
      ScanAnyStops(ps, seen, n, i, j - 1);
    }
  }
}
