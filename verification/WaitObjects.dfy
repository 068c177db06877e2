// The objects behind waiting expressions and waiting tasks, updating their caches
// and flags in place.
module WaitObjects {
  import opened Waiting

  // wait_all: over when every member of the group is.
  class WaitAll {
    const allPs: Option<seq<ParaRef>>
    var es: ExeState

    constructor (ps: Option<seq<ParaRef>>)
      ensures allPs == ps && es == Init
    {
      allPs := ps;
      es := Init;
    }

    ghost function View(): (r: Expr)
      reads this
    {
      All(allPs, es)
    }

    method GetState(seen: Reads, n: nat) returns (state: Option<ExeState>)
      modifies this
      ensures
        var a := Waiting.GetState(old(View()), seen, n);
        View() == a.expr && state == a.state
    {
      if allPs.None? {
        es := Over;
      }
      if !es.Over? {
        es := Over;
        var ps := allPs.value;
        for i := 0 to |ps|
          invariant ScanAll(ps, seen, n, i) == (es, true)
        {
          var next := StateAnd(es, ReadPara(ps[i], seen, n + i));
          if next.None? {
            ScanAllStops(ps, seen, n, i + 1, |ps|);
            return None;
          }
          es := next.value;
        }
      }
      return Some(es);
    }

    // None stands for the exception that get_state lets through.
    method CheckIfOver(seen: Reads, n: nat) returns (over: Option<bool>)
      modifies this
      ensures
        var a := Waiting.GetState(old(View()), seen, n);
        && (over.None? <==> a.state.None?)
        && (over.Some? ==> over.value == (a.state == Some(Over)))
        && (View() == a.expr)
    {
      if es.Over? {
        return Some(true);
      }
      var state := GetState(seen, n);
      if state.None? {
        return None;
      }
      return Some(es.Over?);
    }
  }

  // wait_any: over when some member of the group is, or the group is empty.
  class WaitAny {
    const allPs: Option<seq<ParaRef>>
    var es: ExeState

    constructor (ps: Option<seq<ParaRef>>)
      ensures allPs == ps && es == Init
    {
      allPs := ps;
      es := Init;
    }

    ghost function View(): (r: Expr)
      reads this
    {
      Any(allPs, es)
    }

    method GetState(seen: Reads, n: nat) returns (state: Option<ExeState>)
      modifies this
      ensures
        var a := Waiting.GetState(old(View()), seen, n);
        View() == a.expr && state == a.state
    {
      if allPs.None? {
        es := Over;
      }
      if !es.Over? {
        es := Wait;
        var ps := allPs.value;
        if |ps| == 0 {
          es := Over;
        } else {
          for i := 0 to |ps|
            invariant ScanAny(ps, seen, n, i) == (es, true)
          {
            var next := StateOr(es, ReadPara(ps[i], seen, n + i));
            if next.None? {
              ScanAnyStops(ps, seen, n, i + 1, |ps|);
              return None;
            }
            es := next.value;
          }
        }
      }
      return Some(es);
    }
  }
  // para_impl: runs its body and is over.
  class ParaImpl {
    var es: ExeState
    var needToReschedule: bool
    ghost var ran: nat

    constructor ()
      ensures es == Init && !needToReschedule && ran == 0
    {
      es := Init;
      needToReschedule := false;
      ran := 0;
    }

    method Body()
      modifies this`ran
      ensures ran == old(ran) + 1
    {
      ran := ran + 1;
    }

    method RunTask()
      modifies this
      ensures es == Over && ran == old(ran) + 1 && needToReschedule == old(needToReschedule)
    {
      es := Run;
      Body();
      es := Over;
    }
  }

  // para_impl_wait: one call either finds the expression not over and asks to be
  // rescheduled, or runs the continuation and is over.
  class ParaImplWait {
    var es: ExeState
    var needToReschedule: bool
    var waiting: Expr
    ghost var ran: nat

    constructor (waiting: Expr)
      ensures this.waiting == waiting && es == Init && !needToReschedule && ran == 0
    {
      this.waiting := waiting;
      es := Init;
      needToReschedule := false;
      ran := 0;
    }

    method Continuation()
      modifies this`ran
      ensures ran == old(ran) + 1
    {
      ran := ran + 1;
    }

    // `before` and `after` are the tasks over when the call starts and ends.
    method RunTask(seen: Reads, ghost before: set<nat>, ghost after: set<nat>)
      requires NoEmpty(waiting) && Honest(waiting, before) && before <= after && Between(seen, before, after)
      modifies this
      ensures NoEmpty(waiting) && Honest(waiting, after) && SameShape(old(waiting), waiting)
      ensures es == (if needToReschedule then Run else Over)
      ensures ran == old(ran) + if needToReschedule then 0 else 1
      ensures waiting == GetState(old(waiting), seen, 0).expr
      ensures needToReschedule <==> GetState(old(waiting), seen, 0).state != Some(Over)
      ensures Formula(waiting, before) ==> !needToReschedule
      ensures !needToReschedule ==> Formula(waiting, after)
    {
      GetStateMeans(waiting, seen, 0, before, after);
      es := Run;
      var a := GetState(waiting, seen, 0);
      ShapeDecides(waiting, a.expr, before);
      ShapeDecides(waiting, a.expr, after);
      waiting := a.expr;
      if a.state != Some(Over) {
        needToReschedule := true;
        return;
      }
      needToReschedule := false;
      Continuation();
      es := Over;
    }
  }
}
