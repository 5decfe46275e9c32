/** event/eventHandler.go:153-289: what an emit calls, said without the list: the handlers whose registration
    has arrived and stands, in the order in which their registrations arrived. */
module HandlerOrder {
  import opened Sequences
  import opened HandlerSlot
  import Runs

  /** Those of the first n registrations that stand after all of ops, in order of arrival. */
  ghost function Standing(ops: seq<Op>, n: nat): (r: seq<Handler>)
    requires n <= |ops|
  {
    if n == 0 then []
    else
      Standing(ops, n - 1) +
      (if ops[n - 1].Register? && StandsSince(ops, ops[n - 1].h, n - 1) then [ops[n - 1].h] else [])
  }

  /** The calls to be made for operations that arrived in this order. */
  ghost function Expected(ops: seq<Op>): seq<Call> {
    if ops == [] then []
    else
      var n := |ops| - 1;
      Expected(ops[..n]) + (if ops[n].Emit? then Calls(Standing(ops[..n], n), ops[n].arg) else [])
  }

  lemma {:induction false} StandingRegistered(ops: seq<Op>, n: nat, h: Handler)
    requires n <= |ops| && h in Standing(ops, n)
    ensures Register(h) in ops[..n]
  {
    if h in Standing(ops, n - 1) {
      StandingRegistered(ops, n - 1, h);
      assert ops[..n - 1] == ops[..n][..n - 1];
    } else {
      assert ops[..n][n - 1] == Register(h);
    }
  }

  lemma StandsLonger(ops: seq<Op>, op: Op, h: Handler, i: nat)
    requires i < |ops| && ops[i] == Register(h)
    ensures StandsSince(ops + [op], h, i) <==> StandsSince(ops, h, i) && !Ends(op, h)
  {
    var all := ops + [op];
    assert forall j :: 0 <= j < |ops| ==> all[j] == ops[j];
    assert all[|ops|] == op;
    if StandsSince(all, h, i) {
      forall j | i < j < |ops| ensures !Ends(ops[j], h) {
        assert !Ends(all[j], h);
      }
    }
  }

  lemma StandingStep(ops: seq<Op>, op: Op, n: nat)
    requires 0 < n <= |ops|
    ensures var last := Standing(ops, n)[|Standing(ops, n - 1)|..];
            && Standing(ops, n) == Standing(ops, n - 1) + last
            && Standing(ops + [op], n) == Standing(ops + [op], n - 1) +
               (if last != [] && !Ends(op, last[0]) then last else [])
            && (last == [] || last == [ops[n - 1].h])
  {
    if ops[n - 1].Register? {
      StandsLonger(ops, op, ops[n - 1].h, n - 1);
    }
  }

  /** A registration ends nothing. */
  lemma {:induction false} RegisterKeepsStanding(ops: seq<Op>, h: Handler, n: nat)
    requires n <= |ops|
    ensures Standing(ops + [Register(h)], n) == Standing(ops, n)
  {
    if n > 0 {
      RegisterKeepsStanding(ops, h, n - 1);
      StandingStep(ops, Register(h), n);
    }
  }

  lemma KeptAppend(l: seq<Handler>, h: Handler)
    ensures Kept(l + [h]) == Kept(l) + (if h.once then [] else [h])
  {
    assert (l + [h])[..|l|] == l;
  }

  /** An emit ends the once-handlers. */
  lemma {:induction false} EmitKeepsStanding(ops: seq<Op>, arg: int, n: nat)
    requires n <= |ops|
    ensures Standing(ops + [Emit(arg)], n) == Kept(Standing(ops, n))
  {
    if n > 0 {
      EmitKeepsStanding(ops, arg, n - 1);
      StandingStep(ops, Emit(arg), n);
      var l := Standing(ops, n - 1);
      if Standing(ops, n) != l {
        KeptAppend(l, ops[n - 1].h);
      }
    }
  }

  lemma {:induction false} WithoutAppend<T>(l: seq<T>, y: T, x: T)
    ensures Without(l + [y], x) == if x in l then Without(l, x) + [y] else if x == y then l else l + [y]
  {
    if l == [] {
      assert l + [y] == [y];
    } else {
      assert (l + [y])[1..] == l[1..] + [y];
      if l[0] != x {
        WithoutAppend(l[1..], y, x);
      }
    }
  }

  /** A removal ends the one registration of its handle. */
  lemma {:induction false} RemoveKeepsStanding(ops: seq<Op>, h: Handler, n: nat)
    requires Fresh(ops) && n <= |ops|
    ensures Standing(ops + [Remove(h)], n) == Without(Standing(ops, n), h)
  {
    if n > 0 {
      RemoveKeepsStanding(ops, h, n - 1);
      StandingStep(ops, Remove(h), n);
      var l := Standing(ops, n - 1);
      if Standing(ops, n) != l {
        var g := ops[n - 1].h;
        WithoutAppend(l, g, h);
        if h in l {
          StandingRegistered(ops, n - 1, h);
          var i :| 0 <= i < n - 1 && ops[..n - 1][i] == Register(h);
          assert ops[i].Register? && ops[i].h.id != g.id;
        } else {
          NotThere(l, h);
        }
      }
    }
  }

  lemma RegisterStands(ops: seq<Op>, h: Handler)
    ensures Standing(ops + [Register(h)], |ops| + 1) == Standing(ops, |ops|) + [h]
  {
    RegisterKeepsStanding(ops, h, |ops|);
    assert StandsSince(ops + [Register(h)], h, |ops|);
  }

  /** The list of the sequential machine is the registrations that stand, in order of arrival. */
  lemma {:induction false} ListIsStanding(ops: seq<Op>)
    requires Fresh(ops)
    ensures ApplyAll(ops).list == Standing(ops, |ops|)
  {
    if ops != [] {
      var n := |ops| - 1;
      var front := ops[..n];
      ListIsStanding(front);
      assert front + [ops[n]] == ops;
      match ops[n]
      case Register(h) => RegisterStands(front, h);
      case Remove(h) => RemoveKeepsStanding(front, h, n);
      case Emit(arg) => EmitKeepsStanding(front, arg, n);
    }
  }

  lemma {:induction false} TraceIsExpected(ops: seq<Op>)
    requires Fresh(ops)
    ensures ApplyAll(ops).trace == Expected(ops)
  {
    if ops != [] {
      TraceIsExpected(ops[..|ops| - 1]);
      ListIsStanding(ops[..|ops| - 1]);
    }
  }

  /** The order of Standing: later in it means registered later. */
  lemma {:induction false} StandingInOrder(ops: seq<Op>, n: nat, a: nat, b: nat) returns (i: nat, j: nat)
    requires n <= |ops| && a < b < |Standing(ops, n)|
    ensures i < j < n && ops[i] == Register(Standing(ops, n)[a]) && ops[j] == Register(Standing(ops, n)[b])
  {
    var l := Standing(ops, n - 1);
    if b < |l| {
      i, j := StandingInOrder(ops, n - 1, a, b);
    } else {
      j := n - 1;
      StandingRegistered(ops, n - 1, l[a]);
      i :| 0 <= i < n - 1 && ops[..n - 1][i] == Register(l[a]);
    }
  }

  // ------------------------------------------------------------ over runs with their steps

  /** The calls that came in, in order. */
  ghost function Arrivals(steps: seq<Step>): seq<Op> {
    if steps == [] then []
    else
      var n := |steps| - 1;
      Arrivals(steps[..n]) + (if steps[n].Arrive? then [steps[n].op] else [])
  }

  lemma {:induction false} ArrivedIsArrivals(run: seq<State>, steps: seq<Step>)
    requires Runs.IsHistory(Init, Leads, run, steps)
    ensures run[|steps|].arrived == Arrivals(steps)
  {
    if steps != [] {
      var n := |steps| - 1;
      Runs.HistoryUpTo(Init, Leads, Next, run, steps, n);
      ArrivedIsArrivals(run[..n + 1], steps[..n]);
      assert Leads(run[n], steps[n], run[n + 1]);
    }
  }

  /** Slot linearizability, over every run given with its steps: the calls made so far are, in order, the
      first of those to be made for the operations in the order in which they came in, each emit calling the
      handlers whose registration came in before it and stands, once each, in the order of their
      registrations; and whenever no emit is under way nothing is pending, all of these calls have been made
      and the handlers in the list are those whose registration stands. */
  lemma Linearizable(run: seq<State>, steps: seq<Step>)
    requires Runs.IsHistory(Init, Leads, run, steps)
    ensures var s, ops := run[|steps|], Arrivals(steps);
            && s.slot.trace <= Expected(ops)
            && (!s.emitting ==> s.pending == [] && s.slot == Slot(Standing(ops, |ops|), Expected(ops)))
            && (s.cursor.Calling? ==> s.cursor.k < |s.slot.list|)
  {
    Runs.HistoryUpTo(Init, Leads, Next, run, steps, |steps|);
    ArrivedIsArrivals(run, steps);
    FollowsSequential(run, |steps|);
    RunIsFresh(run, |steps|);
    ListIsStanding(Arrivals(steps));
    TraceIsExpected(Arrivals(steps));
  }

  /** The calls of one emit are in the order in which the registrations came in. */
  lemma CallsInOrder(ops: seq<Op>, n: nat, a: nat, b: nat) returns (i: nat, j: nat)
    requires n < |ops| && ops[n].Emit? && a < b < |Standing(ops[..n], n)|
    ensures |Expected(ops[..n + 1])| == |Expected(ops[..n])| + |Standing(ops[..n], n)|
    ensures var first := |Expected(ops[..n])|;
            && i < j < n && ops[i].Register? && ops[j].Register?
            && Expected(ops[..n + 1])[first + a] == Call(ops[i].h.id, ops[n].arg)
            && Expected(ops[..n + 1])[first + b] == Call(ops[j].h.id, ops[n].arg)
  {
    i, j := StandingInOrder(ops[..n], n, a, b);
    assert ops[..n + 1][..n] == ops[..n];
    assert ops[..n][i] == ops[i] && ops[..n][j] == ops[j];
  }

  // ------------------------------------------------------------ an emit comes to its end

  /** Handlers still to be called by the emit under way. */
  ghost function ToCall(s: State): int { if s.cursor.Calling? then |s.slot.list| - s.cursor.k else 0 }

  /** A step of the emitting goroutine, not a new call. */
  ghost predicate InternalNext(s: State, s': State) {
    exists step: Step :: !step.Arrive? && Leads(s, step, s')
  }

  lemma InternalStepDescends(s: State, step: Step)
    requires Inv(s) && Enabled(s, step) && !step.Arrive?
    ensures var s' := Do(s, step);
            && s'.arrived == s.arrived
            && (|s'.pending| < |s.pending| ||
                (s'.pending == s.pending &&
                 (0 <= ToCall(s') < ToCall(s) || (ToCall(s') == ToCall(s) && s.emitting && !s'.emitting))))
  {
  }

  lemma CanFinish(s: State)
    requires Inv(s) && s.emitting
    ensures exists s' :: InternalNext(s, s')
  {
    var step := if s.cursor.Calling? then HandlerReturns else if s.pending != [] then TakePending else Finish;
    assert Leads(s, step, Do(s, step));
    assert InternalNext(s, Do(s, step));
  }

  /** A schedule of such steps that stops only when nobody emits. */
  ghost predicate Finishing(f: nat -> State) {
    forall i: nat :: !f(i).emitting || InternalNext(f(i), f(i + 1))
  }

  lemma {:induction false} FinishingDescends(f: nat -> State, i: nat) returns (k: nat)
    requires Finishing(f) && Inv(f(i))
    ensures Inv(f(k)) && !f(k).emitting && f(k).arrived == f(i).arrived
    decreases |f(i).pending|, ToCall(f(i)), f(i).emitting
  {
    if !f(i).emitting {
      k := i;
    } else {
      assert InternalNext(f(i), f(i + 1));
      var step: Step :| !step.Arrive? && Leads(f(i), step, f(i + 1));
      StepKeepsInv(f(i), step);
      InternalStepDescends(f(i), step);
      k := FinishingDescends(f, i + 1);
    }
  }

  /** Every emit comes to its end: from every reachable state, every schedule in which handlers return and no
      new call comes in reaches a point where nobody emits, and then all calls that were to be made for what
      had come in have been made, and the list is the handlers whose registration stands. */
  lemma EmitEnds(run: seq<State>, f: nat -> State) returns (k: nat)
    requires Runs.IsRun(Init, Next, run) && f(0) == run[|run| - 1] && Finishing(f)
    ensures var ops := f(0).arrived;
            !f(k).emitting && f(k).slot == Slot(Standing(ops, |ops|), Expected(ops)) && f(k).pending == []
  {
    RunKeepsInv(run, |run| - 1);
    RunIsFresh(run, |run| - 1);
    k := FinishingDescends(f, 0);
    var ops := f(0).arrived;
    assert ops[..|ops|] == ops;
    ListIsStanding(ops);
    TraceIsExpected(ops);
  }
}
