/** timer/timer.go:25-69: a one-shot timer as its user sees it: callbacks that return, and the answers of
    Cancel. */
module TimerHistory {
  import opened Timer
  import opened Sums
  import Runs

  datatype Step = By(t: nat, op: Op)

  ghost predicate Leads(s: State, step: Step, s': State) {
    Enabled(s, step.t, step.op) && s' == Do(s, step.t, step.op)
  }

  /** How many callbacks have returned. */
  ghost function Returns(steps: seq<Step>): nat {
    if steps == [] then 0
    else Returns(steps[..|steps| - 1]) + (if steps[|steps| - 1].op.Return? then 1 else 0)
  }

  ghost predicate CancelCalled(steps: seq<Step>) { exists k :: 0 <= k < |steps| && steps[k].op.Cancel? }

  /** The Cancel of step k is to return true. */
  ghost predicate WonAt(run: seq<State>, steps: seq<Step>, k: int) {
    && 0 <= k < |steps| == |run| - 1 && steps[k].op.Cancel?
    && steps[k].t < |run[k + 1].pc| && run[k + 1].pc[steps[k].t].Cancelling?
  }

  ghost predicate CancelWon(run: seq<State>, steps: seq<Step>) { exists k :: WonAt(run, steps, k) }

  ghost function Inside(p: Pc): nat { if p.InCallback? then 1 else 0 }

  /** What the timer remembers is what happened. */
  ghost predicate Remembers(s: State, run: seq<State>, steps: seq<Step>) {
    && Inv(s) && s.g.started == Returns(steps) + Sum(s.pc, Inside)
    && (s.g.cancelCalled <==> CancelCalled(steps)) && (s.g.cancelWon <==> CancelWon(run, steps))
    && (!s.g.repeat && s.g.cancelCalled && !s.g.cancelWon ==> s.g.started > 0)
  }

  lemma {:induction false} NobodyInside(pc: seq<Pc>)
    requires forall t :: 0 <= t < |pc| ==> !pc[t].InCallback?
    ensures Sum(pc, Inside) == 0
  {
    if pc != [] {
      NobodyInside(pc[..|pc| - 1]);
    }
  }

  lemma StepCounts(s: State, t: nat, op: Op)
    requires Enabled(s, t, op)
    ensures var s' := Do(s, t, op);
            s'.g.started - Sum(s'.pc, Inside) == s.g.started - Sum(s.pc, Inside) + (if op.Return? then 1 else 0)
  {
    SumSet(s.pc, t, Do(s, t, op).pc[t], Inside);
  }

  /** A running callback has started. */
  lemma FiringHasStarted(s: State)
    requires Inv(s) && s.g.status.Firing?
    ensures s.g.started > 0
  {
    var t :| 0 <= t < |s.pc| && Active(s.pc[t]);
    assert Local(s.g, s.pc[t]);
  }

  lemma StepCancels(s: State, t: nat, op: Op)
    requires Inv(s) && Enabled(s, t, op)
    requires !s.g.repeat && s.g.cancelCalled && !s.g.cancelWon ==> s.g.started > 0
    ensures var s' := Do(s, t, op);
            && (s'.g.cancelCalled <==> s.g.cancelCalled || op.Cancel?)
            && (s'.g.cancelWon <==> s.g.cancelWon || (op.Cancel? && s'.pc[t].Cancelling?))
            && (!s'.g.repeat && s'.g.cancelCalled && !s'.g.cancelWon ==> s'.g.started > 0)
  {
    if s.g.status.Firing? {
      FiringHasStarted(s);
    }
  }

  lemma CalledNext(steps: seq<Step>)
    requires steps != []
    ensures CancelCalled(steps) <==> CancelCalled(steps[..|steps| - 1]) || steps[|steps| - 1].op.Cancel?
  {
    var n := |steps| - 1;
    if CancelCalled(steps[..n]) {
      var k :| 0 <= k < n && steps[..n][k].op.Cancel?;
      assert steps[k].op.Cancel?;
    }
    if CancelCalled(steps) && !steps[n].op.Cancel? {
      var k :| 0 <= k < |steps| && steps[k].op.Cancel?;
      assert steps[..n][k].op.Cancel?;
    }
  }

  lemma WonNext(run: seq<State>, steps: seq<Step>)
    requires steps != [] && |run| == |steps| + 1
    ensures var n := |steps| - 1;
            CancelWon(run, steps) <==> CancelWon(run[..n + 1], steps[..n]) || WonAt(run, steps, n)
  {
    var n := |steps| - 1;
    forall k | 0 <= k < n ensures WonAt(run, steps, k) <==> WonAt(run[..n + 1], steps[..n], k) {
    }
    if CancelWon(run[..n + 1], steps[..n]) {
      var k :| WonAt(run[..n + 1], steps[..n], k);
      assert WonAt(run, steps, k);
    }
    if CancelWon(run, steps) {
      var k :| WonAt(run, steps, k);
      assert k == n || WonAt(run[..n + 1], steps[..n], k);
    }
  }

  lemma InitRemembers(s: State)
    requires Init(s)
    ensures Remembers(s, [s], [])
  {
    NobodyInside(s.pc);
  }

  lemma {:induction false} HistoryRemembered(run: seq<State>, steps: seq<Step>)
    requires Runs.IsHistory(Init, Leads, run, steps)
    ensures Remembers(run[|steps|], run, steps)
  {
    if steps == [] {
      InitRemembers(run[0]);
      assert run == [run[0]];
    } else {
      var n := |steps| - 1;
      Runs.HistoryUpTo(Init, Leads, Next, run, steps, n);
      HistoryRemembered(run[..n + 1], steps[..n]);
      assert Leads(run[n], steps[n], run[n + 1]);
      StepKeepsInv(run[n], steps[n].t, steps[n].op);
      StepCounts(run[n], steps[n].t, steps[n].op);
      StepCancels(run[n], steps[n].t, steps[n].op);
      CalledNext(steps);
      WonNext(run, steps);
    }
  }

  /** A Cancel that returns true has found no callback running; and a Cancel of a one-shot timer returns true
      if and only if it is the first and no callback has begun. */
  lemma CancelWinsExactly(run: seq<State>, steps: seq<Step>, t: nat)
    requires Runs.IsHistory(Init, Leads, run, steps) && Enabled(run[|steps|], t, Cancel)
    ensures var s, s' := run[|steps|], Do(run[|steps|], t, Cancel);
            && (s'.pc[t].Cancelling? ==> forall u :: 0 <= u < |s.pc| ==> !s.pc[u].InCallback?)
            && (!s.g.repeat ==>
                  (s'.pc[t].Cancelling? <==> !CancelCalled(steps) && Returns(steps) + Sum(s.pc, Inside) == 0))
  {
    HistoryRemembered(run, steps);
    var s := run[|steps|];
    if s.g.status.Firing? {
      FiringHasStarted(s);
    }
    forall u | 0 <= u < |s.pc| && s.pc[u].InCallback? ensures !s.g.status.Waiting? {
      assert Local(s.g, s.pc[u]);
    }
  }

  /** A one-shot timer that has come to rest, with nobody at work and nothing armed, has run its callback
      exactly once if no Cancel was answered with true, and not at all if one was. */
  lemma RunsOnceUnlessCancelled(run: seq<State>, steps: seq<Step>)
    requires Runs.IsHistory(Init, Leads, run, steps) && !run[|steps|].g.repeat
    requires Quiet(run[|steps|]) && run[|steps|].g.armed == {}
    ensures Returns(steps) == if CancelWon(run, steps) then 0 else 1
  {
    HistoryRemembered(run, steps);
    var s := run[|steps|];
    NobodyInside(s.pc);
    if s.g.status.Firing? {
      FiringHasStarted(s);
    }
  }

  /** The status is Waiting exactly before the callback of a one-shot timer has begun and anybody has tried to
      cancel it. */
  lemma WaitsExactly(run: seq<State>, steps: seq<Step>)
    requires Runs.IsHistory(Init, Leads, run, steps) && !run[|steps|].g.repeat
    ensures var s := run[|steps|];
            s.g.status.Waiting? <==> !CancelCalled(steps) && Returns(steps) + Sum(s.pc, Inside) == 0
  {
    HistoryRemembered(run, steps);
    if run[|steps|].g.status.Firing? {
      FiringHasStarted(run[|steps|]);
    }
  }

  /** ResetFireTime acts exactly on a one-shot timer whose callback has not begun and that nobody has tried to
      cancel; and then it arms the runtime timer in t, and nothing else. */
  lemma ResetsExactly(run: seq<State>, steps: seq<Step>, t: nat)
    requires Runs.IsHistory(Init, Leads, run, steps)
    ensures var s := run[|steps|];
            Enabled(s, t, ResetFireTime) ==>
              var s' := Do(s, t, ResetFireTime);
              && s'.g == s.g
              && (s'.pc[t].Resetting? <==>
                    !s.g.repeat && !CancelCalled(steps) && Returns(steps) + Sum(s.pc, Inside) == 0)
    ensures var s := run[|steps|];
            Enabled(s, t, Reset) ==>
              s.g.stored && Do(s, t, Reset).g == s.g.(armed := s.g.armed + {s.g.current})
  {
    HistoryRemembered(run, steps);
    var s := run[|steps|];
    if !s.g.repeat {
      WaitsExactly(run, steps);
    }
    if Enabled(s, t, Reset) {
      assert Local(s.g, s.pc[t]);
    }
  }
}
