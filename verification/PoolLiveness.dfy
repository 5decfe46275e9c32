/** gopool/gopool.go:130-253: tasks that were accepted come to be run.  A measure descends with every step that
    is neither a new task nor a close, as long as tasks return. */
module PoolLiveness {
  import opened GoPool
  import opened Sums
  import Runs

  ghost function Unfinished(p: Place): nat { if p.Finished? then 0 else 1 }

  /** How far a routine is from rest. */
  ghost function Rank(r: Routine): nat {
    match r
    case Handed(_) => 3
    case Running(_) => 2
    case Asking => 1
    case Told => 1
    case _ => 0
  }

  ghost predicate Internal(step: Step) { !step.Submit? && !step.CloseAll? }

  ghost predicate Below(s': State, s: State) {
    || Sum(s'.place, Unfinished) < Sum(s.place, Unfinished)
    || (Sum(s'.place, Unfinished) == Sum(s.place, Unfinished) &&
        (|s'.v.queue| < |s.v.queue| || (|s'.v.queue| == |s.v.queue| && Sum(s'.rs, Rank) < Sum(s.rs, Rank))))
  }

  lemma AskDescends(s: State, r: nat)
    requires Inv(s) && Enabled(s, Ask(r))
    ensures Below(Do(s, Ask(r)), s)
  {
    var a := Put(s.o, s.v, r).1;
    match a
    case Exit => SumSet(s.rs, r, Ended, Rank);
    case Next(t) => SumSet(s.place, t, With(r), Unfinished);
    case Park => SumSet(s.rs, r, Waiting, Rank);
  }

  lemma InternalStepDescends(s: State, step: Step)
    requires Inv(s) && Enabled(s, step) && Internal(step)
    ensures Below(Do(s, step), s)
  {
    match step
    case Receive(r) => SumSet(s.rs, r, Running(s.rs[r].t), Rank);
    case Complete(r) =>
      assert s.place[s.rs[r].t] == With(r);
      SumSet(s.place, s.rs[r].t, Finished, Unfinished);
    case Ask(r) => AskDescends(s, r);
    case DirectDone(t) => SumSet(s.place, t, Finished, Unfinished);
    case Leave(r) => SumSet(s.rs, r, Ended, Rank);
  }

  ghost predicate InternalNext(s: State, s': State) {
    exists step :: Internal(step) && Enabled(s, step) && s' == Do(s, step)
  }

  lemma CanFinish(s: State)
    requires Inv(s) && !Settled(s)
    ensures exists s' :: InternalNext(s, s')
  {
    var step: Step;
    if r: nat :| r < |s.rs| && Busy(s.rs[r]) {
      step := if s.rs[r].Handed? then Receive(r) else if s.rs[r].Running? then Complete(r) else Ask(r);
    } else {
      var t: nat :| t < |s.place| && s.place[t].Direct?;
      step := DirectDone(t);
    }
    assert Internal(step) && Enabled(s, step);
    assert InternalNext(s, Do(s, step));
  }

  /** A schedule of such steps that stops only when nobody works. */
  ghost predicate Finishing(f: nat -> State) {
    forall i: nat :: Settled(f(i)) || InternalNext(f(i), f(i + 1))
  }

  lemma InternalKeeps(s: State, step: Step)
    requires Inv(s) && Enabled(s, step) && Internal(step)
    ensures var s' := Do(s, step);
            |s'.place| == |s.place| && s'.v.die == s.v.die && (s.v.die ==> s'.v.queue == s.v.queue)
  {
  }

  lemma NextDescends(s: State, s': State)
    requires Inv(s) && InternalNext(s, s')
    ensures Inv(s') && Below(s', s)
    ensures |s'.place| == |s.place| && s'.v.die == s.v.die && (s.v.die ==> s'.v.queue == s.v.queue)
  {
    var step :| Internal(step) && Enabled(s, step) && s' == Do(s, step);
    StepKeepsInv(s, step);
    InternalStepDescends(s, step);
    InternalKeeps(s, step);
  }

  lemma {:induction false} FinishingDescends(f: nat -> State, i: nat) returns (k: nat)
    requires Finishing(f) && Inv(f(i))
    ensures Inv(f(k)) && Settled(f(k)) && |f(k).place| == |f(i).place| && f(k).v.die == f(i).v.die
    ensures f(i).v.die ==> f(k).v.queue == f(i).v.queue
    decreases Sum(f(i).place, Unfinished), |f(i).v.queue|, Sum(f(i).rs, Rank)
  {
    if Settled(f(i)) {
      k := i;
    } else {
      NextDescends(f(i), f(i + 1));
      k := FinishingDescends(f, i + 1);
    }
  }

  /** Every accepted task comes to be run: from every reachable state, every schedule in which tasks return and
      routines go on reaches a point where nobody works; by then every task accepted has finished, except,
      where the pool was closed, those in the queue. */
  lemma EveryTaskRuns(run: seq<State>, f: nat -> State) returns (k: nat)
    requires Runs.IsRun(Init, Transition, run) && f(0) == run[|run| - 1] && Finishing(f)
    ensures |f(k).place| == |f(0).place|
    ensures forall t :: 0 <= t < |f(k).place| ==> (f(k).place[t].Finished? <==> !(f(0).v.die && t in f(0).v.queue))
  {
    RunKeepsInv(run, |run| - 1);
    k := FinishingDescends(f, 0);
    NobodyBusy(f(k).rs);
  }
}
