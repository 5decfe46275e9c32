/** event/eventQueue.go:81-98: once the queue is closed, Run executes what is left and returns. */
module EventLiveness {
  import opened EventQueue
  import Q = BlockingQueue
  import Posts = QueuePosts
  import Runs

  ghost predicate InGet(p: Q.Pc) { p.GetWaiting? || p.GetWoken? }

  /** Run is the only one who is ever inside Get. */
  ghost predicate OnlyRunWaits(s: State) {
    forall u: nat :: u < |s.q.pc| ==> (InGet(s.q.pc[u]) <==> s.runner == Waiting(u))
  }

  /** Run is one of the threads, and Get returns nothing only with word of the close. */
  ghost predicate RunFits(s: State) {
    && (s.runner.Looping? || s.runner.Waiting? || s.runner.Got? ==> s.runner.t < |s.q.pc|)
    && (s.runner.Got? && s.runner.v.Nothing? ==> s.runner.closed)
  }

  ghost predicate LiveInv(s: State) { Inv(s) && OnlyRunWaits(s) && RunFits(s) }

  lemma SameThreads(q: Q.State, qs: Q.Step)
    requires q.levels >= 1 && Q.Enabled(q, qs)
    ensures |Q.Do(q, qs).pc| == |q.pc|
  {
  }

  lemma QueueKeepsWaiting(q: Q.State, qs: Q.Step, u: nat)
    requires q.levels >= 1 && Q.Enabled(q, qs) && !qs.Get? && !qs.GetResume? && u < |q.pc| == |q.arg|
    ensures var q' := Q.Do(q, qs); |q'.pc| == |q.pc| && (InGet(q'.pc[u]) <==> InGet(q.pc[u]))
  {
  }

  lemma GetChangesOwn(q: Q.State, qs: Q.Step, u: nat)
    requires q.levels >= 1 && Q.Enabled(q, qs) && (qs.Get? || qs.GetResume?) && u < |q.pc| == |q.arg|
    ensures var q' := Q.Do(q, qs);
            && |q'.pc| == |q.pc| && (u != qs.t ==> q'.pc[u] == q.pc[u])
            && (InGet(q'.pc[qs.t]) <==> !q.closed && q.queue == [])
  {
    Posts.SleepsExactly(q, qs);
  }

  lemma StepKeepsLiveInv(s: State, step: Step)
    requires LiveInv(s) && Enabled(s, step)
    ensures LiveInv(Do(s, step))
  {
    StepKeepsInv(s, step);
    var s' := Do(s, step);
    match step {
      case Queue(qs) => SameThreads(s.q, qs);
      case CallGet => SameThreads(s.q, Q.Get(s.runner.t));
      case ResumeGet => SameThreads(s.q, Q.GetResume(s.runner.t));
      case _ =>
    }
    forall u: nat | u < |s.q.pc| ensures InGet(s'.q.pc[u]) <==> s'.runner == Waiting(u) {
      match step
      case Queue(qs) => QueueKeepsWaiting(s.q, qs, u);
      case CallGet => GetChangesOwn(s.q, Q.Get(s.runner.t), u);
      case ResumeGet => GetChangesOwn(s.q, Q.GetResume(s.runner.t), u);
      case _ =>
    }
  }

  lemma NextKeepsLiveInv(s: State, s': State)
    requires LiveInv(s) && Next(s, s')
    ensures LiveInv(s')
  {
    var step :| Leads(s, step, s');
    StepKeepsLiveInv(s, step);
  }

  lemma RunKeepsLiveInv(run: seq<State>, i: nat)
    requires Runs.IsRun(Init, Next, run) && i < |run|
    ensures LiveInv(run[i])
  {
    forall s | Init(s) ensures LiveInv(s) { InitKeepsInv(s); }
    forall s, s' | LiveInv(s) && Next(s, s') ensures LiveInv(s') { NextKeepsLiveInv(s, s'); }
    Runs.Invariance(Init, Next, LiveInv, run, i);
  }

  // ------------------------------------------------------------ the measure

  /** No new post: Run goes on, or an operation of the queue that has begun does. */
  ghost predicate Internal(step: Step) {
    step.CallGet? || step.ResumeGet? || step.Execute? || step.Return? || (step.Queue? && Q.Internal(step.qs))
  }

  ghost predicate InternalNext(s: State, s': State) {
    exists step :: Internal(step) && Leads(s, step, s')
  }

  /** Elements still to be fetched or executed. */
  ghost function Left(s: State): nat {
    2 * |s.q.queue| + (if s.runner.Got? && s.runner.v.Value? then 1 else 0)
  }

  ghost function Phase(r: Runner): nat {
    match r
    case NotStarted => 3
    case Looping(_) => 2
    case Waiting(_) => 2
    case Got(_, _, _) => 1
    case Returned => 0
  }

  ghost predicate Below(s': State, s: State) {
    || Left(s') < Left(s)
    || (Left(s') == Left(s) &&
        (Phase(s'.runner) < Phase(s.runner) ||
         (Phase(s'.runner) == Phase(s.runner) && Q.Below(Q.Census(s'.q.pc), Q.Census(s.q.pc)))))
  }

  lemma FetchDescends(s: State, qs: Q.Step)
    requires s.q.closed && s.q.levels >= 1 && Q.Enabled(s.q, qs) && (qs.Get? || qs.GetResume?)
    requires s.runner.Looping? || s.runner.Waiting?
    ensures var s' := Fetch(s, qs.t, Q.Do(s.q, qs)); Below(s', s) && s'.q.closed
  {
    Q.StepEffect(s.q, qs);
  }

  lemma QueueDescends(s: State, qs: Q.Step)
    requires s.q.closed && s.q.levels >= 1 && Q.Enabled(s.q, qs) && Q.Internal(qs) && !qs.GetResume?
    ensures var s' := s.(q := Q.Do(s.q, qs)); Below(s', s) && s'.q.closed
  {
    Q.StepEffect(s.q, qs);
    Q.AcceptsExactly(s.q, qs);
    Q.InternalStepDescends(s.q, qs);
  }

  lemma InternalStepDescends(s: State, step: Step)
    requires LiveInv(s) && s.q.closed && Enabled(s, step) && Internal(step)
    ensures Below(Do(s, step), s) && Do(s, step).q.closed
  {
    match step
    case Queue(qs) => QueueDescends(s, qs);
    case CallGet => FetchDescends(s, Q.Get(s.runner.t));
    case ResumeGet => FetchDescends(s, Q.GetResume(s.runner.t));
    case Execute =>
    case Return =>
  }

  lemma QuietQueue(q: Q.State, u: nat)
    requires Q.Inv(q) && q.closed && Q.Settled(q) && u < |q.pc|
    ensures q.pc[u] == Q.Idle
  {
    Q.SettledIsRight(q);
  }

  lemma QueueCanFinish(s: State) returns (step: Step)
    requires LiveInv(s) && !Q.Settled(s.q)
    ensures Internal(step) && Enabled(s, step)
  {
    Q.CanFinish(s.q);
    var q' :| Q.InternalNext(s.q, q');
    var qs :| s.q.levels >= 1 && Q.Internal(qs) && Q.Enabled(s.q, qs) && q' == Q.Do(s.q, qs);
    if qs.GetResume? {
      assert InGet(s.q.pc[qs.t]);
      step := ResumeGet;
    } else {
      step := Queue(qs);
    }
  }

  /** With a closed queue and Run under way, such a step exists until Run has returned. */
  lemma CanFinish(s: State)
    requires LiveInv(s) && s.q.closed && !s.runner.NotStarted? && !s.runner.Returned?
    ensures exists s' :: InternalNext(s, s')
  {
    var step: Step;
    if Q.Settled(s.q) {
      QuietQueue(s.q, s.runner.t);
      step := if s.runner.Looping? then CallGet else if s.runner.v.Value? then Execute else Return;
    } else {
      step := QueueCanFinish(s);
    }
    assert Leads(s, step, Do(s, step));
    assert InternalNext(s, Do(s, step));
  }

  /** A schedule of such steps that stops only when Run has returned. */
  ghost predicate Finishing(f: nat -> State) {
    forall i: nat :: f(i).runner.Returned? || InternalNext(f(i), f(i + 1))
  }

  lemma {:induction false} FinishingDescends(f: nat -> State, i: nat) returns (k: nat)
    requires Finishing(f) && LiveInv(f(i)) && f(i).q.closed
    ensures LiveInv(f(k)) && f(k).runner.Returned?
    decreases Left(f(i)), Phase(f(i).runner), Q.Blocked(Q.Census(f(i).q.pc)), Q.Notices(Q.Census(f(i).q.pc)),
              Q.Rechecks(Q.Census(f(i).q.pc))
  {
    if f(i).runner.Returned? {
      k := i;
    } else {
      assert InternalNext(f(i), f(i + 1));
      var step :| Internal(step) && Leads(f(i), step, f(i + 1));
      StepKeepsLiveInv(f(i), step);
      InternalStepDescends(f(i), step);
      k := FinishingDescends(f, i + 1);
    }
  }

  /** Run comes to an end: from every reachable state with a closed queue, every schedule in which Run and the
      operations already begun go on reaches a point where Run has returned, and by then everything ever
      accepted has been executed, and nothing else. */
  lemma LoopEnds(run: seq<State>, f: nat -> State) returns (k: nat)
    requires Runs.IsRun(Init, Next, run) && f(0) == run[|run| - 1] && f(0).q.closed && Finishing(f)
    ensures f(k).runner.Returned? && multiset(f(k).executed) == multiset(f(k).q.accepted)
  {
    RunKeepsLiveInv(run, |run| - 1);
    k := FinishingDescends(f, 0);
  }
}
