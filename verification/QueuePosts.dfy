/** event/priorityQueue.go:139-189: what an add pushes is what its caller asked for, also when the caller
    slept in between.  The requests are read off the calls, not off what the queue remembers of them. */
module QueuePosts {
  import opened PriorityList
  import opened Optional
  import opened BlockingQueue
  import Runs

  /** The request of thread t's latest Add. */
  ghost function Latest(steps: seq<Step>, t: nat): Option<Request> {
    if steps == [] then None
    else
      var last := steps[|steps| - 1];
      if last.Add? && last.t == t then Some(last.req) else Latest(steps[..|steps| - 1], t)
  }

  /** The request on whose behalf a step adds, after the given ones. */
  ghost function CallOf(before: seq<Step>, step: Step): Option<Request> {
    match step
    case AddNoWait(_, req, _) => Some(req)
    case Add(_, req) => Some(req)
    case AddResume(t) => Latest(before, t)
    case _ => None
  }

  /** The request whose call a step brings to success, if it does. */
  ghost function Success(s: State, before: seq<Step>, step: Step): seq<Request> {
    if Succeeds(s, step) && CallOf(before, step).Some? then [CallOf(before, step).value] else []
  }

  /** The requests of the calls that succeeded, in order. */
  ghost function Successful(run: seq<State>, steps: seq<Step>): seq<Request>
    requires |run| == |steps| + 1
  {
    if steps == [] then []
    else
      var n := |steps| - 1;
      Successful(run[..n + 1], steps[..n]) + Success(run[n], steps[..n], steps[n])
  }

  /** What these requests put into the queue. */
  ghost function Posted(levels: int, reqs: seq<Request>): (r: seq<Element>)
    requires levels >= 1
    ensures |r| == |reqs|
    ensures forall k :: 0 <= k < |r| ==> r[k] == Entry(Clamp(levels, reqs[k].pri), Item(k, reqs[k].payload))
  {
    seq(|reqs|, k requires 0 <= k < |reqs| => Entry(Clamp(levels, reqs[k].pri), Item(k, reqs[k].payload)))
  }

  ghost predicate InAdd(p: Pc) { p.AddWaiting? || p.AddWoken? }

  /** The queue has accepted these requests, and sleepers will go on with those of their latest calls. */
  ghost predicate Logged(s: State, steps: seq<Step>, reqs: seq<Request>) {
    && s.levels >= 1 && |s.arg| == |s.pc| && s.accepted == Posted(s.levels, reqs)
    && forall t :: 0 <= t < |s.pc| && InAdd(s.pc[t]) ==> Latest(steps, t) == Some(s.arg[t])
  }

  lemma LatestNext(steps: seq<Step>, step: Step, t: nat)
    ensures Latest(steps + [step], t) == if step.Add? && step.t == t then Some(step.req) else Latest(steps, t)
  {
    assert (steps + [step])[..|steps|] == steps;
  }

  lemma PostedNext(levels: int, reqs: seq<Request>, req: Request)
    requires levels >= 1
    ensures Posted(levels, reqs + [req]) ==
            Posted(levels, reqs) + [Entry(Clamp(levels, req.pri), Item(|reqs|, req.payload))]
  {
  }

  lemma AddKeepsLog(s: State, step: Step, steps: seq<Step>, reqs: seq<Request>)
    requires Logged(s, steps, reqs) && Enabled(s, step) && (step.AddNoWait? || step.Add? || step.AddResume?)
    ensures Logged(Do(s, step), steps + [step], reqs + Success(s, steps, step)) && Do(s, step).levels == s.levels
  {
    var s' := Do(s, step);
    forall t: nat | t < |s.pc| ensures InAdd(s'.pc[t]) ==> Latest(steps + [step], t) == Some(s'.arg[t]) {
      LatestNext(steps, step, t);
    }
    if Succeeds(s, step) {
      PostedNext(s.levels, reqs, CallOf(steps, step).value);
    } else {
      assert reqs + [] == reqs;
    }
  }

  lemma OthersKeepRequest(s: State, step: Step, t: nat)
    requires s.levels >= 1 && Enabled(s, step) && !step.AddNoWait? && !step.Add? && !step.AddResume?
    requires |s.arg| == |s.pc| && t < |s.pc|
    ensures var s' := Do(s, step); |s'.pc| == |s.pc| && s'.arg == s.arg && (InAdd(s'.pc[t]) ==> InAdd(s.pc[t]))
  {
  }

  /** Other steps add nothing and disturb no sleeper's request. */
  lemma OthersKeepLog(s: State, step: Step, steps: seq<Step>, reqs: seq<Request>)
    requires Logged(s, steps, reqs) && Enabled(s, step) && !step.AddNoWait? && !step.Add? && !step.AddResume?
    ensures Logged(Do(s, step), steps, reqs) && Success(s, steps, step) == [] && Do(s, step).levels == s.levels
  {
    StepEffect(s, step);
    AcceptsExactly(s, step);
    forall t: nat | t < |s.pc| ensures InAdd(Do(s, step).pc[t]) ==> InAdd(s.pc[t]) {
      OthersKeepRequest(s, step, t);
    }
  }

  lemma StepKeepsLog(s: State, step: Step, steps: seq<Step>, reqs: seq<Request>)
    requires Logged(s, steps, reqs) && Enabled(s, step)
    ensures Logged(Do(s, step), steps + [step], reqs + Success(s, steps, step)) && Do(s, step).levels == s.levels
  {
    if step.AddNoWait? || step.Add? || step.AddResume? {
      AddKeepsLog(s, step, steps, reqs);
    } else {
      OthersKeepLog(s, step, steps, reqs);
      forall t: nat | t < |s.pc| ensures Latest(steps + [step], t) == Latest(steps, t) {
        LatestNext(steps, step, t);
      }
      assert reqs + [] == reqs;
    }
  }

  lemma {:induction false} HistoryIsLogged(run: seq<State>, steps: seq<Step>)
    requires Runs.IsHistory(Init, Leads, run, steps)
    ensures Logged(run[|steps|], steps, Successful(run, steps)) && run[|steps|].levels == run[0].levels
  {
    if steps != [] {
      var n := |steps| - 1;
      Runs.HistoryUpTo(Init, Leads, Next, run, steps, n);
      HistoryIsLogged(run[..n + 1], steps[..n]);
      assert Leads(run[n], steps[n], run[n + 1]);
      StepKeepsLog(run[n], steps[n], steps[..n], Successful(run[..n + 1], steps[..n]));
      assert steps[..n] + [steps[n]] == steps;
    }
  }

  /** Over every run: what was accepted is, in order, the clamped priority and the payload of the calls that
      succeeded; and whoever sleeps or has been woken inside Add will push the request it was called with. */
  lemma AcceptsWhatWasAsked(run: seq<State>, steps: seq<Step>, n: nat)
    requires Runs.IsHistory(Init, Leads, run, steps) && n <= |steps|
    ensures run[n].levels == run[0].levels >= 1
    ensures run[n].accepted == Posted(run[0].levels, Successful(run[..n + 1], steps[..n]))
    ensures |run[n].arg| == |run[n].pc|
    ensures forall t :: 0 <= t < |run[n].pc| && InAdd(run[n].pc[t]) ==> Latest(steps[..n], t) == Some(run[n].arg[t])
  {
    Runs.HistoryUpTo(Init, Leads, Next, run, steps, n);
    HistoryIsLogged(run[..n + 1], steps[..n]);
  }

  // ------------------------------------------------------------ how calls end, and what settings they leave

  /** An Add, at once or after a sleep, goes to sleep exactly when the queue is open and full, and otherwise
      returns, sending a signal on its way exactly when it has added something and a getter is registered as
      waiting; an AddNoWait never sleeps.  A Get goes to sleep exactly when the queue is open and empty, and
      otherwise returns, sending a broadcast exactly when an adder is registered as waiting. */
  lemma SleepsExactly(s: State, step: Step)
    requires s.levels >= 1 && Enabled(s, step)
    ensures step.AddNoWait? || step.Add? || step.AddResume? ==>
              Do(s, step).pc[step.t] ==
              if !step.AddNoWait? && !s.closed && |s.queue| >= s.fullSize then AddWaiting
              else if Succeeds(s, step) && s.emptyWaited > 0 then Signalling else Idle
    ensures step.Get? || step.GetResume? ==>
              Do(s, step).pc[step.t] ==
              if !s.closed && s.queue == [] then GetWaiting else if s.fullWaited > 0 then Broadcasting else Idle
  {
  }

  /** The limit last set. */
  ghost function Limit(initial: int, steps: seq<Step>): int {
    if steps == [] then initial
    else
      var last := steps[|steps| - 1];
      if last.SetFullSize? && last.newSize > 0 then last.newSize else Limit(initial, steps[..|steps| - 1])
  }

  ghost predicate CloseCalled(steps: seq<Step>) { exists i :: 0 <= i < |steps| && steps[i].Close? }

  lemma StepSettings(s: State, step: Step)
    requires s.levels >= 1 && Enabled(s, step)
    ensures var s' := Do(s, step);
            && s'.fullSize == (if step.SetFullSize? && step.newSize > 0 then step.newSize else s.fullSize)
            && (s'.closeOnce <==> s.closeOnce || step.Close?)
  {
  }

  lemma {:induction false} HistorySettings(run: seq<State>, steps: seq<Step>)
    requires Runs.IsHistory(Init, Leads, run, steps)
    ensures run[|steps|].fullSize == Limit(run[0].fullSize, steps)
    ensures run[|steps|].closeOnce <==> CloseCalled(steps)
  {
    if steps != [] {
      var n := |steps| - 1;
      Runs.HistoryUpTo(Init, Leads, Next, run, steps, n);
      HistorySettings(run[..n + 1], steps[..n]);
      assert Leads(run[n], steps[n], run[n + 1]);
      StepSettings(run[n], steps[n]);
      if CloseCalled(steps[..n]) {
        var i :| 0 <= i < n && steps[..n][i].Close?;
        assert steps[i].Close?;
      }
    }
  }

  /** Over every run given with its steps: the limit is the last positive one set; the queue is not closed
      before Close has been called, and once that call has come to its end it is. */
  lemma SettingsExactly(run: seq<State>, steps: seq<Step>)
    requires Runs.IsHistory(Init, Leads, run, steps)
    ensures var s := run[|steps|];
            && s.fullSize == Limit(run[0].fullSize, steps) && (s.closed ==> CloseCalled(steps))
            && (CloseCalled(steps) && ClosingLock !in s.pc ==> s.closed)
  {
    Runs.HistoryUpTo(Init, Leads, Next, run, steps, |steps|);
    RunKeepsInv(run, |steps|);
    HistorySettings(run, steps);
    CountPositive(run[|steps|].pc, ClosingLock);
  }
}
