/** event/eventQueue.go: posting closures to a priority queue and the Run loop that
    executes them.  Run is the only consumer of the queue; the posting methods, Close
    and the notifications are the queue's own steps. */
module EventQueue {
  import Q = BlockingQueue
  import Posts = QueuePosts
  import Runs

  datatype Result = Nothing | Value(e: Q.Element)

  datatype Runner =
    | NotStarted
    | Looping(t: nat)                               // about to call Get
    | Waiting(t: nat)                               // asleep or woken inside Get
    | Got(t: nat, v: Result, closed: bool)          // Get is returning (closed, v)
    | Returned

  datatype State = State(q: Q.State, runner: Runner, executed: seq<Q.Element>)

  datatype Step =
    | Queue(qs: Q.Step)   // a post, a close, a resize or a notification
    | Start(t: nat)       // Run wins started
    | CallGet
    | ResumeGet
    | Execute
    | Return

  ghost predicate Init(s: State) {
    Q.Init(s.q) && s.runner == NotStarted && s.executed == []
  }

  ghost predicate Enabled(s: State, step: Step) {
    match step
    case Queue(qs) => Q.Enabled(s.q, qs) && !qs.Get? && !qs.GetResume?
    case Start(t) => s.runner.NotStarted? && t < |s.q.pc|
    case CallGet => s.runner.Looping? && Q.Enabled(s.q, Q.Get(s.runner.t))
    case ResumeGet => s.runner.Waiting? && Q.Enabled(s.q, Q.GetResume(s.runner.t))
    case Execute => s.runner.Got? && s.runner.v.Value? && Q.At(s.q, s.runner.t, Q.Idle)
    case Return => s.runner.Got? && s.runner.v.Nothing? && Q.At(s.q, s.runner.t, Q.Idle)
  }

  /** The queue after the runner held the lock inside Get, and what Get then returns. */
  ghost function Fetch(s: State, t: nat, q': Q.State): State {
    if !s.q.closed && s.q.queue == [] then s.(q := q', runner := Waiting(t))
    else s.(q := q', runner := Got(t, if s.q.queue == [] then Nothing else Value(s.q.queue[0]), s.q.closed))
  }

  ghost function Do(s: State, step: Step): State
    requires s.q.levels >= 1 && Enabled(s, step)
  {
    match step
    case Queue(qs) => s.(q := Q.Do(s.q, qs))
    case Start(t) => s.(runner := Looping(t))
    case CallGet => Fetch(s, s.runner.t, Q.Do(s.q, Q.Get(s.runner.t)))
    case ResumeGet => Fetch(s, s.runner.t, Q.Do(s.q, Q.GetResume(s.runner.t)))
    case Execute => s.(executed := s.executed + [s.runner.v.e], runner := Looping(s.runner.t))
    case Return => if s.runner.closed then s.(runner := Returned) else s.(runner := Looping(s.runner.t))
  }

  ghost predicate Leads(s: State, step: Step, s': State) {
    s.q.levels >= 1 && Enabled(s, step) && s' == Do(s, step)
  }

  ghost predicate Next(s: State, s': State) {
    exists step :: Leads(s, step, s')
  }

  /** Taken elements are those executed plus the one in hand; Run gives up only on a closed empty queue. */
  ghost predicate Books(s: State) {
    && s.q.taken == s.executed + (if s.runner.Got? && s.runner.v.Value? then [s.runner.v.e] else [])
    && (s.runner.Returned? || (s.runner.Got? && s.runner.v.Nothing?) ==> s.q.closed && s.q.queue == [])
  }

  ghost predicate Inv(s: State) { Q.Inv(s.q) && Books(s) }

  lemma FetchKeepsBooks(s: State, t: nat, qs: Q.Step)
    requires s.q.levels >= 1 && Q.Enabled(s.q, qs) && (qs.Get? || qs.GetResume?)
    requires Books(s) && (s.runner.Looping? || s.runner.Waiting?)
    ensures Books(Fetch(s, t, Q.Do(s.q, qs)))
  {
    Q.StepEffect(s.q, qs);
  }

  lemma QueueKeepsBooks(s: State, qs: Q.Step)
    requires s.q.levels >= 1 && Q.Enabled(s.q, qs) && !qs.Get? && !qs.GetResume? && Books(s)
    ensures Books(s.(q := Q.Do(s.q, qs)))
  {
    Q.StepEffect(s.q, qs);
  }

  lemma FetchKeepsInv(s: State, t: nat, qs: Q.Step)
    requires Inv(s) && (s.runner.Looping? || s.runner.Waiting?) && Q.Enabled(s.q, qs) && (qs.Get? || qs.GetResume?)
    ensures Inv(Fetch(s, t, Q.Do(s.q, qs)))
  {
    Q.StepKeepsInv(s.q, qs);
    FetchKeepsBooks(s, t, qs);
  }

  lemma QueueKeepsInv(s: State, qs: Q.Step)
    requires Inv(s) && Q.Enabled(s.q, qs) && !qs.Get? && !qs.GetResume?
    ensures Inv(s.(q := Q.Do(s.q, qs)))
  {
    Q.StepKeepsInv(s.q, qs);
    QueueKeepsBooks(s, qs);
  }

  lemma StepKeepsInv(s: State, step: Step)
    requires Inv(s) && Enabled(s, step)
    ensures Inv(Do(s, step))
  {
    match step
    case Queue(qs) => QueueKeepsInv(s, qs);
    case CallGet => FetchKeepsInv(s, s.runner.t, Q.Get(s.runner.t));
    case ResumeGet => FetchKeepsInv(s, s.runner.t, Q.GetResume(s.runner.t));
    case _ =>
  }

  lemma InitKeepsInv(s: State)
    requires Init(s)
    ensures Inv(s)
  {
    Q.AllIdle(s.q.pc);
  }

  lemma NextKeepsInv(s: State, s': State)
    requires Inv(s) && Next(s, s')
    ensures Inv(s')
  {
    var step :| Leads(s, step, s');
    StepKeepsInv(s, step);
  }

  lemma RunKeepsInv(run: seq<State>, i: nat)
    requires Runs.IsRun(Init, Next, run) && i < |run|
    ensures Inv(run[i])
  {
    forall s | Init(s) ensures Inv(s) { InitKeepsInv(s); }
    forall s, s' | Inv(s) && Next(s, s') ensures Inv(s') { NextKeepsInv(s, s'); }
    Runs.Invariance(Init, Next, Inv, run, i);
  }

  lemma {:induction false} StampedOnce(a: seq<Q.Element>, k: nat)
    requires k < |a| && forall i :: 0 <= i < |a| ==> a[i].v.stamp == i
    ensures multiset(a)[a[k]] == 1
  {
    var n := |a| - 1;
    assert a == a[..n] + [a[n]];
    if k < n {
      StampedOnce(a[..n], k);
    } else {
      assert a[k] !in a[..n];
    }
  }

  /** What Run executes is, in order, what was taken from the queue, and whatever is taken is the
      oldest element of the highest non-empty priority at that moment. */
  lemma ExecutesOldestOfHighest(run: seq<State>, i: nat)
    requires Runs.IsRun(Init, Next, run) && 0 < i < |run|
    ensures var s, s' := run[i - 1], run[i];
            && s'.executed <= s'.q.taken && |s'.q.taken| <= |s'.executed| + 1
            && (s'.q.taken == s.q.taken ||
                (s.q.queue != [] && s'.q.taken == s.q.taken + [s.q.queue[0]] &&
                 forall k :: 0 < k < |s.q.queue| ==> Q.Before(s.q.queue[0], s.q.queue[k])))
  {
    RunKeepsInv(run, i - 1);
    RunKeepsInv(run, i);
    StepTakes(run[i - 1], run[i]);
  }

  /** A step takes nothing or the head of the queue, and after a close accepts nothing. */
  lemma StepTakes(s: State, s': State)
    requires Next(s, s')
    ensures s'.q.taken == s.q.taken || (s.q.queue != [] && s'.q.taken == s.q.taken + [s.q.queue[0]])
    ensures s.q.closed ==> s'.q.closed && s'.q.accepted == s.q.accepted
    ensures s.runner.Returned? ==> s'.runner.Returned? && s'.executed == s.executed
  {
    var step :| Leads(s, step, s');
    match step
    case Queue(qs) => Q.StepEffect(s.q, qs);
    case CallGet => Q.StepEffect(s.q, Q.Get(s.runner.t));
    case ResumeGet => Q.StepEffect(s.q, Q.GetResume(s.runner.t));
    case _ =>
  }

  // ------------------------------------------------------------ the calls that succeeded

  /** The steps of the posting threads. */
  ghost function PostSteps(steps: seq<Step>): seq<Q.Step> {
    if steps == [] then []
    else
      var n := |steps| - 1;
      PostSteps(steps[..n]) + (if steps[n].Queue? then [steps[n].qs] else [])
  }

  /** The requests of the posts that succeeded, in order. */
  ghost function Successful(run: seq<State>, steps: seq<Step>): seq<Q.Request>
    requires |run| == |steps| + 1
  {
    if steps == [] then []
    else
      var n := |steps| - 1;
      Successful(run[..n + 1], steps[..n]) +
      (if steps[n].Queue? then Posts.Success(run[n].q, PostSteps(steps[..n]), steps[n].qs) else [])
  }

  lemma StepKeepsLog(s: State, step: Step, posts: seq<Q.Step>, reqs: seq<Q.Request>)
    requires Posts.Logged(s.q, posts, reqs) && Enabled(s, step)
    ensures Do(s, step).q.levels == s.q.levels
    ensures var q' := Do(s, step).q;
            if step.Queue? then Posts.Logged(q', posts + [step.qs], reqs + Posts.Success(s.q, posts, step.qs))
            else Posts.Logged(q', posts, reqs)
  {
    match step
    case Queue(qs) => Posts.StepKeepsLog(s.q, qs, posts, reqs);
    case CallGet => Posts.OthersKeepLog(s.q, Q.Get(s.runner.t), posts, reqs);
    case ResumeGet => Posts.OthersKeepLog(s.q, Q.GetResume(s.runner.t), posts, reqs);
    case _ =>
  }

  lemma {:induction false} HistoryIsLogged(run: seq<State>, steps: seq<Step>)
    requires Runs.IsHistory(Init, Leads, run, steps)
    ensures Posts.Logged(run[|steps|].q, PostSteps(steps), Successful(run, steps))
    ensures run[|steps|].q.levels == run[0].q.levels
  {
    if steps != [] {
      var n := |steps| - 1;
      Runs.HistoryUpTo(Init, Leads, Next, run, steps, n);
      HistoryIsLogged(run[..n + 1], steps[..n]);
      assert Leads(run[n], steps[n], run[n + 1]);
      StepKeepsLog(run[n], steps[n], PostSteps(steps[..n]), Successful(run[..n + 1], steps[..n]));
      assert PostSteps(steps[..n]) + [] == PostSteps(steps[..n]);
      assert Successful(run[..n + 1], steps[..n]) + [] == Successful(run[..n + 1], steps[..n]);
    }
  }

  /** Drain before exit: once Run has returned, the requests of the posts that succeeded have been
      executed, each exactly once, and nothing else has. */
  lemma DrainBeforeExit(run: seq<State>, steps: seq<Step>)
    requires Runs.IsHistory(Init, Leads, run, steps) && run[|steps|].runner.Returned?
    ensures var s := run[|steps|];
            && s.q.closed && s.q.queue == [] && run[0].q.levels >= 1
            && var posted := Posts.Posted(run[0].q.levels, Successful(run, steps));
               multiset(s.executed) == multiset(posted) &&
               forall k :: 0 <= k < |posted| ==> multiset(s.executed)[posted[k]] == 1
  {
    Runs.HistoryUpTo(Init, Leads, Next, run, steps, |steps|);
    RunKeepsInv(run, |steps|);
    HistoryIsLogged(run, steps);
    var posted := run[|steps|].q.accepted;
    forall k | 0 <= k < |posted| ensures multiset(posted)[posted[k]] == 1 {
      StampedOnce(posted, k);
    }
  }

  ghost predicate SameOutcome(s: State, s': State) {
    s'.runner.Returned? && s'.q.accepted == s.q.accepted && s'.executed == s.executed
  }

  lemma ExitIsFinal(s0: State, s: State, s': State)
    requires Inv(s) && SameOutcome(s0, s) && Next(s, s')
    ensures SameOutcome(s0, s')
  {
    StepTakes(s, s');
  }

  /** And from then on no post succeeds and nothing more is executed. */
  lemma NothingAfterExit(run: seq<State>, i: nat, k: nat)
    requires Runs.IsRun(Init, Next, run) && i <= k < |run| && run[i].runner.Returned?
    ensures SameOutcome(run[i], run[k])
  {
    var s0 := run[i];
    forall s | Init(s) ensures Inv(s) { InitKeepsInv(s); }
    forall s, s' | Inv(s) && Next(s, s') ensures Inv(s') { NextKeepsInv(s, s'); }
    forall s, s' | Inv(s) && SameOutcome(s0, s) && Next(s, s') ensures SameOutcome(s0, s') { ExitIsFinal(s0, s, s'); }
    Runs.Stays(Init, Next, Inv, s => SameOutcome(s0, s), run, i, k);
  }
}
