/** socket/sendqueue.go:108-157: how a ring becomes shaky, what only a shaky one does, and which runs keep
    clear of it.  What can come of a shaky ring is in RingFate, RingStranding and RingFailures. */
module CondStranding {
  import opened Sequences
  import opened CondQueue
  import opened CondTracking
  import opened CondInvariant
  import Runs

  ghost predicate Shaky(s: State, u: nat) { u < |s.pc| && s.pc[u].Notifying? && s.pc[u].shaky }

  ghost predicate Lost(s: State, y: nat) { y < |s.pc| && s.pc[y].Asleep? && s.pc[y].at.Stranded? }

  lemma SameThreads(s: State, t: nat, op: Op)
    requires Enabled(s, t, op)
    ensures |Do(s, t, op).pc| == |s.pc|
  {
  }

  /** A ring becomes shaky if and only if a waiter on it times out. */
  lemma ShakyExactly(s: State, t: nat, op: Op, u: nat)
    requires Enabled(s, t, op) && !Shaky(s, u)
    ensures Shaky(Do(s, t, op), u) <==> op.Timeout? && s.pc[t].at == With(u)
  {
  }

  /** Only the holder of a shaky ring strands anybody, and only it panics. */
  lemma OnlyShakyGoesWrong(s: State, t: nat, op: Op, y: nat)
    requires Enabled(s, t, op)
    ensures Lost(Do(s, t, op), y) && !Lost(s, y) ==> Shaky(s, t) && op.StrayEnd? && y in s.pc[t].rest
    ensures Do(s, t, op).g.panicked ==> Shaky(s, t) && op.StrayPanic?
  {
  }

  // ------------------------------------------------------------ runs that keep clear of it

  /** Timeouts strike only waiters on the wait list, which the lock of the condition variable protects. */
  ghost predicate CarefulNext(s: State, s': State) {
    exists t: nat, op :: Enabled(s, t, op) && (op.Timeout? ==> s.pc[t].at.Listed?) && s' == Do(s, t, op)
  }

  ghost predicate CarefulInv(s: State) {
    Inv(s) && !s.g.panicked && (forall u :: !Shaky(s, u)) && forall y :: !Lost(s, y)
  }

  lemma CarefulStepKeeps(s: State, t: nat, op: Op)
    requires CarefulInv(s) && Enabled(s, t, op) && (op.Timeout? ==> s.pc[t].at.Listed?)
    ensures CarefulInv(Do(s, t, op))
  {
    var s' := Do(s, t, op);
    StepKeepsInv(s, t, op);
    forall u: nat ensures !Shaky(s', u) { ShakyExactly(s, t, op, u); }
    forall y: nat ensures !Lost(s', y) { OnlyShakyGoesWrong(s, t, op, y); }
    OnlyShakyGoesWrong(s, t, op, 0);
  }

  lemma CarefulNextKeeps(s: State, s': State)
    requires CarefulInv(s) && CarefulNext(s, s')
    ensures CarefulInv(s')
  {
    var t: nat, op :| Enabled(s, t, op) && (op.Timeout? ==> s.pc[t].at.Listed?) && s' == Do(s, t, op);
    CarefulStepKeeps(s, t, op);
  }

  lemma CarefulRunKeepsInv(run: seq<State>, k: nat)
    requires Runs.IsRun(Init, CarefulNext, run) && k < |run|
    ensures CarefulInv(run[k])
  {
    forall s | Init(s) ensures CarefulInv(s) { InitKeepsInv(s); }
    forall s, s' | CarefulInv(s) && CarefulNext(s, s') ensures CarefulInv(s') { CarefulNextKeeps(s, s'); }
    Runs.Invariance(Init, CarefulNext, CarefulInv, run, k);
  }

  /** As long as timeouts strike only waiters on the wait list: nothing panics, nobody is stranded, every
      sleeper is on its wait list or in the hands of a thread that will wake it, and in a settled state
      every sleeper sleeps rightly. */
  lemma CarefulRunsStrandNobody(run: seq<State>, k: nat, x: nat)
    requires Runs.IsRun(Init, CarefulNext, run) && k < |run|
    ensures !run[k].g.panicked
    ensures x < |run[k].pc| && run[k].pc[x].Asleep? ==>
              var s := run[k]; var p := s.pc[x];
              && (p.at.Listed? || (p.at.With? && p.at.u < |s.pc| &&
                                             x in HandOf(s.pc[p.at.u], p.c) && !s.pc[p.at.u].shaky))
              && (Settled(s) ==> !s.g.closed && if p.c.NotEmpty? then s.g.len == 0 else s.g.len >= s.g.fullSize)
  {
    CarefulRunKeepsInv(run, k);
    var s := run[k];
    if x < |s.pc| && s.pc[x].Asleep? {
      assert !Lost(s, x);
      SleeperIsCovered(s, x);
      if s.pc[x].at.With? {
        assert !Shaky(s, s.pc[x].at.u);
      }
      if Settled(s) {
        SettledIsRight(s, x);
      }
    }
  }

  // ------------------------------------------------------------ runs without timed waits

  ghost predicate UntimedNext(s: State, s': State) {
    exists t: nat, op :: Enabled(s, t, op) && op != AddWithTimeout(true) && s' == Do(s, t, op)
  }

  ghost predicate Untimed(s: State) {
    forall t :: 0 <= t < |s.pc| ==> !Timed(s.pc[t])
  }

  ghost predicate Timed(p: Pc) { (p.Asleep? || p.Woken?) && p.timed }

  /** A wait is timed from its beginning or not at all. */
  lemma TimedFromTheStart(s: State, t: nat, op: Op, v: nat)
    requires Enabled(s, t, op) && op != AddWithTimeout(true) && v < |s.pc| && Timed(Do(s, t, op).pc[v])
    ensures Timed(s.pc[v])
  {
  }

  lemma UntimedStays(s: State, s': State)
    requires Untimed(s) && UntimedNext(s, s')
    ensures Untimed(s')
  {
    var t: nat, op :| Enabled(s, t, op) && op != AddWithTimeout(true) && s' == Do(s, t, op);
    SameThreads(s, t, op);
    forall v | 0 <= v < |s'.pc| ensures !Timed(s'.pc[v]) {
      if Timed(s'.pc[v]) {
        TimedFromTheStart(s, t, op, v);
      }
    }
  }

  /** Where nobody asks for a timeout, no timeout strikes at all. */
  lemma UntimedRunsAreCareful(run: seq<State>)
    requires Runs.IsRun(Init, UntimedNext, run)
    ensures Runs.IsRun(Init, CarefulNext, run)
  {
    forall s, s' | Untimed(s) && UntimedNext(s, s') ensures Untimed(s') { UntimedStays(s, s'); }
    forall i | 0 < i < |run| ensures CarefulNext(run[i - 1], run[i]) {
      Runs.Invariance(Init, UntimedNext, Untimed, run, i - 1);
      assert UntimedNext(run[i - 1], run[i]);
    }
  }
}
