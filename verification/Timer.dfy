/** timer/timer.go:25-93: the status word of a timer, moved by compare-and-swap, and the runtime timers
    behind it.  A runtime timer is armed until it fires or is stopped; firing starts a goroutine that
    runs call.  AfterFunc arms a new runtime timer, and storing it in t is a step of its own.  Whoever
    has the timer, from newTimer or from the callback, may cancel it. */
module Timer {
  import Runs

  datatype Status = Waiting | Firing | Removed

  datatype Pc =
    | Idle
    | Creating(n: nat)  // newTimer, about to store its runtime timer
    | Fired             // call, about to try the CAS
    | InCallback        // call won the CAS and runs the callback
    | CallbackDone      // call, about to move the status on
    | Rearming          // call, about to make a new runtime timer
    | Storing(n: nat)   // call, about to store it
    | Checking          // call, about to look at the status once more
    | Stopping          // call saw Removed, about to stop the runtime timer in t
    | CancelLost        // Cancel's CAS failed, about to store Removed
    | Cancelling        // Cancel's CAS succeeded, about to stop the runtime timer in t
    | Resetting         // ResetFireTime, about to reset the runtime timer in t

  datatype Shared = Shared(
    repeat: bool,
    status: Status,
    published: bool,       // newTimer has returned
    armed: set<nat>,       // the runtime timers that are to fire
    made: nat,             // how many there have been
    stored: bool,          // t holds one
    current: nat,          // which
    panicked: bool,        // t was loaded before anything was stored
    started: nat,          // history: callbacks started
    cancelCalled: bool,    // history: some Cancel has begun
    cancelReturned: bool,  // history: some Cancel has returned
    cancelWon: bool,       // history: some Cancel returned, or is about to return, true
    overwrote: bool)       // history: a Cancel that lost its CAS stored Removed over Waiting

  datatype State = State(g: Shared, pc: seq<Pc>)

  datatype Op =
    | Fire(n: nat) | TryFiring | Return | Settle | Arm | Store | Check | StopNew
    | Cancel | StoreRemoved | Stop | ResetFireTime | Reset

  ghost predicate Init(s: State) {
    && s.g == Shared(s.g.repeat, Waiting, false, {0}, 1, false, 0, false, 0, false, false, false, false)
    && |s.pc| > 0 && s.pc[0] == Creating(0)
    && forall t :: 0 < t < |s.pc| ==> s.pc[t] == Idle
  }

  /** Somebody outside has the timer. */
  ghost predicate Known(g: Shared) { g.published || g.started > 0 }

  ghost predicate Can(g: Shared, p: Pc, op: Op) {
    !g.panicked &&
    match op
    case Fire(n) => p.Idle? && n in g.armed
    case TryFiring => p.Fired?
    case Return => p.InCallback?
    case Settle => p.CallbackDone?
    case Arm => p.Rearming?
    case Store => p.Storing? || p.Creating?
    case Check => p.Checking?
    case StopNew => p.Stopping?
    case Cancel => p.Idle? && Known(g)
    case StoreRemoved => p.CancelLost?
    case Stop => p.Cancelling?
    case ResetFireTime => p.Idle? && Known(g)
    case Reset => p.Resetting?
  }

  ghost function Move(g: Shared, p: Pc, op: Op): (Shared, Pc)
    requires Can(g, p, op)
  {
    match op
    case Fire(n) => (g.(armed := g.armed - {n}), Fired)
    case TryFiring =>
      if g.status.Waiting? then (g.(status := Firing, started := g.started + 1), InCallback) else (g, Idle)
    case Return => (g, CallbackDone)
    case Settle =>
      if !g.repeat then (g.(status := Removed), Idle)
      else if g.status.Firing? then (g.(status := Waiting), Rearming)
      else (g, Idle)
    case Arm => (g.(armed := g.armed + {g.made}, made := g.made + 1), Storing(g.made))
    case Store =>
      (g.(stored := true, current := p.n, published := g.published || p.Creating?),
       if p.Creating? then Idle else Checking)
    case Check => (g, if g.status.Removed? then Stopping else Idle)
    case StopNew => (g.(armed := g.armed - {g.current}), Idle)
    case Cancel =>
      if g.status.Waiting? then (g.(status := Removed, cancelCalled := true, cancelWon := true), Cancelling)
      else (g.(cancelCalled := true), CancelLost)
    case StoreRemoved =>
      (g.(status := Removed, cancelReturned := true, overwrote := g.overwrote || g.status.Waiting?), Idle)
    case Stop =>
      if !g.stored then (g.(panicked := true), p)
      else (g.(armed := g.armed - {g.current}, cancelReturned := true), Idle)
    case ResetFireTime => (g, if g.repeat || !g.status.Waiting? then Idle else Resetting)
    case Reset => if !g.stored then (g.(panicked := true), p) else (g.(armed := g.armed + {g.current}), Idle)
  }

  ghost predicate Enabled(s: State, t: nat, op: Op) {
    t < |s.pc| && Can(s.g, s.pc[t], op)
  }

  ghost function Do(s: State, t: nat, op: Op): State
    requires Enabled(s, t, op)
  {
    var (g, p) := Move(s.g, s.pc[t], op);
    State(g, s.pc[t := p])
  }

  ghost predicate Next(s: State, s': State) {
    exists t: nat, op :: Enabled(s, t, op) && s' == Do(s, t, op)
  }

  // ---------------------------------------------------------------- invariant

  ghost predicate Active(p: Pc) { p.InCallback? || p.CallbackDone? }

  /** On the way from one runtime timer to the next. */
  ghost predicate Carries(p: Pc) { p.Fired? || Active(p) || p.Rearming? }

  /** Will yet stop runtime timer n, if the status is Removed. */
  ghost predicate Guards(g: Shared, p: Pc, n: nat) {
    p == Storing(n) || ((p.Checking? || p.Stopping? || p.Cancelling?) && g.stored && g.current == n)
  }

  ghost predicate Global(g: Shared) {
    && (g.cancelReturned ==> g.status.Removed?)
    && (g.cancelWon ==> g.status.Removed?)
    && (!g.repeat ==> g.started <= 1)
    && (!g.repeat && g.status.Waiting? ==> g.started == 0)
    && (!g.repeat && g.cancelWon ==> g.started == 0)
    && (g.status.Removed? && !g.cancelCalled ==> !g.repeat && g.started == 1)
    && (g.overwrote ==> g.cancelCalled)
    && (g.cancelCalled ==> Known(g)) && (g.published ==> g.stored) && (!g.stored ==> g.current == 0)
    && g.current < g.made && (forall n :: n in g.armed ==> n < g.made)
    && (g.repeat ==> forall n :: n in g.armed ==> n == g.made - 1)
    && (g.repeat && !g.published && 0 in g.armed ==> g.started == 0)
  }

  ghost predicate Local(g: Shared, p: Pc) {
    && (Active(p) ==> !g.status.Waiting? && g.started > 0)
    && (p.Cancelling? || p.Stopping? ==> g.status.Removed?)
    && (p.Cancelling? || p.CancelLost? ==> g.cancelCalled)
    && (p.Resetting? ==> !g.repeat)
    && (p.Rearming? || p.Storing? || p.Checking? || p.Stopping? ==> g.repeat)
    && (p.Storing? || p.Creating? ==> p.n < g.made)
    && (p.Creating? ==> !g.published && p.n == 0)
    && (p.Checking? || p.Stopping? ==> g.stored)
    && (p.Cancelling? || p.Resetting? ==> g.stored || (g.repeat && !g.published))
    && (g.repeat && Carries(p) ==> g.armed == {})
  }

  ghost predicate Pair(g: Shared, p: Pc, q: Pc) {
    !(Active(p) && Active(q)) && (g.repeat ==> !(Carries(p) && Carries(q))) && !(p.Creating? && q.Creating?)
  }

  /** What keeps the timer going: firing means a callback runs, waiting that a runtime timer is armed or
      a goroutine on its way. */
  ghost predicate Goes(s: State) {
    && (s.g.status.Firing? ==> exists t :: 0 <= t < |s.pc| && Active(s.pc[t]))
    && (s.g.status.Waiting? && s.g.armed == {} ==> exists t :: 0 <= t < |s.pc| && (s.pc[t].Fired? || s.pc[t].Rearming?))
    && (!s.g.published ==> exists t :: 0 <= t < |s.pc| && s.pc[t].Creating?)
  }

  /** The runtime timer is in t or about to be put there by the call that made it. */
  ghost predicate InT(s: State, n: nat) {
    (s.g.stored && n == s.g.current) || exists t :: 0 <= t < |s.pc| && s.pc[t] == Storing(n)
  }

  /** Once the status is Removed, somebody will stop the runtime timer that is armed, if it is in t. */
  ghost predicate Watched(s: State) {
    s.g.repeat && s.g.status.Removed? && !s.g.overwrote ==>
      forall n :: n in s.g.armed && InT(s, n) ==> exists t :: 0 <= t < |s.pc| && Guards(s.g, s.pc[t], n)
  }

  ghost predicate Inv(s: State) {
    && Global(s.g) && Goes(s) && Watched(s)
    && (forall t :: 0 <= t < |s.pc| ==> Local(s.g, s.pc[t]))
    && (forall t, u :: 0 <= t < |s.pc| && 0 <= u < |s.pc| && t != u ==> Pair(s.g, s.pc[t], s.pc[u]))
  }

  /** One step, seen from its own thread. */
  lemma MoveKeeps(g: Shared, p: Pc, op: Op)
    requires Can(g, p, op) && Global(g) && Local(g, p)
    ensures var (g', p') := Move(g, p, op); Global(g') && Local(g', p')
  {
  }

  /** And from any other thread q. */
  lemma MoveKeepsOthers(g: Shared, p: Pc, op: Op, q: Pc)
    requires Can(g, p, op) && Global(g) && Local(g, p) && Local(g, q) && Pair(g, p, q) && Pair(g, q, p)
    ensures var (g', p') := Move(g, p, op); Local(g', q) && Pair(g', p', q) && Pair(g', q, p')
  {
  }

  /** The duties that keep the timer going stay with the thread that moves or have been met. */
  lemma MoveHandsOver(g: Shared, p: Pc, op: Op)
    requires Can(g, p, op) && Global(g) && Local(g, p)
    ensures var (g', p') := Move(g, p, op);
            && (g'.status.Firing? ==> Active(p') || (g.status.Firing? && !Active(p)))
            && (g'.status.Waiting? && g'.armed == {} ==>
                  p'.Fired? || p'.Rearming? || (g.status.Waiting? && g.armed == {} && !p.Fired? && !p.Rearming?))
            && (!g'.published ==> p'.Creating? || (!g.published && !p.Creating?))
  {
  }

  /** So do those of watching over an armed runtime timer n. */
  lemma MoveWatches(g: Shared, p: Pc, op: Op, n: nat)
    requires Can(g, p, op) && Global(g) && Local(g, p) && g.repeat && (g.status.Firing? ==> g.armed == {})
    ensures var (g', p') := Move(g, p, op);
            n in g'.armed && g'.status.Removed? && !g'.overwrote && !Guards(g', p', n) ==>
              && n in g.armed && !g.overwrote && p != Storing(n)
              && (g'.stored && n == g'.current ==> g.stored && n == g.current && g.status.Removed? && !Guards(g, p, n))
  {
  }

  /** Any other thread q that is to stop it still is. */
  lemma OthersWatch(g: Shared, p: Pc, op: Op, n: nat, q: Pc)
    requires Can(g, p, op)
    ensures var (g', p') := Move(g, p, op);
            (Guards(g, q, n) && g'.stored && n == g'.current) || q == Storing(n) ==> Guards(g', q, n)
  {
  }

  lemma StepKeepsGoes(s: State, t: nat, op: Op)
    requires Inv(s) && Enabled(s, t, op)
    ensures Goes(Do(s, t, op))
  {
    var s' := Do(s, t, op);
    MoveHandsOver(s.g, s.pc[t], op);
    if s'.g.status.Firing? && !Active(s'.pc[t]) {
      var u :| 0 <= u < |s.pc| && Active(s.pc[u]);
      assert Active(s'.pc[u]);
    }
    if s'.g.status.Waiting? && s'.g.armed == {} && !s'.pc[t].Fired? && !s'.pc[t].Rearming? {
      var u :| 0 <= u < |s.pc| && (s.pc[u].Fired? || s.pc[u].Rearming?);
      assert s'.pc[u] == s.pc[u];
    }
    if !s'.g.published && !s'.pc[t].Creating? {
      var u :| 0 <= u < |s.pc| && s.pc[u].Creating?;
      assert s'.pc[u] == s.pc[u];
    }
  }

  lemma FiringIsDisarmed(s: State)
    requires Inv(s) && s.g.repeat && s.g.status.Firing?
    ensures s.g.armed == {}
  {
    var t :| 0 <= t < |s.pc| && Active(s.pc[t]);
    assert Local(s.g, s.pc[t]);
  }

  /** Whoever is to stop it still is. */
  lemma StaysGuarded(s: State, t: nat, op: Op, n: nat)
    requires Inv(s) && Enabled(s, t, op) && s.g.repeat && n in Do(s, t, op).g.armed && InT(Do(s, t, op), n)
    requires Do(s, t, op).g.status.Removed? && !Do(s, t, op).g.overwrote
    ensures var s' := Do(s, t, op); exists u :: 0 <= u < |s'.pc| && Guards(s'.g, s'.pc[u], n)
  {
    var s' := Do(s, t, op);
    if s.g.status.Firing? { FiringIsDisarmed(s); }
    MoveWatches(s.g, s.pc[t], op, n);
    if Guards(s'.g, s'.pc[t], n) {
    } else if u :| 0 <= u < |s'.pc| && s'.pc[u] == Storing(n) {
      assert Guards(s'.g, s'.pc[u], n);
    } else {
      assert n in s.g.armed && s.g.stored && n == s.g.current && s.g.status.Removed?;
      var u :| 0 <= u < |s.pc| && Guards(s.g, s.pc[u], n);
      OthersWatch(s.g, s.pc[t], op, n, s.pc[u]);
      assert Guards(s'.g, s'.pc[u], n);
    }
  }

  lemma StepKeepsWatched(s: State, t: nat, op: Op)
    requires Inv(s) && Enabled(s, t, op)
    ensures Watched(Do(s, t, op))
  {
    var s' := Do(s, t, op);
    RepeatStays(s.g, s.pc[t], op);
    if s'.g.repeat && s'.g.status.Removed? && !s'.g.overwrote {
      forall n | n in s'.g.armed && InT(s', n) ensures exists u :: 0 <= u < |s'.pc| && Guards(s'.g, s'.pc[u], n) {
        StaysGuarded(s, t, op, n);
      }
    }
  }

  lemma RepeatStays(g: Shared, p: Pc, op: Op)
    requires Can(g, p, op)
    ensures Move(g, p, op).0.repeat == g.repeat
  {
  }

  lemma StepKeepsInv(s: State, t: nat, op: Op)
    requires Inv(s) && Enabled(s, t, op)
    ensures Inv(Do(s, t, op))
  {
    var s' := Do(s, t, op);
    MoveKeeps(s.g, s.pc[t], op);
    forall u | 0 <= u < |s.pc| && u != t
      ensures Local(s'.g, s'.pc[u]) && Pair(s'.g, s'.pc[t], s'.pc[u]) && Pair(s'.g, s'.pc[u], s'.pc[t])
    {
      MoveKeepsOthers(s.g, s.pc[t], op, s.pc[u]);
    }
    RepeatStays(s.g, s.pc[t], op);
    StepKeepsGoes(s, t, op);
    StepKeepsWatched(s, t, op);
  }

  // ------------------------------------------------------------ main theorems

  lemma NextKeepsInv(s: State, s': State)
    requires Inv(s) && Next(s, s')
    ensures Inv(s')
  {
    var t: nat, op :| Enabled(s, t, op) && s' == Do(s, t, op);
    StepKeepsInv(s, t, op);
  }

  lemma RunKeepsInv(run: seq<State>, k: nat)
    requires Runs.IsRun(Init, Next, run) && k < |run|
    ensures Inv(run[k])
  {
    forall s, s' | Inv(s) && Next(s, s') ensures Inv(s') { NextKeepsInv(s, s'); }
    Runs.Invariance(Init, Next, Inv, run, k);
  }

  /** Callbacks never overlap; a one-shot callback starts at most once, and never if a Cancel
      returned true. */
  lemma TimerSafe(run: seq<State>, k: nat)
    requires Runs.IsRun(Init, Next, run) && k < |run|
    ensures var s := run[k];
            && (forall t, u :: 0 <= t < |s.pc| && 0 <= u < |s.pc| && s.pc[t].InCallback? && s.pc[u].InCallback? ==>
                   t == u)
            && (!s.g.repeat ==> s.g.started <= 1)
            && (!s.g.repeat && s.g.cancelWon ==> s.g.started == 0)
  {
    RunKeepsInv(run, k);
  }

  /** Until a Cancel begins the timer is alive: a runtime timer is armed, or a goroutine is on its way to
      the callback, in it, or about to arm the next runtime timer; unless it is a one-shot timer whose
      callback has run. */
  lemma AliveUntilCancelled(run: seq<State>, k: nat)
    requires Runs.IsRun(Init, Next, run) && k < |run| && !run[k].g.cancelCalled
    ensures var s := run[k];
            || s.g.armed != {}
            || (exists t :: 0 <= t < |s.pc| && Carries(s.pc[t]))
            || (!s.g.repeat && s.g.started == 1)
  {
    RunKeepsInv(run, k);
  }

  ghost predicate NoMoreStarts(s: State, started: nat) { s.g.cancelReturned && s.g.started == started }

  lemma ReturnedStays(s: State, s': State, started: nat)
    requires Inv(s) && NoMoreStarts(s, started) && Next(s, s')
    ensures NoMoreStarts(s', started)
  {
    var t: nat, op :| Enabled(s, t, op) && s' == Do(s, t, op);
  }

  /** Once any Cancel has returned, no callback ever starts again. */
  lemma NoStartAfterCancel(run: seq<State>, i: nat, k: nat)
    requires Runs.IsRun(Init, Next, run) && i <= k < |run| && run[i].g.cancelReturned
    ensures run[k].g.cancelReturned && run[k].g.started == run[i].g.started
  {
    var n := run[i].g.started;
    forall s, s' | Inv(s) && Next(s, s') ensures Inv(s') { NextKeepsInv(s, s'); }
    forall s, s' | Inv(s) && NoMoreStarts(s, n) && Next(s, s') ensures NoMoreStarts(s', n) { ReturnedStays(s, s', n); }
    Runs.Stays(Init, Next, Inv, s => NoMoreStarts(s, n), run, i, k);
  }

  /** What a removed repeating timer leaves armed: somebody will yet stop it, or it is a later runtime timer
      than the one in t, which a call has stored over it; unless a Cancel that lost its CAS stored Removed
      over Waiting.  So when nobody is at work, only a later one than the one in t is armed. */
  lemma RemovedIsDisarmed(run: seq<State>, k: nat, n: nat)
    requires Runs.IsRun(Init, Next, run) && k < |run| && run[k].g.repeat && run[k].g.status.Removed?
    requires !run[k].g.overwrote && n in run[k].g.armed
    ensures (exists t :: 0 <= t < |run[k].pc| && Guards(run[k].g, run[k].pc[t], n)) ||
            (n > run[k].g.current && !InT(run[k], n))
    ensures Quiet(run[k]) ==> n > run[k].g.current
  {
    RunKeepsInv(run, k);
  }

  ghost predicate Quiet(s: State) { forall t :: 0 <= t < |s.pc| ==> s.pc[t].Idle? }

  /** With nobody else at work, a Cancel of a repeating timer that wins its CAS leaves it armed if and only if
      the armed runtime timer is a later one than the one in t; one that loses it stops nothing, and leaves
      the timer armed whenever it stores Removed over Waiting. */
  lemma LeftArmedExactly(run: seq<State>, k: nat, t: nat)
    requires Runs.IsRun(Init, Next, run) && k < |run| && run[k].g.repeat && !run[k].g.panicked
    requires t < |run[k].pc| && (run[k].pc[t].CancelLost? || run[k].pc[t].Cancelling?)
    requires forall u :: 0 <= u < |run[k].pc| && u != t ==> run[k].pc[u].Idle?
    ensures run[k].pc[t].Cancelling? ==>
              !Do(run[k], t, Stop).g.panicked &&
              (Do(run[k], t, Stop).g.armed != {} <==> exists n :: n in run[k].g.armed && n > run[k].g.current)
    ensures run[k].pc[t].CancelLost? ==>
              Do(run[k], t, StoreRemoved).g.armed == run[k].g.armed
              && (run[k].g.status.Waiting? ==> run[k].g.armed != {})
  {
    RunKeepsInv(run, k);
    var s := run[k];
    assert Local(s.g, s.pc[t]);
    assert s.g.published && s.g.stored;
    if s.pc[t].Cancelling? {
      var armed := Do(s, t, Stop).g.armed;
      if n :| n in armed {
        assert n in s.g.armed && n > s.g.current;
      }
      if n :| n in s.g.armed && n > s.g.current {
        assert n in armed;
      }
    }
  }

  /** A step panics if and only if a Cancel that won its CAS loads t before anything was stored there; and
      that takes a repeating timer whose callback has run before newTimer returned. */
  lemma PanicsExactly(run: seq<State>, k: nat, t: nat, op: Op)
    requires Runs.IsRun(Init, Next, run) && k < |run| && Enabled(run[k], t, op)
    ensures Do(run[k], t, op).g.panicked <==> op.Stop? && !run[k].g.stored
    ensures Do(run[k], t, op).g.panicked ==> run[k].g.repeat && !run[k].g.published && run[k].g.started > 0
  {
    RunKeepsInv(run, k);
    var s := run[k];
    assert Local(s.g, s.pc[t]);
  }

  // ------------------------------------------------------------ runs that leave it armed

  lemma Extend(run: seq<State>, t: nat, op: Op) returns (run': seq<State>)
    requires Runs.IsRun(Init, Next, run) && Enabled(run[|run| - 1], t, op)
    ensures Runs.IsRun(Init, Next, run') && |run'| > 0 && run'[|run'| - 1] == Do(run[|run| - 1], t, op)
  {
    var s := Do(run[|run| - 1], t, op);
    assert Next(run[|run| - 1], s);
    Runs.Extended(Init, Next, run, s);
    run' := run + [s];
  }

  /** A repeating timer whose first callback runs in thread 1. */
  lemma FirstCallback() returns (run: seq<State>)
    ensures Runs.IsRun(Init, Next, run)
    ensures run[|run| - 1] ==
            State(Shared(true, Firing, true, {}, 1, true, 0, false, 1, false, false, false, false),
                  [Idle, InCallback, Idle])
  {
    run := [State(Shared(true, Waiting, false, {0}, 1, false, 0, false, 0, false, false, false, false),
                  [Creating(0), Idle, Idle])];
    assert Init(run[0]);
    run := Extend(run, 0, Store);
    run := Extend(run, 1, Fire(0));
    assert run[|run| - 1].g.armed == {};
    run := Extend(run, 1, TryFiring);
  }

  /** A Cancel that finds the callback running and stores Removed after the timer was armed again: it has
      returned, nobody is at work, and the runtime timer will fire in vain. */
  lemma LostCancelLeavesItArmed() returns (run: seq<State>)
    ensures Runs.IsRun(Init, Next, run)
    ensures var s := run[|run| - 1]; Quiet(s) && s.g.cancelReturned && s.g.armed == {1}
  {
    run := FirstCallback();
    run := Extend(run, 2, Cancel);
    run := Extend(run, 1, Return);
    run := Extend(run, 1, Settle);
    run := Extend(run, 1, Arm);
    assert run[|run| - 1].g.armed == {1};
    run := Extend(run, 1, Store);
    run := Extend(run, 1, Check);
    run := Extend(run, 2, StoreRemoved);
  }

  /** Thread 1 has armed runtime timer 1 and not yet stored it when it fires; thread 2 has run the next
      callback and stored runtime timer 2. */
  lemma StoredInBetween() returns (run: seq<State>)
    ensures Runs.IsRun(Init, Next, run)
    ensures run[|run| - 1] ==
            State(Shared(true, Waiting, true, {2}, 3, true, 2, false, 2, false, false, false, false),
                  [Idle, Storing(1), Idle])
  {
    run := FirstCallback();
    run := Extend(run, 1, Return);
    run := Extend(run, 1, Settle);
    run := Extend(run, 1, Arm);
    assert run[|run| - 1] ==
           State(Shared(true, Waiting, true, {1}, 2, true, 0, false, 1, false, false, false, false),
                 [Idle, Storing(1), Idle]);
    run := Extend(run, 2, Fire(1));
    assert run[|run| - 1].g.armed == {};
    run := Extend(run, 2, TryFiring);
    run := Extend(run, 2, Return);
    run := Extend(run, 2, Settle);
    run := Extend(run, 2, Arm);
    assert run[|run| - 1] ==
           State(Shared(true, Waiting, true, {2}, 3, true, 0, false, 2, false, false, false, false),
                 [Idle, Storing(1), Storing(2)]);
    run := Extend(run, 2, Store);
    run := Extend(run, 2, Check);
  }

  /** Then thread 1 stores its own over it, and a Cancel that wins its CAS stops the wrong one. */
  lemma LateStoreLeavesItArmed() returns (run: seq<State>)
    ensures Runs.IsRun(Init, Next, run)
    ensures var s := run[|run| - 1]; Quiet(s) && s.g.cancelWon && s.g.cancelReturned && s.g.armed == {2}
  {
    run := StoredInBetween();
    run := Extend(run, 1, Store);
    run := Extend(run, 1, Check);
    run := Extend(run, 0, Cancel);
    run := Extend(run, 0, Stop);
  }

  /** The runtime timer fires before newTimer has stored it; the callback hands the timer to thread 2, whose
      Cancel wins its CAS after the callback and finds nothing in t. */
  lemma CancelBeforeStorePanics() returns (run: seq<State>)
    ensures Runs.IsRun(Init, Next, run)
    ensures var s := run[|run| - 1]; s.g.panicked && s.pc == [Creating(0), Rearming, Cancelling]
  {
    run := [State(Shared(true, Waiting, false, {0}, 1, false, 0, false, 0, false, false, false, false),
                  [Creating(0), Idle, Idle])];
    assert Init(run[0]);
    run := Extend(run, 1, Fire(0));
    run := Extend(run, 1, TryFiring);
    run := Extend(run, 1, Return);
    run := Extend(run, 1, Settle);
    assert run[|run| - 1].pc == [Creating(0), Rearming, Idle];
    run := Extend(run, 2, Cancel);
    run := Extend(run, 2, Stop);
  }
}
