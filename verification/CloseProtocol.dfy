/** socket/socketBase.go:183-249 and socket/aio/aiosocket.go:511-567: who runs the close callback.

    Every I/O operation in flight is counted in ioCount; Close publishes its reason, raises
    fdoclose and looks at the count; the operation that brings the count to zero looks at the
    flag.  Each atomic operation is one step, and ioDone is called once per addIO. */
module CloseProtocol {
  import opened Optional
  import Runs

  datatype Pc =
    | Idle
    | Decremented(zero: bool)   // ioDone, after the decrement
    | SawFlag                   // ioDone, before the CAS on doCloseOnce
    | DoneFiring                // ioDone won, about to call back with closeReason
    | CloseWon(reason: int)     // Close won closeOnce
    | ReasonSet(reason: int)    // Close stored closeReason
    | Flagged(reason: int)      // Close raised fdoclose, about to load ioCount
    | SawZero(reason: int)      // Close, before the CAS on doCloseOnce
    | CloseFiring(reason: int)  // Close won, about to call back with its own reason

  datatype Shared = Shared(
    ioCount: int,
    inFlight: nat,           // addIO calls not yet matched by an ioDone
    fdoclose: bool,
    doCloseOnce: bool,
    closeOnce: bool,
    closeReason: int,
    winner: int,             // the reason given to the Close that won
    fired: seq<int>)         // history: the reasons the callback was called with

  datatype State = State(g: Shared, pc: seq<Pc>)

  datatype Op =
    | AddIO | IoDone | TestFlag | DoneCas | DoneFire
    | Close(reason: int) | SetReason | SetFlag | LoadCount | CloseCas | CloseFire

  ghost predicate Init(s: State) {
    && s.g.ioCount == 0 && s.g.inFlight == 0 && !s.g.fdoclose && !s.g.doCloseOnce && !s.g.closeOnce
    && s.g.fired == []
    && forall t :: 0 <= t < |s.pc| ==> s.pc[t] == Idle
  }

  ghost predicate Can(g: Shared, p: Pc, op: Op) {
    match op
    case AddIO => p.Idle?
    case IoDone => p.Idle? && g.inFlight > 0
    case TestFlag => p.Decremented?
    case DoneCas => p.SawFlag?
    case DoneFire => p.DoneFiring?
    case Close(_) => p.Idle?
    case SetReason => p.CloseWon?
    case SetFlag => p.ReasonSet?
    case LoadCount => p.Flagged?
    case CloseCas => p.SawZero?
    case CloseFire => p.CloseFiring?
  }

  ghost function Move(g: Shared, p: Pc, op: Op): (Shared, Pc)
    requires Can(g, p, op)
  {
    match op
    case AddIO => (g.(ioCount := g.ioCount + 1, inFlight := g.inFlight + 1), Idle)
    case IoDone => (g.(ioCount := g.ioCount - 1, inFlight := g.inFlight - 1), Decremented(g.ioCount - 1 == 0))
    case TestFlag => (g, if p.zero && g.fdoclose then SawFlag else Idle)
    case DoneCas => if g.doCloseOnce then (g, Idle) else (g.(doCloseOnce := true), DoneFiring)
    case DoneFire => (g.(fired := g.fired + [g.closeReason]), Idle)
    case Close(reason) =>
      if g.closeOnce then (g, Idle) else (g.(closeOnce := true, winner := reason), CloseWon(reason))
    case SetReason => (g.(closeReason := p.reason), ReasonSet(p.reason))
    case SetFlag => (g.(fdoclose := true), Flagged(p.reason))
    case LoadCount => (g, if g.ioCount == 0 then SawZero(p.reason) else Idle)
    case CloseCas => if g.doCloseOnce then (g, Idle) else (g.(doCloseOnce := true), CloseFiring(p.reason))
    case CloseFire => (g.(fired := g.fired + [p.reason]), Idle)
  }

  ghost predicate Enabled(s: State, t: nat, op: Op) {
    t < |s.pc| && Can(s.g, s.pc[t], op)
  }

  ghost function Do(s: State, t: nat, op: Op): State
    requires Enabled(s, t, op)
  {
    var (g, p) := Move(s.g, s.pc[t], op);
    State(g, s.pc[t := p])
  }

  ghost predicate Next(s: State, s': State) {
    exists t, op :: Enabled(s, t, op) && s' == Do(s, t, op)
  }

  // ---------------------------------------------------------------- invariant

  ghost predicate InClose(p: Pc) {
    p.CloseWon? || p.ReasonSet? || p.Flagged? || p.SawZero? || p.CloseFiring?
  }
  ghost predicate InDone(p: Pc) { p.Decremented? || p.SawFlag? || p.DoneFiring? }
  ghost predicate Firing(p: Pc) { p.DoneFiring? || p.CloseFiring? }
  /** Has yet to raise the flag. */
  ghost predicate Raising(p: Pc) { p.CloseWon? || p.ReasonSet? }
  /** Will try to run the callback if the count is zero and the flag is up. */
  ghost predicate Trying(p: Pc) { (p.Decremented? && p.zero) || p.SawFlag? || p.Flagged? || p.SawZero? }

  /** What is true of one thread, given what is shared. */
  ghost predicate Local(g: Shared, p: Pc) {
    && (InClose(p) ==> g.closeOnce && p.reason == g.winner)
    && (p.ReasonSet? ==> g.closeReason == g.winner)
    && (Raising(p) ==> !g.fdoclose)
    && (p.SawFlag? || p.DoneFiring? || p.Flagged? || p.SawZero? || p.CloseFiring? ==> g.fdoclose)
    && (Firing(p) ==> g.doCloseOnce && g.fired == [])
  }

  ghost predicate Global(g: Shared) {
    && g.ioCount == g.inFlight
    && (g.fdoclose ==> g.closeOnce && g.closeReason == g.winner)
    && (g.doCloseOnce ==> g.fdoclose)
    && (g.fired == [] || (g.fired == [g.winner] && g.doCloseOnce))
  }

  ghost predicate Inv(s: State) {
    && Global(s.g)
    && (forall t :: 0 <= t < |s.pc| ==> Local(s.g, s.pc[t]))
    && (forall t, u :: 0 <= t < |s.pc| && 0 <= u < |s.pc| && Firing(s.pc[t]) && Firing(s.pc[u]) ==> t == u)
    && (forall t, u :: 0 <= t < |s.pc| && 0 <= u < |s.pc| && InClose(s.pc[t]) && InClose(s.pc[u]) ==> t == u)
    && (s.g.closeOnce && !s.g.fdoclose ==> exists t :: 0 <= t < |s.pc| && Raising(s.pc[t]))
    && (s.g.fdoclose && s.g.ioCount == 0 && !s.g.doCloseOnce ==> exists t :: 0 <= t < |s.pc| && Trying(s.pc[t]))
    && (s.g.doCloseOnce && s.g.fired == [] ==> exists t :: 0 <= t < |s.pc| && Firing(s.pc[t]))
  }

  /** One step: what it keeps of the shared state, of its own thread and of any other thread q. */
  lemma MoveKeeps(g: Shared, p: Pc, op: Op, q: Pc)
    requires Can(g, p, op) && Global(g) && Local(g, p) && Local(g, q)
    requires !(Firing(p) && Firing(q)) && !(InClose(p) && InClose(q))
    ensures var (g', p') := Move(g, p, op);
            && Global(g') && Local(g', p') && Local(g', q)
            && !(Firing(p') && Firing(q)) && !(InClose(p') && InClose(q))
  {
  }

  /** The obligations to raise, try and fire stay with the thread that moves or have been met. */
  lemma MoveHandsOver(g: Shared, p: Pc, op: Op)
    requires Can(g, p, op) && Global(g) && Local(g, p)
    ensures var (g', p') := Move(g, p, op);
            && (g'.closeOnce && !g'.fdoclose ==> Raising(p') || (g.closeOnce && !g.fdoclose && !Raising(p)))
            && (g'.fdoclose && g'.ioCount == 0 && !g'.doCloseOnce ==>
                  Trying(p') || (g.fdoclose && g.ioCount == 0 && !g.doCloseOnce && !Trying(p)))
            && (g'.doCloseOnce && g'.fired == [] ==> Firing(p') || (g.doCloseOnce && g.fired == [] && !Firing(p)))
  {
  }

  lemma StepKeepsInv(s: State, t: nat, op: Op)
    requires Inv(s) && Enabled(s, t, op)
    ensures Inv(Do(s, t, op))
  {
    var s' := Do(s, t, op);
    var p := s.pc[t];
    MoveKeeps(s.g, p, op, Idle);
    forall u | 0 <= u < |s.pc| && u != t
      ensures Local(s'.g, s'.pc[u]) && !(Firing(s'.pc[t]) && Firing(s'.pc[u]))
                && !(InClose(s'.pc[t]) && InClose(s'.pc[u]))
    {
      MoveKeeps(s.g, p, op, s.pc[u]);
    }
    MoveHandsOver(s.g, p, op);
    if s'.g.closeOnce && !s'.g.fdoclose && !Raising(s'.pc[t]) {
      var u :| 0 <= u < |s.pc| && Raising(s.pc[u]);
      assert Raising(s'.pc[u]);
    }
    if s'.g.fdoclose && s'.g.ioCount == 0 && !s'.g.doCloseOnce && !Trying(s'.pc[t]) {
      var u :| 0 <= u < |s.pc| && Trying(s.pc[u]);
      assert Trying(s'.pc[u]);
    }
    if s'.g.doCloseOnce && s'.g.fired == [] && !Firing(s'.pc[t]) {
      var u :| 0 <= u < |s.pc| && Firing(s.pc[u]);
      assert Firing(s'.pc[u]);
    }
  }

  // ------------------------------------------------------------ main theorem

  lemma NextKeepsInv(s: State, s': State)
    requires Inv(s) && Next(s, s')
    ensures Inv(s')
  {
    var t: nat, op :| Enabled(s, t, op) && s' == Do(s, t, op);
    StepKeepsInv(s, t, op);
  }

  lemma RunKeepsInv(run: seq<State>, k: nat)
    requires Runs.IsRun(Init, Next, run) && k < |run|
    ensures Inv(run[k])
  {
    forall s, s' | Inv(s) && Next(s, s') ensures Inv(s') { NextKeepsInv(s, s'); }
    Runs.Invariance(Init, Next, Inv, run, k);
  }

  /** The callback runs at most once and only with the winning reason; and once Close has finished,
      no operation is in flight and no thread is inside ioDone, it has run. */
  lemma CloseNotifiedOnce(run: seq<State>, k: nat)
    requires Runs.IsRun(Init, Next, run) && k < |run|
    ensures var s := run[k];
            && (s.g.fired == [] || s.g.fired == [s.g.winner])
            && (s.g.closeOnce && s.g.ioCount == 0 &&
                (forall t :: 0 <= t < |s.pc| ==> !InClose(s.pc[t]) && !InDone(s.pc[t])) ==>
                  s.g.fired == [s.g.winner])
            && (s.g.fired != [] ==> s.g.fdoclose)
  {
    RunKeepsInv(run, k);
  }

  lemma FiredStays(g: Shared, p: Pc, op: Op)
    requires Can(g, p, op) && Global(g) && Local(g, p) && g.fired != []
    ensures Move(g, p, op).0.fired == g.fired && Move(g, p, op).0.winner == g.winner
  {
  }

  /** Once called, the callback is not called again and the winning reason does not change, at any later
      point of the run. */
  lemma NeverTwice(run: seq<State>, i: nat, k: nat)
    requires Runs.IsRun(Init, Next, run) && i <= k < |run| && run[i].g.fired != []
    ensures run[k].g.fired == run[i].g.fired && run[k].g.winner == run[i].g.winner
  {
    var s0 := run[i];
    forall s, s' | Inv(s) && Next(s, s') ensures Inv(s') { NextKeepsInv(s, s'); }
    forall s, s' | Inv(s) && SameRecord(s0, s) && Next(s, s') ensures SameRecord(s0, s') { StepKeepsRecord(s0, s, s'); }
    Runs.Stays(Init, Next, Inv, s => SameRecord(s0, s), run, i, k);
  }

  ghost predicate SameRecord(s0: State, s: State) {
    s.g.fired == s0.g.fired != [] && s.g.winner == s0.g.winner
  }

  lemma StepKeepsRecord(s0: State, s: State, s': State)
    requires Inv(s) && SameRecord(s0, s) && Next(s, s')
    ensures SameRecord(s0, s')
  {
    var t: nat, op :| Enabled(s, t, op) && s' == Do(s, t, op);
    FiredStays(s.g, s.pc[t], op);
  }

  // ------------------------------------------------------------ by the calls that were made

  datatype Step = By(t: nat, op: Op)

  ghost predicate Leads(s: State, step: Step, s': State) {
    Enabled(s, step.t, step.op) && s' == Do(s, step.t, step.op)
  }

  /** The reason given to the first call of Close. */
  ghost function FirstReason(steps: seq<Step>): Option<int> {
    if steps == [] then None
    else
      var n := |steps| - 1;
      if FirstReason(steps[..n]).Some? then FirstReason(steps[..n])
      else if steps[n].op.Close? then Some(steps[n].op.reason) else None
  }

  /** How many operations were begun, less how many were done. */
  ghost function InFlight(steps: seq<Step>): int {
    if steps == [] then 0
    else
      var n := |steps| - 1;
      InFlight(steps[..n]) + (if steps[n].op.AddIO? then 1 else if steps[n].op.IoDone? then -1 else 0)
  }

  lemma {:induction false} HistoryIsKept(run: seq<State>, steps: seq<Step>)
    requires Runs.IsHistory(Init, Leads, run, steps)
    ensures var g := run[|steps|].g;
            && FirstReason(steps) == (if g.closeOnce then Some(g.winner) else None)
            && g.inFlight == InFlight(steps)
  {
    if steps != [] {
      var n := |steps| - 1;
      Runs.HistoryUpTo(Init, Leads, Next, run, steps, n);
      HistoryIsKept(run[..n + 1], steps[..n]);
      assert Leads(run[n], steps[n], run[n + 1]);
    }
  }

  /** Over every run given with its steps: the callback has not been called, or once, with the reason of the
      first call of Close; and it has been called if there was one, every operation begun is done, and no
      thread is inside Close or ioDone. */
  lemma NotifiesFirstReason(run: seq<State>, steps: seq<Step>)
    requires Runs.IsHistory(Init, Leads, run, steps)
    ensures var s := run[|steps|];
            && (s.g.fired == [] || (FirstReason(steps).Some? && s.g.fired == [FirstReason(steps).value]))
            && (FirstReason(steps).Some? && InFlight(steps) == 0 && (forall t :: 0 <= t < |s.pc| ==> s.pc[t].Idle?) ==>
                  s.g.fired != [])
  {
    Runs.HistoryUpTo(Init, Leads, Next, run, steps, |steps|);
    RunKeepsInv(run, |steps|);
    HistoryIsKept(run, steps);
  }
}
