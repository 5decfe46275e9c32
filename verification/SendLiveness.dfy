/** socket/aio/aiosocket.go:276-472: operations that have begun come to an end, and then everything has been
    sent.  A measure over the program points of SendProtocol descends with every step that is not a new
    Send, as long as every timeout has written at least one byte. */
module SendLiveness {
  import opened Bytes
  import opened SendProtocol
  import opened Sums
  import Runs

  ghost function InHandOf(a: Act): nat { |Pending(a)| }

  /** How far an activity is from rest, while there is something in the queue and when there is not. */
  ghost function Busy(a: Act): nat {
    match a
    case Enqueued => 11
    case Won => 10
    case TimedOut(_, _, _, _) => 12
    case Submitting(_, _) => 9
    case Writing(_, _) => 8
    case Completed(_) => 7
    case EmptySeen(_) => 6
    case Released(_, _) => 5
    case MoreSeen(_, _) => 4
    case Draining(_) => 3
    case Failed(_) => 1
    case _ => 0
  }

  ghost function Idling(a: Act): nat {
    match a
    case Enqueued => 11
    case Won => 10
    case TimedOut(_, _, _, _) => 12
    case MoreSeen(_, _) => 9
    case Draining(_) => 8
    case Submitting(_, _) => 7
    case Writing(_, _) => 6
    case Completed(_) => 5
    case EmptySeen(_) => 4
    case Released(_, _) => 3
    case Failed(_) => 1
    case _ => 0
  }

  ghost function Rank(s: State): nat {
    if s.g.queue == [] then Sum(s.acts, Idling) else Sum(s.acts, Busy)
  }

  ghost predicate Below(s': State, s: State) {
    || |s'.g.queue| < |s.g.queue|
    || (|s'.g.queue| == |s.g.queue| &&
        (Sum(s'.acts, InHandOf) < Sum(s.acts, InHandOf) ||
         (Sum(s'.acts, InHandOf) == Sum(s.acts, InHandOf) && Rank(s') < Rank(s))))
  }

  /** Not a new Send, nothing spoiled, and no timeout that has written nothing. */
  ghost predicate Advances(s: State, step: Step) {
    && Enabled(s, step) && step.Run? && !step.op.Send? && !step.op.Intrude?
    && (step.op.CompleteTimeout? ==> step.op.n > 0)
    && !Do(s, step).g.spoiled
  }

  /** What one activity's step does to the measure. */
  lemma MoveDescends(g: Shared, a: Act, op: Op, i: nat)
    requires Can(g, a, op) && !op.Send? && !op.Intrude? && (op.CompleteTimeout? ==> op.n > 0)
    requires !Move(g, a, op, i).0.spoiled
    ensures var (g', a') := Move(g, a, op, i);
            || |g'.queue| < |g.queue|
            || (g'.queue == g.queue &&
                (InHandOf(a') < InHandOf(a) ||
                 (InHandOf(a') == InHandOf(a) && if g.queue == [] then Idling(a') < Idling(a) else Busy(a') < Busy(a))))
  {
    var (g', a') := Move(g, a, op, i);
    if op.Get? && g.queue == [] {
      assert Encodings([]) == [];
      assert a'.buf == [];
    } else if op.CompleteOk? || op.CompleteTimeout? || op.CompleteError? {
      assert |Pending(a')| <= |a.buf|;
    }
  }

  lemma StepDescends(s: State, step: Step)
    requires Advances(s, step)
    ensures Below(Do(s, step), s)
  {
    var i, op := step.i, step.op;
    var (g', a') := Move(s.g, s.acts[i], op, i);
    MoveDescends(s.g, s.acts[i], op, i);
    SumSet(s.acts, i, a', InHandOf);
    SumSet(s.acts, i, a', Busy);
    SumSet(s.acts, i, a', Idling);
  }

  ghost predicate AdvancingNext(s: State, s': State) {
    exists step :: Advances(s, step) && s' == Do(s, step)
  }

  /** A write that timed out is about to be retried with a buffer that does not hold the rest. */
  ghost predicate AboutToSpoil(a: Act) { a.TimedOut? && Dropped(a.buf, a.n) != a.rest }

  /** What an activity that is not at rest may do next without spoiling anything. */
  ghost function NextOp(g: Shared, a: Act): Op
    requires !a.Idle? && !a.Dead?
  {
    match a
    case Enqueued => SendCas
    case Won => StartTask
    case Draining(_) => Get(Encodings(g.queue))
    case Submitting(_, _) => Submit(true)
    case Writing(_, buf) => CompleteOk(buf)
    case Completed(_) => CheckEmpty
    case EmptySeen(_) => Release
    case Released(_, _) => Recheck
    case MoreSeen(_, _) => RecheckCas
    case TimedOut(_, _, _, _) => Retry
    case Failed(_) => FailClose
  }

  lemma NextOpAdvances(s: State, i: nat)
    requires !s.g.spoiled && i < |s.acts| && !s.acts[i].Idle? && !s.acts[i].Dead? && !AboutToSpoil(s.acts[i])
    requires !(s.acts[i].Draining? && s.g.queue == [] && !s.g.queueClosed)
    ensures Advances(s, Run(i, NextOp(s.g, s.acts[i])))
  {
  }

  /** Such a step exists in every state that is not settled, unless a retry is about to spoil something. */
  lemma CanFinish(s: State)
    requires !s.g.spoiled && !Settled(s) && forall i :: 0 <= i < |s.acts| ==> !AboutToSpoil(s.acts[i])
    ensures exists s' :: AdvancingNext(s, s')
  {
    var i: nat :| i < |s.acts| && !s.acts[i].Idle? && !s.acts[i].Dead? &&
                  !(s.acts[i].Draining? && s.g.queue == [] && !s.g.queueClosed);
    NextOpAdvances(s, i);
    assert AdvancingNext(s, Do(s, Run(i, NextOp(s.g, s.acts[i]))));
  }

  /** A schedule of such steps that stops only when settled. */
  ghost predicate Finishing(f: nat -> State) {
    forall i: nat :: Settled(f(i)) || AdvancingNext(f(i), f(i + 1))
  }

  lemma {:induction false} FinishingDescends(f: nat -> State, i: nat) returns (k: nat)
    requires Finishing(f) && Inv(f(i)) && !f(i).g.spoiled
    ensures Inv(f(k)) && Settled(f(k)) && !f(k).g.spoiled
    decreases |f(i).g.queue|, Sum(f(i).acts, InHandOf), Rank(f(i))
  {
    if Settled(f(i)) {
      k := i;
    } else {
      assert AdvancingNext(f(i), f(i + 1));
      var step :| Advances(f(i), step) && f(i + 1) == Do(f(i), step);
      StepKeepsInv(f(i), step);
      StepDescends(f(i), step);
      k := FinishingDescends(f, i + 1);
    }
  }

  /** From every reachable state in which nothing has been spoiled, every schedule of the operations already
      begun whose completions arrive, whose timeouts have written something, and that spoils nothing,
      settles; and if the socket is open then, everything accepted has been written, in order. */
  lemma EverythingGetsSent(run: seq<State>, f: nat -> State) returns (k: nat)
    requires Runs.IsRun(Init, Next, run) && f(0) == run[|run| - 1] && Finishing(f) && !f(0).g.spoiled
    ensures Settled(f(k))
    ensures !f(k).g.closeOnce ==> f(k).g.queue == [] && f(k).g.wire == Encodings(f(k).g.accepted)
  {
    RunKeepsInv(run, |run| - 1);
    k := FinishingDescends(f, 0);
    if !f(k).g.closeOnce {
      SettledSent(f(k));
    }
  }
}
