/** socket/sendqueue.go:56-77, 121-157: a carried-away ring as the rest of the queue sees it, which is a set
    of sleepers in hand.  CondQueue allows every step described here. */
module RingSeen {
  import opened RingRace
  import Runs

  /** Those who sleep on a channel that has not been closed. */
  ghost function InHand(s: State): set<nat>
    requires |s.m.closed| == |s.ws|
  {
    set w: nat | 0 < w < |s.ws| && s.ws[w].Asleep? && !s.m.closed[w]
  }

  /** Whatever state the ring is in: nobody leaves the hand but by a timeout or by having its channel closed,
      one at a time; and nobody comes back. */
  lemma StepAsSeen(s: State, step: Step)
    requires Enabled(s, step)
    ensures var s' := Do(s, step);
            && |s'.m.closed| == |s'.ws| == |s.ws|
            && match step
               case TimeOut(w) => InHand(s') == InHand(s) - {w}
               case Broadcast =>
                 InHand(s') == InHand(s) || (s.b.Closing? && InHand(s') == InHand(s) - {s.b.f} && s'.m.closed[s.b.f])
               case _ => InHand(s') == InHand(s)
  {
    StepEffect(s, step);
  }

  // ------------------------------------------------------------ no timeout of a sleeper in hand

  /** Timeouts strike only waiters whose channel has been closed. */
  ghost predicate UnstruckNext(s: State, s': State) {
    exists step :: Enabled(s, step) && (step.TimeOut? ==> s.m.closed[step.w]) && s' == Do(s, step)
  }

  ghost predicate Unstruck(s: State) {
    Calm(s) && |s.m.closed| == |s.ws| && forall w :: 0 < w < |s.ws| && !s.ws[w].Asleep? ==> s.m.closed[w]
  }

  lemma UnstruckIsCalm(s: State, step: Step)
    requires Unstruck(s) && Enabled(s, step) && (step.TimeOut? ==> s.m.closed[step.w])
    ensures CalmStep(s, step) && Unstruck(Do(s, step))
  {
    var k: nat :| CalmAt(s, k);
    if step.Leave? {
      ReadOut(|s.ws|, s.m, s.b, k, step.w);
    }
    CalmStepKeeps(s, step);
    StepEffect(s, step);
  }

  lemma UnstruckNextKeeps(s: State, s': State)
    requires Unstruck(s) && UnstruckNext(s, s')
    ensures Unstruck(s') && CalmNext(s, s')
  {
    var step :| Enabled(s, step) && (step.TimeOut? ==> s.m.closed[step.w]) && s' == Do(s, step);
    UnstruckIsCalm(s, step);
  }

  lemma UnstruckRunIsCalm(run: seq<State>, i: nat)
    requires Runs.IsRun(Init, UnstruckNext, run) && i < |run|
    ensures Unstruck(run[i]) && Runs.IsRun(Init, CalmNext, run)
  {
    forall s | Init(s) ensures Unstruck(s) { InitIsCalm(s); }
    forall s, s' | Unstruck(s) && UnstruckNext(s, s') ensures Unstruck(s') && CalmNext(s, s') {
      UnstruckNextKeeps(s, s');
    }
    forall j | 0 < j < |run| ensures CalmNext(run[j - 1], run[j]) {
      Runs.Invariance(Init, UnstruckNext, Unstruck, run, j - 1);
      assert UnstruckNext(run[j - 1], run[j]);
    }
    Runs.Invariance(Init, UnstruckNext, Unstruck, run, i);
  }

  /** In hand are the waiters from k on. */
  ghost predicate HandFrom(s: State, k: nat)
    requires |s.m.closed| == |s.ws|
  {
    k > 0 && forall w: nat :: w in InHand(s) <==> k <= w < |s.ws|
  }

  /** A ring on which no sleeper in hand times out is worked off in order: those in hand are the waiters from
      some waiter on, none is in hand when the broadcaster is done, and nothing panics. */
  lemma UnstruckRing(run: seq<State>, i: nat)
    requires Runs.IsRun(Init, UnstruckNext, run) && i < |run|
    ensures var s := run[i];
            && !s.panicked && |s.m.closed| == |s.ws|
            && (exists k :: HandFrom(s, k)) && (s.b.Done? ==> InHand(s) == {})
  {
    UnstruckRunIsCalm(run, i);
    UntouchedRingIsWorkedOff(run, i);
    var s := run[i];
    var k: nat :| CalmAt(s, k);
    forall w: nat | 0 < w < |s.ws| ensures w in InHand(s) <==> k <= w {
      ReadOut(|s.ws|, s.m, s.b, k, w);
    }
    assert HandFrom(s, k);
  }
}
