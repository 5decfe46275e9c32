/** socket/sendqueue.go:108-157: a run of the whole queue that strands an adder.  The queue holds one item
    and is full.  Adders 0, 1 and 2 wait, 1 with a timeout.  Thread 3 takes the item and broadcasts; it has
    woken 0 when the wait of 1 times out, and then finds 1 without a channel. */
module StrandedAdder {
  import opened Sequences
  import opened CondQueue
  import opened CondInvariant
  import Runs

  lemma Extend(run: seq<State>, t: nat, op: Op) returns (run': seq<State>)
    requires Runs.IsRun(Init, Next, run) && Enabled(run[|run| - 1], t, op)
    ensures Runs.IsRun(Init, Next, run') && |run'| > 0 && run'[|run'| - 1] == Do(run[|run| - 1], t, op)
  {
    var s := Do(run[|run| - 1], t, op);
    assert Next(run[|run| - 1], s);
    Runs.Extended(Init, Next, run, s);
    run' := run + [s];
  }

  ghost function At(len: nat, closed: bool, list: seq<nat>, waited: int, a: Pc, b: Pc, c: Pc, d: Pc): State {
    State(Shared(len, 1, closed, false, Waiters([], 0), Waiters(list, waited)), [a, b, c, d])
  }

  lemma ThreeWait() returns (run: seq<State>)
    ensures Runs.IsRun(Init, Next, run)
    ensures run[|run| - 1] == At(1, false, [0, 1, 2], 3, Asleep(NotFull, false, Listed), Asleep(NotFull, true, Listed),
                                 Asleep(NotFull, false, Listed), Idle)
  {
    run := [At(0, false, [], 0, Idle, Idle, Idle, Idle)];
    assert Init(run[0]);
    run := Extend(run, 3, Add);
    run := Extend(run, 0, AddWithTimeout(false));
    assert run[|run| - 1] == At(1, false, [0], 1, Asleep(NotFull, false, Listed), Idle, Idle, Idle);
    run := Extend(run, 1, AddWithTimeout(true));
    assert run[|run| - 1] ==
           At(1, false, [0, 1], 2, Asleep(NotFull, false, Listed), Asleep(NotFull, true, Listed), Idle, Idle);
    run := Extend(run, 2, AddWithTimeout(false));
  }

  lemma InHand() returns (run: seq<State>)
    ensures Runs.IsRun(Init, Next, run)
    ensures run[|run| - 1] ==
            At(0, false, [], 3, Asleep(NotFull, false, With(3)), Asleep(NotFull, true, With(3)),
               Asleep(NotFull, false, With(3)), Notifying(NotFull, [0, 1, 2], false, false))
  {
    run := ThreeWait();
    run := Extend(run, 3, Get);
    run := Extend(run, 3, BroadcastTake);
    var all: seq<nat> := [0, 1, 2];
    assert all[..3] == all && all[3..] == [];
  }

  lemma OneTimesOut() returns (run: seq<State>)
    ensures Runs.IsRun(Init, Next, run)
    ensures run[|run| - 1] ==
            At(0, false, [], 3, Woken(NotFull, true, false), Woken(NotFull, false, true),
               Asleep(NotFull, false, Stranded), Notifying(NotFull, [], false, true))
  {
    run := InHand();
    run := Extend(run, 3, NotifyOne);
    var all: seq<nat> := [0, 1, 2];
    assert Without(all, 0) == all[1..] == [1, 2];
    assert run[|run| - 1] ==
           At(0, false, [], 3, Woken(NotFull, true, false), Asleep(NotFull, true, With(3)),
              Asleep(NotFull, false, With(3)), Notifying(NotFull, [1, 2], false, false));
    run := Extend(run, 1, Timeout);
    var two: seq<nat> := [1, 2];
    assert Without(two, 1) == two[1..] == [2];
    run := Extend(run, 3, StrayEnd);
  }

  lemma OthersAreDone() returns (run: seq<State>)
    ensures Runs.IsRun(Init, Next, run)
    ensures run[|run| - 1] == At(1, false, [], 1, Idle, Idle, Asleep(NotFull, false, Stranded), Idle)
  {
    run := OneTimesOut();
    run := Extend(run, 3, NotifyDone);
    run := Extend(run, 0, AddResume);
    run := Extend(run, 1, AddResume);
  }

  /** The queue is open, empty and at rest, and adder 2 sleeps for good. */
  lemma TimeoutStrandsAnother() returns (run: seq<State>)
    ensures Runs.IsRun(Init, Next, run)
    ensures var s := run[|run| - 1];
            s == At(0, false, [], 1, Idle, Idle, Asleep(NotFull, false, Stranded), Idle) && Settled(s)
  {
    run := OthersAreDone();
    run := Extend(run, 3, Get);
    run := Extend(run, 3, BroadcastTake);
    assert run[|run| - 1] ==
           At(0, false, [], 1, Idle, Idle, Asleep(NotFull, false, Stranded), Notifying(NotFull, [], false, false));
    run := Extend(run, 3, NotifyDone);
  }

  /** Nor does closing the queue wake it. */
  lemma CloseDoesNotWakeIt() returns (run: seq<State>)
    ensures Runs.IsRun(Init, Next, run)
    ensures var s := run[|run| - 1];
            s == At(0, true, [], 1, Idle, Idle, Asleep(NotFull, false, Stranded), Idle) && Settled(s)
  {
    run := TimeoutStrandsAnother();
    run := Extend(run, 3, Close);
    run := Extend(run, 3, BroadcastTake);
    assert run[|run| - 1] ==
           At(0, true, [], 1, Idle, Idle, Asleep(NotFull, false, Stranded), Notifying(NotEmpty, [], true, false));
    run := Extend(run, 3, NotifyDone);
    run := Extend(run, 3, BroadcastTake);
    assert run[|run| - 1] ==
           At(0, true, [], 1, Idle, Idle, Asleep(NotFull, false, Stranded), Notifying(NotFull, [], false, false));
    run := Extend(run, 3, NotifyDone);
  }
}
