/** socket/socketBase.go:183-249 and socket/aio/aiosocket.go:511-567: what is in flight when the close callback
    runs.  Whoever runs it has seen the count at zero, but some time before. */
module CloseTiming {
  import opened Optional
  import opened CloseProtocol
  import Runs

  /** A step by which its thread sees that nothing is in flight. */
  ghost predicate SeesNone(steps: seq<Step>, k: nat) {
    && k < |steps| && (steps[k].op.IoDone? || steps[k].op.LoadCount?)
    && InFlight(steps[..k + 1]) == 0
  }

  /** On the way to the callback, or there. */
  ghost predicate Convinced(p: Pc) {
    (p.Decremented? && p.zero) || p.SawFlag? || p.DoneFiring? || p.SawZero? || p.CloseFiring?
  }

  lemma BecomesConvinced(g: Shared, p: Pc, op: Op)
    requires Can(g, p, op) && Convinced(Move(g, p, op).1)
    ensures Convinced(p) || ((op.IoDone? || op.LoadCount?) && Move(g, p, op).0.ioCount == 0)
  {
  }

  /** Whoever is on the way to the callback has seen that nothing is in flight. */
  lemma {:induction false} HasSeenNone(run: seq<State>, steps: seq<Step>, t: nat) returns (k: nat)
    requires Runs.IsHistory(Init, Leads, run, steps)
    requires t < |run[|steps|].pc| && Convinced(run[|steps|].pc[t])
    ensures SeesNone(steps, k) && steps[k].t == t
  {
    var n := |steps| - 1;
    Runs.HistoryUpTo(Init, Leads, Next, run, steps, n);
    assert Leads(run[n], steps[n], run[n + 1]);
    if steps[n].t == t && !Convinced(run[n].pc[t]) {
      k := n;
      BecomesConvinced(run[n].g, run[n].pc[t], steps[n].op);
      HistoryIsKept(run, steps);
      Runs.HistoryUpTo(Init, Leads, Next, run, steps, |steps|);
      RunKeepsInv(run, |steps|);
      assert steps[..n + 1] == steps;
    } else {
      k := HasSeenNone(run[..n + 1], steps[..n], t);
      assert steps[..n][..k + 1] == steps[..k + 1];
    }
  }

  /** Operations begun, less those done, after step k. */
  ghost function BegunSince(steps: seq<Step>, k: nat): int
    requires k < |steps|
  {
    InFlight(steps) - InFlight(steps[..k + 1])
  }

  lemma {:induction false} NoneBegun(steps: seq<Step>, k: nat)
    requires k < |steps| && forall j :: k < j < |steps| ==> !steps[j].op.AddIO?
    ensures BegunSince(steps, k) <= 0
  {
    var n := |steps| - 1;
    if k < n {
      NoneBegun(steps[..n], k);
      assert steps[..n][..k + 1] == steps[..k + 1];
    } else {
      assert steps[..k + 1] == steps;
    }
  }

  /** When a thread runs the callback, as many operations are in flight as were begun and not done since that
      thread saw none: so none are, unless one was begun since. */
  lemma InFlightAtCallback(run: seq<State>, steps: seq<Step>, t: nat) returns (k: nat)
    requires Runs.IsHistory(Init, Leads, run, steps)
    requires t < |run[|steps|].pc| && Firing(run[|steps|].pc[t])
    ensures SeesNone(steps, k) && steps[k].t == t
    ensures run[|steps|].g.inFlight == BegunSince(steps, k)
    ensures (forall j :: k < j < |steps| ==> !steps[j].op.AddIO?) ==> run[|steps|].g.inFlight == 0
  {
    k := HasSeenNone(run, steps, t);
    HistoryIsKept(run, steps);
    if forall j :: k < j < |steps| ==> !steps[j].op.AddIO? {
      NoneBegun(steps, k);
    }
  }

  lemma Extend(run: seq<State>, steps: seq<Step>, step: Step) returns (run': seq<State>, steps': seq<Step>)
    requires Runs.IsHistory(Init, Leads, run, steps) && Enabled(run[|steps|], step.t, step.op)
    ensures Runs.IsHistory(Init, Leads, run', steps') && steps' == steps + [step]
    ensures run'[|steps'|] == Do(run[|steps|], step.t, step.op)
  {
    run', steps' := run + [Do(run[|steps|], step.t, step.op)], steps + [step];
  }

  ghost function At(inFlight: nat, flag: bool, once: bool, closing: bool, fired: seq<int>, a: Pc, b: Pc): State {
    State(Shared(inFlight, inFlight, flag, once, closing, if flag then 7 else 0, if closing then 7 else 0, fired),
          [a, b])
  }

  /** Thread 0 finishes one operation, and before it looks at the flag thread 1 begins another and closes. */
  lemma ClosedInBetween() returns (run: seq<State>, steps: seq<Step>)
    ensures Runs.IsHistory(Init, Leads, run, steps)
    ensures run[|steps|] == At(1, true, false, true, [], Decremented(true), Idle)
    ensures steps == [By(0, AddIO), By(0, IoDone), By(1, AddIO),
                      By(1, Close(7)), By(1, SetReason), By(1, SetFlag), By(1, LoadCount)]
  {
    run, steps := [At(0, false, false, false, [], Idle, Idle)], [];
    run, steps := Extend(run, steps, By(0, AddIO));
    run, steps := Extend(run, steps, By(0, IoDone));
    run, steps := Extend(run, steps, By(1, AddIO));
    assert run[|steps|] == At(1, false, false, false, [], Decremented(true), Idle);
    run, steps := Extend(run, steps, By(1, Close(7)));
    run, steps := Extend(run, steps, By(1, SetReason));
    run, steps := Extend(run, steps, By(1, SetFlag));
    run, steps := Extend(run, steps, By(1, LoadCount));
  }

  /** A run in which the callback is run while an operation begun before the close is in flight. */
  lemma CallbackBeforeDone() returns (run: seq<State>, steps: seq<Step>)
    ensures Runs.IsHistory(Init, Leads, run, steps)
    ensures var s := run[|steps|]; s.g.fired == [7] && s.g.inFlight == 1
    ensures steps == [By(0, AddIO), By(0, IoDone), By(1, AddIO),
                      By(1, Close(7)), By(1, SetReason), By(1, SetFlag), By(1, LoadCount),
                      By(0, TestFlag), By(0, DoneCas), By(0, DoneFire)]
  {
    run, steps := ClosedInBetween();
    run, steps := Extend(run, steps, By(0, TestFlag));
    run, steps := Extend(run, steps, By(0, DoneCas));
    run, steps := Extend(run, steps, By(0, DoneFire));
  }
}
