/** rpc/client.go:80-212: the calls of an RPC client as those who made them see them: what became of each by
    what happened, and which of them a disconnect takes. */
module RpcHistory {
  import opened Optional
  import opened Sequences
  import opened RpcClient
  import Runs

  /** The channel of every call, by sequence number; posts have none. */
  ghost function Issued(steps: seq<Step>): seq<Option<Channel>> {
    if steps == [] then []
    else
      var n := |steps| - 1;
      Issued(steps[..n]) +
      match steps[n] {
        case Post => [None]
        case AddCall(channel) => [Some(channel)]
        case _ => []
      }
  }

  /** What a step means for call x, if it is still pending. */
  ghost function Event(s: State, step: Step, x: Seq): Option<Status> {
    match step
    case Settle(y) => if y == x then Some(Answered) else None
    case SendFailed(y) => if y == x then Some(Retracted) else None
    case SettleOne(d) =>
      if d < |s.cursors| && s.cursors[d].Settling? && s.cursors[d].x == x then Some(Answered) else None
    case _ => None
  }

  /** What became of number x: a call is pending from its beginning until the first such event, which decides. */
  ghost function Fate(run: seq<State>, steps: seq<Step>, x: Seq): Status
    requires |run| == |steps| + 1
  {
    if steps == [] then NotCalled
    else
      var n := |steps| - 1;
      var before := Fate(run[..n + 1], steps[..n], x);
      if before.Pending? && Event(run[n], steps[n], x).Some? then Event(run[n], steps[n], x).value
      else if steps[n].AddCall? && x == |Issued(steps[..n])| then Pending
      else before
  }

  lemma RemovalStatus(s: State, y: Seq, outcome: Status, x: Seq)
    requires Inv(s) && !s.panicked && Bounded(s, y) && x < |s.status| && !RemoveCall(s, y, outcome).panicked
    ensures var s' := RemoveCall(s, y, outcome);
            && |s'.status| == |s.status|
            && s'.status[x] == if x == y && s.status[x].Pending? then outcome else s.status[x]
  {
  }

  lemma StepStatus(s: State, step: Step, x: Seq)
    requires Inv(s) && Enabled(s, step) && x < |s.status| && !Do(s, step).panicked
    ensures var s' := Do(s, step);
            && x < |s'.status|
            && s'.status[x] == if s.status[x].Pending? && Event(s, step, x).Some? then Event(s, step, x).value
                               else s.status[x]
  {
    match step
    case Settle(y) => RemovalStatus(s, y, Answered, x);
    case SendFailed(y) => RemovalStatus(s, y, Retracted, x);
    case _ =>
  }

  lemma StepIssues(s: State, step: Step)
    requires Inv(s) && Enabled(s, step)
    ensures var s' := Do(s, step);
            && |s'.status| == |s.status| + (if step.Post? || step.AddCall? then 1 else 0)
            && (step.AddCall? ==> s'.status[|s.status|].Pending?) && (step.Post? ==> s'.status[|s.status|].NotCalled?)
            && (forall x :: x in s'.calls && x in s.calls ==> s'.calls[x].channel == s.calls[x].channel)
            && (forall x :: x in s'.calls && x !in s.calls ==>
                  step.AddCall? && x == |s.status| && s'.calls[x] == Context(step.channel, InChannel))
  {
  }

  /** Calls are chained under the channels they were made on. */
  ghost predicate Reflects(s: State, issued: seq<Option<Channel>>) {
    |s.status| == |issued| && forall x :: x in s.calls ==> x < |issued| && issued[x] == Some(s.calls[x].channel)
  }

  lemma {:induction false} FateUnissued(run: seq<State>, steps: seq<Step>, x: Seq)
    requires |run| == |steps| + 1 && x >= |Issued(steps)|
    ensures Fate(run, steps, x) == NotCalled
  {
    if steps != [] {
      var n := |steps| - 1;
      FateUnissued(run[..n + 1], steps[..n], x);
    }
  }

  lemma {:induction false} HistoryReflected(run: seq<State>, steps: seq<Step>)
    requires Runs.IsHistory(Init, Leads, run, steps)
    ensures !run[|steps|].panicked ==> Reflects(run[|steps|], Issued(steps))
  {
    if steps != [] {
      var n := |steps| - 1;
      Runs.HistoryUpTo(Init, Leads, Next, run, steps, n);
      HistoryReflected(run[..n + 1], steps[..n]);
      assert Leads(run[n], steps[n], run[n + 1]);
      RunKeepsInv(run, n);
      StepIssues(run[n], steps[n]);
    }
  }

  /** Over every run given with its steps and without a panic: the status of a number is what became of it, the
      first event deciding and later ones changing nothing; and its handler was invoked, once, exactly if
      that was a response, a timeout or a disconnect. */
  lemma {:induction false} FirstEventDecides(run: seq<State>, steps: seq<Step>, x: Seq)
    requires Runs.IsHistory(Init, Leads, run, steps) && !run[|steps|].panicked && x < |run[|steps|].status|
    ensures var s := run[|steps|];
            && |s.status| == |Issued(steps)| && s.status[x] == Fate(run, steps, x)
            && Distinct(s.invoked) && (x in s.invoked <==> Fate(run, steps, x).Answered?)
            && (Issued(steps)[x].None? ==> Fate(run, steps, x).NotCalled?)
  {
    Runs.HistoryUpTo(Init, Leads, Next, run, steps, |steps|);
    RunKeepsInv(run, |steps|);
    HistoryReflected(run, steps);
    if steps != [] {
      var n := |steps| - 1;
      Runs.HistoryUpTo(Init, Leads, Next, run, steps, n);
      assert Leads(run[n], steps[n], run[n + 1]);
      RunKeepsInv(run, n);
      StepIssues(run[n], steps[n]);
      HistoryReflected(run[..n + 1], steps[..n]);
      if x < |run[n].status| {
        FirstEventDecides(run[..n + 1], steps[..n], x);
        StepStatus(run[n], steps[n], x);
      } else {
        FateUnissued(run[..n + 1], steps[..n], x);
      }
    }
  }

  lemma DisconnectMoves(s: State, channel: Channel, x: Seq)
    requires Inv(s) && !s.panicked && x in s.calls
    ensures var s' := Do(s, Disconnect(channel));
            && x in s'.calls && s'.status == s.status && s'.invoked == s.invoked && channel !in s'.channels
            && s'.calls[x].home == if s.calls[x] == Context(channel, InChannel) then InDrain(|s.drains|)
                                   else s.calls[x].home
  {
  }

  /** A disconnect takes exactly the pending calls made on its channel and not taken by an earlier disconnect;
      it takes its entry away and touches no other call. */
  lemma DisconnectTakesExactly(run: seq<State>, steps: seq<Step>, channel: Channel, x: Seq)
    requires Runs.IsHistory(Init, Leads, run, steps) && !run[|steps|].panicked && x in run[|steps|].calls
    ensures Enabled(run[|steps|], Disconnect(channel)) && x < |Issued(steps)|
    ensures var s, s' := run[|steps|], Do(run[|steps|], Disconnect(channel));
            && x in s'.calls && s'.status == s.status && s'.invoked == s.invoked && channel !in s'.channels
            && s'.calls[x].home ==
               if Issued(steps)[x] == Some(channel) && s.calls[x].home.InChannel? then InDrain(|s.drains|)
               else s.calls[x].home
  {
    Runs.HistoryUpTo(Init, Leads, Next, run, steps, |steps|);
    RunKeepsInv(run, |steps|);
    HistoryReflected(run, steps);
    DisconnectMoves(run[|steps|], channel, x);
  }

  /** What arrives for a number that is not pending, or for none that was issued, changes nothing. */
  lemma LateIsHarmless(s: State, x: Seq)
    requires !s.panicked && x !in s.calls
    ensures Enabled(s, Settle(x)) && Do(s, Settle(x)) == s && Enabled(s, SendFailed(x)) && Do(s, SendFailed(x)) == s
  {
  }
}
