/** rpc/server.go:20-48, 123-164: one-shot replyers and the count of requests not yet answered.
    A handler, the goroutines it started and the recovery from its panic may reply to or drop a
    request at any time and any number of times. */
module RpcServer {
  import Runs

  /** replied: fired by Reply rather than DropResponse.  responses: calls of reply. */
  datatype Replyer = Replyer(needResp: bool, fired: bool, replied: bool, responses: nat)

  datatype Pc =
    | Idle
    | Replying(i: nat)   // Reply won fired, before sending
    | Counting(i: nat)   // before the decrement of pendingCount

  datatype State = State(pendingCount: int, replyers: seq<Replyer>, pc: seq<Pc>)

  datatype Step =
    | Request(needResp: bool)     // OnRPCMessage: a new replyer, counted
    | Reply(t: nat, i: nat)       // also an unknown method, and a handler that panics
    | Drop(t: nat, i: nat)
    | Respond(t: nat)
    | Count(t: nat)

  ghost predicate Init(s: State) {
    s.pendingCount == 0 && s.replyers == [] && forall t :: 0 <= t < |s.pc| ==> s.pc[t] == Idle
  }

  ghost predicate Enabled(s: State, step: Step) {
    match step
    case Request(_) => true
    case Reply(t, i) => t < |s.pc| && s.pc[t].Idle? && i < |s.replyers|
    case Drop(t, i) => t < |s.pc| && s.pc[t].Idle? && i < |s.replyers|
    case Respond(t) => t < |s.pc| && s.pc[t].Replying? && s.pc[t].i < |s.replyers|
    case Count(t) => t < |s.pc| && s.pc[t].Counting?
  }

  ghost function Fired(s: State, i: nat, replied: bool): seq<Replyer>
    requires i < |s.replyers|
  {
    s.replyers[i := s.replyers[i].(fired := true, replied := replied)]
  }

  ghost function Do(s: State, step: Step): State
    requires Enabled(s, step)
  {
    match step
    case Request(needResp) =>
      s.(pendingCount := s.pendingCount + 1, replyers := s.replyers + [Replyer(needResp, false, false, 0)])
    case Reply(t, i) =>
      if s.replyers[i].fired then s else s.(replyers := Fired(s, i, true), pc := s.pc[t := Replying(i)])
    case Drop(t, i) =>
      if s.replyers[i].fired then s else s.(replyers := Fired(s, i, false), pc := s.pc[t := Counting(i)])
    case Respond(t) =>
      var i := s.pc[t].i;
      var r := s.replyers[i];
      s.(replyers := if r.needResp then s.replyers[i := r.(responses := r.responses + 1)] else s.replyers,
         pc := s.pc[t := Counting(i)])
    case Count(t) => s.(pendingCount := s.pendingCount - 1, pc := s.pc[t := Idle])
  }

  ghost predicate Leads(s: State, step: Step, s': State) { Enabled(s, step) && s' == Do(s, step) }

  ghost predicate Next(s: State, s': State) { exists step :: Leads(s, step, s') }

  // ---------------------------------------------------------------- invariant

  ghost function Unfired(rs: seq<Replyer>): nat {
    if rs == [] then 0 else Unfired(rs[..|rs| - 1]) + (if rs[|rs| - 1].fired then 0 else 1)
  }

  ghost function Working(pc: seq<Pc>): nat {
    if pc == [] then 0 else Working(pc[..|pc| - 1]) + (if pc[|pc| - 1].Idle? then 0 else 1)
  }

  /** At most one response, and only to a request that wants one and has been replied to. */
  ghost predicate Quotas(rs: seq<Replyer>) {
    forall i :: 0 <= i < |rs| ==> (rs[i].replied ==> rs[i].fired) && rs[i].responses <= Due(rs[i])
  }

  /** The responses a request is to have in the end. */
  ghost function Due(r: Replyer): nat { if r.replied && r.needResp then 1 else 0 }

  /** A response still missing is in the hands of a thread. */
  ghost predicate NoneForgotten(pc: seq<Pc>, rs: seq<Replyer>) {
    forall i: nat :: i < |rs| && rs[i].responses < Due(rs[i]) ==> Replying(i) in pc
  }

  /** Whoever is about to respond is the only one, and no response was sent before. */
  ghost predicate Owners(pc: seq<Pc>, rs: seq<Replyer>) {
    && (forall t :: 0 <= t < |pc| && pc[t].Replying? ==>
              pc[t].i < |rs| && rs[pc[t].i].replied && rs[pc[t].i].responses == 0)
    && (forall t, u :: 0 <= t < |pc| && 0 <= u < |pc| && pc[t].Replying? && pc[u] == pc[t] ==> t == u)
  }

  ghost predicate Inv(s: State) {
    s.pendingCount == Unfired(s.replyers) + Working(s.pc) && Quotas(s.replyers) && Owners(s.pc, s.replyers) &&
    NoneForgotten(s.pc, s.replyers)
  }

  lemma {:induction false} UnfiredSet(rs: seq<Replyer>, i: nat, r: Replyer)
    requires i < |rs|
    ensures Unfired(rs[i := r]) == Unfired(rs) + (if r.fired then 0 else 1) - (if rs[i].fired then 0 else 1)
  {
    var n := |rs| - 1;
    if i < n {
      assert rs[i := r][..n] == rs[..n][i := r];
      UnfiredSet(rs[..n], i, r);
    } else {
      assert rs[i := r][..n] == rs[..n];
    }
  }

  lemma {:induction false} WorkingSet(pc: seq<Pc>, t: nat, p: Pc)
    requires t < |pc|
    ensures Working(pc[t := p]) == Working(pc) + (if p.Idle? then 0 else 1) - (if pc[t].Idle? then 0 else 1)
  {
    var n := |pc| - 1;
    if t < n {
      assert pc[t := p][..n] == pc[..n][t := p];
      WorkingSet(pc[..n], t, p);
    } else {
      assert pc[t := p][..n] == pc[..n];
    }
  }

  lemma OwnersFire(pc: seq<Pc>, rs: seq<Replyer>, t: nat, i: nat, p: Pc)
    requires Owners(pc, rs) && Quotas(rs) && t < |pc| && i < |rs| && !rs[i].fired
    requires p == Replying(i) || p == Counting(i)
    ensures Owners(pc[t := p], rs[i := rs[i].(fired := true, replied := p.Replying?)])
  {
  }

  /** A thread that was not about to respond moves on. */
  lemma StillInHand(pc: seq<Pc>, t: nat, p: Pc, q: Pc)
    requires t < |pc| && pc[t] != q && q in pc
    ensures q in pc[t := p]
  {
    var u :| 0 <= u < |pc| && pc[u] == q;
    assert pc[t := p][u] == q;
  }

  lemma FireForgetsNone(pc: seq<Pc>, rs: seq<Replyer>, t: nat, i: nat, p: Pc)
    requires NoneForgotten(pc, rs) && t < |pc| && pc[t].Idle? && i < |rs| && (p == Replying(i) || p == Counting(i))
    ensures NoneForgotten(pc[t := p], rs[i := rs[i].(fired := true, replied := p.Replying?)])
  {
    var rs' := rs[i := rs[i].(fired := true, replied := p.Replying?)];
    forall j: nat | j < |rs'| && rs'[j].responses < Due(rs'[j]) ensures Replying(j) in pc[t := p] {
      if j == i {
        assert pc[t := p][t] == Replying(j);
      } else {
        StillInHand(pc, t, p, Replying(j));
      }
    }
  }

  lemma RespondForgetsNone(pc: seq<Pc>, rs: seq<Replyer>, t: nat, r: Replyer)
    requires NoneForgotten(pc, rs) && t < |pc| && pc[t].Replying? && pc[t].i < |rs| && r.responses >= Due(r)
    ensures NoneForgotten(pc[t := Counting(pc[t].i)], rs[pc[t].i := r])
  {
    var i := pc[t].i;
    forall j: nat | j < |rs| && rs[i := r][j].responses < Due(rs[i := r][j])
      ensures Replying(j) in pc[t := Counting(i)] {
      StillInHand(pc, t, Counting(i), Replying(j));
    }
  }

  lemma OwnersRespond(pc: seq<Pc>, rs: seq<Replyer>, t: nat, r: Replyer)
    requires Owners(pc, rs) && t < |pc| && pc[t].Replying? && r.replied
    ensures Owners(pc[t := Counting(pc[t].i)], rs[pc[t].i := r])
  {
  }

  lemma FireKeepsInv(s: State, t: nat, i: nat, p: Pc)
    requires Inv(s) && Enabled(s, Reply(t, i)) && !s.replyers[i].fired && (p == Replying(i) || p == Counting(i))
    ensures Inv(s.(replyers := Fired(s, i, p.Replying?), pc := s.pc[t := p]))
  {
    UnfiredSet(s.replyers, i, s.replyers[i].(fired := true, replied := p.Replying?));
    FireForgetsNone(s.pc, s.replyers, t, i, p);
    WorkingSet(s.pc, t, p);
    OwnersFire(s.pc, s.replyers, t, i, p);
  }

  lemma RespondKeepsInv(s: State, t: nat)
    requires Inv(s) && Enabled(s, Respond(t))
    ensures Inv(Do(s, Respond(t)))
  {
    var i := s.pc[t].i;
    var r := s.replyers[i];
    var r' := if r.needResp then r.(responses := r.responses + 1) else r;
    assert Do(s, Respond(t)).replyers == s.replyers[i := r'];
    UnfiredSet(s.replyers, i, r');
    WorkingSet(s.pc, t, Counting(i));
    OwnersRespond(s.pc, s.replyers, t, r');
    RespondForgetsNone(s.pc, s.replyers, t, r');
  }

  lemma RequestKeepsInv(s: State, needResp: bool)
    requires Inv(s)
    ensures Inv(Do(s, Request(needResp)))
  {
    assert (s.replyers + [Replyer(needResp, false, false, 0)])[..|s.replyers|] == s.replyers;
  }

  lemma StepKeepsInv(s: State, step: Step)
    requires Inv(s) && Enabled(s, step)
    ensures Inv(Do(s, step))
  {
    match step
    case Request(needResp) => RequestKeepsInv(s, needResp);
    case Reply(t, i) =>
      if !s.replyers[i].fired {
        FireKeepsInv(s, t, i, Replying(i));
      }
    case Drop(t, i) =>
      if !s.replyers[i].fired {
        FireKeepsInv(s, t, i, Counting(i));
      }
    case Respond(t) => RespondKeepsInv(s, t);
    case Count(t) =>
      WorkingSet(s.pc, t, Idle);
      forall j: nat | Replying(j) in s.pc ensures Replying(j) in s.pc[t := Idle] {
        StillInHand(s.pc, t, Idle, Replying(j));
      }
  }

  lemma RunKeepsInv(run: seq<State>, k: nat)
    requires Runs.IsRun(Init, Next, run) && k < |run|
    ensures Inv(run[k])
  {
    forall s | Init(s) ensures Inv(s) { AllIdle(s.pc); }
    forall s, s' | Inv(s) && Next(s, s') ensures Inv(s') {
      var step :| Leads(s, step, s');
      StepKeepsInv(s, step);
    }
    Runs.Invariance(Init, Next, Inv, run, k);
  }

  lemma {:induction false} AllIdle(pc: seq<Pc>)
    requires forall t :: 0 <= t < |pc| ==> pc[t] == Idle
    ensures Working(pc) == 0
  {
    if pc != [] {
      AllIdle(pc[..|pc| - 1]);
    }
  }

  /** Every request causes at most one response, none if it wants none, has not been answered or was
      dropped; and when no reply is in progress, exactly one if it wants one and was replied to, and
      pendingCount is the number of requests not yet answered. */
  lemma RepliesAccounted(run: seq<State>, k: nat)
    requires Runs.IsRun(Init, Next, run) && k < |run|
    ensures var s := run[k];
            && (forall i :: 0 <= i < |s.replyers| ==>
                  s.replyers[i].responses <= 1 &&
                  (s.replyers[i].responses == 1 ==>
                    s.replyers[i].needResp && s.replyers[i].replied && s.replyers[i].fired))
            && s.pendingCount >= Unfired(s.replyers)
            && ((forall t :: 0 <= t < |s.pc| ==> s.pc[t] == Idle) ==>
                  s.pendingCount == Unfired(s.replyers) &&
                  forall i :: 0 <= i < |s.replyers| ==>
                    s.replyers[i].responses == if s.replyers[i].replied && s.replyers[i].needResp then 1 else 0)
  {
    RunKeepsInv(run, k);
    var s := run[k];
    if forall t :: 0 <= t < |s.pc| ==> s.pc[t] == Idle {
      AllIdle(s.pc);
      forall i: nat | i < |s.replyers| ensures s.replyers[i].responses == Due(s.replyers[i]) {
        assert Replying(i) !in s.pc;
      }
    }
  }

  // ------------------------------------------------------------ by the calls that were made

  datatype Fate = Open | Replied | Dropped

  /** What became of request i: the first Reply or Drop for it decides. */
  ghost function FateOf(steps: seq<Step>, i: nat): Fate {
    if steps == [] then Open
    else
      var n := |steps| - 1;
      if FateOf(steps[..n], i) != Open then FateOf(steps[..n], i)
      else if steps[n].Reply? && steps[n].i == i then Replied
      else if steps[n].Drop? && steps[n].i == i then Dropped
      else Open
  }

  /** Which requests came in wanting a response, in order. */
  ghost function Wants(steps: seq<Step>): seq<bool> {
    if steps == [] then []
    else
      var n := |steps| - 1;
      Wants(steps[..n]) + (if steps[n].Request? then [steps[n].needResp] else [])
  }

  ghost function OpenCount(steps: seq<Step>, n: nat): nat {
    if n == 0 then 0 else OpenCount(steps, n - 1) + (if FateOf(steps, n - 1) == Open then 1 else 0)
  }

  /** A replyer is what the calls say. */
  ghost predicate Reflects(r: Replyer, wants: bool, fate: Fate) {
    r.needResp == wants && (r.fired <==> fate != Open) && (r.replied <==> fate == Replied)
  }

  lemma StepReflects(s: State, step: Step, i: nat, wants: bool, fate: Fate, fate': Fate)
    requires Enabled(s, step) && i < |s.replyers| && Reflects(s.replyers[i], wants, fate)
    requires fate' == if fate != Open then fate
                      else if step.Reply? && step.i == i then Replied
                      else if step.Drop? && step.i == i then Dropped else Open
    ensures i < |Do(s, step).replyers| && Reflects(Do(s, step).replyers[i], wants, fate')
  {
  }

  /** No call answers a request before it has come in. */
  lemma {:induction false} NotYetAnswered(run: seq<State>, steps: seq<Step>, i: nat)
    requires Runs.IsHistory(Init, Leads, run, steps) && i >= |run[|steps|].replyers|
    ensures FateOf(steps, i) == Open
  {
    if steps != [] {
      var n := |steps| - 1;
      Runs.HistoryUpTo(Init, Leads, Next, run, steps, n);
      assert Leads(run[n], steps[n], run[n + 1]);
      NotYetAnswered(run[..n + 1], steps[..n], i);
    }
  }

  lemma {:induction false} HistoryReflected(run: seq<State>, steps: seq<Step>)
    requires Runs.IsHistory(Init, Leads, run, steps)
    ensures var rs := run[|steps|].replyers;
            |rs| == |Wants(steps)| &&
            forall i: nat :: i < |rs| ==> Reflects(rs[i], Wants(steps)[i], FateOf(steps, i))
  {
    if steps != [] {
      var n := |steps| - 1;
      var s, s' := run[n], run[n + 1];
      Runs.HistoryUpTo(Init, Leads, Next, run, steps, n);
      HistoryReflected(run[..n + 1], steps[..n]);
      assert Leads(s, steps[n], s');
      forall i: nat | i < |s'.replyers| ensures Reflects(s'.replyers[i], Wants(steps)[i], FateOf(steps, i)) {
        if i < |s.replyers| {
          StepReflects(s, steps[n], i, Wants(steps)[i], FateOf(steps[..n], i), FateOf(steps, i));
        } else {
          NotYetAnswered(run[..n + 1], steps[..n], i);
        }
      }
    }
  }

  lemma {:induction false} UnfiredIsOpen(rs: seq<Replyer>, steps: seq<Step>)
    requires forall i: nat :: i < |rs| ==> (rs[i].fired <==> FateOf(steps, i) != Open)
    ensures Unfired(rs) == OpenCount(steps, |rs|)
  {
    if rs != [] {
      UnfiredIsOpen(rs[..|rs| - 1], steps);
    }
  }

  /** Over every run given with its steps, when no reply is in progress: a request has had one response if it
      came in wanting one and the first call for it was a Reply, and none otherwise; and pendingCount is the
      number of requests for which there was no call yet. */
  lemma AnsweredExactly(run: seq<State>, steps: seq<Step>)
    requires Runs.IsHistory(Init, Leads, run, steps)
    requires forall t :: 0 <= t < |run[|steps|].pc| ==> run[|steps|].pc[t] == Idle
    ensures var s := run[|steps|];
            && |s.replyers| == |Wants(steps)| && s.pendingCount == OpenCount(steps, |Wants(steps)|)
            && forall i: nat :: i < |s.replyers| ==>
                 s.replyers[i].responses == if Wants(steps)[i] && FateOf(steps, i) == Replied then 1 else 0
  {
    Runs.HistoryUpTo(Init, Leads, Next, run, steps, |steps|);
    RepliesAccounted(run, |steps|);
    HistoryReflected(run, steps);
    UnfiredIsOpen(run[|steps|].replyers, steps);
  }
}
