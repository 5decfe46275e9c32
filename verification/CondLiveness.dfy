/** socket/sendqueue.go:97-282: operations that have begun come to an end.  A measure over the program
    points of CondQueue descends with every step that is not a new call, timeouts included. */
module CondLiveness {
  import opened Sequences
  import opened CondQueue
  import opened CondInvariant
  import opened Sums
  import Runs

  /** Calls not yet returned from their wait. */
  ghost function Blocked(p: Pc): nat { if p.Asleep? || p.Woken? then 1 else 0 }

  /** Notifications not yet begun. */
  ghost function Notices(p: Pc): nat {
    match p
    case Signalling => 1
    case Broadcasting(c) => if c.NotEmpty? then 3 else 1
    case Notifying(_, _, closing, _) => if closing then 2 else 0
    case _ => 0
  }

  /** Waiters in hand. */
  ghost function Work(p: Pc): nat { if p.Notifying? then |p.rest| + 1 else 0 }

  /** How a wait may still change by itself: woken in vain, it sleeps again; asleep, it may time out. */
  ghost function Waits(p: Pc): nat { if p.Woken? && p.ok then 2 else if p.Asleep? then 1 else 0 }

  ghost predicate Lower(p': Pc, p: Pc) {
    || Blocked(p') < Blocked(p)
    || (Blocked(p') == Blocked(p) &&
        (Notices(p') < Notices(p) ||
         (Notices(p') == Notices(p) && (Work(p') < Work(p) || (Work(p') == Work(p) && Waits(p') < Waits(p))))))
  }

  ghost predicate Below(pc': seq<Pc>, pc: seq<Pc>) {
    || Sum(pc', Blocked) < Sum(pc, Blocked)
    || (Sum(pc', Blocked) == Sum(pc, Blocked) &&
        (Sum(pc', Notices) < Sum(pc, Notices) ||
         (Sum(pc', Notices) == Sum(pc, Notices) &&
          (Sum(pc', Work) < Sum(pc, Work) || (Sum(pc', Work) == Sum(pc, Work) && Sum(pc', Waits) < Sum(pc, Waits))))))
  }

  lemma OneDescends(pc: seq<Pc>, t: nat, p: Pc)
    requires t < |pc| && Lower(p, pc[t])
    ensures Below(pc[t := p], pc)
  {
    SumSet(pc, t, p, Blocked);
    SumSet(pc, t, p, Notices);
    SumSet(pc, t, p, Work);
    SumSet(pc, t, p, Waits);
  }

  /** Where a sleeper is does not matter. */
  lemma ClaimDescends(pc: seq<Pc>, ids: seq<nat>, at: Place, t: nat, q: Pc)
    requires t < |pc| && !pc[t].Asleep? && Lower(q, pc[t])
    ensures Below(Claim(pc, ids, at)[t := q], pc)
  {
    var pc1 := Claim(pc, ids, at);
    SumSame(pc, pc1, Blocked);
    SumSame(pc, pc1, Notices);
    SumSame(pc, pc1, Work);
    SumSame(pc, pc1, Waits);
    OneDescends(pc1, t, q);
  }

  /** A sleeper x leaves the hands of u, by waking up or by giving up. */
  lemma LetGoDescends(pc: seq<Pc>, x: nat, p: Pc, u: nat, q: Pc)
    requires x < |pc| && u < |pc| && x != u && pc[x].Asleep? && p.Woken? && pc[u].Notifying? && q.Notifying?
    requires q.closing == pc[u].closing && (Work(q) < Work(pc[u]) || (Work(q) == Work(pc[u]) && !p.ok))
    ensures Below(pc[x := p][u := q], pc)
  {
    LetGoSums(pc, x, p, u, q, Blocked);
    LetGoSums(pc, x, p, u, q, Notices);
    LetGoSums(pc, x, p, u, q, Work);
    LetGoSums(pc, x, p, u, q, Waits);
  }

  lemma LetGoSums(pc: seq<Pc>, x: nat, p: Pc, u: nat, q: Pc, f: Pc -> nat)
    requires x < |pc| && u < |pc| && x != u
    ensures Sum(pc[x := p][u := q], f) == Sum(pc, f) + f(p) - f(pc[x]) + f(q) - f(pc[u])
  {
    SumSet(pc, x, p, f);
    SumSet(pc[x := p], u, q, f);
  }

  lemma {:induction false} WithoutLength(s: seq<nat>, x: nat)
    ensures |Without(s, x)| == if x in s then |s| - 1 else |s|
  {
    if s != [] && s[0] != x {
      WithoutLength(s[1..], x);
    }
  }

  lemma ResumeDescends(s: State, t: nat, op: Op)
    requires Inv(s) && Enabled(s, t, op) && (op.AddResume? || op.GetResume?)
    ensures Below(Do(s, t, op).pc, s.pc)
  {
    var s' := Do(s, t, op);
    assert Steady(s.pc[t]);
    assert s'.pc == s.pc[t := s'.pc[t]];
    OneDescends(s.pc, t, s'.pc[t]);
  }

  lemma WakeDescends(s: State, t: nat, op: Op)
    requires Inv(s) && Enabled(s, t, op) && (op.NotifyOne? || op.StrayWake?)
    ensures Below(Do(s, t, op).pc, s.pc)
  {
    var p, s' := s.pc[t], Do(s, t, op);
    var x: nat := if op.NotifyOne? then p.rest[0] else op.x;
    assert x in p.rest;
    WithoutLength(p.rest, x);
    InHands(s, t, x);
    LetGoDescends(s.pc, x, s'.pc[x], t, s'.pc[t]);
  }

  lemma TimeoutDescends(s: State, t: nat)
    requires Inv(s) && Enabled(s, t, Timeout)
    ensures Below(Do(s, t, Timeout).pc, s.pc)
  {
    var p, s' := s.pc[t], Do(s, t, Timeout);
    if p.at.With? {
      HandOfSleeper(s, t);
      var u := p.at.u;
      WithoutLength(s.pc[u].rest, t);
      LetGoDescends(s.pc, t, s'.pc[t], u, s'.pc[u]);
    } else {
      OneDescends(s.pc, t, s'.pc[t]);
    }
  }

  lemma TakeDescends(s: State, t: nat, op: Op)
    requires Inv(s) && Enabled(s, t, op) && (op.SignalTake? || op.BroadcastTake?)
    ensures Below(Do(s, t, op).pc, s.pc)
  {
    var s' := Do(s, t, op);
    if op.BroadcastTake? {
      var list := On(s.g, s.pc[t].c).list;
      ClaimDescends(s.pc, list[..|list|], With(t), t, s'.pc[t]);
    } else if s.g.notEmpty.list == [] {
      OneDescends(s.pc, t, Idle);
    } else {
      ClaimDescends(s.pc, s.g.notEmpty.list[..1], With(t), t, s'.pc[t]);
    }
  }

  /** Not a new call, and not a panic. */
  ghost predicate Internal(op: Op) {
    !(op.Add? || op.AddWithTimeout? || op.Get? || op.Close? || op.SetFullSize? || op.StrayPanic?)
  }

  lemma InternalStepDescends(s: State, t: nat, op: Op)
    requires Inv(s) && Enabled(s, t, op) && Internal(op)
    ensures Below(Do(s, t, op).pc, s.pc)
  {
    match op
    case AddResume => ResumeDescends(s, t, op);
    case GetResume => ResumeDescends(s, t, op);
    case Timeout => TimeoutDescends(s, t);
    case SignalTake => TakeDescends(s, t, op);
    case BroadcastTake => TakeDescends(s, t, op);
    case NotifyOne => WakeDescends(s, t, op);
    case StrayWake(_) => WakeDescends(s, t, op);
    case StrayEnd => ClaimDescends(s.pc, s.pc[t].rest, Stranded, t, s.pc[t].(rest := []));
    case LateTimeout => OneDescends(s.pc, t, s.pc[t].(ok := false));
    case NotifyDone => OneDescends(s.pc, t, Do(s, t, NotifyDone).pc[t]);
  }

  ghost predicate InternalNext(s: State, s': State) {
    exists t: nat, op :: Internal(op) && Enabled(s, t, op) && s' == Do(s, t, op)
  }

  /** What a thread in the middle of an operation may do next. */
  ghost function OwnOp(p: Pc): Op
    requires !p.Idle? && !p.Asleep?
  {
    match p
    case Woken(c, _, _) => if c.NotEmpty? then GetResume else AddResume
    case Signalling => SignalTake
    case Broadcasting(_) => BroadcastTake
    case Notifying(_, rest, _, shaky) => if rest == [] then NotifyDone else if shaky then StrayEnd else NotifyOne
  }

  lemma OwnOpIsPossible(s: State, t: nat)
    requires Inv(s) && !s.g.panicked && t < |s.pc| && !s.pc[t].Idle? && !s.pc[t].Asleep?
    ensures Internal(OwnOp(s.pc[t])) && Enabled(s, t, OwnOp(s.pc[t]))
  {
    var p := s.pc[t];
    if p.Notifying? && p.rest != [] {
      InHands(s, t, p.rest[0]);
    }
  }

  /** Such a step exists in every reachable state that is not settled. */
  lemma CanFinish(s: State)
    requires Inv(s) && !s.g.panicked && !Settled(s)
    ensures exists s' :: InternalNext(s, s')
  {
    var t: nat :| t < |s.pc| && !s.pc[t].Idle? && !s.pc[t].Asleep?;
    OwnOpIsPossible(s, t);
    assert InternalNext(s, Do(s, t, OwnOp(s.pc[t])));
  }

  /** A schedule of steps that are neither new calls nor panics, and stops only when settled. */
  ghost predicate Finishing(f: nat -> State) {
    forall i: nat :: Settled(f(i)) || InternalNext(f(i), f(i + 1))
  }

  lemma {:induction false} FinishingDescends(f: nat -> State, i: nat) returns (k: nat)
    requires Finishing(f) && Inv(f(i))
    ensures Inv(f(k)) && Settled(f(k))
    decreases Sum(f(i).pc, Blocked), Sum(f(i).pc, Notices), Sum(f(i).pc, Work), Sum(f(i).pc, Waits)
  {
    if Settled(f(i)) {
      k := i;
    } else {
      assert InternalNext(f(i), f(i + 1));
      var t: nat, op :| Internal(op) && Enabled(f(i), t, op) && f(i + 1) == Do(f(i), t, op);
      StepKeepsInv(f(i), t, op);
      InternalStepDescends(f(i), t, op);
      k := FinishingDescends(f, i + 1);
    }
  }

  /** From every reachable state, every schedule without new calls settles or panics, whatever timeouts
      strike and whatever becomes of a shaky ring; and once settled the only sleepers are getters of an
      open empty queue, adders to an open full one, and the stranded. */
  lemma NobodyElseLeftBehind(run: seq<State>, f: nat -> State) returns (k: nat)
    requires Runs.IsRun(Init, Next, run) && f(0) == run[|run| - 1] && Finishing(f)
    ensures Settled(f(k))
    ensures forall x :: 0 <= x < |f(k).pc| && f(k).pc[x].Asleep? && !f(k).pc[x].at.Stranded? ==>
              !f(k).g.closed && if f(k).pc[x].c.NotEmpty? then f(k).g.len == 0 else f(k).g.len >= f(k).g.fullSize
  {
    RunKeepsInv(run, |run| - 1);
    k := FinishingDescends(f, 0);
    forall x | 0 <= x < |f(k).pc| && f(k).pc[x].Asleep? && !f(k).pc[x].at.Stranded?
      ensures !f(k).g.closed && if f(k).pc[x].c.NotEmpty? then f(k).g.len == 0 else f(k).g.len >= f(k).g.fullSize
    {
      SettledIsRight(f(k), x);
    }
  }
}
