/** socket/sendqueue.go:56-77, 121-157: what can come of a timeout on a ring that is being worked off. */
module RingFate {
  import opened RingRace
  import Runs

  ghost predicate Path(c: seq<State>) {
    |c| > 0 && forall i :: 0 < i < |c| ==> Next(c[i - 1], c[i])
  }

  ghost predicate Reaches(s: State, s': State) {
    exists c :: Path(c) && c[0] == s && c[|c| - 1] == s'
  }

  lemma StaysPut(s: State)
    ensures Reaches(s, s)
  {
    assert Path([s]);
  }

  /** One step further. */
  lemma Further(s: State, s1: State, step: Step)
    requires Reaches(s, s1) && Enabled(s1, step)
    ensures Reaches(s, Do(s1, step))
  {
    var c :| Path(c) && c[0] == s && c[|c| - 1] == s1;
    var c' := c + [Do(s1, step)];
    assert Next(s1, Do(s1, step));
    assert Path(c');
  }

  lemma Joined(s: State, s1: State, s2: State)
    requires Reaches(s, s1) && Reaches(s1, s2)
    ensures Reaches(s, s2)
  {
    var c :| Path(c) && c[0] == s && c[|c| - 1] == s1;
    var d :| Path(d) && d[0] == s1 && d[|d| - 1] == s2;
    var e := c + d[1..];
    forall i | 0 < i < |e| ensures Next(e[i - 1], e[i]) {
      if i < |c| {
        assert e[i - 1] == c[i - 1] && e[i] == c[i];
      } else {
        assert e[i] == d[i - |c| + 1] && e[i - 1] == d[i - |c|];
      }
    }
    assert Path(e);
  }

  /** How much of an untouched ring the broadcaster has still to do. */
  ghost function Left(n: nat, k: nat, b: Broadcaster): nat
    requires k <= n
  {
    13 * (n - k) +
    match b
    case Testing => 12
    case Picking => 11
    case Reading(_) => 10
    case Removing(_, _, r) =>
      (match r.line
       case L68 => 9 case L69 => 8 case L70 => 7 case L71 => 6
       case L72 => 5 case L73 => 4 case L74 => 3 case L75 => 2)
    case Closing(_, _) => 1
    case Done => 0
  }

  /** The broadcaster alone, whatever the waiters have in mind. */
  lemma Alone(s: State, k: nat)
    requires Formed(s) && !s.panicked && !s.b.Done? && Untouched(|s.ws|, s.m, s.b, k)
    ensures var s', k' := BroadcastStep(s), After(|s.ws|, s.b, k);
            && Formed(s') && !s'.panicked && s'.ws == s.ws && Untouched(|s.ws|, s'.m, s'.b, k')
            && Left(|s.ws|, k', s'.b) < Left(|s.ws|, k, s.b)
  {
    BroadcastKeepsUntouched(s, k);
    PointersFit(|s.ws|, BroadcastStep(s).m, BroadcastStep(s).b, After(|s.ws|, s.b, k));
  }

  /** A waiter goes off the ring by having its link cleared. */
  lemma JustCleared(s: State, k: nat, t: nat)
    requires Formed(s) && !s.panicked && !s.b.Done? && Untouched(|s.ws|, s.m, s.b, k) && StillOn(|s.ws|, s.b, k, t)
    requires !StillOn(|s.ws|, BroadcastStep(s).b, After(|s.ws|, s.b, k), t)
    ensures var b := BroadcastStep(s).b; b.Removing? && b.r.line == L74 && After(|s.ws|, s.b, k) == t
  {
    BroadcastKeepsUntouched(s, k);
  }

  /** It comes to clear the link of any waiter still on the ring. */
  lemma {:induction false} ComesToClear(s: State, k: nat, t: nat) returns (s': State)
    requires Formed(s) && !s.panicked && Untouched(|s.ws|, s.m, s.b, k) && StillOn(|s.ws|, s.b, k, t)
    ensures Reaches(s, s') && Formed(s') && !s'.panicked && s'.ws == s.ws && Untouched(|s.ws|, s'.m, s'.b, t)
    ensures s'.b.Removing? && s'.b.r.line == L74
    decreases Left(|s.ws|, k, s.b)
  {
    Alone(s, k);
    var s1, k1 := BroadcastStep(s), After(|s.ws|, s.b, k);
    StaysPut(s);
    Further(s, s, Broadcast);
    assert s1 == Do(s, Broadcast);
    if StillOn(|s.ws|, s1.b, k1, t) {
      s' := ComesToClear(s1, k1, t);
      Joined(s, s1, s');
    } else {
      JustCleared(s, k, t);
      s' := s1;
    }
  }

  ghost predicate CanPanic(s: State) { exists s' :: Reaches(s, s') && s'.panicked }

  /** A waiter that has passed the test of its removal reads a link that is nil by then, and follows it. */
  lemma FollowsNil(s: State, s1: State, t: nat)
    requires Reaches(s, s1) && Formed(s1) && !s1.panicked && 0 < t < |s1.ws| && s1.m.nnext[t] == Nil
    requires s1.ws[t] == Leaving(Removal(t, L69, Nil, Nil))
    ensures CanPanic(s)
  {
    Further(s, s1, Leave(t));
    var s2 := Do(s1, Leave(t));
    assert s2 == s1.(ws := s1.ws[t := Leaving(Removal(t, L70, Nil, Nil))]);
    Further(s, s2, Leave(t));
    var s3 := Do(s2, Leave(t));
    assert s3 == s2.(ws := s2.ws[t := Leaving(Removal(t, L71, Nil, s1.m.pprev[t]))]);
    CrashesAt71(s, s3, t);
  }

  lemma CrashesAt71(s: State, s3: State, t: nat)
    requires Reaches(s, s3) && Formed(s3) && !s3.panicked && 0 < t < |s3.ws| && s3.ws[t].Leaving?
    requires s3.ws[t].r.n == t && s3.ws[t].r.line == L71 && s3.ws[t].r.next == Nil
    ensures CanPanic(s)
  {
    Further(s, s3, Leave(t));
    var r, s4 := s3.ws[t].r, Do(s3, Leave(t));
    if r.prev.To? {
      assert s4 == s3.(m := s3.m.(nnext := s3.m.nnext[r.prev.n := Nil]), ws := s3.ws[t := Leaving(r.(line := L72))]);
      Further(s, s4, Leave(t));
      assert Do(s4, Leave(t)).panicked;
    }
  }

  lemma LeavingCanPanic(s: State, k: nat, t: nat)
    requires CalmAt(s, k) && 0 < t < |s.ws| && s.ws[t].Leaving? && StillOn(|s.ws|, s.b, k, t)
    ensures CanPanic(s)
  {
    CalmIsFormed(s, k);
    ReadOut(|s.ws|, s.m, s.b, k, t);
    StaysPut(s);
    Further(s, s, Leave(t));
    var s1 := Do(s, Leave(t));
    assert s1.m == s.m && s1.b == s.b && s1.ws[t] == Leaving(Removal(t, L69, Nil, Nil));
    var s2 := ComesToClear(s1, k, t);
    Joined(s, s1, s2);
    ReadOut(|s.ws|, s2.m, s2.b, t, t);
    FollowsNil(s, s2, t);
  }

  /** A waiter that may time out, or has, while it is still linked into the ring. */
  ghost predicate Threat(s: State, w: nat) {
    0 < w < |s.ws| && Linked(s, w) && (s.ws[w] == Asleep(true) || s.ws[w].Leaving?)
  }

  lemma ThreatCanPanic(s: State, k: nat, t: nat)
    requires CalmAt(s, k) && Threat(s, t)
    ensures CanPanic(s)
  {
    CalmIsFormed(s, k);
    ReadOut(|s.ws|, s.m, s.b, k, t);
    if s.ws[t].Leaving? {
      LeavingCanPanic(s, k, t);
    } else if v: nat :| 0 < v < |s.ws| && s.ws[v].Leaving? {
      ReadOut(|s.ws|, s.m, s.b, k, v);
      if StillOn(|s.ws|, s.b, k, v) {
        LeavingCanPanic(s, k, v);
      } else {
        LeaverIsGone(s, k, v);
        StartsAndPanics(s, Do(s, Leave(v)), k, t);
      }
    } else {
      StaysPut(s);
      StartsAndPanics(s, s, k, t);
    }
  }

  /** A waiter that finds itself off the ring gives the lock back. */
  lemma LeaverIsGone(s: State, k: nat, v: nat)
    requires CalmAt(s, k) && 0 < v < |s.ws| && s.ws[v].Leaving? && !StillOn(|s.ws|, s.b, k, v)
    ensures Enabled(s, Leave(v)) && Reaches(s, Do(s, Leave(v))) && CalmAt(Do(s, Leave(v)), k)
    ensures var s' := Do(s, Leave(v));
            s' == s.(ws := s.ws[v := Gone(false)]) && forall w :: 0 <= w < |s'.ws| ==> !s'.ws[w].Leaving?
  {
    CalmIsFormed(s, k);
    ReadOut(|s.ws|, s.m, s.b, k, v);
    StaysPut(s);
    Further(s, s, Leave(v));
  }

  lemma StartsAndPanics(s: State, s1: State, k: nat, t: nat)
    requires Reaches(s, s1) && CalmAt(s1, k) && 0 < t < |s1.ws| && s1.ws[t] == Asleep(true)
    requires StillOn(|s1.ws|, s1.b, k, t) && forall w :: 0 <= w < |s1.ws| ==> !s1.ws[w].Leaving?
    ensures CanPanic(s)
  {
    CalmIsFormed(s1, k);
    Further(s, s1, TimeOut(t));
    var s2 := Do(s1, TimeOut(t));
    WaiterIsCalm(s1, TimeOut(t), k);
    LeavingCanPanic(s2, k, t);
    var s3 :| Reaches(s2, s3) && s3.panicked;
    Joined(s, s2, s3);
  }

  /** Calm, and nobody who is still linked can time out. */
  ghost predicate Safe(s: State) { Calm(s) && forall w :: !Threat(s, w) }

  lemma LinkedBefore(s: State, k: nat, step: Step, w: nat)
    requires CalmAt(s, k) && Enabled(s, step) && CalmStep(s, step) && 0 < w < |s.ws| && Linked(Do(s, step), w)
    ensures Linked(s, w)
  {
    if step.Broadcast? {
      BroadcastIsCalm(s, k);
      var s', k' := Do(s, step), After(|s.ws|, s.b, k);
      ReadOut(|s.ws|, s.m, s.b, k, w);
      ReadOut(|s.ws|, s'.m, s'.b, k', w);
      if !StillOn(|s.ws|, s.b, k, w) {
        StaysOff(|s.ws|, s.b, s'.b, k, k', w);
      }
    }
  }

  lemma SafeStepKeeps(s: State, step: Step)
    requires Safe(s) && Enabled(s, step)
    ensures Safe(Do(s, step))
  {
    var k :| CalmAt(s, k);
    assert CalmStep(s, step) by {
      if step.Leave? {
        assert !Threat(s, step.w);
      }
    }
    CalmStepKeeps(s, step);
    forall w: nat ensures !Threat(Do(s, step), w) {
      assert !Threat(s, w);
      if 0 < w < |s.ws| && Linked(Do(s, step), w) {
        LinkedBefore(s, k, step, w);
      }
    }
  }

  lemma {:induction false} SafePath(c: seq<State>, i: nat)
    requires Path(c) && Safe(c[0]) && i < |c|
    ensures Safe(c[i])
  {
    if i > 0 {
      SafePath(c, i - 1);
      assert Next(c[i - 1], c[i]);
      var step :| Enabled(c[i - 1], step) && c[i] == Do(c[i - 1], step);
      SafeStepKeeps(c[i - 1], step);
    }
  }

  /** As long as no waiter has got past the test of its own removal: a panic is possible from here if and
      only if a waiter that can time out, or has timed out, is still linked into the ring. */
  lemma PanicsExactly(run: seq<State>, i: nat)
    requires Runs.IsRun(Init, CalmNext, run) && i < |run|
    ensures CanPanic(run[i]) <==> exists w :: Threat(run[i], w)
  {
    CalmRunIsCalm(run, i);
    var s := run[i];
    var k :| CalmAt(s, k);
    if w :| Threat(s, w) {
      ThreatCanPanic(s, k, w);
    } else {
      forall s' | Reaches(s, s') ensures !s'.panicked {
        var c :| Path(c) && c[0] == s && c[|c| - 1] == s';
        SafePath(c, |c| - 1);
      }
    }
  }

  /** And if none is, nobody is ever stranded: whatever happens, when the broadcaster is done every channel
      has been closed. */
  lemma NobodyStrandedWithout(run: seq<State>, i: nat, s': State)
    requires Runs.IsRun(Init, CalmNext, run) && i < |run| && (forall w :: !Threat(run[i], w)) && Reaches(run[i], s')
    ensures !s'.panicked && (s'.b.Done? ==> ClosedUpTo(s', |s'.ws|))
  {
    CalmRunIsCalm(run, i);
    var c :| Path(c) && c[0] == run[i] && c[|c| - 1] == s';
    SafePath(c, |c| - 1);
    var k :| CalmAt(s', k);
    PointersFit(|s'.ws|, s'.m, s'.b, k);
  }

  // ------------------------------------------------------------ who can be stranded

  /** The broadcaster is done and waiter w sleeps on a channel nobody has closed. */
  ghost predicate Stranded(s: State, w: nat) {
    s.b.Done? && !s.panicked && 0 < w < |s.ws| == |s.m.closed| && s.ws[w].Asleep? && !s.m.closed[w]
  }

  /** Without a timeout of its own, that is for good. */
  lemma {:induction false} StrandedForGood(c: seq<State>, w: nat, i: nat)
    requires Path(c) && Stranded(c[0], w) && c[0].ws[w] == Asleep(false) && i < |c|
    ensures c[i].b.Done? && |c[i].ws| == |c[0].ws| && c[i].ws[w] == Asleep(false)
    ensures |c[i].m.closed| == |c[0].ws| && !c[i].m.closed[w]
  {
    if i > 0 {
      StrandedForGood(c, w, i - 1);
      assert Next(c[i - 1], c[i]);
      var step :| Enabled(c[i - 1], step) && c[i] == Do(c[i - 1], step);
      if step.Leave? {
        RemovalClosesNothing(c[i - 1].m, c[i - 1].ws[step.w].r, |c[i - 1].ws|);
      }
    }
  }

  /** One line of a waiter's removal that does not end it. */
  lemma LeavesOn(s: State, s1: State, t: nat) returns (s': State)
    requires Reaches(s, s1) && Enabled(s1, Leave(t)) && RemoveStep(s1.m, s1.ws[t].r, |s1.ws|).1.Going?
    ensures Reaches(s, s') && Formed(s')
    ensures var (m, o) := RemoveStep(s1.m, s1.ws[t].r, |s1.ws|);
            s' == s1.(m := m, ws := s1.ws[t := Leaving(o.r)])
  {
    RemovalStaysFitting(s1.m, s1.ws[t].r, |s1.ws|);
    Further(s, s1, Leave(t));
    s' := Do(s1, Leave(t));
  }

  /** What taking a waiter off between p and x does to the nodes, whatever else is wrong with them. */
  ghost function Cut(m: Mem, f: nat, x: nat, p: nat, n: nat): (m': Mem)
    requires Sized(m, n) && f < n && x < n && p < n
    ensures Sized(m', n)
  {
    Mem(m.nnext[p := To(x)][f := Nil], m.pprev[x := To(p)][f := Nil], m.ch[f := false], m.closed)
  }

  /** The test of a waiter that has its links succeeds, and it reads them. */
  lemma ReadsLinks(s: State, s1: State, t: nat) returns (s': State)
    requires Reaches(s, s1) && Formed(s1) && !s1.panicked && 0 < t < |s1.ws| && s1.ws[t] == Leaving(Begin(t))
    requires s1.m.nnext[t] != Nil && s1.m.pprev[t] != Nil && s1.m.nnext[t] != To(t) && s1.m.pprev[t] != To(t)
    ensures Reaches(s, s') && Formed(s')
    ensures s' == s1.(ws := s1.ws[t := Leaving(Removal(t, L71, s1.m.nnext[t], s1.m.pprev[t]))])
  {
    var s2 := LeavesOn(s, s1, t);
    var s3 := LeavesOn(s, s2, t);
    s' := LeavesOn(s, s3, t);
    assert s'.ws == s1.ws[t := Leaving(Removal(t, L71, s1.m.nnext[t], s1.m.pprev[t]))];
  }

  lemma WritesLinks(s: State, s1: State, t: nat, x: nat, p: nat) returns (s': State)
    requires Reaches(s, s1) && Formed(s1) && !s1.panicked && 0 < t < |s1.ws|
    requires s1.ws[t] == Leaving(Removal(t, L71, To(x), To(p)))
    ensures Reaches(s, s') && Formed(s')
    ensures s' == s1.(m := s1.m.(nnext := s1.m.nnext[p := To(x)], pprev := s1.m.pprev[x := To(p)]),
                      ws := s1.ws[t := Leaving(Removal(t, L73, To(x), To(p)))])
  {
    s' := LeavesOn(s, s1, t);
    s' := LeavesOn(s, s', t);
    assert s'.ws == s1.ws[t := Leaving(Removal(t, L73, To(x), To(p)))];
  }

  lemma LeavesLinks(s: State, s1: State, t: nat, x: nat, p: nat) returns (s': State)
    requires Reaches(s, s1) && Formed(s1) && !s1.panicked && 0 < t < |s1.ws|
    requires s1.ws[t] == Leaving(Removal(t, L71, To(x), To(p)))
    ensures Reaches(s, s') && Formed(s') && s'.m == Cut(s1.m, t, x, p, |s1.ws|).(ch := s1.m.ch)
    ensures s' == s1.(m := s'.m, ws := s1.ws[t := Leaving(Removal(t, L75, To(x), To(p)))])
  {
    s' := WritesLinks(s, s1, t, x, p);
    s' := LeavesOn(s, s', t);
    s' := LeavesOn(s, s', t);
    assert s'.ws == s1.ws[t := Leaving(Removal(t, L75, To(x), To(p)))];
  }

  /** A waiter that has its links takes itself off, all of it at once. */
  lemma LeavesAtOnce(s: State, s1: State, t: nat, x: nat, p: nat) returns (s': State)
    requires Reaches(s, s1) && Formed(s1) && !s1.panicked && 0 < t < |s1.ws| && s1.ws[t] == Leaving(Begin(t))
    requires s1.m.nnext[t] == To(x) && s1.m.pprev[t] == To(p) && x != t && p != t
    ensures Reaches(s, s') && Formed(s') && x < |s1.ws| && p < |s1.ws|
    ensures s' == s1.(m := Cut(s1.m, t, x, p, |s1.ws|), ws := s1.ws[t := Gone(false)])
  {
    var s2 := ReadsLinks(s, s1, t);
    s2 := LeavesLinks(s, s2, t, x, p);
    Further(s, s2, Leave(t));
    s' := Do(s2, Leave(t));
    assert s'.ws == s1.ws[t := Gone(false)];
  }

  /** The broadcaster picks the waiter the head points to. */
  lemma PicksFirst(s: State, s1: State, f: nat)
    requires Reaches(s, s1) && Formed(s1) && !s1.panicked && s1.b == Testing && s1.m.nnext[0] == To(f) && f != 0
    ensures f < |s1.ws| && Reaches(s, s1.(b := Reading(f)))
  {
    Further(s, s1, Broadcast);
    var s2 := Do(s1, Broadcast);
    assert s2 == s1.(b := Picking);
    Further(s, s2, Broadcast);
  }

  /** A first waiter without links and without a channel is taken for the end. */
  lemma EndsTheLoop(s: State, s1: State, f: nat)
    requires Reaches(s, s1) && Formed(s1) && !s1.panicked && s1.b == Reading(f) && s1.m.nnext[f] == Nil && !s1.m.ch[f]
    ensures Reaches(s, s1.(b := Done))
  {
    Further(s, s1, Broadcast);
    var s2 := Do(s1, Broadcast);
    assert s2 == s1.(b := Removing(f, false, Begin(f)));
    Further(s, s2, Broadcast);
    var s3 := Do(s2, Broadcast);
    assert s3 == s1.(b := Closing(f, false));
    Further(s, s3, Broadcast);
  }

  /** It comes to the test in front of any waiter it has not come to yet. */
  lemma {:induction false} ComesToTest(s: State, k: nat, t: nat) returns (s': State)
    requires Formed(s) && !s.panicked && Untouched(|s.ws|, s.m, s.b, k) && k < t < |s.ws|
    ensures Reaches(s, s') && Formed(s') && !s'.panicked && s'.ws == s.ws
    ensures s'.b == Testing && s'.m == Ring(|s.ws|, t)
    decreases Left(|s.ws|, k, s.b)
  {
    Alone(s, k);
    var s1, k1 := BroadcastStep(s), After(|s.ws|, s.b, k);
    StaysPut(s);
    Further(s, s, Broadcast);
    assert s1 == Do(s, Broadcast);
    if k1 == t {
      s' := s1;
    } else {
      s' := ComesToTest(s1, k1, t);
      Joined(s, s1, s');
    }
  }

  ghost predicate CanStrand(s: State, w: nat) { exists s' :: Reaches(s, s') && Stranded(s', w) }

  /** The wait of t may time out now, or has done so and t holds the lock. */
  ghost predicate MayStart(s: State, t: nat) {
    0 < t < |s.ws| &&
    (s.ws[t] == Leaving(Begin(t)) || (s.ws[t] == Asleep(true) && forall v :: 0 <= v < |s.ws| ==> !s.ws[v].Leaving?))
  }

  /** Its wait times out, unless it has already. */
  lemma Starts(s: State, s1: State, t: nat) returns (s2: State)
    requires Reaches(s, s1) && Formed(s1) && !s1.panicked && MayStart(s1, t)
    ensures Reaches(s, s2) && Formed(s2) && s2 == s1.(ws := s1.ws[t := Leaving(Begin(t))])
  {
    if s1.ws[t].Leaving? {
      s2 := s1;
      assert s1.ws[t := Leaving(Begin(t))] == s1.ws;
    } else {
      Further(s, s1, TimeOut(t));
      s2 := Do(s1, TimeOut(t));
    }
  }

  /** The test of a waiter still on the ring succeeds, and it reads its links. */
  lemma ReadsItsLinks(s: State, s1: State, k: nat, t: nat) returns (s': State)
    requires Reaches(s, s1) && Formed(s1) && !s1.panicked && Untouched(|s1.ws|, s1.m, s1.b, k) && 0 < t < |s1.ws|
    requires StillOn(|s1.ws|, s1.b, k, t) && s1.ws[t] == Leaving(Begin(t))
    ensures Reaches(s, s') && Formed(s')
    ensures s' == s1.(ws := s1.ws[t := Leaving(Removal(t, L71, s1.m.nnext[t], s1.m.pprev[t]))])
  {
    ReadOut(|s1.ws|, s1.m, s1.b, k, t);
    s' := ReadsLinks(s, s1, t);
  }
}
