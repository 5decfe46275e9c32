/** socket/sendqueue.go:56-77, 121-157: exactly which waiters of a ring that is being worked off can be left
    asleep for good. */
module RingStranding {
  import opened RingRace
  import opened RingFate
  import opened RingFront
  import Runs

  /** Waiter t is a danger to w: it is in front of w and can take itself off; and if it is being popped, there
      is another waiter between them. */
  ghost predicate Exposes(s: State, t: nat, w: nat) {
    Threat(s, t) && t < w && (s.b.Removing? && s.b.f == t ==> t + 1 < w)
  }

  // ------------------------------------------------------------ without danger nobody is stranded

  lemma CalmIsFar(s: State, k: nat, w: nat)
    requires CalmAt(s, k) && 0 < w < |s.ws| && k <= w
    requires k == w ==> Coming(s.b)
    ensures Far(s, w)
  {
  }

  lemma StartsApproached(s: State, k: nat, w: nat)
    requires CalmAt(s, k) && 0 < w < |s.ws| && (k < w || (k == w && Coming(s.b)))
    requires forall t :: 0 < t < w ==> !Threat(s, t)
    ensures Approached(s, w)
  {
    CalmIsFormed(s, k);
    CalmIsFar(s, k, w);
    forall v: nat | 0 < v < w && (s.ws[v].Leaving? || s.ws[v] == Asleep(true))
      ensures !StillOn(|s.ws|, s.b, k, v)
    {
      assert !Threat(s, v);
      ReadOut(|s.ws|, s.m, s.b, k, v);
    }
    assert ApproachedAt(s, s.m, k, w);
  }

  lemma StartsPassing(s: State, k: nat)
    requires CalmAt(s, k) && k + 1 < |s.ws| && s.b.Removing? && StillOn(|s.ws|, s.b, k, k)
    ensures Passing(s, k + 1)
  {
    CalmIsFar(s, k, k + 1);
  }

  lemma StartsSaved(s: State, w: nat)
    requires Calm(s) && 0 < w < |s.ws| && forall t :: !Exposes(s, t, w)
    ensures Saved(s, w)
  {
    var k: nat :| CalmAt(s, k);
    ReadOut(|s.ws|, s.m, s.b, k, w);
    if k < w || (k == w && Coming(s.b)) {
      if t: nat :| 0 < t < w && Threat(s, t) {
        assert !Exposes(s, t, w);
        ReadOut(|s.ws|, s.m, s.b, k, t);
        StartsPassing(s, k);
      } else {
        StartsApproached(s, k, w);
      }
    }
  }

  lemma {:induction false} SavedPath(c: seq<State>, w: nat, i: nat)
    requires Path(c) && Saved(c[0], w) && i < |c|
    ensures Saved(c[i], w)
  {
    if i > 0 {
      SavedPath(c, w, i - 1);
      assert Next(c[i - 1], c[i]);
      var step :| Enabled(c[i - 1], step) && c[i] == Do(c[i - 1], step);
      SavedStep(c[i - 1], step, w);
    }
  }

  lemma NotStranded(s: State, w: nat)
    requires Calm(s) && 0 < w < |s.ws| && forall t :: !Exposes(s, t, w)
    ensures !CanStrand(s, w)
  {
    StartsSaved(s, w);
    forall s' | Reaches(s, s') ensures !Stranded(s', w) {
      var c :| Path(c) && c[0] == s && c[|c| - 1] == s';
      SavedPath(c, w, |c| - 1);
    }
  }

  // ------------------------------------------------------------ with it, w can be

  lemma FrontDescends(s: State, m0: Mem, k: nat, w: nat) returns (m1: Mem)
    requires Formed(s) && !s.panicked && Front(|s.ws|, s.m, s.b, m0, k, w) && k < w
    ensures Enabled(s, Broadcast)
    ensures var s', k' := Do(s, Broadcast), After(|s.ws|, s.b, k);
            && Formed(s') && !s'.panicked && s'.ws == s.ws && Front(|s.ws|, s'.m, s'.b, m1, k', w)
            && Left(|s.ws|, k', s'.b) < Left(|s.ws|, k, s.b) && (k' > k ==> s'.b == Testing)
  {
    m1 := FrontStep(s, m0, k, w);
    BroadcastStaysFormed(s);
    Alone(s.(m := m0), k);
  }

  /** The broadcaster comes to the test in front of a waiter up to w, whatever the ring is like behind w. */
  lemma {:induction false} ComesUpTo(s: State, m0: Mem, k: nat, t: nat, w: nat) returns (s': State)
    requires Formed(s) && !s.panicked && Front(|s.ws|, s.m, s.b, m0, k, w) && k < t <= w
    ensures Reaches(s, s') && Formed(s') && !s'.panicked && s'.ws == s.ws
    ensures s'.b == Testing && Agree(s'.m, Ring(|s.ws|, t), |s.ws|, w)
    decreases Left(|s.ws|, k, s.b)
  {
    var m1 := FrontDescends(s, m0, k, w);
    var s1, k1 := Do(s, Broadcast), After(|s.ws|, s.b, k);
    StaysPut(s);
    Further(s, s, Broadcast);
    if k1 == t {
      s' := s1;
    } else {
      s' := ComesUpTo(s1, m1, k1, t, w);
      Joined(s, s1, s');
    }
  }

  /** And on to where it reads the channel. */
  lemma ComesToRead(s: State, s1: State, m0: Mem, k: nat, t: nat, w: nat) returns (s': State)
    requires Reaches(s, s1) && Formed(s1) && !s1.panicked && Front(|s1.ws|, s1.m, s1.b, m0, k, w)
    requires t <= w && (k < t || (k == t && Coming(s1.b)))
    ensures Reaches(s, s') && Formed(s') && !s'.panicked && s'.ws == s1.ws
    ensures s'.b == Reading(t) && Agree(s'.m, Ring(|s1.ws|, t), |s1.ws|, w)
  {
    s' := s1;
    if k < t {
      s' := ComesUpTo(s1, m0, k, t, w);
      Joined(s, s1, s');
    }
    if s'.b.Testing? {
      PicksFirst(s, s', t);
      s' := s'.(b := Reading(t));
    } else if s'.b.Picking? {
      Further(s, s', Broadcast);
      s' := Do(s', Broadcast);
    }
  }

  /** A waiter whose channel has not been read times out just before it is. */
  lemma StrandsBeforeRead(s: State, s1: State, m0: Mem, k: nat, t: nat, w: nat)
    requires Reaches(s, s1) && Formed(s1) && !s1.panicked && Front(|s1.ws|, s1.m, s1.b, m0, k, w)
    requires 0 < t < w && (k < t || (k == t && Coming(s1.b))) && MayStart(s1, t) && s1.ws[w].Asleep?
    ensures CanStrand(s, w)
  {
    var s2 := ComesToRead(s, s1, m0, k, t, w);
    var s3 := Starts(s, s2, t);
    var s4 := LeavesAtOnce(s, s3, t, t + 1, 0);
    EndsTheLoop(s, s4, t);
    assert Stranded(s4.(b := Done), w);
  }

  /** The first link is written when the next waiter has been popped as well. */
  lemma LinksTooLate(s: State, s3: State, t: nat, w: nat)
    requires Reaches(s, s3) && Formed(s3) && !s3.panicked && 0 < t && t + 1 < w < |s3.ws| && s3.ws[w].Asleep?
    requires s3.b == Testing && s3.m.nnext[t + 1] == Nil && !s3.m.ch[t + 1] && !s3.m.closed[w]
    requires s3.ws[t] == Leaving(Removal(t, L71, To(t + 1), To(0)))
    ensures CanStrand(s, w)
  {
    var s4 := LeavesOn(s, s3, t);
    PicksFirst(s, s4, t + 1);
    var s5 := s4.(b := Reading(t + 1));
    EndsTheLoop(s, s5, t + 1);
    assert Stranded(s5.(b := Done), w);
  }

  /** A waiter that is being popped reads its links in time. */
  lemma StrandsWhilePopped(s: State, s1: State, m0: Mem, k: nat, w: nat)
    requires Reaches(s, s1) && Formed(s1) && !s1.panicked && Front(|s1.ws|, s1.m, s1.b, m0, k, w)
    requires s1.b.Removing? && StillOn(|s1.ws|, s1.b, k, k) && k + 1 < w && MayStart(s1, k) && s1.ws[w].Asleep?
    ensures CanStrand(s, w)
  {
    var s2 := Starts(s, s1, k);
    FirstLinks(|s1.ws|, m0, s1.b, k);
    var s3 := ReadsLinks(s, s2, k);
    var s4 := ComesUpTo(s3, m0, k, k + 2, w);
    Joined(s, s3, s4);
    LinksTooLate(s, s4, k, w);
  }

  lemma FirstLinks(n: nat, m: Mem, b: Broadcaster, k: nat)
    requires Untouched(n, m, b, k) && StillOn(n, b, k, k)
    ensures Sized(m, n) && m.nnext[k] == NextOf(k, n) && m.pprev[k] == To(0)
  {
  }

  /** Once the lock is free. */
  lemma StrandsOnceFree(s: State, s1: State, m0: Mem, k: nat, t: nat, w: nat)
    requires Reaches(s, s1) && Formed(s1) && !s1.panicked
    requires Untouched(|s1.ws|, m0, s1.b, k) && StillOn(|s1.ws|, s1.b, k, t)
    requires 0 < t < w && Agree(s1.m, m0, |s1.ws|, w) && MayStart(s1, t) && s1.ws[w].Asleep?
    requires s1.b.Removing? && s1.b.f == t ==> t + 1 < w
    ensures CanStrand(s, w)
  {
    if s1.b.Removing? && s1.b.f == t {
      StrandsWhilePopped(s, s1, m0, k, w);
    } else {
      StrandsBeforeRead(s, s1, m0, k, t, w);
    }
  }

  /** A waiter behind w that holds the lock takes itself off, which leaves the front as it is. */
  lemma FreesTheLock(s: State, k: nat, v: nat, w: nat) returns (s1: State)
    requires CalmAt(s, k) && 0 < w < v < |s.ws| && s.ws[v].Leaving? && k <= w && (k == w ==> Coming(s.b))
    ensures Reaches(s, s1) && Formed(s1) && !s1.panicked && s1.b == s.b && s1.ws == s.ws[v := Gone(false)]
    ensures Agree(s1.m, s.m, |s.ws|, w)
  {
    CalmIsFormed(s, k);
    StaysPut(s);
    ReadOut(|s.ws|, s.m, s.b, k, v);
    CalmIsFar(s, k, w);
    s1 := LeavesAtOnce(s, s, v, s.m.nnext[v].n, s.m.pprev[v].n);
  }

  lemma StrandsAfterReturn(s: State, k: nat, t: nat, v: nat, w: nat)
    requires CalmAt(s, k) && w < |s.ws| && s.ws[w].Asleep? && 0 < t < w && s.ws[t] == Asleep(true)
    requires StillOn(|s.ws|, s.b, k, t) && (s.b.Removing? && s.b.f == t ==> t + 1 < w)
    requires 0 < v < |s.ws| && s.ws[v].Leaving? && !StillOn(|s.ws|, s.b, k, v)
    ensures CanStrand(s, w)
  {
    LeaverIsGone(s, k, v);
    var s1 := Do(s, Leave(v));
    CalmIsFormed(s1, k);
    StrandsOnceFree(s, s1, s.m, k, t, w);
  }

  lemma StrandsAfterRemoval(s: State, k: nat, t: nat, v: nat, w: nat)
    requires CalmAt(s, k) && 0 < t < w < v < |s.ws| && s.ws[t] == Asleep(true)
    requires s.ws[w].Asleep? && s.ws[v].Leaving?
    requires StillOn(|s.ws|, s.b, k, t) && (s.b.Removing? && s.b.f == t ==> t + 1 < w)
    ensures CanStrand(s, w)
  {
    var s1 := FreesTheLock(s, k, v, w);
    StrandsOnceFree(s, s1, s.m, k, t, w);
  }

  /** Another waiter holds the lock: it finds itself off the ring, or is behind w, or is a danger itself. */
  lemma StrandsAfterHolder(s: State, k: nat, t: nat, v: nat, w: nat)
    requires CalmAt(s, k) && 0 < t < w < |s.ws| && s.ws[w].Asleep? && s.ws[t] == Asleep(true)
    requires StillOn(|s.ws|, s.b, k, t) && (s.b.Removing? && s.b.f == t ==> t + 1 < w)
    requires 0 < v < |s.ws| && s.ws[v].Leaving?
    ensures CanStrand(s, w)
  {
    if !StillOn(|s.ws|, s.b, k, v) {
      StrandsAfterReturn(s, k, t, v, w);
    } else if v > w {
      StrandsAfterRemoval(s, k, t, v, w);
    } else {
      CalmIsFormed(s, k);
      StaysPut(s);
      StrandsOnceFree(s, s, s.m, k, v, w);
    }
  }

  lemma CanBeStranded(s: State, k: nat, t: nat, w: nat)
    requires CalmAt(s, k) && Exposes(s, t, w) && w < |s.ws| && s.ws[w].Asleep?
    ensures CanStrand(s, w)
  {
    ReadOut(|s.ws|, s.m, s.b, k, t);
    if MayStart(s, t) {
      CalmIsFormed(s, k);
      StaysPut(s);
      StrandsOnceFree(s, s, s.m, k, t, w);
    } else {
      var v: nat :| v < |s.ws| && s.ws[v].Leaving?;
      StrandsAfterHolder(s, k, t, v, w);
    }
  }

  /** From every point of a run in which no waiter has got past the test of its own removal, and for every
      waiter still asleep: it can be stranded if and only if a waiter in front of it that is still linked can
      time out, or has, other than the one directly in front while that is being popped. */
  lemma StrandsExactly(run: seq<State>, i: nat, w: nat)
    requires Runs.IsRun(Init, CalmNext, run) && i < |run| && 0 < w < |run[i].ws| && run[i].ws[w].Asleep?
    ensures CanStrand(run[i], w) <==> exists t :: Exposes(run[i], t, w)
  {
    CalmRunIsCalm(run, i);
    var s := run[i];
    if t :| Exposes(s, t, w) {
      var k :| CalmAt(s, k);
      CanBeStranded(s, k, t, w);
    } else {
      NotStranded(s, w);
    }
  }
}
