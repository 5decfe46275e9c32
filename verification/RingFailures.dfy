/** socket/sendqueue.go:56-77, 121-157: two ways in which a timeout on a ring that is being worked off goes
    wrong although nothing of the waiter has been read when it strikes. */
module RingFailures {
  import opened RingRace
  import opened RingFate
  import opened RingStranding
  import Runs

  lemma PopReads(s: State, s1: State, f: nat) returns (s': State)
    requires Reaches(s, s1) && Formed(s1) && !s1.panicked && s1.b == Reading(f)
    requires s1.m.nnext[f] != Nil && s1.m.pprev[f] != Nil && s1.m.nnext[f] != To(f) && s1.m.pprev[f] != To(f)
    ensures Reaches(s, s') && Formed(s')
    ensures s' == s1.(b := Removing(f, s1.m.ch[f], Removal(f, L71, s1.m.nnext[f], s1.m.pprev[f])))
  {
    Further(s, s1, Broadcast);
    var s2 := Do(s1, Broadcast);
    s2 := RemovesOn(s, s2);
    s2 := RemovesOn(s, s2);
    s' := RemovesOn(s, s2);
  }

  lemma PopLinks(s: State, s1: State, f: nat, x: nat, p: nat) returns (s': State)
    requires Reaches(s, s1) && Formed(s1) && !s1.panicked && s1.b == Removing(f, true, Removal(f, L71, To(x), To(p)))
    ensures Reaches(s, s') && Formed(s')
    ensures s' == s1.(b := Removing(f, true, Removal(f, L75, To(x), To(p))),
                      m := Cut(s1.m, f, x, p, |s1.ws|).(ch := s1.m.ch))
  {
    s' := RemovesOn(s, s1);
    s' := RemovesOn(s, s');
    s' := RemovesOn(s, s');
    s' := RemovesOn(s, s');
  }

  lemma PopCloses(s: State, s1: State, f: nat, x: nat, p: nat) returns (s': State)
    requires Reaches(s, s1) && Formed(s1) && !s1.panicked && s1.b == Removing(f, true, Removal(f, L75, To(x), To(p)))
    requires !s1.m.closed[f]
    ensures Reaches(s, s') && Formed(s')
    ensures s' == s1.(b := Testing, m := s1.m.(ch := s1.m.ch[f := false], closed := s1.m.closed[f := true]))
  {
    Further(s, s1, Broadcast);
    var s2 := Do(s1, Broadcast);
    assert s2 == s1.(b := Closing(f, true), m := s1.m.(ch := s1.m.ch[f := false]));
    Further(s, s2, Broadcast);
    s' := Do(s2, Broadcast);
  }

  /** The first waiter is popped by the links it has. */
  lemma Pops(s: State, s1: State, f: nat, x: nat, p: nat) returns (s': State)
    requires Reaches(s, s1) && Formed(s1) && !s1.panicked && s1.b == Reading(f) && s1.m.ch[f]
    requires s1.m.nnext[f] == To(x) && s1.m.pprev[f] == To(p) && x != f && p != f && !s1.m.closed[f]
    ensures Reaches(s, s') && Formed(s') && x < |s1.ws| && p < |s1.ws|
    ensures s' == s1.(b := Testing, m := Popped(s1.m, f, x, p, |s1.ws|))
  {
    var s2 := PopReads(s, s1, f);
    s2 := PopLinks(s, s2, f, x, p);
    s' := PopCloses(s, s2, f, x, p);
  }

  ghost function Popped(m: Mem, f: nat, x: nat, p: nat, n: nat): Mem
    requires Sized(m, n) && f < n && x < n && p < n
  {
    Cut(m, f, x, p, n).(closed := m.closed[f := true])
  }

  /** One line of the broadcaster's removal that does not end it. */
  lemma RemovesOn(s: State, s1: State) returns (s': State)
    requires Reaches(s, s1) && Enabled(s1, Broadcast) && s1.b.Removing?
    requires RemoveStep(s1.m, s1.b.r, |s1.ws|).1.Going?
    ensures Reaches(s, s') && Formed(s')
    ensures var (m, o) := RemoveStep(s1.m, s1.b.r, |s1.ws|);
            s' == s1.(m := m, b := Removing(s1.b.f, s1.b.ch, o.r))
  {
    RemovalStaysFitting(s1.m, s1.b.r, |s1.ws|);
    Further(s, s1, Broadcast);
    s' := Do(s1, Broadcast);
  }

  lemma SecondLinks(n: nat, k: nat)
    requires 1 <= k && k + 1 < n
    ensures var m := Ring(n, k);
            && m.nnext[0] == To(k) && m.nnext[k] == To(k + 1) && m.pprev[k] == To(0)
            && m.nnext[k + 1] == NextOf(k + 1, n) && m.pprev[k + 1] == To(k)
            && (forall i :: k <= i < n ==> m.ch[i] && !m.closed[i])
            && (forall i :: k < i < n ==> m.nnext[i] == NextOf(i, n))
  {
  }

  // ------------------------------------------------------------ overtaken

  /** Waiter k + 1 has linked k to k + 2 and not yet k + 2 to k. */
  lemma HalfUnlinked(s: State, s1: State, k: nat) returns (s': State)
    requires Reaches(s, s1) && CalmAt(s1, k) && s1.b == Testing && k + 2 < |s1.ws| && MayStart(s1, k + 1)
    ensures Reaches(s, s') && Formed(s')
    ensures var m := Ring(|s1.ws|, k);
            s' == s1.(m := m.(nnext := m.nnext[k := To(k + 2)]),
                      ws := s1.ws[k + 1 := Leaving(Removal(k + 1, L72, To(k + 2), To(k)))])
  {
    CalmIsFormed(s1, k);
    SecondLinks(|s1.ws|, k);
    var s2 := Starts(s, s1, k + 1);
    s2 := ReadsItsLinks(s, s2, k, k + 1);
    s' := LeavesOn(s, s2, k + 1);
    assert s'.ws == s1.ws[k + 1 := Leaving(Removal(k + 1, L72, To(k + 2), To(k)))];
  }

  /** The broadcaster overtakes it and pops k; then it links k + 2 back to k, which is no longer there. */
  lemma LinksBack(s: State, s1: State, k: nat) returns (s': State)
    requires Reaches(s, s1) && Formed(s1) && !s1.panicked && s1.b == Testing && 1 <= k && k + 2 < |s1.ws|
    requires s1.ws[k + 1] == Leaving(Removal(k + 1, L72, To(k + 2), To(k)))
    requires s1.m.nnext[0] == To(k) && s1.m.nnext[k] == To(k + 2) && s1.m.pprev[k] == To(0)
    requires s1.m.ch[k] && !s1.m.closed[k]
    ensures Reaches(s, s') && Formed(s') && !s'.panicked && s'.b == Testing && |s'.ws| == |s1.ws|
    ensures forall i :: k + 1 < i < |s1.ws| ==> s'.ws[i] == s1.ws[i]
    ensures s'.m.nnext[0] == To(k + 2) && s'.m.pprev[k + 2] == To(k)
    ensures forall i :: k < i < |s1.ws| ==>
              s'.m.nnext[i] == s1.m.nnext[i] && s'.m.ch[i] == s1.m.ch[i] && s'.m.closed[i] == s1.m.closed[i]
  {
    PicksFirst(s, s1, k);
    var s2 := Pops(s, s1.(b := Reading(k)), k, k + 2, 0);
    s' := LeavesOn(s, s2, k + 1);
  }

  /** Waiter k + 2 is popped by its stale link, so the head still points to it, and the loop ends. */
  lemma PopsByStaleLink(s: State, s1: State, k: nat, w: nat)
    requires Reaches(s, s1) && Formed(s1) && !s1.panicked && s1.b == Testing && 1 <= k && k + 2 < w < |s1.ws|
    requires s1.m.nnext[0] == To(k + 2) && s1.m.nnext[k + 2] == To(k + 3) && s1.m.pprev[k + 2] == To(k)
    requires s1.m.ch[k + 2] && !s1.m.closed[k + 2] && !s1.m.closed[w] && s1.ws[w].Asleep?
    ensures CanStrand(s, w)
  {
    PicksFirst(s, s1, k + 2);
    var s2 := Pops(s, s1.(b := Reading(k + 2)), k + 2, k + 3, k);
    PicksFirst(s, s2, k + 2);
    var s3 := s2.(b := Reading(k + 2));
    EndsTheLoop(s, s3, k + 2);
    assert Stranded(s3.(b := Done), w);
  }

  lemma OvertakenStrands(s: State, s1: State, k: nat, w: nat)
    requires Reaches(s, s1) && CalmAt(s1, k) && s1.b == Testing && MayStart(s1, k + 1)
    requires k + 2 < w < |s1.ws| && s1.ws[w].Asleep?
    ensures CanStrand(s, w)
  {
    SecondLinks(|s1.ws|, k);
    var s2 := HalfUnlinked(s, s1, k);
    var s3 := LinksBack(s, s2, k);
    PopsByStaleLink(s, s3, k, w);
  }

  // ------------------------------------------------------------ a channel closed twice

  /** A first waiter without links but with a channel: nothing to unlink, and the channel is to be closed. */
  lemma FindsNoLinks(s: State, s1: State, f: nat) returns (s': State)
    requires Reaches(s, s1) && Formed(s1) && !s1.panicked && s1.b == Testing && s1.m.nnext[0] == To(f) && f != 0
    requires s1.m.nnext[f] == Nil && s1.m.ch[f]
    ensures Reaches(s, s') && Formed(s') && s' == s1.(b := Closing(f, true))
  {
    PicksFirst(s, s1, f);
    var s2 := s1.(b := Reading(f));
    Further(s, s2, Broadcast);
    var s3 := Do(s2, Broadcast);
    assert s3 == s1.(b := Removing(f, true, Begin(f)));
    Further(s, s3, Broadcast);
    s' := Do(s3, Broadcast);
  }

  ghost predicate ClosesTwice(s: State, w: nat) {
    exists s1 :: Reaches(s, s1) && Enabled(s1, Broadcast) && s1.b == Closing(w, true) && s1.m.closed[w]
  }

  /** It is found again and again as long as the head points to it and it has its channel. */
  lemma FoundTwice(s: State, s1: State, f: nat)
    requires Reaches(s, s1) && Formed(s1) && !s1.panicked && s1.b == Testing && s1.m.nnext[0] == To(f) && f != 0
    requires s1.m.nnext[f] == Nil && s1.m.ch[f] && !s1.m.closed[f]
    ensures ClosesTwice(s, f)
  {
    var s2 := FindsNoLinks(s, s1, f);
    Further(s, s2, Broadcast);
    var s3 := Do(s2, Broadcast);
    assert s3 == s1.(m := s1.m.(closed := s1.m.closed[f := true]));
    var s4 := FindsNoLinks(s, s3, f);
  }

  /** Waiter k + 1 stops when it has cleared its next link. */
  lemma StopsBetween(s: State, s1: State, k: nat) returns (s': State)
    requires Reaches(s, s1) && Formed(s1) && !s1.panicked && 1 <= k && k + 1 < |s1.ws|
    requires s1.ws[k + 1].Leaving? && s1.ws[k + 1].r == Removal(k + 1, L71, NextOf(k + 1, |s1.ws|), To(k))
    ensures Reaches(s, s') && Formed(s') && s'.b == s1.b && !s'.panicked && |s'.ws| == |s1.ws|
    ensures s'.m.nnext == s1.m.nnext[k := NextOf(k + 1, |s1.ws|)][k + 1 := Nil]
    ensures s'.m.ch == s1.m.ch && s'.m.closed == s1.m.closed
  {
    var s2 := LeavesOn(s, s1, k + 1);
    s2 := LeavesOn(s, s2, k + 1);
    s' := LeavesOn(s, s2, k + 1);
  }

  lemma NeighbourClosesTwice(s: State, s1: State, k: nat)
    requires Reaches(s, s1) && CalmAt(s1, k) && s1.b == Testing && k + 1 < |s1.ws| && MayStart(s1, k + 1)
    ensures ClosesTwice(s, k + 1)
  {
    var n := |s1.ws|;
    CalmIsFormed(s1, k);
    SecondLinks(n, k);
    PicksFirst(s, s1, k);
    var s2 := PopReads(s, s1.(b := Reading(k)), k);
    NextIsReadGoesOn(s, s2, k);
  }

  lemma NextIsReadGoesOn(s: State, s2: State, k: nat)
    requires Reaches(s, s2) && Formed(s2) && !s2.panicked && 1 <= k && k + 1 < |s2.ws| && MayStart(s2, k + 1)
    requires s2.m == Ring(|s2.ws|, k) && s2.b == Removing(k, true, OwnRemoval(|s2.ws|, k, L71))
    ensures ClosesTwice(s, k + 1)
  {
    SecondLinks(|s2.ws|, k);
    var s3 := Starts(s, s2, k + 1);
    s3 := ReadsItsLinks(s, s3, k, k + 1);
    s3 := StopsBetween(s, s3, k);
    var s4 := PopLinks(s, s3, k, k + 1, 0);
    s4 := PopCloses(s, s4, k, k + 1, 0);
    FoundTwice(s, s4, k + 1);
  }

  // ------------------------------------------------------------ from every point

  /** The broadcaster comes to the test in front of waiter k, and the waiters are as they were. */
  lemma ToTheTest(s: State, k: nat, k': nat) returns (s': State)
    requires CalmAt(s, k) && (k < k' < |s.ws| || (k == k' && s.b == Testing))
    ensures Reaches(s, s') && CalmAt(s', k') && s'.b == Testing && s'.ws == s.ws
  {
    CalmIsFormed(s, k);
    if k == k' {
      StaysPut(s);
      s' := s;
    } else {
      s' := ComesToTest(s, k, k');
    }
  }

  /** The broadcaster, at waiter k, has yet to come to the waiter in front of t, or is at the test there. */
  ghost predicate Before(s: State, k: nat, t: nat) { CalmAt(s, k) && (k + 1 < t || (k + 1 == t && s.b == Testing)) }

  lemma UnreadClosesTwice(s: State, k: nat, t: nat)
    requires Before(s, k, t) && MayStart(s, t)
    ensures ClosesTwice(s, t)
  {
    var p: nat := t - 1;
    assert t == p + 1;
    var s1 := ToTheTest(s, k, p);
    assert MayStart(s1, p + 1);
    NeighbourClosesTwice(s, s1, p);
  }

  lemma UnreadStrands(s: State, k: nat, t: nat, w: nat)
    requires Before(s, k, t) && MayStart(s, t) && t + 1 < w < |s.ws| && s.ws[w].Asleep?
    ensures CanStrand(s, w)
  {
    var p: nat := t - 1;
    assert t == p + 1;
    var s1 := ToTheTest(s, k, p);
    assert MayStart(s1, p + 1);
    OvertakenStrands(s, s1, p, w);
  }

  /** From every point of a run in which no waiter has got past the test of its own removal: a timeout of a
      waiter t, nothing of which has been read, can lead to t's channel being closed twice, which panics,
      and can strand whoever is behind the next waiter by overtaking alone. */
  lemma UnreadTimeoutGoesWrong(run: seq<State>, i: nat, k: nat, t: nat, w: nat)
    requires Runs.IsRun(Init, CalmNext, run) && i < |run| && Before(run[i], k, t) && MayStart(run[i], t)
    ensures ClosesTwice(run[i], t)
    ensures t + 1 < w < |run[i].ws| && run[i].ws[w].Asleep? ==> CanStrand(run[i], w)
  {
    UnreadClosesTwice(run[i], k, t);
    if t + 1 < w < |run[i].ws| && run[i].ws[w].Asleep? {
      UnreadStrands(run[i], k, t, w);
    }
  }

  /** A ring as broadcast finds it, for any waiters. */
  lemma Carried(ws: seq<Waiter>) returns (s: State)
    requires |ws| > 0 && ws[0] == Gone(false) && forall w :: 0 < w < |ws| ==> ws[w].Asleep?
    ensures Init(s) && CalmAt(s, 1) && s == State(Ring(|ws|, 1), Testing, ws, false)
  {
    s := State(Ring(|ws|, 1), Testing, ws, false);
  }

  /** It does happen, on every ring on which a waiter may time out: from the beginning whoever is behind it
      can be stranded, and if it is not the first its channel can be closed twice. */
  lemma EveryRingCanFail(ws: seq<Waiter>, t: nat, w: nat) returns (s: State)
    requires |ws| > 0 && ws[0] == Gone(false) && (forall v :: 0 < v < |ws| ==> ws[v].Asleep?)
    requires 0 < t < |ws| && ws[t] == Asleep(true)
    ensures Init(s) && s.ws == ws
    ensures t > 1 ==> ClosesTwice(s, t)
    ensures t < w < |ws| ==> CanStrand(s, w)
  {
    s := Carried(ws);
    if t > 1 {
      assert Before(s, 1, t) && MayStart(s, t);
      UnreadClosesTwice(s, 1, t);
    }
    if t < w < |ws| {
      CanBeStranded(s, 1, t, w);
    }
  }
}
