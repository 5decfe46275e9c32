/** socket/sendqueue.go:56-77, 121-157: a waiter of a ring that is being worked off, with all timeouts
    striking behind it.  Those behind never write to the nodes in front, so the broadcaster works its way
    up to the waiter as if nothing had happened, and closes its channel. */
module RingFront {
  import opened RingRace

  /** The nodes up to w are the same: their channels, the links between them, and where the head points. */
  ghost predicate Agree(m: Mem, m': Mem, n: nat, w: nat) {
    && Sized(m, n) && Sized(m', n) && w < n
    && (forall i :: 0 <= i < w ==> m.nnext[i] == m'.nnext[i])
    && (forall i :: 0 < i <= w ==> m.pprev[i] == m'.pprev[i])
    && (forall i :: 0 <= i <= w ==> m.ch[i] == m'.ch[i] && m.closed[i] == m'.closed[i])
  }

  /** The channel of the waiter it has come to has not been read. */
  ghost predicate Coming(b: Broadcaster) { b.Testing? || b.Picking? || b.Reading? }

  /** Up to w the ring is an untouched one, with the broadcaster at waiter k. */
  ghost predicate Front(n: nat, m: Mem, b: Broadcaster, m0: Mem, k: nat, w: nat) {
    Untouched(n, m0, b, k) && Agree(m, m0, n, w) && (k < w || (k == w && Coming(b)))
  }

  // ------------------------------------------------------------ what is behind

  ghost predicate Behind(p: Ptr, w: nat) { p.To? ==> p.n == 0 || p.n > w }

  ghost predicate NotBefore(p: Ptr, w: nat) { p.To? ==> p.n >= w }

  ghost predicate FarRemoval(r: Removal, w: nat) { r.n > w && Behind(r.next, w) && NotBefore(r.prev, w) }

  ghost predicate FarNodes(m: Mem, n: nat, w: nat) {
    Sized(m, n) && forall i :: w < i < n ==> Behind(m.nnext[i], w) && NotBefore(m.pprev[i], w)
  }

  /** Nodes and removals behind w lead to the head, or to w and what is behind it. */
  ghost predicate Far(s: State, w: nat) {
    FarNodes(s.m, |s.ws|, w) && forall v :: w < v < |s.ws| && s.ws[v].Leaving? ==> FarRemoval(s.ws[v].r, w)
  }

  /** A removal behind w leaves the front alone. */
  lemma FarRemove(m: Mem, r: Removal, n: nat, w: nat)
    requires 0 < w < n && RemovalFits(r, n) && FarNodes(m, n, w) && FarRemoval(r, w)
    ensures var (m', o) := RemoveStep(m, r, n);
            FarNodes(m', n, w) && Agree(m', m, n, w) && (o.Going? ==> FarRemoval(o.r, w))
  {
    FarStaysFar(m, r, n, w);
  }

  lemma FarStaysFar(m: Mem, r: Removal, n: nat, w: nat)
    requires w < n && RemovalFits(r, n) && FarNodes(m, n, w) && FarRemoval(r, w)
    ensures FarNodes(RemoveStep(m, r, n).0, n, w)
  {
  }

  // ------------------------------------------------------------ what is in front

  /** The broadcaster's removal of a waiter in front of w sees and changes the front only. */
  lemma NearRemove(m: Mem, m0: Mem, n: nat, k: nat, line: Line, w: nat)
    requires 1 <= k < w && Agree(m, m0, n, w)
    ensures var r := OwnRemoval(n, k, line);
            && RemovalFits(r, n) && RemoveStep(m, r, n).1 == RemoveStep(m0, r, n).1
            && Agree(RemoveStep(m, r, n).0, RemoveStep(m0, r, n).0, n, w)
            && (FarNodes(m, n, w) ==> FarNodes(RemoveStep(m, r, n).0, n, w))
  {
  }

  lemma FrontRemove(s: State, m0: Mem, k: nat, w: nat)
    requires Formed(s) && Front(|s.ws|, s.m, s.b, m0, k, w) && s.b.Removing?
    ensures var s0 := s.(m := m0);
            && Formed(s0) && BroadcastStep(s).panicked == BroadcastStep(s0).panicked
            && BroadcastStep(s).b == BroadcastStep(s0).b
            && Agree(BroadcastStep(s).m, BroadcastStep(s0).m, |s.ws|, w)
            && (FarNodes(s.m, |s.ws|, w) ==> FarNodes(BroadcastStep(s).m, |s.ws|, w))
  {
    PointersFit(|s.ws|, m0, s.b, k);
    NearRemove(s.m, m0, |s.ws|, k, s.b.r.line, w);
  }

  /** A step of the broadcaster in front of w. */
  lemma FrontStep(s: State, m0: Mem, k: nat, w: nat) returns (m1: Mem)
    requires Formed(s) && !s.panicked && Front(|s.ws|, s.m, s.b, m0, k, w) && (k < w || !s.b.Reading?)
    ensures !s.b.Done? && !BroadcastStep(s).panicked && Formed(s.(m := m0))
    ensures BroadcastStep(s).b == BroadcastStep(s.(m := m0)).b
    ensures Front(|s.ws|, BroadcastStep(s).m, BroadcastStep(s).b, m1, After(|s.ws|, s.b, k), w)
    ensures FarNodes(s.m, |s.ws|, w) ==> FarNodes(BroadcastStep(s).m, |s.ws|, w)
  {
    var s0 := s.(m := m0);
    PointersFit(|s.ws|, m0, s.b, k);
    BroadcastKeepsUntouched(s0, k);
    m1 := BroadcastStep(s0).m;
    if s.b.Removing? {
      FrontRemove(s, m0, k, w);
    }
  }

  // ------------------------------------------------------------ no timeouts in front

  /** Whoever in front of w can time out, or has, is no longer linked. */
  ghost predicate FrontWaiters(ws: seq<Waiter>, b: Broadcaster, k: nat, w: nat) {
    forall v :: 0 < v < w < |ws| ==>
      && (ws[v].Leaving? ==> ws[v].r == Begin(v))
      && (ws[v].Leaving? || ws[v] == Asleep(true) ==> !StillOn(|ws|, b, k, v))
  }

  ghost predicate ApproachedAt(s: State, m0: Mem, k: nat, w: nat) {
    Far(s, w) && Front(|s.ws|, s.m, s.b, m0, k, w) && FrontWaiters(s.ws, s.b, k, w)
  }

  ghost predicate Approached(s: State, w: nat) { exists m0, k :: ApproachedAt(s, m0, k, w) }

  /** The channel of w has been read and is about to be closed. */
  ghost predicate Committed(b: Broadcaster, w: nat) { (b.Removing? || b.Closing?) && b.f == w && b.ch }

  lemma ApproachedBroadcast(s: State, m0: Mem, k: nat, w: nat)
    requires Enabled(s, Broadcast) && 0 < w < |s.ws| && ApproachedAt(s, m0, k, w)
    ensures var s' := Do(s, Broadcast); Committed(s'.b, w) || Approached(s', w)
  {
    if k < w || !s.b.Reading? {
      var m1 := FrontStep(s, m0, k, w);
      BroadcastStaysFormed(s);
      var s', k' := BroadcastStep(s), After(|s.ws|, s.b, k);
      forall v | 0 < v < |s.ws| && !StillOn(|s.ws|, s.b, k, v) ensures !StillOn(|s.ws|, s'.b, k', v) {
        BroadcastKeepsOff(s, m0, k, v);
      }
      assert ApproachedAt(s', m1, k', w);
    }
  }

  lemma BroadcastKeepsOff(s: State, m0: Mem, k: nat, v: nat)
    requires Formed(s) && !s.b.Done? && Untouched(|s.ws|, m0, s.b, k)
    requires 0 < v < |s.ws| && !StillOn(|s.ws|, s.b, k, v)
    ensures !StillOn(|s.ws|, BroadcastStep(s).b, After(|s.ws|, s.b, k), v)
  {
    StaysOff(|s.ws|, s.b, BroadcastStep(s).b, k, After(|s.ws|, s.b, k), v);
  }

  /** A removal in front of w finds itself off the ring; one behind leaves the front alone. */
  lemma ApproachedLeave(s: State, v: nat, m0: Mem, k: nat, w: nat)
    requires Enabled(s, Leave(v)) && 0 < w < |s.ws| && s.ws[w].Asleep? && ApproachedAt(s, m0, k, w)
    ensures var (m', o) := RemoveStep(s.m, s.ws[v].r, |s.ws|);
            && Agree(m', m0, |s.ws|, w) && FarNodes(m', |s.ws|, w)
            && if v < w then o.Returned? else v > w && (o.Going? ==> FarRemoval(o.r, w))
  {
    if v > w {
      FarRemove(s.m, s.ws[v].r, |s.ws|, w);
    } else {
      ReadOut(|s.ws|, m0, s.b, k, v);
    }
  }

  lemma ApproachedWaiter(s: State, step: Step, m0: Mem, k: nat, w: nat)
    requires Enabled(s, step) && !step.Broadcast? && 0 < w < |s.ws| && s.ws[w].Asleep? && ApproachedAt(s, m0, k, w)
    ensures var s' := Do(s, step); s'.panicked || !s'.ws[w].Asleep? || ApproachedAt(s', m0, k, w)
  {
    if step.Leave? {
      ApproachedLeave(s, step.w, m0, k, w);
      var s' := Do(s, step);
      if !s'.panicked {
        assert Far(s', w);
        assert FrontWaiters(s'.ws, s'.b, k, w);
      }
    }
  }

  // ------------------------------------------------------------ a timeout of the one being popped

  ghost predicate Either(p: Ptr, n: nat) { p == Nil || p == To(n) }

  ghost predicate PastL71(line: Line) { line in {L72, L73, L74, L75} }

  /** A removal of the waiter in front of w: its links were w and the head, or it has read nil. */
  ghost predicate NextToW(r: Removal, w: nat) {
    r.n + 1 == w && Either(r.next, w) && Either(r.prev, 0)
  }

  /** The waiter t in front of w is being popped, and may be taking itself off as well. */
  ghost predicate PassingNodes(m: Mem, n: nat, w: nat) {
    && Sized(m, n) && 1 < w < n && m.ch[w]
    && Either(m.nnext[w - 1], w) && Either(m.pprev[w - 1], 0)
    && (m.nnext[0] == To(w - 1) ==> m.nnext[w - 1] != Nil && m.pprev[w - 1] != Nil)
    && (m.nnext[0] == To(w - 1) || Either(m.nnext[0], w))
    && (forall v :: 0 < v < w - 1 ==> m.nnext[v] == Nil)
  }

  /** Where the broadcaster is: at t, or past it with the head pointing to w. */
  ghost predicate PassingBroadcaster(m: Mem, b: Broadcaster, n: nat, w: nat)
    requires PassingNodes(m, n, w)
  {
    match b
    case Removing(f, ch, r) =>
      f == w - 1 && ch && NextToW(r, w) && (PastL71(r.line) ==> Either(m.nnext[0], w))
    case Closing(f, ch) => f == w - 1 && ch && Either(m.nnext[0], w)
    case Testing => Either(m.nnext[0], w)
    case Picking => Either(m.nnext[0], w)
    case Reading(f) => f == w && Either(m.nnext[0], w)
    case Done => false
  }

  ghost predicate PassingWaiters(m: Mem, ws: seq<Waiter>, w: nat)
    requires PassingNodes(m, |ws|, w)
  {
    && (ws[w - 1].Leaving? ==>
          NextToW(ws[w - 1].r, w) && (PastL71(ws[w - 1].r.line) ==> Either(m.nnext[0], w)))
    && (forall v :: 0 < v < w - 1 && ws[v].Leaving? ==> ws[v].r == Begin(v))
  }

  ghost predicate Passing(s: State, w: nat) {
    && Far(s, w) && PassingNodes(s.m, |s.ws|, w)
    && PassingBroadcaster(s.m, s.b, |s.ws|, w) && PassingWaiters(s.m, s.ws, w)
  }

  /** A line of either removal of t. */
  lemma PassingRemove(m: Mem, r: Removal, n: nat, w: nat)
    requires PassingNodes(m, n, w) && NextToW(r, w) && (PastL71(r.line) ==> Either(m.nnext[0], w))
    ensures var (m', o) := RemoveStep(m, r, n);
            && PassingNodes(m', n, w) && (Either(m.nnext[0], w) ==> Either(m'.nnext[0], w))
            && (o.Returned? ==> Either(m'.nnext[0], w))
            && (o.Going? ==> NextToW(o.r, w) && (PastL71(o.r.line) ==> Either(m'.nnext[0], w)))
  {
  }

  lemma PassingKeepsFar(m: Mem, r: Removal, n: nat, w: nat)
    requires 1 < w < n && FarNodes(m, n, w) && NextToW(r, w)
    ensures FarNodes(RemoveStep(m, r, n).0, n, w)
  {
  }

  lemma PassingBroadcast(s: State, w: nat)
    requires Enabled(s, Broadcast) && Passing(s, w)
    ensures var s' := Do(s, Broadcast); s'.panicked || Committed(s'.b, w) || Passing(s', w)
  {
    if s.b.Removing? {
      PassingRemove(s.m, s.b.r, |s.ws|, w);
      PassingKeepsFar(s.m, s.b.r, |s.ws|, w);
    }
  }

  lemma PassingWaiter(s: State, step: Step, w: nat)
    requires Enabled(s, step) && !step.Broadcast? && Passing(s, w) && s.ws[w].Asleep?
    ensures var s' := Do(s, step); s'.panicked || !s'.ws[w].Asleep? || Passing(s', w)
  {
    if step.Leave? {
      var r := s.ws[step.w].r;
      if step.w > w {
        FarRemove(s.m, r, |s.ws|, w);
      } else if step.w == w - 1 {
        PassingRemove(s.m, r, |s.ws|, w);
        PassingKeepsFar(s.m, r, |s.ws|, w);
      }
    }
  }

  // ------------------------------------------------------------ together

  /** Waiter w will not be left asleep by a broadcaster that is done. */
  ghost predicate Saved(s: State, w: nat) {
    0 < w < |s.ws| == |s.m.closed| &&
    (s.panicked || !s.ws[w].Asleep? || s.m.closed[w] || Committed(s.b, w) || Approached(s, w) || Passing(s, w))
  }

  lemma SavedStep(s: State, step: Step, w: nat)
    requires Saved(s, w) && Enabled(s, step)
    ensures Saved(Do(s, step), w)
  {
    StepEffect(s, step);
    if s.ws[w].Asleep? && !s.m.closed[w] && !Committed(s.b, w) {
      if Passing(s, w) {
        if step.Broadcast? {
          PassingBroadcast(s, w);
        } else {
          PassingWaiter(s, step, w);
        }
      } else {
        var m0, k :| ApproachedAt(s, m0, k, w);
        if step.Broadcast? {
          ApproachedBroadcast(s, m0, k, w);
        } else {
          ApproachedWaiter(s, step, m0, k, w);
        }
      }
    } else if step.Broadcast? && s.b.Removing? {
      RemovalClosesNothing(s.m, s.b.r, |s.ws|);
    }
  }
}
