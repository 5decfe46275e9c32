/** socket/sendqueue.go:56-77, 121-157: a ring of waiters that broadcast has carried away and works off
    without a lock, while waiters on it may time out and take themselves off.  Every line of popWait,
    removeWait and the loop of broadcast is one step; the waiters' removals exclude each other by the
    lock of the condition variable.  Node 0 is the head, the others are the waiters. */
module RingRace {
  import Runs

  datatype Ptr = Nil | To(n: nat)

  /** The fields of the nodes, and which channels have been closed. */
  datatype Mem = Mem(nnext: seq<Ptr>, pprev: seq<Ptr>, ch: seq<bool>, closed: seq<bool>)

  /** The lines of removeWait: the test, the two reads, the two links, the two clearings, the channel. */
  datatype Line = L68 | L69 | L70 | L71 | L72 | L73 | L74 | L75

  datatype Removal = Removal(n: nat, line: Line, next: Ptr, prev: Ptr)

  datatype Outcome = Going(r: Removal) | Returned | Crashed

  datatype Broadcaster =
    | Testing                                   // line 57
    | Picking                                   // line 60
    | Reading(f: nat)                           // line 61
    | Removing(f: nat, ch: bool, r: Removal)    // line 62
    | Closing(f: nat, ch: bool)                 // lines 154-155
    | Done

  datatype Waiter =
    | Asleep(timed: bool)
    | Leaving(r: Removal)      // its wait timed out; it holds the lock
    | Gone(ok: bool)

  datatype State = State(m: Mem, b: Broadcaster, ws: seq<Waiter>, panicked: bool)

  datatype Step = Broadcast | Wake(w: nat) | TimeOut(w: nat) | Leave(w: nat)

  ghost predicate Sized(m: Mem, n: nat) {
    |m.nnext| == |m.pprev| == |m.ch| == |m.closed| == n
  }

  ghost predicate Fits(p: Ptr, n: nat) { p.To? ==> p.n < n }

  ghost predicate RemovalFits(r: Removal, n: nat) { r.n < n && Fits(r.next, n) && Fits(r.prev, n) }

  /** All pointers point into memory. */
  ghost predicate Formed(s: State) {
    var n := |s.ws|;
    && n > 0 && Sized(s.m, n)
    && (forall i :: 0 <= i < n ==> Fits(s.m.nnext[i], n) && Fits(s.m.pprev[i], n))
    && (forall i :: 0 <= i < n && s.ws[i].Leaving? ==> RemovalFits(s.ws[i].r, n))
    && match s.b
       case Reading(f) => f < n
       case Removing(f, _, r) => f < n && RemovalFits(r, n)
       case Closing(f, _) => f < n
       case _ => true
  }

  /** One line of removeWait. */
  ghost function RemoveStep(m: Mem, r: Removal, n: nat): (Mem, Outcome)
    requires Sized(m, n) && RemovalFits(r, n)
  {
    var x := r.n;
    match r.line
    case L68 =>
      if m.nnext[x] != Nil && m.pprev[x] != Nil && m.nnext[x] != To(x) && m.pprev[x] != To(x)
      then (m, Going(r.(line := L69)))
      else (m, Returned)
    case L69 => (m, Going(r.(line := L70, next := m.nnext[x])))
    case L70 => (m, Going(r.(line := L71, prev := m.pprev[x])))
    case L71 =>
      if r.prev.Nil? then (m, Crashed)
      else (m.(nnext := m.nnext[r.prev.n := r.next]), Going(r.(line := L72)))
    case L72 =>
      if r.next.Nil? then (m, Crashed)
      else (m.(pprev := m.pprev[r.next.n := r.prev]), Going(r.(line := L73)))
    case L73 => (m.(nnext := m.nnext[x := Nil]), Going(r.(line := L74)))
    case L74 => (m.(pprev := m.pprev[x := Nil]), Going(r.(line := L75)))
    case L75 => (m.(ch := m.ch[x := false]), Returned)
  }

  ghost function Begin(n: nat): Removal { Removal(n, L68, Nil, Nil) }

  ghost predicate Enabled(s: State, step: Step) {
    && Formed(s) && !s.panicked
    && match step
       case Broadcast => !s.b.Done?
       case Wake(w) => 0 < w < |s.ws| && s.ws[w].Asleep? && s.m.closed[w]
       case TimeOut(w) =>
         0 < w < |s.ws| && s.ws[w] == Asleep(true) && forall v :: 0 <= v < |s.ws| ==> !s.ws[v].Leaving?
       case Leave(w) => 0 < w < |s.ws| && s.ws[w].Leaving?
  }

  /** The next line of broadcast. */
  ghost function BroadcastStep(s: State): State
    requires Formed(s) && !s.b.Done?
  {
    match s.b
    case Testing => s.(b := if s.m.nnext[0] == To(0) then Done else Picking)
    case Picking => if s.m.nnext[0].Nil? then s.(panicked := true) else s.(b := Reading(s.m.nnext[0].n))
    case Reading(f) => s.(b := Removing(f, s.m.ch[f], Begin(f)))
    case Removing(f, ch, r) =>
      var (m, o) := RemoveStep(s.m, r, |s.ws|);
      (match o
       case Going(r') => s.(m := m, b := Removing(f, ch, r'))
       case Returned => s.(m := m, b := Closing(f, ch))
       case Crashed => s.(panicked := true))
    case Closing(f, ch) =>
      if !ch then s.(b := Done)
      else if s.m.closed[f] then s.(panicked := true)  // close of a closed channel
      else s.(m := s.m.(closed := s.m.closed[f := true]), b := Testing)
  }

  ghost function Do(s: State, step: Step): State
    requires Enabled(s, step)
  {
    match step
    case Broadcast => BroadcastStep(s)
    case Wake(w) => s.(ws := s.ws[w := Gone(true)])
    case TimeOut(w) => s.(ws := s.ws[w := Leaving(Begin(w))])
    case Leave(w) =>
      var (m, o) := RemoveStep(s.m, s.ws[w].r, |s.ws|);
      match o
      case Going(r) => s.(m := m, ws := s.ws[w := Leaving(r)])
      case Returned => s.(m := m, ws := s.ws[w := Gone(false)])
      case Crashed => s.(panicked := true)
  }

  ghost predicate Next(s: State, s': State) {
    exists step :: Enabled(s, step) && s' == Do(s, step)
  }

  /** A ring as broadcast finds it: the waiters in order, each with its channel. */
  ghost predicate Init(s: State) {
    var n := |s.ws|;
    && n > 0 && Sized(s.m, n) && s.b == Testing && !s.panicked
    && (forall i :: 0 <= i < n ==> s.m.nnext[i] == To(if i + 1 < n then i + 1 else 0))
    && (forall i :: 0 <= i < n ==> s.m.pprev[i] == To(if i > 0 then i - 1 else n - 1))
    && (forall i :: 0 <= i < n ==> s.m.ch[i] == (i > 0) && !s.m.closed[i])
    && (forall i :: 0 < i < n ==> s.ws[i].Asleep?) && s.ws[0] == Gone(false)
  }

  // ------------------------------------------------------------ rings that no removal has touched

  ghost function NextOf(i: nat, n: nat): Ptr { To(if i + 1 < n then i + 1 else 0) }

  /** The ring from waiter k on; those before have been taken off and their channels closed. */
  ghost function Ring(n: nat, k: nat): (m: Mem)
    requires 1 <= k <= n
    ensures Sized(m, n)
  {
    Mem(seq(n, i => if i == 0 then To(if k < n then k else 0) else if i < k then Nil else NextOf(i, n)),
        seq(n, i => if i == 0 then To(if k < n then n - 1 else 0)
                   else if i < k then Nil else To(if i == k then 0 else i - 1)),
        seq(n, i => i >= k),
        seq(n, i => 0 < i < k))
  }

  /** The same in the middle of taking off waiter k, before the given line. */
  ghost function RingAt(n: nat, k: nat, line: Line): (m: Mem)
    requires 1 <= k < n
    ensures Sized(m, n)
  {
    var m, next := Ring(n, k), NextOf(k, n);
    match line
    case L72 => m.(nnext := m.nnext[0 := next])
    case L73 => m.(nnext := m.nnext[0 := next], pprev := m.pprev[next.n := To(0)])
    case L74 => m.(nnext := m.nnext[0 := next][k := Nil], pprev := m.pprev[next.n := To(0)])
    case L75 => m.(nnext := m.nnext[0 := next][k := Nil], pprev := m.pprev[next.n := To(0)][k := Nil])
    case _ => m
  }

  /** And after all of it, with the channel not yet closed. */
  ghost function RingCut(n: nat, k: nat): (m: Mem)
    requires 1 <= k < n
    ensures Sized(m, n)
  {
    var m := RingAt(n, k, L75);
    m.(ch := m.ch[k := false])
  }

  /** What the broadcaster has read, before the given line. */
  ghost function OwnRemoval(n: nat, k: nat, line: Line): Removal {
    Removal(k, line, if line in {L68, L69} then Nil else NextOf(k, n), if line in {L68, L69, L70} then Nil else To(0))
  }

  /** The broadcaster has come to waiter k of an untouched ring. */
  ghost predicate Untouched(n: nat, m: Mem, b: Broadcaster, k: nat) {
    1 <= k <= n &&
    match b
    case Testing => m == Ring(n, k)
    case Picking => k < n && m == Ring(n, k)
    case Reading(f) => f == k < n && m == Ring(n, k)
    case Removing(f, ch, r) => f == k < n && ch && r == OwnRemoval(n, k, r.line) && m == RingAt(n, k, r.line)
    case Closing(f, ch) => f == k < n && ch && m == RingCut(n, k)
    case Done => k == n && m == Ring(n, n)
  }

  /** The waiter the broadcaster comes to next. */
  ghost function After(n: nat, b: Broadcaster, k: nat): nat { if b.Closing? then k + 1 else k }

  lemma CutClosed(n: nat, k: nat)
    requires 1 <= k < n
    ensures var m := RingCut(n, k); m.(closed := m.closed[k := true]) == Ring(n, k + 1)
  {
    var m := RingCut(n, k);
    var m', r := m.(closed := m.closed[k := true]), Ring(n, k + 1);
    assert m'.nnext == r.nnext;
    assert m'.pprev == r.pprev;
    assert m'.ch == r.ch && m'.closed == r.closed;
  }

  /** Left alone, the broadcaster takes the waiters off one after the other. */
  lemma BroadcastKeepsUntouched(s: State, k: nat)
    requires Formed(s) && !s.b.Done? && !s.panicked && Untouched(|s.ws|, s.m, s.b, k)
    ensures var s' := BroadcastStep(s);
            !s'.panicked && s'.ws == s.ws && Untouched(|s.ws|, s'.m, s'.b, After(|s.ws|, s.b, k))
  {
    if s.b.Closing? {
      CutClosed(|s.ws|, k);
    } else if s.b.Removing? {
      RemoveKeepsUntouched(|s.ws|, k, s.b.r.line);
    }
  }

  lemma RemoveKeepsUntouched(n: nat, k: nat, line: Line)
    requires 1 <= k < n
    ensures var (m, o) := RemoveStep(RingAt(n, k, line), OwnRemoval(n, k, line), n);
            match o
            case Going(r) => r == OwnRemoval(n, k, r.line) && m == RingAt(n, k, r.line)
            case Returned => m == RingCut(n, k)
            case Crashed => false
  {
  }

  /** Waiter w is still linked into the ring. */
  ghost predicate StillOn(n: nat, b: Broadcaster, k: nat, w: nat) {
    k < w < n || (w == k < n && !b.Closing? && !(b.Removing? && b.r.line in {L74, L75}))
  }

  /** What an untouched ring says about waiter w. */
  lemma ReadOut(n: nat, m: Mem, b: Broadcaster, k: nat, w: nat)
    requires Untouched(n, m, b, k) && 0 < w < n
    ensures Sized(m, n)
    ensures m.nnext[w] != Nil <==> StillOn(n, b, k, w)
    ensures m.closed[w] <==> w < k
    ensures StillOn(n, b, k, w) ==> m.nnext[w] != To(w) && m.pprev[w] != Nil && m.pprev[w] != To(w)
  {
  }

  lemma PointersFit(n: nat, m: Mem, b: Broadcaster, k: nat)
    requires Untouched(n, m, b, k)
    ensures Sized(m, n) && forall i :: 0 <= i < n ==> Fits(m.nnext[i], n) && Fits(m.pprev[i], n)
  {
  }

  ghost predicate Linked(s: State, w: nat) { w < |s.m.nnext| && s.m.nnext[w] != Nil }

  /** Waiters in a run in which nobody has got past line 68 of its own removal: those still linked sleep,
      or hold the lock and are about to make the test. */
  ghost predicate Quiet(ws: seq<Waiter>, b: Broadcaster, k: nat) {
    && |ws| > 0 && ws[0].Gone?
    && (forall w :: 0 < w < |ws| && ws[w].Leaving? ==> ws[w].r == Begin(w))
    && (forall v, w :: 0 < v < |ws| && 0 < w < |ws| && ws[v].Leaving? && ws[w].Leaving? ==> v == w)
    && (forall w :: 0 < w < |ws| && ws[w].Gone? ==> !StillOn(|ws|, b, k, w))
  }

  ghost predicate CalmAt(s: State, k: nat) {
    !s.panicked && Untouched(|s.ws|, s.m, s.b, k) && Quiet(s.ws, s.b, k)
  }

  ghost predicate Calm(s: State) { exists k :: CalmAt(s, k) }

  lemma CalmIsFormed(s: State, k: nat)
    requires CalmAt(s, k)
    ensures Formed(s)
  {
    PointersFit(|s.ws|, s.m, s.b, k);
  }

  /** Any step but a waiter passing the test of its own removal. */
  ghost predicate CalmStep(s: State, step: Step) { step.Leave? ==> !Linked(s, step.w) }

  ghost predicate CalmNext(s: State, s': State) {
    exists step :: Enabled(s, step) && CalmStep(s, step) && s' == Do(s, step)
  }

  /** Once off the ring a waiter stays off. */
  lemma StaysOff(n: nat, b: Broadcaster, b': Broadcaster, k: nat, k': nat, w: nat)
    requires !StillOn(n, b, k, w) && 0 < w < n && k <= k'
    requires k == k' && b.Removing? && b.r.line in {L74, L75} ==> b'.Closing? || (b'.Removing? && b'.r.line == L75)
    requires k == k' ==> !b.Closing?
    ensures !StillOn(n, b', k', w)
  {
  }

  lemma BroadcastIsCalm(s: State, k: nat)
    requires CalmAt(s, k) && Enabled(s, Broadcast)
    ensures CalmAt(Do(s, Broadcast), After(|s.ws|, s.b, k))
  {
    var s', k' := BroadcastStep(s), After(|s.ws|, s.b, k);
    BroadcastKeepsUntouched(s, k);
    forall w | 0 < w < |s.ws| && !StillOn(|s.ws|, s.b, k, w) ensures !StillOn(|s.ws|, s'.b, k', w) {
      StaysOff(|s.ws|, s.b, s'.b, k, k', w);
    }
  }

  lemma WaiterIsCalm(s: State, step: Step, k: nat)
    requires CalmAt(s, k) && Enabled(s, step) && CalmStep(s, step) && !step.Broadcast?
    ensures CalmAt(Do(s, step), k)
  {
    ReadOut(|s.ws|, s.m, s.b, k, step.w);
  }

  lemma CalmStepKeeps(s: State, step: Step)
    requires Calm(s) && Enabled(s, step) && CalmStep(s, step)
    ensures Calm(Do(s, step))
  {
    var k :| CalmAt(s, k);
    if step.Broadcast? {
      BroadcastIsCalm(s, k);
    } else {
      WaiterIsCalm(s, step, k);
    }
  }

  lemma InitIsCalm(s: State)
    requires Init(s)
    ensures Calm(s)
  {
    var r := Ring(|s.ws|, 1);
    assert s.m.nnext == r.nnext;
    assert s.m.pprev == r.pprev;
    assert s.m.ch == r.ch && s.m.closed == r.closed;
    assert CalmAt(s, 1);
  }

  lemma CalmNextKeeps(s: State, s': State)
    requires Calm(s) && CalmNext(s, s')
    ensures Calm(s')
  {
    var step :| Enabled(s, step) && CalmStep(s, step) && s' == Do(s, step);
    CalmStepKeeps(s, step);
  }

  lemma CalmRunIsCalm(run: seq<State>, i: nat)
    requires Runs.IsRun(Init, CalmNext, run) && i < |run|
    ensures Calm(run[i])
  {
    forall s | Init(s) ensures Calm(s) { InitIsCalm(s); }
    forall s, s' | Calm(s) && CalmNext(s, s') ensures Calm(s') { CalmNextKeeps(s, s'); }
    Runs.Invariance(Init, CalmNext, Calm, run, i);
  }

  /** The channels of the first waiters, and only those, have been closed. */
  ghost predicate ClosedUpTo(s: State, k: nat) {
    |s.m.closed| == |s.ws| && forall w :: 0 < w < |s.ws| ==> (s.m.closed[w] <==> w < k)
  }

  /** Without a waiter taking itself off the ring, the channels are closed in order, none twice, nothing
      panics, and at the end everybody's channel has been closed. */
  lemma UntouchedRingIsWorkedOff(run: seq<State>, i: nat)
    requires Runs.IsRun(Init, CalmNext, run) && i < |run|
    ensures !run[i].panicked && exists k :: ClosedUpTo(run[i], k)
    ensures run[i].b.Done? ==> ClosedUpTo(run[i], |run[i].ws|)
  {
    CalmRunIsCalm(run, i);
    var s := run[i];
    var k :| CalmAt(s, k);
    PointersFit(|s.ws|, s.m, s.b, k);
    forall w | 0 < w < |s.ws| ensures s.m.closed[w] <==> w < k { ReadOut(|s.ws|, s.m, s.b, k, w); }
    assert ClosedUpTo(s, k);
  }

  lemma RemovalStaysFitting(m: Mem, r: Removal, n: nat)
    requires Sized(m, n) && RemovalFits(r, n)
    requires forall i :: 0 <= i < n ==> Fits(m.nnext[i], n) && Fits(m.pprev[i], n)
    ensures var (m', o) := RemoveStep(m, r, n);
            && Sized(m', n) && (forall i :: 0 <= i < n ==> Fits(m'.nnext[i], n) && Fits(m'.pprev[i], n))
            && (o.Going? ==> RemovalFits(o.r, n) && o.r.n == r.n)
  {
  }

  /** The broadcaster keeps all pointers in memory. */
  lemma BroadcastStaysFormed(s: State)
    requires Formed(s) && !s.b.Done?
    ensures Formed(BroadcastStep(s)) && BroadcastStep(s).ws == s.ws
  {
    if s.b.Removing? {
      RemovalStaysFitting(s.m, s.b.r, |s.ws|);
    }
  }

  /** Whatever has happened to the ring: a step closes one channel that was open, or none; only the
      broadcaster closes; and nobody wakes whose channel has not been closed. */
  lemma StepEffect(s: State, step: Step)
    requires Enabled(s, step)
    ensures var s' := Do(s, step);
            && |s'.ws| == |s.ws| == |s'.m.closed|
            && (s'.m.closed == s.m.closed ||
                (step.Broadcast? && s.b.Closing? && !s.m.closed[s.b.f] && s'.m.closed == s.m.closed[s.b.f := true]))
            && (forall w :: 0 < w < |s.ws| && s'.ws[w] == Gone(true) && s.ws[w] != Gone(true) ==> s.m.closed[w])
  {
    if step.Leave? {
      RemovalClosesNothing(s.m, s.ws[step.w].r, |s.ws|);
    } else if step.Broadcast? && s.b.Removing? {
      RemovalClosesNothing(s.m, s.b.r, |s.ws|);
    }
  }

  lemma RemovalClosesNothing(m: Mem, r: Removal, n: nat)
    requires Sized(m, n) && RemovalFits(r, n)
    ensures RemoveStep(m, r, n).0.closed == m.closed && Sized(RemoveStep(m, r, n).0, n)
  {
  }
}
