/** socket/sendqueue.go:97-282: the blocking protocol of SendQueue over its own condition variables,
    whose waits may time out.  A region under listGuard is one step, and so is one under the lock of a
    condition variable: entering its wait list, a signal's pop, carrying the list away, and the removal
    of a waiter on the list that timed out.

    The list that broadcast carried away is worked off without that lock.  As long as no waiter on it times
    out that is one waiter after the other.  Once one has, the ring is shaky: any of those left may be
    woken next, the work may end early, or it may panic.  RingRace has every line of it, and RingSeen shows
    that nothing else happens to those in hand. */
module CondQueue {
  import opened Sequences
  import Runs

  datatype Cond = NotEmpty | NotFull   // emptyCond and fullCond

  /** Where a sleeper is: on the wait list; taken off it by thread u, who is to close its channel; or on a
      ring that nobody holds any more. */
  datatype Place = Listed | With(u: nat) | Stranded

  datatype Pc =
    | Idle
    | Asleep(c: Cond, timed: bool, at: Place)
    | Woken(c: Cond, ok: bool, timed: bool)                 // about to take listGuard again
    | Signalling                                            // about to call emptyCond.signal
    | Broadcasting(c: Cond)                                 // about to call broadcast
    | Notifying(c: Cond, rest: seq<nat>, closing: bool, shaky: bool)  // has the sleepers of rest in hand

  datatype Waiters = Waiters(list: seq<nat>, waited: int)

  datatype Shared = Shared(
    len: nat, fullSize: int, closed: bool, panicked: bool, notEmpty: Waiters, notFull: Waiters)

  datatype State = State(g: Shared, pc: seq<Pc>)

  datatype Op =
    | Add | AddWithTimeout(timed: bool) | AddResume | Timeout | LateTimeout | Get | GetResume
    | SignalTake | BroadcastTake | NotifyOne | StrayWake(x: nat) | StrayEnd | StrayPanic | NotifyDone
    | Close | SetFullSize(newSize: int)

  ghost predicate Init(s: State) {
    && s.g.len == 0 && s.g.fullSize > 0 && !s.g.closed && !s.g.panicked
    && s.g.notEmpty == Waiters([], 0) && s.g.notFull == Waiters([], 0)
    && forall t :: 0 <= t < |s.pc| ==> s.pc[t] == Idle
  }

  ghost function On(g: Shared, c: Cond): Waiters {
    if c.NotEmpty? then g.notEmpty else g.notFull
  }

  ghost function Put(g: Shared, c: Cond, w: Waiters): Shared {
    if c.NotEmpty? then g.(notEmpty := w) else g.(notFull := w)
  }

  ghost predicate Enabled(s: State, t: nat, op: Op) {
    t < |s.pc| && !s.g.panicked && var p := s.pc[t];
    match op
    case Add => p.Idle?
    case AddWithTimeout(_) => p.Idle?
    case AddResume => p.Woken? && p.c.NotFull?
    case Timeout => p.Asleep? && p.timed && (p.at.With? ==> p.at.u < |s.pc| && s.pc[p.at.u].Notifying?)
    case LateTimeout => p.Woken? && p.ok && p.timed
    case Get => p.Idle?
    case GetResume => p.Woken? && p.c.NotEmpty?
    case SignalTake => p.Signalling?
    case BroadcastTake => p.Broadcasting?
    case NotifyOne =>
      p.Notifying? && !p.shaky && p.rest != [] && p.rest[0] < |s.pc| && s.pc[p.rest[0]].Asleep?
    case StrayWake(x) => p.Notifying? && p.shaky && x in p.rest && x < |s.pc| && s.pc[x].Asleep?
    case StrayEnd => p.Notifying? && p.shaky && p.rest != []
    case StrayPanic => p.Notifying? && p.shaky
    case NotifyDone => p.Notifying? && p.rest == []
    case Close => p.Idle?
    case SetFullSize(_) => p.Idle?
  }

  /** wait and waitWithTimeout up to the point where the thread sleeps. */
  ghost function Sleep(s: State, t: nat, c: Cond, timed: bool): State
    requires t < |s.pc|
  {
    var w := On(s.g, c);
    State(Put(s.g, c, Waiters(w.list + [t], w.waited + 1)), s.pc[t := Asleep(c, timed, Listed)])
  }

  ghost function AddBody(s: State, t: nat, timed: bool): State
    requires t < |s.pc|
  {
    if s.g.len >= s.g.fullSize then Sleep(s, t, NotFull, timed)
    else State(s.g.(len := s.g.len + 1), s.pc[t := if s.g.notEmpty.waited > 0 then Signalling else Idle])
  }

  ghost function GetBody(s: State, t: nat): State
    requires t < |s.pc|
  {
    if !s.g.closed && s.g.len == 0 then Sleep(s, t, NotEmpty, false)
    else State(s.g.(len := 0), s.pc[t := if s.g.notFull.waited > 0 then Broadcasting(NotFull) else Idle])
  }

  /** A woken thread has taken the lock and left the wait. */
  ghost function Resumed(s: State, t: nat, c: Cond): State
    requires t < |s.pc|
  {
    State(Put(s.g, c, On(s.g, c).(waited := On(s.g, c).waited - 1)), s.pc[t := Idle])
  }

  /** Thread t takes the first n waiters off the list. */
  ghost function Take(s: State, t: nat, c: Cond, n: nat, closing: bool): State
    requires t < |s.pc| && n <= |On(s.g, c).list|
  {
    var w := On(s.g, c);
    State(Put(s.g, c, w.(list := w.list[n..])),
          Claim(s.pc, w.list[..n], With(t))[t := Notifying(c, w.list[..n], closing, false)])
  }

  ghost function Claim(pc: seq<Pc>, ids: seq<nat>, at: Place): (r: seq<Pc>)
    ensures |r| == |pc|
    ensures forall x :: 0 <= x < |pc| ==> r[x] == if x in ids && pc[x].Asleep? then pc[x].(at := at) else pc[x]
  {
    seq(|pc|, x requires 0 <= x < |pc| => if x in ids && pc[x].Asleep? then pc[x].(at := at) else pc[x])
  }

  /** Thread t lets go of sleeper x, who goes on with p. */
  ghost function Release(s: State, t: nat, x: nat, p: Pc, shaky: bool): State
    requires t < |s.pc| && x < |s.pc| && s.pc[t].Notifying?
  {
    s.(pc := s.pc[x := p][t := s.pc[t].(rest := Without(s.pc[t].rest, x), shaky := shaky)])
  }

  ghost function Do(s: State, t: nat, op: Op): State
    requires Enabled(s, t, op)
  {
    var p := s.pc[t];
    match op
    case Add => if s.g.closed || s.g.len >= s.g.fullSize then s else AddBody(s, t, false)
    case AddWithTimeout(timed) => if s.g.closed then s else AddBody(s, t, timed)
    case AddResume =>
      var s' := Resumed(s, t, NotFull);
      if s.g.closed || !p.ok then s' else AddBody(s', t, p.timed)
    case Timeout =>
      var w := On(s.g, p.c);
      var woken := Woken(p.c, false, true);
      (match p.at
       case Listed => State(Put(s.g, p.c, w.(list := Without(w.list, t))), s.pc[t := woken])
       case With(u) => Release(s, u, t, woken, true)
       case Stranded => s.(pc := s.pc[t := woken]))
    case LateTimeout => s.(pc := s.pc[t := p.(ok := false)])  // its channel was closed after the ticker was chosen
    case Get => GetBody(s, t)
    case GetResume => GetBody(Resumed(s, t, NotEmpty), t)
    case SignalTake =>
      if s.g.notEmpty.list == [] then s.(pc := s.pc[t := Idle])
      else Take(s, t, NotEmpty, 1, false)
    case BroadcastTake => Take(s, t, p.c, |On(s.g, p.c).list|, p.c.NotEmpty?)
    case NotifyOne =>
      var x := p.rest[0];
      Release(s, t, x, Woken(s.pc[x].c, true, s.pc[x].timed), false)
    case StrayWake(x) => Release(s, t, x, Woken(s.pc[x].c, true, s.pc[x].timed), true)
    case StrayEnd => s.(pc := Claim(s.pc, p.rest, Stranded)[t := p.(rest := [])])
    case StrayPanic => s.(g := s.g.(panicked := true))
    case NotifyDone => s.(pc := s.pc[t := if p.closing then Broadcasting(NotFull) else Idle])
    case Close =>
      if s.g.closed then s else State(s.g.(closed := true), s.pc[t := Broadcasting(NotEmpty)])
    case SetFullSize(newSize) =>
      if newSize <= 0 then s
      else State(s.g.(fullSize := newSize),
                 s.pc[t := if s.g.fullSize < newSize && s.g.notFull.waited > 0 then Broadcasting(NotFull) else Idle])
  }

  ghost predicate Next(s: State, s': State) {
    exists t: nat, op :: Enabled(s, t, op) && s' == Do(s, t, op)
  }

  // ------------------------------------------------------------ what a step does to the queue and to its caller

  /** An add that goes through: an open queue with room, and no timeout before. */
  ghost predicate Succeeds(s: State, t: nat, op: Op) {
    && !s.g.closed && s.g.len < s.g.fullSize
    && (op.Add? || op.AddWithTimeout? || (op.AddResume? && t < |s.pc| && s.pc[t].Woken? && s.pc[t].ok))
  }

  /** An element is accepted exactly then; a get takes all there is, and only if there is something or the
      queue is closed; nothing else changes the length.  Close closes, and the limit is the one set last. */
  lemma StepEffect(s: State, t: nat, op: Op)
    requires Enabled(s, t, op)
    ensures var g, g' := s.g, Do(s, t, op).g;
            && g'.len == (if Succeeds(s, t, op) then g.len + 1 else if op.Get? || op.GetResume? then 0 else g.len)
            && (g'.closed <==> g.closed || op.Close?)
            && g'.fullSize == if op.SetFullSize? && op.newSize > 0 then op.newSize else g.fullSize
  {
  }

  /** An add without a wait never sleeps.  One with a wait goes to sleep exactly when the queue is open and
      full, and it has not timed out; it returns otherwise, sending a signal on its way exactly when it has
      added something and a getter waits.  A get goes to sleep exactly when the queue is open and empty, and
      otherwise returns, sending a broadcast exactly when an adder waits. */
  lemma SleepsExactly(s: State, t: nat, op: Op)
    requires Enabled(s, t, op)
    ensures var p := Do(s, t, op).pc[t];
            && (op.Add? || op.AddWithTimeout? || op.AddResume? ==>
                  p == if !op.Add? && !s.g.closed && s.g.len >= s.g.fullSize && (op.AddResume? ==> s.pc[t].ok)
                       then Asleep(NotFull, if op.AddResume? then s.pc[t].timed else op.timed, Listed)
                       else if Succeeds(s, t, op) && s.g.notEmpty.waited > 0 then Signalling else Idle)
            && (op.Get? || op.GetResume? ==>
                  p == if !s.g.closed && s.g.len == 0 then Asleep(NotEmpty, false, Listed)
                       else if s.g.notFull.waited > 0 then Broadcasting(NotFull) else Idle)
  {
  }
}
