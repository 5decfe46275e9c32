/** socket/sendqueue.go:97-282: what every step of CondQueue keeps, and what follows for every sleeper. */
module CondInvariant {
  import opened Sequences
  import opened CondSpots
  import opened CondQueue
  import opened CondTracking
  import Runs

  /** Will look at the list, or make a getter look. */
  ghost predicate Looks(p: Pc) {
    p.Signalling? || (p.Notifying? && p.c.NotEmpty? && p.rest != []) || (p.Woken? && p.c.NotEmpty?)
  }

  /** Will yet empty the wait list of fullCond. */
  ghost predicate WillBroadcast(p: Pc) { p.Broadcasting? || (p.Notifying? && p.closing) }

  ghost predicate FreesGetters(p: Pc) { p == Broadcasting(NotEmpty) }
  ghost predicate FreesAdders(p: Pc) { p == Broadcasting(NotFull) }

  ghost predicate Anyone(pc: seq<Pc>, f: Pc -> bool) { exists t :: 0 <= t < |pc| && f(pc[t]) }

  /** Whoever is on a wait list has nothing to wake up for, or somebody will see to it. */
  ghost predicate Promises(s: State) {
    && (s.g.notEmpty.list != [] && s.g.len > 0 ==> Anyone(s.pc, Looks))
    && (s.g.notEmpty.list != [] && s.g.closed ==> Anyone(s.pc, FreesGetters))
    && (s.g.notFull.list != [] && s.g.len < s.g.fullSize ==> Anyone(s.pc, FreesAdders))
    && (s.g.notFull.list != [] && s.g.closed ==> Anyone(s.pc, WillBroadcast))
  }

  ghost predicate AllTracked(s: State) {
    Tracked(s.pc, NotEmpty, s.g.notEmpty) && Tracked(s.pc, NotFull, s.g.notFull)
  }

  /** Getters wait without a timeout, so a ring of getters is never shaky. */
  ghost predicate Steady(p: Pc) {
    && (p.Asleep? && p.c.NotEmpty? ==> !p.timed && !p.at.Stranded?)
    && (p.Woken? && p.c.NotEmpty? ==> p.ok && !p.timed)
    && (p.Notifying? && p.c.NotEmpty? ==> !p.shaky)
  }

  ghost predicate Locals(pc: seq<Pc>) { forall t :: 0 <= t < |pc| ==> Steady(pc[t]) }

  ghost predicate Core(s: State) { AllTracked(s) && Promises(s) }

  ghost predicate Inv(s: State) { Core(s) && Locals(s.pc) }

  lemma ListCounted(s: State, c: Cond)
    requires AllTracked(s) && On(s.g, c).list != []
    ensures On(s.g, c).waited > 0
  {
    var t := On(s.g, c).list[0];
    assert t in On(s.g, c).list;
    assert Spots(s.pc, c)[t] == OnList;
    SomebodyInside(s.pc, t, c);
  }

  lemma Kept(pc: seq<Pc>, t: nat, p: Pc, f: Pc -> bool)
    requires t < |pc| && Anyone(pc, f) && (f(pc[t]) ==> f(p))
    ensures Anyone(pc[t := p], f)
  {
    var u :| 0 <= u < |pc| && f(pc[u]);
    assert f(pc[t := p][u]);
  }

  lemma Met(pc: seq<Pc>, t: nat, p: Pc, f: Pc -> bool)
    requires t < |pc| && f(p)
    ensures Anyone(pc[t := p], f)
  {
    assert f(pc[t := p][t]);
  }

  /** One thread moves between points that do not concern any sleeper. */
  lemma PlainTracked(s: State, t: nat, p: Pc, g: Shared)
    requires AllTracked(s) && t < |s.pc|
    requires forall c :: SpotOf(p, c) == SpotOf(s.pc[t], c) && HandOf(p, c) == HandOf(s.pc[t], c)
    requires g.notEmpty.list == s.g.notEmpty.list && g.notFull.list == s.g.notFull.list
    requires forall c :: On(g, c).waited ==
               On(s.g, c).waited + (if Inside(p, c) then 1 else 0) - (if Inside(s.pc[t], c) then 1 else 0)
    ensures AllTracked(State(g, s.pc[t := p]))
  {
    PlainMove(s.pc, t, p, NotEmpty, s.g.notEmpty);
    PlainMove(s.pc, t, p, NotFull, s.g.notFull);
    assert On(g, NotEmpty) == g.notEmpty && On(g, NotFull) == g.notFull;
  }

  /** Going to sleep on c from Idle. */
  lemma SleepKeepsTracked(s: State, t: nat, c: Cond, timed: bool)
    requires AllTracked(s) && t < |s.pc| && s.pc[t].Idle?
    ensures AllTracked(Sleep(s, t, c, timed))
  {
    var d := if c.NotEmpty? then NotFull else NotEmpty;
    SleepTracked(s.pc, t, c, timed, On(s.g, c));
    PlainMove(s.pc, t, Asleep(c, timed, Listed), d, On(s.g, d));
  }

  lemma AddBodyKeepsCore(s: State, t: nat, timed: bool)
    requires Core(s) && !s.g.closed && t < |s.pc| && s.pc[t].Idle?
    ensures Core(AddBody(s, t, timed))
  {
    var s' := AddBody(s, t, timed);
    OthersKeep(s, t, s'.pc[t]);
    if s.g.len >= s.g.fullSize {
      SleepKeepsTracked(s, t, NotFull, timed);
    } else {
      PlainTracked(s, t, s'.pc[t], s'.g);
      if s.g.notEmpty.list != [] {
        ListCounted(s, NotEmpty);
        Met(s.pc, t, Signalling, Looks);
      }
    }
  }

  lemma GetBodyKeepsCore(s: State, t: nat)
    requires AllTracked(s) && t < |s.pc| && s.pc[t].Idle?
    requires s.g.notEmpty.list != [] && s.g.closed ==> Anyone(s.pc, FreesGetters)
    requires s.g.notFull.list != [] && s.g.len < s.g.fullSize ==> Anyone(s.pc, FreesAdders)
    requires s.g.notFull.list != [] && s.g.closed ==> Anyone(s.pc, WillBroadcast)
    ensures Core(GetBody(s, t))
  {
    var s' := GetBody(s, t);
    OthersKeep(s, t, s'.pc[t]);
    if !s.g.closed && s.g.len == 0 {
      SleepKeepsTracked(s, t, NotEmpty, false);
    } else {
      PlainTracked(s, t, s'.pc[t], s'.g);
      if s.g.notFull.list != [] {
        ListCounted(s, NotFull);
        Met(s.pc, t, Broadcasting(NotFull), FreesAdders);
      }
    }
  }

  lemma ResumedTracked(s: State, t: nat)
    requires AllTracked(s) && t < |s.pc| && s.pc[t].Woken?
    ensures AllTracked(Resumed(s, t, s.pc[t].c))
  {
    PlainTracked(s, t, Idle, Resumed(s, t, s.pc[t].c).g);
  }

  lemma AddResumeKeepsCore(s: State, t: nat)
    requires Core(s) && Enabled(s, t, AddResume)
    ensures Core(Do(s, t, AddResume))
  {
    var p, s' := s.pc[t], Resumed(s, t, NotFull);
    ResumedTracked(s, t);
    OthersKeep(s, t, Idle);
    if !s.g.closed && p.ok {
      AddBodyKeepsCore(s', t, p.timed);
    }
  }

  lemma GetResumeKeepsCore(s: State, t: nat)
    requires Core(s) && Enabled(s, t, GetResume)
    ensures Core(Do(s, t, GetResume))
  {
    ResumedTracked(s, t);
    OthersKeep(s, t, Idle);
    GetBodyKeepsCore(Resumed(s, t, NotEmpty), t);
  }

  /** The promises that do not rest on the thread that moves. */
  lemma OthersKeep(s: State, t: nat, p: Pc)
    requires t < |s.pc|
    ensures Anyone(s.pc, Looks) && (Looks(s.pc[t]) ==> Looks(p)) ==> Anyone(s.pc[t := p], Looks)
    ensures Anyone(s.pc, FreesGetters) && s.pc[t] != Broadcasting(NotEmpty) ==>
              Anyone(s.pc[t := p], FreesGetters)
    ensures Anyone(s.pc, FreesAdders) && s.pc[t] != Broadcasting(NotFull) ==>
              Anyone(s.pc[t := p], FreesAdders)
    ensures Anyone(s.pc, WillBroadcast) && (WillBroadcast(s.pc[t]) ==> WillBroadcast(p)) ==>
              Anyone(s.pc[t := p], WillBroadcast)
  {
    if Anyone(s.pc, Looks) && (Looks(s.pc[t]) ==> Looks(p)) { Kept(s.pc, t, p, Looks); }
    if Anyone(s.pc, FreesGetters) && s.pc[t] != Broadcasting(NotEmpty) {
      Kept(s.pc, t, p, FreesGetters);
    }
    if Anyone(s.pc, FreesAdders) && s.pc[t] != Broadcasting(NotFull) {
      Kept(s.pc, t, p, FreesAdders);
    }
    if Anyone(s.pc, WillBroadcast) && (WillBroadcast(s.pc[t]) ==> WillBroadcast(p)) { Kept(s.pc, t, p, WillBroadcast); }
  }

  /** Sleepers change their place: those who promised still do. */
  lemma ClaimKeeps(pc: seq<Pc>, ids: seq<nat>, at: Place, t: nat, q: Pc, f: Pc -> bool)
    requires t < |pc| && Anyone(pc, f) && (forall p: Pc :: p.Asleep? ==> !f(p)) && (f(pc[t]) ==> f(q))
    ensures Anyone(Claim(pc, ids, at)[t := q], f)
  {
    var u :| 0 <= u < |pc| && f(pc[u]);
    assert f(Claim(pc, ids, at)[t := q][u]);
  }

  lemma ClaimKeepsAll(pc: seq<Pc>, ids: seq<nat>, at: Place, t: nat, q: Pc)
    requires t < |pc|
    ensures var pc' := Claim(pc, ids, at)[t := q];
            && (Anyone(pc, Looks) && (Looks(pc[t]) ==> Looks(q)) ==> Anyone(pc', Looks))
            && (Anyone(pc, FreesGetters) && (FreesGetters(pc[t]) ==> FreesGetters(q)) ==> Anyone(pc', FreesGetters))
            && (Anyone(pc, FreesAdders) && (FreesAdders(pc[t]) ==> FreesAdders(q)) ==> Anyone(pc', FreesAdders))
            && (Anyone(pc, WillBroadcast) && (WillBroadcast(pc[t]) ==> WillBroadcast(q)) ==> Anyone(pc', WillBroadcast))
  {
    if Anyone(pc, Looks) && (Looks(pc[t]) ==> Looks(q)) { ClaimKeeps(pc, ids, at, t, q, Looks); }
    if Anyone(pc, FreesGetters) && (FreesGetters(pc[t]) ==> FreesGetters(q)) {
      ClaimKeeps(pc, ids, at, t, q, FreesGetters);
    }
    if Anyone(pc, FreesAdders) && (FreesAdders(pc[t]) ==> FreesAdders(q)) {
      ClaimKeeps(pc, ids, at, t, q, FreesAdders);
    }
    if Anyone(pc, WillBroadcast) && (WillBroadcast(pc[t]) ==> WillBroadcast(q)) {
      ClaimKeeps(pc, ids, at, t, q, WillBroadcast);
    }
  }

  ghost function Other(c: Cond): Cond { if c.NotEmpty? then NotFull else NotEmpty }

  lemma TakeKeepsTracked(s: State, t: nat, c: Cond, n: nat, closing: bool)
    requires AllTracked(s) && t < |s.pc| && (s.pc[t].Signalling? || s.pc[t].Broadcasting?) && n <= |On(s.g, c).list|
    ensures AllTracked(Take(s, t, c, n, closing))
  {
    var w, d := On(s.g, c), Other(c);
    TakeTracked(s.pc, t, c, n, closing, w);
    forall x | 0 <= x < |s.pc| && x in w.list[..n] ensures s.pc[x].Asleep? && s.pc[x].c == c {
      assert x in w.list;
      assert Spots(s.pc, c)[x] == OnList;
    }
    ClaimElsewhere(s.pc, t, c, w.list[..n], With(t), Notifying(c, w.list[..n], closing, false), d, On(s.g, d));
  }

  lemma SignalKeepsCore(s: State, t: nat)
    requires Core(s) && Enabled(s, t, SignalTake)
    ensures Core(Do(s, t, SignalTake))
  {
    if s.g.notEmpty.list == [] {
      PlainTracked(s, t, Idle, s.g);
      OthersKeep(s, t, Idle);
    } else {
      TakeKeepsTracked(s, t, NotEmpty, 1, false);
      SignalKeepsPromises(s, t);
    }
  }

  lemma SignalKeepsPromises(s: State, t: nat)
    requires Promises(s) && Enabled(s, t, SignalTake) && s.g.notEmpty.list != []
    ensures Promises(Do(s, t, SignalTake))
  {
    var s', ids := Do(s, t, SignalTake), s.g.notEmpty.list[..1];
    assert Looks(s'.pc[t]);
    ClaimKeepsAll(s.pc, ids, With(t), t, s'.pc[t]);
  }

  lemma BroadcastKeepsCore(s: State, t: nat)
    requires Core(s) && Enabled(s, t, BroadcastTake)
    ensures Core(Do(s, t, BroadcastTake))
  {
    var c := s.pc[t].c;
    TakeKeepsTracked(s, t, c, |On(s.g, c).list|, c.NotEmpty?);
    BroadcastKeepsPromises(s, t);
  }

  lemma BroadcastKeepsPromises(s: State, t: nat)
    requires Promises(s) && Enabled(s, t, BroadcastTake)
    ensures Promises(Do(s, t, BroadcastTake))
  {
    var c, s' := s.pc[t].c, Do(s, t, BroadcastTake);
    ClaimKeepsAll(s.pc, On(s.g, c).list[..|On(s.g, c).list|], With(t), t, s'.pc[t]);
    if c.NotEmpty? {
      assert WillBroadcast(s'.pc[t]);
    }
  }

  /** Whom a thread has in hand, sleeps, and knows it. */
  lemma InHands(s: State, u: nat, x: nat)
    requires AllTracked(s) && u < |s.pc| && s.pc[u].Notifying? && x in s.pc[u].rest
    ensures x < |s.pc| && s.pc[x].Asleep? && s.pc[x].c == s.pc[u].c && s.pc[x].at == With(u)
  {
    var c := s.pc[u].c;
    assert Has(Hands(s.pc, c), u, x);
    assert Spots(s.pc, c)[x] == SpotOf(s.pc[x], c);
  }

  /** The thread that has a sleeper in hand does have it. */
  lemma HandOfSleeper(s: State, x: nat)
    requires AllTracked(s) && x < |s.pc| && s.pc[x].Asleep? && s.pc[x].at.With?
    ensures var u := s.pc[x].at.u;
            u < |s.pc| && s.pc[u].Notifying? && s.pc[u].c == s.pc[x].c && x in s.pc[u].rest
  {
    var c := s.pc[x].c;
    assert Spots(s.pc, c)[x] == InHand(s.pc[x].at.u);
    assert Has(Hands(s.pc, c), s.pc[x].at.u, x);
  }

  /** A sleeper in hand is let go: it wakes up, or its wait timed out. */
  lemma LetGoKeepsCore(s: State, u: nat, x: nat, q: Pc, p: Pc)
    requires Core(s) && u < |s.pc| && x < |s.pc| && s.pc[u].Notifying? && s.pc[x].Asleep? && s.pc[x].c == s.pc[u].c
    requires s.pc[x].at == With(u) && p.Woken? && p.c == s.pc[x].c
    requires q.Notifying? && q.c == s.pc[u].c && q.closing == s.pc[u].closing && q.rest == Without(s.pc[u].rest, x)
    ensures Core(s.(pc := s.pc[x := p][u := q]))
  {
    var c, d := s.pc[u].c, Other(s.pc[u].c);
    LetGo(s.pc, u, x, q, p, c, On(s.g, c));
    PlainMove(s.pc, x, p, d, On(s.g, d));
    PlainMove(s.pc[x := p], u, q, d, On(s.g, d));
    LetGoKeepsPromises(s, u, x, q, p);
  }

  lemma LetGoKeepsPromises(s: State, u: nat, x: nat, q: Pc, p: Pc)
    requires Promises(s) && u < |s.pc| && x < |s.pc| && u != x && s.pc[u].Notifying? && s.pc[x].Asleep?
    requires p.Woken? && q.Notifying? && s.pc[x].c == s.pc[u].c == q.c == p.c && q.closing == s.pc[u].closing
    ensures Promises(s.(pc := s.pc[x := p][u := q]))
  {
    var s1 := s.(pc := s.pc[x := p]);
    OthersKeep(s, x, p);
    OthersKeep(s1, u, q);
    if p.c.NotEmpty? {
      assert Looks(s1.pc[u := q][x]);
    }
  }

  /** A sleeper in hand wakes up. */
  lemma WakeKeepsCore(s: State, t: nat, op: Op)
    requires Core(s) && Enabled(s, t, op) && (op.NotifyOne? || op.StrayWake?)
    ensures Core(Do(s, t, op))
  {
    var p := s.pc[t];
    var x: nat := if op.NotifyOne? then p.rest[0] else op.x;
    assert x in p.rest;
    InHands(s, t, x);
    var q := p.(rest := Without(p.rest, x), shaky := op.StrayWake?);
    LetGoKeepsCore(s, t, x, q, Woken(s.pc[x].c, true, s.pc[x].timed));
  }

  /** Adders that are stranded take nothing from the promises to those on the wait list. */
  lemma StrandKeepsCore(s: State, t: nat)
    requires Core(s) && Enabled(s, t, StrayEnd) && s.pc[t].c.NotFull?
    ensures Core(Do(s, t, StrayEnd))
  {
    var lost, q := s.pc[t].rest, s.pc[t].(rest := []);
    StrandTracked(s.pc, t, q, s.g.notFull);
    forall x | 0 <= x < |s.pc| && x in lost ensures s.pc[x].Asleep? && s.pc[x].c == NotFull {
      InHands(s, t, x);
    }
    ClaimElsewhere(s.pc, t, NotFull, lost, Stranded, q, NotEmpty, s.g.notEmpty);
    ClaimKeepsAll(s.pc, lost, Stranded, t, q);
  }

  lemma TimeoutKeepsCore(s: State, t: nat)
    requires Core(s) && Enabled(s, t, Timeout)
    ensures Core(Do(s, t, Timeout))
  {
    var p, woken := s.pc[t], Woken(s.pc[t].c, false, true);
    if p.at.With? {
      HandOfSleeper(s, t);
      var q := s.pc[p.at.u];
      LetGoKeepsCore(s, p.at.u, t, q.(rest := Without(q.rest, t), shaky := true), woken);
    } else if p.at.Listed? {
      GiveUp(s.pc, t, woken, p.c, On(s.g, p.c));
      PlainMove(s.pc, t, woken, Other(p.c), On(s.g, Other(p.c)));
      OthersKeep(s, t, woken);
    } else {
      PlainTracked(s, t, woken, s.g);
      OthersKeep(s, t, woken);
    }
  }

  lemma LateTimeoutKeepsCore(s: State, t: nat)
    requires Core(s) && Enabled(s, t, LateTimeout)
    ensures Core(Do(s, t, LateTimeout))
  {
    var p := s.pc[t].(ok := false);
    PlainTracked(s, t, p, s.g);
    OthersKeep(s, t, p);
  }

  lemma NotifyDoneKeepsCore(s: State, t: nat)
    requires Core(s) && Enabled(s, t, NotifyDone)
    ensures Core(Do(s, t, NotifyDone))
  {
    var p := Do(s, t, NotifyDone).pc[t];
    PlainTracked(s, t, p, s.g);
    OthersKeep(s, t, p);
  }

  lemma CloseKeepsCore(s: State, t: nat)
    requires Core(s) && Enabled(s, t, Close)
    ensures Core(Do(s, t, Close))
  {
    var s' := Do(s, t, Close);
    if !s.g.closed {
      PlainTracked(s, t, s'.pc[t], s'.g);
      OthersKeep(s, t, s'.pc[t]);
      Met(s.pc, t, s'.pc[t], FreesGetters);
      Met(s.pc, t, s'.pc[t], WillBroadcast);
    }
  }

  lemma ResizeKeepsCore(s: State, t: nat, newSize: int)
    requires Core(s) && Enabled(s, t, SetFullSize(newSize))
    ensures Core(Do(s, t, SetFullSize(newSize)))
  {
    var s' := Do(s, t, SetFullSize(newSize));
    if newSize > 0 {
      PlainTracked(s, t, s'.pc[t], s'.g);
      OthersKeep(s, t, s'.pc[t]);
      if s.g.notFull.list != [] && s.g.fullSize < newSize {
        ListCounted(s, NotFull);
        Met(s.pc, t, s'.pc[t], FreesAdders);
      }
    }
  }

  lemma StepKeepsCore(s: State, t: nat, op: Op)
    requires Inv(s) && Enabled(s, t, op)
    ensures Core(Do(s, t, op))
  {
    match op
    case Add => if !(s.g.closed || s.g.len >= s.g.fullSize) { AddBodyKeepsCore(s, t, false); }
    case AddWithTimeout(timed) => if !s.g.closed { AddBodyKeepsCore(s, t, timed); }
    case AddResume => AddResumeKeepsCore(s, t);
    case Timeout => TimeoutKeepsCore(s, t);
    case LateTimeout => LateTimeoutKeepsCore(s, t);
    case Get => GetBodyKeepsCore(s, t);
    case GetResume => GetResumeKeepsCore(s, t);
    case SignalTake => SignalKeepsCore(s, t);
    case BroadcastTake => BroadcastKeepsCore(s, t);
    case NotifyOne => WakeKeepsCore(s, t, op);
    case StrayWake(_) => WakeKeepsCore(s, t, op);
    case StrayEnd =>
      assert Steady(s.pc[t]);
      StrandKeepsCore(s, t);
    case StrayPanic =>
    case NotifyDone => NotifyDoneKeepsCore(s, t);
    case Close => CloseKeepsCore(s, t);
    case SetFullSize(newSize) => ResizeKeepsCore(s, t, newSize);
  }

  /** A thread moves alone. */
  lemma LocalMove(pc: seq<Pc>, t: nat, p: Pc)
    requires Locals(pc) && t < |pc| && Steady(p)
    ensures Locals(pc[t := p])
  {
  }

  lemma ClaimKeepsLocals(pc: seq<Pc>, ids: seq<nat>, at: Place, t: nat, q: Pc)
    requires Locals(pc) && t < |pc| && Steady(q)
    requires at.Stranded? ==> forall x :: 0 <= x < |pc| && x in ids ==> pc[x].Asleep? && pc[x].c.NotFull?
    ensures Locals(Claim(pc, ids, at)[t := q])
  {
  }

  lemma TimeoutKeepsLocals(s: State, t: nat)
    requires Inv(s) && Enabled(s, t, Timeout)
    ensures Locals(Do(s, t, Timeout).pc)
  {
    var p := s.pc[t];
    LocalMove(s.pc, t, Woken(p.c, false, true));
    if p.at.With? {
      HandOfSleeper(s, t);
      var u := p.at.u;
      LocalMove(s.pc[t := Woken(p.c, false, true)], u, s.pc[u].(rest := Without(s.pc[u].rest, t), shaky := true));
    }
  }

  lemma NotifyKeepsLocals(s: State, t: nat, op: Op)
    requires Inv(s) && Enabled(s, t, op) && (op.NotifyOne? || op.StrayWake? || op.StrayEnd?)
    ensures Locals(Do(s, t, op).pc)
  {
    var p, s' := s.pc[t], Do(s, t, op);
    assert Steady(p);
    if op.StrayEnd? {
      forall x | 0 <= x < |s.pc| && x in p.rest ensures s.pc[x].Asleep? && s.pc[x].c.NotFull? {
        InHands(s, t, x);
      }
      ClaimKeepsLocals(s.pc, p.rest, Stranded, t, s'.pc[t]);
    } else {
      var x := if op.NotifyOne? then p.rest[0] else op.x;
      assert x in p.rest;
      InHands(s, t, x);
      assert Steady(s.pc[x]);
      LocalMove(s.pc, x, s'.pc[x]);
      LocalMove(s.pc[x := s'.pc[x]], t, s'.pc[t]);
    }
  }

  lemma StepKeepsLocals(s: State, t: nat, op: Op)
    requires Inv(s) && Enabled(s, t, op)
    ensures Locals(Do(s, t, op).pc)
  {
    var s' := Do(s, t, op);
    match op
    case Timeout => TimeoutKeepsLocals(s, t);
    case NotifyOne => NotifyKeepsLocals(s, t, op);
    case StrayWake(_) => NotifyKeepsLocals(s, t, op);
    case StrayEnd => NotifyKeepsLocals(s, t, op);
    case StrayPanic =>
    case BroadcastTake => ClaimKeepsLocals(s.pc, On(s.g, s.pc[t].c).list[..|On(s.g, s.pc[t].c).list|],
            With(t), t, s'.pc[t]);
    case SignalTake =>
      if s.g.notEmpty.list != [] {
        ClaimKeepsLocals(s.pc, s.g.notEmpty.list[..1], With(t), t, s'.pc[t]);
      }
    case _ =>
      LocalMove(s.pc, t, s'.pc[t]);
      LocalMove(s.pc, t, Idle);
  }

  lemma StepKeepsInv(s: State, t: nat, op: Op)
    requires Inv(s) && Enabled(s, t, op)
    ensures Inv(Do(s, t, op))
  {
    StepKeepsCore(s, t, op);
    StepKeepsLocals(s, t, op);
  }

  // ------------------------------------------------------------ main theorems

  lemma {:induction false} NobodyInside(pc: seq<Pc>, c: Cond)
    requires forall t :: 0 <= t < |pc| ==> pc[t] == Idle
    ensures Insiders(pc, c) == 0
  {
    if pc != [] {
      NobodyInside(pc[..|pc| - 1], c);
    }
  }

  lemma InitKeepsInv(s: State)
    requires Init(s)
    ensures Inv(s)
  {
    NobodyInside(s.pc, NotEmpty);
    NobodyInside(s.pc, NotFull);
  }

  lemma NextKeepsInv(s: State, s': State)
    requires Inv(s) && Next(s, s')
    ensures Inv(s')
  {
    var t: nat, op :| Enabled(s, t, op) && s' == Do(s, t, op);
    StepKeepsInv(s, t, op);
  }

  lemma RunKeepsInv(run: seq<State>, k: nat)
    requires Runs.IsRun(Init, Next, run) && k < |run|
    ensures Inv(run[k])
  {
    forall s | Init(s) ensures Inv(s) { InitKeepsInv(s); }
    forall s, s' | Inv(s) && Next(s, s') ensures Inv(s') { NextKeepsInv(s, s'); }
    Runs.Invariance(Init, Next, Inv, run, k);
  }

  /** The conditions that make steps well defined exclude nothing that is reachable. */
  lemma NothingExcluded(run: seq<State>, k: nat, t: nat, x: nat)
    requires Runs.IsRun(Init, Next, run) && k < |run| && !run[k].g.panicked && t < |run[k].pc|
    ensures var p := run[k].pc[t];
            && (p.Notifying? && p.rest != [] && !p.shaky ==> Enabled(run[k], t, NotifyOne))
            && (p.Notifying? && x in p.rest && p.shaky ==> Enabled(run[k], t, StrayWake(x)))
            && (p.Asleep? && p.timed ==> Enabled(run[k], t, Timeout))
  {
    RunKeepsInv(run, k);
    var s := run[k];
    if s.pc[t].Notifying? && s.pc[t].rest != [] {
      InHands(s, t, s.pc[t].rest[0]);
      if x in s.pc[t].rest {
        InHands(s, t, x);
      }
    }
    if s.pc[t].Asleep? && s.pc[t].at.With? {
      HandOfSleeper(s, t);
    }
  }

  /** Every sleeper is on its wait list, or in the hands of exactly one thread, or stranded.  If it is on the
      list and there is something for it to wake up for, somebody who will look, or broadcast, is on the
      way.  A getter is never in shaky hands and never stranded. */
  lemma NoSleeperForgotten(run: seq<State>, k: nat, x: nat)
    requires Runs.IsRun(Init, Next, run) && k < |run| && x < |run[k].pc| && run[k].pc[x].Asleep?
    ensures var s := run[k]; var p := s.pc[x];
            match p.at
            case With(u) =>
              u < |s.pc| && s.pc[u].Notifying? && s.pc[u].c == p.c && x in s.pc[u].rest &&
              (p.c.NotEmpty? ==> !s.pc[u].shaky)
            case Listed =>
              x in On(s.g, p.c).list &&
              (if p.c.NotEmpty? then
                 (s.g.len > 0 ==> Anyone(s.pc, Looks)) && (s.g.closed ==> Anyone(s.pc, FreesGetters))
               else
                 (s.g.len < s.g.fullSize ==> Anyone(s.pc, FreesAdders)) && (s.g.closed ==> Anyone(s.pc, WillBroadcast)))
            case Stranded => p.c.NotFull?
    ensures forall v: nat :: v < |run[k].pc| && run[k].pc[v].Notifying? && x in run[k].pc[v].rest ==>
              run[k].pc[x].at == With(v)
  {
    RunKeepsInv(run, k);
    SleeperIsCovered(run[k], x);
    forall v: nat | v < |run[k].pc| && run[k].pc[v].Notifying? && x in run[k].pc[v].rest
      ensures run[k].pc[x].at == With(v)
    {
      InHands(run[k], v, x);
    }
  }

  lemma SleeperIsCovered(s: State, x: nat)
    requires Inv(s) && x < |s.pc| && s.pc[x].Asleep?
    ensures s.pc[x].at.With? ==>
              var u := s.pc[x].at.u;
              u < |s.pc| && s.pc[u].Notifying? && s.pc[u].c == s.pc[x].c && x in s.pc[u].rest &&
              (s.pc[x].c.NotEmpty? ==> !s.pc[u].shaky)
    ensures s.pc[x].at.Listed? ==> x in On(s.g, s.pc[x].c).list
    ensures s.pc[x].at.Stranded? ==> s.pc[x].c.NotFull?
  {
    if s.pc[x].at.With? {
      HandOfSleeper(s, x);
      assert Steady(s.pc[s.pc[x].at.u]);
    } else if s.pc[x].at.Listed? {
      assert Spots(s.pc, s.pc[x].c)[x] == OnList;
    }
  }

  /** A wait that has ended, by a wake-up or a timeout, leaves nothing behind on a list or in a hand. */
  lemma NoGhostWaiters(run: seq<State>, k: nat, x: nat, c: Cond, u: nat)
    requires Runs.IsRun(Init, Next, run) && k < |run| && u < |run[k].pc|
    ensures x in On(run[k].g, c).list || x in HandOf(run[k].pc[u], c) ==>
            x < |run[k].pc| && run[k].pc[x].Asleep? && run[k].pc[x].c == c
  {
    RunKeepsInv(run, k);
    var s := run[k];
    assert Has(Hands(s.pc, c), u, x) <==> x in HandOf(s.pc[u], c);
    assert x < |s.pc| ==> Spots(s.pc, c)[x] == SpotOf(s.pc[x], c);
  }

  /** No operation that has begun can move, except by a timeout. */
  ghost predicate Settled(s: State) {
    forall t :: 0 <= t < |s.pc| ==> s.pc[t].Idle? || s.pc[t].Asleep?
  }

  /** Once settled, a sleeping getter faces an open empty queue, and a sleeping adder an open full one
      unless it is stranded. */
  lemma SettledIsRight(s: State, x: nat)
    requires Inv(s) && Settled(s) && x < |s.pc| && s.pc[x].Asleep? && !s.pc[x].at.Stranded?
    ensures !s.g.closed
    ensures if s.pc[x].c.NotEmpty? then s.g.len == 0 else s.g.len >= s.g.fullSize
  {
    SleeperIsCovered(s, x);
  }
}
