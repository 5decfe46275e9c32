/** event/priorityQueue.go, PriorityQueue: the blocking protocol.

    Every region executed under listGuard is one step, and so is every Signal or
    Broadcast, which the code performs after releasing the lock.  A thread is a
    program point plus the arguments of the Add it is blocked in. */
module BlockingQueue {
  import opened PriorityList
  import Runs

  /** stamp numbers the accepted elements in the order of their pushes. */
  datatype Item = Item(stamp: nat, payload: int)
  type Element = Entry<Item>

  datatype Pc =
    | Idle
    | AddWaiting    // asleep in fullCond.Wait
    | AddWoken      // released from fullCond, not yet holding the lock
    | GetWaiting    // asleep in emptyCond.Wait
    | GetWoken      // released from emptyCond, not yet holding the lock
    | Signalling    // about to call emptyCond.Signal
    | Broadcasting  // about to call fullCond.Broadcast
    | ClosingLock   // won closeOnce, about to take the lock
    | ClosingEmpty  // about to call emptyCond.Broadcast
    | ClosingFull   // about to call fullCond.Broadcast

  datatype Request = Request(pri: int, payload: int)

  datatype State = State(
    levels: int,
    fullSize: int,
    queue: seq<Element>,
    closed: bool,
    closeOnce: bool,
    emptyWaited: int,
    fullWaited: int,
    pc: seq<Pc>,
    arg: seq<Request>,
    accepted: seq<Element>,  // history: every element pushed, in order
    taken: seq<Element>)     // history: every element popped, in order

  datatype Step =
    | AddNoWait(t: nat, req: Request, fullReturn: bool)
    | Add(t: nat, req: Request)
    | AddResume(t: nat)
    | Get(t: nat)
    | GetResume(t: nat)
    | Signal(t: nat, u: nat)
    | SignalNobody(t: nat)
    | Broadcast(t: nat)
    | Close(t: nat)
    | CloseLock(t: nat)
    | CloseWakeGetters(t: nat)
    | CloseWakeAdders(t: nat)
    | SetFullSize(t: nat, newSize: int)

  ghost predicate Init(s: State) {
    && s.levels >= 1 && s.fullSize >= 1
    && s.queue == [] && !s.closed && !s.closeOnce
    && s.emptyWaited == 0 && s.fullWaited == 0
    && |s.arg| == |s.pc| && (forall t :: 0 <= t < |s.pc| ==> s.pc[t] == Idle)
    && s.accepted == [] && s.taken == []
  }

  ghost predicate At(s: State, t: nat, p: Pc) {
    t < |s.pc| == |s.arg| && s.pc[t] == p
  }

  ghost predicate Enabled(s: State, step: Step) {
    match step
    case AddNoWait(t, _, _) => At(s, t, Idle)
    case Add(t, _) => At(s, t, Idle)
    case AddResume(t) => At(s, t, AddWoken)
    case Get(t) => At(s, t, Idle)
    case GetResume(t) => At(s, t, GetWoken)
    case Signal(t, u) => At(s, t, Signalling) && At(s, u, GetWaiting)
    case SignalNobody(t) => At(s, t, Signalling) && GetWaiting !in s.pc
    case Broadcast(t) => At(s, t, Broadcasting)
    case Close(t) => At(s, t, Idle)
    case CloseLock(t) => At(s, t, ClosingLock)
    case CloseWakeGetters(t) => At(s, t, ClosingEmpty)
    case CloseWakeAdders(t) => At(s, t, ClosingFull)
    case SetFullSize(t, _) => At(s, t, Idle)
  }

  /** Pushes the request of thread t; the thread leaves to signal when a getter is registered as waiting. */
  ghost function Push(s: State, t: nat, req: Request): State
    requires t < |s.pc| && s.levels >= 1
  {
    var e := Pushed(s, req);
    s.(queue := Insert(s.queue, e), accepted := s.accepted + [e],
       pc := s.pc[t := if s.emptyWaited > 0 then Signalling else Idle])
  }

  /** The part of Add after the closed test: wait while full, else push. */
  ghost function AddBody(s: State, t: nat, req: Request): State
    requires t < |s.pc| == |s.arg| && s.levels >= 1
  {
    if |s.queue| >= s.fullSize then
      s.(fullWaited := s.fullWaited + 1, pc := s.pc[t := AddWaiting], arg := s.arg[t := req])
    else Push(s, t, req)
  }

  /** Get with the lock held: wait while open and empty, else pop if there is something. */
  ghost function GetBody(s: State, t: nat): State
    requires t < |s.pc|
  {
    if !s.closed && s.queue == [] then
      s.(emptyWaited := s.emptyWaited + 1, pc := s.pc[t := GetWaiting])
    else
      var s' := s.(pc := s.pc[t := if s.fullWaited > 0 then Broadcasting else Idle]);
      if s.queue == [] then s'
      else s'.(queue := s.queue[1..], taken := s.taken + [s.queue[0]])
  }

  ghost function WakeAll(pc: seq<Pc>, from: Pc, to: Pc): (r: seq<Pc>)
    ensures |r| == |pc|
    ensures forall t :: 0 <= t < |pc| ==> r[t] == if pc[t] == from then to else pc[t]
  {
    if pc == [] then []
    else [if pc[0] == from then to else pc[0]] + WakeAll(pc[1..], from, to)
  }

  ghost function Do(s: State, step: Step): State
    requires s.levels >= 1 && Enabled(s, step)
  {
    match step
    case AddNoWait(t, req, fullReturn) =>
      if s.closed || (fullReturn && |s.queue| >= s.fullSize) then s else Push(s, t, req)
    case Add(t, req) =>
      if s.closed then s else AddBody(s, t, req)
    case AddResume(t) =>
      var s' := s.(fullWaited := s.fullWaited - 1);
      if s.closed then s'.(pc := s.pc[t := Idle]) else AddBody(s', t, s.arg[t])
    case Get(t) => GetBody(s, t)
    case GetResume(t) => GetBody(s.(emptyWaited := s.emptyWaited - 1), t)
    case Signal(t, u) => s.(pc := s.pc[t := Idle][u := GetWoken])
    case SignalNobody(t) => s.(pc := s.pc[t := Idle])
    case Broadcast(t) => s.(pc := WakeAll(s.pc[t := Idle], AddWaiting, AddWoken))
    case Close(t) =>
      if s.closeOnce then s else s.(closeOnce := true, pc := s.pc[t := ClosingLock])
    case CloseLock(t) => s.(closed := true, pc := s.pc[t := ClosingEmpty])
    case CloseWakeGetters(t) => s.(pc := WakeAll(s.pc[t := ClosingFull], GetWaiting, GetWoken))
    case CloseWakeAdders(t) => s.(pc := WakeAll(s.pc[t := Idle], AddWaiting, AddWoken))
    case SetFullSize(t, newSize) =>
      if newSize <= 0 then s
      else s.(fullSize := newSize,
              pc := s.pc[t := if s.fullSize < newSize && s.fullWaited > 0 then Broadcasting else Idle])
  }

  ghost predicate Leads(s: State, step: Step, s': State) {
    s.levels >= 1 && Enabled(s, step) && s' == Do(s, step)
  }

  ghost predicate Next(s: State, s': State) {
    exists step :: Leads(s, step, s')
  }

  // ---------------------------------------------------------------- invariant

  /** How many threads are at program point p. */
  ghost function Count(pc: seq<Pc>, p: Pc): nat {
    if pc == [] then 0 else (if pc[0] == p then 1 else 0) + Count(pc[1..], p)
  }

  /** How many threads are at each program point other than Idle. */
  datatype Tally = Tally(
    addWaiting: nat, addWoken: nat, getWaiting: nat, getWoken: nat, signalling: nat,
    broadcasting: nat, closingLock: nat, closingEmpty: nat, closingFull: nat)

  ghost function Census(pc: seq<Pc>): Tally {
    Tally(Count(pc, AddWaiting), Count(pc, AddWoken), Count(pc, GetWaiting), Count(pc, GetWoken),
          Count(pc, Signalling), Count(pc, Broadcasting),
          Count(pc, ClosingLock), Count(pc, ClosingEmpty), Count(pc, ClosingFull))
  }

  ghost predicate Counters(s: State) {
    var c := Census(s.pc);
    && |s.arg| == |s.pc|
    && s.emptyWaited == c.getWaiting + c.getWoken
    && s.fullWaited == c.addWaiting + c.addWoken
    && (!s.closeOnce ==> !s.closed)
    && c.closingLock + c.closingEmpty + c.closingFull <= (if s.closeOnce then 1 else 0)
    && (s.closed <==> s.closeOnce && c.closingLock == 0)
  }

  /** A sleeping getter has, for every queued element, a wake-up under way. */
  ghost predicate NoLostGet(s: State) {
    var c := Census(s.pc);
    && (c.getWaiting > 0 ==> |s.queue| <= c.signalling + c.getWoken)
    && (s.closed && c.getWaiting > 0 ==> c.closingEmpty > 0)
  }

  /** A sleeping adder has no room, or a broadcast is under way. */
  ghost predicate NoLostAdd(s: State) {
    var c := Census(s.pc);
    && (c.addWaiting > 0 ==> |s.queue| >= s.fullSize || c.broadcasting > 0)
    && (s.closed && c.addWaiting > 0 ==> c.closingEmpty + c.closingFull > 0)
  }

  ghost predicate Wakeups(s: State) {
    s.levels >= 1 && s.fullSize >= 1 && Counters(s) && NoLostGet(s) && NoLostAdd(s)
  }

  /** Strictly ordered by priority, then by arrival. */
  ghost predicate Before(a: Element, b: Element) {
    a.pri > b.pri || (a.pri == b.pri && a.v.stamp < b.v.stamp)
  }

  ghost predicate Ordered(q: seq<Element>) {
    forall i, j :: 0 <= i < j < |q| ==> Before(q[i], q[j])
  }

  /** The queue is ordered, stamps number the accepted elements, nothing is lost or duplicated. */
  ghost predicate Conserved(queue: seq<Element>, accepted: seq<Element>, taken: seq<Element>) {
    && Ordered(queue)
    && (forall i :: 0 <= i < |queue| ==> queue[i].v.stamp < |accepted|)
    && (forall i :: 0 <= i < |accepted| ==> accepted[i].v.stamp == i)
    && multiset(accepted) == multiset(queue) + multiset(taken)
  }

  ghost predicate Contents(s: State) {
    Conserved(s.queue, s.accepted, s.taken)
  }

  ghost predicate Inv(s: State) {
    Wakeups(s) && Contents(s)
  }

  lemma {:induction false} CountPositive(pc: seq<Pc>, p: Pc)
    ensures Count(pc, p) > 0 <==> p in pc
  {
    if pc != [] {
      CountPositive(pc[1..], p);
    }
  }

  lemma {:induction false} MovedAt(pc: seq<Pc>, t: nat, p: Pc, q: Pc)
    requires t < |pc|
    ensures Count(pc[t := p], q) ==
            Count(pc, q) + (if q == p then 1 else 0) - (if q == pc[t] then 1 else 0)
  {
    if t > 0 {
      assert pc[t := p][1..] == pc[1..][t - 1 := p];
      MovedAt(pc[1..], t - 1, p, q);
    } else {
      assert pc[t := p][1..] == pc[1..];
    }
  }

  /** One thread moving from its program point to p changes exactly two counts. */
  ghost predicate MovedFromTo(c: Tally, c': Tally, from: Pc, to: Pc) {
    && c'.addWaiting == c.addWaiting + (if to == AddWaiting then 1 else 0) - (if from == AddWaiting then 1 else 0)
    && c'.addWoken == c.addWoken + (if to == AddWoken then 1 else 0) - (if from == AddWoken then 1 else 0)
    && c'.getWaiting == c.getWaiting + (if to == GetWaiting then 1 else 0) - (if from == GetWaiting then 1 else 0)
    && c'.getWoken == c.getWoken + (if to == GetWoken then 1 else 0) - (if from == GetWoken then 1 else 0)
    && c'.signalling == c.signalling + (if to == Signalling then 1 else 0) - (if from == Signalling then 1 else 0)
    && c'.broadcasting == c.broadcasting + (if to == Broadcasting then 1 else 0)
            - (if from == Broadcasting then 1 else 0)
    && c'.closingLock == c.closingLock + (if to == ClosingLock then 1 else 0) - (if from == ClosingLock then 1 else 0)
    && c'.closingEmpty == c.closingEmpty + (if to == ClosingEmpty then 1 else 0)
            - (if from == ClosingEmpty then 1 else 0)
    && c'.closingFull == c.closingFull + (if to == ClosingFull then 1 else 0) - (if from == ClosingFull then 1 else 0)
  }

  lemma Moved(pc: seq<Pc>, t: nat, p: Pc)
    requires t < |pc|
    ensures MovedFromTo(Census(pc), Census(pc[t := p]), pc[t], p)
  {
    MovedAt(pc, t, p, AddWaiting);
    MovedAt(pc, t, p, AddWoken);
    MovedAt(pc, t, p, GetWaiting);
    MovedAt(pc, t, p, GetWoken);
    MovedAt(pc, t, p, Signalling);
    MovedAt(pc, t, p, Broadcasting);
    MovedAt(pc, t, p, ClosingLock);
    MovedAt(pc, t, p, ClosingEmpty);
    MovedAt(pc, t, p, ClosingFull);
  }

  lemma {:induction false} WokenAt(pc: seq<Pc>, from: Pc, to: Pc, p: Pc)
    requires from != to
    ensures Count(WakeAll(pc, from, to), p) ==
            if p == from then 0 else if p == to then Count(pc, from) + Count(pc, to) else Count(pc, p)
  {
    if pc != [] {
      WokenAt(pc[1..], from, to, p);
    }
  }

  lemma AddersWoken(pc: seq<Pc>)
    ensures var c := Census(pc);
            Census(WakeAll(pc, AddWaiting, AddWoken)) == c.(addWaiting := 0, addWoken := c.addWoken + c.addWaiting)
  {
    WokenAt(pc, AddWaiting, AddWoken, AddWaiting);
    WokenAt(pc, AddWaiting, AddWoken, AddWoken);
    WokenAt(pc, AddWaiting, AddWoken, GetWaiting);
    WokenAt(pc, AddWaiting, AddWoken, GetWoken);
    WokenAt(pc, AddWaiting, AddWoken, Signalling);
    WokenAt(pc, AddWaiting, AddWoken, Broadcasting);
    WokenAt(pc, AddWaiting, AddWoken, ClosingLock);
    WokenAt(pc, AddWaiting, AddWoken, ClosingEmpty);
    WokenAt(pc, AddWaiting, AddWoken, ClosingFull);
  }

  lemma GettersWoken(pc: seq<Pc>)
    ensures var c := Census(pc);
            Census(WakeAll(pc, GetWaiting, GetWoken)) == c.(getWaiting := 0, getWoken := c.getWoken + c.getWaiting)
  {
    WokenAt(pc, GetWaiting, GetWoken, AddWaiting);
    WokenAt(pc, GetWaiting, GetWoken, AddWoken);
    WokenAt(pc, GetWaiting, GetWoken, GetWaiting);
    WokenAt(pc, GetWaiting, GetWoken, GetWoken);
    WokenAt(pc, GetWaiting, GetWoken, Signalling);
    WokenAt(pc, GetWaiting, GetWoken, Broadcasting);
    WokenAt(pc, GetWaiting, GetWoken, ClosingLock);
    WokenAt(pc, GetWaiting, GetWoken, ClosingEmpty);
    WokenAt(pc, GetWaiting, GetWoken, ClosingFull);
  }

  lemma {:induction false} InsertOrdered(q: seq<Element>, e: Element)
    requires Ordered(q)
    requires forall i :: 0 <= i < |q| ==> q[i].v.stamp < e.v.stamp
    ensures Ordered(Insert(q, e))
  {
    if q == [] {
    } else if q[0].pri >= e.pri {
      InsertOrdered(q[1..], e);
      InsertAddsOne(q[1..], e);
      var r := Insert(q[1..], e);
      forall j | 0 <= j < |r| ensures Before(q[0], r[j]) {
        assert r[j] in multiset(r);
        if r[j] != e {
          assert r[j] in q[1..];
        }
      }
    } else {
      forall j | 0 <= j < |q| ensures Before(e, q[j]) {
        assert j > 0 ==> Before(q[0], q[j]);
      }
    }
  }

  lemma PushConserves(s: State, e: Element)
    requires Contents(s) && e.v.stamp == |s.accepted|
    ensures Conserved(Insert(s.queue, e), s.accepted + [e], s.taken)
  {
    InsertOrdered(s.queue, e);
    InsertAddsOne(s.queue, e);
    var r := Insert(s.queue, e);
    forall i | 0 <= i < |r| ensures r[i].v.stamp < |s.accepted| + 1 {
      assert r[i] in multiset(r);
      assert r[i] == e || r[i] in s.queue;
    }
  }

  lemma TakeConserves(s: State)
    requires Contents(s) && s.queue != []
    ensures Conserved(s.queue[1..], s.accepted, s.taken + [s.queue[0]])
  {
    assert s.queue == [s.queue[0]] + s.queue[1..];
  }

  ghost predicate Takes(s: State, step: Step) {
    (step.Get? || step.GetResume?) && s.queue != []
  }

  /** The element an add would push. */
  ghost function Pushed(s: State, req: Request): Element
    requires s.levels >= 1
  {
    Entry(Clamp(s.levels, req.pri), Item(|s.accepted|, req.payload))
  }

  /** What a step does to the contents: only a get takes, and it takes the head; an add puts
      at most one element in, and none once closed; nothing else touches the queue. */
  lemma StepEffect(s: State, step: Step)
    requires s.levels >= 1 && Enabled(s, step)
    ensures s.closed ==> Do(s, step).closed
    ensures var s' := Do(s, step);
            if Takes(s, step) then
              s'.taken == s.taken + [s.queue[0]] && s'.queue == s.queue[1..] && s'.accepted == s.accepted
            else
              s'.taken == s.taken &&
              ((s'.accepted == s.accepted && s'.queue == s.queue) ||
               (!s.closed && exists req :: s'.accepted == s.accepted + [Pushed(s, req)] &&
                                           s'.queue == Insert(s.queue, Pushed(s, req))))
  {
    var s' := Do(s, step);
    if step.AddNoWait? || step.Add? || step.AddResume? {
      var req := if step.AddResume? then s.arg[step.t] else step.req;
      assert (s'.accepted == s.accepted && s'.queue == s.queue) ||
             (s'.accepted == s.accepted + [Pushed(s, req)] && s'.queue == Insert(s.queue, Pushed(s, req)));
    }
  }

  /** An add that finds the queue open and, unless the caller ignores the limit, not full. */
  ghost predicate Succeeds(s: State, step: Step) {
    !s.closed && ((step.AddNoWait? && (!step.fullReturn || |s.queue| < s.fullSize)) ||
                  ((step.Add? || step.AddResume?) && |s.queue| < s.fullSize))
  }

  /** An element is accepted exactly then; otherwise nothing is accepted by that step. */
  lemma AcceptsExactly(s: State, step: Step)
    requires s.levels >= 1 && Enabled(s, step)
    ensures |Do(s, step).accepted| == |s.accepted| + (if Succeeds(s, step) then 1 else 0)
  {
  }

  lemma StepKeepsContents(s: State, step: Step)
    requires s.levels >= 1 && Contents(s) && Enabled(s, step)
    ensures Contents(Do(s, step))
  {
    StepEffect(s, step);
    var s' := Do(s, step);
    if Takes(s, step) {
      TakeConserves(s);
    } else if !(s'.accepted == s.accepted && s'.queue == s.queue) {
      var req :| s'.accepted == s.accepted + [Pushed(s, req)] && s'.queue == Insert(s.queue, Pushed(s, req));
      PushConserves(s, Pushed(s, req));
    }
  }

  lemma PushKeepsWakeups(s: State, t: nat, req: Request, waited: int)
    requires t < |s.pc| && (s.pc[t] == Idle || s.pc[t] == AddWoken) && Wakeups(s) && !s.closed
    requires waited == s.fullWaited - (if s.pc[t] == AddWoken then 1 else 0)
    ensures Wakeups(Push(s.(fullWaited := waited), t, req))
  {
    Moved(s.pc, t, if s.emptyWaited > 0 then Signalling else Idle);
  }

  lemma AddBodyKeepsWakeups(s: State, t: nat, req: Request, waited: int)
    requires t < |s.pc| && (s.pc[t] == Idle || s.pc[t] == AddWoken) && Wakeups(s) && !s.closed
    requires waited == s.fullWaited - (if s.pc[t] == AddWoken then 1 else 0)
    ensures Wakeups(AddBody(s.(fullWaited := waited), t, req))
  {
    if |s.queue| >= s.fullSize {
      Moved(s.pc, t, AddWaiting);
    } else {
      PushKeepsWakeups(s, t, req, waited);
    }
  }

  lemma GetBodyKeepsWakeups(s: State, t: nat, waited: int)
    requires t < |s.pc| && (s.pc[t] == Idle || s.pc[t] == GetWoken) && Wakeups(s)
    requires waited == s.emptyWaited - (if s.pc[t] == GetWoken then 1 else 0)
    ensures Wakeups(GetBody(s.(emptyWaited := waited), t))
  {
    var p := GetBody(s.(emptyWaited := waited), t).pc[t];
    Moved(s.pc, t, p);
    if s.pc[t] == GetWoken {
      CountPositive(s.pc, GetWoken);
    }
  }

  lemma NotifyKeepsWakeups(s: State, step: Step)
    requires Wakeups(s) && Enabled(s, step)
    requires step.Signal? || step.SignalNobody? || step.Broadcast?
    ensures Wakeups(Do(s, step))
  {
    var c := Census(s.pc);
    Moved(s.pc, step.t, Idle);
    match step
    case Signal(t, u) =>
      Moved(s.pc[t := Idle], u, GetWoken);
    case SignalNobody(t) => CountPositive(s.pc, GetWaiting);
    case Broadcast(t) => AddersWoken(s.pc[t := Idle]);
  }

  lemma CloseKeepsWakeups(s: State, step: Step)
    requires Wakeups(s) && Enabled(s, step)
    requires step.Close? || step.CloseLock?
    ensures Wakeups(Do(s, step))
  {
    var c := Census(s.pc);
    match step
    case Close(t) =>
      Moved(s.pc, t, ClosingLock);
    case CloseLock(t) =>
      Moved(s.pc, t, ClosingEmpty);
  }

  lemma CloseWakeKeepsWakeups(s: State, step: Step)
    requires Wakeups(s) && Enabled(s, step)
    requires step.CloseWakeGetters? || step.CloseWakeAdders?
    ensures Wakeups(Do(s, step))
  {
    var c := Census(s.pc);
    match step
    case CloseWakeGetters(t) =>
      Moved(s.pc, t, ClosingFull);
      GettersWoken(s.pc[t := ClosingFull]);
    case CloseWakeAdders(t) =>
      Moved(s.pc, t, Idle);
      AddersWoken(s.pc[t := Idle]);
  }

  lemma AddResumeKeepsWakeups(s: State, t: nat)
    requires Wakeups(s) && Enabled(s, AddResume(t))
    ensures Wakeups(Do(s, AddResume(t)))
  {
    if s.closed {
      Moved(s.pc, t, Idle);
    } else {
      AddBodyKeepsWakeups(s, t, s.arg[t], s.fullWaited - 1);
    }
  }

  lemma AddKeepsWakeups(s: State, step: Step)
    requires Wakeups(s) && Enabled(s, step)
    requires step.AddNoWait? || step.Add? || step.AddResume?
    ensures Wakeups(Do(s, step))
  {
    assert s.(fullWaited := s.fullWaited) == s;
    match step
    case AddNoWait(t, req, fullReturn) =>
      if !(s.closed || (fullReturn && |s.queue| >= s.fullSize)) {
        PushKeepsWakeups(s, t, req, s.fullWaited);
      }
    case Add(t, req) =>
      if !s.closed {
        AddBodyKeepsWakeups(s, t, req, s.fullWaited);
      }
    case AddResume(t) => AddResumeKeepsWakeups(s, t);
  }

  lemma ResizeKeepsWakeups(s: State, t: nat, newSize: int)
    requires Wakeups(s) && Enabled(s, SetFullSize(t, newSize))
    ensures Wakeups(Do(s, SetFullSize(t, newSize)))
  {
    if newSize > 0 {
      Moved(s.pc, t, if s.fullSize < newSize && s.fullWaited > 0 then Broadcasting else Idle);
    }
  }

  lemma GetKeepsWakeups(s: State, step: Step)
    requires Wakeups(s) && Enabled(s, step) && (step.Get? || step.GetResume?)
    ensures Wakeups(Do(s, step))
  {
    var waited := s.emptyWaited - (if step.GetResume? then 1 else 0);
    GetBodyKeepsWakeups(s, step.t, waited);
    assert Do(s, step) == GetBody(s.(emptyWaited := waited), step.t);
  }

  lemma StepKeepsWakeups(s: State, step: Step)
    requires Wakeups(s) && Enabled(s, step)
    ensures Wakeups(Do(s, step))
  {
    if step.AddNoWait? || step.Add? || step.AddResume? {
      AddKeepsWakeups(s, step);
    } else if step.Get? || step.GetResume? {
      GetKeepsWakeups(s, step);
    } else if step.SetFullSize? {
      ResizeKeepsWakeups(s, step.t, step.newSize);
    } else if step.Signal? || step.SignalNobody? || step.Broadcast? {
      NotifyKeepsWakeups(s, step);
    } else if step.Close? || step.CloseLock? {
      CloseKeepsWakeups(s, step);
    } else {
      CloseWakeKeepsWakeups(s, step);
    }
  }

  lemma StepKeepsInv(s: State, step: Step)
    requires Inv(s) && Enabled(s, step)
    ensures Inv(Do(s, step))
  {
    StepKeepsContents(s, step);
    StepKeepsWakeups(s, step);
  }

  // ------------------------------------------------------------ main theorems

  lemma RunKeepsInv(run: seq<State>, i: nat)
    requires Runs.IsRun(Init, Next, run) && i < |run|
    ensures Inv(run[i])
  {
    forall s | Init(s) ensures Inv(s) { AllIdle(s.pc); }
    forall s, s' | Inv(s) && Next(s, s') ensures Inv(s') {
      var step :| Leads(s, step, s');
      StepKeepsInv(s, step);
    }
    Runs.Invariance(Init, Next, Inv, run, i);
  }

  lemma AllIdle(pc: seq<Pc>)
    requires forall t :: 0 <= t < |pc| ==> pc[t] == Idle
    ensures Census(pc) == Tally(0, 0, 0, 0, 0, 0, 0, 0, 0)
  {
    CountPositive(pc, AddWaiting);
    CountPositive(pc, AddWoken);
    CountPositive(pc, GetWaiting);
    CountPositive(pc, GetWoken);
    CountPositive(pc, Signalling);
    CountPositive(pc, Broadcasting);
    CountPositive(pc, ClosingLock);
    CountPositive(pc, ClosingEmpty);
    CountPositive(pc, ClosingFull);
  }

  /** No wake-up is lost, whatever the interleaving of adds, gets, resizes and a close. */
  lemma NoLostWakeup(run: seq<State>, i: nat)
    requires Runs.IsRun(Init, Next, run) && i < |run|
    ensures var s := run[i]; var c := Census(s.pc);
            && (c.getWaiting > 0 ==> |s.queue| <= c.signalling + c.getWoken)
            && (c.addWaiting > 0 ==> |s.queue| >= s.fullSize || c.broadcasting > 0)
            && (s.closed && c.getWaiting > 0 ==> c.closingEmpty > 0)
            && (s.closed && c.addWaiting > 0 ==> c.closingEmpty + c.closingFull > 0)
  {
    RunKeepsInv(run, i);
  }

  /** Whatever a step removes is the oldest element of the highest non-empty priority,
      and nothing is accepted once the queue is closed. */
  lemma TakesOldestOfHighest(run: seq<State>, i: nat)
    requires Runs.IsRun(Init, Next, run) && 0 < i < |run|
    ensures var s, s' := run[i - 1], run[i];
            && (s'.taken == s.taken ||
                (s.queue != [] && s'.taken == s.taken + [s.queue[0]] && s'.queue == s.queue[1..] &&
                 forall k :: 0 < k < |s.queue| ==> Before(s.queue[0], s.queue[k])))
            && (s.closed ==> s'.closed && s'.accepted == s.accepted)
            && multiset(s'.accepted) == multiset(s'.queue) + multiset(s'.taken)
  {
    RunKeepsInv(run, i - 1);
    RunKeepsInv(run, i);
    var step :| Leads(run[i - 1], step, run[i]);
    StepEffect(run[i - 1], step);
  }

  /** No operation that has begun can move without a new call. */
  ghost predicate Settled(s: State) {
    forall t :: 0 <= t < |s.pc| ==> s.pc[t] in {Idle, AddWaiting, GetWaiting}
  }

  ghost predicate Internal(step: Step) {
    step.AddResume? || step.GetResume? || step.Signal? || step.SignalNobody? || step.Broadcast? ||
    step.CloseLock? || step.CloseWakeGetters? || step.CloseWakeAdders?
  }

  /** Once settled, a sleeping getter faces an open empty queue, a sleeping adder an
      open full one, and never both. */
  lemma SettledIsRight(s: State)
    requires Inv(s) && Settled(s)
    ensures GetWaiting in s.pc ==> s.queue == [] && !s.closed
    ensures AddWaiting in s.pc ==> |s.queue| >= s.fullSize && !s.closed
    ensures !(GetWaiting in s.pc && AddWaiting in s.pc)
  {
    CountPositive(s.pc, AddWaiting);
    CountPositive(s.pc, AddWoken);
    CountPositive(s.pc, GetWaiting);
    CountPositive(s.pc, GetWoken);
    CountPositive(s.pc, Signalling);
    CountPositive(s.pc, Broadcasting);
    CountPositive(s.pc, ClosingLock);
    CountPositive(s.pc, ClosingEmpty);
    CountPositive(s.pc, ClosingFull);
  }

  /** Calls still blocked, notifications still to be sent, threads about to re-check. */
  ghost function Blocked(c: Tally): int { c.addWaiting + c.addWoken + c.getWaiting + c.getWoken }
  ghost function Notices(c: Tally): int {
    c.signalling + c.broadcasting + 3 * c.closingLock + 2 * c.closingEmpty + c.closingFull
  }
  ghost function Rechecks(c: Tally): int { c.addWoken + c.getWoken }

  ghost predicate Below(c': Tally, c: Tally) {
    Blocked(c') < Blocked(c) ||
    (Blocked(c') == Blocked(c) &&
     (Notices(c') < Notices(c) || (Notices(c') == Notices(c) && Rechecks(c') < Rechecks(c))))
  }

  lemma AddResumeDescends(s: State, t: nat)
    requires s.levels >= 1 && Enabled(s, AddResume(t))
    ensures Below(Census(Do(s, AddResume(t)).pc), Census(s.pc))
  {
    if s.closed {
      Moved(s.pc, t, Idle);
    } else if |s.queue| >= s.fullSize {
      Moved(s.pc, t, AddWaiting);
    } else {
      Moved(s.pc, t, if s.emptyWaited > 0 then Signalling else Idle);
    }
  }

  lemma GetResumeDescends(s: State, t: nat)
    requires s.levels >= 1 && Enabled(s, GetResume(t))
    ensures Below(Census(Do(s, GetResume(t)).pc), Census(s.pc))
  {
    if !s.closed && s.queue == [] {
      Moved(s.pc, t, GetWaiting);
    } else {
      Moved(s.pc, t, if s.fullWaited > 0 then Broadcasting else Idle);
    }
  }

  /** Sending a notification, whoever it wakes, removes it from those still to be sent. */
  lemma NoticeSent(c: Tally, d: Tally, p: Pc, q: Pc, c': Tally)
    requires (p == ClosingLock && q == ClosingEmpty) || (p == ClosingEmpty && q == ClosingFull) ||
             (p in {Signalling, Broadcasting, ClosingFull} && q == Idle)
    requires MovedFromTo(c, d, p, q) && Blocked(c') == Blocked(d) && Notices(c') == Notices(d)
    ensures Below(c', c)
  {
  }

  lemma SignalDescends(s: State, t: nat, u: nat)
    requires At(s, t, Signalling) && At(s, u, GetWaiting)
    ensures Below(Census(s.pc[t := Idle][u := GetWoken]), Census(s.pc))
  {
    var c := Census(s.pc);
    Moved(s.pc, t, Idle);
    Moved(s.pc[t := Idle], u, GetWoken);
    NoticeSent(Census(s.pc), Census(s.pc[t := Idle]), Signalling, Idle, Census(s.pc[t := Idle][u := GetWoken]));
  }

  lemma BroadcastDescends(s: State, t: nat)
    requires At(s, t, Broadcasting) || At(s, t, ClosingFull)
    ensures Below(Census(WakeAll(s.pc[t := Idle], AddWaiting, AddWoken)), Census(s.pc))
  {
    Moved(s.pc, t, Idle);
    AddersWoken(s.pc[t := Idle]);
    NoticeSent(Census(s.pc), Census(s.pc[t := Idle]), s.pc[t], Idle,
               Census(WakeAll(s.pc[t := Idle], AddWaiting, AddWoken)));
  }

  lemma CloseWakeGettersDescends(s: State, t: nat)
    requires At(s, t, ClosingEmpty)
    ensures Below(Census(WakeAll(s.pc[t := ClosingFull], GetWaiting, GetWoken)), Census(s.pc))
  {
    Moved(s.pc, t, ClosingFull);
    GettersWoken(s.pc[t := ClosingFull]);
    NoticeSent(Census(s.pc), Census(s.pc[t := ClosingFull]), ClosingEmpty, ClosingFull,
               Census(WakeAll(s.pc[t := ClosingFull], GetWaiting, GetWoken)));
  }

  lemma MoveDescends(s: State, t: nat, p: Pc, q: Pc)
    requires At(s, t, p) && ((p == Signalling && q == Idle) || (p == ClosingLock && q == ClosingEmpty))
    ensures Below(Census(s.pc[t := q]), Census(s.pc))
  {
    Moved(s.pc, t, q);
    NoticeSent(Census(s.pc), Census(s.pc[t := q]), p, q, Census(s.pc[t := q]));
  }

  /** Finishing an operation already begun strictly descends. */
  lemma InternalStepDescends(s: State, step: Step)
    requires s.levels >= 1 && Enabled(s, step) && Internal(step)
    ensures Below(Census(Do(s, step).pc), Census(s.pc))
  {
    match step
    case AddResume(t) => AddResumeDescends(s, t);
    case GetResume(t) => GetResumeDescends(s, t);
    case Signal(t, u) => SignalDescends(s, t, u);
    case SignalNobody(t) => MoveDescends(s, t, Signalling, Idle);
    case Broadcast(t) => BroadcastDescends(s, t);
    case CloseLock(t) => MoveDescends(s, t, ClosingLock, ClosingEmpty);
    case CloseWakeGetters(t) => CloseWakeGettersDescends(s, t);
    case CloseWakeAdders(t) => BroadcastDescends(s, t);
  }

  ghost predicate InternalNext(s: State, s': State) {
    exists step :: s.levels >= 1 && Internal(step) && Enabled(s, step) && s' == Do(s, step)
  }

  /** Such a step exists in every state that is not settled. */
  lemma CanFinish(s: State)
    requires s.levels >= 1 && |s.arg| == |s.pc| && !Settled(s)
    ensures exists s' :: InternalNext(s, s')
  {
    var t :| 0 <= t < |s.pc| && s.pc[t] !in {Idle, AddWaiting, GetWaiting};
    var step: Step;
    match s.pc[t] {
      case AddWoken => step := AddResume(t);
      case GetWoken => step := GetResume(t);
      case Signalling =>
        if GetWaiting in s.pc {
          var u: nat :| u < |s.pc| && s.pc[u] == GetWaiting;
          step := Signal(t, u);
        } else {
          step := SignalNobody(t);
        }
      case Broadcasting => step := Broadcast(t);
      case ClosingLock => step := CloseLock(t);
      case ClosingEmpty => step := CloseWakeGetters(t);
      case ClosingFull => step := CloseWakeAdders(t);
    }
    assert Internal(step) && Enabled(s, step);
    assert InternalNext(s, Do(s, step));
  }

  /** A schedule that only finishes operations already begun, and stops only when settled. */
  ghost predicate Finishing(f: nat -> State) {
    forall i: nat :: Settled(f(i)) || InternalNext(f(i), f(i + 1))
  }

  lemma {:induction false} FinishingDescends(f: nat -> State, i: nat) returns (k: nat)
    requires Finishing(f) && Inv(f(i))
    ensures Inv(f(k)) && Settled(f(k))
    decreases Blocked(Census(f(i).pc)), Notices(Census(f(i).pc)), Rechecks(Census(f(i).pc))
  {
    if Settled(f(i)) {
      k := i;
    } else {
      assert InternalNext(f(i), f(i + 1));
      var step :| f(i).levels >= 1 && Internal(step) && Enabled(f(i), step) && f(i + 1) == Do(f(i), step);
      StepKeepsInv(f(i), step);
      InternalStepDescends(f(i), step);
      k := FinishingDescends(f, i + 1);
    }
  }

  /** Nobody is left behind: from every reachable state, every schedule of the operations
      already begun reaches a point where the only sleepers are getters of an open empty
      queue or adders to an open full one. */
  lemma NobodyLeftBehind(run: seq<State>, f: nat -> State) returns (k: nat)
    requires Runs.IsRun(Init, Next, run) && f(0) == run[|run| - 1] && Finishing(f)
    ensures Settled(f(k))
    ensures GetWaiting in f(k).pc ==> f(k).queue == [] && !f(k).closed
    ensures AddWaiting in f(k).pc ==> |f(k).queue| >= f(k).fullSize && !f(k).closed
  {
    RunKeepsInv(run, |run| - 1);
    k := FinishingDescends(f, 0);
    SettledIsRight(f(k));
  }
}
