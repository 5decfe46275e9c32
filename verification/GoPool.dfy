/** gopool/gopool.go: the goroutine pool.  The regions under the pool's lock are functions of
    what the lock protects; a class performs them on linked rings, and a machine interleaves
    them with the routines that run tasks. */
module GoPool {
  import opened Optional
  import opened Ring
  import opened Sequences
  import Runs

  type Task = nat
  type RoutineId = nat

  datatype Options = Options(maxRoutineCount: int, reserveRoutineCount: int, maxQueueSize: int)

  /** What the lock protects. */
  datatype View = View(die: bool, routineCount: int, idle: seq<RoutineId>, queue: seq<Task>)

  datatype Decision =
    | PoolClosed
    | HandTo(r: RoutineId)   // an idle routine was taken out of the ring
    | QueueFull
    | Queued
    | RunDirectly            // go task()
    | Spawn                  // a new routine is counted and will be started

  datatype Answer = Exit | Next(task: Task) | Park

  /** Pool.Go under the lock. */
  function Go(o: Options, v: View, task: Task): (View, Decision) {
    if v.die then (v, PoolClosed)
    else if v.idle != [] then (v.(idle := v.idle[1..]), HandTo(v.idle[0]))
    else if o.maxRoutineCount > 0 && v.routineCount == o.maxRoutineCount then
      if o.maxQueueSize >= 0 && |v.queue| >= o.maxQueueSize then (v, QueueFull)
      else (v.(queue := v.queue + [task]), Queued)
    else if o.maxRoutineCount <= 0 && v.routineCount >= o.reserveRoutineCount then (v, RunDirectly)
    else (v.(routineCount := v.routineCount + 1), Spawn)
  }

  /** putRoutine under the lock. */
  function Put(o: Options, v: View, r: RoutineId): (View, Answer) {
    if v.die then (v, Exit)
    else if v.queue != [] then (v.(queue := v.queue[1..]), Next(v.queue[0]))
    else if v.routineCount > o.reserveRoutineCount then (v.(routineCount := v.routineCount - 1), Exit)
    else (v.(idle := v.idle + [r]), Park)
  }

  /** Close under the lock: the channels it closes are those of the idle routines. */
  function Shut(v: View): (View, seq<RoutineId>) {
    if v.die then (v, []) else (v.(die := true, idle := []), v.idle)
  }

  class Pool {
    const o: Options
    var die: bool
    var routineCount: int
    const freeRoutines: Ring<RoutineId>
    const taskQueue: Ring<Task>
    var taskCount: int  // linkList.count

    ghost predicate Valid()
      reads this, freeRoutines, freeRoutines.Repr, taskQueue, taskQueue.Repr
    {
      && freeRoutines.Valid() && taskQueue.Valid()
      && freeRoutines.Repr !! taskQueue.Repr && this !in freeRoutines.Repr && this !in taskQueue.Repr
      && taskCount == |taskQueue.contents|
    }

    ghost function Locked(): View
      reads this, freeRoutines, taskQueue
    {
      View(die, routineCount, freeRoutines.contents, taskQueue.contents)
    }

    constructor (o: Options)
      ensures Valid() && this.o == o && Locked() == View(false, 0, [], [])
      ensures fresh(freeRoutines.Repr) && fresh(taskQueue.Repr)
    {
      this.o := o;
      die, routineCount, taskCount := false, 0, 0;
      var a := new Ring<RoutineId>();
      var b := new Ring<Task>();
      freeRoutines, taskQueue := a, b;
    }

    method GoLocked(task: Task) returns (d: Decision)
      requires Valid()
      modifies this, freeRoutines.Repr, taskQueue.Repr
      ensures Valid() && fresh(taskQueue.Repr - old(taskQueue.Repr)) && freeRoutines.Repr == old(freeRoutines.Repr)
      ensures (Locked(), d) == Go(o, old(Locked()), task)
    {
      if die {
        return PoolClosed;
      }
      var r := freeRoutines.Pop();
      if r.Some? {
        return HandTo(r.value);
      }
      if o.maxRoutineCount > 0 && routineCount == o.maxRoutineCount {
        if o.maxQueueSize >= 0 && taskCount >= o.maxQueueSize {
          return QueueFull;
        }
        taskQueue.Push(task);
        taskCount := taskCount + 1;
        return Queued;
      } else if o.maxRoutineCount <= 0 && routineCount >= o.reserveRoutineCount {
        return RunDirectly;
      } else {
        routineCount := routineCount + 1;
        return Spawn;
      }
    }

    method PutRoutine(r: RoutineId) returns (a: Answer)
      requires Valid()
      modifies this, freeRoutines.Repr, taskQueue.Repr
      ensures Valid() && fresh(freeRoutines.Repr - old(freeRoutines.Repr)) && taskQueue.Repr == old(taskQueue.Repr)
      ensures (Locked(), a) == Put(o, old(Locked()), r)
    {
      if die {
        return Exit;
      }
      var v := taskQueue.Pop();
      if v.Some? {
        taskCount := taskCount - 1;
        return Next(v.value);
      }
      if routineCount > o.reserveRoutineCount {
        routineCount := routineCount - 1;
        return Exit;
      }
      freeRoutines.Push(r);
      return Park;
    }

    /** The loop of Close: takes every routine out of the ring; each is then closed. */
    method DrainIdle() returns (closed: seq<RoutineId>)
      requires freeRoutines.Valid()
      modifies freeRoutines.Repr
      ensures freeRoutines.Valid() && freeRoutines.Repr == old(freeRoutines.Repr)
      ensures closed == old(freeRoutines.contents) && freeRoutines.contents == []
    {
      ghost var all := freeRoutines.contents;
      closed := [];
      while true
        invariant freeRoutines.Valid() && freeRoutines.Repr == old(freeRoutines.Repr)
        invariant |closed| <= |all| && closed == all[..|closed|] && freeRoutines.contents == all[|closed|..]
        decreases |all| - |closed|
      {
        ghost var n := |closed|;
        var r := freeRoutines.Pop();
        if r.None? {
          break;
        }
        assert all[n..][1..] == all[n + 1..] && all[n..][0] == all[n];
        closed := closed + [r.value];
      }
    }

    method Close() returns (closed: seq<RoutineId>)
      requires Valid()
      modifies this, freeRoutines.Repr
      ensures Valid() && freeRoutines.Repr == old(freeRoutines.Repr)
      ensures (Locked(), closed) == Shut(old(Locked()))
    {
      closed := [];
      if !die {
        die := true;
        closed := DrainIdle();
      }
    }
  }

  // ------------------------------------------------------------- the machine

  datatype Routine =
    | Waiting           // blocked on its channel, in the idle ring
    | Handed(t: Task)   // chosen for a task that is being sent to its channel
    | Running(t: Task)
    | Asking            // done with a task, about to call putRoutine
    | Told              // its channel was closed by Close
    | Ended

  /** Where an accepted task is. */
  datatype Place = InQueue | With(r: RoutineId) | Direct | Finished

  datatype State = State(
    o: Options,
    v: View,
    rs: seq<Routine>,
    place: seq<Place>,          // of every task accepted, numbered in order of acceptance
    closes: seq<RoutineId>)     // history: channels closed, in order

  datatype Step =
    | Submit
    | Receive(r: nat)
    | Complete(r: nat)
    | Ask(r: nat)
    | DirectDone(t: nat)
    | CloseAll
    | Leave(r: nat)

  ghost predicate Init(s: State) {
    s.v == View(false, 0, [], []) && s.rs == [] && s.place == [] && s.closes == []
  }

  ghost predicate Enabled(s: State, step: Step) {
    match step
    case Submit => forall i :: 0 <= i < |s.v.idle| ==> s.v.idle[i] < |s.rs|
    case Receive(r) => r < |s.rs| && s.rs[r].Handed?
    case Complete(r) => r < |s.rs| && s.rs[r].Running? && s.rs[r].t < |s.place|
    case Ask(r) => r < |s.rs| && s.rs[r].Asking? && forall i :: 0 <= i < |s.v.queue| ==> s.v.queue[i] < |s.place|
    case DirectDone(t) => t < |s.place| && s.place[t].Direct?
    case CloseAll => true
    case Leave(r) => r < |s.rs| && s.rs[r].Told?
  }

  ghost function Tell(rs: seq<Routine>, ids: seq<RoutineId>): (r: seq<Routine>)
    ensures |r| == |rs| && forall i :: 0 <= i < |rs| ==> r[i] == if i in ids then Told else rs[i]
  {
    seq(|rs|, i requires 0 <= i < |rs| => if i in ids then Told else rs[i])
  }

  ghost function Do(s: State, step: Step): State
    requires Enabled(s, step)
  {
    match step
    case Submit =>
      var t := |s.place|;
      var (v, d) := Go(s.o, s.v, t);
      (match d
       case PoolClosed => s
       case QueueFull => s
       case HandTo(r) => s.(v := v, rs := s.rs[r := Handed(t)], place := s.place + [With(r)])
       case Queued => s.(v := v, place := s.place + [InQueue])
       case RunDirectly => s.(v := v, place := s.place + [Direct])
       case Spawn => s.(v := v, rs := s.rs + [Handed(t)], place := s.place + [With(|s.rs|)]))
    case Receive(r) => s.(rs := s.rs[r := Running(s.rs[r].t)])
    case Complete(r) => s.(rs := s.rs[r := Asking], place := s.place[s.rs[r].t := Finished])
    case Ask(r) =>
      var (v, a) := Put(s.o, s.v, r);
      (match a
       case Exit => s.(v := v, rs := s.rs[r := Ended])
       case Next(t) => s.(v := v, rs := s.rs[r := Running(t)], place := s.place[t := With(r)])
       case Park => s.(v := v, rs := s.rs[r := Waiting]))
    case DirectDone(t) => s.(place := s.place[t := Finished])
    case CloseAll =>
      var (v, closed) := Shut(s.v);
      s.(v := v, rs := Tell(s.rs, closed), closes := s.closes + closed)
    case Leave(r) => s.(rs := s.rs[r := Ended])
  }

  ghost predicate Transition(s: State, s': State) {
    exists step :: Enabled(s, step) && s' == Do(s, step)
  }

  // ---------------------------------------------------------------- invariant

  ghost predicate Busy(r: Routine) { r.Handed? || r.Running? || r.Asking? }

  ghost function BusyCount(rs: seq<Routine>): nat {
    if rs == [] then 0 else BusyCount(rs[..|rs| - 1]) + (if Busy(rs[|rs| - 1]) then 1 else 0)
  }

  ghost predicate Carries(r: Routine, t: Task) { (r.Handed? || r.Running?) && r.t == t }

  /** The queue holds exactly the tasks whose place says so, each once. */
  ghost predicate QueueOk(queue: seq<Task>, place: seq<Place>) {
    && (forall i :: 0 <= i < |queue| ==> queue[i] < |place| && place[queue[i]].InQueue?)
    && Distinct(queue)
    && (forall t :: 0 <= t < |place| && place[t].InQueue? ==> t in queue)
  }

  /** So do the routines. */
  ghost predicate CarryOk(rs: seq<Routine>, place: seq<Place>) {
    && (forall r :: 0 <= r < |rs| && (rs[r].Handed? || rs[r].Running?) ==>
              rs[r].t < |place| && place[rs[r].t] == With(r))
    && (forall t :: 0 <= t < |place| && place[t].With? ==> place[t].r < |rs| && Carries(rs[place[t].r], t))
  }

  /** The idle ring holds exactly the waiting routines, each once. */
  ghost predicate IdleOk(idle: seq<RoutineId>, rs: seq<Routine>) {
    && (forall i :: 0 <= i < |idle| ==> idle[i] < |rs| && rs[idle[i]].Waiting?)
    && Distinct(idle)
    && (forall r :: 0 <= r < |rs| && rs[r].Waiting? ==> r in idle)
  }

  /** A channel is closed at most once, and its routine never carries a task afterwards. */
  ghost predicate ClosedOk(closes: seq<RoutineId>, rs: seq<Routine>) {
    && (forall i :: 0 <= i < |closes| ==> closes[i] < |rs| && (rs[closes[i]].Told? || rs[closes[i]].Ended?))
    && Distinct(closes)
  }

  /** The documented meaning of the options, before Close. */
  ghost predicate Accounts(s: State) {
    !s.v.die ==>
      && s.v.routineCount == |s.v.idle| + BusyCount(s.rs)
      && (s.o.maxRoutineCount > 0 ==> s.v.routineCount <= s.o.maxRoutineCount)
      && (s.o.maxRoutineCount <= 0 ==>
            s.v.routineCount <= (if s.o.reserveRoutineCount > 0 then s.o.reserveRoutineCount else 0))
      && (s.v.idle != [] ==> s.v.routineCount <= s.o.reserveRoutineCount)
      && (s.v.queue != [] ==> s.v.idle == [] && s.v.routineCount == s.o.maxRoutineCount > 0)
  }

  ghost predicate Inv(s: State) {
    && QueueOk(s.v.queue, s.place) && CarryOk(s.rs, s.place)
    && IdleOk(s.v.idle, s.rs) && ClosedOk(s.closes, s.rs) && (if s.v.die then s.v.idle == [] else s.closes == [])
    && Accounts(s) && Bounded(s) && InOrder(s.v.queue) && NoneBeside(s.o, s.place)
  }

  /** The queue is in order of acceptance. */
  ghost predicate InOrder(queue: seq<Task>) { forall i, j :: 0 <= i < j < |queue| ==> queue[i] < queue[j] }

  /** Under a maximum no task runs beside the counted routines. */
  ghost predicate NoneBeside(o: Options, place: seq<Place>) {
    o.maxRoutineCount > 0 ==> forall t :: 0 <= t < |place| ==> !place[t].Direct?
  }

  ghost predicate Bounded(s: State) { s.o.maxQueueSize >= 0 ==> |s.v.queue| <= s.o.maxQueueSize }

  lemma {:induction false} BusyMoved(rs: seq<Routine>, r: nat, x: Routine)
    requires r < |rs|
    ensures BusyCount(rs[r := x]) == BusyCount(rs) + (if Busy(x) then 1 else 0) - (if Busy(rs[r]) then 1 else 0)
  {
    var n := |rs| - 1;
    if r < n {
      assert rs[r := x][..n] == rs[..n][r := x];
      BusyMoved(rs[..n], r, x);
    } else {
      assert rs[r := x][..n] == rs[..n];
    }
  }

  lemma BusyAppended(rs: seq<Routine>, x: Routine)
    ensures BusyCount(rs + [x]) == BusyCount(rs) + (if Busy(x) then 1 else 0)
  {
    assert (rs + [x])[..|rs|] == rs;
  }

  /** A new task in the hands of routine r, which carried none. */
  lemma CarryNew(rs: seq<Routine>, place: seq<Place>, r: nat)
    requires CarryOk(rs, place) && r < |rs| && !rs[r].Handed? && !rs[r].Running?
    ensures CarryOk(rs[r := Handed(|place|)], place + [With(r)])
  {
  }

  lemma CarrySpawned(rs: seq<Routine>, place: seq<Place>)
    requires CarryOk(rs, place)
    ensures CarryOk(rs + [Handed(|place|)], place + [With(|rs|)])
  {
  }

  /** Replacing a routine that carries nothing by another that carries nothing. */
  lemma CarryIdle(rs: seq<Routine>, place: seq<Place>, r: nat, x: Routine)
    requires CarryOk(rs, place) && r < |rs|
    requires !rs[r].Handed? && !rs[r].Running? && !x.Handed? && !x.Running?
    ensures CarryOk(rs[r := x], place)
  {
  }

  lemma QueuePopped(queue: seq<Task>, place: seq<Place>, r: RoutineId)
    requires QueueOk(queue, place) && queue != []
    ensures QueueOk(queue[1..], place[queue[0] := With(r)])
  {
    forall t | 0 <= t < |place| && place[queue[0] := With(r)][t].InQueue? ensures t in queue[1..] {
      var i :| 0 <= i < |queue| && queue[i] == t;
      assert queue[1..][i - 1] == t;
    }
  }

  lemma CarryPopped(rs: seq<Routine>, place: seq<Place>, r: nat, t: Task)
    requires CarryOk(rs, place) && r < |rs| && rs[r].Asking? && t < |place| && place[t].InQueue?
    ensures CarryOk(rs[r := Running(t)], place[t := With(r)])
  {
  }

  lemma IdlePopped(idle: seq<RoutineId>, rs: seq<Routine>, x: Routine)
    requires IdleOk(idle, rs) && idle != [] && !x.Waiting?
    ensures IdleOk(idle[1..], rs[idle[0] := x])
  {
    forall r | 0 <= r < |rs| && rs[idle[0] := x][r].Waiting? ensures r in idle[1..] {
      var i :| 0 <= i < |idle| && idle[i] == r;
      assert idle[1..][i - 1] == r;
    }
  }

  lemma IdlePushed(idle: seq<RoutineId>, rs: seq<Routine>, r: nat)
    requires IdleOk(idle, rs) && r < |rs| && !rs[r].Waiting?
    ensures IdleOk(idle + [r], rs[r := Waiting])
  {
  }

  lemma IdleOthers(idle: seq<RoutineId>, rs: seq<Routine>, r: nat, x: Routine)
    requires IdleOk(idle, rs) && r < |rs| && !rs[r].Waiting? && !x.Waiting?
    ensures IdleOk(idle, rs[r := x])
  {
  }

  lemma HandKeepsInv(s: State)
    requires Inv(s) && !s.v.die && s.v.idle != []
    ensures Inv(Do(s, Submit))
  {
    var r, t := s.v.idle[0], |s.place|;
    CarryNew(s.rs, s.place, r);
    QueueElsewhere(s.v.queue, s.place, With(r));
    IdlePopped(s.v.idle, s.rs, Handed(t));
    BusyMoved(s.rs, r, Handed(t));
  }

  lemma SpawnKeepsInv(s: State)
    requires Inv(s) && !s.v.die && s.v.idle == [] && Go(s.o, s.v, |s.place|).1 == Spawn
    ensures Inv(Do(s, Submit))
  {
    CarrySpawned(s.rs, s.place);
    QueueElsewhere(s.v.queue, s.place, With(|s.rs|));
    BusyAppended(s.rs, Handed(|s.place|));
  }

  lemma CarryElsewhere(rs: seq<Routine>, place: seq<Place>, x: Place)
    requires CarryOk(rs, place) && !x.With?
    ensures CarryOk(rs, place + [x])
  {
  }

  lemma QueueElsewhere(queue: seq<Task>, place: seq<Place>, x: Place)
    requires QueueOk(queue, place) && !x.InQueue?
    ensures QueueOk(queue, place + [x])
  {
  }

  lemma QueuePushed(queue: seq<Task>, place: seq<Place>)
    requires QueueOk(queue, place)
    ensures QueueOk(queue + [|place|], place + [InQueue])
  {
  }

  /** The cases in which no routine gets the task. */
  lemma NoRoutineKeepsInv(s: State)
    requires Inv(s) && !s.v.die && s.v.idle == [] && Go(s.o, s.v, |s.place|).1 != Spawn
    ensures Inv(Do(s, Submit))
  {
    CarryElsewhere(s.rs, s.place, InQueue);
    CarryElsewhere(s.rs, s.place, Direct);
    QueueElsewhere(s.v.queue, s.place, Direct);
    QueuePushed(s.v.queue, s.place);
  }

  lemma SubmitKeepsInv(s: State)
    requires Inv(s) && Enabled(s, Submit)
    ensures Inv(Do(s, Submit))
  {
    if !s.v.die {
      if s.v.idle != [] {
        HandKeepsInv(s);
      } else if Go(s.o, s.v, |s.place|).1 == Spawn {
        SpawnKeepsInv(s);
      } else {
        NoRoutineKeepsInv(s);
      }
    }
  }

  lemma NextKeepsInv(s: State, r: nat)
    requires Inv(s) && Enabled(s, Ask(r)) && !s.v.die && s.v.queue != []
    ensures Inv(Do(s, Ask(r)))
  {
    var t := s.v.queue[0];
    QueuePopped(s.v.queue, s.place, r);
    CarryPopped(s.rs, s.place, r, t);
    IdleOthers(s.v.idle, s.rs, r, Running(t));
    BusyMoved(s.rs, r, Running(t));
  }

  lemma ParkKeepsInv(s: State, r: nat)
    requires Inv(s) && Enabled(s, Ask(r)) && Put(s.o, s.v, r).1.Park?
    ensures Inv(Do(s, Ask(r)))
  {
    CarryIdle(s.rs, s.place, r, Waiting);
    IdlePushed(s.v.idle, s.rs, r);
    BusyMoved(s.rs, r, Waiting);
  }

  lemma AskKeepsInv(s: State, r: nat)
    requires Inv(s) && Enabled(s, Ask(r))
    ensures Inv(Do(s, Ask(r)))
  {
    var a := Put(s.o, s.v, r).1;
    match a
    case Exit =>
      CarryIdle(s.rs, s.place, r, Ended);
      IdleOthers(s.v.idle, s.rs, r, Ended);
      BusyMoved(s.rs, r, Ended);
    case Next(t) => NextKeepsInv(s, r);
    case Park => ParkKeepsInv(s, r);
  }

  lemma RunKeepsTask(s: State, r: nat)
    requires Inv(s) && Enabled(s, Receive(r))
    ensures Inv(Do(s, Receive(r)))
  {
    IdleOthers(s.v.idle, s.rs, r, Running(s.rs[r].t));
    BusyMoved(s.rs, r, Running(s.rs[r].t));
  }

  lemma CompleteKeepsInv(s: State, r: nat)
    requires Inv(s) && Enabled(s, Complete(r))
    ensures Inv(Do(s, Complete(r)))
  {
    IdleOthers(s.v.idle, s.rs, r, Asking);
    BusyMoved(s.rs, r, Asking);
  }

  lemma CloseKeepsInv(s: State)
    requires Inv(s)
    ensures Inv(Do(s, CloseAll))
  {
    if s.v.die {
      assert Tell(s.rs, []) == s.rs;
    } else {
      CarryTold(s.rs, s.place, s.v.idle);
      IdleTold(s.rs, s.v.idle);
    }
  }

  lemma CarryTold(rs: seq<Routine>, place: seq<Place>, idle: seq<RoutineId>)
    requires CarryOk(rs, place) && IdleOk(idle, rs)
    ensures CarryOk(Tell(rs, idle), place)
  {
    var rs' := Tell(rs, idle);
    assert forall r :: 0 <= r < |rs| && (rs'[r].Handed? || rs'[r].Running?) ==> rs'[r] == rs[r];
    forall t | 0 <= t < |place| && place[t].With? ensures Carries(rs'[place[t].r], t) {
      assert Carries(rs[place[t].r], t);
    }
  }

  lemma IdleTold(rs: seq<Routine>, idle: seq<RoutineId>)
    requires IdleOk(idle, rs)
    ensures IdleOk([], Tell(rs, idle)) && ClosedOk(idle, Tell(rs, idle))
  {
  }

  lemma StepKeepsInv(s: State, step: Step)
    requires Inv(s) && Enabled(s, step)
    ensures Inv(Do(s, step))
  {
    match step
    case Submit => SubmitKeepsInv(s);
    case Ask(r) => AskKeepsInv(s, r);
    case Receive(r) => RunKeepsTask(s, r);
    case Complete(r) => CompleteKeepsInv(s, r);
    case Leave(r) =>
      CarryIdle(s.rs, s.place, r, Ended);
      IdleOthers(s.v.idle, s.rs, r, Ended);
      BusyMoved(s.rs, r, Ended);
    case CloseAll => CloseKeepsInv(s);
    case DirectDone(t) =>
  }

  // ------------------------------------------------------------ main theorems

  lemma RunKeepsInv(run: seq<State>, k: nat)
    requires Runs.IsRun(Init, Transition, run) && k < |run|
    ensures Inv(run[k])
  {
    forall s, s' | Inv(s) && Transition(s, s') ensures Inv(s') {
      var step :| Enabled(s, step) && s' == Do(s, step);
      StepKeepsInv(s, step);
    }
    Runs.Invariance(Init, Transition, Inv, run, k);
  }

  /** The conditions that make steps well defined exclude nothing that is reachable. */
  lemma NothingExcluded(run: seq<State>, k: nat, r: nat)
    requires Runs.IsRun(Init, Transition, run) && k < |run| && r < |run[k].rs|
    ensures Enabled(run[k], Submit)
    ensures run[k].rs[r].Asking? ==> Enabled(run[k], Ask(r))
    ensures run[k].rs[r].Running? ==> Enabled(run[k], Complete(r))
  {
    RunKeepsInv(run, k);
  }

  /** Work conservation: an accepted task is in exactly one place, and while the pool is open a task
      waits in the queue only when no routine is idle and the maximum is reached, all of it busy. */
  lemma WorkConserved(run: seq<State>, k: nat, t: nat)
    requires Runs.IsRun(Init, Transition, run) && k < |run| && t < |run[k].place|
    ensures var s := run[k];
            && (s.place[t].InQueue? <==> t in s.v.queue)
            && (forall r :: 0 <= r < |s.rs| ==> (Carries(s.rs[r], t) <==> s.place[t] == With(r)))
            && (!s.v.die && s.place[t].InQueue? ==>
                  s.v.idle == [] && BusyCount(s.rs) == s.v.routineCount == s.o.maxRoutineCount > 0)
  {
    RunKeepsInv(run, k);
  }

  /** Accounting, before Close: idle and busy routines add up to routineCount, which respects the
      maximum, or the reserve when there is no maximum; and idle routines are kept only up to the reserve. */
  lemma CountsRespectOptions(run: seq<State>, k: nat)
    requires Runs.IsRun(Init, Transition, run) && k < |run| && !run[k].v.die
    ensures var s := run[k];
            && s.v.routineCount == |s.v.idle| + BusyCount(s.rs)
            && (forall r :: 0 <= r < |s.rs| ==> (s.rs[r].Waiting? <==> r in s.v.idle))
            && (s.o.maxRoutineCount > 0 ==> s.v.routineCount <= s.o.maxRoutineCount)
            && (s.o.maxRoutineCount <= 0 ==> s.v.routineCount <= 0 || s.v.routineCount <= s.o.reserveRoutineCount)
            && (s.v.idle != [] ==> s.v.routineCount <= s.o.reserveRoutineCount)
  {
    RunKeepsInv(run, k);
  }

  /** The queue respects its limit, and a task is refused if and only if the pool is closed or all of
      the maximum of routines are busy and the queue is at its limit. */
  lemma RefusedExactly(run: seq<State>, k: nat)
    requires Runs.IsRun(Init, Transition, run) && k < |run|
    ensures run[k].o.maxQueueSize >= 0 ==> |run[k].v.queue| <= run[k].o.maxQueueSize
    ensures Enabled(run[k], Submit)
    ensures var s, s' := run[k], Do(run[k], Submit);
            if s.v.die || (BusyCount(s.rs) == s.o.maxRoutineCount > 0 && |s.v.queue| == s.o.maxQueueSize) then s' == s
            else |s'.place| == |s.place| + 1 && s'.place[..|s.place|] == s.place
  {
    RunKeepsInv(run, k);
  }

  /** How many routines there are before Close, running a task or idle. */
  ghost function Routines(s: State): nat { |s.v.idle| + BusyCount(s.rs) }

  /** What becomes of a task, in every reachable state.  An idle routine gets it; else, with all of a maximum
      busy, it is queued behind the others, or refused at the limit of the queue; without a maximum and with
      the reserve reached it runs on its own; and otherwise, only then, a new routine is started for it. */
  lemma SubmitExactly(run: seq<State>, k: nat)
    requires Runs.IsRun(Init, Transition, run) && k < |run|
    ensures Enabled(run[k], Submit)
    ensures var s, s' := run[k], Do(run[k], Submit); var t := |s.place|;
            if s.v.die then s' == s
            else if s.v.idle != [] then
              && s.v.idle[0] < |s.rs| && s'.place == s.place + [With(s.v.idle[0])]
              && s'.rs == s.rs[s.v.idle[0] := Handed(t)]
            else if Routines(s) == s.o.maxRoutineCount > 0 then
              if |s.v.queue| == s.o.maxQueueSize then s' == s
              else s'.rs == s.rs && s'.place == s.place + [InQueue] && s'.v.queue == s.v.queue + [t]
            else if s.o.maxRoutineCount <= 0 && Routines(s) >= s.o.reserveRoutineCount then
              s' == s.(place := s.place + [Direct])
            else s'.rs == s.rs + [Handed(t)] && s'.place == s.place + [With(|s.rs|)]
  {
    RunKeepsInv(run, k);
  }

  /** What a routine does when it is done with a task: ends once the pool is closed; else takes the task
      accepted first of those queued; else ends if there are more routines than the reserve, and waits for a
      task otherwise. */
  lemma AskExactly(run: seq<State>, k: nat, r: nat)
    requires Runs.IsRun(Init, Transition, run) && k < |run| && r < |run[k].rs| && run[k].rs[r].Asking?
    ensures Enabled(run[k], Ask(r))
    ensures var s, s' := run[k], Do(run[k], Ask(r));
            if s.v.die then s' == s.(rs := s.rs[r := Ended])
            else if s.v.queue != [] then
              && s'.rs == s.rs[r := Running(s.v.queue[0])] && s'.place[s.v.queue[0]] == With(r)
              && (forall t :: t in s'.v.queue <==> t in s.v.queue && t != s.v.queue[0])
              && (forall t :: t in s'.v.queue ==> s.v.queue[0] < t)
            else if Routines(s) > s.o.reserveRoutineCount then
              s'.rs == s.rs[r := Ended] && Routines(s') == Routines(s) - 1
            else s'.rs == s.rs[r := Waiting] && s'.v.idle == s.v.idle + [r]
  {
    RunKeepsInv(run, k);
    var s := run[k];
    if !s.v.die && s.v.queue == [] && Routines(s) > s.o.reserveRoutineCount {
      BusyMoved(s.rs, r, Ended);
    }
    assert s.v.queue != [] ==> s.v.queue == [s.v.queue[0]] + s.v.queue[1..];
  }

  /** Closing the pool tells exactly the routines that were idle, each once, and leaves the tasks alone; and
      from then on no routine waits any more. */
  lemma CloseExactly(run: seq<State>, k: nat)
    requires Runs.IsRun(Init, Transition, run) && k < |run|
    ensures var s, s' := run[k], Do(run[k], CloseAll);
            && s'.v.die && s'.place == s.place && s'.v.queue == s.v.queue && |s'.rs| == |s.rs|
            && (forall r :: 0 <= r < |s.rs| ==> s'.rs[r] == if s.rs[r].Waiting? then Told else s.rs[r])
            && s'.closes == s.closes + s.v.idle
            && (forall r :: 0 <= r < |s.rs| ==> (r in s.v.idle <==> s.rs[r].Waiting?))
    ensures run[k].v.die ==> forall r :: 0 <= r < |run[k].rs| ==> !run[k].rs[r].Waiting?
  {
    RunKeepsInv(run, k);
    if run[k].v.die {
      assert Tell(run[k].rs, []) == run[k].rs;
    }
  }

  /** Under a maximum, the tasks being run or about to be are at most that many before Close, all of them by
      counted routines. */
  lemma MaximumHolds(run: seq<State>, k: nat)
    requires Runs.IsRun(Init, Transition, run) && k < |run| && run[k].o.maxRoutineCount > 0
    ensures forall t :: 0 <= t < |run[k].place| ==> !run[k].place[t].Direct?
    ensures !run[k].v.die ==> BusyCount(run[k].rs) <= run[k].o.maxRoutineCount
  {
    RunKeepsInv(run, k);
  }

  /** A task is finished only by the return of the routine that carries it or of the goroutine of its own, and
      stays so; and the options do not change. */
  lemma FinishedOnlyByReturning(s: State, step: Step, t: nat)
    requires Inv(s) && Enabled(s, step) && t < |s.place|
    ensures var s' := Do(s, step);
            && s'.o == s.o && t < |s'.place| && (s.place[t].Finished? ==> s'.place[t].Finished?)
            && (s'.place[t].Finished? && !s.place[t].Finished? <==>
                  (step.Complete? && s.rs[step.r] == Running(t)) || step == DirectDone(t))
  {
  }

  /** No channel is closed twice, and none whose routine carries a task. */
  lemma ClosesEachIdleOnce(run: seq<State>, k: nat, i: nat)
    requires Runs.IsRun(Init, Transition, run) && k < |run| && i < |run[k].closes|
    ensures var s := run[k];
            && s.closes[i] < |s.rs| && !Busy(s.rs[s.closes[i]])
            && (forall j :: 0 <= j < |s.closes| && j != i ==> s.closes[j] != s.closes[i])
  {
    RunKeepsInv(run, k);
  }

  /** No routine is working and no task runs on its own. */
  ghost predicate Settled(s: State) {
    && (forall r :: 0 <= r < |s.rs| ==> !Busy(s.rs[r]))
    && (forall t :: 0 <= t < |s.place| ==> !s.place[t].Direct?)
  }

  lemma {:induction false} NobodyBusy(rs: seq<Routine>)
    requires forall r :: 0 <= r < |rs| ==> !Busy(rs[r])
    ensures BusyCount(rs) == 0
  {
    if rs != [] {
      NobodyBusy(rs[..|rs| - 1]);
    }
  }

  /** Once settled, every accepted task has finished, except those that were queued when the pool
      was closed: exactly those never run. */
  lemma SettledIsDone(run: seq<State>, k: nat, t: nat)
    requires Runs.IsRun(Init, Transition, run) && k < |run| && Settled(run[k]) && t < |run[k].place|
    ensures run[k].place[t].Finished? <==> t !in run[k].v.queue
    ensures !run[k].v.die ==> run[k].v.queue == [] && run[k].place[t].Finished?
  {
    RunKeepsInv(run, k);
    NobodyBusy(run[k].rs);
  }

  lemma {:induction false} QueueFrozenByClose(run: seq<State>, i: nat, k: nat)
    requires Runs.IsRun(Init, Transition, run) && i <= k < |run| && run[i].v.die
    ensures run[k].v.die && run[k].v.queue == run[i].v.queue
  {
    if i < k {
      QueueFrozenByClose(run, i, k - 1);
      assert Transition(run[k - 1], run[k]);
      var step :| Enabled(run[k - 1], step) && run[k] == Do(run[k - 1], step);
    }
  }

  lemma Extend(run: seq<State>, step: Step) returns (run': seq<State>)
    requires Runs.IsRun(Init, Transition, run) && Enabled(run[|run| - 1], step)
    ensures Runs.IsRun(Init, Transition, run') && |run'| > 0
    ensures run'[|run'| - 1] == Do(run[|run| - 1], step)
  {
    var s := Do(run[|run| - 1], step);
    assert Transition(run[|run| - 1], s);
    Runs.Extended(Init, Transition, run, s);
    run' := run + [s];
  }

  ghost const ONE_ROUTINE: Options := Options(1, 0, 10)

  lemma SecondIsQueued() returns (run: seq<State>)
    ensures Runs.IsRun(Init, Transition, run)
    ensures run[|run| - 1] == State(ONE_ROUTINE, View(false, 1, [], [1]), [Handed(0)], [With(0), InQueue], [])
  {
    run := [State(ONE_ROUTINE, View(false, 0, [], []), [], [], [])];
    run := Extend(run, Submit);
    assert run[|run| - 1] == State(ONE_ROUTINE, View(false, 1, [], []), [Handed(0)], [With(0)], []);
    run := Extend(run, Submit);
  }

  /** A run that leaves a task behind: with one routine allowed, the second task is queued, the pool is
      closed while the first runs, and the routine ends.  Both tasks had been accepted. */
  lemma TaskLeftBehind() returns (run: seq<State>)
    ensures Runs.IsRun(Init, Transition, run)
    ensures var s := run[|run| - 1]; Settled(s) && s.v.die && s.place == [Finished, InQueue]
  {
    run := SecondIsQueued();
    run := Extend(run, CloseAll);
    assert run[|run| - 1] == State(ONE_ROUTINE, View(true, 1, [], [1]), [Handed(0)], [With(0), InQueue], []);
    run := Extend(run, Receive(0));
    run := Extend(run, Complete(0));
    assert run[|run| - 1] == State(ONE_ROUTINE, View(true, 1, [], [1]), [Asking], [Finished, InQueue], []);
    run := Extend(run, Ask(0));
  }
}
