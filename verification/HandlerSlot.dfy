/** event/eventHandler.go:153-289: registering, removing and emitting on one slot while handlers
    run.  A call that arrives during an emit is queued, and the emitting goroutine works the
    queue off; handlers and other goroutines may call at any moment, so an arrival is a step of
    its own.  The callback is assumed to return. */
module HandlerSlot {
  import opened Sequences
  import Runs

  datatype Handler = Handler(id: nat, once: bool)
  datatype Call = Call(id: nat, arg: int)
  datatype Op = Register(h: Handler) | Remove(h: Handler) | Emit(arg: int)

  // ------------------------------------------- the sequential machine

  datatype Slot = Slot(list: seq<Handler>, trace: seq<Call>)

  /** What remains of handlers that have been called: once-handlers are gone. */
  ghost function Kept(list: seq<Handler>): seq<Handler> {
    if list == [] then []
    else Kept(list[..|list| - 1]) + (if list[|list| - 1].once then [] else [list[|list| - 1]])
  }

  ghost function Calls(list: seq<Handler>, arg: int): (r: seq<Call>)
    ensures |r| == |list| && forall i :: 0 <= i < |list| ==> r[i] == Call(list[i].id, arg)
  {
    seq(|list|, i requires 0 <= i < |list| => Call(list[i].id, arg))
  }

  /** One operation with nothing else going on: an emit calls every handler present, once each,
      in registration order. */
  ghost function Apply(s: Slot, op: Op): Slot {
    match op
    case Register(h) => s.(list := s.list + [h])
    case Remove(h) => s.(list := Without(s.list, h))
    case Emit(arg) => Slot(Kept(s.list), s.trace + Calls(s.list, arg))
  }

  ghost function ApplyAll(ops: seq<Op>): Slot {
    if ops == [] then Slot([], []) else Apply(ApplyAll(ops[..|ops| - 1]), ops[|ops| - 1])
  }

  // ------------------------------------------- the concurrent machine

  /** Calling(arg, k, called): the handler at position k is running; it is number called of the
      handlers that were registered when this emit began. */
  datatype Cursor = NotCalling | Calling(arg: int, k: nat, called: nat)

  datatype State = State(
    slot: Slot,
    pending: seq<Op>,
    emitting: bool,
    cursor: Cursor,
    arrived: seq<Op>)   // history: every call, in the order the lock was taken

  datatype Step = Arrive(op: Op) | TakePending | HandlerReturns | Finish

  ghost predicate Init(s: State) {
    s == State(Slot([], []), [], false, NotCalling, [])
  }

  ghost predicate Registered(ops: seq<Op>, id: nat) {
    exists i :: 0 <= i < |ops| && ops[i].Register? && ops[i].h.id == id
  }

  ghost predicate Enabled(s: State, step: Step) {
    match step
    case Arrive(op) => op.Register? ==> !Registered(s.arrived, op.h.id)  // a new handle each time
    case TakePending => s.emitting && s.cursor.NotCalling? && s.pending != []
    case HandlerReturns => s.cursor.Calling? && s.cursor.k < |s.slot.list|
    case Finish => s.emitting && s.cursor.NotCalling? && s.pending == []
  }

  /** Starts the call of position k, or ends the emit when the tail is reached. */
  ghost function CallAt(s: State, arg: int, k: nat, called: nat): State {
    if k < |s.slot.list| then
      s.(cursor := Calling(arg, k, called + 1),
         slot := s.slot.(trace := s.slot.trace + [Call(s.slot.list[k].id, arg)]))
    else s.(cursor := NotCalling)
  }

  /** The list after the handler at position k returned, and the position of the next one. */
  ghost function Passed(list: seq<Handler>, k: nat): (seq<Handler>, nat)
    requires k < |list|
  {
    if list[k].once then (list[..k] + list[k + 1..], k) else (list, k + 1)
  }

  ghost function Do(s: State, step: Step): State
    requires Enabled(s, step)
  {
    match step
    case Arrive(op) =>
      var s' := s.(arrived := s.arrived + [op]);
      if s.emitting then s'.(pending := s.pending + [op])
      else if op.Emit? then s'.(pending := s.pending + [op], emitting := true)
      else s'.(slot := Apply(s.slot, op))
    case TakePending =>
      var s' := s.(pending := s.pending[1..]);
      var op := s.pending[0];
      if op.Emit? then CallAt(s', op.arg, 0, 0) else s'.(slot := Apply(s.slot, op))
    case HandlerReturns =>
      var c := s.cursor;
      var (list, k) := Passed(s.slot.list, c.k);
      CallAt(s.(slot := s.slot.(list := list)), c.arg, k, c.called)
    case Finish => s.(emitting := false)
  }

  ghost predicate Leads(s: State, step: Step, s': State) { Enabled(s, step) && s' == Do(s, step) }

  ghost predicate Next(s: State, s': State) { exists step :: Leads(s, step, s') }

  // ---------------------------------------------------------------- invariant

  /** How many arrived operations have been taken up. */
  ghost function Taken(s: State): int { |s.arrived| - |s.pending| }

  /** The emit under way has called the first `called` handlers of l0 and returned from all but the last. */
  ghost predicate Underway(slot: Slot, c: Cursor, s0: Slot) {
    && c.Calling? && 1 <= c.called <= |s0.list|
    && slot.trace == s0.trace + Calls(s0.list[..c.called], c.arg)
    && slot.list == Kept(s0.list[..c.called - 1]) + s0.list[c.called - 1..]
    && c.k == |Kept(s0.list[..c.called - 1])|
  }

  ghost predicate Inv(s: State) {
    && 0 <= Taken(s) && s.pending == s.arrived[Taken(s)..]
    && (!s.emitting ==> s.pending == [] && s.cursor.NotCalling?)
    && (s.cursor.NotCalling? ==> s.slot == ApplyAll(s.arrived[..Taken(s)]))
    && (s.cursor.Calling? ==>
          Taken(s) > 0 && s.arrived[Taken(s) - 1] == Emit(s.cursor.arg) &&
          Underway(s.slot, s.cursor, ApplyAll(s.arrived[..Taken(s) - 1])))
  }

  lemma ApplyAllNext(ops: seq<Op>, n: nat)
    requires n < |ops|
    ensures ApplyAll(ops[..n + 1]) == Apply(ApplyAll(ops[..n]), ops[n])
  {
    assert ops[..n + 1][..n] == ops[..n];
  }

  lemma KeptNext(l: seq<Handler>, n: nat)
    requires n < |l|
    ensures Kept(l[..n + 1]) == Kept(l[..n]) + (if l[n].once then [] else [l[n]])
  {
    assert l[..n + 1][..n] == l[..n];
  }

  lemma ArriveKeepsInv(s: State, op: Op)
    requires Inv(s) && Enabled(s, Arrive(op))
    ensures Inv(Do(s, Arrive(op)))
  {
    var s' := Do(s, Arrive(op));
    var n := Taken(s);
    assert s'.arrived[..n] == s.arrived[..n];
    if s.cursor.Calling? {
      assert s'.arrived[..n - 1] == s.arrived[..n - 1];
    }
    if s.emitting || op.Emit? {
      assert s'.arrived[n..] == s.arrived[n..] + [op];
    } else {
      ApplyAllNext(s'.arrived, n);
    }
  }

  /** The first call of an emit, or none when nobody is registered. */
  lemma EmitStarts(s: State, s0: Slot, arg: int)
    requires s.slot == s0
    ensures var s' := CallAt(s, arg, 0, 0);
            if s0.list == [] then s' == s.(cursor := NotCalling) && s0 == Apply(s0, Emit(arg))
            else Underway(s'.slot, s'.cursor, s0) && s'.cursor.arg == arg
  {
    if s0.list == [] {
      assert s0.trace + Calls([], arg) == s0.trace;
    } else {
      assert s0.list[..0] == [];
      assert Calls(s0.list[..1], arg) == [Call(s0.list[0].id, arg)];
    }
  }

  /** The list while handler n of l0 runs, and after it returned. */
  lemma ListAdvances(l0: seq<Handler>, n: nat)
    requires 1 <= n <= |l0|
    ensures var kept, kept' := Kept(l0[..n - 1]), Kept(l0[..n]);
            Passed(kept + l0[n - 1..], |kept|) == (kept' + l0[n..], |kept'|)
  {
    KeptNext(l0, n - 1);
    Splice(Kept(l0[..n - 1]), l0[n - 1], l0[n..]);
    assert l0[n - 1..] == [l0[n - 1]] + l0[n..];
  }

  lemma Splice(a: seq<Handler>, x: Handler, b: seq<Handler>)
    ensures var l := a + ([x] + b);
            l[|a|] == x && l[..|a|] + l[|a| + 1..] == a + b && l == (a + [x]) + b && a + [] == a
  {
    var l := a + ([x] + b);
    assert l[..|a|] == a && l[|a| + 1..] == b;
  }

  lemma CallsNext(l: seq<Handler>, n: nat, arg: int)
    requires n < |l|
    ensures Calls(l[..n + 1], arg) == Calls(l[..n], arg) + [Call(l[n].id, arg)]
  {
  }

  /** With the first n handlers done, the next one is called or the emit is complete. */
  lemma CallAtAdvances(s: State, s0: Slot, arg: int, n: nat)
    requires n <= |s0.list| && s.slot == Slot(Kept(s0.list[..n]) + s0.list[n..], s0.trace + Calls(s0.list[..n], arg))
    ensures var s' := CallAt(s, arg, |Kept(s0.list[..n])|, n);
            if n < |s0.list| then Underway(s'.slot, s'.cursor, s0) && s'.cursor.arg == arg
            else s'.cursor == NotCalling && s'.slot == Apply(s0, Emit(arg))
  {
    if n < |s0.list| {
      CallsNext(s0.list, n, arg);
      assert s0.trace + Calls(s0.list[..n + 1], arg) ==
             (s0.trace + Calls(s0.list[..n], arg)) + [Call(s0.list[n].id, arg)];
    } else {
      assert s0.list[..n] == s0.list;
      assert Kept(s0.list) + [] == Kept(s0.list);
    }
  }

  /** With once-handlers unlinked as they return, the list is what remains of those called, then the rest. */
  ghost function After(s: State, s0: Slot): State
    requires s.cursor.Calling? && s.cursor.called <= |s0.list|
  {
    s.(slot := s.slot.(list := Kept(s0.list[..s.cursor.called]) + s0.list[s.cursor.called..]))
  }

  lemma ReturnIsCallAt(s: State, s0: Slot)
    requires Underway(s.slot, s.cursor, s0) && Enabled(s, HandlerReturns)
    ensures var c := s.cursor;
            Do(s, HandlerReturns) == CallAt(After(s, s0), c.arg, |Kept(s0.list[..c.called])|, c.called)
  {
    ListAdvances(s0.list, s.cursor.called);
  }

  /** A handler returning takes the emit one handler further, or completes it. */
  lemma EmitAdvances(s: State, s0: Slot)
    requires Underway(s.slot, s.cursor, s0) && Enabled(s, HandlerReturns)
    ensures var s' := Do(s, HandlerReturns);
            && s'.arrived == s.arrived && s'.pending == s.pending && s'.emitting == s.emitting
            && if s.cursor.called < |s0.list| then Underway(s'.slot, s'.cursor, s0) && s'.cursor.arg == s.cursor.arg
               else s'.cursor == NotCalling && s'.slot == Apply(s0, Emit(s.cursor.arg))
  {
    ReturnIsCallAt(s, s0);
    CallAtAdvances(After(s, s0), s0, s.cursor.arg, s.cursor.called);
  }

  lemma TakeKeepsInv(s: State)
    requires Inv(s) && Enabled(s, TakePending)
    ensures Inv(Do(s, TakePending))
  {
    var n := Taken(s);
    var op := s.pending[0];
    assert op == s.arrived[n] && s.pending[1..] == s.arrived[n + 1..];
    ApplyAllNext(s.arrived, n);
    if op.Emit? {
      EmitStarts(s.(pending := s.pending[1..]), s.slot, op.arg);
    }
  }

  lemma ReturnKeepsInv(s: State)
    requires Inv(s) && Enabled(s, HandlerReturns)
    ensures Inv(Do(s, HandlerReturns))
  {
    var n := Taken(s);
    EmitAdvances(s, ApplyAll(s.arrived[..n - 1]));
    ApplyAllNext(s.arrived, n - 1);
  }

  lemma StepKeepsInv(s: State, step: Step)
    requires Inv(s) && Enabled(s, step)
    ensures Inv(Do(s, step))
  {
    match step
    case Arrive(op) => ArriveKeepsInv(s, op);
    case TakePending => TakeKeepsInv(s);
    case HandlerReturns => ReturnKeepsInv(s);
    case Finish =>
  }

  // ------------------------------------------------------------ main theorems

  lemma RunKeepsInv(run: seq<State>, k: nat)
    requires Runs.IsRun(Init, Next, run) && k < |run|
    ensures Inv(run[k])
  {
    forall s, s' | Inv(s) && Next(s, s') ensures Inv(s') {
      var step :| Leads(s, step, s');
      StepKeepsInv(s, step);
    }
    Runs.Invariance(Init, Next, Inv, run, k);
  }

  lemma {:induction false} TraceGrows(ops: seq<Op>, n: nat)
    requires n <= |ops|
    ensures ApplyAll(ops[..n]).trace <= ApplyAll(ops).trace
    decreases |ops| - n
  {
    if n < |ops| {
      ApplyAllNext(ops, n);
      TraceGrows(ops, n + 1);
    } else {
      assert ops[..n] == ops;
    }
  }

  /** The calls made so far are, in order, the first calls of the sequential
      machine that applies the operations in arrival order; and whenever no emit is under way the
      pending queue is empty and handlers and calls are exactly those of that machine. */
  lemma FollowsSequential(run: seq<State>, k: nat)
    requires Runs.IsRun(Init, Next, run) && k < |run|
    ensures run[k].slot.trace <= ApplyAll(run[k].arrived).trace
    ensures !run[k].emitting ==> run[k].pending == [] && run[k].slot == ApplyAll(run[k].arrived)
    ensures run[k].cursor.Calling? ==> run[k].cursor.k < |run[k].slot.list|
  {
    RunKeepsInv(run, k);
    var s := run[k];
    var n := Taken(s);
    TraceGrows(s.arrived, n);
    if s.cursor.Calling? {
      ApplyAllNext(s.arrived, n - 1);
      var s0 := ApplyAll(s.arrived[..n - 1]);
      assert Calls(s0.list[..s.cursor.called], s.cursor.arg) <= Calls(s0.list, s.cursor.arg);
    }
    if !s.emitting {
      assert s.arrived[..n] == s.arrived;
    }
  }

  // ------------------------------------------------ one-shot handlers and handles

  /** How many handlers of the list carry the id. */
  ghost function Occurs(l: seq<Handler>, id: nat): nat {
    if l == [] then 0 else (if l[0].id == id then 1 else 0) + Occurs(l[1..], id)
  }

  ghost function TimesCalled(trace: seq<Call>, id: nat): nat {
    if trace == [] then 0 else (if trace[0].id == id then 1 else 0) + TimesCalled(trace[1..], id)
  }

  lemma {:induction false} OccursAppend(a: seq<Handler>, b: seq<Handler>, id: nat)
    ensures Occurs(a + b, id) == Occurs(a, id) + Occurs(b, id)
  {
    if a == [] {
      assert a + b == b;
    } else {
      assert (a + b)[1..] == a[1..] + b;
      OccursAppend(a[1..], b, id);
    }
  }

  lemma {:induction false} CalledAppend(a: seq<Call>, b: seq<Call>, id: nat)
    ensures TimesCalled(a + b, id) == TimesCalled(a, id) + TimesCalled(b, id)
  {
    if a == [] {
      assert a + b == b;
    } else {
      assert (a + b)[1..] == a[1..] + b;
      CalledAppend(a[1..], b, id);
    }
  }

  lemma {:induction false} CallsCount(l: seq<Handler>, arg: int, id: nat)
    ensures TimesCalled(Calls(l, arg), id) == Occurs(l, id)
  {
    if l != [] {
      assert Calls(l, arg)[1..] == Calls(l[1..], arg);
      CallsCount(l[1..], arg, id);
    }
  }

  lemma {:induction false} RemovedCount(l: seq<Handler>, h: Handler, id: nat)
    ensures Occurs(Without(l, h), id) == Occurs(l, id) - (if h in l && h.id == id then 1 else 0)
  {
    if l != [] && l[0] != h {
      RemovedCount(l[1..], h, id);
    }
  }

  lemma {:induction false} MemberOccurs(l: seq<Handler>, h: Handler)
    requires h in l
    ensures Occurs(l, h.id) > 0
  {
    if l[0] != h {
      MemberOccurs(l[1..], h);
    }
  }

  lemma {:induction false} KeptCount(l: seq<Handler>, id: nat)
    ensures Occurs(Kept(l), id) <= Occurs(l, id)
    ensures (forall i :: 0 <= i < |l| && l[i].id == id ==> l[i].once) ==> Occurs(Kept(l), id) == 0
  {
    if l != [] {
      var n := |l| - 1;
      KeptCount(l[..n], id);
      var last := if l[n].once then [] else [l[n]];
      OccursAppend(Kept(l[..n]), last, id);
      OccursAppend(l[..n], [l[n]], id);
      assert l[..n] + [l[n]] == l;
    }
  }

  /** Every registration makes a new handle. */
  ghost predicate Fresh(ops: seq<Op>) {
    forall i, j :: 0 <= i < j < |ops| && ops[i].Register? && ops[j].Register? ==> ops[i].h.id != ops[j].h.id
  }

  ghost predicate OnlyOnce(ops: seq<Op>, id: nat) {
    forall i :: 0 <= i < |ops| && ops[i].Register? && ops[i].h.id == id ==> ops[i].h.once
  }

  lemma {:induction false} MembersKept(l: seq<Handler>, h: Handler)
    ensures h in Kept(l) <==> h in l && !h.once
  {
    if l != [] {
      var n := |l| - 1;
      MembersKept(l[..n], h);
      assert h in l <==> h in l[..n] || h == l[n];
    }
  }

  /** Handlers in the list were registered. */
  lemma {:induction false} MembersRegistered(ops: seq<Op>, h: Handler)
    requires h in ApplyAll(ops).list
    ensures exists i :: 0 <= i < |ops| && ops[i] == Register(h)
  {
    var n := |ops| - 1;
    var s := ApplyAll(ops[..n]);
    if h in s.list {
      MembersRegistered(ops[..n], h);
      var i :| 0 <= i < n && ops[..n][i] == Register(h);
      assert ops[i] == Register(h);
    } else {
      MembersKept(s.list, h);
      match ops[n]
      case Remove(x) => WithoutOthers(s.list, x, h);
      case _ =>
    }
  }

  /** An id is in the list at most once, and for a once-handler the list and the calls together
      mention it at most once. */
  lemma {:induction false} AtMostOnce(ops: seq<Op>, id: nat)
    requires Fresh(ops)
    ensures var s := ApplyAll(ops); var bound := if Registered(ops, id) then 1 else 0;
            && Occurs(s.list, id) <= bound
            && (OnlyOnce(ops, id) ==> Occurs(s.list, id) + TimesCalled(s.trace, id) <= bound)
  {
    if ops != [] {
      var n := |ops| - 1;
      var s := ApplyAll(ops[..n]);
      AtMostOnce(ops[..n], id);
      if Registered(ops[..n], id) {
        var i :| 0 <= i < n && ops[..n][i].Register? && ops[..n][i].h.id == id;
        assert ops[i].Register? && ops[i].h.id == id;
      }
      match ops[n]
      case Register(h) =>
        OccursAppend(s.list, [h], id);
        assert Occurs([h], id) == if h.id == id then 1 else 0;
        assert Registered(ops, h.id);
      case Remove(x) => RemovedCount(s.list, x, id);
      case Emit(arg) =>
        KeptCount(s.list, id);
        CalledAppend(s.trace, Calls(s.list, arg), id);
        CallsCount(s.list, arg, id);
        if OnlyOnce(ops, id) {
          forall i | 0 <= i < |s.list| && s.list[i].id == id ensures s.list[i].once {
            MembersRegistered(ops[..n], s.list[i]);
            var j :| 0 <= j < n && ops[..n][j] == Register(s.list[i]);
            assert ops[j] == Register(s.list[i]);
          }
        }
    }
  }

  ghost predicate FreshState(s: State) { Fresh(s.arrived) }

  lemma RunIsFresh(run: seq<State>, k: nat)
    requires Runs.IsRun(Init, Next, run) && k < |run|
    ensures Fresh(run[k].arrived)
  {
    forall s, s' | FreshState(s) && Next(s, s') ensures FreshState(s') {
      var step :| Leads(s, step, s');
    }
    Runs.Invariance(Init, Next, FreshState, run, k);
  }

  /** A once-handler is invoked at most once, even under re-entrant emits. */
  lemma OnceMeansOnce(run: seq<State>, k: nat, h: Handler)
    requires Runs.IsRun(Init, Next, run) && k < |run|
    requires h.once && Register(h) in run[k].arrived
    ensures TimesCalled(run[k].slot.trace, h.id) <= 1
  {
    RunIsFresh(run, k);
    FollowsSequential(run, k);
    var ops := run[k].arrived;
    var t, all := run[k].slot.trace, ApplyAll(ops).trace;
    AtMostOnce(ops, h.id);
    assert all == t + all[|t|..];
    CalledAppend(t, all[|t|..], h.id);
    assert OnlyOnce(ops, h.id);
  }

  /** Removing a handle a second time changes nothing. */
  lemma RemoveTwice(ops: seq<Op>, h: Handler)
    requires Fresh(ops)
    ensures ApplyAll(ops + [Remove(h), Remove(h)]) == ApplyAll(ops + [Remove(h)])
  {
    var once := ops + [Remove(h)];
    assert once[..|ops|] == ops && (ops + [Remove(h), Remove(h)])[..|once|] == once;
    GoneOnceRemoved(ops, h);
    NotThere(ApplyAll(once).list, h);
  }

  lemma GoneOnceRemoved(ops: seq<Op>, h: Handler)
    requires Fresh(ops)
    ensures h !in Without(ApplyAll(ops).list, h)
  {
    var l := ApplyAll(ops).list;
    AtMostOnce(ops, h.id);
    RemovedCount(l, h, h.id);
    if h in Without(l, h) {
      MemberOccurs(Without(l, h), h);
      WithoutOthers(l, h, h);
    }
  }

  /** An operation that takes h out of the list. */
  ghost predicate Ends(op: Op, h: Handler) { op == Remove(h) || (h.once && op.Emit?) }

  ghost predicate StandsSince(ops: seq<Op>, h: Handler, i: int) {
    && 0 <= i < |ops| && ops[i] == Register(h)
    && forall j :: i < j < |ops| ==> !Ends(ops[j], h)
  }

  /** A registration of h with nothing behind it that takes h out again. */
  ghost predicate Stands(ops: seq<Op>, h: Handler) { exists i :: StandsSince(ops, h, i) }

  lemma StandsNext(ops: seq<Op>, h: Handler)
    requires ops != []
    ensures var n := |ops| - 1;
            Stands(ops, h) <==> ops[n] == Register(h) || (Stands(ops[..n], h) && !Ends(ops[n], h))
  {
    var n := |ops| - 1;
    if Stands(ops, h) {
      var i :| StandsSince(ops, h, i);
      assert i < n ==> StandsSince(ops[..n], h, i);
    }
    if ops[n] == Register(h) {
      assert StandsSince(ops, h, n);
    } else if Stands(ops[..n], h) && !Ends(ops[n], h) {
      var i :| StandsSince(ops[..n], h, i);
      assert forall j :: i < j < n ==> ops[j] == ops[..n][j];
      assert StandsSince(ops, h, i);
    }
  }

  /** The list holds exactly the handlers whose registration stands. */
  lemma {:induction false} ListExactly(ops: seq<Op>, h: Handler)
    requires Fresh(ops)
    ensures h in ApplyAll(ops).list <==> Stands(ops, h)
  {
    if ops != [] {
      var n := |ops| - 1;
      var l := ApplyAll(ops[..n]).list;
      ListExactly(ops[..n], h);
      StandsNext(ops, h);
      match ops[n]
      case Register(_) =>
      case Remove(x) =>
        WithoutOthers(l, x, h);
        GoneOnceRemoved(ops[..n], h);
      case Emit(_) => MembersKept(l, h);
    }
  }

  /** EventHandler.Remove passes a handle on to the slot only if it carries the slot's version,
      that is, only if it is in the list at that moment. */
  ghost function RemoveViaHandler(s: State, h: Handler): State {
    if h in s.slot.list then Do(s, Arrive(Remove(h))) else s
  }

  /** The handles in the list while operations are pending: registered before those, and missing only
      if an operation taken up has ended them. */
  lemma ListNow(s: State, h: Handler)
    requires Inv(s) && Fresh(s.arrived)
    ensures h in s.slot.list ==> Register(h) in s.arrived[..Taken(s)]
    ensures Stands(s.arrived[..Taken(s)], h) ==> h in s.slot.list
  {
    var n := Taken(s);
    if s.cursor.NotCalling? {
      ListExactly(s.arrived[..n], h);
      StandsIsRegistered(s.arrived[..n], h);
    } else {
      var ops, c := s.arrived[..n], s.cursor.called;
      var l0 := ApplyAll(ops[..n - 1]).list;
      assert ops[..n - 1] == s.arrived[..n - 1];
      ListExactly(ops[..n - 1], h);
      StandsIsRegistered(ops[..n - 1], h);
      StandsNext(ops, h);
      MembersKept(l0[..c - 1], h);
      assert l0 == l0[..c - 1] + l0[c - 1..];
    }
  }

  lemma StandsIsRegistered(ops: seq<Op>, h: Handler)
    ensures Stands(ops, h) ==> Register(h) in ops
  {
  }

  /** In a run of fresh registrations a tail that holds the registration decides whether it stands; if it
      does not, what stands stands already in front of the tail. */
  lemma StandsInTail(ops: seq<Op>, n: nat, h: Handler)
    requires Fresh(ops) && n <= |ops|
    ensures Register(h) in ops[n..] ==> (Stands(ops, h) <==> Stands(ops[n..], h)) && Register(h) !in ops[..n]
    ensures Register(h) !in ops[n..] && Stands(ops, h) ==> Stands(ops[..n], h)
  {
    assert forall j :: n <= j < |ops| ==> ops[j] == ops[n..][j - n];
    if Register(h) in ops[n..] {
      var i :| 0 <= i < |ops[n..]| && ops[n..][i] == Register(h);
      assert ops[n + i] == Register(h);
      assert forall j :: 0 <= j < |ops| && ops[j] == Register(h) ==> j == n + i;
      assert forall j :: 0 <= j < |ops| - n ==> ops[n..][j] == ops[n + j];
      if Stands(ops, h) {
        assert StandsSince(ops, h, n + i);
        assert StandsSince(ops[n..], h, i);
      }
      if Stands(ops[n..], h) {
        var k :| StandsSince(ops[n..], h, k);
        assert ops[n + k] == Register(h);
        assert forall j :: n + k < j < |ops| ==> ops[j] == ops[n..][j - n];
        assert StandsSince(ops, h, n + k);
      }
    } else if Stands(ops, h) {
      var i :| StandsSince(ops, h, i);
      assert StandsSince(ops[..n], h, i);
    }
  }

  /** EventHandler.Remove fails, that is, h will be in the list once all pending operations are done, if
      and only if the registration of h is still pending with no removal of h behind it and, for a
      once-handler, no emit either. */
  lemma RemoveMissesExactly(run: seq<State>, k: nat, h: Handler)
    requires Runs.IsRun(Init, Next, run) && k < |run|
    ensures h in ApplyAll(RemoveViaHandler(run[k], h).arrived).list <==> Stands(run[k].pending, h)
  {
    RunKeepsInv(run, k);
    RunIsFresh(run, k);
    var s := run[k];
    var n := Taken(s);
    ListNow(s, h);
    StandsInTail(s.arrived, n, h);
    StandsIsRegistered(s.pending, h);
    if h in s.slot.list {
      var ops := s.arrived + [Remove(h)];
      assert ops[..|s.arrived|] == s.arrived;
      GoneOnceRemoved(s.arrived, h);
    } else {
      ListExactly(s.arrived, h);
    }
  }

  /** A run in which it fails: a handle registered during an emit and removed before the emit ends. */
  lemma PendingRemoveIsMissed() returns (run: seq<State>)
    ensures Runs.IsRun(Init, Next, run)
    ensures var s := run[|run| - 1]; var h := Handler(2, false);
            Register(h) in s.pending && h in ApplyAll(RemoveViaHandler(s, h).arrived).list
  {
    var s0 := State(Slot([], []), [], false, NotCalling, []);
    var s1 := Do(s0, Arrive(Register(Handler(1, false))));
    var s2 := Do(s1, Arrive(Emit(7)));
    var s3 := Do(s2, TakePending);
    var s4 := Do(s3, Arrive(Register(Handler(2, false))));
    run := [s0, s1, s2, s3, s4];
    assert Leads(s0, Arrive(Register(Handler(1, false))), s1) && Leads(s1, Arrive(Emit(7)), s2);
    assert Leads(s2, TakePending, s3) && Leads(s3, Arrive(Register(Handler(2, false))), s4);
    assert StandsSince(s4.pending, Handler(2, false), 0);
    RemoveMissesExactly(run, 4, Handler(2, false));
  }
}
