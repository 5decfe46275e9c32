/** socket/aio/aiosocket.go:276-472: the hand-off of sendLock between Send, doSend and
    onSendComplete, and the bytes that pass through it.

    An activity is one call of Send together with the send task it may start; every atomic
    operation, queue operation and I/O completion is one step.  The transport reports true
    byte counts and completes without error only after writing everything.  Buffers taken
    from the pool are fresh; once freed a buffer may hold anything at any moment, also while it is
    being filled or written. */
module SendProtocol {
  import opened Bytes
  import Runs

  /** A queued object with the outcome of encoding it: the bytes the encoder writes, and whether
      it then reports success.  A []byte is written as it is. */
  datatype Item = Item(ok: bool, bytes: seq<byte>)

  ghost function Encodings(items: seq<Item>): seq<byte> {
    if items == [] then []
    else Encodings(items[..|items| - 1]) + (if items[|items| - 1].ok then items[|items| - 1].bytes else [])
  }

  /** The encoding loop of doSend: what a failed encoder wrote is cut off again. */
  method Fill(b: Buffer, swaped: seq<Item>)
    modifies b
    ensures b.bs == old(b.bs) + Encodings(swaped)
  {
    for i := 0 to |swaped|
      invariant b.bs == old(b.bs) + Encodings(swaped[..i])
    {
      assert swaped[..i + 1][..i] == swaped[..i];
      var l := |b.bs|;
      b.AppendBytes(swaped[i].bytes);
      if !swaped[i].ok {
        b.SetLen(l);
      }
    }
    assert swaped[..|swaped|] == swaped;
  }

  datatype Act =
    | Idle
    | Enqueued                                       // send:2, about to CAS
    | Won                                            // send:3, task not started
    | Draining(id: nat)                              // doSend with an empty buffer, calling Get
    | Submitting(id: nat, buf: seq<byte>)            // doSend after filling the buffer
    | Writing(id: nat, buf: seq<byte>)               // the transport has the buffer
    | Completed(id: nat)                             // onSendComplete without error
    | EmptySeen(id: nat)                             // onSendComplete:1, about to store 0
    | Released(id: nat, mark: nat)                   // onSendComplete:2, about to look again
    | MoreSeen(id: nat, mark: nat)                   // saw more, about to CAS
    | TimedOut(id: nat, buf: seq<byte>, n: int, rest: seq<byte>) // error callback, then retry with buf
    | Failed(rest: seq<byte>)                        // about to Close
    | Dead(rest: seq<byte>)                          // returned without giving up the lock

  /** Everything the activities share. */
  datatype Shared = Shared(
    sendLock: bool,
    queue: seq<Item>,
    fullSize: int,
    queueClosed: bool,
    closeOnce: bool,
    fclosed: bool,
    hasCallback: bool,       // an error callback is installed
    nextBuffer: nat,         // how many tasks have been started
    context: nat,            // the buffer in sendContext.b
    freed: set<nat>,         // buffers given back to the pool
    owner: int,              // the activity that took sendLock and has not released it, or -1
    viaSend: bool,           // the lock was last taken by Send, not by a completer looking again
    accepted: seq<Item>,     // history
    wire: seq<byte>,         // history: everything written
    spoiled: bool)           // history: bytes were dropped or replaced

  datatype State = State(g: Shared, acts: seq<Act>)

  datatype Op =
    | Send(item: Item)
    | SendCas
    | StartTask
    | Get(junk: seq<byte>)
    | Intrude(junk: seq<byte>)
    | Submit(accepted: bool)
    | CompleteOk(out: seq<byte>)
    | CompleteTimeout(n: nat, out: seq<byte>, junk: seq<byte>)
    | CompleteError(n: nat, out: seq<byte>)
    | Retry
    | FailClose
    | CheckEmpty
    | Release
    | Recheck
    | RecheckCas

  datatype Step = Run(i: nat, op: Op) | CloseBegin | MarkClosed | CloseQueue

  ghost predicate Init(s: State) {
    && !s.g.sendLock && s.g.queue == [] && !s.g.queueClosed && !s.g.closeOnce && !s.g.fclosed
    && (forall i :: 0 <= i < |s.acts| ==> s.acts[i] == Idle)
    && s.g.owner == -1 && s.g.accepted == [] && s.g.wire == [] && !s.g.spoiled
    && s.g.nextBuffer == 0 && s.g.freed == {}
  }

  ghost predicate Can(g: Shared, a: Act, op: Op) {
    match op
    case Send(_) => a.Idle?
    case SendCas => a.Enqueued?
    case StartTask => a.Won?
    case Get(_) => a.Draining? && (g.queue != [] || g.queueClosed)
    case Intrude(junk) => a.Draining? && a.id in g.freed && junk != []
    case Submit(_) => a.Submitting?
    case CompleteOk(_) => a.Writing?
    case CompleteTimeout(n, _, _) => a.Writing? && n <= |a.buf|
    case CompleteError(n, _) => a.Writing? && n <= |a.buf|
    case Retry => a.TimedOut?
    case FailClose => a.Failed?
    case CheckEmpty => a.Completed?
    case Release => a.EmptySeen?
    case Recheck => a.Released?
    case RecheckCas => a.MoreSeen?
  }

  /** doSend(b) for a buffer in hand: send what it holds, or fetch the next batch. */
  ghost function DoSend(id: nat, buf: seq<byte>): Act {
    if buf == [] then Draining(id) else Submitting(id, buf)
  }

  /** onSendComplete with an error other than a timeout. */
  ghost function OnError(g: Shared, rest: seq<byte>): Act {
    if g.fclosed then Dead(rest) else Failed(rest)
  }

  /** What a buffer really holds where its user means it to hold `right`. */
  ghost function Held(g: Shared, id: nat, right: seq<byte>, junk: seq<byte>): seq<byte> {
    if id in g.freed then junk else right
  }

  /** Bytes that go out where `right` should. */
  ghost function Write(g: Shared, right: seq<byte>, out: seq<byte>): Shared {
    g.(wire := g.wire + out, spoiled := g.spoiled || out != right)
  }

  /** One atomic operation of activity i at program point a. */
  ghost function Move(g: Shared, a: Act, op: Op, i: nat): (r: (Shared, Act))
    requires Can(g, a, op)
  {
    match op
    case Send(item) =>
      if g.queueClosed || |g.queue| >= g.fullSize then (g, Idle)
      else (g.(queue := g.queue + [item], accepted := g.accepted + [item]), Enqueued)
    case SendCas => if g.sendLock then (g, Idle) else (g.(sendLock := true, owner := i, viaSend := true), Won)
    case StartTask =>
      (g.(nextBuffer := g.nextBuffer + 1, context := g.nextBuffer), Draining(g.nextBuffer))
    case Get(junk) =>
      var buf := Held(g, a.id, Encodings(g.queue), junk);
      (g.(queue := [], spoiled := g.spoiled || buf != Encodings(g.queue)), Submitting(a.id, buf))
    case Intrude(junk) => (g.(spoiled := true), Submitting(a.id, junk))  // the buffer was not empty after all
    case Submit(ok) =>
      (g, if a.buf == [] then Completed(a.id) else if ok then Writing(a.id, a.buf) else OnError(g, a.buf))
    case CompleteOk(out) => (Write(g, a.buf, Held(g, a.id, a.buf, out)), Completed(g.context))
    case CompleteTimeout(n, out, junk) =>
      (Write(g, a.buf[..n], Held(g, a.id, a.buf[..n], out)),
       if g.fclosed || !g.hasCallback then OnError(g, a.buf[n..])
       else TimedOut(g.context, if a.id == g.context then Held(g, a.id, a.buf, junk) else junk, n, a.buf[n..]))
    case CompleteError(n, out) => (Write(g, a.buf[..n], Held(g, a.id, a.buf[..n], out)), OnError(g, a.buf[n..]))
    case Retry =>
      if g.fclosed then (g, Dead(a.rest))
      else (g.(spoiled := g.spoiled || Dropped(a.buf, a.n) != a.rest), DoSend(a.id, Dropped(a.buf, a.n)))
    case FailClose => (g.(closeOnce := true), Dead(a.rest))
    case CheckEmpty => (g, if g.queue == [] then EmptySeen(a.id) else Draining(a.id))
    case Release => (g.(sendLock := false, owner := -1), Released(a.id, g.nextBuffer))
    case Recheck => if g.queue == [] then (g.(freed := g.freed + {a.id}), Idle) else (g, MoreSeen(a.id, a.mark))
    case RecheckCas =>
      if g.sendLock then (g.(freed := g.freed + {a.id}), Idle)
      else (g.(sendLock := true, owner := i, viaSend := false), Draining(a.id))
  }

  ghost predicate Enabled(s: State, step: Step) {
    match step
    case Run(i, op) => i < |s.acts| && Can(s.g, s.acts[i], op)
    case MarkClosed => s.g.closeOnce
    case _ => true
  }

  ghost function Do(s: State, step: Step): State
    requires Enabled(s, step)
  {
    match step
    case Run(i, op) =>
      var (g, a) := Move(s.g, s.acts[i], op, i);
      State(g, s.acts[i := a])
    case CloseBegin => s.(g := s.g.(closeOnce := true))
    case MarkClosed => s.(g := s.g.(fclosed := true))
    case CloseQueue => s.(g := s.g.(queueClosed := true))
  }

  ghost predicate Leads(s: State, step: Step, s': State) { Enabled(s, step) && s' == Do(s, step) }

  ghost predicate Next(s: State, s': State) { exists step :: Leads(s, step, s') }

  // ---------------------------------------------------------------- invariant

  ghost predicate Holds(a: Act) {
    !(a.Idle? || WillLook(a))
  }

  /** An activity that will look at the queue, or try for the lock, after what it did. */
  ghost predicate WillLook(a: Act) { a.Enqueued? || a.Released? || a.MoreSeen? }

  /** Bytes an activity still has to put on the wire. */
  ghost function Pending(a: Act): seq<byte> {
    if a.Submitting? || a.Writing? then a.buf
    else if a.TimedOut? || a.Failed? || a.Dead? then a.rest
    else []
  }

  ghost predicate Exclusive(s: State) {
    && -1 <= s.g.owner < |s.acts|
    && (s.g.sendLock <==> s.g.owner >= 0)
    && (forall i :: 0 <= i < |s.acts| ==> (Holds(s.acts[i]) <==> i == s.g.owner))
    && (s.g.fclosed ==> s.g.closeOnce)
    && (s.g.owner >= 0 && s.acts[s.g.owner].Dead? ==> s.g.closeOnce)
  }

  ghost predicate NotStranded(s: State) {
    s.g.queue != [] && !s.g.closeOnce ==>
      s.g.owner >= 0 || exists i :: 0 <= i < |s.acts| && WillLook(s.acts[i])
  }

  ghost function InHand(s: State): seq<byte>
    requires s.g.owner < |s.acts|
  {
    if s.g.owner >= 0 then Pending(s.acts[s.g.owner]) else []
  }

  /** Written, in hand and still queued: together the encodings of what was accepted, in order. */
  ghost predicate Balanced(g: Shared, inHand: seq<byte>) {
    g.wire + inHand + Encodings(g.queue) == Encodings(g.accepted)
  }

  ghost predicate Conserved(s: State)
    requires s.g.owner < |s.acts|
  {
    Balanced(s.g, InHand(s))
  }

  ghost predicate HasId(a: Act) {
    a.Draining? || a.Submitting? || a.Writing? || a.Completed?
    || a.EmptySeen? || a.Released? || a.MoreSeen? || a.TimedOut?
  }

  ghost predicate Uses(a: Act, id: nat) { HasId(a) && a.id == id }

  /** The buffer in hand is the one in sendContext.b and has not been freed, and a buffer about to be
      retried holds exactly what was not sent. */
  ghost predicate OwnBuffer(g: Shared, a: Act) {
    && (HasId(a) ==> a.id == g.context && a.id !in g.freed)
    && (a.TimedOut? ==> Dropped(a.buf, a.n) == a.rest)
  }

  /** Buffers are numbered in the order of the tasks that took them. */
  ghost predicate Numbered(s: State) {
    && (forall i :: 0 <= i < |s.acts| && HasId(s.acts[i]) ==> s.acts[i].id < s.g.nextBuffer)
    && (forall id :: id in s.g.freed ==> id < s.g.nextBuffer)
    && (s.g.nextBuffer > 0 ==> s.g.context == s.g.nextBuffer - 1)
  }

  /** In a hold taken by Send the buffer is its own and nobody else's. */
  ghost predicate Private(s: State) {
    s.g.owner >= 0 && s.g.viaSend ==>
      && s.g.owner < |s.acts| && OwnBuffer(s.g, s.acts[s.g.owner])
      && forall j :: 0 <= j < |s.acts| && j != s.g.owner && HasId(s.acts[s.g.owner]) ==>
            !Uses(s.acts[j], s.acts[s.g.owner].id)
  }

  ghost predicate Inv(s: State) {
    && Exclusive(s) && NotStranded(s) && Numbered(s) && Private(s)
    && (!s.g.spoiled ==> Conserved(s))
  }

  /** Steps of the owner of the lock that keep the lock. */
  ghost predicate KeepsLock(op: Op) {
    !(op.Send? || op.SendCas? || op.Release? || op.Recheck? || op.RecheckCas?)
  }

  lemma OwnerMoves(g: Shared, a: Act, op: Op, i: nat)
    requires Can(g, a, op) && KeepsLock(op) && (g.fclosed ==> g.closeOnce)
    ensures var (g', a') := Move(g, a, op, i);
            && Holds(a) && Holds(a') && g'.owner == g.owner && g'.sendLock == g.sendLock
            && g'.fclosed == g.fclosed && (g.closeOnce ==> g'.closeOnce) && (a'.Dead? ==> g'.closeOnce)
            && (g'.queue == g.queue || g'.queue == []) && g'.accepted == g.accepted && (g.spoiled ==> g'.spoiled)
            && g'.freed == g.freed && g'.viaSend == g.viaSend
  {
  }

  /** These steps touch neither the wire nor the queue, and keep what is in hand unless a retry drops it. */
  lemma OwnerKeepsBytes(g: Shared, a: Act, op: Op, i: nat)
    requires Can(g, a, op) && (op.StartTask? || op.Submit? || op.Retry? || op.FailClose? || op.CheckEmpty?)
    ensures var (g', a') := Move(g, a, op, i);
            && g'.wire == g.wire && g'.queue == g.queue && g'.accepted == g.accepted
            && (!g'.spoiled ==> Pending(a') == Pending(a))
  {
  }

  lemma BatchBalances(g: Shared)
    requires Balanced(g, [])
    ensures Balanced(g.(queue := []), Encodings(g.queue))
  {
    var e := Encodings(g.queue);
    assert Encodings([]) == [];
    assert g.wire + e + [] == g.wire + [] + e;
  }

  lemma WriteBalances(g: Shared, buf: seq<byte>, n: nat)
    requires Balanced(g, buf) && n <= |buf|
    ensures Balanced(g.(wire := g.wire + buf[..n]), buf[n..])
  {
    assert (g.wire + buf[..n]) + buf[n..] == g.wire + buf;
  }

  lemma TransportBalances(g: Shared, a: Act, op: Op, i: nat)
    requires Can(g, a, op) && (op.Get? || op.CompleteOk? || op.CompleteTimeout? || op.CompleteError?)
    requires Balanced(g, Pending(a)) && !Move(g, a, op, i).0.spoiled
    ensures var (g', a') := Move(g, a, op, i); Balanced(g', Pending(a'))
  {
    var (g', a') := Move(g, a, op, i);
    if op.Get? {
      BatchBalances(g);
      assert Pending(a') == Encodings(g.queue);
    } else {
      var n := if op.CompleteOk? then |a.buf| else op.n;
      assert op.CompleteOk? ==> a.buf[..n] == a.buf && a.buf[n..] == [];
      WriteBalances(g, a.buf, n);
      assert g'.wire == g.wire + a.buf[..n] && Pending(a') == a.buf[n..];
    }
  }

  /** What the owner does to the bytes balances, unless it drops or replaces some. */
  lemma OwnerBalances(g: Shared, a: Act, op: Op, i: nat)
    requires Can(g, a, op) && KeepsLock(op) && Balanced(g, Pending(a)) && !Move(g, a, op, i).0.spoiled
    ensures var (g', a') := Move(g, a, op, i); Balanced(g', Pending(a'))
  {
    if op.Get? || op.CompleteOk? || op.CompleteTimeout? || op.CompleteError? {
      TransportBalances(g, a, op, i);
    } else {
      OwnerKeepsBytes(g, a, op, i);
    }
  }

  /** Taking or giving up the lock, or looking at the queue, moves no bytes. */
  lemma OthersMove(g: Shared, a: Act, op: Op, i: nat)
    requires Can(g, a, op) && !KeepsLock(op) && !op.Send?
    ensures var (g', a') := Move(g, a, op, i);
            && Pending(a) == Pending(a') == [] && g'.closeOnce == g.closeOnce && g'.fclosed == g.fclosed
            && g'.queue == g.queue && g'.accepted == g.accepted && g'.wire == g.wire && g'.spoiled == g.spoiled
            && ((g'.owner == g.owner && g'.sendLock == g.sendLock && !Holds(a) && !Holds(a')) ||
                (g'.owner == i && g'.sendLock && !g.sendLock && !Holds(a) && Holds(a') && !a'.Dead?) ||
                (g'.owner == -1 && !g'.sendLock && Holds(a) && WillLook(a')))
            && (!g.sendLock && g.queue != [] ==> Holds(a') || WillLook(a'))
  {
  }

  lemma StepKeepsExclusive(s: State, step: Step)
    requires Exclusive(s) && Enabled(s, step)
    ensures Exclusive(Do(s, step))
  {
    if step.Run? && !step.op.Send? {
      if KeepsLock(step.op) {
        OwnerMoves(s.g, s.acts[step.i], step.op, step.i);
      } else {
        OthersMove(s.g, s.acts[step.i], step.op, step.i);
      }
    }
  }

  lemma StepKeepsNotStranded(s: State, step: Step)
    requires Exclusive(s) && NotStranded(s) && Enabled(s, step)
    ensures NotStranded(Do(s, step))
  {
    var s' := Do(s, step);
    if step.Run? {
      var i, op := step.i, step.op;
      if KeepsLock(op) {
        OwnerMoves(s.g, s.acts[i], op, i);
      } else if !op.Send? {
        OthersMove(s.g, s.acts[i], op, i);
      }
      if s'.g.queue != [] && !s'.g.closeOnce && s'.g.owner < 0 && !WillLook(s'.acts[i]) {
        var j :| 0 <= j < |s.acts| && WillLook(s.acts[j]);
        assert WillLook(s'.acts[j]);
      }
    }
  }

  lemma OwnerConserves(s: State, i: nat, op: Op)
    requires Exclusive(s) && Conserved(s) && Enabled(s, Run(i, op)) && KeepsLock(op)
    requires !Do(s, Run(i, op)).g.spoiled && Exclusive(Do(s, Run(i, op)))
    ensures Conserved(Do(s, Run(i, op)))
  {
    OwnerMoves(s.g, s.acts[i], op, i);
    OwnerBalances(s.g, s.acts[i], op, i);
  }

  lemma OthersConserve(s: State, i: nat, op: Op)
    requires Exclusive(s) && Conserved(s) && Enabled(s, Run(i, op)) && !KeepsLock(op) && !op.Send?
    requires Exclusive(Do(s, Run(i, op)))
    ensures Conserved(Do(s, Run(i, op)))
  {
    OthersMove(s.g, s.acts[i], op, i);
  }

  lemma StepConserves(s: State, step: Step)
    requires Exclusive(s) && Conserved(s) && Enabled(s, step) && !Do(s, step).g.spoiled
    ensures Exclusive(Do(s, step)) && Conserved(Do(s, step))
  {
    StepKeepsExclusive(s, step);
    if step.Run? {
      var i, op := step.i, step.op;
      if KeepsLock(op) {
        OwnerConserves(s, i, op);
      } else if !op.Send? {
        OthersConserve(s, i, op);
      } else if s.g.queue != Do(s, step).g.queue {
        SendBalances(s.g, InHand(s), op.item);
      }
    }
  }

  lemma SendBalances(g: Shared, inHand: seq<byte>, item: Item)
    requires Balanced(g, inHand)
    ensures Balanced(g.(queue := g.queue + [item], accepted := g.accepted + [item]), inHand)
  {
    var x := if item.ok then item.bytes else [];
    EncodingsAppend(g.queue, item);
    EncodingsAppend(g.accepted, item);
    assert g.wire + inHand + (Encodings(g.queue) + x) == (g.wire + inHand + Encodings(g.queue)) + x;
  }

  lemma EncodingsAppend(items: seq<Item>, item: Item)
    ensures Encodings(items + [item]) == Encodings(items) + (if item.ok then item.bytes else [])
  {
    assert (items + [item])[..|items|] == items;
  }

  /** In a hold taken by Send no step drops or replaces bytes, and the buffer stays its own. */
  lemma OwnerKeepsBuffer(g: Shared, a: Act, op: Op, i: nat)
    requires Can(g, a, op) && KeepsLock(op) && OwnBuffer(g, a) && g.nextBuffer !in g.freed
    ensures var (g', a') := Move(g, a, op, i);
            && OwnBuffer(g', a') && g'.spoiled == g.spoiled
            && (HasId(a') ==> if op.StartTask? then a'.id == g.nextBuffer else HasId(a) && a'.id == a.id)
  {
  }

  /** A step of an activity keeps its buffer, takes the next one, or goes over to the one in sendContext.b;
      and it frees no buffer but its own. */
  lemma MoveUses(g: Shared, a: Act, op: Op, i: nat)
    requires Can(g, a, op) && !op.CompleteOk? && !op.CompleteTimeout?
    ensures var (g', a') := Move(g, a, op, i);
            && (HasId(a') ==> if op.StartTask? then a'.id == g.nextBuffer else HasId(a) && a'.id == a.id)
            && (g'.freed == g.freed || (HasId(a) && a'.Idle? && g'.freed == g.freed + {a.id}))
            && g'.nextBuffer == g.nextBuffer + (if op.StartTask? then 1 else 0)
            && g'.context == if op.StartTask? then g.nextBuffer else g.context
  {
  }

  lemma StepKeepsNumbered(s: State, step: Step)
    requires Exclusive(s) && Numbered(s) && Enabled(s, step)
    ensures Numbered(Do(s, step))
  {
    if step.Run? && !step.op.CompleteOk? && !step.op.CompleteTimeout? {
      MoveUses(s.g, s.acts[step.i], step.op, step.i);
    }
  }

  lemma StepKeepsPrivate(s: State, step: Step)
    requires Exclusive(s) && Numbered(s) && Private(s) && Enabled(s, step)
    ensures Private(Do(s, step))
  {
    if step.Run? {
      var i, op := step.i, step.op;
      if KeepsLock(op) {
        OwnerMoves(s.g, s.acts[i], op, i);
        if s.g.viaSend {
          OwnerKeepsBuffer(s.g, s.acts[i], op, i);
        }
      } else {
        MoveUses(s.g, s.acts[i], op, i);
      }
    }
  }

  /** Only the owner drops or replaces bytes, and not in a hold taken by Send. */
  lemma SpoilsOnlyOthers(s: State, step: Step)
    requires Inv(s) && Enabled(s, step)
    ensures s.g.spoiled ==> Do(s, step).g.spoiled
    ensures !s.g.spoiled && Do(s, step).g.spoiled ==>
              step.Run? && KeepsLock(step.op) && step.i == s.g.owner && !s.g.viaSend
  {
    if step.Run? {
      var i, op := step.i, step.op;
      if KeepsLock(op) {
        OwnerMoves(s.g, s.acts[i], op, i);
        if s.g.viaSend {
          OwnerKeepsBuffer(s.g, s.acts[i], op, i);
        }
      } else if !op.Send? {
        OthersMove(s.g, s.acts[i], op, i);
      }
    }
  }

  lemma StepKeepsInv(s: State, step: Step)
    requires Inv(s) && Enabled(s, step)
    ensures Inv(Do(s, step))
  {
    StepKeepsExclusive(s, step);
    StepKeepsNotStranded(s, step);
    StepKeepsNumbered(s, step);
    StepKeepsPrivate(s, step);
    SpoilsOnlyOthers(s, step);
    if !Do(s, step).g.spoiled {
      StepConserves(s, step);
    }
  }

  // ------------------------------------------------------------ main theorems

  lemma NextKeepsInv(s: State, s': State)
    requires Inv(s) && Next(s, s')
    ensures Inv(s')
  {
    var step :| Leads(s, step, s');
    StepKeepsInv(s, step);
  }

  lemma RunKeepsInv(run: seq<State>, k: nat)
    requires Runs.IsRun(Init, Next, run) && k < |run|
    ensures Inv(run[k])
  {
    forall s, s' | Inv(s) && Next(s, s') ensures Inv(s') { NextKeepsInv(s, s'); }
    Runs.Invariance(Init, Next, Inv, run, k);
  }

  /** No stranded send: at most one activity holds sendLock, and while nobody has called Close a
      non-empty queue has a live holder, a sender about to try for the lock, or a completer about
      to look again. */
  lemma NoStrandedSend(run: seq<State>, k: nat)
    requires Runs.IsRun(Init, Next, run) && k < |run|
    ensures var s := run[k];
            && (forall i, j :: 0 <= i < |s.acts| && 0 <= j < |s.acts| && Holds(s.acts[i]) && Holds(s.acts[j]) ==>
                   i == j)
            && (s.g.sendLock <==> exists i :: 0 <= i < |s.acts| && Holds(s.acts[i]))
            && (s.g.queue != [] && !s.g.closeOnce ==>
                  exists i :: 0 <= i < |s.acts| && ((Holds(s.acts[i]) && !s.acts[i].Dead?) || WillLook(s.acts[i])))
  {
    RunKeepsInv(run, k);
    var s := run[k];
    if s.g.owner >= 0 {
      assert Holds(s.acts[s.g.owner]);
    }
  }

  /** Nothing can move: every activity is idle, dead, or blocked in Get on an open empty queue. */
  ghost predicate Settled(s: State) {
    forall i :: 0 <= i < |s.acts| ==>
      s.acts[i].Idle? || s.acts[i].Dead? || (s.acts[i].Draining? && s.g.queue == [] && !s.g.queueClosed)
  }

  /** When an open socket settles its queue is empty, and what was accepted has been written unless
      bytes were spoiled. */
  lemma SettledIsSent(run: seq<State>, k: nat)
    requires Runs.IsRun(Init, Next, run) && k < |run|
    requires Settled(run[k]) && !run[k].g.closeOnce
    ensures run[k].g.queue == []
    ensures !run[k].g.spoiled ==> run[k].g.wire == Encodings(run[k].g.accepted)
  {
    RunKeepsInv(run, k);
    SettledSent(run[k]);
  }

  lemma SettledSent(s: State)
    requires Inv(s) && Settled(s) && !s.g.closeOnce
    ensures s.g.queue == [] && (!s.g.spoiled ==> s.g.wire == Encodings(s.g.accepted))
  {
    assert s.g.queue == [];
    assert Encodings([]) == [] && s.g.wire + [] + [] == s.g.wire;
  }

  /** Over every interleaving, the bytes written, in hand and still to be encoded are those of the
      accepted items, in order, until a step of a holder spoils some; and no hold taken by Send does,
      only one that a completer took when it looked again. */
  lemma SpoiledOnlyByCompleters(run: seq<State>, k: nat, step: Step)
    requires Runs.IsRun(Init, Next, run) && k < |run| && !run[k].g.spoiled && Enabled(run[k], step)
    ensures run[k].g.owner < |run[k].acts| && Conserved(run[k])
    ensures Do(run[k], step).g.spoiled ==> step.Run? && step.i == run[k].g.owner && !run[k].g.viaSend
    ensures !Do(run[k], step).g.spoiled ==> Do(run[k], step).g.owner < |run[k].acts| && Conserved(Do(run[k], step))
  {
    RunKeepsInv(run, k);
    SpoilsOnlyOthers(run[k], step);
    StepKeepsInv(run[k], step);
  }

  // ------------------------------------------------------------ by the calls that were made

  /** A Send that finds the queue open and below its limit. */
  ghost predicate Accepts(s: State, step: Step) {
    step.Run? && step.op.Send? && !s.g.queueClosed && |s.g.queue| < s.g.fullSize
  }

  /** The items of the calls of Send that succeeded, in order. */
  ghost function Sent(run: seq<State>, steps: seq<Step>): seq<Item>
    requires |run| == |steps| + 1
  {
    if steps == [] then []
    else
      var n := |steps| - 1;
      Sent(run[..n + 1], steps[..n]) + (if Accepts(run[n], steps[n]) then [steps[n].op.item] else [])
  }

  /** Nothing accepted, the limit and what is closed left alone, but for a Close after a failure. */
  ghost predicate SameSettings(g: Shared, g': Shared, failed: bool) {
    && g'.accepted == g.accepted && g'.fullSize == g.fullSize && g'.queueClosed == g.queueClosed
    && g'.fclosed == g.fclosed && (g'.closeOnce <==> g.closeOnce || failed)
  }

  lemma TransportAcceptsNothing(g: Shared, a: Act, op: Op, i: nat)
    requires Can(g, a, op) && (op.Get? || op.CompleteOk? || op.CompleteTimeout? || op.CompleteError?)
    ensures SameSettings(g, Move(g, a, op, i).0, false)
  {
  }

  lemma OthersAcceptNothing(g: Shared, a: Act, op: Op, i: nat)
    requires Can(g, a, op) && !op.Send?
    ensures SameSettings(g, Move(g, a, op, i).0, op.FailClose?)
  {
    if op.Get? || op.CompleteOk? || op.CompleteTimeout? || op.CompleteError? {
      TransportAcceptsNothing(g, a, op, i);
    } else {
      assert SameSettings(g, Move(g, a, op, i).0, op.FailClose?);
    }
  }

  /** A call of Close, by the user or after a failure. */
  ghost predicate Closes(step: Step) { step.CloseBegin? || (step.Run? && step.op.FailClose?) }

  ghost predicate ClosesQueue(step: Step) { step.CloseQueue? }
  ghost predicate MarksClosed(step: Step) { step.MarkClosed? }

  lemma StepAccepts(s: State, step: Step)
    requires Enabled(s, step)
    ensures var g, g' := s.g, Do(s, step).g;
            && g'.accepted == g.accepted + (if Accepts(s, step) then [step.op.item] else [])
            && g'.fullSize == g.fullSize && (g'.queueClosed <==> g.queueClosed || step.CloseQueue?)
            && (g'.fclosed <==> g.fclosed || step.MarkClosed?) && (g'.closeOnce <==> g.closeOnce || Closes(step))
  {
    if step.Run? && !step.op.Send? {
      OthersAcceptNothing(s.g, s.acts[step.i], step.op, step.i);
    }
    assert s.g.accepted + [] == s.g.accepted;
  }

  /** Over every run given with its steps: a Send is accepted exactly when the queue is open and below its
      limit, which never changes; what was accepted is the items of those calls, in order. */
  lemma {:induction false} AcceptsExactly(run: seq<State>, steps: seq<Step>)
    requires Runs.IsHistory(Init, Leads, run, steps)
    ensures run[|steps|].g.accepted == Sent(run, steps) && run[|steps|].g.fullSize == run[0].g.fullSize
  {
    if steps != [] {
      var n := |steps| - 1;
      Runs.HistoryUpTo(Init, Leads, Next, run, steps, n);
      AcceptsExactly(run[..n + 1], steps[..n]);
      assert Leads(run[n], steps[n], run[n + 1]);
      StepAccepts(run[n], steps[n]);
    }
  }

  ghost predicate Called(steps: seq<Step>, f: Step -> bool) { exists k :: 0 <= k < |steps| && f(steps[k]) }

  lemma CalledNext(steps: seq<Step>, f: Step -> bool)
    requires steps != []
    ensures Called(steps, f) <==> Called(steps[..|steps| - 1], f) || f(steps[|steps| - 1])
  {
    var n := |steps| - 1;
    if k :| 0 <= k < n && f(steps[..n][k]) {
      assert f(steps[k]);
    }
    if k :| 0 <= k < |steps| && f(steps[k]) {
      assert k < n ==> f(steps[..n][k]);
    }
  }

  /** And the queue and the socket are closed exactly once that has been asked for. */
  lemma {:induction false} ClosedExactly(run: seq<State>, steps: seq<Step>)
    requires Runs.IsHistory(Init, Leads, run, steps)
    ensures var g := run[|steps|].g;
            && (g.queueClosed <==> Called(steps, ClosesQueue))
            && (g.fclosed <==> Called(steps, MarksClosed))
            && (g.closeOnce <==> Called(steps, Closes))
  {
    if steps != [] {
      var n := |steps| - 1;
      Runs.HistoryUpTo(Init, Leads, Next, run, steps, n);
      ClosedExactly(run[..n + 1], steps[..n]);
      assert Leads(run[n], steps[n], run[n + 1]);
      StepAccepts(run[n], steps[n]);
      CalledNext(steps, ClosesQueue);
      CalledNext(steps, MarksClosed);
      CalledNext(steps, Closes);
    }
  }

  /** The lock is free after a step exactly if it was and the step is no compare-and-swap, or the holder gave
      it up, which it is about to do exactly when it has seen the queue empty; and it looks again, and tries
      again exactly when it sees more. */
  lemma LockMovesExactly(g: Shared, a: Act, op: Op, i: nat)
    requires Can(g, a, op)
    ensures var (g', a') := Move(g, a, op, i);
            && (g'.sendLock <==> op.SendCas? || op.RecheckCas? || (g.sendLock && !op.Release?))
            && (op.CheckEmpty? ==> (a'.EmptySeen? <==> g.queue == []) && (a'.Draining? <==> g.queue != []))
            && (op.Release? ==> a'.Released?) && (op.Recheck? ==> (a'.MoreSeen? <==> g.queue != []))
  {
  }

  /** A buffer goes back to the pool exactly when the activity that has it comes to rest; the buffers of those
      who give up are not followed. */
  lemma FreesExactly(g: Shared, a: Act, op: Op, i: nat)
    requires Can(g, a, op)
    ensures var (g', a') := Move(g, a, op, i);
            g'.freed == if HasId(a) && a'.Idle? then g.freed + {a.id} else g.freed
  {
  }

  /** A holder gives up exactly on a submission that is refused, an error, a timeout where no callback is
      installed or the socket is closed, and a retry on a closed socket. */
  lemma GivesUpExactly(g: Shared, a: Act, op: Op, i: nat)
    requires Can(g, a, op) && !a.Failed? && !a.Dead?
    ensures var a' := Move(g, a, op, i).1;
            a'.Failed? || a'.Dead? <==>
              || (op.Submit? && !op.accepted && a.buf != []) || op.CompleteError?
              || (op.CompleteTimeout? && (g.fclosed || !g.hasCallback)) || (op.Retry? && g.fclosed)
  {
  }

  /** A timed-out write is retried with exactly the bytes not yet sent, whatever freed buffers hold,
      if and only if sendContext.b is the buffer that was being sent and it has not been freed. */
  lemma RetryIsRightExactly(g: Shared, a: Act, i: nat, n: nat, out: seq<byte>)
    requires a.Writing? && n <= |a.buf| && g.hasCallback && !g.fclosed
    ensures a.id == g.context && a.id !in g.freed <==>
            forall junk :: var (_, t) := Move(g, a, CompleteTimeout(n, out, junk), i);
                           t == TimedOut(g.context, t.buf, n, a.buf[n..]) && Dropped(t.buf, n) == a.buf[n..]
  {
    if !(a.id == g.context && a.id !in g.freed) {
      var junk: seq<byte> := seq(|a.buf| + 1, _ => 0);
      var (_, t) := Move(g, a, CompleteTimeout(n, out, junk), i);
      assert |Dropped(t.buf, n)| == |a.buf| + 1 - n;
    }
  }

  /** A batch is encoded as it should be, whatever freed buffers hold, if and only if the buffer it is
      encoded into has not been freed. */
  lemma FillIsRightExactly(g: Shared, a: Act, i: nat)
    requires a.Draining? && (g.queue != [] || g.queueClosed)
    ensures a.id !in g.freed <==>
            forall junk :: Move(g, a, Get(junk), i).1 == Submitting(a.id, Encodings(g.queue))
  {
    if a.id in g.freed {
      var junk: seq<byte> := Encodings(g.queue) + [0];
      assert Move(g, a, Get(junk), i).1.buf == junk;
    }
  }

  // ------------------------------------------------------------ careful runs

  /** A completer takes the lock again only if no task was started since it gave the lock up. */
  ghost predicate CarefulStep(s: State, step: Step) {
    step.Run? && step.op.RecheckCas? && step.i < |s.acts| && s.acts[step.i].MoreSeen? && !s.g.sendLock ==>
      s.acts[step.i].mark == s.g.nextBuffer
  }

  ghost predicate CarefulNext(s: State, s': State) {
    exists step :: Enabled(s, step) && CarefulStep(s, step) && s' == Do(s, step)
  }

  /** Every buffer in use is used by one activity and has not been freed. */
  ghost predicate Unshared(acts: seq<Act>, freed: set<nat>) {
    && (forall i :: 0 <= i < |acts| && HasId(acts[i]) ==> acts[i].id !in freed)
    && (forall i, j :: 0 <= i < j < |acts| && HasId(acts[i]) && HasId(acts[j]) ==> acts[i].id != acts[j].id)
  }

  /** Who gave the lock up with the buffer in sendContext.b still has that buffer there exactly if no task
      was started since. */
  ghost predicate Marked(s: State) {
    forall i :: 0 <= i < |s.acts| && (s.acts[i].Released? || s.acts[i].MoreSeen?) ==>
      s.acts[i].mark <= s.g.nextBuffer && (s.acts[i].mark == s.g.nextBuffer <==> s.acts[i].id == s.g.context)
  }

  /** While nobody holds the lock the buffer in sendContext.b is freed or about to be. */
  ghost predicate Returning(s: State) {
    s.g.owner < 0 && s.g.nextBuffer > 0 ==>
      s.g.context in s.g.freed || exists j :: 0 <= j < |s.acts| && Uses(s.acts[j], s.g.context)
  }

  ghost predicate CarefulInv(s: State) {
    && Inv(s) && !s.g.spoiled
    && Unshared(s.acts, s.g.freed) && Marked(s) && Returning(s)
    && (s.g.owner >= 0 ==> OwnBuffer(s.g, s.acts[s.g.owner]))
  }

  lemma OwnerKeepsNumbers(g: Shared, a: Act, op: Op, i: nat)
    requires Can(g, a, op) && KeepsLock(op)
    ensures var (g', a') := Move(g, a, op, i);
            && g'.nextBuffer == g.nextBuffer + (if op.StartTask? then 1 else 0)
            && g'.context == if op.StartTask? then g.nextBuffer else g.context
  {
    if !op.CompleteOk? && !op.CompleteTimeout? {
      MoveUses(g, a, op, i);
    }
  }

  lemma OwnerIsCareful(s: State, step: Step)
    requires CarefulInv(s) && Enabled(s, step) && step.Run? && KeepsLock(step.op)
    ensures CarefulInv(Do(s, step))
  {
    var i, op := step.i, step.op;
    StepKeepsInv(s, step);
    OwnerMoves(s.g, s.acts[i], op, i);
    OwnerKeepsBuffer(s.g, s.acts[i], op, i);
    OwnerKeepsNumbers(s.g, s.acts[i], op, i);
  }

  /** Giving the lock up, and ending: the buffer in sendContext.b is accounted for. */
  lemma OtherIsReturning(s: State, step: Step)
    requires CarefulInv(s) && Enabled(s, step) && step.Run? && !KeepsLock(step.op)
    ensures Returning(Do(s, step))
  {
    var i, op, s' := step.i, step.op, Do(s, step);
    MoveUses(s.g, s.acts[i], op, i);
    if s'.g.owner < 0 && s'.g.nextBuffer > 0 && s'.g.context !in s'.g.freed {
      if op.Release? {
        assert Uses(s'.acts[i], s'.g.context);
      } else {
        var j :| 0 <= j < |s.acts| && Uses(s.acts[j], s.g.context);
        assert Uses(s'.acts[j], s'.g.context);
      }
    }
  }

  lemma OtherIsMarked(s: State, step: Step)
    requires CarefulInv(s) && Enabled(s, step) && step.Run? && !KeepsLock(step.op)
    ensures Marked(Do(s, step)) && Unshared(Do(s, step).acts, Do(s, step).g.freed)
  {
    MoveUses(s.g, s.acts[step.i], step.op, step.i);
  }

  lemma OtherIsCareful(s: State, step: Step)
    requires CarefulInv(s) && Enabled(s, step) && CarefulStep(s, step) && step.Run? && !KeepsLock(step.op)
    ensures CarefulInv(Do(s, step))
  {
    StepKeepsInv(s, step);
    SpoilsOnlyOthers(s, step);
    OtherIsReturning(s, step);
    OtherIsMarked(s, step);
    MoveUses(s.g, s.acts[step.i], step.op, step.i);
  }

  lemma StepIsCareful(s: State, step: Step)
    requires CarefulInv(s) && Enabled(s, step) && CarefulStep(s, step)
    ensures CarefulInv(Do(s, step))
  {
    if step.Run? && KeepsLock(step.op) {
      OwnerIsCareful(s, step);
    } else if step.Run? {
      OtherIsCareful(s, step);
    } else {
      StepKeepsInv(s, step);
      SpoilsOnlyOthers(s, step);
    }
  }

  lemma CarefulNextKeepsInv(s: State, s': State)
    requires CarefulInv(s) && CarefulNext(s, s')
    ensures CarefulInv(s')
  {
    var step :| Enabled(s, step) && CarefulStep(s, step) && s' == Do(s, step);
    StepIsCareful(s, step);
  }

  lemma CarefulRunKeepsInv(run: seq<State>, k: nat)
    requires Runs.IsRun(Init, CarefulNext, run) && k < |run|
    ensures CarefulInv(run[k])
  {
    forall s, s' | CarefulInv(s) && CarefulNext(s, s') ensures CarefulInv(s') { CarefulNextKeepsInv(s, s'); }
    Runs.Invariance(Init, CarefulNext, CarefulInv, run, k);
  }

  /** Byte conservation, with or without an error callback, through partial sends, retries and failed
      encodes: as long as no completer takes the lock again after another task was started, the bytes
      written, in hand and still to be encoded are those of the accepted items, in order; and no
      buffer is shared, or used after it was freed.  So when an open socket settles all is written. */
  lemma BytesConserved(run: seq<State>, k: nat)
    requires Runs.IsRun(Init, CarefulNext, run) && k < |run|
    ensures var s := run[k];
            && s.g.owner < |s.acts| && Conserved(s)
            && (forall i :: 0 <= i < |s.acts| && HasId(s.acts[i]) ==> s.acts[i].id !in s.g.freed)
            && (forall i, j :: 0 <= i < j < |s.acts| && HasId(s.acts[i]) && HasId(s.acts[j]) ==>
                   s.acts[i].id != s.acts[j].id)
            && (Settled(s) && !s.g.closeOnce ==> s.g.wire == Encodings(s.g.accepted))
  {
    CarefulRunKeepsInv(run, k);
    if Settled(run[k]) && !run[k].g.closeOnce {
      SettledSent(run[k]);
    }
  }

  /** A completer about to take the lock again will go on with a buffer of its own if and only if no task
      was started since it gave the lock up; otherwise its next completion hands it a buffer that has
      been freed or is another activity's. */
  lemma OwnBufferExactly(run: seq<State>, k: nat, i: nat)
    requires Runs.IsRun(Init, CarefulNext, run) && k < |run| && i < |run[k].acts|
    requires run[k].acts[i].MoreSeen? && !run[k].g.sendLock
    ensures var s := run[k];
            s.acts[i].mark == s.g.nextBuffer <==>
            s.g.context !in s.g.freed && forall j :: 0 <= j < |s.acts| && Uses(s.acts[j], s.g.context) ==> j == i
  {
    CarefulRunKeepsInv(run, k);
    var s := run[k];
    assert s.acts[i].mark == s.g.nextBuffer ==> Uses(s.acts[i], s.g.context);
  }

  // ------------------------------------------- runs that spoil bytes
  //
  // Activity 0 sends [1], releases the lock and sees item [2]; before its CAS, activity 1 sends
  // [2] in a hold of its own, which leaves its buffer in sendContext.b, and frees it.  Activity 0 then
  // takes the lock again with its own buffer and item [3, 4] in the queue.

  lemma Extend(run: seq<State>, i: nat, op: Op) returns (run': seq<State>)
    requires Runs.IsRun(Init, Next, run) && Enabled(run[|run| - 1], Run(i, op))
    ensures Runs.IsRun(Init, Next, run') && |run'| > 0
    ensures run'[|run'| - 1] == Do(run[|run| - 1], Run(i, op))
  {
    var s := Do(run[|run| - 1], Run(i, op));
    assert Leads(run[|run| - 1], Run(i, op), s);
    Runs.Extended(Init, Next, run, s);
    run' := run + [s];
  }

  const A: Item := Item(true, [1])
  const B: Item := Item(true, [2])
  const C: Item := Item(true, [3, 4])
  const D: Item := Item(true, [5])

  ghost function At(callback: bool, lock: bool, queue: seq<Item>, buffers: nat, freed: set<nat>, owner: int,
                    accepted: seq<Item>, wire: seq<byte>, viaSend: bool, a0: Act, a1: Act): State
  {
    State(Shared(lock, queue, 128, false, false, false, callback, buffers,
                 if buffers == 0 then 0 else buffers - 1, freed, owner, viaSend, accepted, wire, false),
          [a0, a1])
  }

  lemma Start(cb: bool) returns (run: seq<State>)
    ensures Runs.IsRun(Init, Next, run)
    ensures run[|run| - 1] == At(cb, true, [A], 1, {}, 0, [A], [], true, Draining(0), Idle)
  {
    run := [At(cb, false, [], 0, {}, -1, [], [], false, Idle, Idle)];
    assert Init(run[0]);
    run := Extend(run, 0, Send(A));
    run := Extend(run, 0, SendCas);
    run := Extend(run, 0, StartTask);
  }

  lemma FirstHold(cb: bool) returns (run: seq<State>)
    ensures Runs.IsRun(Init, Next, run)
    ensures run[|run| - 1] == At(cb, false, [B], 1, {}, -1, [A, B], [1], true, MoreSeen(0, 1), Enqueued)
  {
    run := Start(cb);
    run := Extend(run, 0, Get([]));
    assert Encodings([A]) == [1];
    run := Extend(run, 0, Submit(true));
    run := Extend(run, 0, CompleteOk([]));
    assert run[|run| - 1] == At(cb, true, [], 1, {}, 0, [A], [1], true, Completed(0), Idle);
    run := Extend(run, 0, CheckEmpty);
    run := Extend(run, 0, Release);
    run := Extend(run, 1, Send(B));
    run := Extend(run, 0, Recheck);
  }

  lemma SecondStart(cb: bool) returns (run: seq<State>)
    ensures Runs.IsRun(Init, Next, run)
    ensures run[|run| - 1] == At(cb, true, [B], 2, {}, 1, [A, B], [1], true, MoreSeen(0, 1), Draining(1))
  {
    run := FirstHold(cb);
    run := Extend(run, 1, SendCas);
    run := Extend(run, 1, StartTask);
  }

  lemma SecondHold(cb: bool) returns (run: seq<State>)
    ensures Runs.IsRun(Init, Next, run)
    ensures run[|run| - 1] == At(cb, false, [], 2, {1}, -1, [A, B], [1, 2], true, MoreSeen(0, 1), Idle)
  {
    run := SecondStart(cb);
    run := Extend(run, 1, Get([]));
    assert Encodings([B]) == [2];
    run := Extend(run, 1, Submit(true));
    run := Extend(run, 1, CompleteOk([]));
    assert run[|run| - 1] == At(cb, true, [], 2, {}, 1, [A, B], [1, 2], true, MoreSeen(0, 1), Completed(1));
    run := Extend(run, 1, CheckEmpty);
    run := Extend(run, 1, Release);
    run := Extend(run, 1, Recheck);
  }

  lemma ThirdHold(cb: bool) returns (run: seq<State>)
    ensures Runs.IsRun(Init, Next, run)
    ensures run[|run| - 1] == At(cb, true, [], 2, {1}, 0, [A, B, C], [1, 2], false, Writing(0, [3, 4]), Idle)
  {
    run := SecondHold(cb);
    run := Extend(run, 0, RecheckCas);
    run := Extend(run, 1, Send(C));
    run := Extend(run, 1, SendCas);
    assert run[|run| - 1] == At(cb, true, [C], 2, {1}, 0, [A, B, C], [1, 2], false, Draining(0), Idle);
    run := Extend(run, 0, Get([]));
    assert Encodings([C]) == [3, 4];
    run := Extend(run, 0, Submit(true));
  }

  /** With an error callback: the write times out after one byte, the retry works on the buffer in
      sendContext.b, and the second byte of the last item is neither on the wire, nor in hand, nor queued. */
  lemma StaleRetryLoses() returns (run: seq<State>)
    ensures Runs.IsRun(Init, Next, run)
    ensures var s := run[|run| - 1];
            && !s.g.closeOnce && Settled(s) && s.g.queue == []
            && s.g.wire == [1, 2, 3] && Encodings(s.g.accepted) == [1, 2, 3, 4]
  {
    run := ThirdHold(true);
    run := Extend(run, 0, CompleteTimeout(1, [], []));
    assert run[|run| - 1] == At(true, true, [], 2, {1}, 0, [A, B, C], [1, 2, 3], false, TimedOut(1, [], 1, [4]), Idle);
    run := Extend(run, 0, Retry);
    AllEncodings();
  }

  lemma LastBatch() returns (run: seq<State>)
    ensures Runs.IsRun(Init, Next, run)
    ensures run[|run| - 1] ==
            At(false, true, [D], 2, {1}, 0, [A, B, C, D], [1, 2, 3, 4], false, Draining(1), Idle)
  {
    run := ThirdHold(false);
    run := Extend(run, 1, Send(D));
    run := Extend(run, 1, SendCas);
    run := Extend(run, 0, CompleteOk([]));
    assert run[|run| - 1] == At(false, true, [D], 2, {1}, 0, [A, B, C, D], [1, 2, 3, 4], false, Completed(1), Idle);
    run := Extend(run, 0, CheckEmpty);
  }

  /** Without an error callback, a timeout or an error: the completion hands activity 0 the freed buffer,
      the next item is encoded into it, and something else goes out. */
  lemma FreedBufferGarbles() returns (run: seq<State>)
    ensures Runs.IsRun(Init, Next, run)
    ensures var s := run[|run| - 1];
            && !s.g.closeOnce && !s.g.hasCallback && Settled(s) && s.g.queue == []
            && s.g.wire == [1, 2, 3, 4, 9] && Encodings(s.g.accepted) == [1, 2, 3, 4, 5]
  {
    run := LastBatch();
    run := Extend(run, 0, Get([9]));
    run := Extend(run, 0, Submit(true));
    run := Extend(run, 0, CompleteOk([9]));
    assert run[|run| - 1].acts == [Completed(1), Idle] && run[|run| - 1].g.wire == [1, 2, 3, 4, 9];
    run := Extend(run, 0, CheckEmpty);
    run := Extend(run, 0, Release);
    run := Extend(run, 0, Recheck);
    AllEncodings();
  }

  lemma AllEncodings()
    ensures Encodings([A, B, C]) == [1, 2, 3, 4] && Encodings([A, B, C, D]) == [1, 2, 3, 4, 5]
  {
    assert Encodings([A]) == [1];
    EncodingsAppend([A], B);
    assert [A] + [B] == [A, B];
    var two: seq<byte> := [1] + [2];
    assert Encodings([A, B]) == two;
    EncodingsAppend([A, B], C);
    assert [A, B] + [C] == [A, B, C];
    var four: seq<byte> := two + [3, 4];
    assert Encodings([A, B, C]) == four;
    EncodingsAppend([A, B, C], D);
    assert [A, B, C] + [D] == [A, B, C, D];
    assert Encodings([A, B, C, D]) == four + [5];
  }
}
