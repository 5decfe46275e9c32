/** rpc/client.go:71-212: the pending calls, indexed by sequence number and by channel, under any
    interleaving of calls, responses, timeouts, failed sends and disconnects.  A disconnect takes the
    channel's entry away under the lock and then walks its chain, reading the links without the lock
    and taking the lock anew to settle each call; meanwhile calls of the chain may be removed by number. */
module RpcClient {
  import opened Sequences
  import Runs

  type Seq = nat
  type Channel = nat

  datatype Status =
    | NotCalled   // a post, or a call whose request could not be encoded
    | Pending
    | Answered    // the handler was invoked
    | Retracted   // the send failed before anything else happened

  /** Where a pending call is chained: under its channel, or in a chain a disconnect works off. */
  datatype Home = InChannel | InDrain(d: nat)

  datatype Context = Context(channel: Channel, home: Home)

  /** A link read from a call: another call, the sentinel, or the nil of a call that is no longer linked. */
  datatype Link = Node(x: Seq) | End | Nil

  /** Where the loop of a disconnect is. */
  datatype At =
    | Entering                        // the entry is taken away, its first link not yet read
    | Cursor(x: Seq)                  // c is x, c.nnext not yet read
    | Settling(x: Seq, next: Link)    // next is read, x not yet looked up
    | Dangling                        // c is nil
    | Finished

  datatype State = State(
    status: seq<Status>,                  // of every sequence number issued
    calls: map<Seq, Context>,             // callContexts
    channels: map<Channel, seq<Seq>>,     // channels, each chain newest first
    drains: seq<seq<Seq>>,                // the calls still pending in the chains disconnects took
    cursors: seq<At>,                     // and where their loops are
    invoked: seq<Seq>,                    // history: handler invocations
    panicked: bool)                       // a nil pointer was dereferenced

  datatype Step =
    | Post                                // also: a call that fails to encode
    | AddCall(channel: Channel)
    | Settle(x: Seq)                      // a response or a timeout for a sequence number
    | SendFailed(x: Seq)
    | Disconnect(channel: Channel)
    | Enter(d: nat)
    | ReadNext(d: nat)
    | SettleOne(d: nat)

  ghost predicate Init(s: State) {
    s == State([], map[], map[], [], [], [], false)
  }

  /** The bounds on numbers hold in every reachable state; they make Do well defined. */
  ghost predicate Enabled(s: State, step: Step) {
    !s.panicked &&
    match step
    case Enter(d) => d < |s.cursors| == |s.drains| && s.cursors[d].Entering?
    case ReadNext(d) => d < |s.cursors| == |s.drains| && (s.cursors[d].Cursor? || s.cursors[d].Dangling?)
    case SettleOne(d) =>
      d < |s.cursors| == |s.drains| && s.cursors[d].Settling? && Bounded(s, s.cursors[d].x)
    case Settle(x) => Bounded(s, x)
    case SendFailed(x) => Bounded(s, x)
    case _ => true
  }

  ghost predicate Bounded(s: State, x: Seq) {
    x in s.calls ==> x < |s.status| && (s.calls[x].home.InDrain? ==> s.calls[x].home.d < |s.drains|)
  }

  ghost function Chain(s: State, channel: Channel): seq<Seq> {
    if channel in s.channels then s.channels[channel] else []
  }

  ghost function Forget(s: State, x: Seq, outcome: Status): State
    requires x < |s.status|
  {
    s.(calls := s.calls - {x}, status := s.status[x := outcome],
       invoked := if outcome.Answered? then s.invoked + [x] else s.invoked)
  }

  /** removeCallBySeqno, and what its caller does with the call it returns.  Unlinking works on whatever
      chain the call is in; then the channel's entry is asked whether it is empty, and if the channel
      has no entry that is a nil pointer. */
  ghost function RemoveCall(s: State, x: Seq, outcome: Status): State
    requires Bounded(s, x)
  {
    if x !in s.calls then s
    else
      var Context(channel, home) := s.calls[x];
      if channel !in s.channels then s.(panicked := true)
      else
        var s' := Forget(s, x, outcome);
        match home
        case InChannel =>
          var rest := Without(s.channels[channel], x);
          s'.(channels := if rest == [] then s.channels - {channel} else s.channels[channel := rest])
        case InDrain(d) => s'.(drains := s.drains[d := Without(s.drains[d], x)])
  }

  /** c.nnext, for a call at the front of what is left of a chain or no longer linked. */
  ghost function LinkOf(chain: seq<Seq>, x: Seq): Link {
    if x !in chain then Nil else if |chain| > 1 then Node(chain[1]) else End
  }

  /** c = next */
  ghost function Follow(next: Link): At {
    match next
    case Node(x) => Cursor(x)
    case End => Finished
    case Nil => Dangling
  }

  ghost function Do(s: State, step: Step): State
    requires Enabled(s, step)
  {
    match step
    case Post => s.(status := s.status + [NotCalled])
    case AddCall(channel) =>
      var x := |s.status|;
      s.(status := s.status + [Pending], calls := s.calls[x := Context(channel, InChannel)],
         channels := s.channels[channel := [x] + Chain(s, channel)])
    case Settle(x) => RemoveCall(s, x, Answered)
    case SendFailed(x) => RemoveCall(s, x, Retracted)
    case Disconnect(channel) =>
      if channel !in s.channels then s
      else
        var chain := s.channels[channel];
        s.(channels := s.channels - {channel}, drains := s.drains + [chain], cursors := s.cursors + [Entering],
           calls := Moved(s.calls, chain, |s.drains|))
    case Enter(d) =>
      s.(cursors := s.cursors[d := if s.drains[d] == [] then Finished else Cursor(s.drains[d][0])])
    case ReadNext(d) =>
      if s.cursors[d].Dangling? then s.(panicked := true)
      else
        var x := s.cursors[d].x;
        s.(cursors := s.cursors[d := Settling(x, LinkOf(s.drains[d], x))])
    case SettleOne(d) =>
      var Settling(x, next) := s.cursors[d];
      var s' := s.(cursors := s.cursors[d := Follow(next)]);
      if x in s.calls then Forget(s', x, Answered).(drains := s.drains[d := Without(s.drains[d], x)]) else s'
  }

  ghost predicate Leads(s: State, step: Step, s': State) { Enabled(s, step) && s' == Do(s, step) }

  ghost predicate Next(s: State, s': State) { exists step :: Leads(s, step, s') }

  // ---------------------------------------------------------------- invariant

  /** The index by number holds exactly the pending numbers. */
  ghost predicate Numbers(status: seq<Status>, calls: map<Seq, Context>) {
    && (forall x :: x in calls ==> x < |status| && status[x].Pending?)
    && (forall x :: 0 <= x < |status| && status[x].Pending? ==> x in calls)
  }

  /** The channel chains hold exactly the calls at home there; no channel is left empty. */
  ghost predicate Chains(channels: map<Channel, seq<Seq>>, calls: map<Seq, Context>) {
    && (forall c :: c in channels ==> channels[c] != [] && Distinct(channels[c]))
    && (forall c, x :: c in channels && x in channels[c] ==> x in calls && calls[x] == Context(c, InChannel))
    && (forall x :: x in calls && calls[x].home.InChannel? ==>
              calls[x].channel in channels && x in channels[calls[x].channel])
  }

  /** The chains being drained hold the others. */
  ghost predicate Drains(drains: seq<seq<Seq>>, calls: map<Seq, Context>) {
    && (forall d :: 0 <= d < |drains| ==> Distinct(drains[d]))
    && (forall d, x :: 0 <= d < |drains| && x in drains[d] ==> x in calls && calls[x].home == InDrain(d))
    && (forall x :: x in calls && calls[x].home.InDrain? ==> calls[x].home.d < |drains| && x in drains[calls[x].home.d])
  }

  /** The handlers invoked are those of the answered calls, once each. */
  ghost predicate Invocations(invoked: seq<Seq>, status: seq<Status>) {
    && Distinct(invoked)
    && (forall i :: 0 <= i < |invoked| ==> invoked[i] < |status| && status[invoked[i]].Answered?)
    && (forall x :: 0 <= x < |status| && status[x].Answered? ==> x in invoked)
  }

  /** What is left of a chain begins where its loop is: the call it looks at, then the one it will go to. */
  ghost predicate Placed(chain: seq<Seq>, at: At) {
    match at
    case Entering => true
    case Cursor(x) => x in chain ==> chain[0] == x
    case Settling(x, Node(y)) =>
      (x in chain ==> chain[0] == x) && x != y && (y in chain ==> Without(chain, x)[..1] == [y])
    case Settling(x, End) => chain == [] || chain == [x]
    case Settling(x, Nil) => x !in chain
    case Dangling => true
    case Finished => chain == []
  }

  ghost predicate Cursors(drains: seq<seq<Seq>>, cursors: seq<At>) {
    |cursors| == |drains| && forall d :: 0 <= d < |drains| ==> Placed(drains[d], cursors[d])
  }

  ghost predicate PointsAt(cursors: seq<At>, d: nat, x: Seq) { d < |cursors| && Points(cursors[d], x) }

  ghost predicate Points(at: At, x: Seq) {
    (at.Cursor? && at.x == x) || (at.Settling? && (at.x == x || at.next == Node(x)))
  }

  /** A loop only ever looks at calls that its own disconnect took. */
  ghost predicate Pointed(cursors: seq<At>, calls: map<Seq, Context>, issued: nat) {
    forall d: nat, x: Seq :: PointsAt(cursors, d, x) ==>
      x < issued && (x in calls ==> calls[x].home == InDrain(d))
  }

  ghost predicate Inv(s: State) {
    !s.panicked ==>
      && Pointed(s.cursors, s.calls, |s.status|) && Numbers(s.status, s.calls)
      && Chains(s.channels, s.calls) && Drains(s.drains, s.calls)
      && Invocations(s.invoked, s.status) && Cursors(s.drains, s.cursors)
  }

  lemma ForgetKeeps(s: State, x: Seq, outcome: Status)
    requires Numbers(s.status, s.calls) && Invocations(s.invoked, s.status)
    requires x in s.calls && x < |s.status| && (outcome.Answered? || outcome.Retracted?)
    ensures var s' := Forget(s, x, outcome);
            Numbers(s'.status, s'.calls) && Invocations(s'.invoked, s'.status)
  {
    var s' := Forget(s, x, outcome);
    forall y | 0 <= y < |s'.status| && s'.status[y].Answered? ensures y in s'.invoked {
      if y != x {
        assert y in s.invoked;
      }
    }
  }

  lemma ChainForgets(channels: map<Channel, seq<Seq>>, calls: map<Seq, Context>, x: Seq)
    requires Chains(channels, calls) && x in calls && calls[x].home.InChannel?
    ensures var c := calls[x].channel;
            var rest := Without(channels[c], x);
            Chains(if rest == [] then channels - {c} else channels[c := rest], calls - {x})
  {
    WithoutIs(channels[calls[x].channel], x);
  }

  lemma DrainsForget(drains: seq<seq<Seq>>, calls: map<Seq, Context>, x: Seq)
    requires Drains(drains, calls) && x in calls && calls[x].home.InChannel?
    ensures Drains(drains, calls - {x})
  {
  }

  /** Unlinking a call from the chain it is in. */
  lemma DrainsUnlink(drains: seq<seq<Seq>>, calls: map<Seq, Context>, x: Seq)
    requires Drains(drains, calls) && x in calls && calls[x].home.InDrain?
    ensures var d := calls[x].home.d;
            d < |drains| && x in drains[d] && Drains(drains[d := Without(drains[d], x)], calls - {x})
  {
    var d := calls[x].home.d;
    WithoutIs(drains[d], x);
    var drains' := drains[d := Without(drains[d], x)];
    forall e, y | 0 <= e < |drains'| && y in drains'[e] ensures y in calls - {x} && calls[y].home == InDrain(e) {
      assert y in drains[e];
    }
    forall y | y in calls - {x} && calls[y].home.InDrain?
      ensures calls[y].home.d < |drains'| && y in drains'[calls[y].home.d]
    {
      assert y in drains[calls[y].home.d];
    }
  }

  lemma {:induction false} WithoutTwice(s: seq<Seq>, x: Seq, y: Seq)
    ensures Without(Without(s, x), y) == Without(Without(s, y), x)
  {
    if s != [] {
      WithoutTwice(s[1..], x, y);
    }
  }

  /** Losing a call leaves a loop where it was; if it was to go there it will find the call unlinked. */
  lemma PlacedUnlink(chain: seq<Seq>, at: At, z: Seq)
    requires Placed(chain, at) && Distinct(chain)
    ensures Placed(Without(chain, z), at)
  {
    WithoutIs(chain, z);
    match at
    case Settling(x, Node(y)) =>
      var r := Without(chain, x);
      WithoutIs(chain, x);
      WithoutTwice(chain, x, z);
      if y in Without(chain, z) {
        assert r[0] == y && Without(r, z)[0] == y;
      }
    case _ =>
  }

  lemma ChainIgnoresDrained(channels: map<Channel, seq<Seq>>, calls: map<Seq, Context>, x: Seq)
    requires Chains(channels, calls) && x in calls && calls[x].home.InDrain?
    ensures Chains(channels, calls - {x})
  {
  }

  lemma RemoveKeepsInv(s: State, x: Seq, outcome: Status)
    requires Inv(s) && !s.panicked && Bounded(s, x) && (outcome.Answered? || outcome.Retracted?)
    ensures Inv(RemoveCall(s, x, outcome))
  {
    if x in s.calls && s.calls[x].channel in s.channels {
      ForgetKeeps(s, x, outcome);
      if s.calls[x].home.InChannel? {
        ChainForgets(s.channels, s.calls, x);
        DrainsForget(s.drains, s.calls, x);
      } else {
        ChainIgnoresDrained(s.channels, s.calls, x);
        DrainsUnlink(s.drains, s.calls, x);
        PlacedUnlink(s.drains[s.calls[x].home.d], s.cursors[s.calls[x].home.d], x);
      }
    }
  }

  lemma ChainAdds(channels: map<Channel, seq<Seq>>, calls: map<Seq, Context>, c: Channel, x: Seq)
    requires Chains(channels, calls) && x !in calls
    ensures var chain := if c in channels then channels[c] else [];
            Chains(channels[c := [x] + chain], calls[x := Context(c, InChannel)])
  {
    var chain := if c in channels then channels[c] else [];
    assert x !in chain;
    assert Distinct([x] + chain);
  }

  lemma AddKeepsInv(s: State, channel: Channel)
    requires Inv(s) && Enabled(s, AddCall(channel))
    ensures Inv(Do(s, AddCall(channel)))
  {
    ChainAdds(s.channels, s.calls, channel, |s.status|);
    DrainsAdd(s.drains, s.calls, channel, |s.status|);
    NumbersAdd(s.status, s.calls, s.invoked, Context(channel, InChannel));
  }

  lemma DrainsAdd(drains: seq<seq<Seq>>, calls: map<Seq, Context>, c: Channel, x: Seq)
    requires Drains(drains, calls) && x !in calls
    ensures Drains(drains, calls[x := Context(c, InChannel)])
  {
  }

  lemma NumbersAdd(status: seq<Status>, calls: map<Seq, Context>, invoked: seq<Seq>, ctx: Context)
    requires Numbers(status, calls) && Invocations(invoked, status)
    ensures Numbers(status + [Pending], calls[|status| := ctx]) && Invocations(invoked, status + [Pending])
  {
  }

  /** The calls after their channel's entry was taken away. */
  ghost function Moved(calls: map<Seq, Context>, chain: seq<Seq>, d: nat): (r: map<Seq, Context>)
    ensures r.Keys == calls.Keys
    ensures forall x :: x in calls ==> r[x] == if x in chain then calls[x].(home := InDrain(d)) else calls[x]
  {
    map x | x in calls :: if x in chain then calls[x].(home := InDrain(d)) else calls[x]
  }

  lemma ChainCut(channels: map<Channel, seq<Seq>>, calls: map<Seq, Context>, c: Channel, d: nat)
    requires Chains(channels, calls) && c in channels
    ensures Chains(channels - {c}, Moved(calls, channels[c], d))
  {
  }

  lemma DrainsCut(drains: seq<seq<Seq>>, channels: map<Channel, seq<Seq>>, calls: map<Seq, Context>, c: Channel)
    requires Drains(drains, calls) && Chains(channels, calls) && c in channels
    ensures Drains(drains + [channels[c]], Moved(calls, channels[c], |drains|))
  {
    var calls' := Moved(calls, channels[c], |drains|);
    var drains' := drains + [channels[c]];
    forall d, x | 0 <= d < |drains'| && x in drains'[d] ensures x in calls' && calls'[x].home == InDrain(d) {
      if d < |drains| {
        assert x in drains[d];
      }
    }
    forall x | x in calls' && calls'[x].home.InDrain?
      ensures calls'[x].home.d < |drains'| && x in drains'[calls'[x].home.d]
    {
      if x !in channels[c] {
        assert x in drains[calls[x].home.d];
      }
    }
  }

  lemma DisconnectKeepsInv(s: State, channel: Channel)
    requires Inv(s) && Enabled(s, Disconnect(channel))
    ensures Inv(Do(s, Disconnect(channel)))
  {
    if channel in s.channels {
      ChainCut(s.channels, s.calls, channel, |s.drains|);
      DrainsCut(s.drains, s.channels, s.calls, channel);
      forall d: nat, x: Seq | PointsAt(s.cursors + [Entering], d, x) ensures PointsAt(s.cursors, d, x) {}
    }
  }

  /** A loop moves to a point that looks at no other calls than those it looked at or has in its chain. */
  lemma MoveIsPointed(s: State, d: nat, at: At)
    requires Inv(s) && !s.panicked && d < |s.cursors|
    requires forall x :: Points(at, x) ==> Points(s.cursors[d], x) || x in s.drains[d]
    ensures Pointed(s.cursors[d := at], s.calls, |s.status|)
  {
    var cursors := s.cursors[d := at];
    forall e: nat, x: Seq | PointsAt(cursors, e, x)
      ensures x < |s.status| && (x in s.calls ==> s.calls[x].home == InDrain(e))
    {
      if e == d && !Points(s.cursors[d], x) {
        assert Points(at, x) && x in s.drains[d];
        assert x in s.calls;
      } else {
        assert PointsAt(s.cursors, e, x);
      }
    }
  }

  lemma EnterKeepsInv(s: State, d: nat)
    requires Inv(s) && Enabled(s, Enter(d))
    ensures Inv(Do(s, Enter(d)))
  {
    MoveIsPointed(s, d, Do(s, Enter(d)).cursors[d]);
  }

  lemma LinkIsPlaced(chain: seq<Seq>, x: Seq)
    requires Distinct(chain) && Placed(chain, Cursor(x))
    ensures Placed(chain, Settling(x, LinkOf(chain, x)))
  {
    if x in chain {
      assert Without(chain, x) == chain[1..];
    }
  }

  lemma ReadKeepsInv(s: State, d: nat)
    requires Inv(s) && Enabled(s, ReadNext(d))
    ensures Inv(Do(s, ReadNext(d)))
  {
    if s.cursors[d].Cursor? {
      MoveIsPointed(s, d, Do(s, ReadNext(d)).cursors[d]);
      LinkIsPlaced(s.drains[d], s.cursors[d].x);
    }
  }

  lemma FollowIsPlaced(chain: seq<Seq>, x: Seq, next: Link)
    requires Distinct(chain) && Placed(chain, Settling(x, next))
    ensures Placed(Without(chain, x), Follow(next))
  {
    WithoutIs(chain, x);
  }

  lemma SettleKeepsInv(s: State, d: nat)
    requires Inv(s) && Enabled(s, SettleOne(d))
    ensures Inv(Do(s, SettleOne(d)))
  {
    var Settling(x, next) := s.cursors[d];
    assert PointsAt(s.cursors, d, x);
    FollowIsPlaced(s.drains[d], x, next);
    MoveIsPointed(s, d, Follow(next));
    if x in s.calls {
      ForgetKeeps(s, x, Answered);
      ChainIgnoresDrained(s.channels, s.calls, x);
      DrainsUnlink(s.drains, s.calls, x);
    } else {
      NotThere(s.drains[d], x);
    }
  }

  lemma StepKeepsInv(s: State, step: Step)
    requires Inv(s) && Enabled(s, step)
    ensures Inv(Do(s, step))
  {
    match step
    case Post =>
    case AddCall(c) => AddKeepsInv(s, c);
    case Settle(x) => RemoveKeepsInv(s, x, Answered);
    case SendFailed(x) => RemoveKeepsInv(s, x, Retracted);
    case Disconnect(c) => DisconnectKeepsInv(s, c);
    case Enter(d) => EnterKeepsInv(s, d);
    case ReadNext(d) => ReadKeepsInv(s, d);
    case SettleOne(d) => SettleKeepsInv(s, d);
  }

  // ------------------------------------------------------------ main theorems

  lemma NextKeepsInv(s: State, s': State)
    requires Inv(s) && Next(s, s')
    ensures Inv(s')
  {
    var step :| Leads(s, step, s');
    StepKeepsInv(s, step);
  }

  lemma RunKeepsInv(run: seq<State>, k: nat)
    requires Runs.IsRun(Init, Next, run) && k < |run|
    ensures Inv(run[k])
  {
    forall s, s' | Inv(s) && Next(s, s') ensures Inv(s') { NextKeepsInv(s, s'); }
    Runs.Invariance(Init, Next, Inv, run, k);
  }

  /** Call partition: an issued number is pending and indexed, or answered by exactly one handler
      invocation, or retracted, or never was a call; no channel entry is empty; and a pending call is
      chained in exactly one place, under its channel or in a chain a disconnect took. */
  lemma CallPartition(run: seq<State>, k: nat, x: Seq)
    requires Runs.IsRun(Init, Next, run) && k < |run| && !run[k].panicked && x < |run[k].status|
    ensures var s := run[k];
            && (x in s.calls <==> s.status[x].Pending?)
            && (s.status[x].Answered? <==> x in s.invoked) && Distinct(s.invoked)
            && (forall c :: c in s.channels ==> s.channels[c] != [])
            && (forall c :: x in Chain(s, c) <==> x in s.calls && s.calls[x] == Context(c, InChannel))
            && (forall d :: 0 <= d < |s.drains| ==>
                   (x in s.drains[d] <==> x in s.calls && s.calls[x].home == InDrain(d)))
  {
    RunKeepsInv(run, k);
  }

  /** With every disconnect done the two indexes agree exactly. */
  lemma IndexesAgree(run: seq<State>, k: nat, x: Seq, c: Channel)
    requires Runs.IsRun(Init, Next, run) && k < |run| && !run[k].panicked
    requires forall d :: 0 <= d < |run[k].cursors| ==> run[k].cursors[d].Finished?
    ensures var s := run[k]; x in Chain(s, c) <==> x in s.calls && s.calls[x].channel == c
  {
    RunKeepsInv(run, k);
  }

  /** A response, timeout or failed send settles a pending call, wherever it is chained, if and only if
      its channel has an entry; else it panics. */
  lemma SettlesPending(run: seq<State>, k: nat, x: Seq)
    requires Runs.IsRun(Init, Next, run) && k < |run| && !run[k].panicked && x in run[k].calls
    ensures Enabled(run[k], Settle(x)) && Enabled(run[k], SendFailed(x))
    ensures var s' := Do(run[k], Settle(x));
            if run[k].calls[x].channel in run[k].channels
            then !s'.panicked && x !in s'.calls
                 && s'.status == run[k].status[x := Answered] && s'.invoked == run[k].invoked + [x]
            else s'.panicked
    ensures var s' := Do(run[k], SendFailed(x));
            if run[k].calls[x].channel in run[k].channels
            then !s'.panicked && x !in s'.calls
                 && s'.status == run[k].status[x := Retracted] && s'.invoked == run[k].invoked
            else s'.panicked
  {
    RunKeepsInv(run, k);
  }

  /** A step panics if and only if it removes, by number, a call that a disconnect took and whose channel
      has no entry now, or it is the step of a loop that has followed a nil link. */
  lemma PanicsExactly(run: seq<State>, k: nat, step: Step)
    requires Runs.IsRun(Init, Next, run) && k < |run| && Enabled(run[k], step)
    ensures var s := run[k];
            Do(s, step).panicked <==>
            || ((step.Settle? || step.SendFailed?) && step.x in s.calls && s.calls[step.x].home.InDrain? &&
                s.calls[step.x].channel !in s.channels)
            || (step.ReadNext? && s.cursors[step.d].Dangling?)
  {
    RunKeepsInv(run, k);
  }

  /** The call a loop will go to by a link it has already read. */
  ghost predicate Captured(at: At, x: Seq) {
    (at.Cursor? && at.x == x) || (at.Settling? && at.next == Node(x))
  }

  /** The loop is on its way to a nil link. */
  ghost predicate Doomed(chain: seq<Seq>, at: At) {
    match at
    case Cursor(x) => x !in chain
    case Settling(_, Node(y)) => y !in chain
    case Settling(_, Nil) => true
    case Dangling => true
    case _ => false
  }

  ghost predicate DoomedIn(s: State, d: nat)
    requires d < |s.drains| == |s.cursors|
  {
    Doomed(s.drains[d], s.cursors[d])
  }

  lemma RemovalDooms(s: State, x: Seq, outcome: Status, d: nat)
    requires Inv(s) && !s.panicked && Bounded(s, x) && d < |s.drains| && !RemoveCall(s, x, outcome).panicked
    ensures var s' := RemoveCall(s, x, outcome);
            |s'.drains| == |s'.cursors| == |s.drains| &&
            (DoomedIn(s', d) <==> DoomedIn(s, d) || (x in s.calls && Captured(s.cursors[d], x)))
  {
    if x in s.calls {
      if Captured(s.cursors[d], x) {
        assert PointsAt(s.cursors, d, x);
      }
      if s.calls[x].home.InDrain? {
        WithoutIs(s.drains[s.calls[x].home.d], x);
      }
    }
  }

  lemma LoopKeepsDoom(s: State, step: Step, d: nat)
    requires Inv(s) && Enabled(s, step) && (step.Enter? || step.ReadNext? || step.SettleOne?)
    requires d < |s.drains| && !Do(s, step).panicked
    ensures var s' := Do(s, step);
            |s'.drains| == |s'.cursors| == |s.drains| && (DoomedIn(s', d) <==> DoomedIn(s, d))
  {
    if step.SettleOne? {
      WithoutIs(s.drains[step.d], s.cursors[step.d].x);
    }
  }

  /** A loop becomes doomed if and only if the call it will go to by a link already read is removed by
      number; nothing else dooms it, and nothing saves it. */
  lemma DoomedExactly(run: seq<State>, k: nat, step: Step, d: nat)
    requires Runs.IsRun(Init, Next, run) && k < |run| && Enabled(run[k], step) && !Do(run[k], step).panicked
    requires d < |run[k].drains|
    ensures var s, s' := run[k], Do(run[k], step);
            && |s.drains| == |s.cursors| && d < |s'.drains| == |s'.cursors|
            && (DoomedIn(s', d) <==>
                  DoomedIn(s, d) ||
                  ((step.Settle? || step.SendFailed?) && step.x in s.calls && Captured(s.cursors[d], step.x)))
  {
    RunKeepsInv(run, k);
    match step
    case Settle(x) => RemovalDooms(run[k], x, Answered, d);
    case SendFailed(x) => RemovalDooms(run[k], x, Retracted, d);
    case Enter(_) => LoopKeepsDoom(run[k], step, d);
    case ReadNext(_) => LoopKeepsDoom(run[k], step, d);
    case SettleOne(_) => LoopKeepsDoom(run[k], step, d);
    case _ =>
  }

  /** What a loop still has to do. */
  ghost function Work(chain: seq<Seq>, at: At): nat {
    match at
    case Entering => 2 * |chain| + 3
    case Cursor(x) => if x in chain then 2 * |chain| else 3
    case Settling(x, Node(y)) => if y in chain then 2 * |Without(chain, x)| + 1 else 4
    case Settling(_, End) => 1
    case Settling(_, Nil) => 2
    case Dangling => 1
    case Finished => 0
  }

  ghost function OwnStep(at: At, d: nat): Step {
    if at.Entering? then Enter(d) else if at.Settling? then SettleOne(d) else ReadNext(d)
  }

  /** A loop goes on until it is finished or panics: its own step is always possible, has less to do
      afterwards, and panics only if the loop is doomed. */
  lemma LoopGoesOn(run: seq<State>, k: nat, d: nat)
    requires Runs.IsRun(Init, Next, run) && k < |run| && !run[k].panicked
    requires d < |run[k].cursors| && !run[k].cursors[d].Finished?
    ensures Enabled(run[k], OwnStep(run[k].cursors[d], d))
    ensures var s, s' := run[k], Do(run[k], OwnStep(run[k].cursors[d], d));
            && (s'.panicked ==> Doomed(s.drains[d], s.cursors[d]))
            && (!s'.panicked ==> |s'.drains| == |s'.cursors| == |s.drains| &&
                                 Work(s'.drains[d], s'.cursors[d]) < Work(s.drains[d], s.cursors[d]))
  {
    RunKeepsInv(run, k);
    var s := run[k];
    if s.cursors[d].Settling? {
      var x := s.cursors[d].x;
      assert PointsAt(s.cursors, d, x);
      WithoutIs(s.drains[d], x);
      if x !in s.drains[d] {
        NotThere(s.drains[d], x);
      }
    } else if s.cursors[d].Cursor? && s.cursors[d].x in s.drains[d] {
      assert Without(s.drains[d], s.cursors[d].x) == s.drains[d][1..];
    }
  }

  ghost predicate Settled(s: State, x: Seq) {
    x < |s.status| && (s.status[x].Answered? || s.status[x].Retracted?)
  }

  /** A call taken by disconnect d: still to be settled there, or settled. */
  ghost predicate Taken(s: State, x: Seq, d: nat) {
    s.panicked || Settled(s, x) || (x in s.calls && s.calls[x].home == InDrain(d))
  }

  lemma RemovalKeepsTaken(s: State, y: Seq, outcome: Status, x: Seq, d: nat)
    requires Inv(s) && !s.panicked && Bounded(s, y) && Taken(s, x, d) && (outcome.Answered? || outcome.Retracted?)
    ensures Taken(RemoveCall(s, y, outcome), x, d)
  {
    assert x in s.calls ==> x < |s.status|;
  }

  lemma LoopKeepsTaken(s: State, e: nat, x: Seq, d: nat)
    requires Inv(s) && Enabled(s, SettleOne(e)) && Taken(s, x, d)
    ensures Taken(Do(s, SettleOne(e)), x, d)
  {
    assert x in s.calls ==> x < |s.status|;
  }

  lemma DisconnectKeepsTaken(s: State, c: Channel, x: Seq, d: nat)
    requires Inv(s) && Enabled(s, Disconnect(c)) && Taken(s, x, d)
    ensures Taken(Do(s, Disconnect(c)), x, d)
  {
  }

  lemma TakenStays(s: State, s': State, x: Seq, d: nat)
    requires Inv(s) && Taken(s, x, d) && Next(s, s')
    ensures Taken(s', x, d)
  {
    var step :| Leads(s, step, s');
    match step
    case Settle(y) => RemovalKeepsTaken(s, y, Answered, x, d);
    case SendFailed(y) => RemovalKeepsTaken(s, y, Retracted, x, d);
    case Disconnect(c) => DisconnectKeepsTaken(s, c, x, d);
    case SettleOne(e) => LoopKeepsTaken(s, e, x, d);
    case AddCall(c) => assert x in s.calls ==> x < |s.status|;
    case _ =>
  }

  /** A disconnect leaves none of its calls behind: once its loop has finished, each call it took has been
      settled, by the loop or by number meanwhile, and each answered one had its handler invoked once. */
  lemma DisconnectSettlesAll(run: seq<State>, i: nat, k: nat, x: Seq)
    requires Runs.IsRun(Init, Next, run) && i <= k < |run| && x in run[i].calls && run[i].calls[x].home.InDrain?
    requires !run[k].panicked
    ensures var d := run[i].calls[x].home.d;
            d < |run[k].cursors| && run[k].cursors[d].Finished? ==>
              Settled(run[k], x) && Distinct(run[k].invoked) && (run[k].status[x].Answered? <==> x in run[k].invoked)
  {
    var d := run[i].calls[x].home.d;
    forall s, s' | Inv(s) && Next(s, s') ensures Inv(s') { NextKeepsInv(s, s'); }
    forall s, s' | Inv(s) && Taken(s, x, d) && Next(s, s') ensures Taken(s', x, d) { TakenStays(s, s', x, d); }
    Runs.Stays(Init, Next, Inv, s => Taken(s, x, d), run, i, k);
    RunKeepsInv(run, k);
  }

  // ------------------------------------------------------------ runs

  lemma Extend(run: seq<State>, step: Step) returns (run': seq<State>)
    requires Runs.IsRun(Init, Next, run) && Enabled(run[|run| - 1], step)
    ensures Runs.IsRun(Init, Next, run') && |run'| > 0 && run'[|run'| - 1] == Do(run[|run| - 1], step)
  {
    var s := Do(run[|run| - 1], step);
    assert Leads(run[|run| - 1], step, s);
    Runs.Extended(Init, Next, run, s);
    run' := run + [s];
  }

  /** A disconnect of channel 5 with two calls; the loop has not begun. */
  lemma TwoCallsTaken() returns (run: seq<State>)
    ensures Runs.IsRun(Init, Next, run)
    ensures run[|run| - 1] == State([Pending, Pending], map[0 := Context(5, InDrain(0)), 1 := Context(5, InDrain(0))],
                                    map[], [[1, 0]], [Entering], [], false)
  {
    run := [State([], map[], map[], [], [], [], false)];
    run := Extend(run, AddCall(5));
    var none: seq<Seq> := [];
    assert [0] + none == [0] && [1] + [0] == [1, 0];
    assert run[|run| - 1].channels == map[5 := [0]] && run[|run| - 1].calls == map[0 := Context(5, InChannel)];
    run := Extend(run, AddCall(5));
    ghost var s := run[|run| - 1];
    assert s.channels == map[5 := [1, 0]] && s.status == [Pending, Pending];
    assert s.calls == map[0 := Context(5, InChannel), 1 := Context(5, InChannel)];
    run := Extend(run, Disconnect(5));
    s := run[|run| - 1];
    assert s.channels == map[] && s.drains == [[1, 0]] && s.cursors == [Entering];
    assert s.calls == map[0 := Context(5, InDrain(0)), 1 := Context(5, InDrain(0))];
  }

  /** The panic does happen: a response between the two halves of a disconnect finds no entry. */
  lemma ResponseDuringDisconnect() returns (run: seq<State>)
    ensures Runs.IsRun(Init, Next, run) && run[|run| - 1].panicked
  {
    run := TwoCallsTaken();
    run := Extend(run, Settle(0));
  }

  /** The same, with a new call on the channel in between. */
  lemma NewEntry() returns (run: seq<State>)
    ensures Runs.IsRun(Init, Next, run)
    ensures run[|run| - 1] ==
            State([Pending, Pending, Pending],
                  map[0 := Context(5, InDrain(0)), 1 := Context(5, InDrain(0)), 2 := Context(5, InChannel)],
                  map[5 := [2]], [[1, 0]], [Entering], [], false)
  {
    run := TwoCallsTaken();
    run := Extend(run, AddCall(5));
    ghost var s := run[|run| - 1];
    var none: seq<Seq> := [];
    assert [2] + none == [2];
    assert s.channels == map[5 := [2]] && s.status == [Pending, Pending, Pending];
    assert s.calls == map[0 := Context(5, InDrain(0)), 1 := Context(5, InDrain(0)), 2 := Context(5, InChannel)];
  }

  /** Then a response for a call the loop has not come near is harmless: both calls are answered once. */
  lemma HarmlessResponse() returns (run: seq<State>)
    ensures Runs.IsRun(Init, Next, run)
    ensures var s := run[|run| - 1];
            !s.panicked && s.cursors == [Finished] && s.invoked == [0, 1] && s.status == [Answered, Answered, Pending]
  {
    run := NewEntry();
    run := Extend(run, Settle(0));
    run := Extend(run, Enter(0));
    run := Extend(run, ReadNext(0));
    run := Extend(run, SettleOne(0));
  }

  /** But a response for the call whose link the loop has read leads it to a nil pointer. */
  lemma ResponseForCapturedCall() returns (run: seq<State>)
    ensures Runs.IsRun(Init, Next, run) && run[|run| - 1].panicked
  {
    run := NewEntry();
    run := Extend(run, Enter(0));
    run := Extend(run, ReadNext(0));
    assert run[|run| - 1].cursors == [Settling(1, Node(0))];
    run := Extend(run, Settle(0));
    run := Extend(run, SettleOne(0));
    run := Extend(run, ReadNext(0));
    run := Extend(run, SettleOne(0));
    run := Extend(run, ReadNext(0));
  }
}
