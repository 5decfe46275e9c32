/** event/eventHandler.go:61-111, 147-151: slots are told apart by a version that is never reused. */
module EventRegistry {
  import Runs
  import Sequences

  type Event = int

  /** A handle remembers its event and, once registered, the version of its slot. */
  datatype Handle = Handle(event: Event, version: int)

  datatype State = State(
    version: int,
    slots: map<Event, int>,          // the current slot of an event, named by its version
    members: map<int, seq<nat>>,     // the handles registered in each slot ever made
    handles: seq<Handle>)            // every handle ever made

  datatype Step = Register(event: Event) | Remove(h: nat) | Clear(event: Event)

  ghost predicate Init(s: State) {
    s == State(0, map[], map[], [])
  }

  ghost predicate Enabled(s: State, step: Step) {
    step.Remove? ==> step.h < |s.handles|
  }

  ghost function MembersOf(s: State, v: int): seq<nat> {
    if v in s.members then s.members[v] else []
  }

  ghost function Do(s: State, step: Step): State
    requires Enabled(s, step)
  {
    match step
    case Register(e) =>
      var s' := if e in s.slots then s else s.(version := s.version + 1, slots := s.slots[e := s.version + 1]);
      var v := s'.slots[e];
      s'.(members := s.members[v := MembersOf(s, v) + [|s.handles|]], handles := s.handles + [Handle(e, v)])
    case Remove(h) =>
      var x := s.handles[h];
      if x.event in s.slots && x.version == s.slots[x.event] then
        s.(members := s.members[x.version := Sequences.Without(MembersOf(s, x.version), h)],
           handles := s.handles[h := x.(version := 0)])
      else s
    case Clear(e) => s.(slots := s.slots - {e})
  }

  ghost predicate Leads(s: State, step: Step, s': State) { Enabled(s, step) && s' == Do(s, step) }

  ghost predicate Next(s: State, s': State) { exists step :: Leads(s, step, s') }

  /** Versions in use are positive, not beyond the counter, and name one event each. */
  ghost predicate Inv(s: State) {
    && s.version >= 0
    && (forall e :: e in s.slots ==> 0 < s.slots[e] <= s.version)
    && (forall e, f :: e in s.slots && f in s.slots && s.slots[e] == s.slots[f] ==> e == f)
    && (forall h :: 0 <= h < |s.handles| ==> 0 <= s.handles[h].version <= s.version)
  }

  lemma NextKeepsInv(s: State, s': State)
    requires Inv(s) && Next(s, s')
    ensures Inv(s')
  {
    var step :| Leads(s, step, s');
  }

  lemma RunKeepsInv(run: seq<State>, k: nat)
    requires Runs.IsRun(Init, Next, run) && k < |run|
    ensures Inv(run[k])
  {
    forall s, s' | Inv(s) && Next(s, s') ensures Inv(s') { NextKeepsInv(s, s'); }
    Runs.Invariance(Init, Next, Inv, run, k);
  }

  /** The handle's slot is not the current slot of its event. */
  ghost predicate Stale(s: State, h: nat) {
    h < |s.handles| && !(s.handles[h].event in s.slots && s.slots[s.handles[h].event] == s.handles[h].version)
  }

  lemma StaleStays(s: State, s': State, h: nat)
    requires Inv(s) && Next(s, s') && Stale(s, h)
    ensures Stale(s', h) && s'.handles[h] == s.handles[h]
  {
    var step :| Leads(s, step, s');
  }

  /** A handle whose slot was cleared, or that was removed, never alters a later slot: from then on
      removing it changes nothing, in every state of the run. */
  lemma {:induction false} ClearedHandleIsInert(run: seq<State>, i: nat, k: nat, h: nat)
    requires Runs.IsRun(Init, Next, run) && i <= k < |run| && Stale(run[i], h)
    ensures Stale(run[k], h) && Do(run[k], Remove(h)) == run[k]
  {
    if i < k {
      ClearedHandleIsInert(run, i, k - 1, h);
      RunKeepsInv(run, k - 1);
      StaleStays(run[k - 1], run[k], h);
    }
  }

  /** Clearing an event makes all its handles stale; removing a handle makes it stale; and no
      removal touches the members of any slot but the handle's own. */
  lemma BecomesStale(s: State, step: Step, h: nat, v: int)
    requires Inv(s) && Enabled(s, step) && h < |s.handles|
    ensures step == Clear(s.handles[h].event) ==> Stale(Do(s, step), h)
    ensures step == Remove(h) ==> Stale(Do(s, step), h)
    ensures step.Remove? && v != s.handles[step.h].version ==> MembersOf(Do(s, step), v) == MembersOf(s, v)
  {
  }

  // ------------------------------------------------------------ the handlers of an event, without versions

  /** How many handles have been made. */
  ghost function Made(steps: seq<Step>): nat {
    if steps == [] then 0
    else Made(steps[..|steps| - 1]) + (if steps[|steps| - 1].Register? then 1 else 0)
  }

  /** The handles registered for an event since it was last cleared, less those removed, in order. */
  ghost function Live(steps: seq<Step>, e: Event): seq<nat> {
    if steps == [] then []
    else
      var before := steps[..|steps| - 1];
      match steps[|steps| - 1]
      case Register(f) => if f == e then Live(before, e) + [Made(before)] else Live(before, e)
      case Remove(h) => Sequences.Without(Live(before, e), h)
      case Clear(f) => if f == e then [] else Live(before, e)
  }

  /** The handlers an emit of the event finds. */
  ghost function Found(s: State, e: Event): seq<nat> {
    if e in s.slots then MembersOf(s, s.slots[e]) else []
  }

  /** Members of a current slot carry its version, each once. */
  ghost predicate CurrentAt(s: State, e: Event) {
    && Sequences.Distinct(Found(s, e))
    && forall h :: h in Found(s, e) ==> h < |s.handles| && s.handles[h] == Handle(e, s.slots[e])
  }

  /** And versions not yet given out have no members. */
  ghost predicate Current(s: State) {
    (forall v :: v in s.members ==> v <= s.version) && forall e :: CurrentAt(s, e)
  }

  lemma RegisterFinds(s: State, e: Event, f: Event)
    requires Inv(s) && Current(s)
    ensures var s' := Do(s, Register(e)); Found(s', f) == Found(s, f) + (if f == e then [|s.handles|] else [])
  {
    assert Found(s, f) + [] == Found(s, f);
  }

  lemma RegisterKeepsCurrent(s: State, e: Event)
    requires Inv(s) && Current(s)
    ensures Current(Do(s, Register(e)))
  {
    var s' := Do(s, Register(e));
    forall f ensures CurrentAt(s', f) {
      RegisterFinds(s, e, f);
      assert CurrentAt(s, f);
      var l := Found(s, f);
      assert forall i :: 0 <= i < |l| ==> l[i] in l && l[i] < |s.handles|;
    }
  }

  lemma RemoveFinds(s: State, h: nat, f: Event)
    requires Inv(s) && Current(s) && h < |s.handles|
    ensures Found(Do(s, Remove(h)), f) == Sequences.Without(Found(s, f), h)
  {
    assert CurrentAt(s, f);
    if h !in Found(s, f) {
      Sequences.NotThere(Found(s, f), h);
    }
  }

  lemma RemoveKeepsCurrent(s: State, h: nat)
    requires Inv(s) && Current(s) && h < |s.handles|
    ensures Current(Do(s, Remove(h)))
  {
    var s' := Do(s, Remove(h));
    forall f ensures CurrentAt(s', f) {
      RemoveFinds(s, h, f);
      assert CurrentAt(s, f);
      Sequences.WithoutIs(Found(s, f), h);
      forall x | x in Found(s', f) ensures x < |s'.handles| && s'.handles[x] == Handle(f, s'.slots[f]) {
        assert x in Found(s, f) && x != h;
      }
    }
  }

  lemma StepFinds(s: State, step: Step, f: Event)
    requires Inv(s) && Current(s) && Enabled(s, step)
    ensures Current(Do(s, step))
    ensures Found(Do(s, step), f) ==
            match step
            case Register(e) => if e == f then Found(s, f) + [|s.handles|] else Found(s, f)
            case Remove(h) => Sequences.Without(Found(s, f), h)
            case Clear(e) => if e == f then [] else Found(s, f)
    ensures |Do(s, step).handles| == |s.handles| + (if step.Register? then 1 else 0)
  {
    match step
    case Register(e) =>
      RegisterKeepsCurrent(s, e);
      RegisterFinds(s, e, f);
    case Remove(h) =>
      RemoveKeepsCurrent(s, h);
      RemoveFinds(s, h, f);
    case Clear(e) =>
      var s' := Do(s, step);
      forall x ensures CurrentAt(s', x) && Found(s', x) == if x == e then [] else Found(s, x) {
        assert CurrentAt(s, x);
      }
  }

  /** Over every run given with its steps, versions do their work: an emit of an event finds exactly the
      handles registered for it since it was last cleared and not removed since, in order, whatever handles
      of cleared events are removed meanwhile. */
  lemma {:induction false} FindsLive(run: seq<State>, steps: seq<Step>, e: Event)
    requires Runs.IsHistory(Init, Leads, run, steps)
    ensures Found(run[|steps|], e) == Live(steps, e)
    ensures Current(run[|steps|]) && Inv(run[|steps|]) && |run[|steps|].handles| == Made(steps)
  {
    if steps != [] {
      var n := |steps| - 1;
      Runs.HistoryUpTo(Init, Leads, Next, run, steps, n);
      FindsLive(run[..n + 1], steps[..n], e);
      assert Leads(run[n], steps[n], run[n + 1]);
      NextKeepsInv(run[n], run[n + 1]);
      StepFinds(run[n], steps[n], e);
    }
  }
}
