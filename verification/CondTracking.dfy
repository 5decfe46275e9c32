/** socket/sendqueue.go:41-157: the threads of CondQueue as each of the two condition variables sees them. */
module CondTracking {
  import opened Sequences
  import opened CondSpots
  import opened CondQueue

  ghost function SpotOf(p: Pc, c: Cond): Spot {
    if !(p.Asleep? && p.c == c) || p.at.Stranded? then Elsewhere else if p.at.Listed? then OnList else InHand(p.at.u)
  }

  ghost function Spots(pc: seq<Pc>, c: Cond): (r: seq<Spot>)
    ensures |r| == |pc| && forall t :: 0 <= t < |pc| ==> r[t] == SpotOf(pc[t], c)
  {
    seq(|pc|, t requires 0 <= t < |pc| => SpotOf(pc[t], c))
  }

  /** The sleepers whose channels a thread is about to close. */
  ghost function HandOf(p: Pc, c: Cond): seq<nat> { if p.Notifying? && p.c == c then p.rest else [] }

  ghost function Hands(pc: seq<Pc>, c: Cond): (r: seq<seq<nat>>)
    ensures |r| == |pc| && forall t :: 0 <= t < |pc| ==> r[t] == HandOf(pc[t], c)
  {
    seq(|pc|, t requires 0 <= t < |pc| => HandOf(pc[t], c))
  }

  ghost predicate Inside(p: Pc, c: Cond) { (p.Asleep? || p.Woken?) && p.c == c }

  ghost function Insiders(pc: seq<Pc>, c: Cond): nat {
    if pc == [] then 0 else Insiders(pc[..|pc| - 1], c) + (if Inside(pc[|pc| - 1], c) then 1 else 0)
  }

  lemma {:induction false} InsidersSet(pc: seq<Pc>, t: nat, p: Pc, c: Cond)
    requires t < |pc|
    ensures Insiders(pc[t := p], c) ==
              Insiders(pc, c) + (if Inside(p, c) then 1 else 0) - (if Inside(pc[t], c) then 1 else 0)
  {
    var n := |pc| - 1;
    if t < n {
      assert pc[t := p][..n] == pc[..n][t := p];
      InsidersSet(pc[..n], t, p, c);
    } else {
      assert pc[t := p][..n] == pc[..n];
    }
  }

  lemma {:induction false} InsidersSame(pc: seq<Pc>, pc': seq<Pc>, c: Cond)
    requires |pc| == |pc'| && forall t :: 0 <= t < |pc| ==> Inside(pc[t], c) == Inside(pc'[t], c)
    ensures Insiders(pc, c) == Insiders(pc', c)
  {
    if pc != [] {
      InsidersSame(pc[..|pc| - 1], pc'[..|pc| - 1], c);
    }
  }

  lemma {:induction false} SomebodyInside(pc: seq<Pc>, t: nat, c: Cond)
    requires t < |pc| && Inside(pc[t], c)
    ensures Insiders(pc, c) > 0
  {
    if t < |pc| - 1 {
      SomebodyInside(pc[..|pc| - 1], t, c);
    }
  }

  /** Everybody who waits on c is where its wait list, the hands and its counter say. */
  ghost predicate Tracked(pc: seq<Pc>, c: Cond, w: Waiters) {
    ListOk(Spots(pc, c), w.list) && HandsOk(Spots(pc, c), Hands(pc, c)) && w.waited == Insiders(pc, c)
  }

  /** One thread changes its program point: what each view makes of it. */
  lemma Set(pc: seq<Pc>, t: nat, p: Pc, c: Cond)
    requires t < |pc|
    ensures Spots(pc[t := p], c) == Spots(pc, c)[t := SpotOf(p, c)]
    ensures Hands(pc[t := p], c) == Hands(pc, c)[t := HandOf(p, c)]
    ensures Insiders(pc[t := p], c) ==
              Insiders(pc, c) + (if Inside(p, c) then 1 else 0) - (if Inside(pc[t], c) then 1 else 0)
  {
    InsidersSet(pc, t, p, c);
  }

  /** A move that does not concern the sleepers of c. */
  lemma PlainMove(pc: seq<Pc>, t: nat, p: Pc, c: Cond, w: Waiters)
    requires t < |pc| && Tracked(pc, c, w)
    requires SpotOf(p, c) == SpotOf(pc[t], c) && HandOf(p, c) == HandOf(pc[t], c)
    ensures Tracked(pc[t := p], c, w.(waited := w.waited + (if Inside(p, c) then 1 else 0)
                                        - (if Inside(pc[t], c) then 1 else 0)))
  {
    Set(pc, t, p, c);
    assert Spots(pc[t := p], c) == Spots(pc, c) && Hands(pc[t := p], c) == Hands(pc, c);
  }

  lemma SleepTracked(pc: seq<Pc>, t: nat, c: Cond, timed: bool, w: Waiters)
    requires t < |pc| && Tracked(pc, c, w) && SpotOf(pc[t], c) == Elsewhere
               && HandOf(pc[t], c) == [] && !Inside(pc[t], c)
    ensures Tracked(pc[t := Asleep(c, timed, Listed)], c, Waiters(w.list + [t], w.waited + 1))
  {
    Set(pc, t, Asleep(c, timed, Listed), c);
    Join(Spots(pc, c), Hands(pc, c), w.list, t);
    assert Hands(pc[t := Asleep(c, timed, Listed)], c) == Hands(pc, c);
  }

  lemma TakeViews(pc: seq<Pc>, t: nat, c: Cond, ids: seq<nat>, q: Pc)
    requires t < |pc| && (pc[t].Signalling? || pc[t].Broadcasting?) && q.Notifying? && q.c == c && q.rest == ids
    requires forall x :: x in ids ==> x < |pc| && SpotOf(pc[x], c) == OnList
    ensures var pc' := Claim(pc, ids, With(t))[t := q];
            && (forall x :: 0 <= x < |pc| ==> Spots(pc', c)[x] == if x in ids then InHand(t) else Spots(pc, c)[x])
            && Hands(pc', c) == Hands(pc, c)[t := ids]
            && Insiders(pc', c) == Insiders(pc, c)
  {
    InsidersSame(pc, Claim(pc, ids, With(t))[t := q], c);
  }

  lemma TakeTracked(pc: seq<Pc>, t: nat, c: Cond, n: nat, closing: bool, w: Waiters)
    requires t < |pc| && Tracked(pc, c, w) && n <= |w.list| && (pc[t].Signalling? || pc[t].Broadcasting?)
    ensures Tracked(Claim(pc, w.list[..n], With(t))[t := Notifying(c, w.list[..n], closing, false)], c,
                    w.(list := w.list[n..]))
  {
    var q := Notifying(c, w.list[..n], closing, false);
    forall x | x in w.list[..n] ensures x < |pc| && SpotOf(pc[x], c) == OnList {
      assert x in w.list;
      assert Spots(pc, c)[x] == OnList;
    }
    TakeViews(pc, t, c, w.list[..n], q);
    TakeFirst(Spots(pc, c), Hands(pc, c), w.list, t, n, Spots(Claim(pc, w.list[..n], With(t))[t := q], c));
  }

  /** Sleepers of one condition variable change their place: the other one does not see it. */
  lemma ClaimElsewhere(pc: seq<Pc>, t: nat, c: Cond, ids: seq<nat>, at: Place, q: Pc, d: Cond, w: Waiters)
    requires t < |pc| && Tracked(pc, d, w) && c != d
    requires !pc[t].Asleep? && !pc[t].Woken? && HandOf(pc[t], d) == [] && q.Notifying? && q.c == c
    requires forall x :: 0 <= x < |pc| && x in ids ==> pc[x].Asleep? && pc[x].c == c
    ensures Tracked(Claim(pc, ids, at)[t := q], d, w)
  {
    var pc' := Claim(pc, ids, at)[t := q];
    InsidersSame(pc, pc', d);
    assert Spots(pc', d) == Spots(pc, d) && Hands(pc', d) == Hands(pc, d);
  }

  /** Thread u lets go of sleeper x, who wakes up or gives up. */
  lemma LetGo(pc: seq<Pc>, u: nat, x: nat, q: Pc, p: Pc, c: Cond, w: Waiters)
    requires u < |pc| && x < |pc| && Tracked(pc, c, w) && SpotOf(pc[x], c) == InHand(u) && u != x
    requires pc[u].Notifying? && pc[u].c == c && q.Notifying? && q.c == c && q.rest == Without(pc[u].rest, x)
    requires p.Woken? && p.c == c
    ensures Tracked(pc[x := p][u := q], c, w)
  {
    LetGoViews(pc, u, x, q, p, c);
    LeaveHand(Spots(pc, c), Hands(pc, c), w.list, x);
  }

  lemma LetGoViews(pc: seq<Pc>, u: nat, x: nat, q: Pc, p: Pc, c: Cond)
    requires u < |pc| && x < |pc| && SpotOf(pc[x], c) == InHand(u) && u != x
    requires pc[u].Notifying? && pc[u].c == c && q.Notifying? && q.c == c && p.Woken? && p.c == c
    ensures Spots(pc[x := p][u := q], c) == Spots(pc, c)[x := Elsewhere]
    ensures Hands(pc[x := p][u := q], c) == Hands(pc, c)[u := q.rest]
    ensures Insiders(pc[x := p][u := q], c) == Insiders(pc, c)
  {
    Set(pc, x, p, c);
    Set(pc[x := p], u, q, c);
  }

  /** Thread t loses sight of all it has in hand. */
  lemma StrandTracked(pc: seq<Pc>, t: nat, q: Pc, w: Waiters)
    requires t < |pc| && pc[t].Notifying? && Tracked(pc, pc[t].c, w) && q.Notifying? && q.c == pc[t].c && q.rest == []
    ensures Tracked(Claim(pc, pc[t].rest, Stranded)[t := q], pc[t].c, w)
  {
    var c, lost := pc[t].c, pc[t].rest;
    var pc' := Claim(pc, lost, Stranded)[t := q];
    InsidersSame(pc, pc', c);
    forall x: nat | x in lost ensures x < |pc| && SpotOf(pc[x], c) == InHand(t) {
      assert Has(Hands(pc, c), t, x);
      assert Spots(pc, c)[x] == InHand(t);
    }
    LoseAll(Spots(pc, c), Hands(pc, c), w.list, t, Spots(pc', c));
    assert Hands(pc', c) == Hands(pc, c)[t := []];
  }

  lemma GiveUp(pc: seq<Pc>, x: nat, p: Pc, c: Cond, w: Waiters)
    requires x < |pc| && Tracked(pc, c, w) && SpotOf(pc[x], c) == OnList && p.Woken? && p.c == c
    ensures Tracked(pc[x := p], c, w.(list := Without(w.list, x)))
  {
    Set(pc, x, p, c);
    LeaveList(Spots(pc, c), Hands(pc, c), w.list, x);
    assert Hands(pc[x := p], c) == Hands(pc, c);
  }
}
