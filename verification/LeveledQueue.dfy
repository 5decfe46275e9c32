/** event/priorityQueue.go, pq: an array of rings and a cursor to the highest
    non-empty one, proved to behave as the reference list. */
module LeveledQueue {
  import opened PriorityList
  import opened Optional
  import opened Ring

  ghost function Tagged<T>(vs: seq<T>, pri: int): (r: seq<Entry<T>>)
    ensures |r| == |vs| && forall i :: 0 <= i < |vs| ==> r[i] == Entry(pri, vs[i])
  {
    seq(|vs|, i requires 0 <= i < |vs| => Entry(pri, vs[i]))
  }

  /** The levels read from the highest to the lowest. */
  ghost function Listing<T>(levels: seq<seq<T>>): (r: seq<Entry<T>>)
    ensures forall i :: 0 <= i < |r| ==> 0 <= r[i].pri < |levels|
  {
    if levels == [] then []
    else
      var n := |levels| - 1;
      Tagged(levels[n], n) + Listing(levels[..n])
  }

  lemma {:induction false} InsertPasses<T>(a: seq<Entry<T>>, b: seq<Entry<T>>, e: Entry<T>)
    requires forall i :: 0 <= i < |a| ==> a[i].pri >= e.pri
    ensures Insert(a + b, e) == a + Insert(b, e)
  {
    if a == [] {
      assert a + b == b;
    } else {
      assert (a + b)[1..] == a[1..] + b;
      InsertPasses(a[1..], b, e);
    }
  }

  lemma InsertLeads<T>(b: seq<Entry<T>>, e: Entry<T>)
    requires forall i :: 0 <= i < |b| ==> b[i].pri < e.pri
    ensures Insert(b, e) == [e] + b
  {
  }

  /** Appending to one level is a stable insertion into the listing. */
  lemma {:induction false} AppendIsInsert<T>(levels: seq<seq<T>>, p: nat, v: T)
    requires p < |levels|
    ensures Listing(levels[p := levels[p] + [v]]) == Insert(Listing(levels), Entry(p, v))
  {
    var n := |levels| - 1;
    var e := Entry(p, v);
    var levels' := levels[p := levels[p] + [v]];
    var top, low := Tagged(levels[n], n), Listing(levels[..n]);
    assert Listing(levels) == top + low;
    InsertPasses(top, low, e);
    if p == n {
      assert levels'[..n] == levels[..n];
      assert Tagged(levels'[n], n) == top + [e];
      assert Listing(levels') == (top + [e]) + low;
      InsertLeads(low, e);
      assert (top + [e]) + low == top + ([e] + low);
    } else {
      assert levels'[..n] == levels[..n][p := levels[..n][p] + [v]];
      AppendIsInsert(levels[..n], p, v);
      assert Listing(levels') == top + Insert(low, e);
    }
  }

  /** With every level above high empty, the head of level high is the head of the listing. */
  lemma {:induction false} HighIsHead<T>(levels: seq<seq<T>>, high: nat)
    requires high < |levels| && (forall i :: high < i < |levels| ==> levels[i] == []) && levels[high] != []
    ensures var q := Listing(levels);
            q != [] && q[0] == Entry(high, levels[high][0]) &&
            Listing(levels[high := levels[high][1..]]) == q[1..]
  {
    var n := |levels| - 1;
    var levels' := levels[high := levels[high][1..]];
    if high == n {
      assert levels'[..n] == levels[..n];
      assert Tagged(levels[n], n)[1..] == Tagged(levels'[n], n);
    } else {
      assert levels'[..n] == levels[..n][high := levels[..n][high][1..]];
      HighIsHead(levels[..n], high);
      assert Tagged(levels[n], n) == [];
    }
  }

  lemma {:induction false} AllEmpty<T>(levels: seq<seq<T>>)
    requires forall i :: 0 <= i < |levels| ==> levels[i] == []
    ensures Listing(levels) == []
  {
    if levels != [] {
      AllEmpty(levels[..|levels| - 1]);
    }
  }

  /** Listing is in priority order. */
  lemma {:induction false} ListingByPriority<T>(levels: seq<seq<T>>)
    ensures ByPriority(Listing(levels))
  {
    if levels != [] {
      ListingByPriority(levels[..|levels| - 1]);
    }
  }

  class Pq<T> {
    var levels: seq<Ring<T>>
    var count: int
    var high: int
    ghost var view: seq<seq<T>>
    ghost var Repr: set<object>

    /** The rings are well formed and share nothing. */
    ghost predicate Structure()
      reads this`levels, this`view, this`Repr, levels, Repr - {this}
    {
      && this in Repr && |view| == |levels| >= 1
      && (forall i :: 0 <= i < |levels| ==> Owns(i))
      && (forall i, j :: 0 <= i < |levels| && 0 <= j < |levels| && i != j ==> levels[i].Repr !! levels[j].Repr)
    }

    ghost predicate Owns(i: int)
      requires 0 <= i < |levels| == |view|
      reads this`levels, this`view, this`Repr, levels, Repr - {this}
    {
      && levels[i] in Repr && levels[i].Repr <= Repr && this !in levels[i].Repr
      && levels[i].Valid() && levels[i].contents == view[i]
    }

    /** count is the total; every level above high is empty; high is non-empty unless nothing is left. */
    ghost predicate Valid()
      reads this, levels, Repr
    {
      && Structure()
      && count == |Listing(view)|
      && 0 <= high < |levels|
      && (forall i :: high < i < |levels| ==> view[i] == [])
      && (view[high] == [] ==> high == 0)
    }

    constructor (priorityCount: int)
      ensures Valid() && fresh(Repr) && Listing(view) == []
      ensures |levels| == if priorityCount <= 0 then 1 else priorityCount
    {
      var n := if priorityCount <= 0 then 1 else priorityCount;
      var r := new Ring<T>();
      levels := [r];
      view := [[]];
      count := 0;
      high := 0;
      Repr := {this} + r.Repr;
      new;
      while |levels| < n
        invariant |levels| <= n && Structure() && fresh(Repr) && count == 0 && high == 0
        invariant forall i :: 0 <= i < |view| ==> view[i] == []
      {
        AddLevel();
      }
      AllEmpty(view);
    }

    method AddLevel()
      requires Structure()
      modifies this
      ensures Structure() && fresh(Repr - old(Repr)) && count == old(count) && high == old(high)
      ensures |levels| == |old(levels)| + 1 && view == old(view) + [[]]
    {
      ghost var ls := levels;
      forall i | 0 <= i < |ls| ensures ls[i].Valid() && ls[i] in Repr && ls[i].Repr <= Repr && this !in ls[i].Repr {
        assert Owns(i);
      }
      var r := new Ring<T>();
      levels := levels + [r];
      view := view + [[]];
      Repr := Repr + r.Repr;
      assert forall i :: 0 <= i < |ls| ==> levels[i] == ls[i] && ls[i].Valid();
      forall i | 0 <= i < |levels| ensures Owns(i) {
        assert i < |ls| ==> levels[i].Repr <= old(Repr) && old(Owns(i));
      }
    }

    method PushAt(p: int, v: T)
      requires Structure() && 0 <= p < |levels|
      modifies Repr
      ensures Structure() && fresh(Repr - old(Repr))
      ensures levels == old(levels) && count == old(count) && high == old(high)
      ensures view == old(view)[p := old(view)[p] + [v]]
    {
      assert Owns(p);
      forall i | 0 <= i < |levels| && i != p
        ensures levels[i].Valid() && levels[i] in levels[i].Repr && levels[i].Repr <= Repr && this !in levels[i].Repr
        ensures levels[i] !in levels[p].Repr
      {
        assert Owns(i);
      }
      levels[p].Push(v);
      assert forall i :: 0 <= i < |levels| && i != p ==> levels[i].Repr == old(levels[i].Repr) && levels[i].Valid();
      Repr := Repr + levels[p].Repr;
      view := view[p := view[p] + [v]];
      forall i | 0 <= i < |levels| ensures Owns(i) {
        assert old(Owns(i));
      }
    }

    method PopAt(p: int) returns (r: Option<T>)
      requires Structure() && 0 <= p < |levels| && view[p] != []
      modifies Repr
      ensures Structure() && Repr == old(Repr)
      ensures levels == old(levels) && count == old(count) && high == old(high)
      ensures r == Some(old(view)[p][0]) && view == old(view)[p := old(view)[p][1..]]
    {
      assert Owns(p);
      forall i | 0 <= i < |levels| && i != p
        ensures levels[i].Valid() && levels[i] in levels[i].Repr && levels[i].Repr <= Repr && this !in levels[i].Repr
        ensures levels[i] !in levels[p].Repr
      {
        assert Owns(i);
      }
      r := levels[p].Pop();
      assert forall i :: 0 <= i < |levels| && i != p ==> levels[i].Repr == old(levels[i].Repr) && levels[i].Valid();
      view := view[p := view[p][1..]];
      forall i | 0 <= i < |levels| ensures Owns(i) {
        assert old(Owns(i));
      }
    }

    method Push(priority: int, v: T)
      requires Valid()
      modifies Repr
      ensures Valid() && fresh(Repr - old(Repr)) && levels == old(levels)
      ensures Listing(view) == Insert(old(Listing(view)), Entry(Clamp(|levels|, priority), v))
      ensures count == old(count) + 1
    {
      var p := priority;
      if p < 0 {
        p := 0;
      } else if p >= |levels| {
        p := |levels| - 1;
      }
      assert p == Clamp(|levels|, priority);
      AppendIsInsert(view, p, v);
      PushAt(p, v);
      count := count + 1;
      if p > high {
        high := p;
      }
    }

    method Pop() returns (r: Option<T>)
      requires Valid()
      modifies Repr
      ensures Valid() && Repr == old(Repr) && levels == old(levels)
      ensures old(Listing(view)) == [] ==> r == None && Listing(view) == [] && count == 0
      ensures old(Listing(view)) != [] ==>
                r == Some(old(Listing(view))[0].v) && Listing(view) == old(Listing(view))[1..] &&
                count == old(count) - 1
    {
      r := None;
      if count > 0 {
        if view[high] == [] {
          AllEmpty(view);
        }
        HighIsHead(view, high);
        r := PopAt(high);
        count := count - 1;
        LowerHigh();
      }
    }

    /** The loop of pop that lowers high past the levels that are empty. */
    method LowerHigh()
      requires Structure() && 0 <= high < |levels|
      requires forall i :: high < i < |levels| ==> view[i] == []
      modifies this`high
      ensures Structure() && 0 <= high < |levels|
      ensures forall i :: high < i < |levels| ==> view[i] == []
      ensures view[high] == [] ==> high == 0
    {
      while true
        invariant Structure() && 0 <= high < |levels|
        invariant forall i :: high < i < |levels| ==> view[i] == []
        decreases high
      {
        assert Owns(high);
        var empty := levels[high].Empty();
        if !empty || high == 0 {
          return;
        }
        high := high - 1;
      }
    }
  }
}
