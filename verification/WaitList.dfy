/** socket/sendqueue.go:20-77: the ring of waiters behind the condition variable with timeouts.
    A node that is no longer linked has no neighbours, which is how a waiter that timed out
    learns that it had already been taken off the ring, and no channel. */
module WaitList {
  import opened Optional
  import opened Sequences

  class Waiter {
    var nnext: Waiter?
    var pprev: Waiter?
    var ch: Option<int>   // its channel

    constructor (ch: Option<int>)
      ensures this.ch == ch && nnext == null && pprev == null
    {
      this.ch := ch;
      nnext, pprev := null, null;
    }
  }

  class WaitList {
    const head: Waiter            // the sentinel
    ghost var ring: seq<Waiter>   // the sentinel, then the waiters, oldest first

    ghost predicate Valid()
      reads this, ring
    {
      && |ring| >= 1 && ring[0] == head && Distinct(ring)
      && (forall i :: 0 <= i < |ring| - 1 ==> ring[i].nnext == ring[i + 1])
      && (forall i :: 0 < i < |ring| ==> ring[i].pprev == ring[i - 1])
      && ring[|ring| - 1].nnext == head && head.pprev == ring[|ring| - 1]
      && (forall i :: 0 < i < |ring| ==> ring[i].ch.Some?)
    }

    constructor ()
      ensures Valid() && ring == [head] && fresh(head)
    {
      var h := new Waiter(None);
      h.nnext, h.pprev := h, h;
      head, ring := h, [h];
    }

    method PushWait(ch: int) returns (n: Waiter)
      requires Valid()
      modifies this`ring, ring
      ensures Valid() && fresh(n) && n.ch == Some(ch) && ring == old(ring) + [n]
    {
      n := new Waiter(Some(ch));
      var tail := head.pprev;
      n.nnext := tail.nnext;
      n.pprev := tail;
      tail.nnext := n;
      head.pprev := n;
      ring := ring + [n];
    }

    /** Takes a waiter off the ring; one that is no longer on it is left alone. */
    method RemoveWait(n: Waiter)
      requires Valid() && n != head && (n in ring || (n.nnext == null && n.ch == None))
      modifies this`ring, n, ring
      ensures Valid() && ring == Without(old(ring), n) && n !in ring && n.nnext == null && n.ch == None
    {
      if n in ring {
        ghost var k: int :| 0 <= k < |ring| && ring[k] == n;
        assert n.pprev == ring[k - 1] && n.nnext == if k + 1 < |ring| then ring[k + 1] else head;
      }
      if n.nnext != null && n.pprev != null && n.nnext != n && n.pprev != n {
        ghost var k: int :| 0 <= k < |ring| && ring[k] == n;
        WithoutAt(ring, k);
        Unlink(n, k);
      } else {
        NotThere(ring, n);
      }
    }

    method Unlink(n: Waiter, ghost k: int)
      requires Valid() && 0 < k < |ring| && ring[k] == n
      modifies this`ring, ring`nnext, ring`pprev, n`ch
      ensures Valid() && ring == old(ring)[..k] + old(ring)[k + 1..]
      ensures n !in ring && n.nnext == null && n.ch == None
    {
      ghost var was, d := ring, ring[..k] + ring[k + 1..];
      assert n.pprev == was[k - 1] && n.nnext == if k + 1 < |was| then was[k + 1] else head;
      Shorter(was, k);
      var next := n.nnext;
      var prev := n.pprev;
      prev.nnext := next;
      next.pprev := prev;
      n.nnext := null;
      n.pprev := null;
      n.ch := None;
      ring := d;
    }

    static lemma Shorter(r: seq<Waiter>, k: int)
      requires Distinct(r) && 0 < k < |r|
      ensures var d := r[..k] + r[k + 1..];
              && Distinct(d) && r[k] !in d && |d| == |r| - 1
              && (forall i :: 0 <= i < k ==> d[i] == r[i]) && (forall i :: k <= i < |d| ==> d[i] == r[i + 1])
    {
    }

    /** The channel of the oldest waiter, which is taken off the ring. */
    method PopWait() returns (ch: Option<int>)
      requires Valid()
      modifies this`ring, ring
      ensures Valid()
      ensures |old(ring)| == 1 ==> ch == None && ring == old(ring)
      ensures |old(ring)| > 1 ==> ch == old(ring[1].ch) && ring == [head] + old(ring)[2..]
    {
      assert |ring| > 1 ==> head.nnext == ring[1];
      if head.nnext == head {
        ch := None;
      } else {
        var first := head.nnext;
        ch := first.ch;
        Unlink(first, 1);
      }
    }

    /** What broadcast and a timeout do to the nodes when they meet: the pop of the first waiter has read
        its links when the next waiter times out and takes itself off, and then goes on.  The head is
        left pointing to the waiter that is gone, so the next pop finds no channel and takes that for
        the end; the channels of all others are untouched and no longer in reach. */
    method RacedPop() returns (first: Option<int>, second: Option<int>)
      requires Valid() && |ring| >= 4
      modifies this`ring, ring
      ensures first == old(ring[1].ch) && second == None
      ensures head.nnext == old(ring)[2] && old(ring)[2].nnext == null
      ensures forall i :: 3 <= i < |old(ring)| ==> old(ring)[i].ch == old(ring[i].ch) && old(ring[i].ch).Some?
    {
      ghost var was := ring;
      assert head.nnext == ring[1] && ring[1].nnext == ring[2] && ring[1].pprev == head;
      var x := head.nnext;
      first := x.ch;
      var next, prev := x.nnext, x.pprev;
      assert was[1] != was[2] && was[0] != was[2] && was[0] != was[1];
      Unlink(next, 2);
      prev.nnext := next;
      next.pprev := prev;
      x.nnext := null;
      x.pprev := null;
      x.ch := None;
      second := head.nnext.ch;
    }
  }
}
