/** rpc/client.go:44-69, channelCalls: the calls of one channel, chained in a ring through a
    sentinel.  add leaves the sentinel's own pprev alone when the ring was empty, so only the
    other back links are meaningful. */
module CallChain {
  import opened Sequences

  class CallContext {
    var pprev: CallContext?
    var nnext: CallContext?

    constructor ()
      ensures pprev == this && nnext == this
    {
      pprev, nnext := this, this;
    }
  }

  class ChannelCalls {
    const calls: CallContext          // the sentinel
    ghost var ring: seq<CallContext>  // the sentinel, then the calls, newest first

    ghost predicate Valid()
      reads this, ring
    {
      && |ring| >= 1 && ring[0] == calls
      && Distinct(ring)
      && (forall i :: 0 <= i < |ring| - 1 ==> ring[i].nnext == ring[i + 1])
      && ring[|ring| - 1].nnext == calls
      && (forall i :: 0 < i < |ring| ==> ring[i].pprev == ring[i - 1])
    }

    constructor ()
      ensures Valid() && ring == [calls] && fresh(calls)
    {
      var c := new CallContext();
      calls, ring := c, [c];
    }

    method Empty() returns (b: bool)
      requires Valid()
      ensures b <==> |ring| == 1
    {
      b := calls.nnext == calls;
      assert |ring| > 1 ==> calls.nnext == ring[1];
    }

    method Add(c: CallContext)
      requires Valid() && c !in ring
      modifies this`ring, c, ring
      ensures Valid() && ring == [calls, c] + old(ring)[1..]
    {
      var next := calls.nnext;
      assert |ring| > 1 ==> next == ring[1];
      c.nnext := next;
      c.pprev := calls;
      calls.nnext := c;
      if next != calls {
        next.pprev := c;
      }
      ring := [calls, c] + ring[1..];
    }

    method Remove(c: CallContext, ghost k: int)
      requires Valid() && 0 < k < |ring| && ring[k] == c
      modifies this`ring, ring
      ensures Valid() && ring == old(ring)[..k] + old(ring)[k + 1..]
      ensures c.pprev == null && c.nnext == null
    {
      assert c.pprev == ring[k - 1];
      assert c.nnext == if k + 1 < |ring| then ring[k + 1] else calls;
      var prev := c.pprev;
      var next := c.nnext;
      prev.nnext := next;
      next.pprev := prev;
      c.pprev := null;
      c.nnext := null;
      ghost var old_ := ring;
      ring := ring[..k] + ring[k + 1..];
      assert forall i :: 0 <= i < k ==> ring[i] == old_[i];
      assert forall i :: k <= i < |ring| ==> ring[i] == old_[i + 1];
    }
  }
}
