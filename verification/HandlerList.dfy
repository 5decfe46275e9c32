/** event/eventHandler.go:181-210: the doubly linked list of handles between two sentinels. */
module HandlerList {
  import opened Sequences

  class Handle {
    const once: bool
    var pprev: Handle?
    var nnext: Handle?
    var version: int

    constructor (once: bool)
      ensures version == 0 && this.once == once && pprev == null && nnext == null
    {
      this.once := once;
      pprev, nnext, version := null, null, 0;
    }
  }

  /** Distinct handles, each pair of neighbours linked both ways. */
  ghost predicate Linked(c: seq<Handle>)
    reads c
  {
    && Distinct(c)
    && (forall i :: 0 <= i < |c| - 1 ==> c[i].nnext == c[i + 1])
    && (forall i :: 0 < i < |c| ==> c[i].pprev == c[i - 1])
  }

  /** Takes the handle at position k out of a chain. */
  method Unlink(h: Handle, ghost c: seq<Handle>, ghost k: int)
    requires Linked(c) && 0 < k < |c| - 1 && c[k] == h
    modifies c
    ensures Linked(c[..k] + c[k + 1..])
    ensures forall i :: 0 <= i < |c| ==> c[i].version == old(c[i].version)
  {
    assert h.pprev == c[k - 1] && h.nnext == c[k + 1];
    h.pprev.nnext := h.nnext;
    h.nnext.pprev := h.pprev;
    h.nnext := null;
    h.pprev := null;
    ghost var d := c[..k] + c[k + 1..];
    assert forall i :: 0 <= i < k ==> d[i] == c[i];
    assert forall i :: k <= i < |d| ==> d[i] == c[i + 1];
  }

  class Slot {
    const head: Handle
    const tail: Handle
    const version: int
    ghost var chain: seq<Handle>  // head, the registered handles in order, tail

    /** Exactly the registered handles carry the version of the slot. */
    ghost predicate Valid()
      reads this, chain
    {
      && |chain| >= 2 && chain[0] == head && chain[|chain| - 1] == tail && Linked(chain)
      && version > 0 && head.version == 0 && tail.version == 0
      && (forall i :: 0 < i < |chain| - 1 ==> chain[i].version == version)
    }

    constructor (version: int)
      requires version > 0
      ensures Valid() && chain == [head, tail] && this.version == version && fresh(head) && fresh(tail)
    {
      var h := new Handle(false);
      var t := new Handle(false);
      h.nnext := t;
      t.pprev := h;
      head, tail, chain := h, t, [h, t];
      this.version := version;
    }

    method DoRegister(h: Handle)
      requires Valid() && h !in chain
      modifies this`chain, h, chain
      ensures Valid() && chain == old(chain)[..|old(chain)| - 1] + [h, tail] && h.version == version
    {
      ghost var n := |chain| - 1;
      assert chain[n].pprev == chain[n - 1];
      h.version := version;
      tail.pprev.nnext := h;
      h.nnext := tail;
      h.pprev := tail.pprev;
      tail.pprev := h;
      chain := chain[..|chain| - 1] + [h, tail];
    }

    /** Removes a registered handle; a handle that is not registered here, such as one already
        removed, is left alone.  So removing twice is removing once. */
    method DoRemove(h: Handle)
      requires Valid() && h != head && h != tail && (h.version == version ==> h in chain)
      modifies this`chain, h, chain
      ensures Valid() && chain == Without(old(chain), h) && h !in chain && h.version != version
      ensures old(h.version) != version ==> chain == old(chain) && h.version == old(h.version)
    {
      if h.version == version {
        ghost var k: int :| 0 <= k < |chain| && chain[k] == h;
        WithoutAt(chain, k);
        Unlink(h, chain, k);
        h.version := 0;
        chain := chain[..k] + chain[k + 1..];
      } else {
        assert h !in chain;
        NotThere(chain, h);
      }
    }
  }
}
