/** Who is on the wait list of a condition variable and who is in the hands of a thread that is to wake
    it, seen as two sequences and a list. */
module CondSpots {
  import opened Sequences

  /** A thread as one condition variable sees it. */
  datatype Spot = Elsewhere | OnList | InHand(u: nat)

  /** The wait list holds exactly the sleepers that are on it, each once. */
  ghost predicate ListOk(at: seq<Spot>, list: seq<nat>) {
    Distinct(list) && forall x: nat :: x in list <==> x < |at| && at[x] == OnList
  }

  /** So does every hand. */
  ghost predicate HandsOk(at: seq<Spot>, hands: seq<seq<nat>>) {
    && |hands| == |at|
    && (forall t :: 0 <= t < |hands| ==> Distinct(hands[t]))
    && (forall t: nat, x: nat :: Has(hands, t, x) ==> x < |at| && at[x] == InHand(t))
    && (forall x :: 0 <= x < |at| && at[x].InHand? ==> Has(hands, at[x].u, x))
  }

  ghost predicate Has(hands: seq<seq<nat>>, t: nat, x: nat) { t < |hands| && x in hands[t] }

  lemma Join(at: seq<Spot>, hands: seq<seq<nat>>, list: seq<nat>, t: nat)
    requires ListOk(at, list) && HandsOk(at, hands) && t < |at| && at[t] == Elsewhere
    ensures ListOk(at[t := OnList], list + [t]) && HandsOk(at[t := OnList], hands)
  {
    assert t !in list;
  }

  lemma LeaveList(at: seq<Spot>, hands: seq<seq<nat>>, list: seq<nat>, t: nat)
    requires ListOk(at, list) && HandsOk(at, hands) && t < |at| && at[t] == OnList
    ensures ListOk(at[t := Elsewhere], Without(list, t)) && HandsOk(at[t := Elsewhere], hands)
  {
    WithoutIs(list, t);
  }

  lemma LeaveHand(at: seq<Spot>, hands: seq<seq<nat>>, list: seq<nat>, t: nat)
    requires ListOk(at, list) && HandsOk(at, hands) && t < |at| && at[t].InHand?
    ensures var u := at[t].u;
            && u < |hands| && ListOk(at[t := Elsewhere], list)
            && HandsOk(at[t := Elsewhere], hands[u := Without(hands[u], t)])
  {
    var u := at[t].u;
    assert Has(hands, u, t);
    WithoutIs(hands[u], t);
    var hands' := hands[u := Without(hands[u], t)];
    forall v: nat, x: nat ensures Has(hands', v, x) <==> Has(hands, v, x) && x != t {
      assert Has(hands, v, t) ==> v == u;
      assert x in hands'[u] <==> x in hands[u] && x != t;
    }
  }

  /** Thread t, with empty hands, takes the first n waiters off the list. */
  lemma TakeFirst(at: seq<Spot>, hands: seq<seq<nat>>, list: seq<nat>, t: nat, n: nat, at': seq<Spot>)
    requires ListOk(at, list) && HandsOk(at, hands) && t < |at| && hands[t] == [] && n <= |list|
    requires |at'| == |at| && forall x :: 0 <= x < |at| ==> at'[x] == if x in list[..n] then InHand(t) else at[x]
    ensures ListOk(at', list[n..]) && HandsOk(at', hands[t := list[..n]])
  {
    forall x: nat ensures x in list[n..] <==> x < |at'| && at'[x] == OnList {
      SplitDistinct(list, n, x);
    }
    SplitDistinct(list, n, 0);
    var hands' := hands[t := list[..n]];
    assert forall v: nat, x: nat :: Has(hands', v, x) <==> if v == t then x in list[..n] else Has(hands, v, x);
    assert forall x :: x in list[..n] ==> x in list;
  }

  lemma SplitDistinct(list: seq<nat>, n: nat, x: nat)
    requires Distinct(list) && n <= |list|
    ensures Distinct(list[..n]) && Distinct(list[n..])
    ensures x in list[n..] <==> x in list && x !in list[..n]
  {
    assert list == list[..n] + list[n..];
    assert forall i, j :: 0 <= i < |list[n..]| && 0 <= j < n ==> list[n..][i] != list[..n][j];
  }

  /** Thread t loses sight of all it has in hand. */
  lemma LoseAll(at: seq<Spot>, hands: seq<seq<nat>>, list: seq<nat>, t: nat, at': seq<Spot>)
    requires ListOk(at, list) && HandsOk(at, hands) && t < |at|
    requires |at'| == |at| && forall x :: 0 <= x < |at| ==> at'[x] == if x in hands[t] then Elsewhere else at[x]
    ensures ListOk(at', list) && HandsOk(at', hands[t := []])
  {
    var hands' := hands[t := []];
    forall x: nat | x in hands[t] ensures x < |at| && at[x] == InHand(t) {
      assert Has(hands, t, x);
    }
    forall v: nat, x: nat ensures Has(hands', v, x) <==> Has(hands, v, x) && x !in hands[t] {
      assert Has(hands, v, x) && x in hands[t] ==> v == t;
    }
  }
}
