/** Taking one element out of a sequence. */
module Sequences {

  ghost predicate Distinct<T>(s: seq<T>) {
    forall i, j :: 0 <= i < j < |s| ==> s[i] != s[j]
  }

  /** The sequence without the first occurrence of x. */
  ghost function Without<T>(s: seq<T>, x: T): seq<T> {
    if s == [] then [] else if s[0] == x then s[1..] else [s[0]] + Without(s[1..], x)
  }

  lemma {:induction false} WithoutAt<T>(s: seq<T>, k: nat)
    requires k < |s| && s[k] !in s[..k]
    ensures Without(s, s[k]) == s[..k] + s[k + 1..]
  {
    if k > 0 {
      assert s[0] in s[..k];
      assert s[1..][..k - 1] == s[..k][1..];
      WithoutAt(s[1..], k - 1);
    }
  }

  lemma {:induction false} NotThere<T>(s: seq<T>, x: T)
    requires x !in s
    ensures Without(s, x) == s
  {
    if s != [] {
      NotThere(s[1..], x);
    }
  }

  lemma {:induction false} WithoutOthers<T>(s: seq<T>, x: T, y: T)
    ensures y in Without(s, x) ==> y in s
    ensures y != x ==> (y in Without(s, x) <==> y in s)
  {
    if s != [] && s[0] != x {
      WithoutOthers(s[1..], x, y);
    }
  }

  lemma {:induction false} WithoutIs<T>(s: seq<T>, x: T)
    requires Distinct(s)
    ensures Distinct(Without(s, x)) && forall y :: y in Without(s, x) <==> y in s && y != x
  {
    if s == [] {
    } else if s[0] == x {
      assert x !in s[1..];
      assert forall y :: y in s <==> y == x || y in s[1..];
    } else {
      WithoutIs(s[1..], x);
      var r := Without(s[1..], x);
      assert s[0] !in s[1..] && s[0] !in r;
      assert Distinct([s[0]] + r);
      assert forall y :: y in s <==> y == s[0] || y in s[1..];
    }
  }
}
