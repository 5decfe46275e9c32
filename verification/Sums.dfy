/** Adding a weight up over the threads of a machine. */
module Sums {

  ghost function Sum<T(!new)>(s: seq<T>, f: T -> nat): nat {
    if s == [] then 0 else Sum(s[..|s| - 1], f) + f(s[|s| - 1])
  }

  lemma {:induction false} SumSet<T(!new)>(s: seq<T>, t: nat, x: T, f: T -> nat)
    requires t < |s|
    ensures Sum(s[t := x], f) == Sum(s, f) + f(x) - f(s[t])
  {
    var n := |s| - 1;
    if t < n {
      assert s[t := x][..n] == s[..n][t := x];
      SumSet(s[..n], t, x, f);
    } else {
      assert s[t := x][..n] == s[..n];
    }
  }

  lemma {:induction false} SumSame<T(!new)>(s: seq<T>, s': seq<T>, f: T -> nat)
    requires |s| == |s'| && forall t :: 0 <= t < |s| ==> f(s[t]) == f(s'[t])
    ensures Sum(s, f) == Sum(s', f)
  {
    if s != [] {
      SumSame(s[..|s| - 1], s'[..|s| - 1], f);
    }
  }
}
