/** buffer/pool.go: the size classes of the buffer pool and their calibration.  The counters are
    read and reset as one; 0.95 of the count is taken exactly. */
module BufferPool {
  import opened PowerOfTwo

  const MIN_SIZE: int := 64
  const STEPS: int := 20
  const THRESHOLD: int := 42000

  function ClassSize(k: nat): nat { MIN_SIZE * Pow2(k) }

  lemma {:induction false} ShrZeroIff(x: nat, k: nat)
    ensures Shr(x, k) == 0 <==> x < Pow2(k)
  {
    if k > 0 {
      ShrZeroIff(x / 2, k - 1);
    }
  }

  lemma {:induction false} ShrHalf(x: nat, k: nat)
    ensures Shr(x, k + 1) == Shr(x, k) / 2
  {
    if k > 0 {
      ShrHalf(x / 2, k - 1);
    }
  }

  /** The least class that holds n bytes, the last class if none does. */
  method Index(n: int) returns (idx: int)
    ensures 0 <= idx < STEPS
    ensures idx < STEPS - 1 ==> n <= ClassSize(idx)
    ensures forall k: nat :: k < idx ==> n > ClassSize(k)
  {
    var m := (n - 1) / MIN_SIZE;
    ghost var m0: nat := if m < 0 then 0 else m;
    idx := 0;
    while m > 0
      invariant idx >= 0 && (m > 0 ==> m == Shr(m0, idx)) && (m <= 0 ==> Shr(m0, idx) == 0)
      invariant forall k: nat :: k < idx ==> Shr(m0, k) > 0
      decreases m
    {
      ShrHalf(m0, idx);
      m := m / 2;
      idx := idx + 1;
    }
    ShrZeroIff(m0, idx);
    forall k: nat | k < idx ensures n > ClassSize(k) {
      ShrZeroIff(m0, k);
    }
    if idx >= STEPS {
      idx := STEPS - 1;
    }
  }

  // ------------------------------------------------------------- calibration

  datatype CallSize = CallSize(calls: nat, size: nat)

  /** The table calibrate builds, one entry per class. */
  function Table(calls: seq<nat>): (a: seq<CallSize>)
    requires |calls| == STEPS
    ensures |a| == STEPS && forall i :: 0 <= i < STEPS ==> a[i] == CallSize(calls[i], ClassSize(i))
  {
    seq(STEPS, i requires 0 <= i < STEPS => CallSize(calls[i], ClassSize(i)))
  }

  function Total(a: seq<CallSize>): nat {
    if a == [] then 0 else a[0].calls + Total(a[1..])
  }

  /** The calls of the classes up to a size. */
  ghost function Covered(a: seq<CallSize>, size: nat): nat {
    if a == [] then 0 else (if a[0].size <= size then a[0].calls else 0) + Covered(a[1..], size)
  }

  /** sort.Sort(callSizes): some permutation with the most used class first. */
  ghost predicate SortOf(b: seq<CallSize>, a: seq<CallSize>) {
    multiset(b) == multiset(a) && forall i, j :: 0 <= i < j < |b| ==> b[i].calls >= b[j].calls
  }

  lemma {:induction false} CoveredAppend(a: seq<CallSize>, b: seq<CallSize>, size: nat)
    ensures Covered(a + b, size) == Covered(a, size) + Covered(b, size) && Total(a + b) == Total(a) + Total(b)
  {
    if a == [] {
      assert a + b == b;
    } else {
      assert (a + b)[1..] == a[1..] + b;
      CoveredAppend(a[1..], b, size);
    }
  }

  lemma TakeOut(b: seq<CallSize>, j: nat, size: nat)
    requires j < |b|
    ensures var c := b[..j] + b[j + 1..];
            && multiset(b) == multiset(c) + multiset{b[j]}
            && Covered(b, size) == Covered(c, size) + (if b[j].size <= size then b[j].calls else 0)
            && Total(b) == Total(c) + b[j].calls
  {
    assert b == b[..j] + ([b[j]] + b[j + 1..]);
    assert ([b[j]] + b[j + 1..])[1..] == b[j + 1..];
    CoveredAppend(b[..j], [b[j]] + b[j + 1..], size);
    CoveredAppend(b[..j], b[j + 1..], size);
  }

  /** Sums do not depend on the order. */
  lemma {:induction false} CoveredPermutes(a: seq<CallSize>, b: seq<CallSize>, size: nat)
    requires multiset(a) == multiset(b)
    ensures Covered(a, size) == Covered(b, size) && Total(a) == Total(b)
  {
    if a == [] {
      assert |multiset(b)| == 0;
    } else {
      assert a == [a[0]] + a[1..];
      assert a[0] in multiset(b);
      var j :| 0 <= j < |b| && b[j] == a[0];
      TakeOut(b, j, size);
      assert multiset(a[1..]) == multiset(a) - multiset{a[0]};
      assert multiset(b[..j] + b[j + 1..]) == multiset(b) - multiset{b[j]};
      CoveredPermutes(a[1..], b[..j] + b[j + 1..], size);
    }
  }

  lemma {:induction false} CoveredAtLeast(a: seq<CallSize>, n: nat, size: nat)
    requires n <= |a| && forall i :: 0 <= i < n ==> a[i].size <= size
    ensures Covered(a, size) >= Total(a[..n])
  {
    if n > 0 {
      assert a[..n][1..] == a[1..][..n - 1];
      CoveredAtLeast(a[1..], n - 1, size);
    }
  }

  function MaxSum(total: nat): int { (total as real * 0.95).Floor }

  /** How many entries of the sorted table are counted: up to the first with which more than 95 percent of the
      calls are reached. */
  ghost predicate Counted(a: seq<CallSize>, n: nat) {
    && 0 < n <= |a| && Total(a[..n - 1]) <= MaxSum(Total(a))
    && (n < |a| ==> Total(a[..n]) > MaxSum(Total(a)))
  }

  /** The largest size among the first n entries. */
  ghost predicate Largest(a: seq<CallSize>, n: nat, size: nat) {
    && n <= |a| && (forall j :: 0 <= j < n ==> a[j].size <= size)
    && exists j :: 0 <= j < n && a[j].size == size
  }

  /** calibrate: the default size is that of a most used class; the maximum is a class size no
      smaller, and the classes up to it account for 95 percent of the calls; and it is the largest of
      the most used classes up to that point, no more. */
  method Calibrate(calls: seq<nat>, a: seq<CallSize>) returns (defaultSize: nat, maxSize: nat)
    requires |calls| == STEPS && SortOf(a, Table(calls))
    ensures exists i :: 0 <= i < STEPS && defaultSize == ClassSize(i)
                  && forall j :: 0 <= j < STEPS ==> calls[j] <= calls[i]
    ensures maxSize >= defaultSize && exists i :: 0 <= i < STEPS && maxSize == ClassSize(i)
    ensures Covered(Table(calls), maxSize) >= MaxSum(Total(Table(calls)))
    ensures exists n :: Counted(a, n) && Largest(a, n, maxSize)
  {
    ghost var table := Table(calls);
    SortedTable(calls, a);
    var callsSum := Total(Table(calls));
    defaultSize := a[0].size;
    maxSize := defaultSize;
    var maxSum := MaxSum(callsSum);
    callsSum := 0;
    var i := 0;
    while i < STEPS && callsSum <= maxSum
      invariant 0 <= i <= STEPS && callsSum == Total(a[..i]) && defaultSize <= maxSize
      invariant forall j :: 0 <= j < i ==> a[j].size <= maxSize
      invariant maxSize == a[0].size || Largest(a, i, maxSize)
      invariant i > 0 ==> Largest(a, i, maxSize) && Total(a[..i - 1]) <= maxSum
    {
      assert a[..i + 1] == a[..i] + [a[i]];
      CoveredAppend(a[..i], [a[i]], 0);
      assert a[..i + 1 - 1] == a[..i];
      callsSum := callsSum + a[i].calls;
      if a[i].size > maxSize {
        maxSize := a[i].size;
      }
      i := i + 1;
    }
    CoveredPermutes(a, table, maxSize);
    CoveredAtLeast(a, i, maxSize);
    assert MaxSum(Total(table)) >= 0;
    assert Counted(a, i) && Largest(a, i, maxSize);
    assert a[..STEPS] == a;
    assert MaxSum(Total(table)) <= Total(table);
  }

  /** In a sorted table every entry is a class, and the first one is most used. */
  lemma SortedTable(calls: seq<nat>, a: seq<CallSize>)
    requires |calls| == STEPS && SortOf(a, Table(calls))
    ensures |a| == STEPS
    ensures forall j :: 0 <= j < STEPS ==> exists i :: 0 <= i < STEPS && a[j] == CallSize(calls[i], ClassSize(i))
    ensures exists i :: 0 <= i < STEPS && a[0].size == ClassSize(i)
                  && forall j :: 0 <= j < STEPS ==> calls[j] <= calls[i]
  {
    var table := Table(calls);
    assert |multiset(a)| == |a| && |multiset(table)| == |table|;
    forall j | 0 <= j < STEPS ensures exists i :: 0 <= i < STEPS && a[j] == CallSize(calls[i], ClassSize(i)) {
      assert a[j] in multiset(table);
      var i :| 0 <= i < STEPS && table[i] == a[j];
    }
    var i :| 0 <= i < STEPS && a[0] == CallSize(calls[i], ClassSize(i));
    forall j | 0 <= j < STEPS ensures calls[j] <= calls[i] {
      assert table[j] in multiset(a);
      var k :| 0 <= k < |a| && a[k] == table[j];
    }
  }

  /** Put: a returned buffer is counted in its class and kept unless it exceeds the maximum. */
  method Put(calls: seq<nat>, maxSize: nat, length: nat, capacity: nat)
    returns (calls': seq<nat>, calibrate: bool, kept: bool)
    requires |calls| == STEPS
    ensures exists k :: 0 <= k < STEPS && calls' == calls[k := calls[k] + 1] &&
              (k < STEPS - 1 ==> length <= ClassSize(k)) && (forall j: nat :: j < k ==> length > ClassSize(j)) &&
              calibrate == (calls'[k] > THRESHOLD)
    ensures kept <==> maxSize == 0 || capacity <= maxSize
  {
    var idx := Index(length);
    calls' := calls[idx := calls[idx] + 1];
    calibrate := calls'[idx] > THRESHOLD;
    kept := maxSize == 0 || capacity <= maxSize;
  }
}
