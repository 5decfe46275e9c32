/** example/codec/pb.go:9-24, isPow2 and sizeofPow2: the bit arithmetic that picks the
    capacity of a grown receive buffer.  Go's int is 64 bits wide; the sizes here are
    non-negative, so bitwise and/or are functions of natural numbers and >> is division. */
module PowerOfTwo {

  function Or(a: nat, b: nat): nat
  {
    if a == 0 then b else if b == 0 then a
    else 2 * Or(a / 2, b / 2) + (if a % 2 == 1 || b % 2 == 1 then 1 else 0)
  }

  function And(a: nat, b: nat): nat
  {
    if a == 0 || b == 0 then 0
    else 2 * And(a / 2, b / 2) + (if a % 2 == 1 && b % 2 == 1 then 1 else 0)
  }

  function Pow2(k: nat): (p: nat)
    ensures p >= 1
  {
    if k == 0 then 1 else 2 * Pow2(k - 1)
  }

  function IsPow2(size: nat): bool {
    size == 0 || And(size, size - 1) == 0
  }

  /** x >> n */
  function Shr(x: nat, n: nat): nat {
    if n == 0 then x else Shr(x / 2, n - 1)
  }

  /** The number after j of the assignments of sizeofPow2, which or in copies shifted by
      1, 2, 4, 8 and 16 bits. */
  function Smeared(s: nat, j: nat): nat
    decreases j
  {
    if j == 0 then s
    else
      var x := Smeared(s, j - 1);
      Or(x, Shr(x, Pow2(j - 1)))
  }

  function SizeofPow2(size: nat): nat {
    if IsPow2(size) then size else Smeared(size - 1, 5) + 1
  }

  lemma {:induction false} OrBits(a: nat, b: nat)
    ensures Or(a, b) / 2 == Or(a / 2, b / 2)
    ensures Or(a, b) % 2 == 1 <==> a % 2 == 1 || b % 2 == 1
    ensures Or(a, b) >= a
    decreases a
  {
    if a != 0 && b != 0 {
      OrBits(a / 2, b / 2);
    }
  }

  lemma {:induction false} AndSelf(a: nat)
    ensures And(a, a) == a
  {
    if a != 0 {
      AndSelf(a / 2);
    }
  }

  /** The isPow2 test is exact. */
  lemma {:induction false} IsPow2Exact(n: nat)
    requires n >= 1
    ensures IsPow2(n) <==> exists k: nat :: n == Pow2(k)
  {
    if n == 1 {
      assert n == Pow2(0);
    } else if n % 2 == 1 {
      AndSelf(n / 2);
      assert And(n, n - 1) == 2 * And(n / 2, n / 2);
      forall k: nat ensures n != Pow2(k) {
        assert k == 0 || Pow2(k) == 2 * Pow2(k - 1);
      }
    } else {
      IsPow2Exact(n / 2);
      assert (n - 1) / 2 == n / 2 - 1;
      assert And(n, n - 1) == 2 * And(n / 2, n / 2 - 1);
      if IsPow2(n) {
        var k: nat :| n / 2 == Pow2(k);
        assert n == Pow2(k + 1);
      } else {
        forall k: nat ensures n != Pow2(k) {
          assert k == 0 || n / 2 != Pow2(k - 1);
        }
      }
    }
  }

  lemma {:induction false} ShrAdd(x: nat, m: nat, n: nat)
    ensures Shr(Shr(x, m), n) == Shr(x, m + n)
  {
    if m > 0 {
      ShrAdd(x / 2, m - 1, n);
    }
  }

  /** Smearing commutes with shifting. */
  lemma {:induction false} SmearedHalf(s: nat, j: nat)
    ensures Smeared(s, j) / 2 == Smeared(s / 2, j)
    decreases j
  {
    if j > 0 {
      var x, n := Smeared(s, j - 1), Pow2(j - 1);
      OrBits(x, Shr(x, n));
      SmearedHalf(s, j - 1);
      ShrAdd(x, n, 1);
      ShrAdd(x, 1, n);
      assert Shr(x, 1) == x / 2 && Shr(Shr(x, n), 1) == Shr(x, n) / 2;
    }
  }

  lemma {:induction false} SmearedShr(s: nat, j: nat, n: nat)
    ensures Shr(Smeared(s, j), n) == Smeared(Shr(s, n), j)
    decreases n
  {
    if n > 0 {
      SmearedHalf(s, j);
      SmearedShr(s / 2, j, n - 1);
    }
  }

  /** One of the low n bits is set. */
  predicate LowBits(s: nat, n: nat) {
    n > 0 && (s % 2 == 1 || LowBits(s / 2, n - 1))
  }

  lemma {:induction false} LowBitsAdd(s: nat, m: nat, n: nat)
    ensures LowBits(s, m + n) <==> LowBits(s, m) || LowBits(Shr(s, m), n)
  {
    if m > 0 {
      LowBitsAdd(s / 2, m - 1, n);
    }
  }

  lemma {:induction false} LowBitsOfSmall(s: nat, n: nat)
    requires 0 < s < Pow2(n)
    ensures LowBits(s, n)
  {
    if s % 2 == 0 {
      LowBitsOfSmall(s / 2, n - 1);
    }
  }

  /** After j assignments the low bit tells whether any of the low 2^j bits was set. */
  lemma {:induction false} SmearedLow(s: nat, j: nat)
    ensures Smeared(s, j) % 2 == 1 <==> LowBits(s, Pow2(j))
    decreases j
  {
    if j == 0 {
      assert LowBits(s, 1) <==> s % 2 == 1 || LowBits(s / 2, 0);
    } else {
      var x, n := Smeared(s, j - 1), Pow2(j - 1);
      OrBits(x, Shr(x, n));
      SmearedShr(s, j - 1, n);
      SmearedLow(s, j - 1);
      SmearedLow(Shr(s, n), j - 1);
      LowBitsAdd(s, n, n);
    }
  }

  lemma {:induction false} SmearedZero(j: nat)
    ensures Smeared(0, j) == 0
  {
    if j > 0 {
      SmearedZero(j - 1);
      ShrZero(Pow2(j - 1));
    }
  }

  lemma {:induction false} ShrZero(n: nat)
    ensures Shr(0, n) == 0
  {
    if n > 0 {
      ShrZero(n - 1);
    }
  }

  lemma {:induction false} SmearedGrows(s: nat, j: nat)
    ensures Smeared(s, j) >= s
    decreases j
  {
    if j > 0 {
      SmearedGrows(s, j - 1);
      OrBits(Smeared(s, j - 1), Shr(Smeared(s, j - 1), Pow2(j - 1)));
    }
  }

  /** From every position up to the leading one, a set bit lies less than n positions higher. */
  predicate Dense(s: nat, n: nat) {
    s == 0 || (LowBits(s, n) && Dense(s / 2, n))
  }

  lemma {:induction false} SmallIsDense(s: nat, n: nat)
    requires s < Pow2(n)
    ensures Dense(s, n)
  {
    if s > 0 {
      LowBitsOfSmall(s, n);
      SmallIsDense(s / 2, n);
    }
  }

  ghost predicate PowerOfTwo(x: nat) { exists k: nat :: x == Pow2(k) }

  lemma PowerOfTwoHalf(x: nat)
    requires x >= 2
    ensures PowerOfTwo(x) <==> x % 2 == 0 && PowerOfTwo(x / 2)
  {
    if PowerOfTwo(x) {
      var k: nat :| x == Pow2(k);
      assert x / 2 == Pow2(k - 1);
    }
    if x % 2 == 0 && PowerOfTwo(x / 2) {
      var k: nat :| x / 2 == Pow2(k);
      assert x == Pow2(k + 1);
    }
  }

  lemma OnesHalf(x: nat)
    requires x > 0
    ensures PowerOfTwo(x + 1) <==> x % 2 == 1 && PowerOfTwo(x / 2 + 1)
  {
    PowerOfTwoHalf(x + 1);
    if x % 2 == 1 {
      assert (x + 1) / 2 == x / 2 + 1;
    }
  }

  /** The low bit of a smeared number decides, and its half the rest. */
  lemma FilledHalf(s: nat, j: nat)
    requires s > 0
    ensures PowerOfTwo(Smeared(s, j) + 1) <==> Smeared(s, j) % 2 == 1 && PowerOfTwo(Smeared(s / 2, j) + 1)
  {
    SmearedHalf(s, j);
    SmearedGrows(s, j);
    OnesHalf(Smeared(s, j));
  }

  /** After j assignments every bit under the leading one is set, so that adding one gives a power
      of two, if and only if no 2^j positions under the leading one are all zero. */
  lemma {:induction false} FilledExactly(s: nat, j: nat)
    ensures PowerOfTwo(Smeared(s, j) + 1) <==> Dense(s, Pow2(j))
  {
    if s == 0 {
      SmearedZero(j);
      assert 1 == Pow2(0);
    } else {
      SmearedLow(s, j);
      FilledHalf(s, j);
      FilledExactly(s / 2, j);
    }
  }

  /** Smearing sets no bit above the leading one. */
  lemma {:induction false} SmearedBound(s: nat, j: nat, k: nat)
    requires s < Pow2(k)
    ensures Smeared(s, j) < Pow2(k)
  {
    if k == 0 {
      SmearedZero(j);
    } else {
      SmearedHalf(s, j);
      SmearedBound(s / 2, j, k - 1);
    }
  }

  lemma Pow2Of32()
    ensures Pow2(5) == 32 && Pow2(32) == 0x1_0000_0000
  {
    assert Pow2(5) == 32;
    assert Pow2(8) == 0x100;
    assert Pow2(16) == 0x1_0000;
    assert Pow2(24) == 0x100_0000;
  }

  /** The result holds the size and exceeds no power of two that does.  It is itself a power of two,
      hence the least one, if and only if the size is one or size - 1 has no 32 zero bits in a row
      under its leading bit; up to 2^32 that is always so. */
  lemma SizeofPow2Least(size: nat)
    requires size >= 1
    ensures SizeofPow2(size) >= size
    ensures forall j: nat :: Pow2(j) >= size ==> Pow2(j) >= SizeofPow2(size)
    ensures PowerOfTwo(SizeofPow2(size)) <==> PowerOfTwo(size) || Dense(size - 1, 32)
    ensures size <= 0x1_0000_0000 ==> PowerOfTwo(SizeofPow2(size))
  {
    IsPow2Exact(size);
    Pow2Of32();
    if !IsPow2(size) {
      SmearedGrows(size - 1, 5);
      FilledExactly(size - 1, 5);
      forall j: nat | Pow2(j) >= size ensures Pow2(j) >= SizeofPow2(size) {
        SmearedBound(size - 1, 5, j);
      }
      if size <= 0x1_0000_0000 {
        SmallIsDense(size - 1, 32);
      }
    }
  }

  /** Sizes that fail: five assignments do not reach across 32 zero bits. */
  lemma NotAPowerOfTwo(n: nat)
    requires n >= 32
    ensures !PowerOfTwo(SizeofPow2(Pow2(n) + 1))
  {
    NextIsNot(n);
    NoLowBits(n, 32);
    SizeofPow2Least(Pow2(n) + 1);
  }

  lemma NextIsNot(n: nat)
    requires n > 0
    ensures !PowerOfTwo(Pow2(n) + 1)
  {
    PowerOfTwoHalf(Pow2(n) + 1);
  }

  lemma {:induction false} NoLowBits(n: nat, m: nat)
    requires m <= n
    ensures !LowBits(Pow2(n), m)
  {
    if m > 0 {
      NoLowBits(n - 1, m - 1);
    }
  }
}
