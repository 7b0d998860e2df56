/** The 64-bit words behind the tickets: shifts, masks, wrap-around and packing are
    written out on integers, and shown to compute the cycles, slots and flags that
    the protocol models use. */
module MachineWord {
  import opened Ring

  const WORD: nat := 0x1_0000_0000_0000_0000
  const HALF: nat := 0x8000_0000_0000_0000

  function Pow2(k: nat): (r: nat)
    ensures r >= 1
  {
    if k == 0 then 1 else 2 * Pow2(k - 1)
  }

  // ----- bit operations, bit by bit -----

  function And(a: nat, b: nat): nat {
    if a == 0 || b == 0 then 0
    else (if a % 2 == 1 && b % 2 == 1 then 1 else 0) + 2 * And(a / 2, b / 2)
  }

  function Or(a: nat, b: nat): nat {
    if a == 0 then b
    else if b == 0 then a
    else (if a % 2 == 1 || b % 2 == 1 then 1 else 0) + 2 * Or(a / 2, b / 2)
  }

  function ShiftRight(a: nat, k: nat): nat {
    if k == 0 then a else ShiftRight(a / 2, k - 1)
  }

  function ShiftLeft1(a: nat): nat {
    (2 * a) % WORD
  }

  /** The bits of a word below position k. */
  lemma {:induction false} MaskIsModulo(t: nat, k: nat)
    ensures And(t, Pow2(k) - 1) == t % Pow2(k)
  {
    if k > 0 {
      MaskIsModulo(t / 2, k - 1);
      var m := Pow2(k - 1);
      assert (2 * m - 1) / 2 == m - 1;
      HalvedModulo(t, m);
    }
  }

  /** Dividing by 2m is halving and then dividing by m. */
  lemma HalvedModulo(t: nat, m: nat)
    requires m > 0
    ensures t % (2 * m) == 2 * ((t / 2) % m) + t % 2
    ensures t / (2 * m) == (t / 2) / m
  {
    var q, r := (t / 2) / m, (t / 2) % m;
    assert t / 2 == q * m + r;
    DoubleProduct(q, m);
    DivModUnique(t, 2 * m, q, 2 * r + t % 2, 0);
  }

  lemma DoubleProduct(q: nat, m: nat)
    ensures q * (2 * m) == 2 * (q * m)
  {
  }

  lemma {:induction false} ShiftIsDivision(t: nat, k: nat)
    ensures ShiftRight(t, k) == t / Pow2(k)
  {
    if k > 0 {
      ShiftIsDivision(t / 2, k - 1);
      HalvedModulo(t, Pow2(k - 1));
    }
  }

  /** Consuming a slot by OR with the all-ones bottom leaves bottom, whatever index it held. */
  lemma {:induction false} OrWithBottom(v: nat, k: nat)
    requires v < Pow2(k)
    ensures Or(v, Pow2(k) - 1) == Pow2(k) - 1
  {
    if k > 0 && v > 0 {
      var m := Pow2(k - 1);
      assert (2 * m - 1) / 2 == m - 1;
      OrWithBottom(v / 2, k - 1);
      if m == 1 {
        assert v == 1;
      }
    }
  }

  ghost predicate IsPow2(v: nat) {
    exists k: nat :: v == Pow2(k)
  }

  lemma {:induction false} EvenPower(v: nat)
    requires v > 0 && v % 2 == 0
    ensures IsPow2(v) <==> IsPow2(v / 2)
  {
    if IsPow2(v / 2) {
      var k: nat :| v / 2 == Pow2(k);
      assert v == Pow2(k + 1);
    }
    if IsPow2(v) {
      var k: nat :| v == Pow2(k);
      assert k > 0;
      assert v / 2 == Pow2(k - 1);
    }
  }

  /** The source's test for powers of two is exact. */
  lemma {:induction false} PowerTest(v: nat)
    requires v > 0
    ensures And(v, v - 1) == 0 <==> IsPow2(v)
  {
    if v == 1 {
      assert v == Pow2(0);
    } else if v % 2 == 0 {
      PowerTest(v / 2);
      EvenPower(v);
      assert (v - 1) / 2 == v / 2 - 1;
    } else {
      AndSelf(v / 2);
      assert (v - 1) / 2 == v / 2;
      forall k: nat ensures v != Pow2(k) {
        assert k > 0 ==> Pow2(k) == 2 * Pow2(k - 1);
      }
    }
  }

  lemma {:induction false} AndSelf(a: nat)
    ensures And(a, a) == a
  {
    if a > 0 {
      AndSelf(a / 2);
    }
  }

  // ----- cycle and flag in one word -----

  function PackCycleFlags(cycle: nat, safe: bool): nat {
    Or(ShiftLeft1(cycle), if safe then 1 else 0)
  }

  function UnpackCycle(flags: nat): nat {
    ShiftRight(flags, 1)
  }

  predicate UnpackIsSafe(flags: nat) {
    And(flags, 1) != 0
  }

  /** Unpacking returns the flag always, and the cycle if and only if it fits in 63 bits. */
  lemma PackRoundTrip(cycle: nat, safe: bool)
    requires cycle < WORD
    ensures UnpackIsSafe(PackCycleFlags(cycle, safe)) == safe
    ensures UnpackCycle(PackCycleFlags(cycle, safe)) == cycle <==> cycle < HALF
    ensures PackCycleFlags(cycle, safe) < WORD
  {
    var w := ShiftLeft1(cycle);
    assert w == if cycle < HALF then 2 * cycle else 2 * cycle - WORD;
    assert w % 2 == 0;
    assert Or(w / 2, 0) == w / 2 && Or(w, 0) == w;
    assert PackCycleFlags(cycle, safe) == w + (if safe then 1 else 0);
    assert And(w + 1, 1) == 1 + 2 * And((w + 1) / 2, 0);
    assert ShiftRight(PackCycleFlags(cycle, safe), 1) == PackCycleFlags(cycle, safe) / 2;
  }

  /** The sign of the wrapped difference. */
  predicate CycleLess(a: nat, b: nat)
    requires a < WORD && b < WORD
  {
    (a - b) % WORD >= HALF
  }

  /** The signed comparison is the plain one if and only if the cycles are less than half
      the word apart. */
  lemma CycleLessExact(a: nat, b: nat)
    requires a < WORD && b < WORD
    ensures CycleLess(a, b) == (a < b) <==> -(HALF as int) <= a - b < HALF
  {
    assert (a - b) % WORD == if a >= b then a - b else a - b + WORD;
  }

  // ----- tickets -----

  function RemapBits(n: nat, idx: nat): nat {
    And(idx, 3) * ShiftRight(n, 2) + ShiftRight(idx, 2)
  }

  lemma RemapBitsIsRemap(n: nat, idx: nat)
    ensures RemapBits(n, idx) == Remap(n, idx)
  {
    MaskIsModulo(idx, 2);
    ShiftIsDivision(n, 2);
    ShiftIsDivision(idx, 2);
    RemapIsProduct(n, idx);
    assert Pow2(2) == 4 by { assert Pow2(1) == 2; }
  }

  lemma {:induction false} PowerIsRing(k: nat)
    requires k >= 2
    ensures RingSize(Pow2(k))
  {
    if k == 2 {
      assert Pow2(2) == 4 by { assert Pow2(1) == 2; }
    } else {
      PowerIsRing(k - 1);
    }
  }

  lemma LargePowerIsRing(n: nat)
    requires IsPow2(n) && n >= 4
    ensures RingSize(n)
  {
    var k: nat :| n == Pow2(k);
    assert Pow2(0) == 1 && Pow2(1) == 2;
    assert k >= 2;
    PowerIsRing(k);
  }

  lemma Quotient(t: nat, n: nat)
    requires n >= 4
    ensures 4 * (t / n) <= t
  {
    assert t == (t / n) * n + t % n;
    FourTimes(t / n, n);
  }

  lemma FourTimes(q: nat, n: nat)
    requires n >= 4
    ensures q * n >= 4 * q
  {
  }

  /** For every 64-bit ticket and every power-of-two ring of at least four slots, the shift
      and mask of the source give the cycle and the slot of the protocol models, the
      cycle survives packing, and comparing two such cycles compares the numbers. */
  lemma MachineTicket(k: nat, t: nat, u: nat)
    requires k >= 2 && t < WORD && u < WORD
    ensures ShiftRight(t, k) == Cycle(Pow2(k), t) < HALF
    ensures RemapBits(Pow2(k), And(t, Pow2(k) - 1)) == SlotOf(Pow2(k), t)
    ensures UnpackCycle(PackCycleFlags(ShiftRight(t, k), true)) == Cycle(Pow2(k), t)
    ensures Cycle(Pow2(k), u) < WORD
    ensures CycleLess(Cycle(Pow2(k), t), Cycle(Pow2(k), u)) <==> Cycle(Pow2(k), t) < Cycle(Pow2(k), u)
  {
    var n := Pow2(k);
    PowerIsRing(k);
    ShiftIsDivision(t, k);
    TicketGeometry(n, t);
    TicketGeometry(n, u);
    MaskIsModulo(t, k);
    RemapBitsIsRemap(n, And(t, n - 1));
    Quotient(t, n);
    Quotient(u, n);
    PackRoundTrip(Cycle(n, t), true);
    CycleLessExact(Cycle(n, t), Cycle(n, u));
  }

  // ----- rounding the ring size -----

  /** The number of doublings: log2_pow2_u64 counts trailing zeros. */
  method CountTrailingZeros(word: nat) returns (zeros: nat)
    requires IsPow2(word)
    ensures Pow2(zeros) == word
  {
    ghost var k: nat :| word == Pow2(k);
    var v := word;
    zeros := 0;
    ghost var rest := k;
    while v % 2 == 0
      invariant v == Pow2(rest) && zeros + rest == k
      decreases rest
    {
      assert rest > 0;
      v := v / 2;
      zeros := zeros + 1;
      rest := rest - 1;
    }
  }

  lemma {:induction false} PowerMonotone(a: nat, b: nat)
    requires a <= b
    ensures Pow2(a) <= Pow2(b) && (a < b ==> 2 * Pow2(a) <= Pow2(b))
  {
    if a < b {
      PowerMonotone(a, b - 1);
    }
  }

  /** Pow2(64) wraps to zero and stays there. */
  lemma {:induction false} DoublingWraps(k: nat)
    ensures k < 64 ==> Pow2(k) < WORD
    ensures k >= 64 ==> Pow2(k) % WORD == 0
  {
    Pow2Is63();
    if k < 64 {
      PowerMonotone(k, 63);
    } else if k > 64 {
      DoublingWraps(k - 1);
      var q := Pow2(k - 1) / WORD;
      assert Pow2(k) == 2 * q * WORD;
      DivModUnique(Pow2(k), WORD, 2 * q, 0, 0);
    }
  }

  lemma Pow2Is28()
    ensures Pow2(7) == 0x80 && Pow2(28) == 0x1000_0000
  {
    assert Pow2(7) == 128 by { assert Pow2(3) == 8; }
    PowerSum(7, 7);
    PowerSum(14, 14);
  }

  lemma Pow2Is63()
    ensures Pow2(63) == HALF && Pow2(64) == WORD
  {
    Pow2Is28();
    PowerSum(28, 28);
    PowerSum(56, 7);
  }

  lemma {:induction false} PowerSum(a: nat, b: nat)
    ensures Pow2(a + b) == Pow2(a) * Pow2(b)
  {
    if b > 0 {
      PowerSum(a, b - 1);
      assert Pow2(a + b) == 2 * Pow2(a + b - 1);
      DoubleProduct(Pow2(a), Pow2(b - 1));
    }
  }

  /** The doubling loop of round_up_pow2 ends if and only if the request fits: above 2^63
      the wrapped word never reaches it. */
  lemma RoundingEndsIff(v: nat)
    requires v < WORD
    ensures (exists k: nat :: Pow2(k) % WORD >= v) <==> v <= HALF
  {
    Pow2Is63();
    if v <= HALF {
      assert Pow2(63) % WORD >= v;
    } else {
      forall k: nat ensures Pow2(k) % WORD < v {
        DoublingWraps(k);
        if k < 64 {
          PowerMonotone(k, 63);
        }
      }
    }
  }

  /** The least power of two that is not below v. */
  method RoundUpPow2(v: nat) returns (out: nat)
    requires v <= HALF
    ensures IsPow2(out) && v <= out && (v > 1 ==> out < 2 * v)
    ensures forall j: nat :: Pow2(j) >= v ==> Pow2(j) >= out
  {
    if v <= 1 {
      assert 1 == Pow2(0);
      return 1;
    }
    if And(v, v - 1) == 0 {
      PowerTest(v);
      return v;
    }
    out := 1;
    ghost var k: nat := 0;
    Pow2Is63();
    while out < v
      invariant out == Pow2(k) && k <= 63 && out < 2 * v
      decreases 63 - k
    {
      DoublingWraps(k + 1);
      out := (2 * out) % WORD;
      k := k + 1;
    }
    forall j: nat | Pow2(j) >= v ensures Pow2(j) >= out {
      if j < k {
        PowerMonotone(j, k);
      } else {
        PowerMonotone(k, j);
      }
    }
  }

  // ----- the NCQ capacity -----

  /** round_up(value, 4), with the wrap of the addition. */
  function RoundUp4(value: nat): nat {
    (value + 3) % WORD / 4 * 4
  }

  function NcqCapacity(capacity: nat): nat {
    var atLeastOne := if capacity == 0 then 1 else capacity;
    RoundUp4(if atLeastOne < 4 then 4 else atLeastOne)
  }

  /** For every 64-bit request the capacity holds it if and only if the request leaves room
      for the rounding, and it is then the least ring size that does; otherwise it is zero. */
  lemma NcqCapacityIsLeast(capacity: nat, n: nat)
    requires capacity < WORD && RingSize(n) && n >= capacity
    ensures capacity <= NcqCapacity(capacity) <==> capacity <= WORD - 4
    ensures if capacity <= WORD - 4 then RingSize(NcqCapacity(capacity)) && NcqCapacity(capacity) <= n
            else NcqCapacity(capacity) == 0
  {
    var value := if capacity < 4 then 4 else capacity;
    if capacity <= WORD - 4 {
      assert (value + 3) % WORD == value + 3;
      var q := n / 4;
      assert n == 4 * q;
    } else {
      assert (value + 3) % WORD == value + 3 - WORD < 4;
    }
  }
}
