/** The geometry every ring queue of the library shares: a ticket selects a
    slot (through the cache-line remapping) and a cycle. */
module Ring {

  datatype Option<+T> = None | Some(value: T)

  /** Rings are cache-line friendly: a positive multiple of four slots. */
  predicate RingSize(n: nat) {
    n > 0 && n % 4 == 0
  }

  /** `cache_remap`: consecutive indices land on different cache lines. */
  function Remap(n: nat, idx: nat): nat {
    if idx == 0 then 0
    else if idx == 1 then n / 4
    else if idx == 2 then 2 * (n / 4)
    else if idx == 3 then 3 * (n / 4)
    else 1 + Remap(n, idx - 4)
  }

  /** The cycle of ticket t: how often the ring was passed before t. */
  function Cycle(n: nat, t: nat): nat {
    if n == 0 || t < n then 0 else 1 + Cycle(n, t - n)
  }

  /** The position of ticket t in its cycle. */
  function Pos(n: nat, t: nat): (p: nat)
    ensures n > 0 ==> p < n
  {
    if n == 0 || t < n then t else Pos(n, t - n)
  }

  /** The slot of ticket t. */
  function SlotOf(n: nat, t: nat): (j: nat)
    ensures RingSize(n) ==> j < n
  {
    if RingSize(n) then RemapBound(n, Pos(n, t)); Remap(n, Pos(n, t)) else 0
  }

  /** The recursion computes the shift, mask and product of the source. */
  lemma {:induction false} RemapIsProduct(n: nat, idx: nat)
    ensures Remap(n, idx) == (idx % 4) * (n / 4) + idx / 4
  {
    if idx >= 4 {
      RemapIsProduct(n, idx - 4);
    }
  }

  lemma RemapBound(n: nat, idx: nat)
    requires RingSize(n) && idx < n
    ensures Remap(n, idx) < n
  {
    RemapIsProduct(n, idx);
    OffsetCases(idx % 4, n / 4);
  }

  lemma OffsetCases(offset: nat, lines: nat)
    requires offset < 4
    ensures offset == 0 ==> offset * lines == 0
    ensures offset == 1 ==> offset * lines == lines
    ensures offset == 2 ==> offset * lines == 2 * lines
    ensures offset == 3 ==> offset * lines == 3 * lines
  {
  }

  /** Distinct indices below n go to distinct slots. */
  lemma RemapInjective(n: nat, a: nat, b: nat)
    requires RingSize(n) && a < n && b < n
    requires Remap(n, a) == Remap(n, b)
    ensures a == b
  {
    RemapIsProduct(n, a);
    RemapIsProduct(n, b);
    OffsetCases(a % 4, n / 4);
    OffsetCases(b % 4, n / 4);
    assert a / 4 < n / 4 && b / 4 < n / 4;
  }

  /** The inverse of the remapping: slot j is reached from exactly one index. */
  function Unmap(n: nat, j: nat): (idx: nat)
    requires RingSize(n) && j < n
    ensures idx < n && Remap(n, idx) == j
  {
    var lines := n / 4;
    var idx :=
      if j < lines then 4 * j
      else if j < 2 * lines then 4 * (j - lines) + 1
      else if j < 3 * lines then 4 * (j - 2 * lines) + 2
      else 4 * (j - 3 * lines) + 3;
    RemapIsProduct(n, idx);
    OffsetCases(idx % 4, lines);
    idx
  }

  /** Division and remainder, as the source computes cycle and slot. */
  lemma {:induction false} TicketGeometry(n: nat, t: nat)
    requires n > 0
    ensures Cycle(n, t) == t / n && Pos(n, t) == t % n
  {
    if t >= n {
      TicketGeometry(n, t - n);
      DivModUnique(t - n, n, (t - n) / n, (t - n) % n, 0);
      DivModUnique(t, n, (t - n) / n, (t - n) % n, 1);
    } else {
      DivModUnique(t, n, 0, t, 0);
    }
  }

  /** Quotient and remainder are determined by x == (q + k) * n + r. */
  lemma DivModUnique(x: nat, n: nat, q: nat, r: nat, k: nat)
    requires r < n && x == q * n + k * n + r
    ensures x / n == q + k && x % n == r
  {
    var d := x / n - q - k;
    assert x == (x / n) * n + x % n;
    assert d * n == r - x % n;
    NoMultipleBetween(d, n);
  }

  lemma NoMultipleBetween(d: int, n: int)
    requires n > 0
    ensures d >= 1 ==> d * n >= n
    ensures d <= -1 ==> d * n <= -n
  {
  }

  /** Tickets of one position are ordered by their cycles, a ring apart. */
  lemma {:induction false} SamePosOrder(n: nat, t: nat, u: nat)
    requires n > 0 && Pos(n, t) == Pos(n, u) && t < u
    ensures Cycle(n, t) < Cycle(n, u) && u - t >= n
    decreases u
  {
    if t >= n {
      SamePosOrder(n, t - n, u - n);
    } else if u >= n {
      if t < u - n {
        SamePosOrder(n, t, u - n);
      }
    }
  }

  /** Two tickets of one slot are ordered by their cycles. */
  lemma SameSlotOrder(n: nat, t: nat, u: nat)
    requires RingSize(n) && SlotOf(n, t) == SlotOf(n, u) && t < u
    ensures Cycle(n, t) < Cycle(n, u) && u - t >= n
  {
    RemapInjective(n, Pos(n, t), Pos(n, u));
    SamePosOrder(n, t, u);
  }

  /** Any n consecutive tickets use n different slots. */
  lemma ConsecutiveTicketsDistinctSlots(n: nat, base: nat, t: nat, u: nat)
    requires RingSize(n) && base <= t < u < base + n
    ensures SlotOf(n, t) != SlotOf(n, u)
  {
    if SlotOf(n, t) == SlotOf(n, u) {
      SameSlotOrder(n, t, u);
    }
  }

  /** A ticket and its successor one ring later share the slot. */
  lemma NextRound(n: nat, t: nat)
    requires RingSize(n)
    ensures SlotOf(n, t + n) == SlotOf(n, t) && Cycle(n, t + n) == Cycle(n, t) + 1
  {
    assert Pos(n, t + n) == Pos(n, t + n - n);
  }

  /** Slot j is used by one ticket of every window of n tickets. */
  lemma {:induction false} TicketOfSlot(n: nat, base: nat, j: nat) returns (t: nat)
    requires RingSize(n) && j < n
    ensures base <= t < base + n && SlotOf(n, t) == j
    decreases base
  {
    if base == 0 {
      t := Unmap(n, j);
      assert Pos(n, t) == t;
    } else {
      t := TicketOfSlot(n, base - 1, j);
      if t == base - 1 {
        NextRound(n, t);
        t := t + n;
      }
    }
  }
}
