/** The ring between two calls, when no operation is in progress: what the slots
    must hold for given head, tail and queue contents, and how each update of one
    slot moves that on. */
module RingState {
  import opened Ring

  datatype Slot = Slot(cycle: nat, safe: bool, ptr: Option<nat>)

  function Max(a: nat, b: nat): nat {
    if a >= b then a else b
  }

  /** What the slot of ticket p holds. */
  function Want(n: nat, head: nat, tail: nat, contents: seq<nat>, p: nat): Slot {
    Slot(Cycle(n, p), true, if head <= p < tail && p - head < |contents| then Some(contents[p - head]) else None)
  }

  ghost predicate Shape(n: nat, head: nat, tail: nat, contents: seq<nat>, slots: seq<Slot>) {
    && RingSize(n) && |slots| == n && head >= n && tail >= n
    && |contents| == (if tail > head then tail - head else 0) && |contents| <= n
  }

  /** The last n tickets up to the larger index own the n slots. */
  ghost predicate Holds(n: nat, head: nat, tail: nat, contents: seq<nat>, slots: seq<Slot>) {
    && Shape(n, head, tail, contents, slots)
    && forall p :: Max(head, tail) - n <= p < Max(head, tail) ==>
         slots[SlotOf(n, p)] == Want(n, head, tail, contents, p)
  }

  function Blank(n: nat): (slots: seq<Slot>)
    ensures |slots| == n && forall j :: 0 <= j < n ==> slots[j] == Slot(0, true, None)
  {
    if n == 0 then [] else Blank(n - 1) + [Slot(0, true, None)]
  }

  lemma BlankHolds(n: nat)
    requires RingSize(n)
    ensures Holds(n, n, n, [], Blank(n))
  {
  }

  /** A ring that is not full and whose head is not ahead: the tail's slot is free. */
  lemma TailSlot(n: nat, head: nat, tail: nat, contents: seq<nat>, slots: seq<Slot>)
    requires Holds(n, head, tail, contents, slots) && head <= tail && |contents| < n
    ensures slots[SlotOf(n, tail)] == Slot(Cycle(n, tail) - 1, true, None) && Cycle(n, tail) > 0
  {
    NextRound(n, tail - n);
    assert slots[SlotOf(n, tail - n)] == Want(n, head, tail, contents, tail - n);
  }

  /** A ticket behind the head finds its cycle already passed. */
  lemma BehindHead(n: nat, head: nat, tail: nat, contents: seq<nat>, slots: seq<Slot>)
    requires Holds(n, head, tail, contents, slots) && tail < head
    ensures slots[SlotOf(n, tail)].cycle >= Cycle(n, tail)
  {
    var p := TicketOfSlot(n, head - n, SlotOf(n, tail));
    assert slots[SlotOf(n, p)] == Want(n, head, tail, contents, p);
    if p != tail {
      if p < tail {
        SameSlotOrder(n, p, tail);
      } else {
        SameSlotOrder(n, tail, p);
      }
    }
  }

  lemma EnqueueHolds(n: nat, head: nat, tail: nat, contents: seq<nat>, slots: seq<Slot>, v: nat)
    requires Holds(n, head, tail, contents, slots) && head <= tail && |contents| < n
    ensures Holds(n, head, tail + 1, contents + [v],
                  slots[SlotOf(n, tail) := Slot(Cycle(n, tail), true, Some(v))])
  {
    var slots' := slots[SlotOf(n, tail) := Slot(Cycle(n, tail), true, Some(v))];
    forall p | tail + 1 - n <= p < tail + 1
      ensures slots'[SlotOf(n, p)] == Want(n, head, tail + 1, contents + [v], p)
    {
      if p != tail {
        ConsecutiveTicketsDistinctSlots(n, tail + 1 - n, p, tail);
        assert slots[SlotOf(n, p)] == Want(n, head, tail, contents, p);
      }
    }
  }

  /** A queue that is not empty: the head's slot holds the oldest element. */
  lemma HeadSlot(n: nat, head: nat, tail: nat, contents: seq<nat>, slots: seq<Slot>)
    requires Holds(n, head, tail, contents, slots) && contents != []
    ensures slots[SlotOf(n, head)] == Slot(Cycle(n, head), true, Some(contents[0]))
  {
    assert slots[SlotOf(n, head)] == Want(n, head, tail, contents, head);
  }

  lemma TakeHolds(n: nat, head: nat, tail: nat, contents: seq<nat>, slots: seq<Slot>)
    requires Holds(n, head, tail, contents, slots) && contents != []
    ensures Holds(n, head + 1, tail, contents[1..],
                  slots[SlotOf(n, head) := Slot(Cycle(n, head), true, None)])
  {
    var slots' := slots[SlotOf(n, head) := Slot(Cycle(n, head), true, None)];
    forall p | tail - n <= p < tail
      ensures slots'[SlotOf(n, p)] == Want(n, head + 1, tail, contents[1..], p)
    {
      assert slots[SlotOf(n, p)] == Want(n, head, tail, contents, p);
      if p < head {
        ConsecutiveTicketsDistinctSlots(n, tail - n, p, head);
      } else if p > head {
        ConsecutiveTicketsDistinctSlots(n, tail - n, head, p);
      }
    }
  }

  /** An empty queue: the head's slot is one cycle behind and free. */
  lemma HeadSlotEmpty(n: nat, head: nat, tail: nat, slots: seq<Slot>)
    requires Holds(n, head, tail, [], slots)
    ensures slots[SlotOf(n, head)] == Slot(Cycle(n, head) - 1, true, None) && Cycle(n, head) > 0
  {
    NextRound(n, head - n);
    assert slots[SlotOf(n, head - n)] == Want(n, head, tail, [], head - n);
  }

  lemma AdvanceHolds(n: nat, head: nat, tail: nat, slots: seq<Slot>)
    requires Holds(n, head, tail, [], slots)
    ensures Holds(n, head + 1, tail, [], slots[SlotOf(n, head) := Slot(Cycle(n, head), true, None)])
  {
    var slots' := slots[SlotOf(n, head) := Slot(Cycle(n, head), true, None)];
    forall p | head + 1 - n <= p < head + 1
      ensures slots'[SlotOf(n, p)] == Want(n, head + 1, tail, [], p)
    {
      if p != head {
        ConsecutiveTicketsDistinctSlots(n, head + 1 - n, p, head);
        assert slots[SlotOf(n, p)] == Want(n, head, tail, [], p);
      }
    }
  }

  /** The tail may move up to the head of an empty queue. */
  lemma CatchUpHolds(n: nat, head: nat, tail: nat, tail': nat, slots: seq<Slot>)
    requires Holds(n, head, tail, [], slots) && tail <= tail' <= head
    ensures Holds(n, head, tail', [], slots)
  {
    forall p | head - n <= p < head ensures slots[SlotOf(n, p)] == Want(n, head, tail', [], p) {
      assert slots[SlotOf(n, p)] == Want(n, head, tail, [], p);
    }
  }

  /** An empty queue has no payload in any slot. */
  lemma EmptyMeansBare(n: nat, head: nat, tail: nat, slots: seq<Slot>, j: nat)
    requires Holds(n, head, tail, [], slots) && j < n
    ensures slots[j].ptr == None
  {
    var p := TicketOfSlot(n, Max(head, tail) - n, j);
    assert slots[SlotOf(n, p)] == Want(n, head, tail, [], p);
  }
}
