/** The pointer ring called by one thread at a time, in both of its modes: the slot
    holds the pointer itself, or an index into a side array of pointers.  Compare-and-swap
    on a word nobody else touches succeeds, so each is written as the store it makes. */
module Scqp {
  import opened Ring
  import opened RingState
  import opened MachineWord

  /** A slot of the index mode; None is the empty index. */
  datatype IndexSlot = IndexSlot(cycle: nat, safe: bool, index: Option<nat>)

  predicate QueueIsFull(head: nat, tail: nat, n: nat) {
    tail >= head && tail - head >= n
  }

  class Queue {
    const n: nat
    const fallback: bool
    const entriesP: array<Slot>
    const entriesI: array<IndexSlot>
    const ptrs: array<Option<nat>>
    var head: nat
    var tail: nat
    var threshold: int
    var deqSuccess: nat
    var enqSuccess: nat
    ghost var contents: seq<nat>
    ghost var slots: seq<Slot>

    function Reset(): int {
      2 * n - 1
    }

    ghost function Words(): (nat, nat, int, nat, nat)
      reads this
    {
      (head, tail, threshold, deqSuccess, enqSuccess)
    }

    /** The arrays store the abstract slots.  In index mode a used slot names its own
        entry of the side array, which holds the pointer, and a free one has none. */
    ghost predicate Stored()
      reads this, entriesP, entriesI, ptrs
    {
      if fallback then
        && |slots| == entriesI.Length == ptrs.Length
        && forall j :: 0 <= j < |slots| ==>
             && entriesI[j] == IndexSlot(slots[j].cycle, slots[j].safe, if slots[j].ptr.Some? then Some(j) else None)
             && ptrs[j] == slots[j].ptr
      else entriesP[..] == slots
    }

    /** The slots and counters fit the contents for the given head and tail. */
    ghost predicate ValidAt(h: nat, t: nat)
      reads this, entriesP, entriesI, ptrs
    {
      && Holds(n, h, t, contents, slots)
      && enqSuccess == deqSuccess + |contents|
      && Stored()
    }

    ghost predicate Valid()
      reads this, entriesP, entriesI, ptrs
    {
      ValidAt(head, tail)
    }

    /** The threshold law: it counts down by how far the head is ahead of the tail. */
    ghost predicate Exact()
      reads this
    {
      && threshold == Reset() - (if head > tail then head - tail else 0)
      && head <= tail + Reset() - 1
    }

    ghost predicate Fresh()
      reads this, entriesP, entriesI, ptrs
    {
      && head == tail == n && threshold == Reset() && deqSuccess == enqSuccess == 0
      && contents == [] && slots == Blank(n) && Stored()
    }

    lemma FreshIsValid()
      requires RingSize(n) && Fresh()
      ensures Valid() && Exact()
    {
      BlankHolds(n);
    }

    constructor (scqsize: nat, forceFallback: bool)
      requires scqsize <= HALF
      ensures Valid() && Exact() && Fresh() && fallback == forceFallback
      ensures n >= 4 && n >= scqsize && IsPow2(n) && (scqsize > 4 ==> n < 2 * scqsize)
      ensures fresh(entriesP) && fresh(entriesI) && fresh(ptrs)
    {
      var size := if scqsize < 4 then 4 else scqsize;
      size := RoundUpPow2(size);
      n, fallback := size, forceFallback;
      entriesP := new Slot[if forceFallback then 0 else size](_ => Slot(0, true, None));
      entriesI := new IndexSlot[if forceFallback then size else 0](_ => IndexSlot(0, true, None));
      ptrs := new Option<nat>[if forceFallback then size else 0](_ => None);
      head, tail, threshold, deqSuccess, enqSuccess := size, size, 2 * size - 1, 0, 0;
      contents, slots := [], Blank(size);
      new;
      LargePowerIsRing(n);
      FreshIsValid();
    }

    method Enqueue(ptr: Option<nat>) returns (ok: bool)
      requires Valid()
      modifies this, entriesP, entriesI, ptrs
      ensures Valid() && (old(Exact()) ==> Exact())
      ensures ok <==> ptr.Some? && |old(contents)| < n
      ensures contents == if ok then old(contents) + [ptr.value] else old(contents)
      ensures !ok ==> slots == old(slots) && Words() == old(Words())
    {
      match ptr
      case None => return false;
      case Some(p) =>
        if fallback {
          ok := EnqueueIndex(p);
        } else {
          ok := EnqueuePtr(p);
        }
    }

    method Dequeue() returns (r: Option<nat>)
      requires Valid()
      modifies this, entriesP, entriesI, ptrs
      ensures Valid() && (old(Exact()) ==> Exact())
      ensures r == None <==> old(contents) == []
      ensures r.Some? ==> [r.value] + contents == old(contents)
      ensures r.None? ==> contents == []
      ensures old(Exact()) && r.None? ==> (tail != old(tail) <==> old(head) - old(tail) == Reset() - 1)
    {
      if fallback {
        r := DequeueIndex();
      } else {
        r := DequeuePtr();
      }
    }

    method EnqueuePtr(p: nat) returns (ok: bool)
      requires Valid() && !fallback
      modifies this, entriesP
      ensures Valid() && (old(Exact()) ==> Exact())
      ensures ok <==> |old(contents)| < n
      ensures contents == if ok then old(contents) + [p] else old(contents)
      ensures !ok ==> slots == old(slots) && Words() == old(Words())
    {
      while true
        invariant Valid() && contents == old(contents)
        invariant slots == old(slots)
        invariant deqSuccess == old(deqSuccess) && enqSuccess == old(enqSuccess) && head == old(head)
        invariant threshold == old(threshold)
        invariant tail == old(tail) || (old(tail) < tail <= head && contents == [])
        decreases head - tail
      {
        if QueueIsFull(deqSuccess, enqSuccess, n) {
          return false;
        }
        var t := tail;
        tail := tail + 1;
        var stored := StorePtr(t, p);
        if stored {
          return true;
        }
      }
    }

    /** One round of the enqueue loop, with ticket t: it stores unless the head has
        already passed the ticket. */
    method StorePtr(t: nat, p: nat) returns (stored: bool)
      requires ValidAt(head, t) && tail == t + 1 && !fallback && |contents| < n
      modifies this, entriesP
      ensures Valid() && head == old(head) && tail == old(tail) && deqSuccess == old(deqSuccess)
      ensures stored <==> t >= head
      ensures stored ==> contents == old(contents) + [p] && threshold == Reset()
      ensures !stored ==> Words() == old(Words()) && contents == [] && slots == old(slots)
    {
      var cycleT := Cycle(n, t);
      var j := SlotOf(n, t);
      if t < head {
        BehindHead(n, head, t, contents, slots);
        CatchUpHolds(n, head, t, t + 1, slots);
      } else {
        TailSlot(n, head, t, contents, slots);
        EnqueueHolds(n, head, t, contents, slots, p);
      }
      var ent := entriesP[j];
      stored := false;
      if ent.cycle < cycleT && ent.ptr == None {
        if ent.safe || head <= t {
          entriesP[j] := Slot(cycleT, true, Some(p));
          slots := slots[j := Slot(cycleT, true, Some(p))];
          if threshold != Reset() {
            threshold := Reset();
          }
          enqSuccess := enqSuccess + 1;
          contents := contents + [p];
          stored := true;
        }
      }
    }

    method EnqueueIndex(p: nat) returns (ok: bool)
      requires Valid() && fallback
      modifies this, entriesI, ptrs
      ensures Valid() && (old(Exact()) ==> Exact())
      ensures ok <==> |old(contents)| < n
      ensures contents == if ok then old(contents) + [p] else old(contents)
      ensures !ok ==> slots == old(slots) && Words() == old(Words())
    {
      while true
        invariant Valid() && contents == old(contents)
        invariant slots == old(slots)
        invariant deqSuccess == old(deqSuccess) && enqSuccess == old(enqSuccess) && head == old(head)
        invariant threshold == old(threshold)
        invariant tail == old(tail) || (old(tail) < tail <= head && contents == [])
        decreases head - tail
      {
        if QueueIsFull(deqSuccess, enqSuccess, n) {
          return false;
        }
        var t := tail;
        tail := tail + 1;
        var stored := StoreIndex(t, p);
        if stored {
          return true;
        }
      }
    }

    /** One round of the enqueue loop, with ticket t: it stores unless the head has
        already passed the ticket. */
    method StoreIndex(t: nat, p: nat) returns (stored: bool)
      requires ValidAt(head, t) && tail == t + 1 && fallback && |contents| < n
      modifies this, entriesI, ptrs
      ensures Valid() && head == old(head) && tail == old(tail) && deqSuccess == old(deqSuccess)
      ensures stored <==> t >= head
      ensures stored ==> contents == old(contents) + [p] && threshold == Reset()
      ensures !stored ==> Words() == old(Words()) && contents == [] && slots == old(slots)
    {
      var cycleT := Cycle(n, t);
      var j := SlotOf(n, t);
      if t < head {
        BehindHead(n, head, t, contents, slots);
        CatchUpHolds(n, head, t, t + 1, slots);
      } else {
        TailSlot(n, head, t, contents, slots);
        EnqueueHolds(n, head, t, contents, slots, p);
      }
      var ent := entriesI[j];
      stored := false;
      if ent.cycle < cycleT && ent.index == None {
        if ent.safe || head <= t {
          // the side array's entry is free, so its compare-and-swap succeeds
          assert ptrs[j] == None;
          ptrs[j] := Some(p);
          entriesI[j] := IndexSlot(cycleT, true, Some(j));
          slots := slots[j := Slot(cycleT, true, Some(p))];
          if threshold != Reset() {
            threshold := Reset();
          }
          enqSuccess := enqSuccess + 1;
          contents := contents + [p];
          stored := true;
        }
      }
    }

    /** After an empty attempt: penalise the threshold, and bring the tail up when the
        head has run too far ahead. */
    method Penalise()
      requires Valid() && contents == [] && head > tail
      modifies this
      ensures Valid() && contents == [] && head == old(head)
      ensures deqSuccess == old(deqSuccess) && enqSuccess == old(enqSuccess)
      ensures tail == if old(threshold) <= 1 && head - old(tail) > n then head else old(tail)
      ensures threshold == if tail == old(tail) then old(threshold) - 1 else Reset()
    {
      threshold := threshold - 1;
      if threshold <= 0 {
        if head > tail && head - tail > n {
          FixState();
          threshold := Reset();
        }
      }
    }

    /** fixState, whose compare-and-swap succeeds at once. */
    method FixState()
      requires Valid()
      modifies this`tail
      ensures Valid() && tail == if head > old(tail) + n then head else old(tail)
    {
      if head <= tail || head - tail <= n {
        return;
      }
      CatchUpHolds(n, head, tail, head, slots);
      tail := head;
    }

    method DequeuePtr() returns (r: Option<nat>)
      requires Valid() && !fallback
      modifies this, entriesP
      ensures Valid() && (old(Exact()) ==> Exact())
      ensures r == None <==> old(contents) == []
      ensures r.Some? ==> [r.value] + contents == old(contents)
      ensures r.None? ==> contents == []
      ensures old(Exact()) && r.None? ==> (tail != old(tail) <==> old(head) - old(tail) == Reset() - 1)
    {
      if threshold < 0 {
        if tail > head {
          threshold := Reset();
        } else {
          return None;
        }
      }
      var h := head;
      head := head + 1;
      r := TakePtr(h);
      if r.None? {
        // a failed attempt has always reached the tail: there is no second round
        assert tail <= h + 1;
        Penalise();
      }
    }

    /** The slot work of a dequeue with ticket h. */
    method TakePtr(h: nat) returns (r: Option<nat>)
      requires ValidAt(h, tail) && head == h + 1 && !fallback
      modifies this, entriesP
      ensures Valid() && head == old(head) && tail == old(tail) && threshold == old(threshold)
      ensures r == None <==> old(contents) == []
      ensures r.Some? ==> [r.value] + contents == old(contents)
      ensures r.None? ==> contents == []
    {
      var cycleH := Cycle(n, h);
      var j := SlotOf(n, h);
      if contents != [] {
        HeadSlot(n, h, tail, contents, slots);
        TakeHolds(n, h, tail, contents, slots);
      } else {
        HeadSlotEmpty(n, h, tail, slots);
        AdvanceHolds(n, h, tail, slots);
      }
      var ent := entriesP[j];
      r := None;
      if ent.cycle == cycleH {
        r := ent.ptr;
        if r.Some? {
          // no slot is unsafe between calls, so the retry valve is never needed
          assert ent.safe;
          entriesP[j] := entriesP[j].(ptr := None);
          slots := slots[j := Slot(cycleH, true, None)];
          deqSuccess := deqSuccess + 1;
          contents := contents[1..];
        }
      } else {
        var desired := if ent.ptr == None then Slot(cycleH, ent.safe, None) else Slot(ent.cycle, false, ent.ptr);
        if ent.cycle < cycleH {
          entriesP[j] := desired;
          slots := slots[j := Slot(cycleH, true, None)];
        }
      }
    }

    method DequeueIndex() returns (r: Option<nat>)
      requires Valid() && fallback
      modifies this, entriesI, ptrs
      ensures Valid() && (old(Exact()) ==> Exact())
      ensures r == None <==> old(contents) == []
      ensures r.Some? ==> [r.value] + contents == old(contents)
      ensures r.None? ==> contents == []
      ensures old(Exact()) && r.None? ==> (tail != old(tail) <==> old(head) - old(tail) == Reset() - 1)
    {
      if threshold < 0 {
        if tail > head {
          threshold := Reset();
        } else {
          return None;
        }
      }
      var h := head;
      head := head + 1;
      r := TakeIndex(h);
      if r.None? {
        // a failed attempt has always reached the tail: there is no second round
        assert tail <= h + 1;
        Penalise();
      }
    }

    /** The slot work of a dequeue with ticket h. */
    method TakeIndex(h: nat) returns (r: Option<nat>)
      requires ValidAt(h, tail) && head == h + 1 && fallback
      modifies this, entriesI, ptrs
      ensures Valid() && head == old(head) && tail == old(tail) && threshold == old(threshold)
      ensures r == None <==> old(contents) == []
      ensures r.Some? ==> [r.value] + contents == old(contents)
      ensures r.None? ==> contents == []
    {
      var cycleH := Cycle(n, h);
      var j := SlotOf(n, h);
      if contents != [] {
        HeadSlot(n, h, tail, contents, slots);
        TakeHolds(n, h, tail, contents, slots);
      } else {
        HeadSlotEmpty(n, h, tail, slots);
        AdvanceHolds(n, h, tail, slots);
      }
      var ent := entriesI[j];
      r := None;
      if ent.cycle == cycleH {
        if ent.index.Some? {
          assert ent.safe && ent.index.value == j;
          r := ptrs[ent.index.value];
          ptrs[ent.index.value] := None;
          entriesI[j] := entriesI[j].(index := None);
          slots := slots[j := Slot(cycleH, true, None)];
          deqSuccess := deqSuccess + 1;
          contents := contents[1..];
        }
      } else {
        var desired :=
          if ent.index == None then IndexSlot(cycleH, ent.safe, None) else IndexSlot(ent.cycle, false, ent.index);
        if ent.cycle < cycleH {
          entriesI[j] := desired;
          slots := slots[j := Slot(cycleH, true, None)];
        }
      }
    }

    method IsEmpty() returns (empty: bool)
      requires Valid()
      ensures empty <==> contents == []
    {
      empty := enqSuccess <= deqSuccess;
    }

    /** Whether no slot has a payload left behind. */
    method NoResidue() returns (clean: bool)
      requires Valid()
      ensures clean <==> forall j :: 0 <= j < n ==> slots[j].ptr == None
    {
      clean := true;
      var i := 0;
      while i < n
        invariant 0 <= i <= n && (clean <==> forall j :: 0 <= j < i ==> slots[j].ptr == None)
      {
        if fallback {
          if entriesI[i].index != None || ptrs[i] != None {
            clean := false;
          }
        } else if entriesP[i].ptr != None {
          clean := false;
        }
        i := i + 1;
      }
    }

    /** Wipe the slots. */
    method Wipe()
      requires Valid()
      modifies this`slots, entriesP, entriesI, ptrs
      ensures slots == Blank(n) && Stored()
    {
      var i := 0;
      if fallback {
        while i < n
          invariant 0 <= i <= n
          invariant forall j :: 0 <= j < i ==> entriesI[j] == IndexSlot(0, true, None) && ptrs[j] == None
        {
          entriesI[i] := IndexSlot(0, true, None);
          ptrs[i] := None;
          i := i + 1;
        }
      } else {
        while i < n
          invariant 0 <= i <= n
          invariant forall j :: 0 <= j < i ==> entriesP[j] == Slot(0, true, None)
        {
          entriesP[i] := Slot(0, true, None);
          i := i + 1;
        }
      }
      slots := Blank(n);
    }

    /** An empty queue is reset to a state no caller can tell from a new one; any other
        is left alone. */
    method ResetForReuse() returns (ok: bool)
      requires Valid()
      modifies this, entriesP, entriesI, ptrs
      ensures Valid() && contents == old(contents) && (ok <==> contents == [])
      ensures ok ==> Fresh() && Exact()
      ensures !ok ==> slots == old(slots) && Words() == old(Words())
    {
      ok := IsEmpty();
      if ok {
        ok := NoResidue();
        forall j | 0 <= j < n ensures slots[j].ptr == None {
          EmptyMeansBare(n, head, tail, slots, j);
        }
        if ok {
          Wipe();
          head, tail, threshold, deqSuccess, enqSuccess := n, n, Reset(), 0, 0;
          FreshIsValid();
        }
      }
    }
  }
  // ----- whole runs -----

  datatype Call = Put(ptr: Option<nat>) | Get | Renew

  datatype Reply = Accepted(ok: bool) | Got(r: Option<nat>)

  /** A bounded FIFO of the given capacity. */
  function FifoAfter(capacity: nat, calls: seq<Call>): seq<nat> {
    if calls == [] then []
    else FifoNext(capacity, FifoAfter(capacity, calls[..|calls| - 1]), calls[|calls| - 1])
  }

  function FifoReply(capacity: nat, before: seq<nat>, call: Call): Reply {
    match call
    case Put(ptr) => Accepted(ptr.Some? && |before| < capacity)
    case Get => Got(if before == [] then None else Some(before[0]))
    case Renew => Accepted(before == [])
  }

  function FifoReplies(capacity: nat, calls: seq<Call>): seq<Reply> {
    if calls == [] then []
    else
      FifoReplies(capacity, calls[..|calls| - 1])
      + [FifoReply(capacity, FifoAfter(capacity, calls[..|calls| - 1]), calls[|calls| - 1])]
  }

  function FifoNext(capacity: nat, before: seq<nat>, call: Call): seq<nat> {
    match call
    case Put(ptr) => if ptr.Some? && |before| < capacity then before + [ptr.value] else before
    case Get => if before == [] then [] else before[1..]
    case Renew => before
  }

  method Answer(q: Queue, call: Call) returns (reply: Reply)
    requires q.Valid() && q.Exact()
    modifies q, q.entriesP, q.entriesI, q.ptrs
    ensures q.Valid() && q.Exact()
    ensures q.contents == FifoNext(q.n, old(q.contents), call) && reply == FifoReply(q.n, old(q.contents), call)
  {
    match call
    case Put(ptr) =>
      var ok := q.Enqueue(ptr);
      reply := Accepted(ok);
    case Get =>
      var r := q.Dequeue();
      reply := Got(r);
    case Renew =>
      var ok := q.ResetForReuse();
      reply := Accepted(ok);
  }

  /** Any sequence of calls on a new queue, in either mode, is answered as by a bounded
      FIFO whose capacity is the rounded ring size, and leaves the ring's words under the
      threshold law. */
  method Serve(scqsize: nat, fallback: bool, calls: seq<Call>)
    returns (capacity: nat, replies: seq<Reply>, head: nat, tail: nat, threshold: int)
    requires scqsize <= HALF
    ensures IsPow2(capacity) && capacity >= 4 && capacity >= scqsize && (scqsize > 4 ==> capacity < 2 * scqsize)
    ensures replies == FifoReplies(capacity, calls)
    ensures threshold == 2 * capacity - 1 - (if head > tail then head - tail else 0) && 0 < threshold
  {
    var q := new Queue(scqsize, fallback);
    capacity := q.n;
    replies := [];
    var i := 0;
    while i < |calls|
      invariant 0 <= i <= |calls| && q.Valid() && q.Exact() && q.n == capacity
      invariant fresh(q) && fresh(q.entriesP) && fresh(q.entriesI) && fresh(q.ptrs)
      invariant q.contents == FifoAfter(capacity, calls[..i])
      invariant replies == FifoReplies(capacity, calls[..i])
    {
      assert calls[..i + 1][..i] == calls[..i];
      var reply := Answer(q, calls[i]);
      replies := replies + [reply];
      i := i + 1;
    }
    assert calls[..i] == calls;
    head, tail, threshold := q.head, q.tail, q.threshold;
  }
}
