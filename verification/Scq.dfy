/** The index ring called by one thread at a time.  A slot is emptied by OR-ing its
    index with bottom, the largest index of the ring. */
module Scq {
  import opened Ring
  import opened RingState
  import opened MachineWord

  datatype Entry = Entry(cycle: nat, safe: bool, index: nat)

  /** On a full ring no ticket, however late, finds a free slot: the enqueue loop would
      never end, so "not full" is exactly what a caller has to ensure. */
  lemma FullRefusesEveryTicket(n: nat, head: nat, tail: nat, contents: seq<nat>, slots: seq<Slot>, t: nat)
    requires Holds(n, head, tail, contents, slots)
    ensures |contents| == n ==> slots[SlotOf(n, t)].ptr.Some?
  {
    if |contents| == n {
      var p := TicketOfSlot(n, head, SlotOf(n, t));
      assert slots[SlotOf(n, p)] == Want(n, head, tail, contents, p);
    }
  }

  class Queue {
    const n: nat
    const bottom: nat
    const entries: array<Entry>
    var head: nat
    var tail: nat
    var threshold: int
    ghost var contents: seq<nat>
    ghost var slots: seq<Slot>

    function Reset(): int {
      n + n / 2 - 1
    }

    /** The array stores the abstract slots, with bottom for an empty one. */
    ghost predicate Stored()
      reads this, entries
    {
      && |slots| == entries.Length
      && forall j :: 0 <= j < |slots| ==>
           entries[j] == Entry(slots[j].cycle, slots[j].safe, if slots[j].ptr.Some? then slots[j].ptr.value else bottom)
    }

    ghost predicate ValidAt(h: nat, t: nat)
      reads this, entries
    {
      && IsPow2(n) && bottom == n - 1
      && Holds(n, h, t, contents, slots)
      && (forall j :: 0 <= j < |slots| && slots[j].ptr.Some? ==> slots[j].ptr.value < bottom)
      && Stored()
    }

    ghost predicate Valid()
      reads this, entries
    {
      ValidAt(head, tail)
    }

    /** The threshold law: it counts down by how far the head is ahead of the tail. */
    ghost predicate Exact()
      reads this
    {
      && threshold == Reset() - (if head > tail then head - tail else 0)
      && head <= tail + Reset() - 1
    }

    constructor (scqsize: nat)
      requires scqsize <= HALF
      ensures Valid() && Exact() && contents == [] && fresh(entries)
      ensures n >= 4 && n >= scqsize && IsPow2(n) && (scqsize > 4 ==> n < 2 * scqsize)
    {
      var size := if scqsize < 4 then 4 else scqsize;
      size := RoundUpPow2(size);
      n, bottom := size, size - 1;
      entries := new Entry[size](_ => Entry(0, true, size - 1));
      head, tail, threshold := size, size, size + size / 2 - 1;
      contents, slots := [], Blank(size);
      new;
      LargePowerIsRing(n);
      BlankHolds(n);
    }

    /** How many tickets the head has taken from under the tail. */
    function Behind(): nat
      reads this
    {
      if head > tail then head - tail else 0
    }

    /** Enqueue, watched for a number of rounds of its loop; None when it has not ended by
        then.  It ends at once for a value the ring cannot store, and otherwise as soon as
        its tickets have caught up with the head, unless the ring is full: then it never
        ends, and only draws tickets. */
    method Enqueue(value: nat, rounds: nat) returns (r: Option<bool>)
      requires Valid()
      modifies this, entries
      ensures r == Some(false) <==> value >= n - 1
      ensures r == Some(true) <==> value < n - 1 && |old(contents)| < n && rounds > old(Behind())
      ensures contents == if r == Some(true) then old(contents) + [value] else old(contents)
      ensures r.Some? ==> Valid() && (old(Exact()) ==> Exact())
      ensures r != Some(true) ==> entries[..] == old(entries[..]) && slots == old(slots) && head == old(head)
      ensures r != Some(true) ==> threshold == old(threshold) && tail == old(tail) + (if r.None? then rounds else 0)
    {
      if value >= bottom {
        return Some(false);
      }
      var ok, round := false, 0;
      while round < rounds && !ok
        invariant round <= rounds && head == old(head)
        invariant ok ==> Valid() && contents == old(contents) + [value] && threshold == Reset() && tail > head
        invariant ok ==> |old(contents)| < n && round > old(Behind())
        invariant !ok ==> ValidAt(head, if |contents| < n then tail else old(tail))
        invariant !ok ==> contents == old(contents) && slots == old(slots) && entries[..] == old(entries[..])
        invariant !ok ==> threshold == old(threshold) && tail == old(tail) + round
        invariant !ok && |contents| < n ==> round <= old(Behind())
      {
        var t := tail;
        tail := tail + 1;
        ok := Store(t, value, old(tail));
        round := round + 1;
      }
      r := if ok then Some(true) else None;
    }

    /** One round of the enqueue loop, with ticket t: it stores unless the ring is full or
        the head has already passed the ticket. */
    method Store(t: nat, value: nat, ghost base: nat) returns (stored: bool)
      requires ValidAt(head, if |contents| < n then t else base) && tail == t + 1 && value < bottom
      modifies this, entries
      ensures head == old(head) && tail == old(tail)
      ensures ValidAt(head, if |old(contents)| < n then tail else base)
      ensures stored <==> t >= head && |old(contents)| < n
      ensures stored ==> contents == old(contents) + [value] && threshold == Reset()
      ensures !stored ==> threshold == old(threshold) && contents == old(contents)
      ensures !stored ==> slots == old(slots) && entries[..] == old(entries[..])
    {
      var cycleT := Cycle(n, t);
      var j := SlotOf(n, t);
      if |contents| >= n {
        FullRefusesEveryTicket(n, head, base, contents, slots, t);
      } else if t < head {
        BehindHead(n, head, t, contents, slots);
        CatchUpHolds(n, head, t, t + 1, slots);
      } else {
        TailSlot(n, head, t, contents, slots);
        EnqueueHolds(n, head, t, contents, slots, value);
      }
      var ent := entries[j];
      stored := false;
      if ent.cycle < cycleT && ent.index == bottom {
        if ent.safe || head <= t {
          entries[j] := Entry(cycleT, true, value);
          slots := slots[j := Slot(cycleT, true, Some(value))];
          if threshold != Reset() {
            threshold := Reset();
          }
          contents := contents + [value];
          stored := true;
        }
      }
    }

    method FixState()
      requires Valid()
      modifies this`tail
      ensures Valid() && tail == if head > old(tail) + n then head else old(tail)
    {
      if head <= tail || head - tail <= n {
        return;
      }
      CatchUpHolds(n, head, tail, head, slots);
      tail := head;
    }

    /** After an empty attempt. */
    method Penalise()
      requires Valid() && contents == [] && head > tail
      modifies this
      ensures Valid() && contents == [] && head == old(head)
      ensures tail == if old(threshold) <= 1 && head - old(tail) > n then head else old(tail)
      ensures threshold == if tail == old(tail) then old(threshold) - 1 else Reset()
    {
      threshold := threshold - 1;
      if threshold <= 0 {
        // with one thread the tail is never ahead here, so the reset without repair is not needed
        if head > tail && head - tail > n {
          FixState();
          threshold := Reset();
        }
      }
    }

    /** None stands for kEmpty. */
    method Dequeue() returns (r: Option<nat>)
      requires Valid()
      modifies this, entries
      ensures Valid() && (old(Exact()) ==> Exact())
      ensures r == None <==> old(contents) == []
      ensures r.Some? ==> [r.value] + contents == old(contents)
      ensures r.None? ==> contents == []
      ensures old(Exact()) && r.None? ==> (tail != old(tail) <==> old(head) - old(tail) == Reset() - 1)
    {
      if threshold < 0 {
        if tail > head {
          threshold := Reset();
        } else {
          return None;
        }
      }
      var h := head;
      head := head + 1;
      r := Take(h);
      if r.None? {
        // a failed attempt has always reached the tail: there is no second round
        assert tail <= h + 1;
        Penalise();
      }
    }

    /** The slot work of a dequeue with ticket h; consuming ORs the index with bottom. */
    method Take(h: nat) returns (r: Option<nat>)
      requires ValidAt(h, tail) && head == h + 1
      modifies this, entries
      ensures Valid() && head == old(head) && tail == old(tail) && threshold == old(threshold)
      ensures r == None <==> old(contents) == []
      ensures r.Some? ==> [r.value] + contents == old(contents)
      ensures r.None? ==> contents == []
    {
      var cycleH := Cycle(n, h);
      var j := SlotOf(n, h);
      if contents != [] {
        HeadSlot(n, h, tail, contents, slots);
        TakeHolds(n, h, tail, contents, slots);
      } else {
        HeadSlotEmpty(n, h, tail, slots);
        AdvanceHolds(n, h, tail, slots);
      }
      var ent := entries[j];
      r := None;
      if ent.cycle == cycleH {
        // no slot is unsafe between calls, so there is no spinning on one
        assert ent.safe;
        if ent.index != bottom {
          OrConsumes(n, ent.index);
          entries[j] := entries[j].(index := Or(ent.index, bottom));
          slots := slots[j := Slot(cycleH, true, None)];
          contents := contents[1..];
          r := Some(ent.index);
        }
      } else {
        var desired :=
          if ent.index == bottom then Entry(cycleH, ent.safe, bottom) else Entry(ent.cycle, false, ent.index);
        if ent.cycle < cycleH {
          entries[j] := desired;
          slots := slots[j := Slot(cycleH, true, None)];
        }
      }
    }

    method IsEmpty() returns (empty: bool)
      requires Valid()
      ensures empty <==> contents == []
    {
      empty := head >= tail;
    }
  }

  lemma OrConsumes(n: nat, v: nat)
    requires IsPow2(n) && v < n
    ensures Or(v, n - 1) == n - 1
  {
    var k: nat :| n == Pow2(k);
    OrWithBottom(v, k);
  }

  // ----- whole runs -----

  datatype Call = Put(value: nat) | Get

  datatype Reply = Accepted(ok: bool) | Got(r: Option<nat>)

  function FifoNext(n: nat, before: seq<nat>, call: Call): seq<nat> {
    match call
    case Put(value) => if value < n - 1 then before + [value] else before
    case Get => if before == [] then [] else before[1..]
  }

  function FifoReply(n: nat, before: seq<nat>, call: Call): Reply {
    match call
    case Put(value) => Accepted(value < n - 1)
    case Get => Got(if before == [] then None else Some(before[0]))
  }

  function FifoAfter(n: nat, calls: seq<Call>): seq<nat> {
    if calls == [] then [] else FifoNext(n, FifoAfter(n, calls[..|calls| - 1]), calls[|calls| - 1])
  }

  function FifoReplies(n: nat, calls: seq<Call>): seq<Reply> {
    if calls == [] then []
    else
      FifoReplies(n, calls[..|calls| - 1])
      + [FifoReply(n, FifoAfter(n, calls[..|calls| - 1]), calls[|calls| - 1])]
  }

  method Answer(q: Queue, call: Call) returns (reply: Reply)
    requires q.Valid() && q.Exact() && (call.Put? && call.value < q.n - 1 ==> |q.contents| < q.n)
    modifies q, q.entries
    ensures q.Valid() && q.Exact()
    ensures q.contents == FifoNext(q.n, old(q.contents), call) && reply == FifoReply(q.n, old(q.contents), call)
  {
    match call
    case Put(value) =>
      var r := q.Enqueue(value, q.Behind() + 1);
      reply := Accepted(r.value);
    case Get =>
      var r := q.Dequeue();
      reply := Got(r);
  }

  /** Calls are answered as by a FIFO for as long as no enqueue of a storable value meets a full
      ring; `served` is how many calls came before such an enqueue, all of them if there was none.
      The ring's words are left under the threshold law. */
  method Serve(scqsize: nat, calls: seq<Call>)
    returns (n: nat, served: nat, replies: seq<Reply>, head: nat, tail: nat, threshold: int)
    requires scqsize <= HALF
    ensures IsPow2(n) && n >= 4 && n >= scqsize && (scqsize > 4 ==> n < 2 * scqsize)
    ensures served <= |calls| && replies == FifoReplies(n, calls[..served])
    ensures served < |calls| ==>
              calls[served].Put? && calls[served].value < n - 1 && |FifoAfter(n, calls[..served])| == n
    ensures threshold == n + n / 2 - 1 - (if head > tail then head - tail else 0) && 0 < threshold
  {
    var q := new Queue(scqsize);
    n := q.n;
    replies, served := [], 0;
    while served < |calls|
      invariant 0 <= served <= |calls| && q.Valid() && q.Exact() && q.n == n
      invariant fresh(q) && fresh(q.entries)
      invariant q.contents == FifoAfter(n, calls[..served])
      invariant replies == FifoReplies(n, calls[..served])
    {
      assert calls[..served + 1][..served] == calls[..served];
      if calls[served].Put? && calls[served].value < n - 1 && q.tail >= q.head + n {
        break;
      }
      var reply := Answer(q, calls[served]);
      replies := replies + [reply];
      served := served + 1;
    }
    head, tail, threshold := q.head, q.tail, q.threshold;
  }
}
