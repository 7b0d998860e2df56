/** Linearizability against a first-in first-out queue.

    A run keeps a log of the operations that changed the queue, in the order in
    which they took effect, and a record of every completed call.  A call is
    placed by its point in the log; a dequeue that found nothing is placed
    between two entries, where the queue was empty.  Conversely every entry of
    the log is the effect of exactly one call, completed or still open. */
module FifoHistory {
  import opened Ring

  type Value = nat

  datatype Op = Enq(v: Value) | Deq(v: Value)

  /** The queue after replaying the log; None when some dequeue was not due. */
  function Contents(log: seq<Op>): Option<seq<Value>> {
    if log == [] then Some([])
    else
      var q := Contents(log[..|log| - 1]);
      var op := log[|log| - 1];
      if q.None? then None
      else if op.Enq? then Some(q.value + [op.v])
      else if q.value != [] && q.value[0] == op.v then Some(q.value[1..])
      else None
  }

  /** A completed call: log length at its invocation and at its return, and the
      index of its effect, or the log length at which the queue was seen empty. */
  datatype Call =
    | Effect(op: Op, invoked: nat, at: nat, returned: nat)
    | SeenEmpty(invoked: nat, at: nat, returned: nat)

  ghost predicate CallOk(log: seq<Op>, c: Call) {
    match c
    case Effect(op, i, a, r) => i <= a < r <= |log| && log[a] == op
    case SeenEmpty(i, a, r) => i <= a <= r <= |log| && Contents(log[..a]) == Some([])
  }

  /** The completed calls have their places in a log that replays. */
  ghost predicate Placed(log: seq<Op>, calls: seq<Call>) {
    && Contents(log).Some?
    && (forall k :: 0 <= k < |calls| ==> CallOk(log, calls[k]))
    && (forall k, m :: 0 <= k < m < |calls| && calls[k].Effect? && calls[m].Effect? ==>
          calls[k].at != calls[m].at)
  }

  /** A call that has taken effect and not yet returned. */
  datatype Open = Open(op: Op, invoked: nat, at: nat)

  ghost predicate OpenOk(log: seq<Op>, o: Open) {
    o.invoked <= o.at < |log| && log[o.at] == o.op
  }

  ghost predicate CompletedAt(calls: seq<Call>, a: nat) {
    exists k :: 0 <= k < |calls| && calls[k].Effect? && calls[k].at == a
  }

  ghost predicate OpenAt(open: seq<Option<Open>>, a: nat) {
    exists i :: 0 <= i < |open| && open[i].Some? && open[i].value.at == a
  }

  /** Every entry of the log is the effect of some call. */
  ghost predicate Covered(log: seq<Op>, calls: seq<Call>, open: seq<Option<Open>>) {
    forall a: nat :: a < |log| ==> CompletedAt(calls, a) || OpenAt(open, a)
  }

  /** The log is a sequential FIFO history of the calls: each completed call has its place
      in it between invocation and return, and the entries are in bijection with the
      completed effects and those of the open calls, of which each thread has at most one. */
  ghost predicate Linearizable(log: seq<Op>, calls: seq<Call>, open: seq<Option<Open>>) {
    && Placed(log, calls) && Covered(log, calls, open)
    && (forall i :: 0 <= i < |open| && open[i].Some? ==>
          OpenOk(log, open[i].value) && !CompletedAt(calls, open[i].value.at))
    && (forall i, m :: 0 <= i < m < |open| && open[i].Some? && open[m].Some? ==>
          open[i].value.at != open[m].value.at)
  }

  /** With no call open the entries of the log are in bijection with the completed
      effects: f names the call of each entry, and every effect is the one of its entry. */
  lemma {:induction false} QuietBijection(log: seq<Op>, calls: seq<Call>, open: seq<Option<Open>>, upTo: nat)
    returns (f: seq<nat>)
    requires Linearizable(log, calls, open) && upTo <= |log| && forall i :: 0 <= i < |open| ==> open[i].None?
    ensures |f| == upTo
    ensures forall a :: 0 <= a < upTo ==>
              f[a] < |calls| && calls[f[a]].Effect? && calls[f[a]].at == a && calls[f[a]].op == log[a]
    ensures forall k :: 0 <= k < |calls| && calls[k].Effect? && calls[k].at < upTo ==> f[calls[k].at] == k
  {
    if upTo == 0 {
      f := [];
    } else {
      f := QuietBijection(log, calls, open, upTo - 1);
      assert CompletedAt(calls, upTo - 1);
      var k :| 0 <= k < |calls| && calls[k].Effect? && calls[k].at == upTo - 1;
      assert CallOk(log, calls[k]);
      f := f + [k];
    }
  }

  /** Position of a call in the sequential order: effects at odd places. */
  function Point(c: Call): nat {
    if c.Effect? then 2 * c.at + 1 else 2 * c.at
  }

  /** The order of points respects real time. */
  lemma RealTimeOrder(log: seq<Op>, a: Call, b: Call)
    requires CallOk(log, a) && CallOk(log, b) && a.returned <= b.invoked
    ensures Point(a) < Point(b) || (a.SeenEmpty? && b.SeenEmpty? && Point(a) == Point(b))
  {
    match a
    case Effect(_, _, _, _) => assert 2 * a.at + 1 < 2 * b.invoked;
    case SeenEmpty(_, _, _) => assert 2 * a.at <= 2 * b.invoked;
  }

  lemma ReplaySnoc(log: seq<Op>, op: Op)
    requires Contents(log).Some?
    ensures op.Enq? ==> Contents(log + [op]) == Some(Contents(log).value + [op.v])
    ensures op.Deq? && Contents(log).value != [] && Contents(log).value[0] == op.v ==>
              Contents(log + [op]) == Some(Contents(log).value[1..])
  {
    assert (log + [op])[..|log|] == log;
  }

  lemma CallOkSnoc(log: seq<Op>, op: Op, c: Call)
    requires CallOk(log, c)
    ensures CallOk(log + [op], c)
  {
    if c.SeenEmpty? {
      assert (log + [op])[..c.at] == log[..c.at];
    }
  }

  /** Appending an effect keeps the completed calls placed. */
  lemma LinearSnoc(log: seq<Op>, op: Op, calls: seq<Call>)
    requires Placed(log, calls) && Contents(log + [op]).Some?
    ensures Placed(log + [op], calls)
  {
    forall k | 0 <= k < |calls| ensures CallOk(log + [op], calls[k]) {
      CallOkSnoc(log, op, calls[k]);
    }
  }

  /** So does the return of a call whose effect no other call claims. */
  lemma LinearReturn(log: seq<Op>, calls: seq<Call>, c: Call)
    requires Placed(log, calls) && CallOk(log, c)
    requires c.Effect? ==> forall k :: 0 <= k < |calls| && calls[k].Effect? ==> calls[k].at != c.at
    ensures Placed(log, calls + [c])
  {
  }
}
