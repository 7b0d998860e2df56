/** NCQ for any number of threads: CAS2 on the slot, head and tail moved by CAS
    with helping.  One step per atomic access; weak CAS may fail spuriously. */
module Ncq {
  import opened Ring
  import opened FifoHistory

  datatype Slot = Slot(cycle: nat, val: Value)

  datatype Pc =
    | Idle
    | EnqTail(v: Value, invoked: nat)
    | EnqLoad(v: Value, invoked: nat, t: nat)
    | EnqHelp(v: Value, invoked: nat, t: nat)
    | EnqCas(v: Value, invoked: nat, t: nat, ent: Slot)
    | EnqBump(v: Value, invoked: nat, t: nat, at: nat)
    | DeqHead(invoked: nat)
    | DeqLoad(invoked: nat, h: nat)
    | DeqCas(invoked: nat, h: nat, ent: Slot)

  /** `vals` lists every value ever written, in slot order (history); `log` and
      `calls` are the history of effects and returns. */
  datatype State = State(head: nat, tail: nat, slots: seq<Slot>, pcs: seq<Pc>,
                         vals: seq<Value>, log: seq<Op>, calls: seq<Call>)

  /** `arg` is None for the reserved value, which enqueue refuses. */
  datatype Choice = Choice(tid: nat, deq: bool, arg: Option<Value>, fail: bool)

  ghost predicate Sized(n: nat, s: State) { RingSize(n) && |s.slots| == n }

  function Init(n: nat, threads: nat): State {
    State(n, n, seq(n, _ => Slot(0, 0)), seq(threads, _ => Idle), [], [], [])
  }

  function Move(s: State, i: nat, pc: Pc): State
    requires i < |s.pcs|
  {
    s.(pcs := s.pcs[i := pc])
  }

  function Return(s: State, i: nat, c: Call): State
    requires i < |s.pcs|
  {
    s.(pcs := s.pcs[i := Idle], calls := s.calls + [c])
  }

  /** tail_.compare_exchange_weak(t, t + 1). */
  function BumpTail(s: State, t: nat, fail: bool): State {
    if !fail && s.tail == t then s.(tail := t + 1) else s
  }

  /** The slot CAS2 of an enqueuer. */
  function Commit(n: nat, s: State, i: nat, pc: Pc): State
    requires Sized(n, s) && i < |s.pcs| && pc.EnqCas?
  {
    var j := SlotOf(n, pc.t);
    if s.slots[j] != pc.ent then Move(s, i, EnqTail(pc.v, pc.invoked))
    else Move(s.(slots := s.slots[j := Slot(Cycle(n, pc.t), pc.v)],
                 vals := s.vals + [pc.v], log := s.log + [Enq(pc.v)]),
              i, EnqBump(pc.v, pc.invoked, pc.t, |s.log|))
  }

  /** The head CAS of a dequeuer; success returns the loaded value. */
  function Advance(s: State, i: nat, pc: Pc, fail: bool): State
    requires i < |s.pcs| && pc.DeqCas?
  {
    if fail || s.head != pc.h then Move(s, i, DeqHead(pc.invoked))
    else Return(s.(head := pc.h + 1, log := s.log + [Deq(pc.ent.val)]), i,
                Effect(Deq(pc.ent.val), pc.invoked, |s.log|, |s.log| + 1))
  }

  function Next(n: nat, s: State, c: Choice): (s': State)
    requires Sized(n, s)
    ensures Sized(n, s') && |s'.pcs| == |s.pcs|
  {
    if c.tid >= |s.pcs| then s
    else
      var i, pc := c.tid, s.pcs[c.tid];
      match pc
      case Idle =>
        if c.deq then Move(s, i, DeqHead(|s.log|))
        else if c.arg.Some? then Move(s, i, EnqTail(c.arg.value, |s.log|))
        else s
      case EnqTail(v, a) => Move(s, i, EnqLoad(v, a, s.tail))
      case EnqLoad(v, a, t) =>
        var ent := s.slots[SlotOf(n, t)];
        if ent.cycle == Cycle(n, t) then Move(s, i, EnqHelp(v, a, t))
        else if ent.cycle + 1 != Cycle(n, t) then Move(s, i, EnqTail(v, a))
        else Move(s, i, EnqCas(v, a, t, ent))
      case EnqHelp(v, a, t) => Move(BumpTail(s, t, c.fail), i, EnqTail(v, a))
      case EnqCas(_, _, _, _) => Commit(n, s, i, pc)
      case EnqBump(v, a, t, at) => Return(BumpTail(s, t, c.fail), i, Effect(Enq(v), a, at, |s.log|))
      case DeqHead(a) => Move(s, i, DeqLoad(a, s.head))
      case DeqLoad(a, h) =>
        var ent := s.slots[SlotOf(n, h)];
        if ent.cycle == Cycle(n, h) then Move(s, i, DeqCas(a, h, ent))
        else if ent.cycle + 1 == Cycle(n, h) then Return(s, i, SeenEmpty(a, |s.log|, |s.log|))
        else Move(s, i, DeqHead(a))
      case DeqCas(_, _, _) => Advance(s, i, pc, c.fail)
  }

  function Run(n: nat, threads: nat, sch: seq<Choice>): (s: State)
    requires RingSize(n)
    ensures Sized(n, s) && |s.pcs| == threads
  {
    if sch == [] then Init(n, threads)
    else Next(n, Run(n, threads, sch[..|sch| - 1]), sch[|sch| - 1])
  }

  // ----- the invariant -----

  /** One past the last written position; the tail word lags it by at most one. */
  function Written(n: nat, s: State): nat { n + |s.vals| }

  /** The slots hold the last n positions. */
  ghost predicate Window(n: nat, s: State)
    requires Sized(n, s)
  {
    forall p: nat :: |s.vals| <= p < Written(n, s) ==>
      && s.slots[SlotOf(n, p)].cycle == Cycle(n, p)
      && (p >= n ==> s.slots[SlotOf(n, p)].val == s.vals[p - n])
  }

  ghost predicate Words(n: nat, s: State) {
    n <= s.tail <= Written(n, s) <= s.tail + 1
  }

  ghost predicate PcOk(n: nat, s: State, pc: Pc) {
    match pc
    case Idle => true
    case EnqTail(_, a) => a <= |s.log|
    case EnqLoad(_, a, t) => a <= |s.log| && n <= t <= s.tail
    case EnqHelp(_, a, t) => a <= |s.log| && t < Written(n, s)
    case EnqCas(_, a, t, ent) => a <= |s.log| && n <= t <= s.tail && ent.cycle + 1 == Cycle(n, t)
    case EnqBump(v, a, t, at) =>
      a <= at < |s.log| && s.log[at] == Enq(v) && t < Written(n, s)
      && forall k :: 0 <= k < |s.calls| && s.calls[k].Effect? ==> s.calls[k].at != at
    case DeqHead(a) => a <= |s.log|
    case DeqLoad(a, h) => a <= |s.log| && n <= h <= s.head
    case DeqCas(a, h, ent) => a <= |s.log| && n <= h < Written(n, s) && ent.val == s.vals[h - n]
  }

  ghost predicate Distinct(pcs: seq<Pc>) {
    forall i, k :: 0 <= i < |pcs| && 0 <= k < |pcs| && i != k && pcs[i].EnqBump? && pcs[k].EnqBump? ==>
      pcs[i].at != pcs[k].at
  }

  ghost predicate History(n: nat, s: State) {
    && n <= s.head <= Written(n, s)
    && Placed(s.log, s.calls) && Contents(s.log) == Some(s.vals[s.head - n..])
  }

  ghost predicate Inv(n: nat, s: State) {
    && Sized(n, s) && Words(n, s) && Window(n, s)
    && History(n, s)
    && (forall i :: 0 <= i < |s.pcs| ==> PcOk(n, s, s.pcs[i]))
    && Distinct(s.pcs)
  }

  /** What the slot of ticket t shows: its own element while t is in the window,
      the previous round when t is next, a later round when t was overwritten. */
  lemma WindowAt(n: nat, s: State, t: nat)
    requires Sized(n, s) && Window(n, s) && t <= Written(n, s)
    ensures |s.vals| <= t < Written(n, s) ==> s.slots[SlotOf(n, t)].cycle == Cycle(n, t)
    ensures t == Written(n, s) ==> s.slots[SlotOf(n, t)].cycle + 1 == Cycle(n, t)
    ensures t < |s.vals| ==> s.slots[SlotOf(n, t)].cycle > Cycle(n, t)
  {
    var j := SlotOf(n, t);
    var p := TicketOfSlot(n, |s.vals|, j);
    assert s.slots[j].cycle == Cycle(n, p);
    if p < t {
      SameSlotOrder(n, p, t);
      NextRound(n, p);
    } else if t < p {
      SameSlotOrder(n, t, p);
    }
  }

  // ----- steps -----

  /** Steps that write no slot and append no effect. */
  lemma QuietStep(n: nat, s: State, i: nat, tail': nat, pc': Pc)
    requires Inv(n, s) && i < |s.pcs| && s.tail <= tail' <= Written(n, s) <= tail' + 1
    requires PcOk(n, s, pc') && !pc'.EnqBump?
    ensures Inv(n, Move(s.(tail := tail'), i, pc'))
  {
    var s' := Move(s.(tail := tail'), i, pc');
    forall k | 0 <= k < |s'.pcs| ensures PcOk(n, s', s'.pcs[k]) {
      assert PcOk(n, s, s.pcs[k]);
    }
  }

  /** A return records the call; others still own their effects. */
  lemma ReturnStep(n: nat, s: State, i: nat, c: Call)
    requires Inv(n, s) && i < |s.pcs| && CallOk(s.log, c)
    requires c.Effect? ==> s.pcs[i].EnqBump? && s.pcs[i].at == c.at
    ensures Inv(n, Return(s, i, c))
  {
    var s' := Return(s, i, c);
    assert PcOk(n, s, s.pcs[i]);
    LinearReturn(s.log, s.calls, c);
    forall k | 0 <= k < |s'.pcs| ensures PcOk(n, s', s'.pcs[k]) {
      assert PcOk(n, s, s.pcs[k]);
    }
  }

  lemma EnqHistory(n: nat, s: State, v: Value)
    requires History(n, s)
    ensures Contents(s.log + [Enq(v)]) == Some((s.vals + [v])[s.head - n..])
    ensures Placed(s.log + [Enq(v)], s.calls)
  {
    ReplaySnoc(s.log, Enq(v));
    LinearSnoc(s.log, Enq(v), s.calls);
    assert (s.vals + [v])[s.head - n..] == s.vals[s.head - n..] + [v];
  }

  lemma CommitPcs(n: nat, s: State, i: nat)
    requires Inv(n, s) && i < |s.pcs| && s.pcs[i].EnqCas?
    requires s.slots[SlotOf(n, s.pcs[i].t)] == s.pcs[i].ent && s.pcs[i].t == Written(n, s)
    ensures var s' := Commit(n, s, i, s.pcs[i]);
            forall k :: 0 <= k < |s'.pcs| ==> PcOk(n, s', s'.pcs[k])
  {
    var s' := Commit(n, s, i, s.pcs[i]);
    forall k | 0 <= k < |s'.pcs| ensures PcOk(n, s', s'.pcs[k]) {
      assert PcOk(n, s, s.pcs[k]);
      if k == i {
        forall m | 0 <= m < |s.calls| && s.calls[m].Effect? ensures s.calls[m].at != |s.log| {
          assert CallOk(s.log, s.calls[m]);
        }
      }
    }
  }

  lemma CommitStep(n: nat, s: State, i: nat)
    requires Inv(n, s) && i < |s.pcs| && s.pcs[i].EnqCas? && s.slots[SlotOf(n, s.pcs[i].t)] == s.pcs[i].ent
    ensures Inv(n, Commit(n, s, i, s.pcs[i]))
  {
    var pc := s.pcs[i];
    assert PcOk(n, s, pc);
    WindowAt(n, s, pc.t);
    CommitWindow(n, s, i);
    EnqHistory(n, s, pc.v);
    CommitPcs(n, s, i);
    CommitDistinct(n, s, i);
  }

  lemma CommitWindow(n: nat, s: State, i: nat)
    requires Sized(n, s) && Window(n, s) && i < |s.pcs| && s.pcs[i].EnqCas?
    requires s.slots[SlotOf(n, s.pcs[i].t)] == s.pcs[i].ent && s.pcs[i].t == Written(n, s)
    ensures Window(n, Commit(n, s, i, s.pcs[i]))
  {
    var s' := Commit(n, s, i, s.pcs[i]);
    forall p: nat | |s'.vals| <= p < Written(n, s')
      ensures s'.slots[SlotOf(n, p)].cycle == Cycle(n, p)
      ensures p >= n ==> s'.slots[SlotOf(n, p)].val == s'.vals[p - n]
    {
      if p < s.pcs[i].t {
        ConsecutiveTicketsDistinctSlots(n, p, p, s.pcs[i].t);
      }
    }
  }

  lemma CommitDistinct(n: nat, s: State, i: nat)
    requires Inv(n, s) && i < |s.pcs| && s.pcs[i].EnqCas?
    ensures Distinct(s.pcs[i := EnqBump(s.pcs[i].v, s.pcs[i].invoked, s.pcs[i].t, |s.log|)])
  {
    forall k | 0 <= k < |s.pcs| && s.pcs[k].EnqBump? ensures s.pcs[k].at != |s.log| {
      assert PcOk(n, s, s.pcs[k]);
    }
  }

  lemma AdvanceStep(n: nat, s: State, i: nat)
    requires Inv(n, s) && i < |s.pcs| && s.pcs[i].DeqCas? && s.head == s.pcs[i].h
    ensures Inv(n, Advance(s, i, s.pcs[i], false))
  {
    var pc := s.pcs[i];
    var s' := Advance(s, i, pc, false);
    assert PcOk(n, s, pc);
    var q := s.vals[s.head - n..];
    ReplaySnoc(s.log, Deq(pc.ent.val));
    assert q[1..] == s.vals[s'.head - n..];
    LinearSnoc(s.log, Deq(pc.ent.val), s.calls);
    var c := Effect(Deq(pc.ent.val), pc.invoked, |s.log|, |s.log| + 1);
    forall k | 0 <= k < |s.calls| && s.calls[k].Effect? ensures s.calls[k].at != |s.log| {
      assert CallOk(s.log, s.calls[k]);
    }
    LinearReturn(s'.log, s.calls, c);
    forall k | 0 <= k < |s'.pcs| ensures PcOk(n, s', s'.pcs[k]) {
      assert PcOk(n, s, s.pcs[k]);
    }
  }

  lemma EnqNext(n: nat, s: State, c: Choice)
    requires Inv(n, s) && c.tid < |s.pcs|
    requires var pc := s.pcs[c.tid]; pc.EnqTail? || pc.EnqLoad? || pc.EnqHelp? || pc.EnqCas? || pc.EnqBump?
    ensures Inv(n, Next(n, s, c))
  {
    var i, pc := c.tid, s.pcs[c.tid];
    assert PcOk(n, s, pc);
    if pc.EnqTail? {
      QuietStep(n, s, i, s.tail, EnqLoad(pc.v, pc.invoked, s.tail));
    } else if pc.EnqLoad? {
      EnqLoadNext(n, s, c);
    } else if pc.EnqHelp? {
      QuietStep(n, s, i, BumpTail(s, pc.t, c.fail).tail, EnqTail(pc.v, pc.invoked));
    } else if pc.EnqBump? {
      BumpStep(n, s, i, c.fail);
    } else {
      EnqCasNext(n, s, c);
    }
  }

  /** A slot that shows the ticket's own cycle has been written. */
  lemma OwnCycleWritten(n: nat, s: State, t: nat)
    requires Sized(n, s) && Window(n, s) && t <= Written(n, s)
    requires s.slots[SlotOf(n, t)].cycle == Cycle(n, t)
    ensures t < Written(n, s)
  {
    WindowAt(n, s, t);
  }

  lemma EnqLoadNext(n: nat, s: State, c: Choice)
    requires Inv(n, s) && c.tid < |s.pcs| && s.pcs[c.tid].EnqLoad?
    ensures Inv(n, Next(n, s, c))
  {
    var i, pc := c.tid, s.pcs[c.tid];
    var ent := s.slots[SlotOf(n, pc.t)];
    assert PcOk(n, s, pc);
    if ent.cycle == Cycle(n, pc.t) {
      OwnCycleWritten(n, s, pc.t);
      QuietStep(n, s, i, s.tail, EnqHelp(pc.v, pc.invoked, pc.t));
    } else if ent.cycle + 1 != Cycle(n, pc.t) {
      QuietStep(n, s, i, s.tail, EnqTail(pc.v, pc.invoked));
    } else {
      QuietStep(n, s, i, s.tail, EnqCas(pc.v, pc.invoked, pc.t, ent));
    }
  }

  lemma EnqCasNext(n: nat, s: State, c: Choice)
    requires Inv(n, s) && c.tid < |s.pcs| && s.pcs[c.tid].EnqCas?
    ensures Inv(n, Next(n, s, c))
  {
    var i, pc := c.tid, s.pcs[c.tid];
    assert PcOk(n, s, pc);
    if s.slots[SlotOf(n, pc.t)] == pc.ent {
      CommitStep(n, s, i);
    } else {
      QuietStep(n, s, i, s.tail, EnqTail(pc.v, pc.invoked));
    }
  }

  lemma DeqNext(n: nat, s: State, c: Choice)
    requires Inv(n, s) && c.tid < |s.pcs|
    requires var pc := s.pcs[c.tid]; pc.DeqHead? || pc.DeqLoad? || pc.DeqCas?
    ensures Inv(n, Next(n, s, c))
  {
    var i, pc := c.tid, s.pcs[c.tid];
    assert PcOk(n, s, pc);
    if pc.DeqHead? {
      QuietStep(n, s, i, s.tail, DeqLoad(pc.invoked, s.head));
    } else if pc.DeqLoad? {
      LoadStep(n, s, c);
    } else if c.fail || s.head != pc.h {
      QuietStep(n, s, i, s.tail, DeqHead(pc.invoked));
    } else {
      AdvanceStep(n, s, i);
    }
  }

  lemma InvNext(n: nat, s: State, c: Choice)
    requires Inv(n, s)
    ensures Inv(n, Next(n, s, c))
  {
    if c.tid < |s.pcs| {
      var pc := s.pcs[c.tid];
      if pc.Idle? {
        if c.deq || c.arg.Some? {
          QuietStep(n, s, c.tid, s.tail, Next(n, s, c).pcs[c.tid]);
        }
      } else if pc.DeqHead? || pc.DeqLoad? || pc.DeqCas? {
        DeqNext(n, s, c);
      } else {
        EnqNext(n, s, c);
      }
    }
  }

  lemma BumpStep(n: nat, s: State, i: nat, fail: bool)
    requires Inv(n, s) && i < |s.pcs| && s.pcs[i].EnqBump?
    ensures var pc := s.pcs[i];
            Inv(n, Return(BumpTail(s, pc.t, fail), i, Effect(Enq(pc.v), pc.invoked, pc.at, |s.log|)))
  {
    var pc := s.pcs[i];
    assert PcOk(n, s, pc);
    var s1 := BumpTail(s, pc.t, fail);
    forall k | 0 <= k < |s1.pcs| ensures PcOk(n, s1, s1.pcs[k]) {
      assert PcOk(n, s, s.pcs[k]);
    }
    ReturnStep(n, s1, i, Effect(Enq(pc.v), pc.invoked, pc.at, |s.log|));
  }

  /** A dequeuer reads the slot of an old head; if the slot still shows the
      previous round, head and written position are both there: empty. */
  lemma LoadStep(n: nat, s: State, c: Choice)
    requires Inv(n, s) && c.tid < |s.pcs| && s.pcs[c.tid].DeqLoad?
    ensures Inv(n, Next(n, s, c))
  {
    var pc := s.pcs[c.tid];
    assert PcOk(n, s, pc);
    WindowAt(n, s, pc.h);
    var ent := s.slots[SlotOf(n, pc.h)];
    if ent.cycle == Cycle(n, pc.h) {
      QuietStep(n, s, c.tid, s.tail, DeqCas(pc.invoked, pc.h, ent));
    } else if ent.cycle + 1 == Cycle(n, pc.h) {
      assert s.log[..|s.log|] == s.log;
      ReturnStep(n, s, c.tid, SeenEmpty(pc.invoked, |s.log|, |s.log|));
    } else {
      QuietStep(n, s, c.tid, s.tail, DeqHead(pc.invoked));
    }
  }

  lemma {:induction false} RunInv(n: nat, threads: nat, sch: seq<Choice>)
    requires RingSize(n)
    ensures Inv(n, Run(n, threads, sch))
  {
    if sch == [] {
      InitInv(n, threads);
    } else {
      RunInv(n, threads, sch[..|sch| - 1]);
      InvNext(n, Run(n, threads, sch[..|sch| - 1]), sch[|sch| - 1]);
    }
  }

  lemma InitInv(n: nat, threads: nat)
    requires RingSize(n)
    ensures Inv(n, Init(n, threads))
  {
    var s := Init(n, threads);
    assert Placed(s.log, s.calls);
  }

  // ----- every effect has its call -----

  /** An enqueue is open from its CAS2 to its return; a dequeue returns with its effect. */
  function OpenOf(pc: Pc): Option<Open> {
    if pc.EnqBump? then Some(Open(Enq(pc.v), pc.invoked, pc.at)) else None
  }

  function OpenCalls(s: State): seq<Option<Open>> {
    seq(|s.pcs|, i requires 0 <= i < |s.pcs| => OpenOf(s.pcs[i]))
  }

  /** What a step does to the log: nothing, or one entry that is its call's. */
  lemma StepCovers(n: nat, s: State, c: Choice, a: nat)
    requires Sized(n, s) && c.tid < |s.pcs|
    requires a < |s.log| ==> CompletedAt(s.calls, a) || OpenAt(OpenCalls(s), a)
    requires a < |Next(n, s, c).log|
    ensures CompletedAt(Next(n, s, c).calls, a) || OpenAt(OpenCalls(Next(n, s, c)), a)
  {
    var s' := Next(n, s, c);
    if a < |s.log| {
      if CompletedAt(s.calls, a) {
        var k :| 0 <= k < |s.calls| && s.calls[k].Effect? && s.calls[k].at == a;
        assert s'.calls[k] == s.calls[k];
      } else {
        var i :| 0 <= i < |s.pcs| && OpenCalls(s)[i].Some? && OpenCalls(s)[i].value.at == a;
        if i == c.tid {
          assert s'.calls[|s.calls|].at == a;
        } else {
          assert OpenCalls(s')[i] == OpenCalls(s)[i];
        }
      }
    } else if s.pcs[c.tid].EnqCas? {
      assert OpenCalls(s')[c.tid].Some? && OpenCalls(s')[c.tid].value.at == a;
    } else {
      assert s'.calls[|s.calls|].at == a;
    }
  }

  lemma {:induction false} RunCovered(n: nat, threads: nat, sch: seq<Choice>)
    requires RingSize(n)
    ensures var s := Run(n, threads, sch); Covered(s.log, s.calls, OpenCalls(s))
  {
    if sch != [] {
      var before, c := sch[..|sch| - 1], sch[|sch| - 1];
      RunCovered(n, threads, before);
      var s, s' := Run(n, threads, before), Run(n, threads, sch);
      if c.tid < threads {
        forall a: nat | a < |s'.log| ensures CompletedAt(s'.calls, a) || OpenAt(OpenCalls(s'), a) {
          StepCovers(n, s, c, a);
        }
      }
    }
  }

  // ----- theorems about every run -----

  /** NCQ is a linearizable FIFO for any number of threads: enqueue takes effect at
      its CAS2, dequeue at its head CAS, an empty result at the slot load. */
  lemma NcqLinearizable(n: nat, threads: nat, sch: seq<Choice>)
    requires RingSize(n)
    ensures var s := Run(n, threads, sch);
            && Linearizable(s.log, s.calls, OpenCalls(s)) && n <= s.head <= Written(n, s) <= s.tail + 1
            && Contents(s.log) == Some(s.vals[s.head - n..])
  {
    RunInv(n, threads, sch);
    RunCovered(n, threads, sch);
    InvLinear(n, Run(n, threads, sch));
  }

  lemma InvLinear(n: nat, s: State)
    requires Inv(n, s) && Covered(s.log, s.calls, OpenCalls(s))
    ensures Linearizable(s.log, s.calls, OpenCalls(s))
  {
    forall i | 0 <= i < |s.pcs| && s.pcs[i].EnqBump?
      ensures OpenOk(s.log, OpenOf(s.pcs[i]).value) && !CompletedAt(s.calls, s.pcs[i].at)
    {
      assert PcOk(n, s, s.pcs[i]);
    }
  }

  /** With every thread idle the log lists exactly the completed enqueues and dequeues,
      each once. */
  lemma NcqQuiet(n: nat, threads: nat, sch: seq<Choice>) returns (f: seq<nat>)
    requires RingSize(n)
    requires var s := Run(n, threads, sch); forall i :: 0 <= i < |s.pcs| ==> s.pcs[i].Idle?
    ensures var s := Run(n, threads, sch);
            && |f| == |s.log|
            && (forall a :: 0 <= a < |f| ==>
                  f[a] < |s.calls| && s.calls[f[a]].Effect? && s.calls[f[a]].at == a
                  && s.calls[f[a]].op == s.log[a])
            && (forall k :: 0 <= k < |s.calls| && s.calls[k].Effect? ==>
                  s.calls[k].at < |f| && f[s.calls[k].at] == k)
  {
    NcqLinearizable(n, threads, sch);
    var s := Run(n, threads, sch);
    f := QuietBijection(s.log, s.calls, OpenCalls(s), |s.log|);
    forall k | 0 <= k < |s.calls| && s.calls[k].Effect? ensures s.calls[k].at < |f| {
      assert CallOk(s.log, s.calls[k]);
    }
  }

  // ----- calls and what their callers passed -----

  predicate IsEnq(pc: Pc) {
    pc.EnqTail? || pc.EnqLoad? || pc.EnqHelp? || pc.EnqCas? || pc.EnqBump?
  }

  /** The thread started a call at step m and is still in it at time k. */
  ghost predicate InCall(n: nat, threads: nat, sch: seq<Choice>, m: nat, k: nat)
    requires RingSize(n)
  {
    && m < k <= |sch| && sch[m].tid < threads && Run(n, threads, sch[..m]).pcs[sch[m].tid].Idle?
    && forall j :: m < j <= k ==> !Run(n, threads, sch[..j]).pcs[sch[m].tid].Idle?
  }

  /** The first step of a call: an enqueue with its argument, or none without one. */
  lemma CallStarts(n: nat, s: State, c: Choice)
    requires Sized(n, s) && c.tid < |s.pcs| && s.pcs[c.tid].Idle?
    ensures var s' := Next(n, s, c);
            && s'.log == s.log && s'.calls == s.calls && s'.slots == s.slots && s'.head == s.head && s'.tail == s.tail
            && (!c.deq && c.arg.None? ==> s' == s)
            && (!c.deq && c.arg.Some? ==> s'.pcs[c.tid] == EnqTail(c.arg.value, |s.log|))
            && (c.deq ==> s'.pcs[c.tid] == DeqHead(|s.log|))
  {
  }

  /** What a step inside a call may do: keep the argument, log it, or return with it. */
  ghost predicate CallStep(s: State, s': State, i: nat, v: Value, invoked: nat) {
    && i < |s.pcs| == |s'.pcs|
    && (s'.log == s.log || s'.log == s.log + [Enq(v)])
    && (!s'.pcs[i].Idle? ==>
          IsEnq(s'.pcs[i]) && s'.pcs[i].v == v && s'.pcs[i].invoked == invoked && s'.calls == s.calls)
    && (s'.pcs[i].Idle? ==>
          |s'.calls| == |s.calls| + 1
          && var c := s'.calls[|s.calls|]; c.Effect? && c.op == Enq(v) && c.invoked == invoked && s.calls <= s'.calls)
  }

  lemma EnqCallStep(n: nat, s: State, c: Choice)
    requires Sized(n, s) && c.tid < |s.pcs| && IsEnq(s.pcs[c.tid])
    ensures CallStep(s, Next(n, s, c), c.tid, s.pcs[c.tid].v, s.pcs[c.tid].invoked)
  {
  }

  lemma OthersStay(n: nat, s: State, c: Choice, i: nat)
    requires Sized(n, s) && i < |s.pcs| && i != c.tid
    ensures Next(n, s, c).pcs[i] == s.pcs[i]
  {
  }

  /** In every run a thread carries the argument its enqueue call was given until it returns. */
  lemma {:induction false} CarriesArgument(n: nat, threads: nat, sch: seq<Choice>, m: nat, k: nat)
    requires RingSize(n) && InCall(n, threads, sch, m, k) && !sch[m].deq
    ensures var pc := Run(n, threads, sch[..k]).pcs[sch[m].tid];
            sch[m].arg.Some? && IsEnq(pc) && pc.v == sch[m].arg.value && pc.invoked == |Run(n, threads, sch[..m]).log|
    decreases k
  {
    var i, s := sch[m].tid, Run(n, threads, sch[..k - 1]);
    assert sch[..k][..k - 1] == sch[..k - 1] && sch[..k][k - 1] == sch[k - 1];
    if k == m + 1 {
      CallStarts(n, s, sch[m]);
    } else {
      CarriesArgument(n, threads, sch, m, k - 1);
      if sch[k - 1].tid == i {
        EnqCallStep(n, s, sch[k - 1]);
      } else {
        OthersStay(n, s, sch[k - 1], i);
      }
    }
  }

  /** So what the call logs, and what is recorded when it returns, is an enqueue of its
      argument, invoked when it was. */
  lemma CallHasArgument(n: nat, threads: nat, sch: seq<Choice>, m: nat, k: nat)
    requires RingSize(n) && InCall(n, threads, sch, m, k) && !sch[m].deq && k < |sch| && sch[k].tid == sch[m].tid
    ensures sch[m].arg.Some?
    ensures CallStep(Run(n, threads, sch[..k]), Run(n, threads, sch[..k + 1]), sch[m].tid, sch[m].arg.value,
                     |Run(n, threads, sch[..m]).log|)
  {
    CarriesArgument(n, threads, sch, m, k);
    assert sch[..k + 1][..k] == sch[..k] && sch[..k + 1][k] == sch[k];
    EnqCallStep(n, Run(n, threads, sch[..k]), sch[k]);
  }

  function Stored(n: nat, s: State): int { Written(n, s) - s.head }

  /** Every stored element is still in its slot. */
  ghost predicate Intact(n: nat, s: State)
    requires Sized(n, s) && n <= s.head
  {
    forall p :: s.head <= p < Written(n, s) ==> s.slots[SlotOf(n, p)] == Slot(Cycle(n, p), s.vals[p - n])
  }

  /** Nothing stored is overwritten exactly as long as no more than n elements are
      stored: enqueue itself never checks for a full ring. */
  lemma IntactIffNotOverfull(n: nat, threads: nat, sch: seq<Choice>)
    requires RingSize(n)
    ensures var s := Run(n, threads, sch);
            n <= s.head && (Intact(n, s) <==> Stored(n, s) <= n)
  {
    RunInv(n, threads, sch);
    var s := Run(n, threads, sch);
    if Stored(n, s) > n {
      WindowAt(n, s, s.head);
      assert s.slots[SlotOf(n, s.head)] != Slot(Cycle(n, s.head), s.vals[s.head - n]);
    }
  }

  /** What a dequeuer meets at the current head: its element while the ring is not
      overfull, empty when nothing is stored, and otherwise a slot it can only retry. */
  lemma DequeueAtHead(n: nat, threads: nat, sch: seq<Choice>, c: Choice)
    requires RingSize(n) && c.tid < threads
    requires var s := Run(n, threads, sch); s.pcs[c.tid].DeqLoad? && s.pcs[c.tid].h == s.head
    ensures var s := Run(n, threads, sch);
            var s' := Next(n, s, c);
            && n <= s.head <= Written(n, s)
            && (s'.pcs[c.tid].DeqCas? <==> 0 < Stored(n, s) <= n)
            && (s'.pcs[c.tid].DeqCas? ==> s'.pcs[c.tid].ent.val == s.vals[s.head - n])
            && (s'.pcs[c.tid].Idle? <==> Stored(n, s) == 0)
            && (s'.pcs[c.tid].DeqHead? <==> Stored(n, s) > n)
  {
    RunInv(n, threads, sch);
    var s := Run(n, threads, sch);
    WindowAt(n, s, s.head);
  }

  // ----- enqueue does not wait for space -----

  function Repeat(c: Choice, k: nat): seq<Choice> { seq(k, _ => c) }

  /** One enqueue by thread 0 running alone. */
  function SoloEnqueue(v: Value): seq<Choice> { Repeat(Choice(0, false, Some(v), false), 5) }

  function SoloEnqueues(k: nat): seq<Choice> {
    if k == 0 then [] else SoloEnqueues(k - 1) + SoloEnqueue(k)
  }

  function Steps(n: nat, s: State, c: Choice, k: nat): (s': State)
    requires Sized(n, s)
    ensures Sized(n, s')
  {
    if k == 0 then s else Next(n, Steps(n, s, c, k - 1), c)
  }

  lemma RunSnoc(n: nat, sch: seq<Choice>, c: Choice)
    requires RingSize(n)
    ensures Run(n, 1, sch + [c]) == Next(n, Run(n, 1, sch), c)
  {
    assert (sch + [c])[..|sch|] == sch;
  }

  lemma {:induction false} RunRepeat(n: nat, sch: seq<Choice>, c: Choice, k: nat)
    requires RingSize(n)
    ensures Run(n, 1, sch + Repeat(c, k)) == Steps(n, Run(n, 1, sch), c, k)
  {
    if k == 0 {
      assert sch + Repeat(c, k) == sch;
    } else {
      RunRepeat(n, sch, c, k - 1);
      var shorter := sch + Repeat(c, k - 1);
      assert sch + Repeat(c, k) == shorter + [c];
      RunSnoc(n, shorter, c);
    }
  }

  ghost predicate Rest(n: nat, s: State) {
    |s.pcs| == 1 && s.pcs[0].Idle? && s.tail == Written(n, s)
  }

  /** Five steps of thread 0 alone complete an enqueue from any resting state. */
  lemma SoloSteps(n: nat, s: State, c: Choice)
    requires Inv(n, s) && Rest(n, s) && c.tid == 0 && !c.deq && c.arg.Some? && !c.fail
    ensures var s' := Steps(n, s, c, 5);
            Rest(n, s') && s'.vals == s.vals + [c.arg.value] && s'.head == s.head
  {
    WindowAt(n, s, s.tail);
    var v, t, a := c.arg.value, s.tail, |s.log|;
    assert Steps(n, s, c, 1) == s.(pcs := [EnqTail(v, a)]);
    assert Steps(n, s, c, 2) == s.(pcs := [EnqLoad(v, a, t)]);
    assert Steps(n, s, c, 3) == s.(pcs := [EnqCas(v, a, t, s.slots[SlotOf(n, t)])]);
    assert Steps(n, s, c, 4).pcs == [EnqBump(v, a, t, a)];
  }

  /** However many elements are stored, five solo steps store another one. */
  lemma EnqueueNeverWaits(n: nat, sch: seq<Choice>, v: Value)
    requires RingSize(n) && Rest(n, Run(n, 1, sch))
    ensures var s, s' := Run(n, 1, sch), Run(n, 1, sch + SoloEnqueue(v));
            Rest(n, s') && s'.vals == s.vals + [v] && s'.head == s.head
  {
    var c := Choice(0, false, Some(v), false);
    RunInv(n, 1, sch);
    SoloSteps(n, Run(n, 1, sch), c);
    RunRepeat(n, sch, c, 5);
  }

  ghost predicate Filled(n: nat, s: State, k: nat) {
    Rest(n, s) && s.head == n && |s.vals| == k
  }

  lemma FillOne(n: nat, before: seq<Choice>, after: seq<Choice>, k: nat, v: Value)
    requires RingSize(n) && Filled(n, Run(n, 1, before), k) && after == before + SoloEnqueue(v)
    ensures Filled(n, Run(n, 1, after), k + 1)
  {
    EnqueueNeverWaits(n, before, v);
  }

  lemma {:induction false} SoloFill(n: nat, k: nat)
    requires RingSize(n)
    ensures Filled(n, Run(n, 1, SoloEnqueues(k)), k)
  {
    if k > 0 {
      SoloFill(n, k - 1);
      FillOne(n, SoloEnqueues(k - 1), SoloEnqueues(k), k - 1, k);
    }
  }

  /** So n + 1 enqueues without a dequeue all return, and the oldest element is gone. */
  lemma OverfillOverwrites(n: nat, k: nat)
    requires RingSize(n)
    ensures var s := Run(n, 1, SoloEnqueues(k));
            && Rest(n, s) && s.head == n && |s.vals| == k
            && (k > n ==> !Intact(n, s))
  {
    SoloFill(n, k);
    IntactIffNotOverfull(n, 1, SoloEnqueues(k));
  }
}
