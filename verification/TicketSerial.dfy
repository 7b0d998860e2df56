/** The ticket protocol used by one thread at a time: from a state between calls an enqueue and
    a dequeue that run alone end, and answer as a FIFO of the ring's size does.  Thresholds, the
    repair of the tail and the success counters are all on this path. */
module TicketSerial {
  import opened Ring
  import R = RingState
  import opened TicketQueue

  // ----- runs of one thread -----

  function Steps(cfg: Config, s: State, c: Choice, k: nat): (u: State)
    requires Sized(cfg, s)
    ensures Sized(cfg, u) && |u.pcs| == |s.pcs|
    decreases k
  {
    if k == 0 then s else Steps(cfg, Next(cfg, s, c), c, k - 1)
  }

  lemma {:induction false} StepsMore(cfg: Config, s: State, c: Choice, k: nat, m: nat)
    requires Sized(cfg, s)
    ensures Steps(cfg, Steps(cfg, s, c, k), c, m) == Steps(cfg, s, c, k + m)
    decreases k
  {
    if k > 0 {
      StepsMore(cfg, Next(cfg, s, c), c, k - 1, m);
    }
  }

  /** Some number of steps with the same choice lead from s to u. */
  ghost predicate Leads(cfg: Config, s: State, u: State, c: Choice) {
    Sized(cfg, s) && exists k: nat :: Steps(cfg, s, c, k) == u
  }

  lemma LeadsNowhere(cfg: Config, s: State, c: Choice)
    requires Sized(cfg, s)
    ensures Leads(cfg, s, s, c)
  {
    assert Steps(cfg, s, c, 0) == s;
  }

  lemma LeadsOne(cfg: Config, s: State, c: Choice)
    requires Sized(cfg, s)
    ensures Leads(cfg, s, Next(cfg, s, c), c)
  {
    assert Steps(cfg, s, c, 1) == Steps(cfg, Next(cfg, s, c), c, 0);
  }

  lemma LeadsOn(cfg: Config, s: State, u: State, v: State, c: Choice)
    requires Leads(cfg, s, u, c) && Leads(cfg, u, v, c)
    ensures Leads(cfg, s, v, c)
  {
    var k: nat :| Steps(cfg, s, c, k) == u;
    var m: nat :| Steps(cfg, u, c, m) == v;
    StepsMore(cfg, s, c, k, m);
    assert Steps(cfg, s, c, k + m) == v;
  }

  function Enqueuer(i: nat, v: Value): Choice { Choice(i, false, Some(v), false) }

  function Dequeuer(i: nat): Choice { Choice(i, true, None, false) }

  // ----- states between calls -----

  function Plain(slots: seq<Slot>): (r: seq<R.Slot>)
    ensures |r| == |slots|
  {
    seq(|slots|, j requires 0 <= j < |slots| => R.Slot(slots[j].cycle, slots[j].safe, slots[j].val))
  }

  /** The slots hold q between head and tail. */
  ghost predicate Holding(cfg: Config, s: State, q: seq<Value>) {
    Sized(cfg, s) && R.Holds(cfg.n, s.w.head, s.w.tail, q, Plain(s.slots))
  }

  /** The threshold counts down by how far the head is ahead of the tail. */
  ghost predicate Exact(cfg: Config, w: Words) {
    && w.threshold == cfg.ThresholdReset() - (if w.head > w.tail then w.head - w.tail else 0)
    && w.head <= w.tail + cfg.ThresholdReset() - 1
  }

  ghost predicate AllIdle(s: State) {
    forall i :: 0 <= i < |s.pcs| ==> s.pcs[i].Idle?
  }

  /** No call is in progress and the queue holds q; the threshold may have any value. */
  ghost predicate Calm(cfg: Config, s: State, q: seq<Value>) {
    Holding(cfg, s, q) && AllIdle(s) && (!cfg.variant.Scq? ==> s.w.enqOk == s.w.deqOk + |q|)
  }

  /** The same under the threshold law, as serial use leaves it. */
  ghost predicate Rest(cfg: Config, s: State, q: seq<Value>) {
    Calm(cfg, s, q) && Exact(cfg, s.w)
  }

  /** Only thread i has moved, to pc; the words, slots and log are given. */
  ghost predicate Moved(cfg: Config, s: State, u: State, i: nat, pc: Pc, w: Words, slots: seq<Slot>, log: seq<Event>) {
    Sized(cfg, u) && i < |s.pcs| && u.pcs == s.pcs[i := pc] && u.w == w && u.slots == slots && u.g.log == log
  }

  lemma StartIsRest(cfg: Config, threads: nat)
    requires cfg.Valid()
    ensures Rest(cfg, Init(cfg, threads), [])
  {
    var s := Init(cfg, threads);
    assert Plain(s.slots) == R.Blank(cfg.n);
    R.BlankHolds(cfg.n);
  }

  /** A thread's move, seen from where it set out. */
  lemma Again(s: State, i: nat, a: Pc, b: Pc)
    requires i < |s.pcs|
    ensures s.pcs[i := a][i := b] == s.pcs[i := b]
  {
  }

  lemma PlainUpdate(slots: seq<Slot>, j: nat, sl: Slot)
    requires j < |slots|
    ensures Plain(slots[j := sl]) == Plain(slots)[j := R.Slot(sl.cycle, sl.safe, sl.val)]
  {
  }

  // ----- enqueue -----

  /** The first step: the call is logged. */
  lemma EnqBegins(cfg: Config, s: State, i: nat, v: Value) returns (u: State)
    requires Sized(cfg, s) && i < |s.pcs| && s.pcs[i].Idle? && cfg.Accepts(Some(v))
    ensures Leads(cfg, s, u, Enqueuer(i, v))
    ensures Moved(cfg, s, u, i, NextTicket(cfg.variant, v, |s.g.log|), s.w, s.slots, s.g.log + [EnqCalled(v)])
  {
    u := Next(cfg, s, Enqueuer(i, v));
    LeadsOne(cfg, s, Enqueuer(i, v));
  }

  /** SCQP's check of the counters. */
  lemma EnqCounts(cfg: Config, s: State, i: nat, v: Value, op: nat) returns (u: State)
    requires Sized(cfg, s) && i < |s.pcs| && s.pcs[i] == EnqReadDeqOk(v, op) && s.w.enqOk >= s.w.deqOk
    ensures Leads(cfg, s, u, Enqueuer(i, v))
    ensures if s.w.enqOk - s.w.deqOk >= cfg.n then
              exists r: nat :: Moved(cfg, s, u, i, Idle, s.w, s.slots, s.g.log + [EnqRefused(op, r)])
            else Moved(cfg, s, u, i, EnqClaim(v, op), s.w, s.slots, s.g.log)
  {
    var c := Enqueuer(i, v);
    var s1 := Next(cfg, s, c);
    u := Next(cfg, s1, c);
    LeadsOne(cfg, s, c);
    LeadsOne(cfg, s1, c);
    LeadsOn(cfg, s, s1, u, c);
    assert s1.pcs[i] == EnqReadEnqOk(v, op, s.w.deqOk);
    Again(s, i, s1.pcs[i], u.pcs[i]);
    if s.w.enqOk - s.w.deqOk >= cfg.n {
      assert Moved(cfg, s, u, i, Idle, s.w, s.slots, s.g.log + [EnqRefused(op, s1.g.clock)]);
    }
  }

  /** To the claim of a ticket, if the ring is not full. */
  lemma EnqToClaim(cfg: Config, s: State, i: nat, v: Value, op: nat) returns (u: State)
    requires Sized(cfg, s) && i < |s.pcs| && s.pcs[i] == NextTicket(cfg.variant, v, op)
    requires !cfg.variant.Scq? ==> 0 <= s.w.enqOk - s.w.deqOk < cfg.n
    ensures Leads(cfg, s, u, Enqueuer(i, v)) && Moved(cfg, s, u, i, EnqClaim(v, op), s.w, s.slots, s.g.log)
  {
    if cfg.variant.Scq? {
      u := s;
      LeadsNowhere(cfg, s, Enqueuer(i, v));
    } else {
      u := EnqCounts(cfg, s, i, v, op);
    }
  }

  lemma EnqClaims(cfg: Config, s: State, i: nat, v: Value, op: nat) returns (u: State)
    requires Sized(cfg, s) && i < |s.pcs| && s.pcs[i] == EnqClaim(v, op)
    ensures Leads(cfg, s, u, Enqueuer(i, v))
    ensures Moved(cfg, s, u, i, EnqLoad(v, op, s.w.tail), s.w.(tail := s.w.tail + 1), s.slots, s.g.log)
  {
    u := Next(cfg, s, Enqueuer(i, v));
    LeadsOne(cfg, s, Enqueuer(i, v));
  }

  lemma EnqDraws(cfg: Config, s: State, i: nat, v: Value, op: nat) returns (u: State)
    requires Sized(cfg, s) && i < |s.pcs| && s.pcs[i] == NextTicket(cfg.variant, v, op)
    requires !cfg.variant.Scq? ==> 0 <= s.w.enqOk - s.w.deqOk < cfg.n
    ensures Leads(cfg, s, u, Enqueuer(i, v))
    ensures Moved(cfg, s, u, i, EnqLoad(v, op, s.w.tail), s.w.(tail := s.w.tail + 1), s.slots, s.g.log)
  {
    var s1 := EnqToClaim(cfg, s, i, v, op);
    u := EnqClaims(cfg, s1, i, v, op);
    LeadsOn(cfg, s, s1, u, Enqueuer(i, v));
    Again(s, i, s1.pcs[i], u.pcs[i]);
  }

  lemma EnqSkips(cfg: Config, s: State, i: nat, v: Value, op: nat, t: nat) returns (u: State)
    requires Sized(cfg, s) && i < |s.pcs| && s.pcs[i] == EnqLoad(v, op, t)
    requires s.slots[SlotOf(cfg.n, t)].cycle >= Cycle(cfg.n, t)
    ensures Leads(cfg, s, u, Enqueuer(i, v))
    ensures Moved(cfg, s, u, i, NextTicket(cfg.variant, v, op), s.w, s.slots, s.g.log)
  {
    u := Next(cfg, s, Enqueuer(i, v));
    LeadsOne(cfg, s, Enqueuer(i, v));
  }

  /** A ticket that the head has passed is drawn and dropped. */
  lemma EnqFallsBehind(cfg: Config, s: State, i: nat, v: Value, op: nat, q: seq<Value>) returns (u: State)
    requires Holding(cfg, s, q) && i < |s.pcs| && s.pcs[i] == NextTicket(cfg.variant, v, op) && s.w.tail < s.w.head
    requires !cfg.variant.Scq? ==> 0 <= s.w.enqOk - s.w.deqOk < cfg.n
    ensures Leads(cfg, s, u, Enqueuer(i, v)) && Holding(cfg, u, q)
    ensures Moved(cfg, s, u, i, NextTicket(cfg.variant, v, op), s.w.(tail := s.w.tail + 1), s.slots, s.g.log)
  {
    var c := Enqueuer(i, v);
    R.BehindHead(cfg.n, s.w.head, s.w.tail, q, Plain(s.slots));
    R.CatchUpHolds(cfg.n, s.w.head, s.w.tail, s.w.tail + 1, Plain(s.slots));
    var s1 := EnqDraws(cfg, s, i, v, op);
    u := EnqSkips(cfg, s1, i, v, op, s.w.tail);
    LeadsOn(cfg, s, s1, u, c);
  }

  /** The tickets behind the head are used up. */
  lemma {:induction false} EnqCatchesUp(cfg: Config, s: State, i: nat, v: Value, op: nat, q: seq<Value>)
    returns (u: State)
    requires Holding(cfg, s, q) && i < |s.pcs| && s.pcs[i] == NextTicket(cfg.variant, v, op)
    requires !cfg.variant.Scq? ==> 0 <= s.w.enqOk - s.w.deqOk < cfg.n
    ensures Leads(cfg, s, u, Enqueuer(i, v)) && Holding(cfg, u, q)
    ensures Moved(cfg, s, u, i, s.pcs[i], s.w.(tail := R.Max(s.w.tail, s.w.head)), s.slots, s.g.log)
    decreases if s.w.tail < s.w.head then s.w.head - s.w.tail else 0
  {
    if s.w.tail < s.w.head {
      var s1 := EnqFallsBehind(cfg, s, i, v, op, q);
      u := EnqCatchesUp(cfg, s1, i, v, op, q);
      LeadsOn(cfg, s, s1, u, Enqueuer(i, v));
    } else {
      u := s;
      LeadsNowhere(cfg, s, Enqueuer(i, v));
    }
  }

  /** Load and CAS2 on a free slot. */
  lemma EnqCommits(cfg: Config, s: State, i: nat, v: Value, op: nat, t: nat) returns (u: State)
    requires Sized(cfg, s) && i < |s.pcs| && s.pcs[i] == EnqLoad(v, op, t)
    requires var sl := s.slots[SlotOf(cfg.n, t)]; sl.cycle < Cycle(cfg.n, t) && sl.safe && sl.val.None?
    ensures Leads(cfg, s, u, Enqueuer(i, v))
    ensures Moved(cfg, s, u, i, EnqReadThreshold(op, t), s.w,
                  s.slots[SlotOf(cfg.n, t) := Slot(Cycle(cfg.n, t), true, Some(v))], s.g.log)
  {
    var c, sl := Enqueuer(i, v), s.slots[SlotOf(cfg.n, t)];
    var s1 := Next(cfg, s, c);
    LeadsOne(cfg, s, c);
    assert Moved(cfg, s, s1, i, EnqCas(v, op, t, sl), s.w, s.slots, s.g.log);
    u := EnqStores(cfg, s1, i, v, op, t);
    LeadsOn(cfg, s, s1, u, c);
    Again(s, i, s1.pcs[i], u.pcs[i]);
  }

  lemma EnqStores(cfg: Config, s: State, i: nat, v: Value, op: nat, t: nat) returns (u: State)
    requires Sized(cfg, s) && i < |s.pcs| && s.pcs[i] == EnqCas(v, op, t, s.slots[SlotOf(cfg.n, t)])
    ensures Leads(cfg, s, u, Enqueuer(i, v))
    ensures Moved(cfg, s, u, i, EnqReadThreshold(op, t), s.w,
                  s.slots[SlotOf(cfg.n, t) := Slot(Cycle(cfg.n, t), true, Some(v))], s.g.log)
  {
    u := Next(cfg, s, Enqueuer(i, v));
    LeadsOne(cfg, s, Enqueuer(i, v));
  }

  /** What the words are when the enqueue returns. */
  function Counted(cfg: Config, w: Words): Words {
    w.(threshold := cfg.ThresholdReset(), enqOk := w.enqOk + if cfg.variant.Scq? then 0 else 1)
  }

  lemma EnqCountsUp(cfg: Config, s: State, i: nat, v: Value, op: nat, t: nat) returns (u: State)
    requires Sized(cfg, s) && i < |s.pcs| && s.pcs[i] == EnqCount(op, t)
    ensures Leads(cfg, s, u, Enqueuer(i, v))
    ensures Moved(cfg, s, u, i, Idle, s.w.(enqOk := s.w.enqOk + 1), s.slots, s.g.log + [EnqReturned(op, t)])
  {
    u := Next(cfg, s, Enqueuer(i, v));
    LeadsOne(cfg, s, Enqueuer(i, v));
  }

  /** The threshold is at its reset value, by a store or because it was there. */
  lemma EnqResets(cfg: Config, s: State, i: nat, v: Value, op: nat, t: nat) returns (u: State)
    requires Sized(cfg, s) && i < |s.pcs| && s.pcs[i] == EnqReadThreshold(op, t)
    ensures var w := s.w.(threshold := cfg.ThresholdReset());
            && Leads(cfg, s, u, Enqueuer(i, v))
            && if cfg.variant.Scq? then Moved(cfg, s, u, i, Idle, w, s.slots, s.g.log + [EnqReturned(op, t)])
               else Moved(cfg, s, u, i, EnqCount(op, t), w, s.slots, s.g.log)
  {
    var c := Enqueuer(i, v);
    var s1 := Next(cfg, s, c);
    LeadsOne(cfg, s, c);
    if s.w.threshold == cfg.ThresholdReset() {
      u := s1;
    } else {
      assert Moved(cfg, s, s1, i, EnqResetThreshold(op, t), s.w, s.slots, s.g.log);
      u := EnqResetsNow(cfg, s1, i, v, op, t);
      LeadsOn(cfg, s, s1, u, c);
      Again(s, i, s1.pcs[i], u.pcs[i]);
    }
  }

  lemma EnqResetsNow(cfg: Config, s: State, i: nat, v: Value, op: nat, t: nat) returns (u: State)
    requires Sized(cfg, s) && i < |s.pcs| && s.pcs[i] == EnqResetThreshold(op, t)
    ensures var w := s.w.(threshold := cfg.ThresholdReset());
            && Leads(cfg, s, u, Enqueuer(i, v))
            && if cfg.variant.Scq? then Moved(cfg, s, u, i, Idle, w, s.slots, s.g.log + [EnqReturned(op, t)])
               else Moved(cfg, s, u, i, EnqCount(op, t), w, s.slots, s.g.log)
  {
    u := Next(cfg, s, Enqueuer(i, v));
    LeadsOne(cfg, s, Enqueuer(i, v));
  }

  /** From the commit to the return. */
  lemma EnqReturns(cfg: Config, s: State, i: nat, v: Value, op: nat, t: nat) returns (u: State)
    requires Sized(cfg, s) && i < |s.pcs| && s.pcs[i] == EnqReadThreshold(op, t)
    ensures Leads(cfg, s, u, Enqueuer(i, v))
    ensures Moved(cfg, s, u, i, Idle, Counted(cfg, s.w), s.slots, s.g.log + [EnqReturned(op, t)])
  {
    var s1 := EnqResets(cfg, s, i, v, op, t);
    if cfg.variant.Scq? {
      u := s1;
    } else {
      u := EnqCountsUp(cfg, s1, i, v, op, t);
      LeadsOn(cfg, s, s1, u, Enqueuer(i, v));
    }
  }

  /** The tail's slot of a ring with room, before and after. */
  lemma FreeSlot(cfg: Config, s: State, v: Value, q: seq<Value>)
    requires Holding(cfg, s, q) && |q| < cfg.n && s.w.head <= s.w.tail
    ensures var t, j := s.w.tail, SlotOf(cfg.n, s.w.tail);
            && s.slots[j].cycle < Cycle(cfg.n, t) && s.slots[j].safe && s.slots[j].val.None?
            && R.Holds(cfg.n, s.w.head, t + 1, q + [v], Plain(s.slots[j := Slot(Cycle(cfg.n, t), true, Some(v))]))
  {
    var t, j := s.w.tail, SlotOf(cfg.n, s.w.tail);
    R.TailSlot(cfg.n, s.w.head, t, q, Plain(s.slots));
    assert Plain(s.slots)[j] == R.Slot(s.slots[j].cycle, s.slots[j].safe, s.slots[j].val);
    R.EnqueueHolds(cfg.n, s.w.head, t, q, Plain(s.slots), v);
    PlainUpdate(s.slots, j, Slot(Cycle(cfg.n, t), true, Some(v)));
  }

  /** With the tail not behind the head, one ticket suffices. */
  lemma EnqFinishes(cfg: Config, s: State, i: nat, v: Value, op: nat, q: seq<Value>) returns (u: State)
    requires Holding(cfg, s, q) && |q| < cfg.n && i < |s.pcs| && s.pcs[i] == NextTicket(cfg.variant, v, op)
    requires (!cfg.variant.Scq? ==> 0 <= s.w.enqOk - s.w.deqOk < cfg.n) && s.w.head <= s.w.tail
    ensures Leads(cfg, s, u, Enqueuer(i, v)) && Holding(cfg, u, q + [v])
    ensures u.pcs == s.pcs[i := Idle] && u.w == Counted(cfg, s.w.(tail := s.w.tail + 1))
    ensures u.g.log == s.g.log + [EnqReturned(op, s.w.tail)]
  {
    var c, t := Enqueuer(i, v), s.w.tail;
    FreeSlot(cfg, s, v, q);
    var s1 := EnqDraws(cfg, s, i, v, op);
    var s2 := EnqCommits(cfg, s1, i, v, op, t);
    u := EnqReturns(cfg, s2, i, v, op, t);
    LeadsOn(cfg, s, s1, s2, c);
    LeadsOn(cfg, s, s2, u, c);
  }

  /** Between calls, with room: the element is appended, under the next ticket not behind the head. */
  lemma EnqueueAlone(cfg: Config, s: State, i: nat, v: Value, q: seq<Value>) returns (u: State)
    requires Calm(cfg, s, q) && i < |s.pcs| && cfg.Accepts(Some(v)) && |q| < cfg.n
    ensures Leads(cfg, s, u, Choice(i, false, Some(v), false)) && Rest(cfg, u, q + [v])
    ensures u.g.log == s.g.log + [EnqCalled(v), EnqReturned(|s.g.log|, R.Max(s.w.head, s.w.tail))]
    ensures u.w.head == s.w.head && u.w.tail == R.Max(s.w.head, s.w.tail) + 1 && u.pcs == s.pcs
  {
    var c, op := Enqueuer(i, v), |s.g.log|;
    var s1 := EnqBegins(cfg, s, i, v);
    var s2 := EnqCatchesUp(cfg, s1, i, v, op, q);
    u := EnqFinishes(cfg, s2, i, v, op, q);
    LeadsOn(cfg, s, s1, s2, c);
    LeadsOn(cfg, s, s2, u, c);
    assert s.pcs[i := Idle] == s.pcs;
  }

  /** Between calls SCQP refuses exactly when the ring is full, and changes nothing but the log. */
  lemma RefusedAlone(cfg: Config, s: State, i: nat, v: Value, q: seq<Value>) returns (u: State)
    requires Calm(cfg, s, q) && i < |s.pcs| && !cfg.variant.Scq? && |q| == cfg.n
    ensures Leads(cfg, s, u, Choice(i, false, Some(v), false)) && Calm(cfg, u, q)
    ensures exists r: nat :: u.g.log == s.g.log + [EnqCalled(v), EnqRefused(|s.g.log|, r)]
    ensures u.w == s.w && u.slots == s.slots && u.pcs == s.pcs
  {
    var c, op := Enqueuer(i, v), |s.g.log|;
    var s1 := EnqBegins(cfg, s, i, v);
    u := EnqCounts(cfg, s1, i, v, op);
    LeadsOn(cfg, s, s1, u, c);
    var r: nat :| Moved(cfg, s1, u, i, Idle, s1.w, s1.slots, s1.g.log + [EnqRefused(op, r)]);
    assert u.g.log == s.g.log + [EnqCalled(v), EnqRefused(op, r)];
    assert s.pcs[i := Idle] == s.pcs;
  }

  // ----- dequeue -----

  /** The last entry of the log says empty. */
  ghost predicate SaidEmpty(before: seq<Event>, log: seq<Event>, i: nat) {
    |log| == |before| + 1 && log[..|before|] == before && log[|before|].DeqEmpty? && log[|before|].tid == i
  }

  ghost predicate Ended(cfg: Config, s: State, u: State, i: nat, w: Words) {
    && Sized(cfg, u) && i < |s.pcs| && u.pcs == s.pcs[i := Idle] && u.w == w && u.slots == s.slots
    && SaidEmpty(s.g.log, u.g.log, i)
  }

  lemma DeqStarts(cfg: Config, s: State, i: nat) returns (u: State, a: nat)
    requires Sized(cfg, s) && i < |s.pcs| && s.pcs[i].Idle?
    ensures Leads(cfg, s, u, Dequeuer(i))
    ensures Moved(cfg, s, u, i, if s.w.threshold < 0 then DeqEntryHead(a) else DeqClaim(a), s.w, s.slots, s.g.log)
  {
    var c := Dequeuer(i);
    var s1 := Next(cfg, s, c);
    a := s.g.clock;
    assert Moved(cfg, s, s1, i, DeqReadThreshold(a), s.w, s.slots, s.g.log);
    u := Next(cfg, s1, c);
    LeadsOne(cfg, s, c);
    LeadsOne(cfg, s1, c);
    LeadsOn(cfg, s, s1, u, c);
    Again(s, i, s1.pcs[i], u.pcs[i]);
  }

  /** The look at head and tail that a used-up threshold costs. */
  lemma DeqChecks(cfg: Config, s: State, i: nat, a: nat) returns (u: State)
    requires Sized(cfg, s) && i < |s.pcs| && s.pcs[i] == DeqEntryHead(a)
    ensures Leads(cfg, s, u, Dequeuer(i))
    ensures if s.w.tail > s.w.head then Moved(cfg, s, u, i, DeqLoopReset(a), s.w, s.slots, s.g.log)
            else Ended(cfg, s, u, i, s.w)
  {
    var c := Dequeuer(i);
    var s1 := Next(cfg, s, c);
    assert Moved(cfg, s, s1, i, DeqEntryTail(a, s.w.head), s.w, s.slots, s.g.log);
    u := Next(cfg, s1, c);
    LeadsOne(cfg, s, c);
    LeadsOne(cfg, s1, c);
    LeadsOn(cfg, s, s1, u, c);
    Again(s, i, s1.pcs[i], u.pcs[i]);
  }

  lemma DeqResets(cfg: Config, s: State, i: nat, a: nat) returns (u: State)
    requires Sized(cfg, s) && i < |s.pcs| && s.pcs[i] == DeqLoopReset(a)
    ensures Leads(cfg, s, u, Dequeuer(i))
    ensures Moved(cfg, s, u, i, DeqClaim(a), s.w.(threshold := cfg.ThresholdReset()), s.slots, s.g.log)
  {
    u := Next(cfg, s, Dequeuer(i));
    LeadsOne(cfg, s, Dequeuer(i));
  }

  /** The words with which a ticket is drawn: a used-up threshold is reset first. */
  function Primed(cfg: Config, w: Words): Words {
    if w.threshold < 0 then w.(threshold := cfg.ThresholdReset()) else w
  }

  /** To the claim of a ticket. */
  lemma DeqBegins(cfg: Config, s: State, i: nat) returns (u: State, a: nat)
    requires Sized(cfg, s) && i < |s.pcs| && s.pcs[i].Idle? && (s.w.threshold < 0 ==> s.w.tail > s.w.head)
    ensures Leads(cfg, s, u, Dequeuer(i)) && Moved(cfg, s, u, i, DeqClaim(a), Primed(cfg, s.w), s.slots, s.g.log)
  {
    u, a := DeqStarts(cfg, s, i);
    if s.w.threshold < 0 {
      var s1 := u;
      var s2 := DeqChecks(cfg, s1, i, a);
      u := DeqResets(cfg, s2, i, a);
      LeadsOn(cfg, s, s1, s2, Dequeuer(i));
      LeadsOn(cfg, s, s2, u, Dequeuer(i));
    }
  }

  lemma DeqClaims(cfg: Config, s: State, i: nat, a: nat) returns (u: State)
    requires Sized(cfg, s) && i < |s.pcs| && s.pcs[i] == DeqClaim(a)
    ensures Leads(cfg, s, u, Dequeuer(i))
    ensures Moved(cfg, s, u, i, DeqLoad(a, s.w.head, 0), s.w.(head := s.w.head + 1), s.slots,
                  s.g.log + [DeqClaimed(s.w.head)])
  {
    u := Next(cfg, s, Dequeuer(i));
    LeadsOne(cfg, s, Dequeuer(i));
  }

  /** What the words are when an element is returned. */
  function Delivered(cfg: Config, w: Words): Words {
    w.(deqOk := w.deqOk + if cfg.variant.Scq? then 0 else 1)
  }

  lemma DeqTakes(cfg: Config, s: State, i: nat, a: nat, h: nat, v: Value) returns (u: State)
    requires Sized(cfg, s) && i < |s.pcs| && s.pcs[i] == DeqTake(a, h, v)
    ensures var slots, j := s.slots, SlotOf(cfg.n, h);
            && Leads(cfg, s, u, Dequeuer(i))
            && if cfg.variant.Scq? then
                 Moved(cfg, s, u, i, Idle, s.w, slots[j := slots[j].(val := None)], s.g.log + [DeqReturned(h, v)])
               else Moved(cfg, s, u, i, DeqCount(h, v), s.w, slots[j := slots[j].(val := None)], s.g.log)
  {
    u := Next(cfg, s, Dequeuer(i));
    LeadsOne(cfg, s, Dequeuer(i));
  }

  lemma DeqCountsUp(cfg: Config, s: State, i: nat, h: nat, v: Value) returns (u: State)
    requires Sized(cfg, s) && i < |s.pcs| && s.pcs[i] == DeqCount(h, v)
    ensures Leads(cfg, s, u, Dequeuer(i))
    ensures Moved(cfg, s, u, i, Idle, s.w.(deqOk := s.w.deqOk + 1), s.slots, s.g.log + [DeqReturned(h, v)])
  {
    u := Next(cfg, s, Dequeuer(i));
    LeadsOne(cfg, s, Dequeuer(i));
  }

  /** The element of the ticket is loaded, taken and returned. */
  lemma DeqReturns(cfg: Config, s: State, i: nat, a: nat, h: nat) returns (u: State)
    requires Sized(cfg, s) && i < |s.pcs| && s.pcs[i] == DeqLoad(a, h, 0)
    requires var sl := s.slots[SlotOf(cfg.n, h)]; sl.cycle == Cycle(cfg.n, h) && sl.safe && sl.val.Some?
    ensures var slots, j := s.slots, SlotOf(cfg.n, h);
            && Leads(cfg, s, u, Dequeuer(i))
            && Moved(cfg, s, u, i, Idle, Delivered(cfg, s.w), slots[j := slots[j].(val := None)],
                     s.g.log + [DeqReturned(h, slots[j].val.value)])
  {
    var c, v := Dequeuer(i), s.slots[SlotOf(cfg.n, h)].val.value;
    var s1 := Next(cfg, s, c);
    LeadsOne(cfg, s, c);
    assert Moved(cfg, s, s1, i, DeqTake(a, h, v), s.w, s.slots, s.g.log);
    var s2 := DeqTakes(cfg, s1, i, a, h, v);
    LeadsOn(cfg, s, s1, s2, c);
    if cfg.variant.Scq? {
      u := s2;
    } else {
      u := DeqCountsUp(cfg, s2, i, h, v);
      LeadsOn(cfg, s, s2, u, c);
    }
  }

  /** The head's slot of a queue that is not empty, before and after. */
  lemma FirstSlot(cfg: Config, s: State, q: seq<Value>)
    requires Holding(cfg, s, q) && q != []
    ensures var h, j := s.w.head, SlotOf(cfg.n, s.w.head);
            && s.slots[j] == Slot(Cycle(cfg.n, h), true, Some(q[0]))
            && R.Holds(cfg.n, h + 1, s.w.tail, q[1..], Plain(s.slots[j := s.slots[j].(val := None)]))
  {
    var h, j := s.w.head, SlotOf(cfg.n, s.w.head);
    R.HeadSlot(cfg.n, h, s.w.tail, q, Plain(s.slots));
    assert Plain(s.slots)[j] == R.Slot(s.slots[j].cycle, s.slots[j].safe, s.slots[j].val);
    R.TakeHolds(cfg.n, h, s.w.tail, q, Plain(s.slots));
    PlainUpdate(s.slots, j, s.slots[j].(val := None));
  }

  /** Up to the load under a new ticket. */
  lemma DeqDraws(cfg: Config, s: State, i: nat) returns (u: State, a: nat)
    requires Sized(cfg, s) && i < |s.pcs| && s.pcs[i].Idle? && (s.w.threshold < 0 ==> s.w.tail > s.w.head)
    ensures Leads(cfg, s, u, Dequeuer(i))
    ensures Moved(cfg, s, u, i, DeqLoad(a, s.w.head, 0), Primed(cfg, s.w).(head := s.w.head + 1), s.slots,
                  s.g.log + [DeqClaimed(s.w.head)])
  {
    var s1;
    s1, a := DeqBegins(cfg, s, i);
    u := DeqClaims(cfg, s1, i, a);
    LeadsOn(cfg, s, s1, u, Dequeuer(i));
    Again(s, i, s1.pcs[i], u.pcs[i]);
  }

  /** The oldest element is returned. */
  lemma TakenAlone(cfg: Config, s: State, i: nat, q: seq<Value>) returns (u: State)
    requires Calm(cfg, s, q) && i < |s.pcs| && q != []
    ensures Leads(cfg, s, u, Choice(i, true, None, false)) && Calm(cfg, u, q[1..])
    ensures u.g.log == s.g.log + [DeqClaimed(s.w.head), DeqReturned(s.w.head, q[0])]
    ensures u.w.head == s.w.head + 1 && u.w.tail == s.w.tail && u.pcs == s.pcs
    ensures u.w.threshold == if s.w.threshold < 0 then cfg.ThresholdReset() else s.w.threshold
  {
    FirstSlot(cfg, s, q);
    var s1, a := DeqDraws(cfg, s, i);
    u := DeqReturns(cfg, s1, i, a, s.w.head);
    LeadsOn(cfg, s, s1, u, Dequeuer(i));
    assert s.pcs[i := Idle] == s.pcs;
  }

  // ----- dequeue on an empty queue -----

  /** The slot one cycle behind is advanced, and the tail turns out not to be past the ticket. */
  lemma DeqMarks(cfg: Config, s: State, i: nat, a: nat, h: nat) returns (u: State)
    requires Sized(cfg, s) && i < |s.pcs| && s.pcs[i] == DeqLoad(a, h, 0)
    requires var sl := s.slots[SlotOf(cfg.n, h)]; sl.cycle < Cycle(cfg.n, h) && sl.safe && sl.val.None?
    ensures Leads(cfg, s, u, Dequeuer(i))
    ensures Moved(cfg, s, u, i, DeqTail(a, h), s.w,
                  s.slots[SlotOf(cfg.n, h) := Slot(Cycle(cfg.n, h), true, None)], s.g.log)
  {
    var c, sl := Dequeuer(i), s.slots[SlotOf(cfg.n, h)];
    var s1 := Next(cfg, s, c);
    LeadsOne(cfg, s, c);
    assert Moved(cfg, s, s1, i, DeqCas(a, h, 0, sl), s.w, s.slots, s.g.log);
    u := DeqAdvances(cfg, s1, i, a, h);
    LeadsOn(cfg, s, s1, u, c);
    Again(s, i, s1.pcs[i], u.pcs[i]);
  }

  lemma DeqAdvances(cfg: Config, s: State, i: nat, a: nat, h: nat) returns (u: State)
    requires Sized(cfg, s) && i < |s.pcs| && s.pcs[i] == DeqCas(a, h, 0, s.slots[SlotOf(cfg.n, h)])
    requires s.slots[SlotOf(cfg.n, h)].safe && s.slots[SlotOf(cfg.n, h)].val.None?
    ensures Leads(cfg, s, u, Dequeuer(i))
    ensures Moved(cfg, s, u, i, DeqTail(a, h), s.w,
                  s.slots[SlotOf(cfg.n, h) := Slot(Cycle(cfg.n, h), true, None)], s.g.log)
  {
    u := Next(cfg, s, Dequeuer(i));
    LeadsOne(cfg, s, Dequeuer(i));
  }

  lemma DeqSeesTail(cfg: Config, s: State, i: nat, a: nat, h: nat) returns (u: State, x: Option<nat>)
    requires Sized(cfg, s) && i < |s.pcs| && s.pcs[i] == DeqTail(a, h) && s.w.tail <= h + 1
    ensures Leads(cfg, s, u, Dequeuer(i)) && x.Some?
    ensures Moved(cfg, s, u, i, DeqPenalty(a, x), s.w, s.slots, s.g.log)
  {
    u, x := Next(cfg, s, Dequeuer(i)), Some(s.g.clock);
    LeadsOne(cfg, s, Dequeuer(i));
  }

  lemma DeqPays(cfg: Config, s: State, i: nat, a: nat, x: Option<nat>) returns (u: State)
    requires Sized(cfg, s) && i < |s.pcs| && s.pcs[i] == DeqPenalty(a, x) && x.Some?
    ensures var w := s.w.(threshold := s.w.threshold - 1);
            && Leads(cfg, s, u, Dequeuer(i))
            && if w.threshold > 0 then Ended(cfg, s, u, i, w)
               else Moved(cfg, s, u, i, DeqHeadNow(a, x), w, s.slots, s.g.log)
  {
    u := Next(cfg, s, Dequeuer(i));
    LeadsOne(cfg, s, Dequeuer(i));
  }

  /** Head and tail are read again: the call ends, or they are too far apart. */
  lemma DeqLooksAgain(cfg: Config, s: State, i: nat, a: nat, x: Option<nat>) returns (u: State)
    requires Sized(cfg, s) && i < |s.pcs| && s.pcs[i] == DeqHeadNow(a, x) && x.Some? && s.w.head >= s.w.tail
    ensures Leads(cfg, s, u, Dequeuer(i))
    ensures if s.w.head > s.w.tail + cfg.n then Moved(cfg, s, u, i, FixHead(a, x), s.w, s.slots, s.g.log)
            else Ended(cfg, s, u, i, s.w)
  {
    var c := Dequeuer(i);
    var s1 := Next(cfg, s, c);
    LeadsOne(cfg, s, c);
    assert Moved(cfg, s, s1, i, DeqTailNow(a, x, s.w.head), s.w, s.slots, s.g.log);
    u := Next(cfg, s1, c);
    LeadsOne(cfg, s1, c);
    LeadsOn(cfg, s, s1, u, c);
    Again(s, i, s1.pcs[i], u.pcs[i]);
  }

  lemma FixReads(cfg: Config, s: State, i: nat, a: nat, x: Option<nat>) returns (u: State)
    requires Sized(cfg, s) && i < |s.pcs| && s.pcs[i] == FixHead(a, x) && s.w.head > s.w.tail + cfg.n
    ensures Leads(cfg, s, u, Dequeuer(i))
    ensures Moved(cfg, s, u, i, FixCas(a, x, s.w.head, s.w.tail), s.w, s.slots, s.g.log)
  {
    var c := Dequeuer(i);
    var s1 := Next(cfg, s, c);
    LeadsOne(cfg, s, c);
    assert Moved(cfg, s, s1, i, FixTail(a, x, s.w.head), s.w, s.slots, s.g.log);
    u := Next(cfg, s1, c);
    LeadsOne(cfg, s1, c);
    LeadsOn(cfg, s, s1, u, c);
    Again(s, i, s1.pcs[i], u.pcs[i]);
  }

  /** The tail is moved up to the head, the threshold is reset, and the call ends. */
  lemma FixEnds(cfg: Config, s: State, i: nat, a: nat, x: Option<nat>) returns (u: State)
    requires Sized(cfg, s) && i < |s.pcs| && s.pcs[i] == FixCas(a, x, s.w.head, s.w.tail)
    ensures Leads(cfg, s, u, Dequeuer(i))
    ensures Ended(cfg, s, u, i, s.w.(tail := s.w.head, threshold := cfg.ThresholdReset()))
  {
    var c := Dequeuer(i);
    var s1 := Next(cfg, s, c);
    LeadsOne(cfg, s, c);
    assert Moved(cfg, s, s1, i, DeqFinalReset(a, x), s.w.(tail := s.w.head), s.slots, s.g.log);
    u := Next(cfg, s1, c);
    LeadsOne(cfg, s1, c);
    LeadsOn(cfg, s, s1, u, c);
    Again(s, i, s1.pcs[i], u.pcs[i]);
  }

  /** What a failed attempt leaves of the words: one off the threshold; once that is used up and the
      tail is a ring behind, tail and threshold anew. */
  function Penalised(cfg: Config, w: Words): Words {
    if w.threshold <= 1 && w.head > w.tail + cfg.n then w.(tail := w.head, threshold := cfg.ThresholdReset())
    else w.(threshold := w.threshold - 1)
  }

  lemma DeqRepairs(cfg: Config, s: State, i: nat, a: nat, x: Option<nat>) returns (u: State)
    requires Sized(cfg, s) && i < |s.pcs| && s.pcs[i] == FixHead(a, x) && s.w.head > s.w.tail + cfg.n
    ensures Leads(cfg, s, u, Dequeuer(i))
    ensures Ended(cfg, s, u, i, s.w.(tail := s.w.head, threshold := cfg.ThresholdReset()))
  {
    var s1 := FixReads(cfg, s, i, a, x);
    u := FixEnds(cfg, s1, i, a, x);
    LeadsOn(cfg, s, s1, u, Dequeuer(i));
  }

  lemma DeqSettles(cfg: Config, s: State, i: nat, a: nat, x: Option<nat>) returns (u: State)
    requires Sized(cfg, s) && i < |s.pcs| && s.pcs[i] == DeqHeadNow(a, x) && x.Some? && s.w.head >= s.w.tail
    ensures Leads(cfg, s, u, Dequeuer(i))
    ensures Ended(cfg, s, u, i, if s.w.head > s.w.tail + cfg.n
                                then s.w.(tail := s.w.head, threshold := cfg.ThresholdReset()) else s.w)
  {
    var s1 := DeqLooksAgain(cfg, s, i, a, x);
    if s.w.head > s.w.tail + cfg.n {
      u := DeqRepairs(cfg, s1, i, a, x);
      LeadsOn(cfg, s, s1, u, Dequeuer(i));
    } else {
      u := s1;
    }
  }

  lemma DeqGivesUp(cfg: Config, s: State, i: nat, a: nat, x: Option<nat>) returns (u: State)
    requires Sized(cfg, s) && i < |s.pcs| && s.pcs[i] == DeqPenalty(a, x) && x.Some? && s.w.head >= s.w.tail
    ensures Leads(cfg, s, u, Dequeuer(i)) && Ended(cfg, s, u, i, Penalised(cfg, s.w))
  {
    var s1 := DeqPays(cfg, s, i, a, x);
    if s.w.threshold > 1 {
      u := s1;
    } else {
      u := DeqSettles(cfg, s1, i, a, x);
      LeadsOn(cfg, s, s1, u, Dequeuer(i));
    }
  }

  /** The attempt on an empty queue, up to its price. */
  lemma EmptyAttempt(cfg: Config, s: State, i: nat) returns (u: State, a: nat, x: Option<nat>)
    requires Calm(cfg, s, []) && i < |s.pcs| && s.w.threshold >= 0
    ensures Leads(cfg, s, u, Dequeuer(i)) && x.Some? && Holding(cfg, u, [])
    ensures Moved(cfg, s, u, i, DeqPenalty(a, x), s.w.(head := s.w.head + 1), u.slots,
                  s.g.log + [DeqClaimed(s.w.head)])
  {
    var c, h := Dequeuer(i), s.w.head;
    EmptySlot(cfg, s);
    var s1;
    s1, a := DeqDraws(cfg, s, i);
    var s2 := DeqMarks(cfg, s1, i, a, h);
    u, x := DeqSeesTail(cfg, s2, i, a, h);
    LeadsOn(cfg, s, s1, s2, c);
    LeadsOn(cfg, s, s2, u, c);
  }

  /** The head's slot of an empty queue, before and after. */
  lemma EmptySlot(cfg: Config, s: State)
    requires Holding(cfg, s, [])
    ensures var h, j := s.w.head, SlotOf(cfg.n, s.w.head);
            && s.slots[j].cycle < Cycle(cfg.n, h) && s.slots[j].safe && s.slots[j].val.None?
            && R.Holds(cfg.n, h + 1, s.w.tail, [], Plain(s.slots[j := Slot(Cycle(cfg.n, h), true, None)]))
  {
    var h, j := s.w.head, SlotOf(cfg.n, s.w.head);
    R.HeadSlotEmpty(cfg.n, h, s.w.tail, Plain(s.slots));
    assert Plain(s.slots)[j] == R.Slot(s.slots[j].cycle, s.slots[j].safe, s.slots[j].val);
    R.AdvanceHolds(cfg.n, h, s.w.tail, Plain(s.slots));
    PlainUpdate(s.slots, j, Slot(Cycle(cfg.n, h), true, None));
  }

  /** A used-up threshold answers at once: no ticket is drawn and nothing changes. */
  lemma EmptyAtOnce(cfg: Config, s: State, i: nat) returns (u: State)
    requires Calm(cfg, s, []) && i < |s.pcs| && s.w.threshold < 0
    ensures Leads(cfg, s, u, Choice(i, true, None, false)) && Calm(cfg, u, [])
    ensures SaidEmpty(s.g.log, u.g.log, i) && u.w == s.w && u.slots == s.slots && u.pcs == s.pcs
  {
    var s1, a := DeqStarts(cfg, s, i);
    u := DeqChecks(cfg, s1, i, a);
    LeadsOn(cfg, s, s1, u, Dequeuer(i));
    assert s.pcs[i := Idle] == s.pcs;
  }

  /** Otherwise an empty queue says so after one ticket, and pays for it. */
  lemma EmptyAlone(cfg: Config, s: State, i: nat) returns (u: State)
    requires Calm(cfg, s, []) && i < |s.pcs| && s.w.threshold >= 0
    ensures Leads(cfg, s, u, Choice(i, true, None, false)) && Calm(cfg, u, [])
    ensures SaidEmpty(s.g.log + [DeqClaimed(s.w.head)], u.g.log, i)
    ensures u.w.head == s.w.head + 1 && u.pcs == s.pcs
    ensures if s.w.threshold <= 1 && s.w.head + 1 > s.w.tail + cfg.n
            then u.w.tail == u.w.head && u.w.threshold == cfg.ThresholdReset()
            else u.w.tail == s.w.tail && u.w.threshold == s.w.threshold - 1
  {
    var s1, a, x := EmptyAttempt(cfg, s, i);
    u := DeqGivesUp(cfg, s1, i, a, x);
    LeadsOn(cfg, s, s1, u, Dequeuer(i));
    R.CatchUpHolds(cfg.n, s1.w.head, s1.w.tail, u.w.tail, Plain(s1.slots));
    assert s.pcs[i := Idle] == s.pcs;
  }

  // ----- whole serial runs -----

  datatype Call = Put(i: nat, v: Value) | Get(i: nat)

  datatype Reply = Stored | Full | Got(v: Value) | Nothing

  /** The choice with which a call's thread is scheduled until the call is over. */
  function ChoiceOf(call: Call): Choice {
    match call
    case Put(i, v) => Choice(i, false, Some(v), false)
    case Get(i) => Choice(i, true, None, false)
  }

  /** The answers in a log. */
  function Replies(log: seq<Event>): seq<Reply> {
    if log == [] then []
    else
      Replies(log[..|log| - 1])
      + match log[|log| - 1] {
          case EnqReturned(_, _) => [Stored]
          case EnqRefused(_, _) => [Full]
          case DeqReturned(_, v) => [Got(v)]
          case DeqEmpty(_, _, _, _) => [Nothing]
          case _ => []
        }
  }

  /** A FIFO with room for n elements. */
  function FifoNext(n: nat, q: seq<Value>, call: Call): seq<Value> {
    match call
    case Put(_, v) => if |q| < n then q + [v] else q
    case Get(_) => if q == [] then [] else q[1..]
  }

  function FifoReply(n: nat, q: seq<Value>, call: Call): Reply {
    match call
    case Put(_, _) => if |q| < n then Stored else Full
    case Get(_) => if q == [] then Nothing else Got(q[0])
  }

  function FifoAfter(n: nat, calls: seq<Call>): seq<Value> {
    if calls == [] then [] else FifoNext(n, FifoAfter(n, calls[..|calls| - 1]), calls[|calls| - 1])
  }

  function FifoReplies(n: nat, calls: seq<Call>): seq<Reply> {
    if calls == [] then []
    else
      FifoReplies(n, calls[..|calls| - 1])
      + [FifoReply(n, FifoAfter(n, calls[..|calls| - 1]), calls[|calls| - 1])]
  }

  /** A call of an existing thread with a value the ring stores; SCQ is not called when full. */
  ghost predicate Fair(cfg: Config, threads: nat, q: seq<Value>, call: Call) {
    match call
    case Put(i, v) => i < threads && cfg.Accepts(Some(v)) && (cfg.variant.Scq? ==> |q| < cfg.n)
    case Get(i) => i < threads
  }

  ghost predicate AllFair(cfg: Config, threads: nat, calls: seq<Call>) {
    forall k :: 0 <= k < |calls| ==> Fair(cfg, threads, FifoAfter(cfg.n, calls[..k]), calls[k])
  }

  lemma RepliesTwo(log: seq<Event>, a: Event, b: Event)
    requires a.EnqCalled? || a.DeqClaimed?
    ensures Replies(log + [a, b]) == Replies(log) + Replies([b])
  {
    assert (log + [a, b])[..|log| + 1] == log + [a];
    assert (log + [a])[..|log|] == log;
    assert [b][..0] == [];
  }

  lemma PutAnswer(cfg: Config, s: State, q: seq<Value>, i: nat, v: Value) returns (u: State)
    requires Rest(cfg, s, q) && Fair(cfg, |s.pcs|, q, Put(i, v))
    ensures Leads(cfg, s, u, ChoiceOf(Put(i, v))) && Rest(cfg, u, FifoNext(cfg.n, q, Put(i, v))) && |u.pcs| == |s.pcs|
    ensures Replies(u.g.log) == Replies(s.g.log) + [FifoReply(cfg.n, q, Put(i, v))]
  {
    if |q| < cfg.n {
      u := EnqueueAlone(cfg, s, i, v, q);
      RepliesTwo(s.g.log, EnqCalled(v), EnqReturned(|s.g.log|, R.Max(s.w.head, s.w.tail)));
    } else {
      u := RefusedAlone(cfg, s, i, v, q);
      var r: nat :| u.g.log == s.g.log + [EnqCalled(v), EnqRefused(|s.g.log|, r)];
      RepliesTwo(s.g.log, EnqCalled(v), EnqRefused(|s.g.log|, r));
    }
  }

  lemma GetAnswer(cfg: Config, s: State, q: seq<Value>, i: nat) returns (u: State)
    requires Rest(cfg, s, q) && i < |s.pcs|
    ensures Leads(cfg, s, u, ChoiceOf(Get(i))) && Rest(cfg, u, FifoNext(cfg.n, q, Get(i))) && |u.pcs| == |s.pcs|
    ensures Replies(u.g.log) == Replies(s.g.log) + [FifoReply(cfg.n, q, Get(i))]
  {
    if q == [] {
      u := EmptyAlone(cfg, s, i);
      var e := u.g.log[|s.g.log| + 1];
      assert u.g.log == s.g.log + [DeqClaimed(s.w.head), e];
      RepliesTwo(s.g.log, DeqClaimed(s.w.head), e);
    } else {
      u := TakenAlone(cfg, s, i, q);
      RepliesTwo(s.g.log, DeqClaimed(s.w.head), DeqReturned(s.w.head, q[0]));
    }
  }

  /** One call, of either kind. */
  lemma AnswerAlone(cfg: Config, s: State, q: seq<Value>, call: Call) returns (u: State)
    requires Rest(cfg, s, q) && Fair(cfg, |s.pcs|, q, call)
    ensures Leads(cfg, s, u, ChoiceOf(call)) && Rest(cfg, u, FifoNext(cfg.n, q, call)) && |u.pcs| == |s.pcs|
    ensures Replies(u.g.log) == Replies(s.g.log) + [FifoReply(cfg.n, q, call)]
  {
    match call
    case Put(i, v) =>
      u := PutAnswer(cfg, s, q, i, v);
    case Get(i) =>
      u := GetAnswer(cfg, s, q, i);
  }

  /** A call run from a to b, where it is over. */
  ghost predicate Served(cfg: Config, a: State, b: State, call: Call) {
    Leads(cfg, a, b, ChoiceOf(call)) && AllIdle(b)
  }

  /** The states between the calls when they are made one after the other, each run until it is over. */
  ghost predicate Serially(cfg: Config, threads: nat, calls: seq<Call>, states: seq<State>) {
    && cfg.Valid() && |states| == |calls| + 1 && states[0] == Init(cfg, threads)
    && forall k :: 0 <= k < |calls| ==> Served(cfg, states[k], states[k + 1], calls[k])
  }

  /** Any calls of any threads, one at a time, are answered as by a FIFO of the ring's size. */
  lemma {:induction false} Serve(cfg: Config, threads: nat, calls: seq<Call>) returns (states: seq<State>)
    requires cfg.Valid() && AllFair(cfg, threads, calls)
    ensures Serially(cfg, threads, calls, states)
    ensures var s := states[|calls|];
            && |s.pcs| == threads && Rest(cfg, s, FifoAfter(cfg.n, calls))
            && Replies(s.g.log) == FifoReplies(cfg.n, calls)
  {
    if calls == [] {
      states := [Init(cfg, threads)];
      StartIsRest(cfg, threads);
    } else {
      var last := |calls| - 1;
      forall k | 0 <= k < last ensures Fair(cfg, threads, FifoAfter(cfg.n, calls[..last][..k]), calls[..last][k]) {
        assert calls[..last][..k] == calls[..k];
        assert Fair(cfg, threads, FifoAfter(cfg.n, calls[..k]), calls[k]);
      }
      var before := Serve(cfg, threads, calls[..last]);
      var s := AnswerAlone(cfg, before[last], FifoAfter(cfg.n, calls[..last]), calls[last]);
      states := before + [s];
      forall k | 0 <= k < |calls| ensures Served(cfg, states[k], states[k + 1], calls[k]) {
        if k < last {
          assert calls[..last][k] == calls[k];
        }
      }
    }
  }
}
