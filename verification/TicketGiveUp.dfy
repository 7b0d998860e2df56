/** What an empty result owes to enqueues that returned before the call: with SCQP every
    such element has been claimed at some moment of the call.  SCQ gives up when its
    threshold is used up although the tail is ahead; with two threads that misses an
    element, with one it cannot. */
module TicketGiveUp {
  import opened Ring
  import opened TicketQueue
  import opened TicketOrder
  import opened TicketEmpty
  import opened TicketSteps
  import opened TicketAlone

  /** Every enqueue that returned before the call began was claimed by a dequeue ticket at
      some moment of the call. */
  ghost predicate Answered(cfg: Config, threads: nat, sch: seq<Choice>, e: Event)
    requires cfg.Valid() && e.DeqEmpty?
  {
    && e.started <= e.returned <= |sch|
    && forall u: nat :: ReturnedBy(Run(cfg, threads, sch[..e.started]).g, u) ==>
         exists m: nat :: e.started <= m <= e.returned && u < Run(cfg, threads, sch[..m]).w.head
  }

  ghost predicate MissesNothing(cfg: Config, threads: nat)
    requires cfg.Valid()
  {
    forall sch: seq<Choice>, p: nat ::
      p < |Run(cfg, threads, sch).g.log| && Run(cfg, threads, sch).g.log[p].DeqEmpty? ==>
        Answered(cfg, threads, sch, Run(cfg, threads, sch).g.log[p])
  }

  // ----- a moment with tail <= head answers for everything -----

  lemma ReturnedIsCommitted(s: State, u: nat)
    requires LogInv(s) && ReturnedBy(s.g, u)
    ensures u in s.g.commit
  {
    var q :| 0 <= q < |s.g.log| && s.g.log[q].EnqReturned? && s.g.log[q].t == u;
    assert EventOk(s.w, s.g, q);
  }

  lemma SeenAnswers(cfg: Config, threads: nat, sch: seq<Choice>, p: nat)
    requires cfg.Valid()
    requires p < |Run(cfg, threads, sch).g.log| && Run(cfg, threads, sch).g.log[p].DeqEmpty?
    requires Run(cfg, threads, sch).g.log[p].seen.Some?
    ensures Answered(cfg, threads, sch, Run(cfg, threads, sch).g.log[p])
  {
    var e := Run(cfg, threads, sch).g.log[p];
    EmptyIsJustified(cfg, threads, sch, p);
    var m := e.seen.value;
    forall u: nat | ReturnedBy(Run(cfg, threads, sch[..e.started]).g, u)
      ensures u < Run(cfg, threads, sch[..m]).w.head
    {
      RunLogInv(cfg, threads, sch[..e.started]);
      ReturnedIsCommitted(Run(cfg, threads, sch[..e.started]), u);
      RunGrows(cfg, threads, sch[..m], e.started);
      assert sch[..m][..e.started] == sch[..e.started];
    }
  }

  // ----- the run that gives up -----

  /** The largest number of failed attempts the threshold allows. */
  function Limit(n: nat): int {
    n + n / 2 - 1
  }

  function Producer(): Choice { Choice(0, false, Some(0), false) }

  function Consumer(): Choice { Choice(1, true, None, false) }

  // ----- the slots along the run -----

  /** The n tickets below top own the slots.  Those from lo up to 2n are occupied, except
      for the slot of ticket n, which is x. */
  ghost predicate Laid(n: nat, slots: seq<Slot>, top: nat, lo: nat, x: Slot) {
    && RingSize(n) && |slots| == n <= top && slots[SlotOf(n, n)] == x
    && forall p: nat :: top - n <= p < top && SlotOf(n, p) != SlotOf(n, n) ==>
         slots[SlotOf(n, p)] == Slot(Cycle(n, p), true, if lo <= p < 2 * n then Some(0) else None)
  }

  function Blank(): Slot { Slot(0, true, None) }

  function First(n: nat): Slot { Slot(Cycle(n, n), true, Some(0)) }

  function Emptied(n: nat): Slot { Slot(Cycle(n, n), true, None) }

  function Last(n: nat): Slot { Slot(Cycle(n, 4 * n), true, Some(0)) }

  lemma FourthRound(n: nat)
    requires RingSize(n)
    ensures SlotOf(n, 4 * n) == SlotOf(n, n) == SlotOf(n, 0) && Cycle(n, n) == 1 && Cycle(n, 4 * n) == 4
  {
    NextRound(n, 0);
    NextRound(n, n);
    NextRound(n, 2 * n);
    NextRound(n, 3 * n);
  }

  /** The slot of ticket n + k is free, and committing there lays one ticket more. */
  lemma LaidFill(n: nat, slots: seq<Slot>, k: nat)
    requires k < n && Laid(n, slots, n + k, n, if k == 0 then Blank() else First(n))
    ensures var j := SlotOf(n, n + k);
            && slots[j] == Slot(Cycle(n, n + k) - 1, true, None)
            && Laid(n, slots[j := Slot(Cycle(n, n + k), true, Some(0))], n + k + 1, n, First(n))
  {
    FourthRound(n);
    NextRound(n, k);
    var j := SlotOf(n, n + k);
    if k > 0 {
      ConsecutiveTicketsDistinctSlots(n, 0, 0, k);
    }
    var slots' := slots[j := Slot(Cycle(n, n + k), true, Some(0))];
    forall p: nat | k + 1 <= p < n + k + 1 && SlotOf(n, p) != SlotOf(n, n)
      ensures slots'[SlotOf(n, p)] == Slot(Cycle(n, p), true, if n <= p < 2 * n then Some(0) else None)
    {
      if p < n + k {
        ConsecutiveTicketsDistinctSlots(n, k + 1, p, n + k);
      }
    }
  }

  /** A laid-out ring is full. */
  lemma LaidFull(n: nat, slots: seq<Slot>, t: nat)
    requires Laid(n, slots, 2 * n, n, First(n))
    ensures slots[SlotOf(n, t)].val.Some?
  {
    var p := TicketOfSlot(n, n, SlotOf(n, t));
  }

  /** Ticket n + k holds its element, and taking it leaves the rest. */
  lemma LaidTake(n: nat, slots: seq<Slot>, k: nat, x: Slot)
    requires 0 < k < n && Laid(n, slots, 2 * n, n + k, x)
    ensures var j := SlotOf(n, n + k);
            && j != SlotOf(n, n) && slots[j] == Slot(Cycle(n, n + k), true, Some(0))
            && Laid(n, slots[j := slots[j].(val := None)], 2 * n, n + k + 1, x)
  {
    ConsecutiveTicketsDistinctSlots(n, n, n, n + k);
    var j := SlotOf(n, n + k);
    var slots' := slots[j := slots[j].(val := None)];
    forall p: nat | n <= p < 2 * n && SlotOf(n, p) != SlotOf(n, n)
      ensures slots'[SlotOf(n, p)] == Slot(Cycle(n, p), true, if n + k + 1 <= p < 2 * n then Some(0) else None)
    {
      if p < n + k {
        ConsecutiveTicketsDistinctSlots(n, n, p, n + k);
      } else if p > n + k {
        ConsecutiveTicketsDistinctSlots(n, n, n + k, p);
      }
    }
  }

  /** Only the slot of ticket n changes. */
  lemma LaidSame(n: nat, slots: seq<Slot>, top: nat, lo: nat, x: Slot, y: Slot)
    requires Laid(n, slots, top, lo, x)
    ensures Laid(n, slots[SlotOf(n, n) := y], top, lo, y)
  {
  }

  lemma LaidFirst(n: nat, slots: seq<Slot>, top: nat, x: Slot, y: Slot)
    requires Laid(n, slots, top, n, x)
    ensures Laid(n, slots[SlotOf(n, n) := y], top, n + 1, y)
  {
  }

  /** The occupied slot of ticket n has a later cycle than any skipped ticket. */
  lemma LaidLater(n: nat, slots: seq<Slot>, i: nat)
    requires i < Limit(n) && Laid(n, slots, 2 * n + i, 2 * n, Last(n))
    requires SlotOf(n, 2 * n + i) == SlotOf(n, n)
    ensures slots[SlotOf(n, 2 * n + i)].cycle > Cycle(n, 2 * n + i)
    ensures Laid(n, slots, 2 * n + i + 1, 2 * n, Last(n))
  {
    FourthRound(n);
    SameSlotOrder(n, 2 * n + i, 4 * n);
  }

  /** Any other slot is empty and older, and is advanced. */
  lemma LaidOlder(n: nat, slots: seq<Slot>, i: nat)
    requires i < Limit(n) && Laid(n, slots, 2 * n + i, 2 * n, Last(n))
    requires SlotOf(n, 2 * n + i) != SlotOf(n, n)
    ensures var h := 2 * n + i;
            var j := SlotOf(n, h);
            && slots[j].cycle < Cycle(n, h)
            && Laid(n, slots[j := Marked(slots[j], Cycle(n, h))], h + 1, 2 * n, Last(n))
  {
    var h := 2 * n + i;
    NextRound(n, h - n);
    assert slots[SlotOf(n, h - n)] == Slot(Cycle(n, h - n), true, None);
    var slots' := slots[SlotOf(n, h) := Marked(slots[SlotOf(n, h)], Cycle(n, h))];
    forall p: nat | h + 1 - n <= p < h + 1 && SlotOf(n, p) != SlotOf(n, n)
      ensures slots'[SlotOf(n, p)] == Slot(Cycle(n, p), true, None)
    {
      if p < h {
        ConsecutiveTicketsDistinctSlots(n, h + 1 - n, p, h);
      }
    }
  }

  // ----- the states along the run -----

  /** Threads 0 and 1 take part, all others stay idle. */
  ghost predicate Scene(cfg: Config, s: State, head: nat, tail: nat, threshold: int) {
    && cfg.variant.Scq? && Sized(cfg, s) && |s.pcs| >= 2 && (forall i :: 2 <= i < |s.pcs| ==> s.pcs[i].Idle?)
    && s.w == Words(head, tail, threshold, 0, 0)
  }

  /** The stages of an enqueue and of a dequeue call. */
  datatype EnqStage = Starting | Claiming | Loading | Storing | Closing

  datatype DeqStage = Opening | Checking | Fetching | Looking | Taking | Marking | Comparing | Paying

  predicate Claimed(st: EnqStage) { st.Loading? || st.Storing? || st.Closing? }

  ghost predicate EnqPc(pc: Pc, slots: seq<Slot>, n: nat, st: EnqStage, t: nat)
    requires RingSize(n) && |slots| == n
  {
    match st
    case Starting => pc.Idle?
    case Claiming => pc.EnqClaim? && pc.v == 0
    case Loading => pc.EnqLoad? && pc.v == 0 && pc.t == t
    case Storing => pc.EnqCas? && pc.v == 0 && pc.t == t && pc.ent == slots[SlotOf(n, t)]
    case Closing => pc.EnqReadThreshold? && pc.t == t
  }

  /** The producer fills the ring: call number k, with ticket n + k. */
  ghost predicate FillAt(cfg: Config, s: State, st: EnqStage, k: nat) {
    && k < cfg.n && Scene(cfg, s, cfg.n, cfg.n + k + (if Claimed(st) then 1 else 0), Limit(cfg.n))
    && s.pcs[1].Idle? && EnqPc(s.pcs[0], s.slots, cfg.n, st, cfg.n + k)
    && |s.g.log| == 2 * k + (if st.Starting? then 0 else 1)
    && (if st.Closing? then Laid(cfg.n, s.slots, cfg.n + k + 1, cfg.n, First(cfg.n))
        else Laid(cfg.n, s.slots, cfg.n + k, cfg.n, if k == 0 then Blank() else First(cfg.n)))
  }

  /** Its next call spins on the full ring: ticket 2n + i. */
  ghost predicate SpinAt(cfg: Config, s: State, st: EnqStage, i: nat) {
    && i <= 2 * cfg.n && (st.Starting? || st.Claiming? || st.Loading?) && (st.Starting? ==> i == 0)
    && Scene(cfg, s, cfg.n, 2 * cfg.n + i + (if Claimed(st) then 1 else 0), Limit(cfg.n))
    && s.pcs[1].Idle? && EnqPc(s.pcs[0], s.slots, cfg.n, st, 2 * cfg.n + i)
    && |s.g.log| == 2 * cfg.n + (if st.Starting? then 0 else 1)
    && Laid(cfg.n, s.slots, 2 * cfg.n, cfg.n, First(cfg.n))
  }

  ghost predicate TakePc(pc: Pc, st: DeqStage, h: nat) {
    match st
    case Opening => pc.Idle?
    case Checking => pc.DeqReadThreshold?
    case Fetching => pc.DeqClaim?
    case Looking => pc.DeqLoad? && pc.h == h
    case Taking => pc.DeqTake? && pc.h == h
    case _ => false
  }

  /** The consumer takes the first value, while the producer is about to claim again. */
  ghost predicate FirstAt(cfg: Config, s: State, st: DeqStage) {
    && Scene(cfg, s, cfg.n + (if st.Looking? || st.Taking? then 1 else 0), 4 * cfg.n, Limit(cfg.n))
    && s.pcs[0].EnqClaim? && s.pcs[0].v == 0 && TakePc(s.pcs[1], st, cfg.n)
    && |s.g.log| == 2 * cfg.n + (if st.Looking? || st.Taking? then 2 else 1)
    && Laid(cfg.n, s.slots, 2 * cfg.n, cfg.n, First(cfg.n))
  }

  /** The producer's call commits late, with ticket 4n. */
  ghost predicate LateAt(cfg: Config, s: State, st: EnqStage) {
    && !st.Starting? && Scene(cfg, s, cfg.n + 1, 4 * cfg.n + (if Claimed(st) then 1 else 0), Limit(cfg.n))
    && s.pcs[1].Idle? && EnqPc(s.pcs[0], s.slots, cfg.n, st, 4 * cfg.n)
    && |s.g.log| == 2 * cfg.n + 3
    && Laid(cfg.n, s.slots, 2 * cfg.n, cfg.n + 1, if st.Closing? then Last(cfg.n) else Emptied(cfg.n))
  }

  /** The late enqueue has returned. */
  ghost predicate Reported(n: nat, log: seq<Event>) {
    |log| > 2 * n + 3 && log[2 * n + 3].EnqReturned? && log[2 * n + 3].t == 4 * n
  }

  /** The consumer takes the other values: ticket n + k. */
  ghost predicate RestAt(cfg: Config, s: State, st: DeqStage, k: nat) {
    && 0 < k < cfg.n
    && Scene(cfg, s, cfg.n + k + (if st.Looking? || st.Taking? then 1 else 0), 4 * cfg.n + 1, Limit(cfg.n))
    && s.pcs[0].Idle? && TakePc(s.pcs[1], st, cfg.n + k) && Reported(cfg.n, s.g.log)
    && Laid(cfg.n, s.slots, 2 * cfg.n, cfg.n + k, Last(cfg.n))
  }

  /** All values but the late one are gone, and nobody is in a call. */
  ghost predicate DrainedAt(cfg: Config, s: State) {
    && Scene(cfg, s, 2 * cfg.n, 4 * cfg.n + 1, Limit(cfg.n))
    && s.pcs[0].Idle? && s.pcs[1].Idle? && Reported(cfg.n, s.g.log)
    && Laid(cfg.n, s.slots, 2 * cfg.n, 2 * cfg.n, Last(cfg.n))
  }

  ghost predicate FailPc(pc: Pc, slots: seq<Slot>, n: nat, st: DeqStage, h: nat, a: nat)
    requires RingSize(n) && |slots| == n
  {
    match st
    case Checking => pc == DeqReadThreshold(a)
    case Fetching => pc == DeqClaim(a)
    case Looking => pc == DeqLoad(a, h, 0)
    case Marking => pc == DeqCas(a, h, 0, slots[SlotOf(n, h)]) && SlotOf(n, h) != SlotOf(n, n)
    case Comparing => pc == DeqTail(a, h)
    case Paying => pc == DeqPenalty(a, None)
    case _ => false
  }

  /** The call that began at time a fails on ticket 2n + i. */
  ghost predicate FailAt(cfg: Config, s: State, st: DeqStage, i: nat, a: nat) {
    && i < Limit(cfg.n) && (st.Checking? ==> i == 0)
    && Scene(cfg, s, 2 * cfg.n + i + (if st.Checking? || st.Fetching? then 0 else 1), 4 * cfg.n + 1, Limit(cfg.n) - i)
    && s.pcs[0].Idle? && Reported(cfg.n, s.g.log)
    && FailPc(s.pcs[1], s.slots, cfg.n, st, 2 * cfg.n + i, a)
    && Laid(cfg.n, s.slots, 2 * cfg.n + i + (if st.Comparing? || st.Paying? then 1 else 0), 2 * cfg.n, Last(cfg.n))
  }

  datatype EndStage = ReadHead | ReadTail | Resetting | Done

  /** The threshold is used up: it gives up. */
  ghost predicate EndAt(cfg: Config, s: State, st: EndStage, a: nat) {
    && Limit(cfg.n) >= 0 && s.w.head == 2 * cfg.n + Limit(cfg.n)
    && Scene(cfg, s, s.w.head, 4 * cfg.n + 1, if st.Done? then Limit(cfg.n) else 0)
    && s.pcs[0].Idle? && Reported(cfg.n, s.g.log)
    && (match st
        case ReadHead => s.pcs[1] == DeqHeadNow(a, None)
        case ReadTail => s.pcs[1] == DeqTailNow(a, None, s.w.head)
        case Resetting => s.pcs[1] == DeqFinalReset(a, None)
        case Done => s.pcs[1].Idle? && s.g.log[|s.g.log| - 1].DeqEmpty? && s.g.log[|s.g.log| - 1].started == a)
  }

  // ----- one step along the run -----

  lemma FillStart(cfg: Config, s: State, k: nat)
    requires FillAt(cfg, s, Starting, k)
    ensures FillAt(cfg, Next(cfg, s, Producer()), Claiming, k)
  {
    ControlMoves(cfg, s, Producer());
  }

  lemma FillClaim(cfg: Config, s: State, k: nat)
    requires FillAt(cfg, s, Claiming, k)
    ensures FillAt(cfg, Next(cfg, s, Producer()), Loading, k)
  {
    ControlMoves(cfg, s, Producer());
  }

  lemma FillLoad(cfg: Config, s: State, k: nat)
    requires FillAt(cfg, s, Loading, k)
    ensures FillAt(cfg, Next(cfg, s, Producer()), Storing, k)
  {
    LaidFill(cfg.n, s.slots, k);
    LoadFree(cfg, s, Producer());
  }

  lemma FillStore(cfg: Config, s: State, k: nat)
    requires FillAt(cfg, s, Storing, k)
    ensures FillAt(cfg, Next(cfg, s, Producer()), Closing, k)
  {
    LaidFill(cfg.n, s.slots, k);
    CommitHits(cfg, s, Producer());
  }

  lemma FillClose(cfg: Config, s: State, k: nat)
    requires FillAt(cfg, s, Closing, k)
    ensures if k + 1 < cfg.n then FillAt(cfg, Next(cfg, s, Producer()), Starting, k + 1)
            else SpinAt(cfg, Next(cfg, s, Producer()), Starting, 0)
  {
    ControlMoves(cfg, s, Producer());
  }

  lemma SpinControl(cfg: Config, s: State, st: EnqStage, i: nat)
    requires SpinAt(cfg, s, st, i) && !st.Loading?
    ensures SpinAt(cfg, Next(cfg, s, Producer()), if st.Starting? then Claiming else Loading, i)
  {
    ControlMoves(cfg, s, Producer());
  }

  lemma SpinLoad(cfg: Config, s: State, i: nat)
    requires SpinAt(cfg, s, Loading, i) && i < 2 * cfg.n
    ensures SpinAt(cfg, Next(cfg, s, Producer()), Claiming, i + 1)
  {
    LaidFull(cfg.n, s.slots, 2 * cfg.n + i);
    LoadFull(cfg, s, Producer());
  }

  /** After 2n skipped tickets it is the consumer's turn. */
  lemma SpinEnds(cfg: Config, s: State)
    requires SpinAt(cfg, s, Claiming, 2 * cfg.n)
    ensures FirstAt(cfg, s, Opening)
  {
  }

  lemma FirstOpen(cfg: Config, s: State)
    requires FirstAt(cfg, s, Opening)
    ensures FirstAt(cfg, Next(cfg, s, Consumer()), Checking)
  {
    ControlMoves(cfg, s, Consumer());
  }

  lemma FirstCheck(cfg: Config, s: State)
    requires FirstAt(cfg, s, Checking)
    ensures FirstAt(cfg, Next(cfg, s, Consumer()), Fetching)
  {
    ControlMoves(cfg, s, Consumer());
  }

  lemma FirstFetch(cfg: Config, s: State)
    requires FirstAt(cfg, s, Fetching)
    ensures FirstAt(cfg, Next(cfg, s, Consumer()), Looking)
  {
    ControlMoves(cfg, s, Consumer());
  }

  lemma FirstLook(cfg: Config, s: State)
    requires FirstAt(cfg, s, Looking)
    ensures FirstAt(cfg, Next(cfg, s, Consumer()), Taking)
  {
    LoadOwn(cfg, s, Consumer());
  }

  /** Taking ends the call of SCQ. */
  lemma TakeEnds(cfg: Config, s: State, c: Choice)
    requires Sized(cfg, s) && cfg.variant.Scq? && c.tid < |s.pcs| && s.pcs[c.tid].DeqTake?
    ensures var pc, s' := s.pcs[c.tid], Next(cfg, s, c);
            var j := SlotOf(cfg.n, pc.h);
            && Moved(s, s', c.tid, Idle, s.w) && s'.slots == s.slots[j := s.slots[j].(val := None)]
            && s'.g.log == s.g.log + [DeqReturned(pc.h, pc.v)]
  {
  }

  lemma FirstTake(cfg: Config, s: State)
    requires FirstAt(cfg, s, Taking)
    ensures LateAt(cfg, Next(cfg, s, Consumer()), Claiming)
  {
    LaidFirst(cfg.n, s.slots, 2 * cfg.n, First(cfg.n), Emptied(cfg.n));
    TakeEnds(cfg, s, Consumer());
  }

  lemma LateClaim(cfg: Config, s: State)
    requires LateAt(cfg, s, Claiming)
    ensures LateAt(cfg, Next(cfg, s, Producer()), Loading)
  {
    ControlMoves(cfg, s, Producer());
  }

  lemma LateLoad(cfg: Config, s: State)
    requires LateAt(cfg, s, Loading)
    ensures LateAt(cfg, Next(cfg, s, Producer()), Storing)
  {
    FourthRound(cfg.n);
    LoadFree(cfg, s, Producer());
  }

  lemma LateStore(cfg: Config, s: State)
    requires LateAt(cfg, s, Storing)
    ensures LateAt(cfg, Next(cfg, s, Producer()), Closing)
  {
    FourthRound(cfg.n);
    LaidSame(cfg.n, s.slots, 2 * cfg.n, cfg.n + 1, Emptied(cfg.n), Last(cfg.n));
    CommitHits(cfg, s, Producer());
  }

  lemma LateClose(cfg: Config, s: State)
    requires LateAt(cfg, s, Closing)
    ensures RestAt(cfg, Next(cfg, s, Producer()), Opening, 1)
  {
    ControlMoves(cfg, s, Producer());
  }

  lemma RestOpen(cfg: Config, s: State, k: nat)
    requires RestAt(cfg, s, Opening, k)
    ensures RestAt(cfg, Next(cfg, s, Consumer()), Checking, k)
  {
    ControlMoves(cfg, s, Consumer());
  }

  lemma RestCheck(cfg: Config, s: State, k: nat)
    requires RestAt(cfg, s, Checking, k)
    ensures RestAt(cfg, Next(cfg, s, Consumer()), Fetching, k)
  {
    ControlMoves(cfg, s, Consumer());
  }

  lemma RestFetch(cfg: Config, s: State, k: nat)
    requires RestAt(cfg, s, Fetching, k)
    ensures RestAt(cfg, Next(cfg, s, Consumer()), Looking, k)
  {
    ControlMoves(cfg, s, Consumer());
  }

  lemma RestLook(cfg: Config, s: State, k: nat)
    requires RestAt(cfg, s, Looking, k)
    ensures RestAt(cfg, Next(cfg, s, Consumer()), Taking, k)
  {
    LaidTake(cfg.n, s.slots, k, Last(cfg.n));
    LoadOwn(cfg, s, Consumer());
  }

  lemma RestTake(cfg: Config, s: State, k: nat)
    requires RestAt(cfg, s, Taking, k)
    ensures if k + 1 < cfg.n then RestAt(cfg, Next(cfg, s, Consumer()), Opening, k + 1)
            else DrainedAt(cfg, Next(cfg, s, Consumer()))
  {
    LaidTake(cfg.n, s.slots, k, Last(cfg.n));
    TakeEnds(cfg, s, Consumer());
  }

  /** The call that gives up begins. */
  lemma FailBegin(cfg: Config, s: State)
    requires DrainedAt(cfg, s)
    ensures FailAt(cfg, Next(cfg, s, Consumer()), Checking, 0, s.g.clock)
  {
    ControlMoves(cfg, s, Consumer());
  }

  lemma FailCheck(cfg: Config, s: State, a: nat)
    requires FailAt(cfg, s, Checking, 0, a)
    ensures FailAt(cfg, Next(cfg, s, Consumer()), Fetching, 0, a)
  {
    ControlMoves(cfg, s, Consumer());
  }

  lemma FailFetch(cfg: Config, s: State, i: nat, a: nat)
    requires FailAt(cfg, s, Fetching, i, a)
    ensures FailAt(cfg, Next(cfg, s, Consumer()), Looking, i, a)
  {
    ControlMoves(cfg, s, Consumer());
  }

  lemma FailLookLater(cfg: Config, s: State, i: nat, a: nat)
    requires FailAt(cfg, s, Looking, i, a) && SlotOf(cfg.n, 2 * cfg.n + i) == SlotOf(cfg.n, cfg.n)
    ensures FailAt(cfg, Next(cfg, s, Consumer()), Comparing, i, a)
  {
    LaidLater(cfg.n, s.slots, i);
    LoadLater(cfg, s, Consumer());
  }

  lemma OlderAhead(cfg: Config, s: State, i: nat, a: nat)
    requires FailAt(cfg, s, Looking, i, a) && SlotOf(cfg.n, 2 * cfg.n + i) != SlotOf(cfg.n, cfg.n)
    ensures s.slots[SlotOf(cfg.n, 2 * cfg.n + i)].cycle < Cycle(cfg.n, 2 * cfg.n + i)
  {
    LaidOlder(cfg.n, s.slots, i);
  }

  lemma FailLookOlder(cfg: Config, s: State, i: nat, a: nat)
    requires FailAt(cfg, s, Looking, i, a) && SlotOf(cfg.n, 2 * cfg.n + i) != SlotOf(cfg.n, cfg.n)
    ensures FailAt(cfg, Next(cfg, s, Consumer()), Marking, i, a)
  {
    OlderAhead(cfg, s, i, a);
    LoadOlder(cfg, s, Consumer());
  }

  lemma FailMark(cfg: Config, s: State, i: nat, a: nat)
    requires FailAt(cfg, s, Marking, i, a)
    ensures FailAt(cfg, Next(cfg, s, Consumer()), Comparing, i, a)
  {
    LaidOlder(cfg.n, s.slots, i);
    MarkHits(cfg, s, Consumer());
  }

  lemma FailCompare(cfg: Config, s: State, i: nat, a: nat)
    requires FailAt(cfg, s, Comparing, i, a)
    ensures FailAt(cfg, Next(cfg, s, Consumer()), Paying, i, a)
  {
    ControlMoves(cfg, s, Consumer());
  }

  lemma FailPay(cfg: Config, s: State, i: nat, a: nat)
    requires FailAt(cfg, s, Paying, i, a)
    ensures if i + 1 < Limit(cfg.n) then FailAt(cfg, Next(cfg, s, Consumer()), Fetching, i + 1, a)
            else EndAt(cfg, Next(cfg, s, Consumer()), ReadHead, a)
  {
    ControlMoves(cfg, s, Consumer());
  }

  lemma EndReadHead(cfg: Config, s: State, a: nat)
    requires EndAt(cfg, s, ReadHead, a)
    ensures EndAt(cfg, Next(cfg, s, Consumer()), ReadTail, a)
  {
    ControlMoves(cfg, s, Consumer());
  }

  lemma EndReadTail(cfg: Config, s: State, a: nat)
    requires EndAt(cfg, s, ReadTail, a)
    ensures EndAt(cfg, Next(cfg, s, Consumer()), Resetting, a)
  {
    ControlMoves(cfg, s, Consumer());
  }

  lemma EndReset(cfg: Config, s: State, a: nat)
    requires EndAt(cfg, s, Resetting, a)
    ensures EndAt(cfg, Next(cfg, s, Consumer()), Done, a)
  {
    ControlMoves(cfg, s, Consumer());
  }

  // ----- the whole run -----

  /** One call that fills a slot. */
  lemma FillCall(cfg: Config, threads: nat, sch: seq<Choice>, k: nat) returns (after: seq<Choice>)
    requires cfg.Valid() && FillAt(cfg, Run(cfg, threads, sch), Starting, k)
    ensures if k + 1 < cfg.n then FillAt(cfg, Run(cfg, threads, after), Starting, k + 1)
            else SpinAt(cfg, Run(cfg, threads, after), Starting, 0)
  {
    FillStart(cfg, Run(cfg, threads, sch), k);
    after := More(cfg, threads, sch, Producer());
    FillClaim(cfg, Run(cfg, threads, after), k);
    after := More(cfg, threads, after, Producer());
    FillLoad(cfg, Run(cfg, threads, after), k);
    after := More(cfg, threads, after, Producer());
    FillStore(cfg, Run(cfg, threads, after), k);
    after := More(cfg, threads, after, Producer());
    FillClose(cfg, Run(cfg, threads, after), k);
    after := More(cfg, threads, after, Producer());
  }

  lemma More(cfg: Config, threads: nat, sch: seq<Choice>, c: Choice) returns (after: seq<Choice>)
    requires cfg.Valid()
    ensures sch <= after && Run(cfg, threads, after) == Next(cfg, Run(cfg, threads, sch), c)
  {
    after := sch + [c];
    RunSnoc(cfg, threads, sch, c);
  }

  lemma {:induction false} FillAll(cfg: Config, threads: nat, sch: seq<Choice>, k: nat) returns (after: seq<Choice>)
    requires cfg.Valid() && FillAt(cfg, Run(cfg, threads, sch), Starting, k)
    ensures SpinAt(cfg, Run(cfg, threads, after), Starting, 0)
    decreases cfg.n - k
  {
    after := FillCall(cfg, threads, sch, k);
    if k + 1 < cfg.n {
      after := FillAll(cfg, threads, after, k + 1);
    }
  }

  lemma {:induction false} SpinAll(cfg: Config, threads: nat, sch: seq<Choice>, i: nat) returns (after: seq<Choice>)
    requires cfg.Valid() && SpinAt(cfg, Run(cfg, threads, sch), Claiming, i)
    ensures SpinAt(cfg, Run(cfg, threads, after), Claiming, 2 * cfg.n)
    decreases 2 * cfg.n - i
  {
    after := sch;
    if i < 2 * cfg.n {
      SpinControl(cfg, Run(cfg, threads, after), Claiming, i);
      after := More(cfg, threads, after, Producer());
      SpinLoad(cfg, Run(cfg, threads, after), i);
      after := More(cfg, threads, after, Producer());
      after := SpinAll(cfg, threads, after, i + 1);
    }
  }

  lemma FirstCall(cfg: Config, threads: nat, sch: seq<Choice>) returns (after: seq<Choice>)
    requires cfg.Valid() && FirstAt(cfg, Run(cfg, threads, sch), Opening)
    ensures LateAt(cfg, Run(cfg, threads, after), Claiming)
  {
    FirstOpen(cfg, Run(cfg, threads, sch));
    after := More(cfg, threads, sch, Consumer());
    FirstCheck(cfg, Run(cfg, threads, after));
    after := More(cfg, threads, after, Consumer());
    FirstFetch(cfg, Run(cfg, threads, after));
    after := More(cfg, threads, after, Consumer());
    FirstLook(cfg, Run(cfg, threads, after));
    after := More(cfg, threads, after, Consumer());
    FirstTake(cfg, Run(cfg, threads, after));
    after := More(cfg, threads, after, Consumer());
  }

  lemma LateCall(cfg: Config, threads: nat, sch: seq<Choice>) returns (after: seq<Choice>)
    requires cfg.Valid() && LateAt(cfg, Run(cfg, threads, sch), Claiming)
    ensures RestAt(cfg, Run(cfg, threads, after), Opening, 1)
  {
    LateClaim(cfg, Run(cfg, threads, sch));
    after := More(cfg, threads, sch, Producer());
    LateLoad(cfg, Run(cfg, threads, after));
    after := More(cfg, threads, after, Producer());
    LateStore(cfg, Run(cfg, threads, after));
    after := More(cfg, threads, after, Producer());
    LateClose(cfg, Run(cfg, threads, after));
    after := More(cfg, threads, after, Producer());
  }

  lemma RestCall(cfg: Config, threads: nat, sch: seq<Choice>, k: nat) returns (after: seq<Choice>)
    requires cfg.Valid() && RestAt(cfg, Run(cfg, threads, sch), Opening, k)
    ensures if k + 1 < cfg.n then RestAt(cfg, Run(cfg, threads, after), Opening, k + 1)
            else DrainedAt(cfg, Run(cfg, threads, after))
  {
    RestOpen(cfg, Run(cfg, threads, sch), k);
    after := More(cfg, threads, sch, Consumer());
    RestCheck(cfg, Run(cfg, threads, after), k);
    after := More(cfg, threads, after, Consumer());
    RestFetch(cfg, Run(cfg, threads, after), k);
    after := More(cfg, threads, after, Consumer());
    RestLook(cfg, Run(cfg, threads, after), k);
    after := More(cfg, threads, after, Consumer());
    RestTake(cfg, Run(cfg, threads, after), k);
    after := More(cfg, threads, after, Consumer());
  }

  lemma {:induction false} RestAll(cfg: Config, threads: nat, sch: seq<Choice>, k: nat) returns (after: seq<Choice>)
    requires cfg.Valid() && RestAt(cfg, Run(cfg, threads, sch), Opening, k)
    ensures DrainedAt(cfg, Run(cfg, threads, after))
    decreases cfg.n - k
  {
    after := RestCall(cfg, threads, sch, k);
    if k + 1 < cfg.n {
      after := RestAll(cfg, threads, after, k + 1);
    }
  }

  /** The failing call, up to its look at the tail. */
  lemma FailLook(cfg: Config, threads: nat, sch: seq<Choice>, i: nat, a: nat) returns (after: seq<Choice>)
    requires cfg.Valid() && FailAt(cfg, Run(cfg, threads, sch), Looking, i, a)
    ensures sch <= after && FailAt(cfg, Run(cfg, threads, after), Comparing, i, a)
  {
    after := More(cfg, threads, sch, Consumer());
    if SlotOf(cfg.n, 2 * cfg.n + i) == SlotOf(cfg.n, cfg.n) {
      FailLookLater(cfg, Run(cfg, threads, sch), i, a);
    } else {
      FailLookOlder(cfg, Run(cfg, threads, sch), i, a);
      FailMark(cfg, Run(cfg, threads, after), i, a);
      after := More(cfg, threads, after, Consumer());
    }
  }

  lemma FailOnce(cfg: Config, threads: nat, sch: seq<Choice>, i: nat, a: nat) returns (after: seq<Choice>)
    requires cfg.Valid() && FailAt(cfg, Run(cfg, threads, sch), Fetching, i, a)
    ensures sch <= after
    ensures if i + 1 < Limit(cfg.n) then FailAt(cfg, Run(cfg, threads, after), Fetching, i + 1, a)
            else EndAt(cfg, Run(cfg, threads, after), ReadHead, a)
  {
    FailFetch(cfg, Run(cfg, threads, sch), i, a);
    after := More(cfg, threads, sch, Consumer());
    after := FailLook(cfg, threads, after, i, a);
    after := FailLeave(cfg, threads, after, i, a);
  }

  /** The attempt ends with its look at the tail and its penalty. */
  lemma FailLeave(cfg: Config, threads: nat, sch: seq<Choice>, i: nat, a: nat) returns (after: seq<Choice>)
    requires cfg.Valid() && FailAt(cfg, Run(cfg, threads, sch), Comparing, i, a)
    ensures sch <= after
    ensures if i + 1 < Limit(cfg.n) then FailAt(cfg, Run(cfg, threads, after), Fetching, i + 1, a)
            else EndAt(cfg, Run(cfg, threads, after), ReadHead, a)
  {
    FailCompare(cfg, Run(cfg, threads, sch), i, a);
    after := More(cfg, threads, sch, Consumer());
    FailPay(cfg, Run(cfg, threads, after), i, a);
    after := More(cfg, threads, after, Consumer());
  }

  lemma {:induction false} FailAll(cfg: Config, threads: nat, sch: seq<Choice>, i: nat, a: nat)
    returns (after: seq<Choice>)
    requires cfg.Valid() && FailAt(cfg, Run(cfg, threads, sch), Fetching, i, a)
    ensures sch <= after && EndAt(cfg, Run(cfg, threads, after), ReadHead, a)
    decreases Limit(cfg.n) - i
  {
    after := FailOnce(cfg, threads, sch, i, a);
    if i + 1 < Limit(cfg.n) {
      after := FailAll(cfg, threads, after, i + 1, a);
    }
  }

  /** The whole call that gives up. */
  lemma GiveUpCall(cfg: Config, threads: nat, sch: seq<Choice>) returns (after: seq<Choice>)
    requires cfg.Valid() && DrainedAt(cfg, Run(cfg, threads, sch))
    ensures sch <= after && EndAt(cfg, Run(cfg, threads, after), Done, |sch|)
  {
    var a := |sch|;
    FailBegin(cfg, Run(cfg, threads, sch));
    after := More(cfg, threads, sch, Consumer());
    FailCheck(cfg, Run(cfg, threads, after), a);
    after := More(cfg, threads, after, Consumer());
    after := FailAll(cfg, threads, after, 0, a);
    EndReadHead(cfg, Run(cfg, threads, after), a);
    after := More(cfg, threads, after, Consumer());
    EndReadTail(cfg, Run(cfg, threads, after), a);
    after := More(cfg, threads, after, Consumer());
    EndReset(cfg, Run(cfg, threads, after), a);
    after := More(cfg, threads, after, Consumer());
  }

  lemma AtStart(cfg: Config, threads: nat)
    requires cfg.Valid() && cfg.variant.Scq? && threads >= 2
    ensures FillAt(cfg, Run(cfg, threads, []), Starting, 0)
  {
    assert Run(cfg, threads, []) == Init(cfg, threads);
  }

  /** Filling, spinning, one take, the late commit and the other takes. */
  lemma Drain(cfg: Config, threads: nat) returns (sch: seq<Choice>)
    requires cfg.Valid() && cfg.variant.Scq? && threads >= 2
    ensures DrainedAt(cfg, Run(cfg, threads, sch))
  {
    AtStart(cfg, threads);
    sch := FillAll(cfg, threads, [], 0);
    SpinControl(cfg, Run(cfg, threads, sch), Starting, 0);
    sch := More(cfg, threads, sch, Producer());
    sch := SpinAll(cfg, threads, sch, 0);
    SpinEnds(cfg, Run(cfg, threads, sch));
    sch := FirstCall(cfg, threads, sch);
    sch := LateCall(cfg, threads, sch);
    sch := RestAll(cfg, threads, sch, 1);
  }

  ghost predicate AllIdle(s: State) {
    forall i :: 0 <= i < |s.pcs| ==> s.pcs[i].Idle?
  }

  /** The outcome: s is where the call began, s' where it returned. */
  ghost predicate Missed(n: nat, s: State, s': State, a: nat) {
    && AllIdle(s) && AllIdle(s') && ReturnedBy(s.g, 4 * n) && s'.w.head < 4 * n < s.w.tail
    && var log := s'.g.log; log != [] && log[|log| - 1].DeqEmpty? && log[|log| - 1].started == a
  }

  lemma Outcome(cfg: Config, s: State, s': State, a: nat)
    requires DrainedAt(cfg, s) && EndAt(cfg, s', Done, a)
    ensures Missed(cfg.n, s, s', a)
  {
  }

  lemma GiveUp(cfg: Config, threads: nat) returns (sch: seq<Choice>, a: nat)
    requires cfg.Valid() && cfg.variant.Scq? && threads >= 2
    ensures a <= |sch| && Missed(cfg.n, Run(cfg, threads, sch[..a]), Run(cfg, threads, sch), a)
  {
    var before := Drain(cfg, threads);
    a := |before|;
    sch := GiveUpCall(cfg, threads, before);
    assert sch[..a] == before;
    Outcome(cfg, Run(cfg, threads, before), Run(cfg, threads, sch), a);
  }

  /** Between two states of a run head and tail lie between theirs. */
  lemma Unclaimed(cfg: Config, threads: nat, sch: seq<Choice>, a: nat, m: nat)
    requires cfg.Valid() && a <= m <= |sch|
    ensures Run(cfg, threads, sch[..a]).w.tail <= Run(cfg, threads, sch[..m]).w.tail
    ensures Run(cfg, threads, sch[..m]).w.head <= Run(cfg, threads, sch).w.head
  {
    RunGrows(cfg, threads, sch, m);
    RunGrows(cfg, threads, sch[..m], a);
    assert sch[..m][..a] == sch[..a];
  }

  /** In every ring SCQ misses a value: nobody is inside a call, the value of ticket 4n has
      been stored and its enqueue has returned, and then one dequeue call returns empty.  The
      ticket is unclaimed and the tail is ahead of the head at every moment of that call. */
  lemma ScqGivesUp(cfg: Config, threads: nat) returns (sch: seq<Choice>, a: nat)
    requires cfg.Valid() && cfg.variant.Scq? && threads >= 2
    ensures a <= |sch| && AllIdle(Run(cfg, threads, sch[..a])) && AllIdle(Run(cfg, threads, sch))
    ensures ReturnedBy(Run(cfg, threads, sch[..a]).g, 4 * cfg.n)
    ensures forall m: nat :: a <= m <= |sch| ==>
              var w := Run(cfg, threads, sch[..m]).w; w.head < 4 * cfg.n < w.tail
    ensures var log := Run(cfg, threads, sch).g.log;
            log != [] && log[|log| - 1].DeqEmpty? && log[|log| - 1].started == a
  {
    sch, a := GiveUp(cfg, threads);
    forall m: nat | a <= m <= |sch|
      ensures var w := Run(cfg, threads, sch[..m]).w; w.head < 4 * cfg.n < w.tail
    {
      Unclaimed(cfg, threads, sch, a, m);
    }
  }

  // ----- exactly when -----

  lemma TwoThreadsMiss(cfg: Config, threads: nat)
    requires cfg.Valid() && cfg.variant.Scq? && threads >= 2
    ensures !MissesNothing(cfg, threads)
  {
    var sch, a := ScqGivesUp(cfg, threads);
    var log := Run(cfg, threads, sch).g.log;
    assert !Answered(cfg, threads, sch, log[|log| - 1]);
  }

  lemma {:induction false} NobodyLogs(cfg: Config, sch: seq<Choice>)
    requires cfg.Valid()
    ensures Run(cfg, 0, sch).g.log == []
  {
    if sch != [] {
      NobodyLogs(cfg, sch[..|sch| - 1]);
    }
  }

  lemma FewThreadsAnswer(cfg: Config, threads: nat, sch: seq<Choice>, p: nat)
    requires cfg.Valid() && (!cfg.variant.Scq? || threads <= 1)
    requires p < |Run(cfg, threads, sch).g.log| && Run(cfg, threads, sch).g.log[p].DeqEmpty?
    ensures Answered(cfg, threads, sch, Run(cfg, threads, sch).g.log[p])
  {
    if threads == 0 {
      NobodyLogs(cfg, sch);
    } else {
      if cfg.variant.Scq? {
        AloneSees(cfg, sch, p);
      } else {
        EmptyIsJustified(cfg, threads, sch, p);
      }
      SeenAnswers(cfg, threads, sch, p);
    }
  }

  /** In every run of that many threads each value whose enqueue returned before an empty
      dequeue call began was claimed at some moment of that call, if and only if the queue
      is SCQP or there is at most one thread. */
  lemma MissesNothingIff(cfg: Config, threads: nat)
    requires cfg.Valid()
    ensures MissesNothing(cfg, threads) <==> !cfg.variant.Scq? || threads <= 1
  {
    if cfg.variant.Scq? && threads >= 2 {
      TwoThreadsMiss(cfg, threads);
    } else {
      forall sch: seq<Choice>, p: nat |
        p < |Run(cfg, threads, sch).g.log| && Run(cfg, threads, sch).g.log[p].DeqEmpty?
        ensures Answered(cfg, threads, sch, Run(cfg, threads, sch).g.log[p])
      {
        FewThreadsAnswer(cfg, threads, sch, p);
      }
    }
  }
}
