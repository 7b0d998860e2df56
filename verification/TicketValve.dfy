/** The retry valve of SCQP.  A dequeuer that meets its own element in a slot another
    dequeuer has marked unsafe retries 1024 times and then leaves the element behind.
    With one consumer that never happens; with two it does, on every ring, and the
    element is lost although its enqueue returned. */
module TicketValve {
  import opened Ring
  import opened TicketQueue
  import opened TicketSafety
  import opened TicketOrder
  import opened TicketEmpty
  import opened TicketSteps

  /** Only the given threads start dequeues. */
  predicate ConsumersIn(sch: seq<Choice>, consumers: set<nat>) {
    forall i :: 0 <= i < |sch| && sch[i].deq ==> sch[i].tid in consumers
  }

  /** No run with at most that many consumers gives an element up. */
  ghost predicate NeverAbandons(cfg: Config, consumers: nat)
    requires cfg.Valid()
  {
    forall threads: nat, sch: seq<Choice>, who: set<nat> ::
      |who| <= consumers && ConsumersIn(sch, who) ==> Run(cfg, threads, sch).g.abandoned == {}
  }

  // ----- what is given up is lost -----

  lemma NotReturned(cfg: Config, s: State, u: nat)
    requires Inv(cfg, s) && LogInv(s) && u in s.g.abandoned
    ensures u in s.g.commit && u !in s.g.taken
    ensures forall p :: 0 <= p < |s.g.log| && s.g.log[p].DeqReturned? ==> s.g.log[p].h != u
  {
    forall p | 0 <= p < |s.g.log| && s.g.log[p].DeqReturned? ensures s.g.log[p].h != u {
      assert EventOk(s.w, s.g, p);
    }
  }

  /** An abandoned ticket holds a committed element, and no continuation of the run ever
      returns it. */
  lemma AbandonedIsLost(cfg: Config, threads: nat, sch: seq<Choice>, m: nat, u: nat)
    requires cfg.Valid() && m <= |sch| && u in Run(cfg, threads, sch[..m]).g.abandoned
    ensures var g := Run(cfg, threads, sch).g;
            && u in g.commit && u !in g.taken
            && forall p :: 0 <= p < |g.log| && g.log[p].DeqReturned? ==> g.log[p].h != u
  {
    RunGrows(cfg, threads, sch, m);
    RunInv(cfg, threads, sch);
    RunLogInv(cfg, threads, sch);
    NotReturned(cfg, Run(cfg, threads, sch), u);
  }

  // ----- the run in which the valve fires -----

  /** Consumer A claims a ticket and stalls; the producer P commits that ticket and
      returns; consumer B makes n calls, the last of which meets A's slot and marks it;
      A comes back and retries. */
  datatype Point =
    | ABegin | ARead | AClaim
    | PBegin | PDeqOk | PEnqOk | PClaim | PLoad | PCas | PThreshold | PCount
    | BBegin(k: nat) | BRead(k: nat) | BClaim(k: nat) | BLoad(k: nat) | BCas(k: nat) | BTail(k: nat) | BPay(k: nat)
    | ASpin(r: nat)
    | Over

  predicate IsA(p: Point) { p.ABegin? || p.ARead? || p.AClaim? }

  predicate IsP(p: Point) {
    p.PBegin? || p.PDeqOk? || p.PEnqOk? || p.PClaim? || p.PLoad? || p.PCas? || p.PThreshold? || p.PCount?
  }

  predicate IsB(p: Point) {
    p.BBegin? || p.BRead? || p.BClaim? || p.BLoad? || p.BCas? || p.BTail? || p.BPay?
  }

  /** Who moves at a point. */
  function Mover(p: Point): Choice {
    if IsP(p) then Choice(1, false, Some(0), false)
    else if IsB(p) then Choice(2, true, None, false)
    else Choice(0, true, None, false)
  }

  function Succ(n: nat, p: Point): Point {
    match p
    case ABegin => ARead
    case ARead => AClaim
    case AClaim => PBegin
    case PBegin => PDeqOk
    case PDeqOk => PEnqOk
    case PEnqOk => PClaim
    case PClaim => PLoad
    case PLoad => PCas
    case PCas => PThreshold
    case PThreshold => PCount
    case PCount => BBegin(0)
    case BBegin(k) => BRead(k)
    case BRead(k) => BClaim(k)
    case BClaim(k) => BLoad(k)
    case BLoad(k) => BCas(k)
    case BCas(k) => BTail(k)
    case BTail(k) => BPay(k)
    case BPay(k) => if k + 1 < n then BBegin(k + 1) else ASpin(0)
    case ASpin(r) => if r < MAX_INNER_RETRIES then ASpin(r + 1) else Over
    case Over => Over
  }

  predicate InRange(n: nat, p: Point) {
    (IsB(p) ==> p.k < n) && (p.ASpin? ==> p.r <= MAX_INNER_RETRIES)
  }

  // ----- the slots along the run -----

  ghost predicate AllBlank(n: nat, slots: seq<Slot>) {
    |slots| == n && forall j :: 0 <= j < n ==> slots[j] == Slot(0, true, None)
  }

  /** The n tickets below top own the slots, all empty but that of ticket n. */
  ghost predicate Ridge(n: nat, slots: seq<Slot>, top: nat) {
    RingSize(n) && |slots| == n < top <= 2 * n
    && forall p :: top - n <= p < top ==>
         slots[SlotOf(n, p)] == Slot(Cycle(n, p), true, if p == n then Some(0) else None)
  }

  /** After k calls of B; the n-th one marks the slot of ticket n. */
  ghost predicate Combed(n: nat, slots: seq<Slot>, k: nat) {
    if k < n then Ridge(n, slots, n + 1 + k)
    else RingSize(n) && |slots| == n && slots[SlotOf(n, n)] == Slot(Cycle(n, n), false, Some(0))
  }

  lemma RidgeRises(n: nat, slots: seq<Slot>)
    requires RingSize(n) && AllBlank(n, slots)
    ensures slots[SlotOf(n, n)] == Slot(0, true, None) && Cycle(n, n) == 1
    ensures Ridge(n, slots[SlotOf(n, n) := Slot(Cycle(n, n), true, Some(0))], n + 1)
  {
    NextRound(n, 0);
    var slots' := slots[SlotOf(n, n) := Slot(Cycle(n, n), true, Some(0))];
    forall p | 1 <= p < n + 1
      ensures slots'[SlotOf(n, p)] == Slot(Cycle(n, p), true, if p == n then Some(0) else None)
    {
      if p < n {
        ConsecutiveTicketsDistinctSlots(n, 1, p, n);
      }
    }
  }

  /** What B's call number k finds at its ticket, and what its CAS2 makes of it. */
  lemma RidgeComb(n: nat, slots: seq<Slot>, k: nat)
    requires k < n && Ridge(n, slots, n + 1 + k)
    ensures var h := n + 1 + k;
            var j := SlotOf(n, h);
            && slots[j].cycle < Cycle(n, h)
            && Combed(n, slots[j := Marked(slots[j], Cycle(n, h))], k + 1)
  {
    var h := n + 1 + k;
    NextRound(n, h - n);
    assert slots[SlotOf(n, h - n)] == Slot(Cycle(n, h - n), true, if h - n == n then Some(0) else None);
    var slots' := slots[SlotOf(n, h) := Marked(slots[SlotOf(n, h)], Cycle(n, h))];
    if k + 1 < n {
      forall p | h + 1 - n <= p < h + 1
        ensures slots'[SlotOf(n, p)] == Slot(Cycle(n, p), true, if p == n then Some(0) else None)
      {
        if p < h {
          ConsecutiveTicketsDistinctSlots(n, h + 1 - n, p, h);
        }
      }
    }
  }

  // ----- the states along the run -----

  function WordsAt(cfg: Config, p: Point): Words {
    var n, r := cfg.n, cfg.ThresholdReset();
    match p
    case ABegin => Words(n, n, r, 0, 0)
    case ARead => Words(n, n, r, 0, 0)
    case AClaim => Words(n, n, r, 0, 0)
    case PBegin => Words(n + 1, n, r, 0, 0)
    case PDeqOk => Words(n + 1, n, r, 0, 0)
    case PEnqOk => Words(n + 1, n, r, 0, 0)
    case PClaim => Words(n + 1, n, r, 0, 0)
    case PLoad => Words(n + 1, n + 1, r, 0, 0)
    case PCas => Words(n + 1, n + 1, r, 0, 0)
    case PThreshold => Words(n + 1, n + 1, r, 0, 0)
    case PCount => Words(n + 1, n + 1, r, 0, 0)
    case BBegin(k) => Words(n + 1 + k, n + 1, r - k, 0, 1)
    case BRead(k) => Words(n + 1 + k, n + 1, r - k, 0, 1)
    case BClaim(k) => Words(n + 1 + k, n + 1, r - k, 0, 1)
    case BLoad(k) => Words(n + 2 + k, n + 1, r - k, 0, 1)
    case BCas(k) => Words(n + 2 + k, n + 1, r - k, 0, 1)
    case BTail(k) => Words(n + 2 + k, n + 1, r - k, 0, 1)
    case BPay(k) => Words(n + 2 + k, n + 1, r - k, 0, 1)
    case ASpin(_) => Words(2 * n + 1, n + 1, r - n, 0, 1)
    case Over => Words(2 * n + 1, n + 1, r - n, 0, 1)
  }

  ghost predicate SlotsAt(n: nat, slots: seq<Slot>, p: Point) {
    if IsA(p) || (IsP(p) && !p.PThreshold? && !p.PCount?) then AllBlank(n, slots)
    else if IsP(p) then Ridge(n, slots, n + 1)
    else if p.BTail? || p.BPay? then Combed(n, slots, p.k + 1)
    else if IsB(p) then Combed(n, slots, p.k)
    else Combed(n, slots, n)
  }

  ghost predicate HistAt(n: nat, g: Hist, p: Point) {
    && g.taken == map[]
    && g.abandoned == (if p.Over? then {n} else {})
    && g.commit == (if IsA(p) || (IsP(p) && !p.PThreshold? && !p.PCount?) then map[] else map[n := 0])
    && (IsA(p) ==> g.log == [])
    && (p.PBegin? ==> g.log == [DeqClaimed(n)])
    && (IsP(p) && !p.PBegin? ==> g.log == [DeqClaimed(n), EnqCalled(0)])
    && (!IsA(p) && !IsP(p) ==> |g.log| >= 3 && g.log[2] == EnqReturned(1, n))
  }

  ghost predicate PcsAt(n: nat, slots: seq<Slot>, pcs: seq<Pc>, p: Point)
    requires RingSize(n) && |slots| == n
  {
    && |pcs| == 3
    && (match p
        case ABegin => pcs[0].Idle?
        case ARead => pcs[0].DeqReadThreshold?
        case AClaim => pcs[0].DeqClaim?
        case Over => true
        case ASpin(r) => pcs[0].DeqLoad? && pcs[0].h == n && pcs[0].retries == r
        case _ => pcs[0].DeqLoad? && pcs[0].h == n && pcs[0].retries == 0)
    && (match p
        case PDeqOk => pcs[1] == EnqReadDeqOk(0, 1)
        case PEnqOk => pcs[1] == EnqReadEnqOk(0, 1, 0)
        case PClaim => pcs[1] == EnqClaim(0, 1)
        case PLoad => pcs[1] == EnqLoad(0, 1, n)
        case PCas => pcs[1] == EnqCas(0, 1, n, Slot(0, true, None))
        case PThreshold => pcs[1] == EnqReadThreshold(1, n)
        case PCount => pcs[1] == EnqCount(1, n)
        case _ => pcs[1].Idle?)
    && (match p
        case BRead(k) => pcs[2].DeqReadThreshold?
        case BClaim(k) => pcs[2].DeqClaim?
        case BLoad(k) => pcs[2].DeqLoad? && pcs[2].h == n + 1 + k
        case BCas(k) => pcs[2].DeqCas? && pcs[2].h == n + 1 + k && pcs[2].ent == slots[SlotOf(n, n + 1 + k)]
        case BTail(k) => pcs[2].DeqTail? && pcs[2].h == n + 1 + k
        case BPay(k) => pcs[2].DeqPenalty? && pcs[2].seen.Some?
        case _ => pcs[2].Idle?)
  }

  ghost predicate At(cfg: Config, s: State, p: Point) {
    && Sized(cfg, s) && InRange(cfg.n, p)
    && s.w == WordsAt(cfg, p) && SlotsAt(cfg.n, s.slots, p) && HistAt(cfg.n, s.g, p)
    && PcsAt(cfg.n, s.slots, s.pcs, p)
  }

  // ----- one step along the run -----

  lemma StepA(cfg: Config, s: State, p: Point)
    requires !cfg.variant.Scq? && At(cfg, s, p) && IsA(p)
    ensures At(cfg, Next(cfg, s, Mover(p)), Succ(cfg.n, p))
  {
    ControlMoves(cfg, s, Mover(p));
  }

  lemma StepP(cfg: Config, s: State, p: Point)
    requires !cfg.variant.Scq? && At(cfg, s, p) && IsP(p)
    ensures At(cfg, Next(cfg, s, Mover(p)), Succ(cfg.n, p))
  {
    if p.PLoad? {
      RidgeRises(cfg.n, s.slots);
      LoadFree(cfg, s, Mover(p));
    } else if p.PCas? {
      RidgeRises(cfg.n, s.slots);
      CommitHits(cfg, s, Mover(p));
    } else {
      StepPControl(cfg, s, p);
    }
  }

  lemma StepPControl(cfg: Config, s: State, p: Point)
    requires !cfg.variant.Scq? && At(cfg, s, p) && IsP(p) && !p.PLoad? && !p.PCas?
    ensures At(cfg, Next(cfg, s, Mover(p)), Succ(cfg.n, p))
  {
    ControlMoves(cfg, s, Mover(p));
  }

  lemma StepBStart(cfg: Config, s: State, p: Point)
    requires !cfg.variant.Scq? && At(cfg, s, p) && (p.BBegin? || p.BRead? || p.BClaim?)
    ensures At(cfg, Next(cfg, s, Mover(p)), Succ(cfg.n, p))
  {
    ControlMoves(cfg, s, Mover(p));
  }

  /** B's ticket finds a slot of an older cycle. */
  lemma OlderAhead(cfg: Config, s: State, k: nat)
    requires At(cfg, s, BLoad(k))
    ensures s.slots[SlotOf(cfg.n, cfg.n + 1 + k)].cycle < Cycle(cfg.n, cfg.n + 1 + k)
  {
    RidgeComb(cfg.n, s.slots, k);
  }

  lemma ArriveBCas(cfg: Config, s: State, s': State, k: nat)
    requires At(cfg, s, BLoad(k)) && s'.slots == s.slots && s'.g == Tick(s.g)
    requires var pc := s.pcs[2];
             Moved(s, s', 2, DeqCas(pc.started, pc.h, pc.retries, s.slots[SlotOf(cfg.n, pc.h)]), s.w)
    ensures At(cfg, s', BCas(k))
  {
  }

  lemma ArriveBTail(cfg: Config, s: State, s': State, k: nat)
    requires At(cfg, s, BCas(k)) && Combed(cfg.n, s'.slots, k + 1)
    requires var pc := s.pcs[2];
             && Moved(s, s', 2, DeqTail(pc.started, pc.h), s.w)
             && s'.slots == s.slots[SlotOf(cfg.n, pc.h) := Marked(pc.ent, Cycle(cfg.n, pc.h))]
             && s'.g == Tick(s.g.(dead := s.g.dead + {pc.h}))
    ensures At(cfg, s', BTail(k))
  {
  }

  lemma StepBLoad(cfg: Config, s: State, k: nat)
    requires !cfg.variant.Scq? && At(cfg, s, BLoad(k))
    ensures At(cfg, Next(cfg, s, Mover(BLoad(k))), BCas(k))
  {
    OlderAhead(cfg, s, k);
    LoadOlder(cfg, s, Mover(BLoad(k)));
    ArriveBCas(cfg, s, Next(cfg, s, Mover(BLoad(k))), k);
  }

  lemma StepBCas(cfg: Config, s: State, k: nat)
    requires !cfg.variant.Scq? && At(cfg, s, BCas(k))
    ensures At(cfg, Next(cfg, s, Mover(BCas(k))), BTail(k))
  {
    RidgeComb(cfg.n, s.slots, k);
    MarkHits(cfg, s, Mover(BCas(k)));
    ArriveBTail(cfg, s, Next(cfg, s, Mover(BCas(k))), k);
  }

  lemma StepBTail(cfg: Config, s: State, k: nat)
    requires !cfg.variant.Scq? && At(cfg, s, BTail(k))
    ensures At(cfg, Next(cfg, s, Mover(BTail(k))), BPay(k))
  {
    ControlMoves(cfg, s, Mover(BTail(k)));
  }

  lemma StepBPay(cfg: Config, s: State, k: nat)
    requires !cfg.variant.Scq? && At(cfg, s, BPay(k))
    ensures At(cfg, Next(cfg, s, Mover(BPay(k))), Succ(cfg.n, BPay(k)))
  {
    ControlMoves(cfg, s, Mover(BPay(k)));
  }

  lemma StepSpin(cfg: Config, s: State, p: Point)
    requires !cfg.variant.Scq? && At(cfg, s, p) && p.ASpin?
    ensures At(cfg, Next(cfg, s, Mover(p)), Succ(cfg.n, p))
  {
    assert Next(cfg, s, Mover(p)).slots == s.slots;
  }

  lemma Step(cfg: Config, s: State, p: Point)
    requires !cfg.variant.Scq? && At(cfg, s, p) && !p.Over?
    ensures At(cfg, Next(cfg, s, Mover(p)), Succ(cfg.n, p))
  {
    if IsA(p) {
      StepA(cfg, s, p);
    } else if IsP(p) {
      StepP(cfg, s, p);
    } else if p.BLoad? {
      StepBLoad(cfg, s, p.k);
    } else if p.BCas? {
      StepBCas(cfg, s, p.k);
    } else if p.BTail? {
      StepBTail(cfg, s, p.k);
    } else if p.BPay? {
      StepBPay(cfg, s, p.k);
    } else if p.ASpin? {
      StepSpin(cfg, s, p);
    } else {
      StepBStart(cfg, s, p);
    }
  }

  // ----- the whole run -----

  function StageLeft(p: Point): nat {
    match p
    case ABegin => 10 case ARead => 9 case AClaim => 8
    case PBegin => 7 case PDeqOk => 6 case PEnqOk => 5 case PClaim => 4
    case PLoad => 3 case PCas => 2 case PThreshold => 1 case PCount => 0
    case BBegin(_) => 6 case BRead(_) => 5 case BClaim(_) => 4 case BLoad(_) => 3
    case BCas(_) => 2 case BTail(_) => 1 case BPay(_) => 0
    case ASpin(_) => 0
    case Over => 0
  }

  /** The number of steps to the end. */
  function Distance(n: nat, p: Point): int {
    if p.Over? then 0
    else if p.ASpin? then MAX_INNER_RETRIES - p.r + 1
    else if IsB(p) then MAX_INNER_RETRIES + 2 + 7 * (n - 1 - p.k) + StageLeft(p)
    else MAX_INNER_RETRIES + 2 + 7 * n + StageLeft(p)
  }

  lemma Closer(n: nat, p: Point)
    requires n > 0 && InRange(n, p) && !p.Over?
    ensures InRange(n, Succ(n, p)) && 0 <= Distance(n, Succ(n, p)) == Distance(n, p) - 1
  {
  }

  /** The state after a schedule is at a point, and only A and B start dequeues. */
  ghost predicate Reached(cfg: Config, sch: seq<Choice>, p: Point) {
    cfg.Valid() && At(cfg, Run(cfg, 3, sch), p) && ConsumersIn(sch, {0, 2})
  }

  lemma Onward(cfg: Config, sch: seq<Choice>, p: Point)
    requires !cfg.variant.Scq? && Reached(cfg, sch, p) && !p.Over?
    ensures Reached(cfg, sch + [Mover(p)], Succ(cfg.n, p))
  {
    Step(cfg, Run(cfg, 3, sch), p);
    RunSnoc(cfg, 3, sch, Mover(p));
  }

  lemma {:induction false} Drive(cfg: Config, sch: seq<Choice>, p: Point, d: nat) returns (after: seq<Choice>)
    requires !cfg.variant.Scq? && Reached(cfg, sch, p)
    requires cfg.n > 0 && InRange(cfg.n, p) && d == Distance(cfg.n, p)
    ensures Reached(cfg, after, Over)
    decreases d
  {
    if d == 0 {
      after := sch;
    } else {
      Onward(cfg, sch, p);
      Closer(cfg.n, p);
      after := Drive(cfg, sch + [Mover(p)], Succ(cfg.n, p), d - 1);
    }
  }

  lemma AtStart(cfg: Config)
    requires cfg.Valid()
    ensures At(cfg, Run(cfg, 3, []), ABegin)
  {
    assert Run(cfg, 3, []) == Init(cfg, 3);
  }

  /** Two consumers and one producer, any ring: an enqueue returns, and its element is
      given up by the valve. */
  lemma ValveFires(cfg: Config) returns (sch: seq<Choice>)
    requires cfg.Valid() && !cfg.variant.Scq?
    ensures ConsumersIn(sch, {0, 2})
    ensures var g := Run(cfg, 3, sch).g;
            ReturnedBy(g, cfg.n) && g.commit == map[cfg.n := 0] && g.taken == map[] && g.abandoned == {cfg.n}
  {
    AtStart(cfg);
    sch := Drive(cfg, [], ABegin, Distance(cfg.n, ABegin));
  }

  /** A returned enqueue can be lost for good: from the end of that run on, whatever the
      threads do, no dequeue ever returns its ticket. */
  lemma ValveLoses(cfg: Config) returns (sch: seq<Choice>)
    requires cfg.Valid() && !cfg.variant.Scq?
    ensures ConsumersIn(sch, {0, 2}) && ReturnedBy(Run(cfg, 3, sch).g, cfg.n)
    ensures forall more: seq<Choice>, p: nat ::
              var log := Run(cfg, 3, sch + more).g.log;
              p < |log| && log[p].DeqReturned? ==> log[p].h != cfg.n
  {
    sch := ValveFires(cfg);
    forall more: seq<Choice>, p: nat
      ensures var log := Run(cfg, 3, sch + more).g.log;
              p < |log| && log[p].DeqReturned? ==> log[p].h != cfg.n
    {
      assert (sch + more)[..|sch|] == sch;
      AbandonedIsLost(cfg, 3, sch + more, |sch|, cfg.n);
    }
  }

  // ----- exactly when -----

  lemma ControlKeeps(cfg: Config, w: Words, g: Hist, pc: Pc, c: Choice)
    ensures Control(cfg, w, g, pc, c).g.abandoned == g.abandoned
  {
  }

  lemma ScqSlotKeeps(cfg: Config, w: Words, sl: Slot, g: Hist, pc: Pc, c: Choice)
    requires cfg.variant.Scq? && TouchesSlot(pc) && SlotOf(cfg.n, SlotTicket(pc)) < |g.wrote|
    ensures SlotStep(cfg, w, sl, g, pc, c).g.abandoned == g.abandoned
  {
  }

  lemma ScqStepKeeps(cfg: Config, s: State, c: Choice)
    requires Sized(cfg, s) && cfg.variant.Scq?
    ensures Next(cfg, s, c).g.abandoned == s.g.abandoned
  {
    if c.tid < |s.pcs| {
      var pc := s.pcs[c.tid];
      if TouchesSlot(pc) {
        ScqSlotKeeps(cfg, s.w, s.slots[SlotOf(cfg.n, SlotTicket(pc))], s.g, pc, c);
      } else {
        ControlKeeps(cfg, s.w, s.g, pc, c);
      }
    }
  }

  /** SCQ has no valve. */
  lemma {:induction false} ScqNeverAbandons(cfg: Config, threads: nat, sch: seq<Choice>)
    requires cfg.Valid() && cfg.variant.Scq?
    ensures Run(cfg, threads, sch).g.abandoned == {}
  {
    if sch != [] {
      ScqNeverAbandons(cfg, threads, sch[..|sch| - 1]);
      ScqStepKeeps(cfg, Run(cfg, threads, sch[..|sch| - 1]), sch[|sch| - 1]);
    }
  }

  lemma FewConsumersKeep(cfg: Config, threads: nat, sch: seq<Choice>, who: set<nat>)
    requires cfg.Valid() && |who| <= 1 && ConsumersIn(sch, who)
    ensures Run(cfg, threads, sch).g.abandoned == {}
  {
    var k := 0;
    if who != {} {
      k :| k in who;
      assert |who - {k}| == 0;
      assert who == {k};
    }
    assert OneConsumer(sch, k);
    RunSolo(cfg, threads, sch, k);
  }

  lemma TwoConsumersLose(cfg: Config, consumers: nat)
    requires cfg.Valid() && !cfg.variant.Scq? && consumers >= 2
    ensures !NeverAbandons(cfg, consumers)
  {
    var sch := ValveFires(cfg);
    var who: set<nat> := {0, 2};
    assert |who| == 2 && ConsumersIn(sch, who);
    assert Run(cfg, 3, sch).g.abandoned == {cfg.n};
  }

  /** No run with at most that many consumers gives an element up if and only if the queue
      is SCQ or there is at most one consumer. */
  lemma NeverAbandonsIff(cfg: Config, consumers: nat)
    requires cfg.Valid()
    ensures NeverAbandons(cfg, consumers) <==> cfg.variant.Scq? || consumers <= 1
  {
    if cfg.variant.Scq? || consumers <= 1 {
      forall threads: nat, sch: seq<Choice>, who: set<nat> | |who| <= consumers && ConsumersIn(sch, who)
        ensures Run(cfg, threads, sch).g.abandoned == {}
      {
        if cfg.variant.Scq? {
          ScqNeverAbandons(cfg, threads, sch);
        } else {
          FewConsumersKeep(cfg, threads, sch, who);
        }
      }
    } else {
      TwoConsumersLose(cfg, consumers);
    }
  }
}
