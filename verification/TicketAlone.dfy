/** SCQ used by a single thread.  Its tickets leave no holes: an enqueue skips a ticket
    only when the head has passed it, or on a full ring, and then it never returns.  So a
    dequeue that fails has reached the tail, and every empty result has a moment with the
    tail not past the head. */
module TicketAlone {
  import opened Ring
  import opened TicketQueue
  import opened TicketSafety
  import opened TicketEmpty
  import opened TicketSteps
  import opened TicketValve

  /** The first enqueue ticket that is still to be decided. */
  function NextEnq(w: Words, pc: Pc): nat {
    if EnqTicketOf(pc).Some? then EnqTicketOf(pc).value else w.tail
  }

  /** The first dequeue ticket that is still to be decided. */
  function NextDeq(w: Words, pc: Pc): nat {
    if DeqTicketOf(pc).Some? then DeqTicketOf(pc).value else w.head
  }

  /** An enqueue on a full ring. */
  ghost predicate Stuck(slots: seq<Slot>, pc: Pc) {
    (pc.EnqClaim? || pc.EnqLoad?) && forall j :: 0 <= j < |slots| ==> slots[j].val.Some?
  }

  ghost predicate Dense(w: Words, g: Hist, pc: Pc) {
    forall u: nat :: NextDeq(w, pc) <= u < NextEnq(w, pc) ==> u in g.commit
  }

  /** Tickets still to come find an older cycle. */
  ghost predicate Ahead(n: nat, w: Words, slots: seq<Slot>, pc: Pc)
    requires RingSize(n) && |slots| == n
  {
    forall p: nat {:trigger SlotOf(n, p)} ::
      p >= NextDeq(w, pc) && p >= NextEnq(w, pc) ==> slots[SlotOf(n, p)].cycle < Cycle(n, p)
  }

  ghost predicate Held(w: Words, pc: Pc) {
    && (EnqTicketOf(pc).Some? ==> w.tail == EnqTicketOf(pc).value + 1)
    && (DeqTicketOf(pc).Some? ==> w.head == DeqTicketOf(pc).value + 1)
    && (pc.DeqCas? || pc.DeqTail? ==> w.tail <= pc.h)
    && (pc.DeqPenalty? || pc.DeqHeadNow? || pc.DeqTailNow? || MustHaveSeen(pc) ==> SeenOf(pc).Some?)
  }

  ghost predicate AllSeen(log: seq<Event>) {
    forall p :: 0 <= p < |log| && log[p].DeqEmpty? ==> log[p].seen.Some?
  }

  ghost predicate AloneInv(cfg: Config, s: State) {
    && Sized(cfg, s) && |s.pcs| == 1 && AllSeen(s.g.log) && Held(s.w, s.pcs[0])
    && (Stuck(s.slots, s.pcs[0])
        || (Dense(s.w, s.g, s.pcs[0]) && Ahead(cfg.n, s.w, s.slots, s.pcs[0])))
  }

  /** What the other invariants say, for one thread of SCQ. */
  ghost predicate Base(cfg: Config, s: State) {
    Inv(cfg, s) && Accounted(cfg, s) && s.g.abandoned == {} && cfg.variant.Scq? && AloneInv(cfg, s)
  }

  /** A committed ticket at or past the head still sits in its slot. */
  lemma StillThere(cfg: Config, s: State, u: nat)
    requires Inv(cfg, s) && u in s.g.commit && u >= s.w.head
    ensures Holds(cfg.n, s.slots, u, s.g.commit[u])
  {
  }

  /** An element in a slot has not been passed by the head. */
  lemma NotPassed(cfg: Config, s: State, j: nat)
    requires Base(cfg, s) && j < cfg.n && s.slots[j].val.Some? && DeqTicketOf(s.pcs[0]).None?
    ensures var u := s.g.wrote[j]; u in s.g.commit && SlotOf(cfg.n, u) == j && s.w.head <= u < s.w.tail
  {
    var u := s.g.wrote[j];
    assert !ClaimedBy(s.pcs, u);
  }

  /** Meeting an occupied slot means that the ring is full. */
  lemma OccupiedMeansFull(cfg: Config, s: State)
    requires Base(cfg, s) && s.pcs[0].EnqLoad? && Dense(s.w, s.g, s.pcs[0])
    requires s.slots[SlotOf(cfg.n, s.pcs[0].t)].val.Some?
    ensures forall j :: 0 <= j < cfg.n ==> s.slots[j].val.Some?
  {
    var t := s.pcs[0].t;
    assert PcOk(cfg.n, s.w, s.slots, s.g, s.pcs[0]);
    NotPassed(cfg, s, SlotOf(cfg.n, t));
    var u := s.g.wrote[SlotOf(cfg.n, t)];
    SameSlotOrder(cfg.n, u, t);
    forall j | 0 <= j < cfg.n ensures s.slots[j].val.Some? {
      var p := TicketOfSlot(cfg.n, t - cfg.n, j);
      assert p in s.g.commit;
      StillThere(cfg, s, p);
    }
  }

  lemma EnqLoadAlone(cfg: Config, s: State, c: Choice)
    requires Base(cfg, s) && c.tid == 0 && s.pcs[0].EnqLoad?
    ensures AloneInv(cfg, Next(cfg, s, c))
  {
    if s.slots[SlotOf(cfg.n, s.pcs[0].t)].val.Some? {
      if !Stuck(s.slots, s.pcs[0]) {
        OccupiedMeansFull(cfg, s);
      }
      LoadFull(cfg, s, c);
    } else {
      EnqLoadEmpty(cfg, s, c);
    }
  }

  lemma EnqLoadEmpty(cfg: Config, s: State, c: Choice)
    requires Base(cfg, s) && c.tid == 0 && s.pcs[0].EnqLoad?
    requires s.slots[SlotOf(cfg.n, s.pcs[0].t)].val.None?
    ensures AloneInv(cfg, Next(cfg, s, c))
  {
    var j := SlotOf(cfg.n, s.pcs[0].t);
    assert s.slots[j := s.slots[j]] == s.slots;
  }

  lemma EnqCasAlone(cfg: Config, s: State, c: Choice)
    requires Base(cfg, s) && c.tid == 0 && s.pcs[0].EnqCas?
    ensures AloneInv(cfg, Next(cfg, s, c))
  {
    var pc := s.pcs[0];
    var j := SlotOf(cfg.n, pc.t);
    var s' := Next(cfg, s, c);
    if s.slots[j] == pc.ent {
      forall p: nat {:trigger SlotOf(cfg.n, p)} | p >= s.w.head && p >= pc.t + 1
        ensures s'.slots[SlotOf(cfg.n, p)].cycle < Cycle(cfg.n, p)
      {
        if SlotOf(cfg.n, p) == j {
          SameSlotOrder(cfg.n, pc.t, p);
        }
      }
    } else {
      assert s.slots[j := s.slots[j]] == s.slots;
    }
  }

  /** A ticket below the tail finds its own element. */
  lemma DeqFinds(cfg: Config, s: State)
    requires Base(cfg, s) && s.pcs[0].DeqLoad? && s.pcs[0].h < s.w.tail
    ensures var sl := s.slots[SlotOf(cfg.n, s.pcs[0].h)]; sl.cycle == Cycle(cfg.n, s.pcs[0].h) && sl.val.Some?
  {
    var h := s.pcs[0].h;
    assert PcOk(cfg.n, s.w, s.slots, s.g, s.pcs[0]);
    assert h in s.g.commit && h !in s.g.taken;
    assert Holds(cfg.n, s.slots, h, s.g.commit[h]);
  }

  /** With its element in the slot a dequeuer takes it or looks again. */
  lemma OwnLoad(cfg: Config, w: Words, sl: Slot, g: Hist, pc: Pc)
    requires cfg.variant.Scq? && pc.DeqLoad? && sl.cycle == Cycle(cfg.n, pc.h) && sl.val.Some?
    ensures var e := DeqLoadStep(cfg, w, sl, g, pc);
            && e.slot == sl && e.w == w && e.g == g && !e.pc.DeqCas? && !e.pc.DeqTail?
            && DeqTicketOf(e.pc) == Some(pc.h) && EnqTicketOf(e.pc).None?
  {
  }

  /** Steps that keep slots, words and tickets. */
  lemma KeptAlone(cfg: Config, s: State, s': State)
    requires AloneInv(cfg, s) && s.pcs[0].DeqLoad? && Sized(cfg, s') && |s'.pcs| == 1 && Held(s'.w, s'.pcs[0])
    requires s'.slots == s.slots && s'.w == s.w && s'.g.commit == s.g.commit && s'.g.log == s.g.log
    requires DeqTicketOf(s'.pcs[0]) == DeqTicketOf(s.pcs[0]) && EnqTicketOf(s'.pcs[0]).None?
    ensures AloneInv(cfg, s')
  {
  }

  lemma DeqLoadAlone(cfg: Config, s: State, c: Choice)
    requires Base(cfg, s) && c.tid == 0 && s.pcs[0].DeqLoad?
    ensures AloneInv(cfg, Next(cfg, s, c))
  {
    var j := SlotOf(cfg.n, s.pcs[0].h);
    if s.pcs[0].h < s.w.tail {
      DeqFinds(cfg, s);
      OwnLoad(cfg, s.w, s.slots[j], s.g, s.pcs[0]);
      assert s.slots[j := s.slots[j]] == s.slots;
    } else {
      LoadOlder(cfg, s, c);
    }
    KeptAlone(cfg, s, Next(cfg, s, c));
  }

  lemma DeqCasAlone(cfg: Config, s: State, c: Choice)
    requires Base(cfg, s) && c.tid == 0 && s.pcs[0].DeqCas?
    ensures AloneInv(cfg, Next(cfg, s, c))
  {
    var pc := s.pcs[0];
    var j := SlotOf(cfg.n, pc.h);
    var s' := Next(cfg, s, c);
    if s.slots[j] == pc.ent {
      forall p: nat {:trigger SlotOf(cfg.n, p)} | p >= pc.h + 1
        ensures s'.slots[SlotOf(cfg.n, p)].cycle < Cycle(cfg.n, p)
      {
        if SlotOf(cfg.n, p) == j {
          SameSlotOrder(cfg.n, pc.h, p);
        }
      }
    } else {
      assert s.slots[j := s.slots[j]] == s.slots;
    }
  }

  lemma DeqTakeAlone(cfg: Config, s: State, c: Choice)
    requires Base(cfg, s) && c.tid == 0 && s.pcs[0].DeqTake?
    ensures AloneInv(cfg, Next(cfg, s, c))
  {
    var j := SlotOf(cfg.n, s.pcs[0].h);
    var s' := Next(cfg, s, c);
    forall p: nat {:trigger SlotOf(cfg.n, p)}
      ensures s'.slots[SlotOf(cfg.n, p)].cycle == s.slots[SlotOf(cfg.n, p)].cycle
    {
    }
  }

  /** What a step without a slot owes: decided tickets stay decided, and no enqueue ticket
      at or past the head is skipped. */
  ghost predicate Onwards(w: Words, g: Hist, pc: Pc, l: Local) {
    Tidy(w, g, pc, l) && (AllSeen(g.log) ==> AllSeen(l.g.log))
  }

  ghost predicate Tidy(w: Words, g: Hist, pc: Pc, l: Local) {
    && Held(l.w, l.pc) && l.g.commit == g.commit
    && NextDeq(l.w, l.pc) >= NextDeq(w, pc) && NextEnq(l.w, l.pc) >= NextEnq(w, pc)
    && (NextEnq(l.w, l.pc) == NextEnq(w, pc) || NextEnq(l.w, l.pc) <= NextDeq(l.w, l.pc))
  }

  lemma EnqTidy(cfg: Config, w: Words, g: Hist, pc: Pc)
    requires Held(w, pc) && !TouchesSlot(pc) && IsEnq(pc)
    ensures Tidy(w, g, pc, EnqControl(cfg, w, g, pc))
    ensures pc.EnqClaim? ==> EnqControl(cfg, w, g, pc).pc.EnqLoad?
  {
  }

  lemma EnqSeen(cfg: Config, w: Words, g: Hist, pc: Pc)
    requires AllSeen(g.log)
    ensures AllSeen(EnqControl(cfg, w, g, pc).g.log)
  {
  }

  lemma EnqOnwards(cfg: Config, w: Words, g: Hist, pc: Pc)
    requires Held(w, pc) && !TouchesSlot(pc) && IsEnq(pc)
    ensures Onwards(w, g, pc, EnqControl(cfg, w, g, pc))
    ensures pc.EnqClaim? ==> EnqControl(cfg, w, g, pc).pc.EnqLoad?
  {
    EnqTidy(cfg, w, g, pc);
    if AllSeen(g.log) {
      EnqSeen(cfg, w, g, pc);
    }
  }

  /** Repairing the tail. */
  predicate Fixes(pc: Pc) {
    pc.FixHead? || pc.FixTail? || pc.FixCas? || pc.DeqFinalReset?
  }

  lemma FixTidy(cfg: Config, w: Words, g: Hist, pc: Pc, c: Choice)
    requires Held(w, pc) && Fixes(pc)
    requires pc.FixCas? ==> pc.headSeen <= w.head && pc.tailSeen < pc.headSeen
    ensures Tidy(w, g, pc, DeqControl(cfg, w, g, pc, c))
  {
  }

  lemma DeqTidy(cfg: Config, w: Words, g: Hist, pc: Pc, c: Choice)
    requires Held(w, pc) && !TouchesSlot(pc) && !IsEnq(pc) && !pc.Idle? && !Fixes(pc)
    requires pc.DeqTail? ==> pc.h < w.head
    ensures Tidy(w, g, pc, DeqControl(cfg, w, g, pc, c))
  {
  }

  lemma DeqSeen(cfg: Config, w: Words, g: Hist, pc: Pc, c: Choice)
    requires AllSeen(g.log) && Held(w, pc)
    ensures AllSeen(DeqControl(cfg, w, g, pc, c).g.log)
  {
  }

  lemma DeqOnwards(cfg: Config, w: Words, g: Hist, pc: Pc, c: Choice)
    requires Held(w, pc) && !TouchesSlot(pc) && !IsEnq(pc) && !pc.Idle?
    requires pc.FixCas? ==> pc.headSeen <= w.head && pc.tailSeen < pc.headSeen
    requires pc.DeqTail? ==> pc.h < w.head
    ensures Onwards(w, g, pc, DeqControl(cfg, w, g, pc, c))
  {
    if Fixes(pc) {
      FixTidy(cfg, w, g, pc, c);
    } else {
      DeqTidy(cfg, w, g, pc, c);
    }
    if AllSeen(g.log) {
      DeqSeen(cfg, w, g, pc, c);
    }
  }

  lemma BeginOnwards(cfg: Config, w: Words, g: Hist, c: Choice)
    ensures Onwards(w, g, Idle, Begin(cfg, w, g, c))
  {
  }

  lemma ControlAlone(cfg: Config, s: State, c: Choice)
    requires Base(cfg, s) && c.tid == 0 && !TouchesSlot(s.pcs[0])
    ensures AloneInv(cfg, Next(cfg, s, c))
  {
    var pc := s.pcs[0];
    assert PcOk(cfg.n, s.w, s.slots, s.g, pc);
    if pc.Idle? {
      BeginOnwards(cfg, s.w, s.g, c);
    } else if IsEnq(pc) {
      EnqOnwards(cfg, s.w, s.g, pc);
    } else {
      DeqOnwards(cfg, s.w, s.g, pc, c);
    }
    ControlMoves(cfg, s, c);
    OnwardsKeeps(cfg, s, Next(cfg, s, c), Control(cfg, s.w, s.g, pc, c));
  }

  lemma OnwardsKeeps(cfg: Config, s: State, s': State, l: Local)
    requires AloneInv(cfg, s) && Onwards(s.w, s.g, s.pcs[0], l) && (s.pcs[0].EnqClaim? ==> l.pc.EnqLoad?)
    requires Sized(cfg, s') && Moved(s, s', 0, l.pc, l.w) && s'.slots == s.slots && s'.g == Tick(l.g)
    requires !s.pcs[0].EnqLoad?
    ensures AloneInv(cfg, s')
  {
  }

  lemma AloneNext(cfg: Config, s: State, c: Choice)
    requires Base(cfg, s)
    ensures AloneInv(cfg, Next(cfg, s, c))
  {
    if c.tid == 0 {
      var pc := s.pcs[0];
      if pc.EnqLoad? {
        EnqLoadAlone(cfg, s, c);
      } else if pc.EnqCas? {
        EnqCasAlone(cfg, s, c);
      } else if pc.DeqLoad? {
        DeqLoadAlone(cfg, s, c);
      } else if pc.DeqCas? {
        DeqCasAlone(cfg, s, c);
      } else if pc.DeqTake? {
        DeqTakeAlone(cfg, s, c);
      } else {
        ControlAlone(cfg, s, c);
      }
    }
  }

  lemma AloneStart(cfg: Config)
    requires cfg.Valid()
    ensures AloneInv(cfg, Run(cfg, 1, []))
  {
    assert Run(cfg, 1, []) == Init(cfg, 1);
    forall p: nat {:trigger SlotOf(cfg.n, p)} | p >= cfg.n ensures 0 < Cycle(cfg.n, p) {
    }
  }

  lemma AloneLast(cfg: Config, sch: seq<Choice>)
    requires cfg.Valid() && cfg.variant.Scq? && sch != [] && AloneInv(cfg, Run(cfg, 1, sch[..|sch| - 1]))
    ensures AloneInv(cfg, Run(cfg, 1, sch))
  {
    var before := sch[..|sch| - 1];
    RunInv(cfg, 1, before);
    RunAccounted(cfg, 1, before);
    ScqNeverAbandons(cfg, 1, before);
    AloneNext(cfg, Run(cfg, 1, before), sch[|sch| - 1]);
  }

  lemma {:induction false} RunAlone(cfg: Config, sch: seq<Choice>)
    requires cfg.Valid() && cfg.variant.Scq?
    ensures AloneInv(cfg, Run(cfg, 1, sch))
  {
    if sch == [] {
      AloneStart(cfg);
    } else {
      RunAlone(cfg, sch[..|sch| - 1]);
      AloneLast(cfg, sch);
    }
  }

  /** With one thread SCQ never takes the exit without a moment: every empty result was
      reached with the tail not past the head. */
  lemma AloneSees(cfg: Config, sch: seq<Choice>, p: nat)
    requires cfg.Valid() && cfg.variant.Scq?
    requires p < |Run(cfg, 1, sch).g.log| && Run(cfg, 1, sch).g.log[p].DeqEmpty?
    ensures var e := Run(cfg, 1, sch).g.log[p];
            && e.seen.Some? && e.started <= e.seen.value <= e.returned <= |sch|
            && var w := Run(cfg, 1, sch[..e.seen.value]).w; w.tail <= w.head
  {
    RunAlone(cfg, sch);
    EmptyIsJustified(cfg, 1, sch, p);
  }
}
