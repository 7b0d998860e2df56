/** Dead tickets, and what an empty result means: over every run, for any number
    of consumers, and with a single consumer. */
module TicketEmpty {
  import opened Ring
  import opened TicketQueue
  import opened TicketSafety
  import opened TicketOrder

  // ----- what becomes of a claimed ticket -----

  ghost predicate ClaimedBy(pcs: seq<Pc>, u: nat) {
    exists i :: 0 <= i < |pcs| && DeqTicketOf(pcs[i]) == Some(u)
  }

  ghost predicate Settled(g: Hist, u: nat) {
    u in g.taken || u in g.dead || u in g.abandoned
  }

  ghost predicate Accounted(cfg: Config, s: State) {
    forall u :: cfg.n <= u < s.w.head ==> Settled(s.g, u) || ClaimedBy(s.pcs, u)
  }

  // ----- histories only grow -----

  lemma SlotStepGrows(cfg: Config, w: Words, sl: Slot, g: Hist, pc: Pc, c: Choice)
    requires TouchesSlot(pc) && SlotOf(cfg.n, SlotTicket(pc)) < |g.wrote|
    requires pc.EnqCas? ==> pc.t !in g.commit
    requires pc.DeqTake? ==> pc.h !in g.taken
    ensures var e := SlotStep(cfg, w, sl, g, pc, c);
            && e.w == w && Grows(w, g, e.w, e.g) && g.dead <= e.g.dead && g.abandoned <= e.g.abandoned
            && (DeqTicketOf(pc).Some? ==>
                  Settled(e.g, DeqTicketOf(pc).value) || DeqTicketOf(e.pc) == DeqTicketOf(pc))
  {
  }

  lemma StepGrows(cfg: Config, s: State, c: Choice)
    requires Inv(cfg, s)
    ensures var s' := Next(cfg, s, c);
            Grows(s.w, s.g, s'.w, s'.g) && s.g.dead <= s'.g.dead && s.g.abandoned <= s'.g.abandoned
  {
    if c.tid < |s.pcs| {
      var pc := s.pcs[c.tid];
      assert PcOk(cfg.n, s.w, s.slots, s.g, pc);
      if TouchesSlot(pc) {
        SlotStepGrows(cfg, s.w, s.slots[SlotOf(cfg.n, SlotTicket(pc))], s.g, pc, c);
      } else {
        ControlOk(cfg, s.w, s.slots, s.g, pc, c);
      }
    }
  }

  lemma {:induction false} RunGrows(cfg: Config, threads: nat, sch: seq<Choice>, m: nat)
    requires cfg.Valid() && m <= |sch|
    ensures var s, s' := Run(cfg, threads, sch[..m]), Run(cfg, threads, sch);
            Grows(s.w, s.g, s'.w, s'.g) && s.g.dead <= s'.g.dead && s.g.abandoned <= s'.g.abandoned
  {
    if m == |sch| {
      assert sch[..m] == sch;
    } else {
      var before := sch[..|sch| - 1];
      RunGrows(cfg, threads, before, m);
      assert before[..m] == sch[..m];
      RunInv(cfg, threads, before);
      StepGrows(cfg, Run(cfg, threads, before), sch[|sch| - 1]);
    }
  }

  lemma LeftIsDead(cfg: Config, s: State, i: nat)
    requires Inv(cfg, s) && i < |s.pcs| && s.pcs[i].DeqTail? && s.pcs[i].h !in s.g.abandoned
    ensures s.pcs[i].h in s.g.dead
  {
    assert PcOk(cfg.n, s.w, s.slots, s.g, s.pcs[i]);
  }

  lemma DeadNotCommitted(cfg: Config, s: State, h: nat)
    requires Inv(cfg, s) && h in s.g.dead
    ensures h !in s.g.commit
  {
  }

  /** Dead tickets: once the dequeuer with ticket h has left its slot without
      meeting an element of cycle h, no enqueue ever commits ticket h.  The one
      exception is the retry valve of SCQP, which leaves an element behind. */
  lemma DeadTicketsStayDead(cfg: Config, threads: nat, sch: seq<Choice>, m: nat, i: nat)
    requires cfg.Valid() && m <= |sch| && i < threads
    requires var s := Run(cfg, threads, sch[..m]);
             s.pcs[i].DeqTail? && s.pcs[i].h !in s.g.abandoned
    ensures Run(cfg, threads, sch[..m]).pcs[i].h !in Run(cfg, threads, sch).g.commit
  {
    RunInv(cfg, threads, sch[..m]);
    LeftIsDead(cfg, Run(cfg, threads, sch[..m]), i);
    RunGrows(cfg, threads, sch, m);
    RunInv(cfg, threads, sch);
    DeadNotCommitted(cfg, Run(cfg, threads, sch), Run(cfg, threads, sch[..m]).pcs[i].h);
  }

  // ----- every claimed ticket is accounted for -----

  /** A step settles or keeps the moving thread's ticket and claims the new head. */
  lemma StepSettles(cfg: Config, s: State, c: Choice)
    requires Inv(cfg, s) && c.tid < |s.pcs|
    ensures var s' := Next(cfg, s, c);
            && (forall u :: Settled(s.g, u) ==> Settled(s'.g, u))
            && (DeqTicketOf(s.pcs[c.tid]).Some? ==>
                  Settled(s'.g, DeqTicketOf(s.pcs[c.tid]).value)
                  || DeqTicketOf(s'.pcs[c.tid]) == DeqTicketOf(s.pcs[c.tid]))
            && (s'.w.head == s.w.head
                || (s'.w.head == s.w.head + 1 && DeqTicketOf(s'.pcs[c.tid]) == Some(s.w.head)))
            && (forall k :: 0 <= k < |s.pcs| && k != c.tid ==> s'.pcs[k] == s.pcs[k])
  {
    var pc := s.pcs[c.tid];
    assert PcOk(cfg.n, s.w, s.slots, s.g, pc);
    if TouchesSlot(pc) {
      SlotStepGrows(cfg, s.w, s.slots[SlotOf(cfg.n, SlotTicket(pc))], s.g, pc, c);
    } else {
      ControlOk(cfg, s.w, s.slots, s.g, pc, c);
      HeadStep(cfg, s.w, s.g, pc, c);
    }
  }

  lemma HeadStep(cfg: Config, w: Words, g: Hist, pc: Pc, c: Choice)
    requires !TouchesSlot(pc)
    ensures var l := Control(cfg, w, g, pc, c);
            l.w.head == w.head || (l.w.head == w.head + 1 && DeqTicketOf(l.pc) == Some(w.head))
  {
  }

  lemma AccountedNext(cfg: Config, s: State, c: Choice)
    requires Inv(cfg, s) && Accounted(cfg, s)
    ensures Accounted(cfg, Next(cfg, s, c))
  {
    var s' := Next(cfg, s, c);
    if c.tid < |s.pcs| {
      StepSettles(cfg, s, c);
      forall u | cfg.n <= u < s'.w.head ensures Settled(s'.g, u) || ClaimedBy(s'.pcs, u) {
        if u == s.w.head {
          assert DeqTicketOf(s'.pcs[c.tid]) == Some(u);
        } else if !Settled(s.g, u) {
          var i :| 0 <= i < |s.pcs| && DeqTicketOf(s.pcs[i]) == Some(u);
          assert i == c.tid || DeqTicketOf(s'.pcs[i]) == Some(u);
          assert Settled(s'.g, u) || DeqTicketOf(s'.pcs[i]) == Some(u);
        }
      }
    } else {
      forall u | cfg.n <= u < s'.w.head ensures Settled(s'.g, u) || ClaimedBy(s'.pcs, u) {
        assert Settled(s.g, u) || ClaimedBy(s.pcs, u);
      }
    }
  }

  lemma {:induction false} RunAccounted(cfg: Config, threads: nat, sch: seq<Choice>)
    requires cfg.Valid()
    ensures Accounted(cfg, Run(cfg, threads, sch))
  {
    if sch != [] {
      var before := sch[..|sch| - 1];
      RunInv(cfg, threads, before);
      RunAccounted(cfg, threads, before);
      AccountedNext(cfg, Run(cfg, threads, before), sch[|sch| - 1]);
    }
  }

  /** Nothing is lost or overwritten: a committed value was taken under its own
      ticket, or it still sits in its slot, and then its ticket is not yet claimed,
      or claimed by a dequeuer that is still working on it, or given up by the
      retry valve. */
  lemma CommittedIsKept(cfg: Config, threads: nat, sch: seq<Choice>, u: nat)
    requires cfg.Valid() && u in Run(cfg, threads, sch).g.commit
    ensures var s := Run(cfg, threads, sch);
            || (u in s.g.taken && s.g.taken[u] == s.g.commit[u])
            || (Holds(cfg.n, s.slots, u, s.g.commit[u])
                && (u >= s.w.head || ClaimedBy(s.pcs, u) || u in s.g.abandoned))
  {
    RunInv(cfg, threads, sch);
    RunAccounted(cfg, threads, sch);
  }

  // ----- empty results of any number of consumers -----

  predicate IsDeq(pc: Pc) {
    !pc.Idle? && !IsEnq(pc) && !pc.DeqCount?
  }

  function SeenOf(pc: Pc): Option<nat> {
    if pc.DeqPenalty? || pc.DeqHeadNow? || pc.DeqTailNow? || pc.FixHead? || pc.FixTail? || pc.FixCas?
       || pc.DeqFinalReset?
    then pc.seen else None
  }

  /** Program points that lead to an empty result without another look. */
  predicate MustHaveSeen(pc: Pc) {
    pc.FixHead? || pc.FixTail? || pc.FixCas? || pc.DeqFinalReset?
  }

  /** At time m, between a and r, the tail had not passed the head and thread tid
      held no ticket. */
  ghost predicate Moment(cfg: Config, threads: nat, sch: seq<Choice>, tid: nat, a: nat, m: nat, r: nat)
    requires cfg.Valid()
  {
    a <= m <= r <= |sch| && tid < threads
    && var s := Run(cfg, threads, sch[..m]);
       s.w.tail <= s.w.head && DeqTicketOf(s.pcs[tid]).None?
  }

  ghost predicate SeenOk(cfg: Config, threads: nat, sch: seq<Choice>, tid: nat, a: nat,
                         x: Option<nat>, r: nat)
    requires cfg.Valid()
  {
    a <= r <= |sch| && (x.Some? ==> Moment(cfg, threads, sch, tid, a, x.value, r))
  }

  ghost predicate EmptyPc(cfg: Config, threads: nat, sch: seq<Choice>, w: Words, tid: nat, pc: Pc)
    requires cfg.Valid()
  {
    && (IsDeq(pc) ==> SeenOk(cfg, threads, sch, tid, pc.started, SeenOf(pc), |sch|))
    && (pc.DeqEntryTail? || pc.DeqTailNow? ==> pc.headSeen <= w.head)
    && (MustHaveSeen(pc) && !cfg.variant.Scq? ==> SeenOf(pc).Some?)
  }

  ghost predicate EmptyEvent(cfg: Config, threads: nat, sch: seq<Choice>, e: Event)
    requires cfg.Valid()
  {
    e.DeqEmpty? ==>
      && SeenOk(cfg, threads, sch, e.tid, e.started, e.seen, e.returned)
      && (!cfg.variant.Scq? ==> e.seen.Some?)
  }

  ghost predicate EmptyInv(cfg: Config, threads: nat, sch: seq<Choice>)
    requires cfg.Valid()
  {
    var s := Run(cfg, threads, sch);
    && (forall i :: 0 <= i < |s.pcs| ==> EmptyPc(cfg, threads, sch, s.w, i, s.pcs[i]))
    && (forall p :: 0 <= p < |s.g.log| ==> EmptyEvent(cfg, threads, sch, s.g.log[p]))
  }

  /** A fresh observation is the clock of a state with tail <= head. */
  ghost predicate Observed(w: Words, g: Hist, pc: Pc, x: Option<nat>) {
    x.Some? ==> x == SeenOf(pc) || (x == Some(g.clock) && w.tail <= w.head && DeqTicketOf(pc).None?)
  }

  /** What a step does to the dequeue it belongs to. */
  ghost predicate EmptyMove(cfg: Config, w: Words, g: Hist, pc: Pc, w': Words, g': Hist, pc': Pc, tid: nat) {
    && (IsDeq(pc') ==> (IsDeq(pc) && pc'.started == pc.started) || pc'.started == g.clock)
    && Observed(w, g, pc, SeenOf(pc'))
    && (SeenOf(pc').Some? ==> IsDeq(pc) && pc'.started == pc.started)
    && (pc'.DeqEntryTail? || pc'.DeqTailNow? ==> pc'.headSeen <= w'.head)
    && (MustHaveSeen(pc') && !cfg.variant.Scq? ==> SeenOf(pc').Some?)
    && (forall p :: |g.log| <= p < |g'.log| && g'.log[p].DeqEmpty? ==>
          var e := g'.log[p];
          && e.tid == tid && IsDeq(pc) && e.started == pc.started && e.returned == g.clock
          && Observed(w, g, pc, e.seen) && (!cfg.variant.Scq? ==> e.seen.Some?))
    && g.log <= g'.log
  }

  lemma EnqMove(cfg: Config, w: Words, g: Hist, pc: Pc, c: Choice)
    requires !TouchesSlot(pc) && (IsEnq(pc) || pc.Idle?)
    ensures var l := Control(cfg, w, g, pc, c);
            EmptyMove(cfg, w, g, pc, l.w, l.g, l.pc, c.tid)
  {
  }

  lemma DeqMove(cfg: Config, w: Words, g: Hist, pc: Pc, c: Choice)
    requires !TouchesSlot(pc) && !IsEnq(pc) && !pc.Idle?
    requires pc.DeqEntryTail? || pc.DeqTailNow? ==> pc.headSeen <= w.head
    requires pc.DeqTail? ==> pc.h < w.head
    requires MustHaveSeen(pc) && !cfg.variant.Scq? ==> SeenOf(pc).Some?
    ensures var l := Control(cfg, w, g, pc, c);
            EmptyMove(cfg, w, g, pc, l.w, l.g, l.pc, c.tid)
  {
  }

  lemma ControlMove(cfg: Config, w: Words, g: Hist, pc: Pc, c: Choice)
    requires !TouchesSlot(pc)
    requires pc.DeqEntryTail? || pc.DeqTailNow? ==> pc.headSeen <= w.head
    requires pc.DeqTail? ==> pc.h < w.head
    requires MustHaveSeen(pc) && !cfg.variant.Scq? ==> SeenOf(pc).Some?
    ensures var l := Control(cfg, w, g, pc, c);
            EmptyMove(cfg, w, g, pc, l.w, l.g, l.pc, c.tid)
  {
    if IsEnq(pc) || pc.Idle? {
      EnqMove(cfg, w, g, pc, c);
    } else {
      DeqMove(cfg, w, g, pc, c);
    }
  }

  lemma SlotMove(cfg: Config, w: Words, sl: Slot, g: Hist, pc: Pc, c: Choice)
    requires TouchesSlot(pc) && SlotOf(cfg.n, SlotTicket(pc)) < |g.wrote|
    ensures var e := SlotStep(cfg, w, sl, g, pc, c);
            EmptyMove(cfg, w, g, pc, e.w, e.g, e.pc, c.tid)
  {
  }

  /** Observations survive a longer schedule. */
  lemma SeenLater(cfg: Config, threads: nat, sch: seq<Choice>, c: Choice, tid: nat, a: nat,
                  x: Option<nat>, r: nat, r': nat)
    requires cfg.Valid() && SeenOk(cfg, threads, sch, tid, a, x, r) && r <= r' <= |sch| + 1
    ensures SeenOk(cfg, threads, sch + [c], tid, a, x, r')
  {
    if x.Some? {
      assert (sch + [c])[..x.value] == sch[..x.value];
    }
  }

  lemma SeenNow(cfg: Config, threads: nat, sch: seq<Choice>, c: Choice, tid: nat, a: nat, pc: Pc,
                x: Option<nat>, r: nat)
    requires cfg.Valid() && |sch| <= r <= |sch| + 1 && tid < threads
    requires var s := Run(cfg, threads, sch);
             pc == s.pcs[tid] && Observed(s.w, s.g, pc, x) && IsDeq(pc)
             && SeenOk(cfg, threads, sch, tid, a, SeenOf(pc), |sch|)
    ensures SeenOk(cfg, threads, sch + [c], tid, a, x, r)
  {
    if x == SeenOf(pc) {
      SeenLater(cfg, threads, sch, c, tid, a, x, |sch|, r);
    } else {
      assert (sch + [c])[..|sch|] == sch;
    }
  }

  lemma RunSnoc(cfg: Config, threads: nat, sch: seq<Choice>, c: Choice)
    requires cfg.Valid()
    ensures Run(cfg, threads, sch + [c]) == Next(cfg, Run(cfg, threads, sch), c)
  {
    assert (sch + [c])[..|sch|] == sch;
  }

  /** The move of the scheduled thread, in the terms of EmptyMove. */
  lemma NextMove(cfg: Config, threads: nat, sch: seq<Choice>, c: Choice)
    requires cfg.Valid() && EmptyInv(cfg, threads, sch) && c.tid < threads
    requires Inv(cfg, Run(cfg, threads, sch))
    ensures var s := Run(cfg, threads, sch);
            var s' := Next(cfg, s, c);
            EmptyMove(cfg, s.w, s.g, s.pcs[c.tid], s'.w, s'.g, s'.pcs[c.tid], c.tid)
  {
    var s := Run(cfg, threads, sch);
    var pc := s.pcs[c.tid];
    assert EmptyPc(cfg, threads, sch, s.w, c.tid, pc);
    assert PcOk(cfg.n, s.w, s.slots, s.g, pc);
    if TouchesSlot(pc) {
      SlotMove(cfg, s.w, s.slots[SlotOf(cfg.n, SlotTicket(pc))], s.g, pc, c);
    } else {
      ControlMove(cfg, s.w, s.g, pc, c);
    }
  }

  lemma OthersLater(cfg: Config, threads: nat, sch: seq<Choice>, c: Choice, w': Words, i: nat, pc: Pc)
    requires cfg.Valid() && EmptyPc(cfg, threads, sch, Run(cfg, threads, sch).w, i, pc)
    requires w'.head >= Run(cfg, threads, sch).w.head
    ensures EmptyPc(cfg, threads, sch + [c], w', i, pc)
  {
    if IsDeq(pc) {
      SeenLater(cfg, threads, sch, c, i, pc.started, SeenOf(pc), |sch|, |sch| + 1);
    }
  }

  lemma EventLater(cfg: Config, threads: nat, sch: seq<Choice>, c: Choice, e: Event)
    requires cfg.Valid() && EmptyEvent(cfg, threads, sch, e)
    ensures EmptyEvent(cfg, threads, sch + [c], e)
  {
    if e.DeqEmpty? {
      SeenLater(cfg, threads, sch, c, e.tid, e.started, e.seen, e.returned, e.returned);
    }
  }

  /** The scheduled thread's new program point. */
  lemma MoverLater(cfg: Config, threads: nat, sch: seq<Choice>, c: Choice, w': Words, g': Hist, pc': Pc)
    requires cfg.Valid() && EmptyInv(cfg, threads, sch) && c.tid < threads
    requires var s := Run(cfg, threads, sch);
             EmptyMove(cfg, s.w, s.g, s.pcs[c.tid], w', g', pc', c.tid)
    ensures EmptyPc(cfg, threads, sch + [c], w', c.tid, pc')
  {
    var s := Run(cfg, threads, sch);
    var pc := s.pcs[c.tid];
    assert EmptyPc(cfg, threads, sch, s.w, c.tid, pc);
    if IsDeq(pc') && SeenOf(pc').Some? {
      SeenNow(cfg, threads, sch, c, c.tid, pc.started, pc, SeenOf(pc'), |sch| + 1);
    }
  }

  lemma NewEventsLater(cfg: Config, threads: nat, sch: seq<Choice>, c: Choice, w': Words, g': Hist,
                       pc': Pc, p: nat)
    requires cfg.Valid() && EmptyInv(cfg, threads, sch) && c.tid < threads && p < |g'.log|
    requires var s := Run(cfg, threads, sch);
             EmptyMove(cfg, s.w, s.g, s.pcs[c.tid], w', g', pc', c.tid)
    ensures EmptyEvent(cfg, threads, sch + [c], g'.log[p])
  {
    var s := Run(cfg, threads, sch);
    var pc := s.pcs[c.tid];
    if p < |s.g.log| {
      assert g'.log[p] == s.g.log[p];
      EventLater(cfg, threads, sch, c, s.g.log[p]);
    } else if g'.log[p].DeqEmpty? {
      assert EmptyPc(cfg, threads, sch, s.w, c.tid, pc);
      SeenNow(cfg, threads, sch, c, c.tid, pc.started, pc, g'.log[p].seen, |sch|);
    }
  }

  lemma EmptyNext(cfg: Config, threads: nat, sch: seq<Choice>, c: Choice)
    requires cfg.Valid() && EmptyInv(cfg, threads, sch) && Inv(cfg, Run(cfg, threads, sch))
    ensures EmptyInv(cfg, threads, sch + [c])
  {
    var s := Run(cfg, threads, sch);
    var s' := Next(cfg, s, c);
    RunSnoc(cfg, threads, sch, c);
    StepGrows(cfg, s, c);
    if c.tid < threads {
      NextMove(cfg, threads, sch, c);
      MoverLater(cfg, threads, sch, c, s'.w, s'.g, s'.pcs[c.tid]);
    }
    forall i | 0 <= i < |s'.pcs| ensures EmptyPc(cfg, threads, sch + [c], s'.w, i, s'.pcs[i]) {
      if i != c.tid {
        assert s'.pcs[i] == s.pcs[i];
        OthersLater(cfg, threads, sch, c, s'.w, i, s.pcs[i]);
      }
    }
    forall p | 0 <= p < |s'.g.log| ensures EmptyEvent(cfg, threads, sch + [c], s'.g.log[p]) {
      if c.tid < threads {
        NewEventsLater(cfg, threads, sch, c, s'.w, s'.g, s'.pcs[c.tid], p);
      } else {
        EventLater(cfg, threads, sch, c, s.g.log[p]);
      }
    }
  }

  lemma InitEmpty(cfg: Config, threads: nat)
    requires cfg.Valid()
    ensures EmptyInv(cfg, threads, [])
  {
    assert Run(cfg, threads, []) == Init(cfg, threads);
  }

  lemma LastEmpty(cfg: Config, threads: nat, sch: seq<Choice>)
    requires cfg.Valid() && sch != [] && EmptyInv(cfg, threads, sch[..|sch| - 1])
    ensures EmptyInv(cfg, threads, sch)
  {
    var before, c := sch[..|sch| - 1], sch[|sch| - 1];
    assert sch == before + [c];
    RunInv(cfg, threads, before);
    EmptyNext(cfg, threads, before, c);
  }

  lemma {:induction false} RunEmpty(cfg: Config, threads: nat, sch: seq<Choice>)
    requires cfg.Valid()
    ensures EmptyInv(cfg, threads, sch)
  {
    if sch == [] {
      InitEmpty(cfg, threads);
    } else {
      RunEmpty(cfg, threads, sch[..|sch| - 1]);
      LastEmpty(cfg, threads, sch);
    }
  }

  /** Every empty result, from any return site and across fixState, has a moment inside
      the call at which the tail had not passed the head; at that moment every committed
      ticket was already claimed by some dequeue ticket.  SCQ has one exit more, which it
      takes with the threshold used up and the tail ahead; those results carry no moment. */
  lemma EmptyIsJustified(cfg: Config, threads: nat, sch: seq<Choice>, p: nat)
    requires cfg.Valid()
    requires p < |Run(cfg, threads, sch).g.log| && Run(cfg, threads, sch).g.log[p].DeqEmpty?
    ensures !cfg.variant.Scq? ==> Run(cfg, threads, sch).g.log[p].seen.Some?
    ensures var e := Run(cfg, threads, sch).g.log[p];
            e.seen.Some? ==>
              && e.started <= e.seen.value <= e.returned <= |sch|
              && var s := Run(cfg, threads, sch[..e.seen.value]);
                 && s.w.tail <= s.w.head
                 && forall u :: u in s.g.commit ==> u < s.w.head && (Settled(s.g, u) || ClaimedBy(s.pcs, u))
  {
    RunEmpty(cfg, threads, sch);
    var e := Run(cfg, threads, sch).g.log[p];
    assert EmptyEvent(cfg, threads, sch, e);
    if e.seen.Some? {
      RunInv(cfg, threads, sch[..e.seen.value]);
      RunAccounted(cfg, threads, sch[..e.seen.value]);
    }
  }

  // ----- a single consumer -----

  /** Only thread k starts dequeues. */
  predicate OneConsumer(sch: seq<Choice>, k: nat) {
    forall i :: 0 <= i < |sch| && sch[i].deq ==> sch[i].tid == k
  }

  ghost predicate Solo(s: State, k: nat) {
    && (forall i :: 0 <= i < |s.pcs| && i != k ==> !IsDeq(s.pcs[i]))
    && (forall j :: 0 <= j < |s.slots| ==> s.slots[j].safe)
    && s.g.abandoned == {}
    && (forall p :: 0 <= p < |s.g.log| && s.g.log[p].DeqEmpty? ==> s.g.log[p].tid == k)
  }

  lemma SoloSettled(cfg: Config, s: State, k: nat, u: nat)
    requires Accounted(cfg, s) && Solo(s, k) && k < |s.pcs|
    requires cfg.n <= u < s.w.head && DeqTicketOf(s.pcs[k]) != Some(u)
    ensures u in s.g.taken || u in s.g.dead
  {
    assert !ClaimedBy(s.pcs, u);
    assert Settled(s.g, u);
  }

  /** The ticket that filled a slot lies below any ticket of a later cycle. */
  lemma FilledBefore(cfg: Config, s: State, h: nat)
    requires Inv(cfg, s) && s.slots[SlotOf(cfg.n, h)].cycle < Cycle(cfg.n, h)
    requires s.slots[SlotOf(cfg.n, h)].val.Some?
    ensures var u := s.g.wrote[SlotOf(cfg.n, h)]; cfg.n <= u < h && u in s.g.commit && u !in s.g.taken
  {
    var u := s.g.wrote[SlotOf(cfg.n, h)];
    assert Holds(cfg.n, s.slots, u, s.g.commit[u]);
    if h < u {
      SameSlotOrder(cfg.n, h, u);
    }
  }

  /** An element of an older cycle would be one its own dequeuer had left behind. */
  lemma NoOldElement(cfg: Config, s: State, k: nat, h: nat)
    requires Inv(cfg, s) && Accounted(cfg, s) && Solo(s, k) && k < |s.pcs|
    requires DeqTicketOf(s.pcs[k]) == Some(h) && h < s.w.head
    requires s.slots[SlotOf(cfg.n, h)].cycle < Cycle(cfg.n, h)
    ensures s.slots[SlotOf(cfg.n, h)].val.None?
  {
    if s.slots[SlotOf(cfg.n, h)].val.Some? {
      FilledBefore(cfg, s, h);
      SoloSettled(cfg, s, k, s.g.wrote[SlotOf(cfg.n, h)]);
    }
  }

  /** Effect of a consumer's or producer's slot step when all slots are safe. */
  lemma SafeSlotStep(cfg: Config, w: Words, sl: Slot, g: Hist, pc: Pc, c: Choice)
    requires TouchesSlot(pc) && SlotOf(cfg.n, SlotTicket(pc)) < |g.wrote| && sl.safe
    requires pc.DeqCas? && sl == pc.ent ==> sl.val.None?
    ensures var e := SlotStep(cfg, w, sl, g, pc, c);
            && e.slot.safe && e.g.abandoned == g.abandoned && (IsDeq(e.pc) ==> IsDeq(pc))
            && (e.g.log == g.log || exists ev: Event :: e.g.log == g.log + [ev] && !ev.DeqEmpty?)
  {
    if pc.DeqTake? {
      var ev := DeqReturned(pc.h, pc.v);
      assert !ev.DeqEmpty? && Logged(g, ev).log == g.log + [ev];
    }
  }

  lemma SoloSlot(cfg: Config, s: State, k: nat, c: Choice)
    requires Inv(cfg, s) && Accounted(cfg, s) && Solo(s, k)
    requires c.tid < |s.pcs| && TouchesSlot(s.pcs[c.tid])
    ensures Solo(Next(cfg, s, c), k)
  {
    var pc := s.pcs[c.tid];
    var j := SlotOf(cfg.n, SlotTicket(pc));
    assert PcOk(cfg.n, s.w, s.slots, s.g, pc);
    if pc.DeqCas? && s.slots[j] == pc.ent {
      NoOldElement(cfg, s, k, pc.h);
    }
    SafeSlotStep(cfg, s.w, s.slots[j], s.g, pc, c);
  }

  lemma SoloControl(cfg: Config, threads: nat, sch: seq<Choice>, k: nat, c: Choice)
    requires cfg.Valid() && c.tid < threads && (c.deq ==> c.tid == k)
    requires var s := Run(cfg, threads, sch); Inv(cfg, s) && Solo(s, k) && !TouchesSlot(s.pcs[c.tid])
    requires EmptyInv(cfg, threads, sch)
    ensures Solo(Next(cfg, Run(cfg, threads, sch), c), k)
  {
    var s := Run(cfg, threads, sch);
    var pc := s.pcs[c.tid];
    NextMove(cfg, threads, sch, c);
    ControlOk(cfg, s.w, s.slots, s.g, pc, c);
    if c.tid != k {
      StaysEnq(cfg, s.w, s.g, pc, c);
    }
  }

  lemma StaysEnq(cfg: Config, w: Words, g: Hist, pc: Pc, c: Choice)
    requires !TouchesSlot(pc) && !IsDeq(pc) && (pc.Idle? ==> !c.deq)
    ensures !IsDeq(Control(cfg, w, g, pc, c).pc)
  {
  }

  lemma {:induction false} RunSolo(cfg: Config, threads: nat, sch: seq<Choice>, k: nat)
    requires cfg.Valid() && OneConsumer(sch, k)
    ensures Solo(Run(cfg, threads, sch), k)
  {
    if sch != [] {
      var before, c := sch[..|sch| - 1], sch[|sch| - 1];
      RunSolo(cfg, threads, before, k);
      RunInv(cfg, threads, before);
      RunAccounted(cfg, threads, before);
      RunEmpty(cfg, threads, before);
      var s := Run(cfg, threads, before);
      if c.tid < threads {
        if TouchesSlot(s.pcs[c.tid]) {
          SoloSlot(cfg, s, k, c);
        } else {
          SoloControl(cfg, threads, before, k, c);
        }
      }
    }
  }

  /** With the consumer between tickets and the tail not past the head, everything
      committed has been taken. */
  lemma SoloDelivered(cfg: Config, s: State, k: nat)
    requires Inv(cfg, s) && Accounted(cfg, s) && Solo(s, k)
    requires s.w.tail <= s.w.head && k < |s.pcs| && DeqTicketOf(s.pcs[k]).None?
    ensures s.g.commit == s.g.taken
  {
    forall u | u in s.g.commit ensures u in s.g.taken {
      assert !ClaimedBy(s.pcs, u);
      assert Settled(s.g, u);
    }
  }

  /** One consumer, any number of producers: no slot is ever marked unsafe, the
      retry valve never fires, and every empty result has a moment inside the call
      at which everything committed so far had been delivered. */
  lemma SingleConsumerLosesNothing(cfg: Config, threads: nat, sch: seq<Choice>, k: nat, p: nat)
    requires cfg.Valid() && !cfg.variant.Scq? && OneConsumer(sch, k)
    ensures forall j :: 0 <= j < cfg.n ==> Run(cfg, threads, sch).slots[j].safe
    ensures Run(cfg, threads, sch).g.abandoned == {}
    ensures var log := Run(cfg, threads, sch).g.log;
            p < |log| && log[p].DeqEmpty? ==>
              && log[p].seen.Some? && log[p].started <= log[p].seen.value <= log[p].returned <= |sch|
              && var s := Run(cfg, threads, sch[..log[p].seen.value]);
                 s.g.commit == s.g.taken
  {
    RunSolo(cfg, threads, sch, k);
    var log := Run(cfg, threads, sch).g.log;
    if p < |log| && log[p].DeqEmpty? {
      RunEmpty(cfg, threads, sch);
      assert EmptyEvent(cfg, threads, sch, log[p]);
      var early := sch[..log[p].seen.value];
      RunInv(cfg, threads, early);
      RunAccounted(cfg, threads, early);
      RunSolo(cfg, threads, early, k);
      SoloDelivered(cfg, Run(cfg, threads, early), k);
    }
  }
}
