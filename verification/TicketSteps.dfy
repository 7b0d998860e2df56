/** Single slot steps of the ticket protocol in the outcomes that concrete runs need:
    what the step leaves of the words, the slots, the history and the moving thread. */
module TicketSteps {
  import opened Ring
  import opened TicketQueue

  /** The new state of a slot step, in the parts that do not depend on its outcome. */
  ghost predicate Moved(s: State, s': State, i: nat, pc: Pc, w: Words) {
    |s'.pcs| == |s.pcs| && i < |s.pcs| && s'.pcs == s.pcs[i := pc] && s'.w == w
  }

  /** An enqueuer loads a slot it may try to fill. */
  lemma LoadFree(cfg: Config, s: State, c: Choice)
    requires Sized(cfg, s) && c.tid < |s.pcs| && s.pcs[c.tid].EnqLoad?
    requires var pc := s.pcs[c.tid];
             var sl := s.slots[SlotOf(cfg.n, pc.t)];
             sl.cycle < Cycle(cfg.n, pc.t) && sl.safe && sl.val.None?
    ensures var pc, s' := s.pcs[c.tid], Next(cfg, s, c);
            && Moved(s, s', c.tid, EnqCas(pc.v, pc.op, pc.t, s.slots[SlotOf(cfg.n, pc.t)]), s.w)
            && s'.slots == s.slots && s'.g == Tick(s.g)
  {
    var pc := s.pcs[c.tid];
    assert s.slots[SlotOf(cfg.n, pc.t) := s.slots[SlotOf(cfg.n, pc.t)]] == s.slots;
  }

  /** An enqueuer loads an occupied slot and goes for another ticket. */
  lemma LoadFull(cfg: Config, s: State, c: Choice)
    requires Sized(cfg, s) && c.tid < |s.pcs| && s.pcs[c.tid].EnqLoad?
    requires s.slots[SlotOf(cfg.n, s.pcs[c.tid].t)].val.Some?
    ensures var pc, s' := s.pcs[c.tid], Next(cfg, s, c);
            && Moved(s, s', c.tid, NextTicket(cfg.variant, pc.v, pc.op), s.w)
            && s'.slots == s.slots && s'.g == Tick(s.g)
  {
    var pc := s.pcs[c.tid];
    assert s.slots[SlotOf(cfg.n, pc.t) := s.slots[SlotOf(cfg.n, pc.t)]] == s.slots;
  }

  /** The enqueue CAS2 on an unchanged slot commits. */
  lemma CommitHits(cfg: Config, s: State, c: Choice)
    requires Sized(cfg, s) && c.tid < |s.pcs| && s.pcs[c.tid].EnqCas? && !c.fail
    requires s.slots[SlotOf(cfg.n, s.pcs[c.tid].t)] == s.pcs[c.tid].ent
    ensures var pc, s' := s.pcs[c.tid], Next(cfg, s, c);
            var j := SlotOf(cfg.n, pc.t);
            && Moved(s, s', c.tid, EnqReadThreshold(pc.op, pc.t), s.w)
            && s'.slots == s.slots[j := Slot(Cycle(cfg.n, pc.t), true, Some(pc.v))]
            && s'.g == Tick(Committed(s.g, j, pc.t, pc.v))
  {
  }

  /** A dequeuer loads a slot of an older cycle. */
  lemma LoadOlder(cfg: Config, s: State, c: Choice)
    requires Sized(cfg, s) && c.tid < |s.pcs| && s.pcs[c.tid].DeqLoad?
    requires s.slots[SlotOf(cfg.n, s.pcs[c.tid].h)].cycle < Cycle(cfg.n, s.pcs[c.tid].h)
    ensures var pc, s' := s.pcs[c.tid], Next(cfg, s, c);
            && Moved(s, s', c.tid, DeqCas(pc.started, pc.h, pc.retries, s.slots[SlotOf(cfg.n, pc.h)]), s.w)
            && s'.slots == s.slots && s'.g == Tick(s.g)
  {
    var pc := s.pcs[c.tid];
    assert s.slots[SlotOf(cfg.n, pc.h) := s.slots[SlotOf(cfg.n, pc.h)]] == s.slots;
  }

  /** A dequeuer loads a slot of a later cycle and leaves. */
  lemma LoadLater(cfg: Config, s: State, c: Choice)
    requires Sized(cfg, s) && c.tid < |s.pcs| && s.pcs[c.tid].DeqLoad?
    requires s.slots[SlotOf(cfg.n, s.pcs[c.tid].h)].cycle > Cycle(cfg.n, s.pcs[c.tid].h)
    ensures var pc, s' := s.pcs[c.tid], Next(cfg, s, c);
            && Moved(s, s', c.tid, DeqTail(pc.started, pc.h), s.w)
            && s'.slots == s.slots && s'.g == Tick(s.g.(dead := s.g.dead + {pc.h}))
  {
    var pc := s.pcs[c.tid];
    assert s.slots[SlotOf(cfg.n, pc.h) := s.slots[SlotOf(cfg.n, pc.h)]] == s.slots;
  }

  /** A dequeuer loads its element from a safe slot. */
  lemma LoadOwn(cfg: Config, s: State, c: Choice)
    requires Sized(cfg, s) && c.tid < |s.pcs| && s.pcs[c.tid].DeqLoad?
    requires var sl := s.slots[SlotOf(cfg.n, s.pcs[c.tid].h)];
             sl.cycle == Cycle(cfg.n, s.pcs[c.tid].h) && sl.safe && sl.val.Some?
    ensures var pc, s' := s.pcs[c.tid], Next(cfg, s, c);
            && Moved(s, s', c.tid, DeqTake(pc.started, pc.h, s.slots[SlotOf(cfg.n, pc.h)].val.value), s.w)
            && s'.slots == s.slots && s'.g == Tick(s.g)
  {
    var pc := s.pcs[c.tid];
    assert s.slots[SlotOf(cfg.n, pc.h) := s.slots[SlotOf(cfg.n, pc.h)]] == s.slots;
  }

  /** The dequeue CAS2 on an unchanged slot advances or marks it. */
  lemma MarkHits(cfg: Config, s: State, c: Choice)
    requires Sized(cfg, s) && c.tid < |s.pcs| && s.pcs[c.tid].DeqCas?
    requires s.slots[SlotOf(cfg.n, s.pcs[c.tid].h)] == s.pcs[c.tid].ent
    ensures var pc, s' := s.pcs[c.tid], Next(cfg, s, c);
            && Moved(s, s', c.tid, DeqTail(pc.started, pc.h), s.w)
            && s'.slots == s.slots[SlotOf(cfg.n, pc.h) := Marked(pc.ent, Cycle(cfg.n, pc.h))]
            && s'.g == Tick(s.g.(dead := s.g.dead + {pc.h}))
  {
  }

  /** A step that touches no slot. */
  lemma ControlMoves(cfg: Config, s: State, c: Choice)
    requires Sized(cfg, s) && c.tid < |s.pcs| && !TouchesSlot(s.pcs[c.tid])
    ensures var l, s' := Control(cfg, s.w, s.g, s.pcs[c.tid], c), Next(cfg, s, c);
            Moved(s, s', c.tid, l.pc, l.w) && s'.slots == s.slots && s'.g == Tick(l.g)
  {
  }
}
