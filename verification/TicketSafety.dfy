/** What every step of the ticket protocol keeps: each ticket is committed at
    most once, a committed value stays in its slot until the dequeuer with the
    same ticket takes it, and a ticket whose dequeuer left empty-handed is dead. */
module TicketSafety {
  import opened Ring
  import opened TicketQueue

  // ----- the invariant -----

  /** Slot contents of a ticket that is committed and not yet taken. */
  ghost predicate Holds(n: nat, sl: seq<Slot>, u: nat, v: Value)
    requires RingSize(n) && |sl| == n
  {
    sl[SlotOf(n, u)].cycle == Cycle(n, u) && sl[SlotOf(n, u)].val == Some(v)
  }

  /** The slot of a dead ticket is past it, or refuses late enqueuers. */
  ghost predicate Barred(n: nat, sl: seq<Slot>, h: nat)
    requires RingSize(n) && |sl| == n
  {
    sl[SlotOf(n, h)].cycle >= Cycle(n, h) || !sl[SlotOf(n, h)].safe
  }

  ghost predicate Shape(n: nat, w: Words, sl: seq<Slot>, g: Hist) {
    RingSize(n) && |sl| == n && |g.wrote| == n && w.head >= n && w.tail >= n
  }

  ghost predicate Tickets(n: nat, w: Words, g: Hist) {
    && (forall u :: u in g.commit ==> n <= u < w.tail && u !in g.dead)
    && (forall u :: u in g.taken ==>
          u in g.commit && g.taken[u] == g.commit[u] && u < w.head && u !in g.abandoned)
    && (forall h :: h in g.dead ==> n <= h < w.head)
    && (forall h :: h in g.abandoned ==> h in g.commit && h < w.head)
  }

  ghost predicate Stored(n: nat, sl: seq<Slot>, g: Hist)
    requires RingSize(n) && |sl| == n && |g.wrote| == n
  {
    && (forall u :: u in g.commit && u !in g.taken ==> Holds(n, sl, u, g.commit[u]))
    && (forall j :: 0 <= j < n && sl[j].val.Some? ==>
          g.wrote[j] in g.commit && g.wrote[j] !in g.taken && SlotOf(n, g.wrote[j]) == j)
  }

  ghost predicate AllBarred(n: nat, sl: seq<Slot>, g: Hist)
    requires RingSize(n) && |sl| == n
  {
    forall h :: h in g.dead ==> Barred(n, sl, h)
  }

  ghost predicate CoreInv(n: nat, w: Words, sl: seq<Slot>, g: Hist) {
    Shape(n, w, sl, g) && Tickets(n, w, g) && Stored(n, sl, g) && AllBarred(n, sl, g)
  }

  ghost predicate EnqHolds(n: nat, w: Words, g: Hist, t: nat) {
    n <= t < w.tail && t !in g.commit
  }

  ghost predicate DeqHolds(n: nat, w: Words, g: Hist, h: nat) {
    n <= h < w.head && h !in g.taken && h !in g.dead && h !in g.abandoned
  }

  /** A loaded empty slot either still stands or its cycle has moved on. */
  ghost predicate Loaded(n: nat, sl: seq<Slot>, t: nat, ent: Slot)
    requires RingSize(n) && |sl| == n
  {
    ent.val.None? && ent.cycle < Cycle(n, t)
    && (sl[SlotOf(n, t)] == ent || sl[SlotOf(n, t)].cycle > ent.cycle)
  }

  /** A CAS2 of ticket t with expected value ent cannot revive a dead ticket. */
  ghost predicate Armed(n: nat, sl: seq<Slot>, g: Hist, t: nat, ent: Slot)
    requires RingSize(n) && |sl| == n
  {
    forall h :: h in g.dead && h >= t && SlotOf(n, h) == SlotOf(n, t) ==> sl[SlotOf(n, t)] != ent
  }

  ghost predicate PcOk(n: nat, w: Words, sl: seq<Slot>, g: Hist, pc: Pc)
    requires Shape(n, w, sl, g)
  {
    match pc
    case EnqLoad(_, _, t) => EnqHolds(n, w, g, t)
    case EnqHead(_, _, t, ent) => EnqHolds(n, w, g, t) && Loaded(n, sl, t, ent) && !ent.safe
    case EnqCas(_, _, t, ent) => EnqHolds(n, w, g, t) && Loaded(n, sl, t, ent) && Armed(n, sl, g, t, ent)
    case EnqReadThreshold(_, t) => t in g.commit
    case EnqResetThreshold(_, t) => t in g.commit
    case EnqCount(_, t) => t in g.commit
    case DeqLoad(_, h, _) => DeqHolds(n, w, g, h)
    case DeqCas(_, h, _, ent) => DeqHolds(n, w, g, h) && ent.cycle < Cycle(n, h)
    case DeqTake(_, h, v) =>
      DeqHolds(n, w, g, h) && h in g.commit && g.commit[h] == v && Holds(n, sl, h, v)
    case DeqCount(h, v) => h in g.taken && g.taken[h] == v
    case DeqTail(_, h) => h < w.head && (h in g.dead || h in g.abandoned)
    case FixCas(_, _, h, t) => h > t && h <= w.head
    case FixTail(_, _, h) => h <= w.head
    case _ => true
  }

  function EnqTicketOf(pc: Pc): Option<nat> {
    if pc.EnqLoad? || pc.EnqHead? || pc.EnqCas? then Some(pc.t) else None
  }

  function DeqTicketOf(pc: Pc): Option<nat> {
    if pc.DeqLoad? || pc.DeqCas? || pc.DeqTake? then Some(pc.h) else None
  }

  /** No two threads hold the same ticket. */
  ghost predicate Distinct(pcs: seq<Pc>) {
    forall i, k :: 0 <= i < |pcs| && 0 <= k < |pcs| && i != k ==> Apart(pcs[i], pcs[k])
  }

  ghost predicate Apart(a: Pc, b: Pc) {
    && (EnqTicketOf(a).Some? ==> EnqTicketOf(a) != EnqTicketOf(b))
    && (DeqTicketOf(a).Some? ==> DeqTicketOf(a) != DeqTicketOf(b))
  }

  ghost predicate Inv(cfg: Config, s: State) {
    && CoreInv(cfg.n, s.w, s.slots, s.g)
    && (forall i :: 0 <= i < |s.pcs| ==> PcOk(cfg.n, s.w, s.slots, s.g, s.pcs[i]))
    && Distinct(s.pcs)
  }

  // ----- control steps: head and tail only grow, slots and tickets stay -----

  ghost predicate SameTickets(g: Hist, g': Hist) {
    && g'.commit == g.commit && g'.taken == g.taken && g'.dead == g.dead
    && g'.abandoned == g.abandoned && g'.wrote == g.wrote
  }

  lemma ControlPc(n: nat, w: Words, w': Words, sl: seq<Slot>, g: Hist, g': Hist, pc: Pc)
    requires CoreInv(n, w, sl, g) && PcOk(n, w, sl, g, pc)
    requires w'.head >= w.head && w'.tail >= w.tail && SameTickets(g, g')
    ensures CoreInv(n, w', sl, g') && PcOk(n, w', sl, g', pc)
  {
  }

  /** The moving thread keeps its tickets, drops them, or claims a new one. */
  ghost predicate TicketMove(w: Words, pc: Pc, pc': Pc) {
    && (EnqTicketOf(pc').Some? ==> EnqTicketOf(pc') == EnqTicketOf(pc) || EnqTicketOf(pc') == Some(w.tail))
    && (DeqTicketOf(pc').Some? ==> DeqTicketOf(pc') == DeqTicketOf(pc) || DeqTicketOf(pc') == Some(w.head))
  }

  lemma DistinctAfter(cfg: Config, s: State, i: nat, pc': Pc)
    requires Inv(cfg, s) && i < |s.pcs| && TicketMove(s.w, s.pcs[i], pc')
    ensures Distinct(s.pcs[i := pc'])
  {
    forall k | 0 <= k < |s.pcs| && k != i
      ensures Apart(pc', s.pcs[k]) && Apart(s.pcs[k], pc')
    {
      assert Apart(s.pcs[i], s.pcs[k]) && Apart(s.pcs[k], s.pcs[i]);
      assert PcOk(cfg.n, s.w, s.slots, s.g, s.pcs[k]);
    }
  }

  /** What a control step owes: monotone words, the same tickets, a sound pc. */
  ghost predicate ControlGood(n: nat, w: Words, sl: seq<Slot>, g: Hist, pc: Pc, l: Local)
    requires Shape(n, w, sl, g)
  {
    l.w.head >= w.head && l.w.tail >= w.tail && SameTickets(g, l.g)
    && TicketMove(w, pc, l.pc) && PcOk(n, l.w, sl, l.g, l.pc)
  }

  lemma EnqControlOk(cfg: Config, w: Words, sl: seq<Slot>, g: Hist, pc: Pc)
    requires Shape(cfg.n, w, sl, g) && Tickets(cfg.n, w, g)
    requires PcOk(cfg.n, w, sl, g, pc) && !TouchesSlot(pc) && IsEnq(pc)
    ensures ControlGood(cfg.n, w, sl, g, pc, EnqControl(cfg, w, g, pc))
  {
    if pc.EnqHead? && w.head <= pc.t {
      assert Armed(cfg.n, sl, g, pc.t, pc.ent);
    }
  }

  lemma DeqClaimOk(cfg: Config, w: Words, sl: seq<Slot>, g: Hist, pc: Pc, c: Choice)
    requires Shape(cfg.n, w, sl, g) && Tickets(cfg.n, w, g) && pc.DeqClaim?
    ensures ControlGood(cfg.n, w, sl, g, pc, DeqControl(cfg, w, g, pc, c))
  {
  }

  lemma DeqControlOk(cfg: Config, w: Words, sl: seq<Slot>, g: Hist, pc: Pc, c: Choice)
    requires Shape(cfg.n, w, sl, g) && PcOk(cfg.n, w, sl, g, pc)
    requires !TouchesSlot(pc) && !IsEnq(pc) && !pc.Idle? && !pc.DeqClaim?
    ensures ControlGood(cfg.n, w, sl, g, pc, DeqControl(cfg, w, g, pc, c))
  {
  }

  lemma ControlOk(cfg: Config, w: Words, sl: seq<Slot>, g: Hist, pc: Pc, c: Choice)
    requires CoreInv(cfg.n, w, sl, g) && PcOk(cfg.n, w, sl, g, pc) && !TouchesSlot(pc)
    ensures ControlGood(cfg.n, w, sl, g, pc, Control(cfg, w, g, pc, c))
  {
    if pc.Idle? {
    } else if IsEnq(pc) {
      EnqControlOk(cfg, w, sl, g, pc);
    } else if pc.DeqClaim? {
      DeqClaimOk(cfg, w, sl, g, pc, c);
    } else {
      DeqControlOk(cfg, w, sl, g, pc, c);
    }
  }

  // ----- the enqueue CAS2 -----

  lemma CommitCore(n: nat, w: Words, sl: seq<Slot>, g: Hist, t: nat, v: Value, ent: Slot)
    requires CoreInv(n, w, sl, g) && EnqHolds(n, w, g, t)
    requires Loaded(n, sl, t, ent) && Armed(n, sl, g, t, ent) && sl[SlotOf(n, t)] == ent
    ensures CoreInv(n, w, sl[SlotOf(n, t) := Slot(Cycle(n, t), true, Some(v))],
                    Committed(g, SlotOf(n, t), t, v))
  {
    var j := SlotOf(n, t);
    var sl', g' := sl[j := Slot(Cycle(n, t), true, Some(v))], Committed(g, j, t, v);
    assert Tickets(n, w, g');
    assert Stored(n, sl', g');
    forall h | h in g'.dead ensures Barred(n, sl', h) {
      if SlotOf(n, h) == j {
        SameSlotOrder(n, h, t);
      }
    }
  }

  lemma CommitPc(n: nat, w: Words, sl: seq<Slot>, g: Hist, t: nat, v: Value, ent: Slot, pc: Pc)
    requires CoreInv(n, w, sl, g) && EnqHolds(n, w, g, t)
    requires Loaded(n, sl, t, ent) && sl[SlotOf(n, t)] == ent
    requires PcOk(n, w, sl, g, pc) && EnqTicketOf(pc) != Some(t)
    ensures PcOk(n, w, sl[SlotOf(n, t) := Slot(Cycle(n, t), true, Some(v))],
                 Committed(g, SlotOf(n, t), t, v), pc)
  {
  }

  // ----- the dequeue CAS2: advance an empty slot, mark an occupied one unsafe -----

  lemma MarkCore(n: nat, w: Words, sl: seq<Slot>, g: Hist, h: nat)
    requires CoreInv(n, w, sl, g) && DeqHolds(n, w, g, h)
    requires sl[SlotOf(n, h)].cycle < Cycle(n, h)
    ensures CoreInv(n, w, sl[SlotOf(n, h) := Marked(sl[SlotOf(n, h)], Cycle(n, h))],
                    g.(dead := g.dead + {h}))
  {
    var j := SlotOf(n, h);
    var sl', g' := sl[j := Marked(sl[j], Cycle(n, h))], g.(dead := g.dead + {h});
    assert h in g.commit ==> Holds(n, sl, h, g.commit[h]);
    forall u | u in g'.commit && u !in g'.taken ensures Holds(n, sl', u, g'.commit[u]) {
      assert Holds(n, sl, u, g.commit[u]);
    }
    forall k | k in g'.dead ensures Barred(n, sl', k) {
      assert k == h || Barred(n, sl, k);
    }
  }

  lemma MarkPc(n: nat, w: Words, sl: seq<Slot>, g: Hist, h: nat, pc: Pc)
    requires CoreInv(n, w, sl, g) && DeqHolds(n, w, g, h)
    requires sl[SlotOf(n, h)].cycle < Cycle(n, h)
    requires PcOk(n, w, sl, g, pc) && DeqTicketOf(pc) != Some(h)
    ensures PcOk(n, w, sl[SlotOf(n, h) := Marked(sl[SlotOf(n, h)], Cycle(n, h))],
                 g.(dead := g.dead + {h}), pc)
  {
    if (pc.EnqHead? || pc.EnqCas?) && SlotOf(n, pc.t) == SlotOf(n, h) && pc.t < h {
      SameSlotOrder(n, pc.t, h);
    }
  }

  // ----- leaving a slot without an element, and the retry valve -----

  lemma LeaveCore(n: nat, w: Words, sl: seq<Slot>, g: Hist, h: nat)
    requires CoreInv(n, w, sl, g) && DeqHolds(n, w, g, h)
    requires sl[SlotOf(n, h)].cycle >= Cycle(n, h)
    requires sl[SlotOf(n, h)].cycle == Cycle(n, h) ==> sl[SlotOf(n, h)].val.None?
    ensures CoreInv(n, w, sl, g.(dead := g.dead + {h}))
  {
    assert h !in g.commit;
  }

  lemma LeavePc(n: nat, w: Words, sl: seq<Slot>, g: Hist, h: nat, pc: Pc)
    requires CoreInv(n, w, sl, g) && sl[SlotOf(n, h)].cycle >= Cycle(n, h)
    requires PcOk(n, w, sl, g, pc) && DeqTicketOf(pc) != Some(h)
    ensures PcOk(n, w, sl, g.(dead := g.dead + {h}), pc)
  {
    if pc.EnqCas? && SlotOf(n, pc.t) == SlotOf(n, h) && pc.t < h {
      SameSlotOrder(n, pc.t, h);
    }
  }

  /** An occupied slot of the dequeuer's cycle holds the value of its ticket. */
  lemma OccupiedIsCommitted(n: nat, w: Words, sl: seq<Slot>, g: Hist, h: nat)
    requires CoreInv(n, w, sl, g)
    requires sl[SlotOf(n, h)].cycle == Cycle(n, h) && sl[SlotOf(n, h)].val.Some?
    ensures h in g.commit && h !in g.taken && sl[SlotOf(n, h)].val == Some(g.commit[h])
  {
    var u := g.wrote[SlotOf(n, h)];
    assert Holds(n, sl, u, g.commit[u]);
    if u < h {
      SameSlotOrder(n, u, h);
    } else if h < u {
      SameSlotOrder(n, h, u);
    }
  }

  lemma AbandonCore(n: nat, w: Words, sl: seq<Slot>, g: Hist, h: nat)
    requires CoreInv(n, w, sl, g) && DeqHolds(n, w, g, h)
    requires sl[SlotOf(n, h)].cycle == Cycle(n, h) && sl[SlotOf(n, h)].val.Some?
    ensures CoreInv(n, w, sl, g.(abandoned := g.abandoned + {h}))
  {
    OccupiedIsCommitted(n, w, sl, g, h);
  }

  // ----- consuming -----

  lemma TakeCore(n: nat, w: Words, sl: seq<Slot>, g: Hist, h: nat, v: Value)
    requires CoreInv(n, w, sl, g) && PcOk(n, w, sl, g, DeqTake(0, h, v))
    ensures CoreInv(n, w, sl[SlotOf(n, h) := sl[SlotOf(n, h)].(val := None)],
                    g.(taken := g.taken[h := v]))
  {
    var j := SlotOf(n, h);
    var sl', g' := sl[j := sl[j].(val := None)], g.(taken := g.taken[h := v]);
    assert Tickets(n, w, g');
    forall u | u in g'.commit && u !in g'.taken ensures Holds(n, sl', u, g'.commit[u]) {
      assert Holds(n, sl, u, g.commit[u]);
      if SlotOf(n, u) == j {
        SameSlotSameCycle(n, u, h);
      }
    }
    assert Stored(n, sl', g');
  }

  lemma SameSlotSameCycle(n: nat, t: nat, u: nat)
    requires RingSize(n) && SlotOf(n, t) == SlotOf(n, u) && Cycle(n, t) == Cycle(n, u)
    ensures t == u
  {
    if t < u {
      SameSlotOrder(n, t, u);
    } else if u < t {
      SameSlotOrder(n, u, t);
    }
  }

  lemma TakePc(n: nat, w: Words, sl: seq<Slot>, g: Hist, h: nat, v: Value, pc: Pc)
    requires CoreInv(n, w, sl, g) && PcOk(n, w, sl, g, DeqTake(0, h, v))
    requires PcOk(n, w, sl, g, pc) && DeqTicketOf(pc) != Some(h)
    ensures PcOk(n, w, sl[SlotOf(n, h) := sl[SlotOf(n, h)].(val := None)],
                 g.(taken := g.taken[h := v]), pc)
  {
    if pc.DeqTake? && SlotOf(n, pc.h) == SlotOf(n, h) {
      SameSlotSameCycle(n, pc.h, h);
    }
  }

  // ----- one step -----

  /** A step on slot j is good when the core and every other thread stay sound. */
  lemma Assemble(cfg: Config, s: State, i: nat, w': Words, sl': seq<Slot>, g': Hist, pc': Pc)
    requires Inv(cfg, s) && i < |s.pcs| && TicketMove(s.w, s.pcs[i], pc')
    requires CoreInv(cfg.n, w', sl', g') && PcOk(cfg.n, w', sl', g', pc')
    requires forall k :: 0 <= k < |s.pcs| && k != i ==> PcOk(cfg.n, w', sl', g', s.pcs[k])
    ensures Inv(cfg, State(w', sl', Tick(g'), s.pcs[i := pc']))
  {
    DistinctAfter(cfg, s, i, pc');
    var s' := State(w', sl', Tick(g'), s.pcs[i := pc']);
    ControlPc(cfg.n, w', w', sl', g', Tick(g'), pc');
    forall k | 0 <= k < |s'.pcs| ensures PcOk(cfg.n, w', sl', Tick(g'), s'.pcs[k]) {
      ControlPc(cfg.n, w', w', sl', g', Tick(g'), s'.pcs[k]);
    }
  }

  lemma ControlNext(cfg: Config, s: State, c: Choice)
    requires Inv(cfg, s) && c.tid < |s.pcs| && !TouchesSlot(s.pcs[c.tid])
    ensures Inv(cfg, Next(cfg, s, c))
  {
    var l := Control(cfg, s.w, s.g, s.pcs[c.tid], c);
    ControlOk(cfg, s.w, s.slots, s.g, s.pcs[c.tid], c);
    forall k | 0 <= k < |s.pcs| ensures PcOk(cfg.n, l.w, s.slots, l.g, s.pcs[k]) {
      ControlPc(cfg.n, s.w, l.w, s.slots, s.g, l.g, s.pcs[k]);
    }
    ControlPc(cfg.n, s.w, l.w, s.slots, s.g, l.g, s.pcs[c.tid]);
    Assemble(cfg, s, c.tid, l.w, s.slots, l.g, l.pc);
  }

  lemma EnqLoadNext(cfg: Config, s: State, c: Choice)
    requires Inv(cfg, s) && c.tid < |s.pcs| && s.pcs[c.tid].EnqLoad?
    ensures Inv(cfg, Next(cfg, s, c))
  {
    var pc := s.pcs[c.tid];
    var j := SlotOf(cfg.n, pc.t);
    var e := EnqLoadStep(cfg, s.w, s.slots[j], s.g, pc);
    assert s.slots[j := e.slot] == s.slots;
    if e.pc.EnqCas? {
      forall h | h in s.g.dead && h >= pc.t ensures SlotOf(cfg.n, h) != j {
        assert Barred(cfg.n, s.slots, h);
        if SlotOf(cfg.n, h) == j && pc.t < h {
          SameSlotOrder(cfg.n, pc.t, h);
        }
      }
    }
    Assemble(cfg, s, c.tid, e.w, s.slots, e.g, e.pc);
  }

  lemma EnqCasNext(cfg: Config, s: State, c: Choice)
    requires Inv(cfg, s) && c.tid < |s.pcs| && s.pcs[c.tid].EnqCas?
    ensures Inv(cfg, Next(cfg, s, c))
  {
    var pc := s.pcs[c.tid];
    var j := SlotOf(cfg.n, pc.t);
    var e := EnqCasStep(cfg, s.w, s.slots[j], s.g, pc, c.fail);
    if e.pc.EnqReadThreshold? {
      CommitCore(cfg.n, s.w, s.slots, s.g, pc.t, pc.v, pc.ent);
      forall k | 0 <= k < |s.pcs| && k != c.tid
        ensures PcOk(cfg.n, s.w, s.slots[j := e.slot], e.g, s.pcs[k])
      {
        assert Apart(pc, s.pcs[k]);
        CommitPc(cfg.n, s.w, s.slots, s.g, pc.t, pc.v, pc.ent, s.pcs[k]);
      }
    } else {
      assert s.slots[j := e.slot] == s.slots;
    }
    Assemble(cfg, s, c.tid, e.w, s.slots[j := e.slot], e.g, e.pc);
  }

  /** The other threads after a dequeuer leaves its slot. */
  lemma LeaveOthers(cfg: Config, s: State, i: nat, g': Hist, k: nat)
    requires Inv(cfg, s) && i < |s.pcs| && s.pcs[i].DeqLoad? && k < |s.pcs| && k != i
    requires var e := DeqLoadStep(cfg, s.w, s.slots[SlotOf(cfg.n, s.pcs[i].h)], s.g, s.pcs[i]);
             e.pc.DeqTail? && g' == e.g
    ensures PcOk(cfg.n, s.w, s.slots, g', s.pcs[k])
  {
    var pc := s.pcs[i];
    assert Apart(pc, s.pcs[k]) && PcOk(cfg.n, s.w, s.slots, s.g, s.pcs[k]);
    if g'.dead != s.g.dead {
      LeavePc(cfg.n, s.w, s.slots, s.g, pc.h, s.pcs[k]);
    }
  }

  lemma DeqLoadLeaves(cfg: Config, s: State, c: Choice)
    requires Inv(cfg, s) && c.tid < |s.pcs| && s.pcs[c.tid].DeqLoad?
    requires DeqLoadStep(cfg, s.w, s.slots[SlotOf(cfg.n, s.pcs[c.tid].h)], s.g, s.pcs[c.tid]).pc.DeqTail?
    ensures Inv(cfg, Next(cfg, s, c))
  {
    var pc := s.pcs[c.tid];
    var j := SlotOf(cfg.n, pc.h);
    var e := DeqLoadStep(cfg, s.w, s.slots[j], s.g, pc);
    assert s.slots[j := e.slot] == s.slots;
    if e.g.dead != s.g.dead {
      LeaveCore(cfg.n, s.w, s.slots, s.g, pc.h);
    } else {
      AbandonCore(cfg.n, s.w, s.slots, s.g, pc.h);
    }
    forall k | 0 <= k < |s.pcs| && k != c.tid ensures PcOk(cfg.n, s.w, s.slots, e.g, s.pcs[k]) {
      LeaveOthers(cfg, s, c.tid, e.g, k);
    }
    Assemble(cfg, s, c.tid, e.w, s.slots, e.g, e.pc);
  }

  lemma DeqLoadStays(cfg: Config, w: Words, sl: seq<Slot>, g: Hist, pc: Pc)
    requires pc.DeqLoad? && CoreInv(cfg.n, w, sl, g) && PcOk(cfg.n, w, sl, g, pc)
    ensures var j := SlotOf(cfg.n, pc.h);
            var e := DeqLoadStep(cfg, w, sl[j], g, pc);
            !e.pc.DeqTail? ==>
              e.slot == sl[j] && e.w == w && e.g == g && PcOk(cfg.n, w, sl, g, e.pc) && TicketMove(w, pc, e.pc)
  {
    var j := SlotOf(cfg.n, pc.h);
    if sl[j].cycle == Cycle(cfg.n, pc.h) && sl[j].val.Some? {
      OccupiedIsCommitted(cfg.n, w, sl, g, pc.h);
    }
  }

  lemma DeqLoadNext(cfg: Config, s: State, c: Choice)
    requires Inv(cfg, s) && c.tid < |s.pcs| && s.pcs[c.tid].DeqLoad?
    ensures Inv(cfg, Next(cfg, s, c))
  {
    var pc := s.pcs[c.tid];
    var j := SlotOf(cfg.n, pc.h);
    var e := DeqLoadStep(cfg, s.w, s.slots[j], s.g, pc);
    if e.pc.DeqTail? {
      DeqLoadLeaves(cfg, s, c);
    } else {
      DeqLoadStays(cfg, s.w, s.slots, s.g, pc);
      assert s.slots[j := e.slot] == s.slots;
      Assemble(cfg, s, c.tid, s.w, s.slots, s.g, e.pc);
    }
  }

  lemma DeqCasNext(cfg: Config, s: State, c: Choice)
    requires Inv(cfg, s) && c.tid < |s.pcs| && s.pcs[c.tid].DeqCas?
    ensures Inv(cfg, Next(cfg, s, c))
  {
    var pc := s.pcs[c.tid];
    var j := SlotOf(cfg.n, pc.h);
    var e := DeqCasStep(cfg, s.w, s.slots[j], s.g, pc);
    if e.pc.DeqTail? {
      MarkCore(cfg.n, s.w, s.slots, s.g, pc.h);
      forall k | 0 <= k < |s.pcs| && k != c.tid
        ensures PcOk(cfg.n, s.w, s.slots[j := e.slot], e.g, s.pcs[k])
      {
        assert Apart(pc, s.pcs[k]);
        MarkPc(cfg.n, s.w, s.slots, s.g, pc.h, s.pcs[k]);
      }
    } else {
      assert s.slots[j := e.slot] == s.slots;
    }
    Assemble(cfg, s, c.tid, e.w, s.slots[j := e.slot], e.g, e.pc);
  }

  lemma TakeStepOk(cfg: Config, w: Words, sl: seq<Slot>, g: Hist, pc: Pc)
    requires pc.DeqTake? && CoreInv(cfg.n, w, sl, g) && PcOk(cfg.n, w, sl, g, pc)
    ensures var j := SlotOf(cfg.n, pc.h);
            var e := DeqTakeStep(cfg, w, sl[j], g, pc);
            CoreInv(cfg.n, w, sl[j := e.slot], e.g) && PcOk(cfg.n, w, sl[j := e.slot], e.g, e.pc)
  {
    var j := SlotOf(cfg.n, pc.h);
    var e := DeqTakeStep(cfg, w, sl[j], g, pc);
    assert PcOk(cfg.n, w, sl, g, DeqTake(0, pc.h, pc.v));
    TakeCore(cfg.n, w, sl, g, pc.h, pc.v);
    ControlPc(cfg.n, w, w, sl[j := e.slot], g.(taken := g.taken[pc.h := pc.v]), e.g, Idle);
  }

  lemma TakeStepPc(cfg: Config, w: Words, sl: seq<Slot>, g: Hist, pc: Pc, other: Pc)
    requires pc.DeqTake? && CoreInv(cfg.n, w, sl, g) && PcOk(cfg.n, w, sl, g, pc)
    requires PcOk(cfg.n, w, sl, g, other) && Apart(pc, other)
    ensures var j := SlotOf(cfg.n, pc.h);
            var e := DeqTakeStep(cfg, w, sl[j], g, pc);
            PcOk(cfg.n, w, sl[j := e.slot], e.g, other)
  {
    var j := SlotOf(cfg.n, pc.h);
    var e := DeqTakeStep(cfg, w, sl[j], g, pc);
    var g' := g.(taken := g.taken[pc.h := pc.v]);
    assert PcOk(cfg.n, w, sl, g, DeqTake(0, pc.h, pc.v));
    TakeCore(cfg.n, w, sl, g, pc.h, pc.v);
    TakePc(cfg.n, w, sl, g, pc.h, pc.v, other);
    ControlPc(cfg.n, w, w, sl[j := e.slot], g', e.g, other);
  }

  lemma DeqTakeNext(cfg: Config, s: State, c: Choice)
    requires Inv(cfg, s) && c.tid < |s.pcs| && s.pcs[c.tid].DeqTake?
    ensures Inv(cfg, Next(cfg, s, c))
  {
    var pc := s.pcs[c.tid];
    var j := SlotOf(cfg.n, pc.h);
    var e := DeqTakeStep(cfg, s.w, s.slots[j], s.g, pc);
    TakeStepOk(cfg, s.w, s.slots, s.g, pc);
    forall k | 0 <= k < |s.pcs| && k != c.tid ensures PcOk(cfg.n, s.w, s.slots[j := e.slot], e.g, s.pcs[k]) {
      assert Apart(pc, s.pcs[k]);
      TakeStepPc(cfg, s.w, s.slots, s.g, pc, s.pcs[k]);
    }
    Assemble(cfg, s, c.tid, e.w, s.slots[j := e.slot], e.g, e.pc);
  }

  lemma InvNext(cfg: Config, s: State, c: Choice)
    requires Inv(cfg, s)
    ensures Inv(cfg, Next(cfg, s, c))
  {
    if c.tid >= |s.pcs| {
      forall k | 0 <= k < |s.pcs| ensures PcOk(cfg.n, s.w, s.slots, Tick(s.g), s.pcs[k]) {
        ControlPc(cfg.n, s.w, s.w, s.slots, s.g, Tick(s.g), s.pcs[k]);
      }
      ControlPc(cfg.n, s.w, s.w, s.slots, s.g, Tick(s.g), Idle);
    } else {
      match s.pcs[c.tid]
      case EnqLoad(_, _, _) => EnqLoadNext(cfg, s, c);
      case EnqCas(_, _, _, _) => EnqCasNext(cfg, s, c);
      case DeqLoad(_, _, _) => DeqLoadNext(cfg, s, c);
      case DeqCas(_, _, _, _) => DeqCasNext(cfg, s, c);
      case DeqTake(_, _, _) => DeqTakeNext(cfg, s, c);
      case _ => ControlNext(cfg, s, c);
    }
  }

  // ----- every run -----

  lemma {:induction false} RunInv(cfg: Config, threads: nat, sch: seq<Choice>)
    requires cfg.Valid()
    ensures Inv(cfg, Run(cfg, threads, sch))
  {
    if sch != [] {
      RunInv(cfg, threads, sch[..|sch| - 1]);
      InvNext(cfg, Run(cfg, threads, sch[..|sch| - 1]), sch[|sch| - 1]);
    }
  }
}
