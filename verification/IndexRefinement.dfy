/** Index mode refines pointer mode: every run of the side-array protocol maps,
    step by step, to a run of the pointer-mode slot protocol in which a ticket
    may be given up before its CAS2. */
module IndexRefinement {
  import opened Ring
  import opened TicketQueue
  import opened TicketSafety
  import opened TicketOrder
  import opened TicketEmpty
  import opened IndexQueue

  // ----- the side array -----

  /** A cell is null, or holds the pointer of the one enqueuer that placed it, or
      the pointer of the ticket that filled the entry. */
  ghost predicate CellOk(cfg: Config, s: IState, j: nat)
    requires ISized(cfg, s) && j < cfg.n
  {
    && (s.own[j].Free? <==> s.ptrs[j].None?)
    && (s.own[j].Filled? ==>
          var u := s.own[j].u;
          && s.ents[j].idx.Some? && s.g.wrote[j] == u && u in s.g.commit && u !in s.exchanged
          && s.ptrs[j] == Some(s.g.commit[u]))
    && (s.ents[j].idx.Some? ==>
          && s.ents[j].idx == Some(j) && s.g.wrote[j] in s.g.commit
          && (s.own[j] == Filled(s.g.wrote[j]) || s.g.wrote[j] in s.exchanged))
  }

  ghost predicate Placed(cfg: Config, s: IState, i: nat, t: nat, v: Value)
    requires ISized(cfg, s)
  {
    s.own[SlotOf(cfg.n, t)] == Placer(i) && s.ptrs[SlotOf(cfg.n, t)] == Some(v)
  }

  ghost predicate IPcOk(cfg: Config, s: IState, i: nat, pc: IPc)
    requires ISized(cfg, s)
  {
    match pc
    case Plain(p) =>
      !p.EnqHead? && !p.EnqCas? && !p.DeqCas? && !p.DeqTake? && (p.DeqLoad? ==> p.h !in s.exchanged)
    case IEnqHead(_, _, _, ent) => ent.idx.None?
    case IEnqPlace(_, _, _, ent) => ent.idx.None?
    case IEnqCas(v, _, t, ent) => ent.idx.None? && Placed(cfg, s, i, t, v)
    case IEnqRollback(v, _, t) => Placed(cfg, s, i, t, v)
    case IDeqCas(_, h, _, ent, u) =>
      && h !in s.exchanged
      && (ent.idx.Some? ==>
            && ent.idx == Some(SlotOf(cfg.n, h)) && u in s.g.commit
            && SlotOf(cfg.n, u) == SlotOf(cfg.n, h) && Cycle(cfg.n, u) == ent.cycle)
    case IDeqExchange(_, h, idx) =>
      h !in s.exchanged && idx == SlotOf(cfg.n, h) && s.own[idx] == Filled(h) && h in s.g.commit
    case IDeqClear(_, h, value) => h in s.exchanged && h in s.g.commit && value == Some(s.g.commit[h])
  }

  ghost predicate SideInv(cfg: Config, s: IState) {
    && ISized(cfg, s)
    && (forall j :: 0 <= j < cfg.n ==> CellOk(cfg, s, j))
    && (forall u :: u in s.exchanged ==> u in s.g.commit && u < s.w.head)
    && (forall i :: 0 <= i < |s.pcs| ==> IPcOk(cfg, s, i, s.pcs[i]))
  }

  ghost predicate Good(cfg: Config, s: IState) {
    SideInv(cfg, s) && Inv(cfg, Abs(s))
  }

  // ----- the abstraction of a step -----

  /** Committing a new ticket does not change what older state abstracts to. */
  lemma AbsPcStable(cfg: Config, s: IState, g': Hist, i: nat)
    requires SideInv(cfg, s) && i < |s.pcs| && Extends(s.g.commit, g'.commit)
    ensures AbsPc(g', s.pcs[i]) == AbsPc(s.g, s.pcs[i])
  {
    assert IPcOk(cfg, s, i, s.pcs[i]);
  }

  lemma AbsSlotStable(cfg: Config, s: IState, g': Hist, k: nat)
    requires SideInv(cfg, s) && k < cfg.n && Extends(s.g.commit, g'.commit)
    ensures AbsEntry(g', s.ents[k], s.g.wrote[k]) == AbsEntry(s.g, s.ents[k], s.g.wrote[k])
  {
    assert CellOk(cfg, s, k);
  }

  /** The abstract state after thread i moved and entry j was written. */
  lemma AbsAfter(cfg: Config, s: IState, s': IState, i: nat, j: nat)
    requires SideInv(cfg, s) && ISized(cfg, s') && i < |s.pcs| && j < cfg.n
    requires Extends(s.g.commit, s'.g.commit) && s'.g.wrote == s.g.wrote[j := s'.g.wrote[j]]
    requires s'.ents == s.ents[j := s'.ents[j]]
    requires |s'.pcs| == |s.pcs| && s'.pcs == s.pcs[i := s'.pcs[i]]
    ensures Abs(s') == State(s'.w, Abs(s).slots[j := AbsEntry(s'.g, s'.ents[j], s'.g.wrote[j])],
                             s'.g, Abs(s).pcs[i := AbsPc(s'.g, s'.pcs[i])])
  {
    var slots := Abs(s).slots[j := AbsEntry(s'.g, s'.ents[j], s'.g.wrote[j])];
    var pcs := Abs(s).pcs[i := AbsPc(s'.g, s'.pcs[i])];
    forall k | 0 <= k < cfg.n ensures Abs(s').slots[k] == slots[k] {
      AbsSlotStable(cfg, s, s'.g, k);
    }
    forall k | 0 <= k < |s.pcs| ensures Abs(s').pcs[k] == pcs[k] {
      if k != i {
        AbsPcStable(cfg, s, s'.g, k);
      }
    }
    assert Abs(s').slots == slots && Abs(s').pcs == pcs;
  }

  /** A step matches the pointer-mode step of its abstract choice. */
  ghost predicate Simulates(cfg: Config, s: IState, c: Choice)
    requires ISized(cfg, s) && Sized(cfg, Abs(s))
  {
    Abs(INext(cfg, s, c)) == Next(cfg, Abs(s), AbsChoice(cfg, s, c))
  }

  lemma SimEnqLoad(cfg: Config, s: IState, c: Choice)
    requires Good(cfg, s) && c.tid < |s.pcs| && s.pcs[c.tid].Plain? && s.pcs[c.tid].pc.EnqLoad?
    ensures Simulates(cfg, s, c)
  {
    var j := SlotOf(cfg.n, s.pcs[c.tid].pc.t);
    assert CellOk(cfg, s, j);
    AbsAfter(cfg, s, INext(cfg, s, c), c.tid, j);
  }

  /** Both modes decide alike on a loaded entry. */
  lemma DeqLoadLocal(cfg: Config, s: IState, tid: nat, pc: Pc)
    requires ISized(cfg, s) && tid < |s.pcs| && pc.DeqLoad?
    requires var j := SlotOf(cfg.n, pc.h);
             && (s.ents[j].idx.Some? ==> s.g.wrote[j] in s.g.commit)
             && (s.ents[j].cycle == Cycle(cfg.n, pc.h) && s.ents[j].idx.Some? ==>
                   pc.h in s.g.commit && s.g.commit[s.g.wrote[j]] == s.g.commit[pc.h])
    ensures var j := SlotOf(cfg.n, pc.h);
            var s1 := IDeqLoad(cfg, s, tid, s.ents[j], pc);
            var e := DeqLoadStep(cfg, s.w, AbsEntry(s.g, s.ents[j], s.g.wrote[j]), s.g, pc);
            && s1.w == s.w && s1.ents == s.ents && s1.g == e.g && s1.g.commit == s.g.commit
            && s1.g.wrote == s.g.wrote && e.w == s.w
            && e.slot == AbsEntry(s.g, s.ents[j], s.g.wrote[j])
            && s1.pcs == s.pcs[tid := s1.pcs[tid]] && AbsPc(s1.g, s1.pcs[tid]) == e.pc
  {
  }

  /** An occupied entry of the dequeuer's cycle was filled by its ticket. */
  lemma OccupiedEntry(cfg: Config, s: IState, h: nat)
    requires Good(cfg, s)
    ensures var j := SlotOf(cfg.n, h);
            && (s.ents[j].idx.Some? ==> s.g.wrote[j] in s.g.commit)
            && (s.ents[j].cycle == Cycle(cfg.n, h) && s.ents[j].idx.Some? ==>
                  h in s.g.commit && s.g.wrote[j] == h)
  {
    var j := SlotOf(cfg.n, h);
    assert CellOk(cfg, s, j);
    if s.ents[j].cycle == Cycle(cfg.n, h) && s.ents[j].idx.Some? {
      var u := s.g.wrote[j];
      assert Abs(s).slots[j].val.Some?;
      assert Holds(cfg.n, Abs(s).slots, u, s.g.commit[u]);
      SameSlotSameCycle(cfg.n, u, h);
    }
  }

  lemma PlainDeqLoad(cfg: Config, s: IState, c: Choice)
    requires ISized(cfg, s) && c.tid < |s.pcs| && s.pcs[c.tid].Plain? && s.pcs[c.tid].pc.DeqLoad?
    ensures var pc := s.pcs[c.tid].pc;
            var s1 := IDeqLoad(cfg, s, c.tid, s.ents[SlotOf(cfg.n, pc.h)], pc);
            INext(cfg, s, c) == s1.(g := Tick(s1.g)) && AbsChoice(cfg, s, c) == c
  {
  }

  lemma DeqLoadNext(cfg: Config, s: State, c: Choice)
    requires Sized(cfg, s) && c.tid < |s.pcs| && s.pcs[c.tid].DeqLoad?
    ensures var pc := s.pcs[c.tid];
            var j := SlotOf(cfg.n, pc.h);
            var e := DeqLoadStep(cfg, s.w, s.slots[j], s.g, pc);
            Next(cfg, s, c) == State(e.w, s.slots[j := e.slot], Tick(e.g), s.pcs[c.tid := e.pc])
  {
  }

  lemma SimDeqLoad(cfg: Config, s: IState, c: Choice)
    requires SideInv(cfg, s) && c.tid < |s.pcs| && s.pcs[c.tid].Plain? && s.pcs[c.tid].pc.DeqLoad?
    requires var h := s.pcs[c.tid].pc.h;
             var j := SlotOf(cfg.n, h);
             s.ents[j].cycle == Cycle(cfg.n, h) && s.ents[j].idx.Some? ==>
               h in s.g.commit && s.g.wrote[j] == h
    ensures Simulates(cfg, s, c)
  {
    var pc := s.pcs[c.tid].pc;
    var j := SlotOf(cfg.n, pc.h);
    assert CellOk(cfg, s, j);
    DeqLoadLocal(cfg, s, c.tid, pc);
    PlainDeqLoad(cfg, s, c);
    AbsAfterDeqLoad(cfg, s, IDeqLoad(cfg, s, c.tid, s.ents[j], pc), c.tid, j);
    assert Abs(s).pcs[c.tid] == pc;
    DeqLoadNext(cfg, Abs(s), c);
  }

  lemma AbsAfterDeqLoad(cfg: Config, s: IState, s1: IState, i: nat, j: nat)
    requires SideInv(cfg, s) && ISized(cfg, s1) && i < |s.pcs| && j < cfg.n
    requires s1.g.commit == s.g.commit && s1.g.wrote == s.g.wrote && s1.ents == s.ents && s1.w == s.w
    requires |s1.pcs| == |s.pcs| && s1.pcs == s.pcs[i := s1.pcs[i]]
    ensures Abs(s1.(g := Tick(s1.g)))
            == State(s.w, Abs(s).slots, Tick(s1.g), Abs(s).pcs[i := AbsPc(s1.g, s1.pcs[i])])
  {
    var s' := s1.(g := Tick(s1.g));
    AbsAfter(cfg, s, s', i, j);
    assert Abs(s).slots[j := AbsEntry(s'.g, s'.ents[j], s'.g.wrote[j])] == Abs(s).slots;
    assert AbsPc(s'.g, s'.pcs[i]) == AbsPc(s1.g, s1.pcs[i]);
  }

  lemma SimControl(cfg: Config, s: IState, c: Choice)
    requires Good(cfg, s) && c.tid < |s.pcs| && s.pcs[c.tid].Plain? && !TouchesSlot(s.pcs[c.tid].pc)
    ensures Simulates(cfg, s, c)
  {
    var pc := s.pcs[c.tid].pc;
    assert IPcOk(cfg, s, c.tid, s.pcs[c.tid]);
    assert Abs(s).pcs[c.tid] == pc && PcOk(cfg.n, s.w, Abs(s).slots, s.g, pc);
    ControlOk(cfg, s.w, Abs(s).slots, s.g, pc, c);
    AbsAfter(cfg, s, INext(cfg, s, c), c.tid, 0);
  }

  lemma SimEnqHead(cfg: Config, s: IState, c: Choice)
    requires SideInv(cfg, s) && c.tid < |s.pcs| && s.pcs[c.tid].IEnqHead?
    ensures Simulates(cfg, s, c)
  {
    AbsAfter(cfg, s, INext(cfg, s, c), c.tid, 0);
    assert AbsChoice(cfg, s, c) == c;
  }

  lemma SimPlace(cfg: Config, s: IState, c: Choice)
    requires SideInv(cfg, s) && c.tid < |s.pcs| && s.pcs[c.tid].IEnqPlace?
    ensures Simulates(cfg, s, c)
  {
    AbsAfter(cfg, s, INext(cfg, s, c), c.tid, SlotOf(cfg.n, s.pcs[c.tid].t));
  }

  lemma SimRollback(cfg: Config, s: IState, c: Choice)
    requires SideInv(cfg, s) && c.tid < |s.pcs| && s.pcs[c.tid].IEnqRollback?
    ensures Simulates(cfg, s, c)
  {
    AbsAfter(cfg, s, INext(cfg, s, c), c.tid, 0);
  }

  lemma SimCommit(cfg: Config, s: IState, c: Choice)
    requires Good(cfg, s) && c.tid < |s.pcs| && s.pcs[c.tid].IEnqCas?
    ensures Simulates(cfg, s, c)
  {
    var pc := s.pcs[c.tid];
    var j := SlotOf(cfg.n, pc.t);
    assert CellOk(cfg, s, j) && IPcOk(cfg, s, c.tid, pc);
    assert PcOk(cfg.n, s.w, Abs(s).slots, s.g, Abs(s).pcs[c.tid]);
    assert s.ents[j] == pc.ent <==> Abs(s).slots[j] == AbsEntry(s.g, pc.ent, 0);
    AbsAfter(cfg, s, INext(cfg, s, c), c.tid, j);
  }

  lemma SimMark(cfg: Config, s: IState, c: Choice)
    requires Good(cfg, s) && c.tid < |s.pcs| && s.pcs[c.tid].IDeqCas?
    ensures Simulates(cfg, s, c)
  {
    SameEntry(cfg, s, c.tid);
    if s.ents[SlotOf(cfg.n, s.pcs[c.tid].h)] == s.pcs[c.tid].ent {
      SimMarkHits(cfg, s, c);
    } else {
      SimMarkMisses(cfg, s, c);
    }
  }

  lemma SimMarkHits(cfg: Config, s: IState, c: Choice)
    requires Good(cfg, s) && c.tid < |s.pcs| && s.pcs[c.tid].IDeqCas?
    requires var pc := s.pcs[c.tid];
             var j := SlotOf(cfg.n, pc.h);
             && s.ents[j] == pc.ent && Abs(s).slots[j] == AbsEntry(s.g, pc.ent, pc.filled)
             && (pc.ent.idx.Some? ==> s.g.wrote[j] == pc.filled)
    ensures Simulates(cfg, s, c)
  {
    var pc := s.pcs[c.tid];
    assert IPcOk(cfg, s, c.tid, pc);
    AbsAfter(cfg, s, INext(cfg, s, c), c.tid, SlotOf(cfg.n, pc.h));
    assert AbsChoice(cfg, s, c) == c;
  }

  lemma SimMarkMisses(cfg: Config, s: IState, c: Choice)
    requires Good(cfg, s) && c.tid < |s.pcs| && s.pcs[c.tid].IDeqCas?
    requires var pc := s.pcs[c.tid];
             var j := SlotOf(cfg.n, pc.h);
             s.ents[j] != pc.ent && Abs(s).slots[j] != AbsEntry(s.g, pc.ent, pc.filled)
    ensures Simulates(cfg, s, c)
  {
    var pc := s.pcs[c.tid];
    assert IPcOk(cfg, s, c.tid, pc);
    AbsAfter(cfg, s, INext(cfg, s, c), c.tid, SlotOf(cfg.n, pc.h));
    assert AbsChoice(cfg, s, c) == c;
  }

  /** The entry CAS2 of a dequeuer succeeds in both modes or in neither. */
  lemma SameEntry(cfg: Config, s: IState, i: nat)
    requires Good(cfg, s) && i < |s.pcs| && s.pcs[i].IDeqCas?
    ensures var pc := s.pcs[i];
            var j := SlotOf(cfg.n, pc.h);
            && (s.ents[j] == pc.ent <==> Abs(s).slots[j] == AbsEntry(s.g, pc.ent, pc.filled))
            && (s.ents[j] == pc.ent && pc.ent.idx.Some? ==> s.g.wrote[j] == pc.filled)
  {
    var pc := s.pcs[i];
    var j := SlotOf(cfg.n, pc.h);
    assert CellOk(cfg, s, j) && IPcOk(cfg, s, i, pc);
    var u := s.g.wrote[j];
    if s.ents[j] == pc.ent && pc.ent.idx.Some? {
      assert Abs(s).slots[j].val.Some?;
      assert Holds(cfg.n, Abs(s).slots, u, s.g.commit[u]);
      SameSlotSameCycle(cfg.n, u, pc.filled);
    }
  }

  lemma SimExchange(cfg: Config, s: IState, c: Choice)
    requires SideInv(cfg, s) && c.tid < |s.pcs| && s.pcs[c.tid].IDeqExchange?
    ensures Simulates(cfg, s, c)
  {
    assert IPcOk(cfg, s, c.tid, s.pcs[c.tid]);
    AbsAfter(cfg, s, INext(cfg, s, c), c.tid, 0);
  }

  lemma SimClear(cfg: Config, s: IState, c: Choice)
    requires SideInv(cfg, s) && c.tid < |s.pcs| && s.pcs[c.tid].IDeqClear?
    ensures Simulates(cfg, s, c)
  {
    var pc := s.pcs[c.tid];
    assert IPcOk(cfg, s, c.tid, pc);
    AbsAfter(cfg, s, INext(cfg, s, c), c.tid, SlotOf(cfg.n, pc.h));
    assert AbsChoice(cfg, s, c) == c;
  }

  lemma SimPlain(cfg: Config, s: IState, c: Choice)
    requires Good(cfg, s) && c.tid < |s.pcs| && s.pcs[c.tid].Plain?
    ensures Simulates(cfg, s, c)
  {
    var pc := s.pcs[c.tid].pc;
    assert IPcOk(cfg, s, c.tid, s.pcs[c.tid]);
    if pc.EnqLoad? {
      SimEnqLoad(cfg, s, c);
    } else if pc.DeqLoad? {
      OccupiedEntry(cfg, s, pc.h);
      SimDeqLoad(cfg, s, c);
    } else {
      SimControl(cfg, s, c);
    }
  }

  lemma SimEnq(cfg: Config, s: IState, c: Choice)
    requires Good(cfg, s) && c.tid < |s.pcs|
    requires var pc := s.pcs[c.tid]; pc.IEnqHead? || pc.IEnqPlace? || pc.IEnqCas? || pc.IEnqRollback?
    ensures Simulates(cfg, s, c)
  {
    var pc := s.pcs[c.tid];
    if pc.IEnqHead? {
      SimEnqHead(cfg, s, c);
    } else if pc.IEnqPlace? {
      SimPlace(cfg, s, c);
    } else if pc.IEnqCas? {
      SimCommit(cfg, s, c);
    } else {
      SimRollback(cfg, s, c);
    }
  }

  lemma SimDeq(cfg: Config, s: IState, c: Choice)
    requires Good(cfg, s) && c.tid < |s.pcs|
    requires var pc := s.pcs[c.tid]; pc.IDeqCas? || pc.IDeqExchange? || pc.IDeqClear?
    ensures Simulates(cfg, s, c)
  {
    var pc := s.pcs[c.tid];
    if pc.IDeqCas? {
      SimMark(cfg, s, c);
    } else if pc.IDeqExchange? {
      SimExchange(cfg, s, c);
    } else {
      SimClear(cfg, s, c);
    }
  }

  /** A choice of a thread that does not exist only moves the clock. */
  lemma SimNobody(cfg: Config, s: IState, c: Choice)
    requires SideInv(cfg, s) && c.tid >= |s.pcs|
    ensures Simulates(cfg, s, c)
  {
    assert Abs(INext(cfg, s, c)).slots == Abs(s).slots;
    assert Abs(INext(cfg, s, c)).pcs == Abs(s).pcs;
  }

  lemma Simulation(cfg: Config, s: IState, c: Choice)
    requires Good(cfg, s)
    ensures Simulates(cfg, s, c)
  {
    if c.tid < |s.pcs| {
      var pc := s.pcs[c.tid];
      if pc.Plain? {
        SimPlain(cfg, s, c);
      } else if pc.IDeqCas? || pc.IDeqExchange? || pc.IDeqClear? {
        SimDeq(cfg, s, c);
      } else {
        SimEnq(cfg, s, c);
      }
    } else {
      SimNobody(cfg, s, c);
    }
  }

  // ----- the side array stays sound -----

  /** A step that leaves the side array and the entries alone. */
  lemma SideQuiet(cfg: Config, s: IState, s': IState, i: nat)
    requires SideInv(cfg, s) && ISized(cfg, s') && i < |s.pcs| && |s'.pcs| == |s.pcs|
    requires s'.ents == s.ents && s'.ptrs == s.ptrs && s'.own == s.own && s'.exchanged == s.exchanged
    requires s'.g.commit == s.g.commit && s'.g.wrote == s.g.wrote && s'.w.head >= s.w.head
    requires s'.pcs == s.pcs[i := s'.pcs[i]] && IPcOk(cfg, s', i, s'.pcs[i])
    ensures SideInv(cfg, s')
  {
    forall j | 0 <= j < cfg.n ensures CellOk(cfg, s', j) {
      assert CellOk(cfg, s, j);
    }
    forall k | 0 <= k < |s'.pcs| ensures IPcOk(cfg, s', k, s'.pcs[k]) {
      assert IPcOk(cfg, s, k, s.pcs[k]);
    }
  }

  lemma SideEnqLoad(cfg: Config, s: IState, c: Choice)
    requires SideInv(cfg, s) && c.tid < |s.pcs| && s.pcs[c.tid].Plain? && s.pcs[c.tid].pc.EnqLoad?
    ensures SideInv(cfg, INext(cfg, s, c))
  {
    SideQuiet(cfg, s, INext(cfg, s, c), c.tid);
  }

  lemma SideLoad(cfg: Config, s: IState, c: Choice)
    requires Good(cfg, s) && c.tid < |s.pcs| && s.pcs[c.tid].Plain? && s.pcs[c.tid].pc.DeqLoad?
    ensures SideInv(cfg, INext(cfg, s, c))
  {
    SideDeqLoad(cfg, s, c.tid);
    SideQuiet(cfg, s, INext(cfg, s, c), c.tid);
  }

  lemma SideControl(cfg: Config, s: IState, c: Choice)
    requires SideInv(cfg, s) && c.tid < |s.pcs| && s.pcs[c.tid].Plain? && !TouchesSlot(s.pcs[c.tid].pc)
    requires var pc := s.pcs[c.tid].pc;
             var l := Control(cfg, s.w, s.g, pc, c);
             l.w.head >= s.w.head && SameTickets(s.g, l.g)
    ensures SideInv(cfg, INext(cfg, s, c))
  {
    assert IPcOk(cfg, s, c.tid, s.pcs[c.tid]);
    FreshClaim(cfg, s.w, s.g, s.pcs[c.tid].pc, c);
    SideQuiet(cfg, s, INext(cfg, s, c), c.tid);
  }

  lemma SidePlain(cfg: Config, s: IState, c: Choice)
    requires Good(cfg, s) && c.tid < |s.pcs| && s.pcs[c.tid].Plain?
    ensures SideInv(cfg, INext(cfg, s, c))
  {
    var pc := s.pcs[c.tid].pc;
    assert IPcOk(cfg, s, c.tid, s.pcs[c.tid]);
    if pc.EnqLoad? {
      SideEnqLoad(cfg, s, c);
    } else if pc.DeqLoad? {
      SideLoad(cfg, s, c);
    } else {
      assert Abs(s).pcs[c.tid] == pc && PcOk(cfg.n, s.w, Abs(s).slots, s.g, pc);
      ControlOk(cfg, s.w, Abs(s).slots, s.g, pc, c);
      SideControl(cfg, s, c);
    }
  }

  /** Control steps enter a slot only with a freshly claimed ticket. */
  lemma FreshClaim(cfg: Config, w: Words, g: Hist, pc: Pc, c: Choice)
    requires !TouchesSlot(pc) && !pc.EnqHead?
    ensures var l := Control(cfg, w, g, pc, c);
            && !l.pc.EnqHead? && !l.pc.EnqCas? && !l.pc.DeqCas? && !l.pc.DeqTake?
            && (l.pc.DeqLoad? ==> l.pc.h == w.head)
  {
  }

  /** An occupied entry names its slot and the ticket that filled it. */
  lemma OccupiedCell(cfg: Config, s: IState, j: nat)
    requires Good(cfg, s) && j < cfg.n && s.ents[j].idx.Some?
    ensures var u := s.g.wrote[j];
            && s.ents[j].idx == Some(j) && u in s.g.commit && SlotOf(cfg.n, u) == j
            && Cycle(cfg.n, u) == s.ents[j].cycle && (s.own[j] == Filled(u) || u in s.exchanged)
  {
    var u := s.g.wrote[j];
    assert CellOk(cfg, s, j) && Abs(s).slots[j].val.Some?;
    assert Holds(cfg.n, Abs(s).slots, u, s.g.commit[u]);
  }

  lemma SideDeqTakes(cfg: Config, s: IState, i: nat, pc: Pc)
    requires Good(cfg, s) && i < |s.pcs| && pc.DeqLoad? && s.pcs[i] == Plain(pc)
    requires var e := s.ents[SlotOf(cfg.n, pc.h)]; e.idx.Some? && e.cycle == Cycle(cfg.n, pc.h)
    ensures IPcOk(cfg, s, i, IDeqExchange(pc.started, pc.h, s.ents[SlotOf(cfg.n, pc.h)].idx.value))
  {
    assert IPcOk(cfg, s, i, s.pcs[i]);
    OccupiedEntry(cfg, s, pc.h);
    OccupiedCell(cfg, s, SlotOf(cfg.n, pc.h));
  }

  lemma SideDeqMarks(cfg: Config, s: IState, i: nat, pc: Pc)
    requires Good(cfg, s) && i < |s.pcs| && pc.DeqLoad? && s.pcs[i] == Plain(pc)
    ensures var j := SlotOf(cfg.n, pc.h);
            IPcOk(cfg, s, i, IDeqCas(pc.started, pc.h, pc.retries, s.ents[j], s.g.wrote[j]))
  {
    assert IPcOk(cfg, s, i, s.pcs[i]);
    if s.ents[SlotOf(cfg.n, pc.h)].idx.Some? {
      OccupiedCell(cfg, s, SlotOf(cfg.n, pc.h));
    }
  }

  /** Looking again, or leaving, holds no entry. */
  lemma SideDeqStays(cfg: Config, s: IState, i: nat, pc: Pc)
    requires SideInv(cfg, s) && i < |s.pcs| && pc.DeqLoad? && s.pcs[i] == Plain(pc)
    requires var e := s.ents[SlotOf(cfg.n, pc.h)];
             var d := DeqDecide(cfg.variant, Cycle(cfg.n, pc.h), e.cycle, e.safe, e.idx.Some?, pc.retries);
             !d.Take? && !d.TryMark?
    ensures var s' := IDeqLoad(cfg, s, i, s.ents[SlotOf(cfg.n, pc.h)], pc);
            IPcOk(cfg, s', i, s'.pcs[i])
  {
    assert IPcOk(cfg, s, i, s.pcs[i]);
  }

  lemma SideDeqLoad(cfg: Config, s: IState, i: nat)
    requires Good(cfg, s) && i < |s.pcs| && s.pcs[i].Plain? && s.pcs[i].pc.DeqLoad?
    ensures var pc := s.pcs[i].pc;
            var s' := IDeqLoad(cfg, s, i, s.ents[SlotOf(cfg.n, pc.h)], pc);
            IPcOk(cfg, s', i, s'.pcs[i])
  {
    var pc := s.pcs[i].pc;
    var e := s.ents[SlotOf(cfg.n, pc.h)];
    match DeqDecide(cfg.variant, Cycle(cfg.n, pc.h), e.cycle, e.safe, e.idx.Some?, pc.retries)
    case Take => SideDeqTakes(cfg, s, i, pc);
    case TryMark => SideDeqMarks(cfg, s, i, pc);
    case _ => SideDeqStays(cfg, s, i, pc);
  }

  lemma SidePlace(cfg: Config, s: IState, c: Choice)
    requires SideInv(cfg, s) && c.tid < |s.pcs| && s.pcs[c.tid].IEnqPlace?
    ensures SideInv(cfg, INext(cfg, s, c))
  {
    var s' := INext(cfg, s, c);
    var j := SlotOf(cfg.n, s.pcs[c.tid].t);
    assert IPcOk(cfg, s, c.tid, s.pcs[c.tid]) && CellOk(cfg, s, j);
    forall k | 0 <= k < cfg.n ensures CellOk(cfg, s', k) {
      assert CellOk(cfg, s, k);
    }
    forall k | 0 <= k < |s'.pcs| ensures IPcOk(cfg, s', k, s'.pcs[k]) {
      assert IPcOk(cfg, s, k, s.pcs[k]);
    }
  }

  lemma SideRollback(cfg: Config, s: IState, c: Choice)
    requires Good(cfg, s) && c.tid < |s.pcs| && s.pcs[c.tid].IEnqRollback?
    ensures SideInv(cfg, INext(cfg, s, c))
  {
    var s' := INext(cfg, s, c);
    assert IPcOk(cfg, s, c.tid, s.pcs[c.tid]);
    forall k | 0 <= k < cfg.n ensures CellOk(cfg, s', k) {
      assert CellOk(cfg, s, k);
    }
    forall k | 0 <= k < |s'.pcs| ensures IPcOk(cfg, s', k, s'.pcs[k]) {
      assert IPcOk(cfg, s, k, s.pcs[k]);
    }
  }

  lemma SideCommit(cfg: Config, s: IState, c: Choice)
    requires SideInv(cfg, s) && c.tid < |s.pcs| && s.pcs[c.tid].IEnqCas?
    requires s.pcs[c.tid].t !in s.g.commit
    ensures SideInv(cfg, INext(cfg, s, c))
  {
    var s' := INext(cfg, s, c);
    assert IPcOk(cfg, s, c.tid, s.pcs[c.tid]);
    forall k | 0 <= k < cfg.n ensures CellOk(cfg, s', k) {
      assert CellOk(cfg, s, k);
    }
    forall k | 0 <= k < |s'.pcs| ensures IPcOk(cfg, s', k, s'.pcs[k]) {
      assert IPcOk(cfg, s, k, s.pcs[k]);
    }
  }

  lemma SideMark(cfg: Config, s: IState, c: Choice)
    requires SideInv(cfg, s) && c.tid < |s.pcs| && s.pcs[c.tid].IDeqCas?
    ensures SideInv(cfg, INext(cfg, s, c))
  {
    var s' := INext(cfg, s, c);
    assert IPcOk(cfg, s, c.tid, s.pcs[c.tid]);
    forall k | 0 <= k < cfg.n ensures CellOk(cfg, s', k) {
      assert CellOk(cfg, s, k);
    }
    forall k | 0 <= k < |s'.pcs| ensures IPcOk(cfg, s', k, s'.pcs[k]) {
      assert IPcOk(cfg, s, k, s.pcs[k]);
    }
  }

  /** The dequeue ticket a thread works on, in the terms of the abstraction. */
  lemma OtherTicket(cfg: Config, s: IState, i: nat, k: nat)
    requires Good(cfg, s) && i < |s.pcs| && k < |s.pcs| && i != k
    requires DeqTicketOf(AbsPc(s.g, s.pcs[i])).Some?
    ensures DeqTicketOf(AbsPc(s.g, s.pcs[i])) != DeqTicketOf(AbsPc(s.g, s.pcs[k]))
  {
    assert Apart(Abs(s).pcs[i], Abs(s).pcs[k]);
  }

  /** What the two exchanges of a dequeuer rely on: nobody else works on its
      ticket, and occupied entries were filled by tickets of their own slot. */
  ghost predicate Alone(cfg: Config, s: IState, i: nat, h: nat)
    requires ISized(cfg, s)
  {
    && (forall k :: 0 <= k < |s.pcs| && k != i ==> DeqTicketOf(AbsPc(s.g, s.pcs[k])) != Some(h))
    && (forall k :: 0 <= k < cfg.n && s.ents[k].idx.Some? ==> SlotOf(cfg.n, s.g.wrote[k]) == k)
    && h < s.w.head && (s.ents[SlotOf(cfg.n, h)].idx.Some? && s.ents[SlotOf(cfg.n, h)].cycle == Cycle(cfg.n, h)
                        ==> s.g.wrote[SlotOf(cfg.n, h)] == h)
  }

  lemma AloneFromInv(cfg: Config, s: IState, i: nat)
    requires Good(cfg, s) && i < |s.pcs| && (s.pcs[i].IDeqExchange? || s.pcs[i].IDeqClear?)
    ensures Alone(cfg, s, i, s.pcs[i].h)
    ensures Abs(s).slots[SlotOf(cfg.n, s.pcs[i].h)].cycle == Cycle(cfg.n, s.pcs[i].h)
    ensures s.ents[SlotOf(cfg.n, s.pcs[i].h)].idx.Some?
  {
    var h := s.pcs[i].h;
    forall k | 0 <= k < |s.pcs| && k != i ensures DeqTicketOf(AbsPc(s.g, s.pcs[k])) != Some(h) {
      OtherTicket(cfg, s, i, k);
    }
    forall k | 0 <= k < cfg.n && s.ents[k].idx.Some? ensures SlotOf(cfg.n, s.g.wrote[k]) == k {
      FilledTicketSlot(cfg, s, k);
    }
    assert PcOk(cfg.n, s.w, Abs(s).slots, s.g, Abs(s).pcs[i]);
    OccupiedEntry(cfg, s, h);
  }

  /** Occupied entries were filled by a ticket of their own slot. */
  lemma FilledTicketSlot(cfg: Config, s: IState, k: nat)
    requires Good(cfg, s) && k < cfg.n
    ensures s.ents[k].idx.Some? ==> SlotOf(cfg.n, s.g.wrote[k]) == k
  {
    assert CellOk(cfg, s, k);
    if s.ents[k].idx.Some? {
      assert Abs(s).slots[k].val.Some?;
    }
  }

  lemma SideExchange(cfg: Config, s: IState, c: Choice)
    requires SideInv(cfg, s) && c.tid < |s.pcs| && s.pcs[c.tid].IDeqExchange?
    requires Alone(cfg, s, c.tid, s.pcs[c.tid].h)
    ensures SideInv(cfg, INext(cfg, s, c))
  {
    var s' := INext(cfg, s, c);
    var pc := s.pcs[c.tid];
    assert IPcOk(cfg, s, c.tid, pc) && CellOk(cfg, s, pc.idx);
    forall k | 0 <= k < cfg.n ensures CellOk(cfg, s', k) {
      assert CellOk(cfg, s, k);
    }
    forall k | 0 <= k < |s'.pcs| ensures IPcOk(cfg, s', k, s'.pcs[k]) {
      assert IPcOk(cfg, s, k, s.pcs[k]);
    }
  }

  lemma SideClear(cfg: Config, s: IState, c: Choice)
    requires SideInv(cfg, s) && c.tid < |s.pcs| && s.pcs[c.tid].IDeqClear?
    requires Alone(cfg, s, c.tid, s.pcs[c.tid].h)
    requires var j := SlotOf(cfg.n, s.pcs[c.tid].h);
             s.ents[j].idx.Some? && s.g.wrote[j] == s.pcs[c.tid].h
    ensures SideInv(cfg, INext(cfg, s, c))
  {
    var s' := INext(cfg, s, c);
    assert IPcOk(cfg, s, c.tid, s.pcs[c.tid]);
    forall k | 0 <= k < cfg.n ensures CellOk(cfg, s', k) {
      assert CellOk(cfg, s, k);
    }
    forall k | 0 <= k < |s'.pcs| ensures IPcOk(cfg, s', k, s'.pcs[k]) {
      assert IPcOk(cfg, s, k, s.pcs[k]);
    }
  }

  lemma SideNext(cfg: Config, s: IState, c: Choice)
    requires Good(cfg, s)
    ensures SideInv(cfg, INext(cfg, s, c))
  {
    if c.tid < |s.pcs| {
      match s.pcs[c.tid]
      case Plain(_) => SidePlain(cfg, s, c);
      case IEnqHead(_, _, _, _) => SideEnqHead(cfg, s, c);
      case IEnqPlace(_, _, _, _) => SidePlace(cfg, s, c);
      case IEnqCas(_, _, t, _) =>
        assert PcOk(cfg.n, s.w, Abs(s).slots, s.g, Abs(s).pcs[c.tid]);
        SideCommit(cfg, s, c);
      case IEnqRollback(_, _, _) => SideRollback(cfg, s, c);
      case IDeqCas(_, _, _, _, _) => SideMark(cfg, s, c);
      case IDeqExchange(_, _, _) =>
        AloneFromInv(cfg, s, c.tid);
        SideExchange(cfg, s, c);
      case IDeqClear(_, _, _) =>
        AloneFromInv(cfg, s, c.tid);
        SideClear(cfg, s, c);
    } else {
      SideTick(cfg, s);
    }
  }

  lemma SideEnqHead(cfg: Config, s: IState, c: Choice)
    requires SideInv(cfg, s) && c.tid < |s.pcs| && s.pcs[c.tid].IEnqHead?
    ensures SideInv(cfg, INext(cfg, s, c))
  {
    assert IPcOk(cfg, s, c.tid, s.pcs[c.tid]);
    SideQuiet(cfg, s, INext(cfg, s, c), c.tid);
  }

  lemma SideTick(cfg: Config, s: IState)
    requires SideInv(cfg, s)
    ensures SideInv(cfg, s.(g := Tick(s.g)))
  {
    var s' := s.(g := Tick(s.g));
    forall k | 0 <= k < cfg.n ensures CellOk(cfg, s', k) {
      assert CellOk(cfg, s, k);
    }
    forall k | 0 <= k < |s'.pcs| ensures IPcOk(cfg, s', k, s'.pcs[k]) {
      assert IPcOk(cfg, s, k, s.pcs[k]);
    }
  }

  // ----- every run -----

  /** The pointer-mode schedule of an index-mode schedule. */
  function AbsSchedule(cfg: Config, threads: nat, sch: seq<Choice>): (a: seq<Choice>)
    requires cfg.Valid() && cfg.variant.ScqpIdx?
    ensures |a| == |sch|
  {
    if sch == [] then []
    else
      var before := sch[..|sch| - 1];
      AbsSchedule(cfg, threads, before) + [AbsChoice(cfg, IRun(cfg, threads, before), sch[|sch| - 1])]
  }

  lemma InitGood(cfg: Config, threads: nat)
    requires cfg.Valid() && cfg.variant.ScqpIdx?
    ensures SideInv(cfg, IInit(cfg, threads)) && Abs(IInit(cfg, threads)) == Init(cfg, threads)
  {
    var s := IInit(cfg, threads);
    assert Abs(s).slots == Init(cfg, threads).slots && Abs(s).pcs == Init(cfg, threads).pcs;
  }

  /** Refinement: an index-mode run is, under the abstraction, the pointer-mode run
      of the mapped schedule, and its side array is sound throughout. */
  lemma {:induction false} IndexModeRefines(cfg: Config, threads: nat, sch: seq<Choice>)
    requires cfg.Valid() && cfg.variant.ScqpIdx?
    ensures SideInv(cfg, IRun(cfg, threads, sch))
    ensures Abs(IRun(cfg, threads, sch)) == Run(cfg, threads, AbsSchedule(cfg, threads, sch))
  {
    if sch == [] {
      InitGood(cfg, threads);
    } else {
      var before, c := sch[..|sch| - 1], sch[|sch| - 1];
      var a := AbsSchedule(cfg, threads, before);
      IndexModeRefines(cfg, threads, before);
      RunInv(cfg, threads, a);
      var s := IRun(cfg, threads, before);
      Simulation(cfg, s, c);
      SideNext(cfg, s, c);
      RunSnoc(cfg, threads, a, AbsChoice(cfg, s, c));
    }
  }

  /** The value branch: between its two exchanges, and before them, the dequeuer
      with ticket h faces or holds exactly the pointer committed under ticket h. */
  lemma ValueBranchGetsCommitted(cfg: Config, threads: nat, sch: seq<Choice>, i: nat)
    requires cfg.Valid() && cfg.variant.ScqpIdx? && i < threads
    ensures var s := IRun(cfg, threads, sch);
            && (s.pcs[i].IDeqExchange? ==>
                  s.pcs[i].h in s.g.commit && s.pcs[i].idx < cfg.n
                  && s.ptrs[s.pcs[i].idx] == Some(s.g.commit[s.pcs[i].h]))
            && (s.pcs[i].IDeqClear? ==>
                  s.pcs[i].h in s.g.commit && s.pcs[i].value == Some(s.g.commit[s.pcs[i].h]))
  {
    IndexModeRefines(cfg, threads, sch);
    var s := IRun(cfg, threads, sch);
    assert IPcOk(cfg, s, i, s.pcs[i]);
    if s.pcs[i].IDeqExchange? {
      assert CellOk(cfg, s, s.pcs[i].idx);
    }
  }

  /** A failed committer's rollback finds and removes its own pointer, never that
      of another enqueuer or of a committed ticket. */
  lemma RollbackRemovesOwnPointer(cfg: Config, threads: nat, sch: seq<Choice>, c: Choice)
    requires cfg.Valid() && cfg.variant.ScqpIdx? && c.tid < threads
    requires IRun(cfg, threads, sch).pcs[c.tid].IEnqRollback?
    ensures var s := IRun(cfg, threads, sch);
            var j := SlotOf(cfg.n, s.pcs[c.tid].t);
            && s.own[j] == Placer(c.tid) && s.ptrs[j] == Some(s.pcs[c.tid].v)
            && INext(cfg, s, c).ptrs == s.ptrs[j := None]
  {
    IndexModeRefines(cfg, threads, sch);
    var s := IRun(cfg, threads, sch);
    assert IPcOk(cfg, s, c.tid, s.pcs[c.tid]);
  }

  /** Index mode inherits the order and exactly-once theorems: its log is the log
      of a pointer-mode run. */
  lemma IndexModeFifo(cfg: Config, threads: nat, sch: seq<Choice>)
    requires cfg.Valid() && cfg.variant.ScqpIdx?
    ensures var log := IRun(cfg, threads, sch).g.log;
            && (forall p, k, x, y ::
                  && 0 <= p < |log| && 0 <= k < |log| && 0 <= x < |log| && 0 <= y < |log|
                  && log[p].EnqReturned? && log[k].EnqReturned? && p < log[k].op
                  && log[x] == DeqClaimed(log[p].t) && log[y] == DeqClaimed(log[k].t)
                  ==> x < y)
            && (forall p, q ::
                  (0 <= p < |log| && 0 <= q < |log| && log[p].DeqReturned? && log[q].DeqReturned?
                   && log[p].h == log[q].h) ==> p == q)
  {
    IndexModeRefines(cfg, threads, sch);
    var a := AbsSchedule(cfg, threads, sch);
    assert IRun(cfg, threads, sch).g == Run(cfg, threads, a).g;
    TicketFifo(cfg, threads, a);
    ReturnedOnceAndAsCommitted(cfg, threads, a);
  }

  /** Prefixes of schedules are mapped to prefixes. */
  lemma {:induction false} AbsSchedulePrefix(cfg: Config, threads: nat, sch: seq<Choice>, m: nat)
    requires cfg.Valid() && cfg.variant.ScqpIdx? && m <= |sch|
    ensures AbsSchedule(cfg, threads, sch)[..m] == AbsSchedule(cfg, threads, sch[..m])
  {
    if m == |sch| {
      assert sch[..m] == sch;
    } else {
      var before := sch[..|sch| - 1];
      AbsSchedulePrefix(cfg, threads, before, m);
      assert before[..m] == sch[..m];
    }
  }

  lemma {:induction false} AbsOneConsumer(cfg: Config, threads: nat, sch: seq<Choice>, k: nat)
    requires cfg.Valid() && cfg.variant.ScqpIdx? && OneConsumer(sch, k)
    ensures OneConsumer(AbsSchedule(cfg, threads, sch), k)
  {
    if sch != [] {
      AbsOneConsumer(cfg, threads, sch[..|sch| - 1], k);
    }
  }

  /** Index mode, any number of consumers: an empty result has a moment inside the
      call at which the tail had not passed the head. */
  lemma IndexModeEmptyIsJustified(cfg: Config, threads: nat, sch: seq<Choice>, p: nat)
    requires cfg.Valid() && cfg.variant.ScqpIdx?
    requires p < |IRun(cfg, threads, sch).g.log| && IRun(cfg, threads, sch).g.log[p].DeqEmpty?
    ensures var e := IRun(cfg, threads, sch).g.log[p];
            && e.seen.Some? && e.started <= e.seen.value <= e.returned <= |sch|
            && var s := IRun(cfg, threads, sch[..e.seen.value]);
               s.w.tail <= s.w.head && forall u :: u in s.g.commit ==> u < s.w.head
  {
    IndexModeRefines(cfg, threads, sch);
    var a := AbsSchedule(cfg, threads, sch);
    assert IRun(cfg, threads, sch).g == Run(cfg, threads, a).g;
    EmptyIsJustified(cfg, threads, a, p);
    var m := IRun(cfg, threads, sch).g.log[p].seen.value;
    AbsSchedulePrefix(cfg, threads, sch, m);
    IndexModeRefines(cfg, threads, sch[..m]);
    assert IRun(cfg, threads, sch[..m]).g == Run(cfg, threads, a[..m]).g;
    assert IRun(cfg, threads, sch[..m]).w == Run(cfg, threads, a[..m]).w;
  }

  /** Index mode with one consumer loses nothing. */
  lemma IndexModeSingleConsumer(cfg: Config, threads: nat, sch: seq<Choice>, k: nat, p: nat)
    requires cfg.Valid() && cfg.variant.ScqpIdx? && OneConsumer(sch, k)
    ensures forall j :: 0 <= j < cfg.n ==> IRun(cfg, threads, sch).ents[j].safe
    ensures IRun(cfg, threads, sch).g.abandoned == {}
    ensures var log := IRun(cfg, threads, sch).g.log;
            p < |log| && log[p].DeqEmpty? ==>
              && log[p].seen.Some? && log[p].started <= log[p].seen.value <= log[p].returned <= |sch|
              && var s := IRun(cfg, threads, sch[..log[p].seen.value]);
                 s.g.commit == s.g.taken
  {
    IndexModeRefines(cfg, threads, sch);
    var a := AbsSchedule(cfg, threads, sch);
    var s := IRun(cfg, threads, sch);
    AbsOneConsumer(cfg, threads, sch, k);
    SingleConsumerLosesNothing(cfg, threads, a, k, p);
    assert s.g == Run(cfg, threads, a).g;
    forall j | 0 <= j < cfg.n ensures s.ents[j].safe {
      assert Abs(s).slots[j].safe == s.ents[j].safe;
    }
    if p < |s.g.log| && s.g.log[p].DeqEmpty? {
      var m := s.g.log[p].seen.value;
      AbsSchedulePrefix(cfg, threads, sch, m);
      IndexModeRefines(cfg, threads, sch[..m]);
      assert IRun(cfg, threads, sch[..m]).g == Run(cfg, threads, a[..m]).g;
    }
  }
}
