/** The answer "full" in the index mode of SCQP: what it rests on is inherited from pointer
    mode, and the run that gives it with an empty entry has a counterpart with the side
    array, so the condition is the same. */
module IndexRefusal {
  import opened Ring
  import opened TicketQueue
  import opened TicketSafety
  import opened TicketFull
  import opened TicketRefusal
  import opened IndexQueue
  import opened IndexRefinement
  import opened IndexDelivery
  import G = TicketGiveUp

  // ----- inherited -----

  function Used(ents: seq<Entry>): set<nat> {
    set j | 0 <= j < |ents| && ents[j].idx.Some?
  }

  /** Every entry names a cell. */
  ghost predicate AllUsed(s: IState) {
    forall j :: 0 <= j < |s.ents| ==> s.ents[j].idx.Some?
  }

  /** An entry is used exactly when the abstract slot is occupied. */
  lemma UsedIsOccupied(cfg: Config, s: IState)
    requires SideInv(cfg, s)
    ensures Used(s.ents) == Occupied(Abs(s).slots) && (AllUsed(s) <==> Full(Abs(s)))
  {
    forall j | 0 <= j < cfg.n ensures s.ents[j].idx.Some? <==> Abs(s).slots[j].val.Some? {
      assert CellOk(cfg, s, j);
    }
  }

  /** Time m lies in call op. */
  ghost predicate IDuring(cfg: Config, threads: nat, sch: seq<Choice>, op: nat, m: nat)
    requires cfg.Valid() && cfg.variant.ScqpIdx? && m <= |sch|
  {
    op < |IRun(cfg, threads, sch[..m]).g.log|
  }

  lemma SamePrefix(cfg: Config, threads: nat, sch: seq<Choice>, m: nat)
    requires cfg.Valid() && cfg.variant.ScqpIdx? && m <= |sch|
    ensures var s, a := IRun(cfg, threads, sch[..m]), Run(cfg, threads, AbsSchedule(cfg, threads, sch)[..m]);
            s.g == a.g && Used(s.ents) == Occupied(a.slots) && (AllUsed(s) <==> Full(a))
  {
    AbsSchedulePrefix(cfg, threads, sch, m);
    SameHistory(cfg, threads, sch[..m]);
    UsedIsOccupied(cfg, IRun(cfg, threads, sch[..m]));
  }

  /** What every refusal of index mode rests on, for any number of threads. */
  lemma IndexRefusalIsCounted(cfg: Config, threads: nat, sch: seq<Choice>, p: nat) returns (m: nat)
    requires cfg.Valid() && cfg.variant.ScqpIdx?
    requires p < |IRun(cfg, threads, sch).g.log| && IRun(cfg, threads, sch).g.log[p].EnqRefused?
    ensures var e := IRun(cfg, threads, sch).g.log[p];
            && m <= e.returned < |sch| && IDuring(cfg, threads, sch, e.op, m)
            && var s, seen := IRun(cfg, threads, sch[..e.returned]), IRun(cfg, threads, sch[..m]);
               && Enqueued(s.g.log) >= Dequeued(seen.g.log) + cfg.n
               && |Used(s.ents)| >= cfg.n - (|s.g.taken| - Dequeued(seen.g.log))
               && (|s.g.taken| <= Dequeued(seen.g.log) ==> AllUsed(s))
  {
    SameHistory(cfg, threads, sch);
    m := RefusalIsCounted(cfg, threads, AbsSchedule(cfg, threads, sch), p);
    SamePrefix(cfg, threads, sch, m);
    SamePrefix(cfg, threads, sch, IRun(cfg, threads, sch).g.log[p].returned);
  }

  ghost predicate IWasFull(cfg: Config, threads: nat, sch: seq<Choice>, e: Event)
    requires cfg.Valid() && cfg.variant.ScqpIdx? && e.EnqRefused?
  {
    e.returned <= |sch|
    && exists m: nat :: m <= e.returned && IDuring(cfg, threads, sch, e.op, m) && AllUsed(IRun(cfg, threads, sch[..m]))
  }

  ghost predicate IndexRefusesOnlyFull(cfg: Config, threads: nat)
    requires cfg.Valid() && cfg.variant.ScqpIdx?
  {
    forall sch: seq<Choice>, p: nat ::
      p < |IRun(cfg, threads, sch).g.log| && IRun(cfg, threads, sch).g.log[p].EnqRefused? ==>
        IWasFull(cfg, threads, sch, IRun(cfg, threads, sch).g.log[p])
  }

  lemma FewIndexThreads(cfg: Config, threads: nat, sch: seq<Choice>, p: nat)
    requires cfg.Valid() && cfg.variant.ScqpIdx? && threads <= 1
    requires p < |IRun(cfg, threads, sch).g.log| && IRun(cfg, threads, sch).g.log[p].EnqRefused?
    ensures IWasFull(cfg, threads, sch, IRun(cfg, threads, sch).g.log[p])
  {
    var a := AbsSchedule(cfg, threads, sch);
    SameHistory(cfg, threads, sch);
    FewThreadsRefuseFull(cfg, threads, a, p);
    var e := IRun(cfg, threads, sch).g.log[p];
    var m: nat :| m <= e.returned && During(cfg, threads, a, e.op, m) && Full(Run(cfg, threads, a[..m]));
    SamePrefix(cfg, threads, sch, m);
    assert IDuring(cfg, threads, sch, e.op, m) && AllUsed(IRun(cfg, threads, sch[..m]));
  }

  // ----- steps with the side array -----

  /** An entry without an index has a clear cell. */
  ghost predicate Clear(s: IState) {
    |s.ptrs| == |s.ents| && forall j :: 0 <= j < |s.ents| && s.ents[j].idx.None? ==> s.ptrs[j].None?
  }

  /** A step on words only looks the same in both modes. */
  lemma WordStep(cfg: Config, s: IState, c: Choice)
    requires Good(cfg, s) && c.tid < |s.pcs| && s.pcs[c.tid].Plain? && !TouchesSlot(s.pcs[c.tid].pc)
    ensures var s' := INext(cfg, s, c);
            && Abs(s') == Next(cfg, Abs(s), c) && s'.pcs == s.pcs[c.tid := s'.pcs[c.tid]]
            && s'.pcs[c.tid].Plain? && s'.ents == s.ents && s'.ptrs == s.ptrs
  {
    Simulation(cfg, s, c);
    assert IPcOk(cfg, s, c.tid, s.pcs[c.tid]);
  }

  ghost predicate IFill(cfg: Config, s: IState, st: Put, k: nat) {
    && Good(cfg, s) && FillAt(cfg, Abs(s), st, k) && Clear(s) && |s.pcs| >= 2 && s.pcs[1].Plain?
    && (if st.PutStore? then s.pcs[0].IEnqPlace? else s.pcs[0].Plain?)
  }

  lemma AbsOf(s: IState, i: nat)
    requires i < |s.pcs|
    ensures Abs(s).pcs[i] == AbsPc(s.g, s.pcs[i])
  {
  }

  lemma IGood(cfg: Config, s: IState, c: Choice)
    requires Good(cfg, s)
    ensures Good(cfg, INext(cfg, s, c))
  {
    Simulation(cfg, s, c);
    SideNext(cfg, s, c);
    InvNext(cfg, Abs(s), AbsChoice(cfg, s, c));
  }

  lemma IFillControl(cfg: Config, s: IState, st: Put, k: nat)
    requires IFill(cfg, s, st, k) && (st.PutBegin? || st.PutReadDeq? || st.PutReadEnq? || st.PutClaim?)
    ensures var st' := if st.PutBegin? then PutReadDeq else if st.PutReadDeq? then PutReadEnq
                       else if st.PutReadEnq? then PutClaim else PutLoad;
            IFill(cfg, INext(cfg, s, G.Producer()), st', k)
  {
    AbsOf(s, 0);
    IGood(cfg, s, G.Producer());
    WordStep(cfg, s, G.Producer());
    FillControl(cfg, Abs(s), st, k);
  }

  /** Loading an entry it may fill, the producer goes on to place its pointer. */
  lemma LoadPlaces(cfg: Config, s: IState, c: Choice)
    requires Good(cfg, s) && c.tid < |s.pcs| && s.pcs[c.tid].Plain? && s.pcs[c.tid].pc.EnqLoad?
    ensures var s' := INext(cfg, s, c);
            && Abs(s') == Next(cfg, Abs(s), c) && s'.pcs == s.pcs[c.tid := s'.pcs[c.tid]]
            && s'.ents == s.ents && s'.ptrs == s.ptrs
            && (AbsPc(s'.g, s'.pcs[c.tid]).EnqCas? ==> s'.pcs[c.tid].IEnqPlace?)
  {
    Simulation(cfg, s, c);
  }

  /** About to store, the producer has loaded the slot as it is, without an element. */
  lemma StoreIsCas(cfg: Config, s: State, k: nat)
    requires FillAt(cfg, s, PutStore, k)
    ensures s.pcs[0].EnqCas? && s.slots[SlotOf(cfg.n, s.pcs[0].t)] == s.pcs[0].ent && s.pcs[0].ent.val.None?
  {
    G.LaidFill(cfg.n, s.slots, k);
  }

  /** The other threads do not move. */
  lemma OthersStay(cfg: Config, s: IState, c: Choice, i: nat)
    requires ISized(cfg, s) && i < |s.pcs| && i != c.tid
    ensures INext(cfg, s, c).pcs[i] == s.pcs[i]
  {
  }

  /** What the abstraction shows after the load. */
  lemma LoadShows(cfg: Config, s: IState, k: nat)
    requires IFill(cfg, s, PutLoad, k)
    ensures var s' := INext(cfg, s, G.Producer());
            FillAt(cfg, Abs(s'), PutStore, k) && s'.ents == s.ents && s'.ptrs == s.ptrs && s'.pcs[0].IEnqPlace?
  {
    AbsOf(s, 0);
    LoadPlaces(cfg, s, G.Producer());
    FillLoad(cfg, Abs(s), k);
    StoreIsCas(cfg, Abs(INext(cfg, s, G.Producer())), k);
    AbsOf(INext(cfg, s, G.Producer()), 0);
  }

  lemma IFillLoad(cfg: Config, s: IState, k: nat)
    requires IFill(cfg, s, PutLoad, k)
    ensures IFill(cfg, INext(cfg, s, G.Producer()), PutStore, k)
  {
    LoadShows(cfg, s, k);
    IGood(cfg, s, G.Producer());
    OthersStay(cfg, s, G.Producer(), 1);
  }

  lemma FillTick(cfg: Config, s: State, st: Put, k: nat)
    requires FillAt(cfg, s, st, k)
    ensures FillAt(cfg, s.(g := Tick(s.g)), st, k)
  {
  }

  /** The pointer is placed and not yet committed. */
  ghost predicate IPlacedAt(cfg: Config, s: IState, k: nat) {
    && Good(cfg, s) && FillAt(cfg, Abs(s), PutStore, k) && |s.pcs| >= 2 && s.pcs[1].Plain? && s.pcs[0].IEnqCas?
    && forall j :: 0 <= j < |s.ents| && j != SlotOf(cfg.n, s.pcs[0].t) && s.ents[j].idx.None? ==> s.ptrs[j].None?
  }

  /** The cell a placing enqueuer needs is clear. */
  lemma CellClear(cfg: Config, s: IState, k: nat)
    requires IFill(cfg, s, PutStore, k)
    ensures s.ptrs[SlotOf(cfg.n, s.pcs[0].t)].None?
  {
    StoreIsCas(cfg, Abs(s), k);
    AbsOf(s, 0);
    EmptyEntry(cfg, s, SlotOf(cfg.n, s.pcs[0].t));
  }

  /** A slot without an element is an entry without an index. */
  lemma EmptyEntry(cfg: Config, s: IState, j: nat)
    requires SideInv(cfg, s) && j < cfg.n && Abs(s).slots[j].val.None?
    ensures s.ents[j].idx.None?
  {
    assert CellOk(cfg, s, j);
  }

  lemma IFillPlace(cfg: Config, s: IState, k: nat)
    requires IFill(cfg, s, PutStore, k)
    ensures IPlacedAt(cfg, INext(cfg, s, G.Producer()), k)
  {
    CellClear(cfg, s, k);
    IGood(cfg, s, G.Producer());
    Simulation(cfg, s, G.Producer());
    FillTick(cfg, Abs(s), PutStore, k);
  }

  /** The commit makes the entry name the cell again. */
  lemma CommitClears(cfg: Config, s: IState, c: Choice)
    requires Good(cfg, s) && c.tid < |s.pcs| && s.pcs[c.tid].IEnqCas? && !c.fail
    requires forall j :: 0 <= j < |s.ents| && j != SlotOf(cfg.n, s.pcs[c.tid].t) && s.ents[j].idx.None? ==>
               s.ptrs[j].None?
    requires s.ents[SlotOf(cfg.n, s.pcs[c.tid].t)] == s.pcs[c.tid].ent
    ensures var s' := INext(cfg, s, c);
            Clear(s') && s'.pcs[c.tid].Plain? && s'.pcs == s.pcs[c.tid := s'.pcs[c.tid]]
            && Abs(s') == Next(cfg, Abs(s), c)
  {
    Simulation(cfg, s, c);
  }

  /** The loaded entry still stands. */
  lemma EntryStands(cfg: Config, s: IState, k: nat)
    requires IPlacedAt(cfg, s, k)
    ensures s.ents[SlotOf(cfg.n, s.pcs[0].t)] == s.pcs[0].ent
  {
    StoreIsCas(cfg, Abs(s), k);
    AbsOf(s, 0);
    EmptyEntry(cfg, s, SlotOf(cfg.n, s.pcs[0].t));
    assert IPcOk(cfg, s, 0, s.pcs[0]);
  }

  lemma IFillStore(cfg: Config, s: IState, k: nat)
    requires IPlacedAt(cfg, s, k)
    ensures IFill(cfg, INext(cfg, s, G.Producer()), PutClose, k)
  {
    EntryStands(cfg, s, k);
    IGood(cfg, s, G.Producer());
    CommitClears(cfg, s, G.Producer());
    FillStore(cfg, Abs(s), k);
  }

  lemma IFillClose(cfg: Config, s: IState, k: nat)
    requires IFill(cfg, s, PutClose, k)
    ensures IFill(cfg, INext(cfg, s, G.Producer()), PutCount, k)
  {
    AbsOf(s, 0);
    IGood(cfg, s, G.Producer());
    WordStep(cfg, s, G.Producer());
    FillClose(cfg, Abs(s), k);
  }

  ghost predicate ITake(cfg: Config, s: IState, st: Get) {
    && Good(cfg, s) && TakeAt(cfg, Abs(s), st) && |s.pcs| >= 2 && s.pcs[0].Plain?
    && (st.GetTake? || s.pcs[1].Plain?)
  }

  lemma IFillCount(cfg: Config, s: IState, k: nat)
    requires IFill(cfg, s, PutCount, k)
    ensures if k + 1 < cfg.n then IFill(cfg, INext(cfg, s, G.Producer()), PutBegin, k + 1)
            else ITake(cfg, INext(cfg, s, G.Producer()), GetBegin)
  {
    AbsOf(s, 0);
    IGood(cfg, s, G.Producer());
    WordStep(cfg, s, G.Producer());
    FillCount(cfg, Abs(s), k);
  }

  lemma ITakeControl(cfg: Config, s: IState, st: Get)
    requires ITake(cfg, s, st) && (st.GetBegin? || st.GetCheck? || st.GetClaim?)
    ensures var st' := if st.GetBegin? then GetCheck else if st.GetCheck? then GetClaim else GetLoad;
            ITake(cfg, INext(cfg, s, G.Consumer()), st')
  {
    AbsOf(s, 1);
    IGood(cfg, s, G.Consumer());
    WordStep(cfg, s, G.Consumer());
    TakeControl(cfg, Abs(s), st);
  }

  lemma ITakeLoad(cfg: Config, s: IState)
    requires ITake(cfg, s, GetLoad)
    ensures ITake(cfg, INext(cfg, s, G.Consumer()), GetTake)
  {
    TakeLoadShows(cfg, s);
    IGood(cfg, s, G.Consumer());
    OthersStay(cfg, s, G.Consumer(), 0);
  }

  lemma TakeLoadShows(cfg: Config, s: IState)
    requires ITake(cfg, s, GetLoad)
    ensures TakeAt(cfg, Abs(INext(cfg, s, G.Consumer())), GetTake)
  {
    AbsOf(s, 1);
    PlainDeqLoad(cfg, s, G.Consumer());
    Simulation(cfg, s, G.Consumer());
    TakeLoad(cfg, Abs(s));
  }

  ghost predicate IHeld(cfg: Config, s: IState) {
    Good(cfg, s) && HeldAt(cfg, Abs(s)) && |s.pcs| >= 2 && s.pcs[0].Plain?
  }

  lemma TakeTick(cfg: Config, s: State)
    requires TakeAt(cfg, s, GetTake)
    ensures TakeAt(cfg, s.(g := Tick(s.g)), GetTake)
  {
  }

  /** The exchange with the cell is invisible; clearing the entry is the take. */
  lemma ITakeExchange(cfg: Config, s: IState)
    requires ITake(cfg, s, GetTake) && s.pcs[1].IDeqExchange?
    ensures ITake(cfg, INext(cfg, s, G.Consumer()), GetTake) && INext(cfg, s, G.Consumer()).pcs[1].IDeqClear?
  {
    IGood(cfg, s, G.Consumer());
    Simulation(cfg, s, G.Consumer());
    TakeTick(cfg, Abs(s));
    assert IPcOk(cfg, s, 1, s.pcs[1]);
  }

  lemma ITakeClear(cfg: Config, s: IState)
    requires ITake(cfg, s, GetTake) && s.pcs[1].IDeqClear?
    ensures var s' := INext(cfg, s, G.Consumer()); IHeld(cfg, s') && Abs(s').pcs[0].Idle?
  {
    IGood(cfg, s, G.Consumer());
    OthersStay(cfg, s, G.Consumer(), 0);
    TakeClearShows(cfg, s);
  }

  lemma TakeClearShows(cfg: Config, s: IState)
    requires ITake(cfg, s, GetTake) && s.pcs[1].IDeqClear?
    ensures var s' := INext(cfg, s, G.Consumer()); HeldAt(cfg, Abs(s')) && Abs(s').pcs[0].Idle?
  {
    assert AbsChoice(cfg, s, G.Consumer()) == G.Consumer();
    Simulation(cfg, s, G.Consumer());
    TakeHolds(cfg, Abs(s));
  }

  // ----- the whole run -----

  lemma IMore(cfg: Config, threads: nat, sch: seq<Choice>, c: Choice) returns (after: seq<Choice>)
    requires cfg.Valid() && cfg.variant.ScqpIdx?
    ensures after == sch + [c] && IRun(cfg, threads, after) == INext(cfg, IRun(cfg, threads, sch), c)
  {
    after := sch + [c];
    assert after[..|sch|] == sch;
  }

  lemma IFillCall(cfg: Config, threads: nat, sch: seq<Choice>, k: nat) returns (after: seq<Choice>)
    requires cfg.Valid() && cfg.variant.ScqpIdx? && IFill(cfg, IRun(cfg, threads, sch), PutBegin, k)
    ensures IFill(cfg, IRun(cfg, threads, after), PutLoad, k)
  {
    IFillControl(cfg, IRun(cfg, threads, sch), PutBegin, k);
    after := IMore(cfg, threads, sch, G.Producer());
    IFillControl(cfg, IRun(cfg, threads, after), PutReadDeq, k);
    after := IMore(cfg, threads, after, G.Producer());
    IFillControl(cfg, IRun(cfg, threads, after), PutReadEnq, k);
    after := IMore(cfg, threads, after, G.Producer());
    IFillControl(cfg, IRun(cfg, threads, after), PutClaim, k);
    after := IMore(cfg, threads, after, G.Producer());
  }

  lemma IFillReturn(cfg: Config, threads: nat, sch: seq<Choice>, k: nat) returns (after: seq<Choice>)
    requires cfg.Valid() && cfg.variant.ScqpIdx? && IFill(cfg, IRun(cfg, threads, sch), PutLoad, k)
    ensures if k + 1 < cfg.n then IFill(cfg, IRun(cfg, threads, after), PutBegin, k + 1)
            else ITake(cfg, IRun(cfg, threads, after), GetBegin)
  {
    IFillLoad(cfg, IRun(cfg, threads, sch), k);
    after := IMore(cfg, threads, sch, G.Producer());
    IFillPlace(cfg, IRun(cfg, threads, after), k);
    after := IMore(cfg, threads, after, G.Producer());
    IFillStore(cfg, IRun(cfg, threads, after), k);
    after := IMore(cfg, threads, after, G.Producer());
    IFillClose(cfg, IRun(cfg, threads, after), k);
    after := IMore(cfg, threads, after, G.Producer());
    IFillCount(cfg, IRun(cfg, threads, after), k);
    after := IMore(cfg, threads, after, G.Producer());
  }

  /** A whole enqueue call. */
  lemma IFillRound(cfg: Config, threads: nat, sch: seq<Choice>, k: nat) returns (after: seq<Choice>)
    requires cfg.Valid() && cfg.variant.ScqpIdx? && IFill(cfg, IRun(cfg, threads, sch), PutBegin, k)
    ensures if k + 1 < cfg.n then IFill(cfg, IRun(cfg, threads, after), PutBegin, k + 1)
            else ITake(cfg, IRun(cfg, threads, after), GetBegin)
  {
    after := IFillCall(cfg, threads, sch, k);
    after := IFillReturn(cfg, threads, after, k);
  }

  lemma {:induction false} IFillAll(cfg: Config, threads: nat, sch: seq<Choice>, k: nat, left: nat)
    returns (after: seq<Choice>)
    requires cfg.Valid() && cfg.variant.ScqpIdx? && k + left + 1 == cfg.n
    requires IFill(cfg, IRun(cfg, threads, sch), PutBegin, k)
    ensures ITake(cfg, IRun(cfg, threads, after), GetBegin)
    decreases left
  {
    after := IFillRound(cfg, threads, sch, k);
    if left > 0 {
      after := IFillAll(cfg, threads, after, k + 1, left - 1);
    }
  }

  lemma ITakeCall(cfg: Config, threads: nat, sch: seq<Choice>) returns (after: seq<Choice>)
    requires cfg.Valid() && cfg.variant.ScqpIdx? && ITake(cfg, IRun(cfg, threads, sch), GetBegin)
    ensures ITake(cfg, IRun(cfg, threads, after), GetTake)
  {
    ITakeControl(cfg, IRun(cfg, threads, sch), GetBegin);
    after := IMore(cfg, threads, sch, G.Consumer());
    ITakeControl(cfg, IRun(cfg, threads, after), GetCheck);
    after := IMore(cfg, threads, after, G.Consumer());
    ITakeControl(cfg, IRun(cfg, threads, after), GetClaim);
    after := IMore(cfg, threads, after, G.Consumer());
    ITakeLoad(cfg, IRun(cfg, threads, after));
    after := IMore(cfg, threads, after, G.Consumer());
  }

  lemma ITakeEnd(cfg: Config, threads: nat, sch: seq<Choice>) returns (after: seq<Choice>)
    requires cfg.Valid() && cfg.variant.ScqpIdx? && ITake(cfg, IRun(cfg, threads, sch), GetTake)
    ensures IHeld(cfg, IRun(cfg, threads, after)) && Abs(IRun(cfg, threads, after)).pcs[0].Idle?
  {
    after := sch;
    AbsOf(IRun(cfg, threads, sch), 1);
    assert IPcOk(cfg, IRun(cfg, threads, sch), 1, IRun(cfg, threads, sch).pcs[1]);
    if IRun(cfg, threads, sch).pcs[1].IDeqExchange? {
      ITakeExchange(cfg, IRun(cfg, threads, sch));
      after := IMore(cfg, threads, sch, G.Consumer());
    }
    ITakeClear(cfg, IRun(cfg, threads, after));
    after := IMore(cfg, threads, after, G.Consumer());
  }

  lemma IAtStart(cfg: Config, threads: nat)
    requires cfg.Valid() && cfg.variant.ScqpIdx? && threads >= 2
    ensures IFill(cfg, IRun(cfg, threads, []), PutBegin, 0)
  {
    InitGood(cfg, threads);
    AtStart(cfg, threads);
    RunInv(cfg, threads, []);
    assert IRun(cfg, threads, []) == IInit(cfg, threads) && Run(cfg, threads, []) == Init(cfg, threads);
  }

  lemma IHold(cfg: Config, threads: nat) returns (sch: seq<Choice>)
    requires cfg.Valid() && cfg.variant.ScqpIdx? && threads >= 2
    ensures IHeld(cfg, IRun(cfg, threads, sch)) && Abs(IRun(cfg, threads, sch)).pcs[0].Idle?
  {
    IAtStart(cfg, threads);
    sch := IFillAll(cfg, threads, [], 0, cfg.n - 1);
    sch := ITakeCall(cfg, threads, sch);
    sch := ITakeEnd(cfg, threads, sch);
  }

  /** A step of the refused call. */
  lemma ICallStep(cfg: Config, threads: nat, sch: seq<Choice>)
    requires cfg.Valid() && cfg.variant.ScqpIdx? && IHeld(cfg, IRun(cfg, threads, sch))
    requires !TouchesSlot(Abs(IRun(cfg, threads, sch)).pcs[0])
    ensures var s' := IRun(cfg, threads, sch + [G.Producer()]);
            && Good(cfg, s') && Abs(s') == Next(cfg, Abs(IRun(cfg, threads, sch)), G.Producer())
            && |s'.pcs| >= 2 && s'.pcs[0].Plain?
  {
    var s := IRun(cfg, threads, sch);
    AbsOf(s, 0);
    IGood(cfg, s, G.Producer());
    WordStep(cfg, s, G.Producer());
    var after := IMore(cfg, threads, sch, G.Producer());
  }

  lemma ICallBegins(cfg: Config, threads: nat, sch: seq<Choice>)
    requires cfg.Valid() && cfg.variant.ScqpIdx? && IHeld(cfg, IRun(cfg, threads, sch))
    requires Abs(IRun(cfg, threads, sch)).pcs[0].Idle?
    ensures var s' := IRun(cfg, threads, sch + [G.Producer()]);
            IHeld(cfg, s') && Abs(s').pcs[0] == EnqReadDeqOk(0, |IRun(cfg, threads, sch).g.log|)
  {
    ICallStep(cfg, threads, sch);
    CallBegins(cfg, Abs(IRun(cfg, threads, sch)));
  }

  lemma ICallReads(cfg: Config, threads: nat, sch: seq<Choice>, op: nat)
    requires cfg.Valid() && cfg.variant.ScqpIdx? && IHeld(cfg, IRun(cfg, threads, sch))
    requires Abs(IRun(cfg, threads, sch)).pcs[0] == EnqReadDeqOk(0, op)
    ensures var s' := IRun(cfg, threads, sch + [G.Producer()]);
            IHeld(cfg, s') && Abs(s').pcs[0] == EnqReadEnqOk(0, op, 0)
  {
    ICallStep(cfg, threads, sch);
    CallReads(cfg, Abs(IRun(cfg, threads, sch)), op);
  }

  lemma ICallRefused(cfg: Config, threads: nat, sch: seq<Choice>, op: nat)
    requires cfg.Valid() && cfg.variant.ScqpIdx? && IHeld(cfg, IRun(cfg, threads, sch))
    requires Abs(IRun(cfg, threads, sch)).pcs[0] == EnqReadEnqOk(0, op, 0)
    ensures IRun(cfg, threads, sch + [G.Producer()]).g.log
            == IRun(cfg, threads, sch).g.log + [EnqRefused(op, |sch|)]
  {
    ICallStep(cfg, threads, sch);
    CallRefused(cfg, Abs(IRun(cfg, threads, sch)), op);
    SameHistory(cfg, threads, sch);
  }

  lemma ICallRuns(cfg: Config, threads: nat, before: seq<Choice>)
    requires cfg.Valid() && cfg.variant.ScqpIdx?
    requires IHeld(cfg, IRun(cfg, threads, before)) && Abs(IRun(cfg, threads, before)).pcs[0].Idle?
    ensures var c, op := G.Producer(), |IRun(cfg, threads, before).g.log|;
            && !AllUsed(IRun(cfg, threads, before + [c])) && !AllUsed(IRun(cfg, threads, before + [c] + [c]))
            && IRun(cfg, threads, before + [c] + [c] + [c]).g.log
               == IRun(cfg, threads, before + [c] + [c]).g.log + [EnqRefused(op, |before| + 2)]
  {
    var c, op := G.Producer(), |IRun(cfg, threads, before).g.log|;
    ICallBegins(cfg, threads, before);
    HeldHasRoom(cfg, IRun(cfg, threads, before + [c]));
    ICallReads(cfg, threads, before + [c], op);
    HeldHasRoom(cfg, IRun(cfg, threads, before + [c] + [c]));
    ICallRefused(cfg, threads, before + [c] + [c], op);
  }

  lemma HeldHasRoom(cfg: Config, s: IState)
    requires IHeld(cfg, s)
    ensures !AllUsed(s)
  {
    UsedIsOccupied(cfg, s);
  }

  lemma ILogGrows(cfg: Config, threads: nat, sch: seq<Choice>, m: nat)
    requires cfg.Valid() && cfg.variant.ScqpIdx? && m <= |sch|
    ensures |IRun(cfg, threads, sch[..m]).g.log| <= |IRun(cfg, threads, sch).g.log|
  {
    SameHistory(cfg, threads, sch);
    SamePrefix(cfg, threads, sch, m);
    LogGrows(cfg, threads, AbsSchedule(cfg, threads, sch), m);
  }

  /** A call that begins at time a has no earlier moments. */
  lemma NotBefore(cfg: Config, threads: nat, sch: seq<Choice>, a: nat, m: nat)
    requires cfg.Valid() && cfg.variant.ScqpIdx? && m <= a <= |sch|
    ensures !IDuring(cfg, threads, sch, |IRun(cfg, threads, sch[..a]).g.log|, m)
  {
    assert sch[..a][..m] == sch[..m];
    ILogGrows(cfg, threads, sch[..a], m);
  }

  /** Index mode, any ring and any two or more threads: a refusal with an unused entry at
      every moment of the call. */
  lemma IndexRefusedWithRoom(cfg: Config, threads: nat) returns (sch: seq<Choice>)
    requires cfg.Valid() && cfg.variant.ScqpIdx? && threads >= 2
    ensures var log := IRun(cfg, threads, sch).g.log;
            && log != [] && log[|log| - 1].EnqRefused? && log[|log| - 1].returned < |sch|
            && forall m: nat :: m <= log[|log| - 1].returned && IDuring(cfg, threads, sch, log[|log| - 1].op, m) ==>
                 !AllUsed(IRun(cfg, threads, sch[..m]))
  {
    var before := IHold(cfg, threads);
    var c, op := G.Producer(), |IRun(cfg, threads, before).g.log|;
    ICallRuns(cfg, threads, before);
    sch := before + [c] + [c] + [c];
    var a := |before|;
    assert sch[..a] == before && sch[..a + 1] == before + [c] && sch[..a + 2] == before + [c] + [c];
    forall m: nat | m <= a + 2 && IDuring(cfg, threads, sch, op, m)
      ensures !AllUsed(IRun(cfg, threads, sch[..m]))
    {
      if m <= a {
        NotBefore(cfg, threads, sch, a, m);
      }
    }
  }

  lemma TwoIndexThreads(cfg: Config, threads: nat)
    requires cfg.Valid() && cfg.variant.ScqpIdx? && threads >= 2
    ensures !IndexRefusesOnlyFull(cfg, threads)
  {
    var sch := IndexRefusedWithRoom(cfg, threads);
    var log := IRun(cfg, threads, sch).g.log;
    assert !IWasFull(cfg, threads, sch, log[|log| - 1]);
  }

  /** Every refusal in every index-mode run of that many threads has a moment of its call
      with every entry used, if and only if there is at most one thread. */
  lemma IndexRefusesOnlyFullIff(cfg: Config, threads: nat)
    requires cfg.Valid() && cfg.variant.ScqpIdx?
    ensures IndexRefusesOnlyFull(cfg, threads) <==> threads <= 1
  {
    if threads >= 2 {
      TwoIndexThreads(cfg, threads);
    } else {
      forall sch: seq<Choice>, p: nat |
        p < |IRun(cfg, threads, sch).g.log| && IRun(cfg, threads, sch).g.log[p].EnqRefused?
        ensures IWasFull(cfg, threads, sch, IRun(cfg, threads, sch).g.log[p])
      {
        FewIndexThreads(cfg, threads, sch, p);
      }
    }
  }
}
