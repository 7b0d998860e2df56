/** The retry valve in the index mode of SCQP: the run that fires it in pointer mode has a
    counterpart with the side array, so the condition is the same. */
module IndexValve {
  import opened Ring
  import opened TicketQueue
  import opened TicketSafety
  import opened TicketOrder
  import opened TicketValve
  import opened IndexQueue
  import opened IndexRefinement
  import opened IndexDelivery

  ghost predicate IndexNeverAbandons(cfg: Config, consumers: nat)
    requires cfg.Valid() && cfg.variant.ScqpIdx?
  {
    forall threads: nat, sch: seq<Choice>, who: set<nat> ::
      |who| <= consumers && ConsumersIn(sch, who) ==> IRun(cfg, threads, sch).g.abandoned == {}
  }

  predicate Uncommitted(p: Point) {
    IsA(p) || (IsP(p) && !p.PThreshold? && !p.PCount?)
  }

  /** The side array is clear until the producer places its pointer. */
  ghost predicate Ready(s: IState, p: Point) {
    && |s.pcs| == 3
    && (p.PLoad? ==> s.pcs[1].Plain?)
    && (Uncommitted(p) && !s.pcs[1].IEnqCas? ==> forall j :: 0 <= j < |s.ptrs| ==> s.ptrs[j] == None)
  }

  ghost predicate IReached(cfg: Config, sch: seq<Choice>, p: Point) {
    && cfg.Valid() && cfg.variant.ScqpIdx? && ConsumersIn(sch, {0, 2})
    && At(cfg, Abs(IRun(cfg, 3, sch)), p) && Ready(IRun(cfg, 3, sch), p)
  }

  lemma IRunSnoc(cfg: Config, threads: nat, sch: seq<Choice>, c: Choice)
    requires cfg.Valid() && cfg.variant.ScqpIdx?
    ensures IRun(cfg, threads, sch + [c]) == INext(cfg, IRun(cfg, threads, sch), c)
  {
    assert (sch + [c])[..|sch|] == sch;
  }

  lemma RunGood(cfg: Config, threads: nat, sch: seq<Choice>)
    requires cfg.Valid() && cfg.variant.ScqpIdx?
    ensures Good(cfg, IRun(cfg, threads, sch))
  {
    IndexModeRefines(cfg, threads, sch);
    RunInv(cfg, threads, AbsSchedule(cfg, threads, sch));
  }

  lemma AtTick(cfg: Config, s: State, p: Point)
    requires At(cfg, s, p)
    ensures At(cfg, s.(g := Tick(s.g)), p)
  {
  }

  /** Placing the pointer is invisible in pointer mode. */
  lemma PlaceStep(cfg: Config, s: IState)
    requires Good(cfg, s) && At(cfg, Abs(s), PCas) && Ready(s, PCas) && s.pcs[1].IEnqPlace?
    ensures var s' := INext(cfg, s, Mover(PCas));
            At(cfg, Abs(s'), PCas) && Ready(s', PCas) && s'.pcs[1].IEnqCas?
  {
    var c := Mover(PCas);
    Simulation(cfg, s, c);
    AtTick(cfg, Abs(s), PCas);
    assert s.ptrs[SlotOf(cfg.n, s.pcs[1].t)] == None;
  }

  /** The moving thread is where the abstraction shows it. */
  lemma SameChoice(cfg: Config, s: IState, p: Point)
    requires ISized(cfg, s) && At(cfg, Abs(s), p) && Ready(s, p) && !p.Over?
    requires p.PCas? ==> !s.pcs[1].IEnqPlace?
    ensures AbsChoice(cfg, s, Mover(p)) == Mover(p)
    ensures Uncommitted(p) && !p.PCas? ==> s.pcs[Mover(p).tid].Plain?
  {
    assert Abs(s).pcs[Mover(p).tid] == AbsPc(s.g, s.pcs[Mover(p).tid]);
  }

  lemma ProducerAt(cfg: Config, s: IState, p: Point)
    requires ISized(cfg, s) && At(cfg, Abs(s), p) && Ready(s, p)
    ensures p.PClaim? ==> s.pcs[1].Plain? && s.pcs[1].pc.EnqClaim?
    ensures Uncommitted(p) && !p.PCas? ==> !s.pcs[1].IEnqCas?
  {
    assert Abs(s).pcs[1] == AbsPc(s.g, s.pcs[1]);
  }

  lemma PlainStep(cfg: Config, s: IState, c: Choice)
    requires ISized(cfg, s) && c.tid < |s.pcs| && s.pcs[c.tid].Plain?
    ensures INext(cfg, s, c).ptrs == s.ptrs
    ensures s.pcs[c.tid].pc.EnqClaim? ==> INext(cfg, s, c).pcs[c.tid].Plain?
  {
  }

  lemma ReadyNext(cfg: Config, s: IState, p: Point)
    requires ISized(cfg, s) && Ready(s, p) && !p.Over?
    requires Uncommitted(p) && !p.PCas? ==> s.pcs[Mover(p).tid].Plain?
    requires p.PClaim? ==> s.pcs[1].Plain? && s.pcs[1].pc.EnqClaim?
    requires Uncommitted(p) && !p.PCas? ==> !s.pcs[1].IEnqCas?
    ensures Ready(INext(cfg, s, Mover(p)), Succ(cfg.n, p))
  {
    if Uncommitted(p) && !p.PCas? {
      PlainStep(cfg, s, Mover(p));
    }
  }

  lemma VisibleStep(cfg: Config, s: IState, p: Point)
    requires Good(cfg, s) && At(cfg, Abs(s), p) && Ready(s, p) && !p.Over?
    requires p.PCas? ==> !s.pcs[1].IEnqPlace?
    ensures var s' := INext(cfg, s, Mover(p));
            At(cfg, Abs(s'), Succ(cfg.n, p)) && Ready(s', Succ(cfg.n, p))
  {
    SameChoice(cfg, s, p);
    Simulation(cfg, s, Mover(p));
    Step(cfg, Abs(s), p);
    ProducerAt(cfg, s, p);
    ReadyNext(cfg, s, p);
  }

  lemma IOnward(cfg: Config, sch: seq<Choice>, p: Point)
    requires IReached(cfg, sch, p) && !p.Over?
    requires p.PCas? ==> !IRun(cfg, 3, sch).pcs[1].IEnqPlace?
    ensures IReached(cfg, sch + [Mover(p)], Succ(cfg.n, p))
  {
    RunGood(cfg, 3, sch);
    VisibleStep(cfg, IRun(cfg, 3, sch), p);
    IRunSnoc(cfg, 3, sch, Mover(p));
  }

  lemma IPlaceOnward(cfg: Config, sch: seq<Choice>)
    requires IReached(cfg, sch, PCas) && IRun(cfg, 3, sch).pcs[1].IEnqPlace?
    ensures IReached(cfg, sch + [Mover(PCas)], PCas) && IRun(cfg, 3, sch + [Mover(PCas)]).pcs[1].IEnqCas?
  {
    RunGood(cfg, 3, sch);
    PlaceStep(cfg, IRun(cfg, 3, sch));
    IRunSnoc(cfg, 3, sch, Mover(PCas));
  }

  lemma {:induction false} IDrive(cfg: Config, sch: seq<Choice>, p: Point, d: nat) returns (after: seq<Choice>)
    requires IReached(cfg, sch, p)
    requires cfg.n > 0 && InRange(cfg.n, p) && d == Distance(cfg.n, p)
    ensures IReached(cfg, after, Over)
    decreases d
  {
    if d == 0 {
      after := sch;
    } else {
      var here := sch;
      if p.PCas? && IRun(cfg, 3, sch).pcs[1].IEnqPlace? {
        IPlaceOnward(cfg, sch);
        here := sch + [Mover(PCas)];
      }
      IOnward(cfg, here, p);
      Closer(cfg.n, p);
      after := IDrive(cfg, here + [Mover(p)], Succ(cfg.n, p), d - 1);
    }
  }

  lemma IAtStart(cfg: Config)
    requires cfg.Valid() && cfg.variant.ScqpIdx?
    ensures IReached(cfg, [], ABegin)
  {
    InitGood(cfg, 3);
    AtStart(cfg);
    assert IRun(cfg, 3, []) == IInit(cfg, 3) && Run(cfg, 3, []) == Init(cfg, 3);
  }

  /** Index mode, two consumers: an enqueue returns and its pointer is given up. */
  lemma IndexValveFires(cfg: Config) returns (sch: seq<Choice>)
    requires cfg.Valid() && cfg.variant.ScqpIdx?
    ensures ConsumersIn(sch, {0, 2})
    ensures var g := IRun(cfg, 3, sch).g;
            ReturnedBy(g, cfg.n) && g.commit == map[cfg.n := 0] && g.taken == map[] && g.abandoned == {cfg.n}
  {
    IAtStart(cfg);
    sch := IDrive(cfg, [], ABegin, Distance(cfg.n, ABegin));
  }

  /** An abandoned ticket holds a committed pointer that no continuation returns. */
  lemma IndexAbandonedIsLost(cfg: Config, threads: nat, sch: seq<Choice>, m: nat, u: nat)
    requires cfg.Valid() && cfg.variant.ScqpIdx? && m <= |sch| && u in IRun(cfg, threads, sch[..m]).g.abandoned
    ensures var g := IRun(cfg, threads, sch).g;
            && u in g.commit && u !in g.taken
            && forall p :: 0 <= p < |g.log| && g.log[p].DeqReturned? ==> g.log[p].h != u
  {
    SameHistory(cfg, threads, sch);
    SameHistory(cfg, threads, sch[..m]);
    AbsSchedulePrefix(cfg, threads, sch, m);
    AbandonedIsLost(cfg, threads, AbsSchedule(cfg, threads, sch), m, u);
  }

  lemma {:induction false} AbsConsumers(cfg: Config, threads: nat, sch: seq<Choice>, who: set<nat>)
    requires cfg.Valid() && cfg.variant.ScqpIdx? && ConsumersIn(sch, who)
    ensures ConsumersIn(AbsSchedule(cfg, threads, sch), who)
  {
    if sch != [] {
      AbsConsumers(cfg, threads, sch[..|sch| - 1], who);
    }
  }

  lemma IndexTwoConsumersLose(cfg: Config, consumers: nat)
    requires cfg.Valid() && cfg.variant.ScqpIdx? && consumers >= 2
    ensures !IndexNeverAbandons(cfg, consumers)
  {
    var sch := IndexValveFires(cfg);
    var who: set<nat> := {0, 2};
    assert |who| == 2 && ConsumersIn(sch, who);
    assert IRun(cfg, 3, sch).g.abandoned == {cfg.n};
  }

  /** Index mode gives no element up in any run with at most that many consumers if and
      only if there is at most one. */
  lemma IndexNeverAbandonsIff(cfg: Config, consumers: nat)
    requires cfg.Valid() && cfg.variant.ScqpIdx?
    ensures IndexNeverAbandons(cfg, consumers) <==> consumers <= 1
  {
    if consumers <= 1 {
      forall threads: nat, sch: seq<Choice>, who: set<nat> | |who| <= consumers && ConsumersIn(sch, who)
        ensures IRun(cfg, threads, sch).g.abandoned == {}
      {
        IndexModeRefines(cfg, threads, sch);
        AbsConsumers(cfg, threads, sch, who);
        FewConsumersKeep(cfg, threads, AbsSchedule(cfg, threads, sch), who);
      }
    } else {
      IndexTwoConsumersLose(cfg, consumers);
    }
  }
}
