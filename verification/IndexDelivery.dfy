/** What index mode delivers: the pointer-mode theorems carried over by the refinement, and
    where the pointer of a committed ticket is while the side array is in between. */
module IndexDelivery {
  import opened Ring
  import opened TicketQueue
  import opened TicketSafety
  import opened TicketEmpty
  import opened TicketCalls
  import opened IndexQueue
  import opened IndexRefinement

  // ----- pointers between the two exchanges -----

  /** Thread i has exchanged the pointer of ticket u and not yet cleared the entry. */
  predicate Carries(s: IState, i: nat, u: nat) {
    i < |s.pcs| && s.pcs[i].IDeqClear? && s.pcs[i].h == u
  }

  ghost predicate Carried(s: IState) {
    forall u :: u in s.exchanged ==> exists i: nat :: Carries(s, i, u)
  }

  lemma StepExchanged(cfg: Config, s: IState, c: Choice)
    requires ISized(cfg, s) && c.tid < |s.pcs|
    ensures var s' := INext(cfg, s, c);
            && (forall k :: 0 <= k < |s.pcs| && k != c.tid ==> s'.pcs[k] == s.pcs[k])
            && (forall u :: u in s'.exchanged ==> u in s.exchanged || Carries(s', c.tid, u))
            && (forall u :: u in s'.exchanged && Carries(s, c.tid, u) ==> Carries(s', c.tid, u))
  {
  }

  lemma CarriedNext(cfg: Config, s: IState, c: Choice)
    requires ISized(cfg, s) && Carried(s)
    ensures Carried(INext(cfg, s, c))
  {
    var s' := INext(cfg, s, c);
    if c.tid < |s.pcs| {
      StepExchanged(cfg, s, c);
    }
    forall u | u in s'.exchanged ensures exists i: nat :: Carries(s', i, u) {
      if c.tid >= |s.pcs| || !Carries(s', c.tid, u) {
        var i: nat :| Carries(s, i, u);
        assert Carries(s', i, u);
      }
    }
  }

  lemma {:induction false} RunCarried(cfg: Config, threads: nat, sch: seq<Choice>)
    requires cfg.Valid() && cfg.variant.ScqpIdx?
    ensures Carried(IRun(cfg, threads, sch))
  {
    if sch != [] {
      RunCarried(cfg, threads, sch[..|sch| - 1]);
      CarriedNext(cfg, IRun(cfg, threads, sch[..|sch| - 1]), sch[|sch| - 1]);
    }
  }

  // ----- the theorems -----

  /** A run and its mapped run have the same history. */
  lemma SameHistory(cfg: Config, threads: nat, sch: seq<Choice>)
    requires cfg.Valid() && cfg.variant.ScqpIdx?
    ensures var s, a := IRun(cfg, threads, sch), Run(cfg, threads, AbsSchedule(cfg, threads, sch));
            s.g == a.g && s.w == a.w && Good(cfg, s) && Abs(s) == a
  {
    IndexModeRefines(cfg, threads, sch);
    RunInv(cfg, threads, AbsSchedule(cfg, threads, sch));
  }

  /** The same for the index mode: with an argument an idle thread logs a call with it,
      without one it stays idle and nothing is logged. */
  lemma IndexEnqueueStarts(cfg: Config, threads: nat, sch: seq<Choice>, m: nat)
    requires cfg.Valid() && cfg.variant.ScqpIdx? && m < |sch| && sch[m].tid < threads && !sch[m].deq
    requires IRun(cfg, threads, sch[..m]).pcs[sch[m].tid] == Plain(Idle)
    ensures var s, s', c := IRun(cfg, threads, sch[..m]), IRun(cfg, threads, sch[..m + 1]), sch[m];
            && s'.w == s.w && s'.ents == s.ents && s'.ptrs == s.ptrs
            && s'.g.log == s.g.log + (if c.arg.Some? then [EnqCalled(c.arg.value)] else [])
            && (s'.pcs[c.tid] == Plain(Idle) <==> c.arg.None?)
  {
    assert sch[..m + 1][..m] == sch[..m];
  }

  /** At step m an idle thread was told to enqueue v, and log entry op is its call. */
  ghost predicate ICalledAt(cfg: Config, threads: nat, sch: seq<Choice>, op: nat, v: Value, m: nat)
    requires cfg.Valid() && cfg.variant.ScqpIdx?
  {
    && m < |sch| && sch[m].tid < threads && !sch[m].deq && sch[m].arg == Some(v)
    && IRun(cfg, threads, sch[..m]).pcs[sch[m].tid] == Plain(Idle) && |IRun(cfg, threads, sch[..m]).g.log| == op
  }

  ghost predicate ICalled(cfg: Config, threads: nat, sch: seq<Choice>, op: nat, v: Value)
    requires cfg.Valid() && cfg.variant.ScqpIdx?
  {
    exists m: nat :: ICalledAt(cfg, threads, sch, op, v, m)
  }

  lemma AbsChoiceLast(cfg: Config, threads: nat, sch: seq<Choice>)
    requires cfg.Valid() && cfg.variant.ScqpIdx? && sch != []
    ensures var n := |sch| - 1;
            AbsSchedule(cfg, threads, sch)[n] == AbsChoice(cfg, IRun(cfg, threads, sch[..n]), sch[n])
  {
  }

  /** The mapped schedule moves a thread only where the schedule does, with its choice. */
  lemma AbsChoiceAt(cfg: Config, threads: nat, sch: seq<Choice>, m: nat)
    requires cfg.Valid() && cfg.variant.ScqpIdx? && m < |sch|
    ensures AbsSchedule(cfg, threads, sch)[m] == AbsChoice(cfg, IRun(cfg, threads, sch[..m]), sch[m])
  {
    AbsChoiceLast(cfg, threads, sch[..m + 1]);
    assert sch[..m + 1][..m] == sch[..m];
    AbsSchedulePrefix(cfg, threads, sch, m + 1);
  }

  lemma IdleIsIdle(s: IState, i: nat)
    requires i < |s.pcs| && Abs(s).pcs[i].Idle?
    ensures s.pcs[i] == Plain(Idle)
  {
  }

  /** A matching choice that moves a thread is the choice itself, up to a failure. */
  lemma AbsChoiceSame(cfg: Config, s: IState, c: Choice)
    requires ISized(cfg, s) && AbsChoice(cfg, s, c).tid < |s.pcs|
    ensures var a := AbsChoice(cfg, s, c); a.tid == c.tid && a.deq == c.deq && a.arg == c.arg
  {
  }

  lemma CalledThereAt(cfg: Config, threads: nat, sch: seq<Choice>, op: nat, v: Value, m: nat)
    requires cfg.Valid() && cfg.variant.ScqpIdx?
    requires CalledAt(cfg, threads, AbsSchedule(cfg, threads, sch), op, v, m)
    ensures ICalledAt(cfg, threads, sch, op, v, m)
  {
    var s := IRun(cfg, threads, sch[..m]);
    AbsChoiceAt(cfg, threads, sch, m);
    AbsChoiceSame(cfg, s, sch[m]);
    AbsSchedulePrefix(cfg, threads, sch, m);
    SameHistory(cfg, threads, sch[..m]);
    IdleIsIdle(s, sch[m].tid);
  }

  /** A call of the mapped run is a call of the run. */
  lemma CalledThere(cfg: Config, threads: nat, sch: seq<Choice>, op: nat, v: Value)
    requires cfg.Valid() && cfg.variant.ScqpIdx? && Called(cfg, threads, AbsSchedule(cfg, threads, sch), op, v)
    ensures ICalled(cfg, threads, sch, op, v)
  {
    var m: nat :| CalledAt(cfg, threads, AbsSchedule(cfg, threads, sch), op, v, m);
    CalledThereAt(cfg, threads, sch, op, v, m);
  }

  /** What is returned under an enqueue call's ticket is the argument of that call. */
  lemma IndexModeReturnsArgument(cfg: Config, threads: nat, sch: seq<Choice>, p: nat, r: nat)
    requires cfg.Valid() && cfg.variant.ScqpIdx?
    requires var log := IRun(cfg, threads, sch).g.log;
             && p < |log| && r < |log| && log[p].EnqReturned? && log[r].DeqReturned? && log[r].h == log[p].t
    ensures var log := IRun(cfg, threads, sch).g.log; ICalled(cfg, threads, sch, log[p].op, log[r].v)
  {
    SameHistory(cfg, threads, sch);
    ReturnedIsArgument(cfg, threads, AbsSchedule(cfg, threads, sch));
    var log := IRun(cfg, threads, sch).g.log;
    CalledThere(cfg, threads, sch, log[p].op, log[r].v);
  }

  /** Each committed ticket belongs to exactly one enqueue call, and each taken one to a
      dequeue call, returned or on its way out; no enqueue call commits two. */
  lemma IndexModeOneCall(cfg: Config, threads: nat, sch: seq<Choice>)
    requires cfg.Valid() && cfg.variant.ScqpIdx?
    ensures Owned(Abs(IRun(cfg, threads, sch))) && OneEach(Abs(IRun(cfg, threads, sch)))
  {
    SameHistory(cfg, threads, sch);
    CommittedByOneCall(cfg, threads, AbsSchedule(cfg, threads, sch));
  }

  /** The entry of ticket u names its own cell, and the pointer is there or in the hands
      of the dequeuer that exchanged it. */
  ghost predicate Stored(cfg: Config, s: IState, u: nat)
    requires ISized(cfg, s) && u in s.g.commit
  {
    var j := SlotOf(cfg.n, u);
    && s.ents[j].cycle == Cycle(cfg.n, u) && s.ents[j].idx == Some(j)
    && (s.ptrs[j] == Some(s.g.commit[u])
        || exists i: nat :: Carries(s, i, u) && s.pcs[i].value == Some(s.g.commit[u]))
  }

  lemma HeldIsStored(cfg: Config, s: IState, u: nat)
    requires Good(cfg, s) && Carried(s) && u in s.g.commit
    requires Holds(cfg.n, Abs(s).slots, u, s.g.commit[u])
    ensures Stored(cfg, s, u)
  {
    var j := SlotOf(cfg.n, u);
    assert s.ents[j].idx.Some?;
    OccupiedCell(cfg, s, j);
    SameSlotSameCycle(cfg.n, s.g.wrote[j], u);
    if u in s.exchanged {
      var i: nat :| Carries(s, i, u);
      assert IPcOk(cfg, s, i, s.pcs[i]);
    } else {
      assert CellOk(cfg, s, j);
    }
  }

  /** Nothing is lost: a committed pointer was taken under its own ticket, or it is still
      stored with the ticket unclaimed, in work, or given up by the valve. */
  lemma IndexModeKeeps(cfg: Config, threads: nat, sch: seq<Choice>, u: nat)
    requires cfg.Valid() && cfg.variant.ScqpIdx? && u in IRun(cfg, threads, sch).g.commit
    ensures var s := IRun(cfg, threads, sch);
            || (u in s.g.taken && s.g.taken[u] == s.g.commit[u])
            || (Stored(cfg, s, u) && (u >= s.w.head || ClaimedBy(Abs(s).pcs, u) || u in s.g.abandoned))
  {
    SameHistory(cfg, threads, sch);
    RunCarried(cfg, threads, sch);
    CommittedIsKept(cfg, threads, AbsSchedule(cfg, threads, sch), u);
    var s := IRun(cfg, threads, sch);
    if Holds(cfg.n, Abs(s).slots, u, s.g.commit[u]) {
      HeldIsStored(cfg, s, u);
    }
  }

  /** Once a dequeuer has left its slot without a pointer, its ticket is never committed. */
  lemma IndexModeDeadStaysDead(cfg: Config, threads: nat, sch: seq<Choice>, m: nat, i: nat)
    requires cfg.Valid() && cfg.variant.ScqpIdx? && m <= |sch| && i < threads
    requires var s := IRun(cfg, threads, sch[..m]);
             s.pcs[i].Plain? && s.pcs[i].pc.DeqTail? && s.pcs[i].pc.h !in s.g.abandoned
    ensures IRun(cfg, threads, sch[..m]).pcs[i].pc.h !in IRun(cfg, threads, sch).g.commit
  {
    SameHistory(cfg, threads, sch);
    SameHistory(cfg, threads, sch[..m]);
    AbsSchedulePrefix(cfg, threads, sch, m);
    var s := IRun(cfg, threads, sch[..m]);
    assert Abs(s).pcs[i] == s.pcs[i].pc;
    DeadTicketsStayDead(cfg, threads, AbsSchedule(cfg, threads, sch), m, i);
  }
}
