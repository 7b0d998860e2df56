/** Exactly when SCQP's answer "full" is about the slots: every refusal has a moment of its
    call at which every slot held an element, if and only if at most one thread uses the
    queue.  With two, a dequeue that has taken its element and not yet counted it makes a
    ring with an empty slot look full. */
module TicketRefusal {
  import opened Ring
  import opened TicketQueue
  import opened TicketOrder
  import opened TicketEmpty
  import opened TicketSteps
  import opened TicketCalls
  import opened TicketFull
  import G = TicketGiveUp

  /** The refused call had a moment with every slot full. */
  ghost predicate WasFull(cfg: Config, threads: nat, sch: seq<Choice>, e: Event)
    requires cfg.Valid() && e.EnqRefused?
  {
    e.returned <= |sch|
    && exists m: nat :: m <= e.returned && During(cfg, threads, sch, e.op, m) && Full(Run(cfg, threads, sch[..m]))
  }

  ghost predicate RefusesOnlyFull(cfg: Config, threads: nat)
    requires cfg.Valid()
  {
    forall sch: seq<Choice>, p: nat ::
      p < |Run(cfg, threads, sch).g.log| && Run(cfg, threads, sch).g.log[p].EnqRefused? ==>
        WasFull(cfg, threads, sch, Run(cfg, threads, sch).g.log[p])
  }

  // ----- one thread -----

  /** The count of dequeues that was read is still the current one. */
  ghost predicate Current(s: State) {
    |s.pcs| == 1 && (s.pcs[0].EnqReadEnqOk? ==> s.pcs[0].deqSeen == s.w.deqOk)
  }

  lemma CurrentNext(cfg: Config, s: State, c: Choice)
    requires Sized(cfg, s) && Current(s)
    ensures Current(Next(cfg, s, c))
  {
    if c.tid == 0 {
      StepRefuseMove(cfg, s, c);
    }
  }

  lemma {:induction false} RunCurrent(cfg: Config, sch: seq<Choice>)
    requires cfg.Valid()
    ensures Current(Run(cfg, 1, sch))
  {
    if sch != [] {
      RunCurrent(cfg, sch[..|sch| - 1]);
      CurrentNext(cfg, Run(cfg, 1, sch[..|sch| - 1]), sch[|sch| - 1]);
    }
  }

  /** A lone thread that is about to refuse has every slot full. */
  lemma AloneFull(cfg: Config, sch: seq<Choice>)
    requires cfg.Valid() && !cfg.variant.Scq?
    requires var s := Run(cfg, 1, sch); s.pcs[0].EnqReadEnqOk? && s.w.enqOk >= s.pcs[0].deqSeen + cfg.n
    ensures Full(Run(cfg, 1, sch))
  {
    var s := Run(cfg, 1, sch);
    RunCurrent(cfg, sch);
    CountersAreExact(cfg, 1, sch);
    RunOwned(cfg, 1, sch);
    TakenIsDequeued(s);
    RefusalFills(cfg, 1, sch, s.w.deqOk);
  }

  ghost predicate FullThen(cfg: Config, sch: seq<Choice>, e: Event)
    requires cfg.Valid() && e.EnqRefused?
  {
    e.returned <= |sch| && During(cfg, 1, sch, e.op, e.returned) && Full(Run(cfg, 1, sch[..e.returned]))
  }

  lemma FullLater(cfg: Config, sch: seq<Choice>, c: Choice, e: Event)
    requires cfg.Valid() && e.EnqRefused? && FullThen(cfg, sch, e)
    ensures FullThen(cfg, sch + [c], e)
  {
    assert (sch + [c])[..e.returned] == sch[..e.returned];
  }

  lemma FullNow(cfg: Config, sch: seq<Choice>, c: Choice, p: nat)
    requires cfg.Valid() && !cfg.variant.Scq? && c.tid == 0
    requires var s, s' := Run(cfg, 1, sch), Next(cfg, Run(cfg, 1, sch), c);
             |s.g.log| <= p < |s'.g.log| && s'.g.log[p].EnqRefused?
    ensures FullThen(cfg, sch + [c], Next(cfg, Run(cfg, 1, sch), c).g.log[p])
  {
    var s := Run(cfg, 1, sch);
    StepRefuseMove(cfg, s, c);
    AloneFull(cfg, sch);
    RunLogInv(cfg, 1, sch);
    assert LogPc(s.g, s.pcs[0]);
    assert (sch + [c])[..|sch|] == sch;
  }

  lemma FullStep(cfg: Config, sch: seq<Choice>, c: Choice, p: nat)
    requires cfg.Valid() && !cfg.variant.Scq?
    requires forall q :: 0 <= q < |Run(cfg, 1, sch).g.log| && Run(cfg, 1, sch).g.log[q].EnqRefused? ==>
               FullThen(cfg, sch, Run(cfg, 1, sch).g.log[q])
    requires var log := Next(cfg, Run(cfg, 1, sch), c).g.log; p < |log| && log[p].EnqRefused?
    ensures FullThen(cfg, sch + [c], Next(cfg, Run(cfg, 1, sch), c).g.log[p])
  {
    var s := Run(cfg, 1, sch);
    if c.tid == 0 {
      StepRefuseMove(cfg, s, c);
    }
    if p < |s.g.log| {
      FullLater(cfg, sch, c, s.g.log[p]);
    } else {
      FullNow(cfg, sch, c, p);
    }
  }

  lemma {:induction false} AloneRefusesFull(cfg: Config, sch: seq<Choice>, p: nat)
    requires cfg.Valid() && !cfg.variant.Scq?
    requires p < |Run(cfg, 1, sch).g.log| && Run(cfg, 1, sch).g.log[p].EnqRefused?
    ensures FullThen(cfg, sch, Run(cfg, 1, sch).g.log[p])
    decreases |sch|
  {
    if sch != [] {
      var before, c := sch[..|sch| - 1], sch[|sch| - 1];
      var log := Run(cfg, 1, before).g.log;
      forall q | 0 <= q < |log| && log[q].EnqRefused? ensures FullThen(cfg, before, log[q]) {
        AloneRefusesFull(cfg, before, q);
      }
      FullStep(cfg, before, c, p);
      assert before + [c] == sch;
    }
  }

  // ----- SCQ never refuses -----

  ghost predicate NoRefusal(s: State) {
    && (forall i :: 0 <= i < |s.pcs| ==> !s.pcs[i].EnqReadDeqOk? && !s.pcs[i].EnqReadEnqOk?)
    && (forall p :: 0 <= p < |s.g.log| ==> !s.g.log[p].EnqRefused?)
  }

  lemma ScqSlot(cfg: Config, w: Words, sl: Slot, g: Hist, pc: Pc, c: Choice)
    requires cfg.variant.Scq? && TouchesSlot(pc) && SlotOf(cfg.n, SlotTicket(pc)) < |g.wrote|
    ensures !SlotStep(cfg, w, sl, g, pc, c).pc.EnqReadDeqOk?
  {
  }

  lemma ScqControl(cfg: Config, w: Words, g: Hist, pc: Pc, c: Choice)
    requires cfg.variant.Scq? && !TouchesSlot(pc) && !pc.EnqReadDeqOk?
    ensures !Control(cfg, w, g, pc, c).pc.EnqReadDeqOk?
  {
  }

  lemma NoRefusalNext(cfg: Config, s: State, c: Choice)
    requires Sized(cfg, s) && cfg.variant.Scq? && NoRefusal(s)
    ensures NoRefusal(Next(cfg, s, c))
  {
    if c.tid < |s.pcs| {
      var pc := s.pcs[c.tid];
      StepRefuseMove(cfg, s, c);
      if TouchesSlot(pc) {
        ScqSlot(cfg, s.w, s.slots[SlotOf(cfg.n, SlotTicket(pc))], s.g, pc, c);
      } else {
        ScqControl(cfg, s.w, s.g, pc, c);
      }
    }
  }

  lemma {:induction false} ScqNeverRefuses(cfg: Config, threads: nat, sch: seq<Choice>)
    requires cfg.Valid() && cfg.variant.Scq?
    ensures NoRefusal(Run(cfg, threads, sch))
  {
    if sch != [] {
      ScqNeverRefuses(cfg, threads, sch[..|sch| - 1]);
      NoRefusalNext(cfg, Run(cfg, threads, sch[..|sch| - 1]), sch[|sch| - 1]);
    }
  }

  // ----- two threads: the states of the run -----

  ghost predicate Scene(cfg: Config, s: State, head: nat, tail: nat, enqOk: nat) {
    && !cfg.variant.Scq? && Sized(cfg, s) && |s.pcs| >= 2
    && s.w == Words(head, tail, cfg.ThresholdReset(), 0, enqOk)
  }

  datatype Put = PutBegin | PutReadDeq | PutReadEnq | PutClaim | PutLoad | PutStore | PutClose | PutCount

  predicate HasTicket(st: Put) { st.PutLoad? || st.PutStore? || st.PutClose? || st.PutCount? }

  ghost predicate PutPc(pc: Pc, slots: seq<Slot>, n: nat, st: Put, t: nat)
    requires RingSize(n) && |slots| == n
  {
    match st
    case PutBegin => pc.Idle?
    case PutReadDeq => pc.EnqReadDeqOk? && pc.v == 0
    case PutReadEnq => pc.EnqReadEnqOk? && pc.v == 0 && pc.deqSeen == 0
    case PutClaim => pc.EnqClaim? && pc.v == 0
    case PutLoad => pc.EnqLoad? && pc.v == 0 && pc.t == t
    case PutStore => pc.EnqCas? && pc.v == 0 && pc.t == t && pc.ent == slots[SlotOf(n, t)]
    case PutClose => pc.EnqReadThreshold? && pc.t == t
    case PutCount => pc.EnqCount? && pc.t == t
  }

  /** The producer fills the ring: call number k, with ticket n + k. */
  ghost predicate FillAt(cfg: Config, s: State, st: Put, k: nat) {
    && k < cfg.n && Scene(cfg, s, cfg.n, cfg.n + k + (if HasTicket(st) then 1 else 0), k)
    && s.pcs[1].Idle? && PutPc(s.pcs[0], s.slots, cfg.n, st, cfg.n + k)
    && (if st.PutClose? || st.PutCount? then G.Laid(cfg.n, s.slots, cfg.n + k + 1, cfg.n, G.First(cfg.n))
        else G.Laid(cfg.n, s.slots, cfg.n + k, cfg.n, if k == 0 then G.Blank() else G.First(cfg.n)))
  }

  datatype Get = GetBegin | GetCheck | GetClaim | GetLoad | GetTake

  ghost predicate GetPc(pc: Pc, st: Get, h: nat) {
    match st
    case GetBegin => pc.Idle?
    case GetCheck => pc.DeqReadThreshold?
    case GetClaim => pc.DeqClaim?
    case GetLoad => pc.DeqLoad? && pc.h == h
    case GetTake => pc.DeqTake? && pc.h == h
  }

  /** The consumer takes the first element. */
  ghost predicate TakeAt(cfg: Config, s: State, st: Get) {
    && Scene(cfg, s, cfg.n + (if st.GetLoad? || st.GetTake? then 1 else 0), 2 * cfg.n, cfg.n)
    && s.pcs[0].Idle? && GetPc(s.pcs[1], st, cfg.n)
    && G.Laid(cfg.n, s.slots, 2 * cfg.n, cfg.n, G.First(cfg.n))
  }

  /** It has taken it and not counted it: the first slot is empty. */
  ghost predicate HeldAt(cfg: Config, s: State) {
    && Scene(cfg, s, cfg.n + 1, 2 * cfg.n, cfg.n) && s.pcs[1].DeqCount?
    && s.slots[SlotOf(cfg.n, cfg.n)].val.None?
  }

  // ----- one step along the run -----

  lemma FillControl(cfg: Config, s: State, st: Put, k: nat)
    requires FillAt(cfg, s, st, k) && (st.PutBegin? || st.PutReadDeq? || st.PutReadEnq? || st.PutClaim?)
    ensures var st' := if st.PutBegin? then PutReadDeq else if st.PutReadDeq? then PutReadEnq
                       else if st.PutReadEnq? then PutClaim else PutLoad;
            FillAt(cfg, Next(cfg, s, G.Producer()), st', k)
  {
    ControlMoves(cfg, s, G.Producer());
  }

  lemma FillLoad(cfg: Config, s: State, k: nat)
    requires FillAt(cfg, s, PutLoad, k)
    ensures FillAt(cfg, Next(cfg, s, G.Producer()), PutStore, k)
  {
    G.LaidFill(cfg.n, s.slots, k);
    LoadFree(cfg, s, G.Producer());
  }

  lemma FillStore(cfg: Config, s: State, k: nat)
    requires FillAt(cfg, s, PutStore, k)
    ensures FillAt(cfg, Next(cfg, s, G.Producer()), PutClose, k)
  {
    G.LaidFill(cfg.n, s.slots, k);
    CommitHits(cfg, s, G.Producer());
  }

  lemma FillClose(cfg: Config, s: State, k: nat)
    requires FillAt(cfg, s, PutClose, k)
    ensures FillAt(cfg, Next(cfg, s, G.Producer()), PutCount, k)
  {
    ControlMoves(cfg, s, G.Producer());
  }

  lemma FillCount(cfg: Config, s: State, k: nat)
    requires FillAt(cfg, s, PutCount, k)
    ensures if k + 1 < cfg.n then FillAt(cfg, Next(cfg, s, G.Producer()), PutBegin, k + 1)
            else TakeAt(cfg, Next(cfg, s, G.Producer()), GetBegin)
  {
    ControlMoves(cfg, s, G.Producer());
  }

  lemma TakeControl(cfg: Config, s: State, st: Get)
    requires TakeAt(cfg, s, st) && (st.GetBegin? || st.GetCheck? || st.GetClaim?)
    ensures var st' := if st.GetBegin? then GetCheck else if st.GetCheck? then GetClaim else GetLoad;
            TakeAt(cfg, Next(cfg, s, G.Consumer()), st')
  {
    ControlMoves(cfg, s, G.Consumer());
  }

  lemma TakeLoad(cfg: Config, s: State)
    requires TakeAt(cfg, s, GetLoad)
    ensures TakeAt(cfg, Next(cfg, s, G.Consumer()), GetTake)
  {
    LoadOwn(cfg, s, G.Consumer());
  }

  lemma TakeHolds(cfg: Config, s: State)
    requires TakeAt(cfg, s, GetTake)
    ensures HeldAt(cfg, Next(cfg, s, G.Consumer())) && Next(cfg, s, G.Consumer()).pcs[0].Idle?
  {
  }

  /** The refused call: three steps, all with the first slot empty. */
  lemma CallBegins(cfg: Config, s: State)
    requires HeldAt(cfg, s) && s.pcs[0].Idle?
    ensures var s' := Next(cfg, s, G.Producer());
            HeldAt(cfg, s') && s'.pcs[0] == EnqReadDeqOk(0, |s.g.log|)
  {
    ControlMoves(cfg, s, G.Producer());
  }

  lemma CallReads(cfg: Config, s: State, op: nat)
    requires HeldAt(cfg, s) && s.pcs[0] == EnqReadDeqOk(0, op)
    ensures var s' := Next(cfg, s, G.Producer());
            HeldAt(cfg, s') && s'.pcs[0] == EnqReadEnqOk(0, op, 0)
  {
    ControlMoves(cfg, s, G.Producer());
  }

  lemma CallRefused(cfg: Config, s: State, op: nat)
    requires HeldAt(cfg, s) && s.pcs[0] == EnqReadEnqOk(0, op, 0)
    ensures Next(cfg, s, G.Producer()).g.log == s.g.log + [EnqRefused(op, s.g.clock)]
  {
    ControlMoves(cfg, s, G.Producer());
  }

  // ----- the whole run -----

  lemma FillCall(cfg: Config, threads: nat, sch: seq<Choice>, k: nat) returns (after: seq<Choice>)
    requires cfg.Valid() && FillAt(cfg, Run(cfg, threads, sch), PutBegin, k)
    ensures FillAt(cfg, Run(cfg, threads, after), PutLoad, k)
  {
    FillControl(cfg, Run(cfg, threads, sch), PutBegin, k);
    after := G.More(cfg, threads, sch, G.Producer());
    FillControl(cfg, Run(cfg, threads, after), PutReadDeq, k);
    after := G.More(cfg, threads, after, G.Producer());
    FillControl(cfg, Run(cfg, threads, after), PutReadEnq, k);
    after := G.More(cfg, threads, after, G.Producer());
    FillControl(cfg, Run(cfg, threads, after), PutClaim, k);
    after := G.More(cfg, threads, after, G.Producer());
  }

  lemma FillReturn(cfg: Config, threads: nat, sch: seq<Choice>, k: nat) returns (after: seq<Choice>)
    requires cfg.Valid() && FillAt(cfg, Run(cfg, threads, sch), PutLoad, k)
    ensures if k + 1 < cfg.n then FillAt(cfg, Run(cfg, threads, after), PutBegin, k + 1)
            else TakeAt(cfg, Run(cfg, threads, after), GetBegin)
  {
    FillLoad(cfg, Run(cfg, threads, sch), k);
    after := G.More(cfg, threads, sch, G.Producer());
    FillStore(cfg, Run(cfg, threads, after), k);
    after := G.More(cfg, threads, after, G.Producer());
    FillClose(cfg, Run(cfg, threads, after), k);
    after := G.More(cfg, threads, after, G.Producer());
    FillCount(cfg, Run(cfg, threads, after), k);
    after := G.More(cfg, threads, after, G.Producer());
  }

  lemma {:induction false} FillAll(cfg: Config, threads: nat, sch: seq<Choice>, k: nat) returns (after: seq<Choice>)
    requires cfg.Valid() && FillAt(cfg, Run(cfg, threads, sch), PutBegin, k)
    ensures TakeAt(cfg, Run(cfg, threads, after), GetBegin)
    decreases cfg.n - k
  {
    after := FillCall(cfg, threads, sch, k);
    after := FillReturn(cfg, threads, after, k);
    if k + 1 < cfg.n {
      after := FillAll(cfg, threads, after, k + 1);
    }
  }

  lemma TakeCall(cfg: Config, threads: nat, sch: seq<Choice>) returns (after: seq<Choice>)
    requires cfg.Valid() && TakeAt(cfg, Run(cfg, threads, sch), GetBegin)
    ensures HeldAt(cfg, Run(cfg, threads, after)) && Run(cfg, threads, after).pcs[0].Idle?
  {
    TakeControl(cfg, Run(cfg, threads, sch), GetBegin);
    after := G.More(cfg, threads, sch, G.Consumer());
    TakeControl(cfg, Run(cfg, threads, after), GetCheck);
    after := G.More(cfg, threads, after, G.Consumer());
    TakeControl(cfg, Run(cfg, threads, after), GetClaim);
    after := G.More(cfg, threads, after, G.Consumer());
    TakeLoad(cfg, Run(cfg, threads, after));
    after := G.More(cfg, threads, after, G.Consumer());
    TakeHolds(cfg, Run(cfg, threads, after));
    after := G.More(cfg, threads, after, G.Consumer());
  }

  lemma AtStart(cfg: Config, threads: nat)
    requires cfg.Valid() && !cfg.variant.Scq? && threads >= 2
    ensures FillAt(cfg, Run(cfg, threads, []), PutBegin, 0)
  {
    assert Run(cfg, threads, []) == Init(cfg, threads);
  }

  lemma Held(cfg: Config, threads: nat) returns (sch: seq<Choice>)
    requires cfg.Valid() && !cfg.variant.Scq? && threads >= 2
    ensures HeldAt(cfg, Run(cfg, threads, sch)) && Run(cfg, threads, sch).pcs[0].Idle?
  {
    AtStart(cfg, threads);
    sch := FillAll(cfg, threads, [], 0);
    sch := TakeCall(cfg, threads, sch);
  }

  lemma {:induction false} LogGrows(cfg: Config, threads: nat, sch: seq<Choice>, m: nat)
    requires cfg.Valid() && m <= |sch|
    ensures |Run(cfg, threads, sch[..m]).g.log| <= |Run(cfg, threads, sch).g.log|
  {
    if m == |sch| {
      assert sch[..m] == sch;
    } else {
      var before, c := sch[..|sch| - 1], sch[|sch| - 1];
      LogGrows(cfg, threads, before, m);
      assert before[..m] == sch[..m];
      if c.tid < threads {
        StepRefuseMove(cfg, Run(cfg, threads, before), c);
      }
    }
  }

  /** The three choices of the refused call, and the states between them. */
  lemma CallRuns(cfg: Config, threads: nat, before: seq<Choice>)
    requires cfg.Valid() && HeldAt(cfg, Run(cfg, threads, before)) && Run(cfg, threads, before).pcs[0].Idle?
    ensures var c, op := G.Producer(), |Run(cfg, threads, before).g.log|;
            && HeldAt(cfg, Run(cfg, threads, before + [c])) && HeldAt(cfg, Run(cfg, threads, before + [c] + [c]))
            && Run(cfg, threads, before + [c] + [c] + [c]).g.log
               == Run(cfg, threads, before + [c] + [c]).g.log + [EnqRefused(op, |before| + 2)]
  {
    var c, op := G.Producer(), |Run(cfg, threads, before).g.log|;
    CallBegins(cfg, Run(cfg, threads, before));
    RunSnoc(cfg, threads, before, c);
    CallReads(cfg, Run(cfg, threads, before + [c]), op);
    RunSnoc(cfg, threads, before + [c], c);
    CallRefused(cfg, Run(cfg, threads, before + [c] + [c]), op);
    RunSnoc(cfg, threads, before + [c] + [c], c);
  }

  /** In every ring and with any two or more threads SCQP refuses a value although a slot
      is empty at every moment of the call. */
  lemma RefusedWithRoom(cfg: Config, threads: nat) returns (sch: seq<Choice>)
    requires cfg.Valid() && !cfg.variant.Scq? && threads >= 2
    ensures var log := Run(cfg, threads, sch).g.log;
            && log != [] && log[|log| - 1].EnqRefused? && log[|log| - 1].returned < |sch|
            && forall m: nat :: m <= log[|log| - 1].returned && During(cfg, threads, sch, log[|log| - 1].op, m) ==>
                 Run(cfg, threads, sch[..m]).slots[SlotOf(cfg.n, cfg.n)].val.None?
  {
    var before := Held(cfg, threads);
    var c, op := G.Producer(), |Run(cfg, threads, before).g.log|;
    CallRuns(cfg, threads, before);
    sch := before + [c] + [c] + [c];
    forall m: nat | m <= |before| + 2 && During(cfg, threads, sch, op, m)
      ensures Run(cfg, threads, sch[..m]).slots[SlotOf(cfg.n, cfg.n)].val.None?
    {
      if m <= |before| {
        assert sch[..m] == before[..m];
        LogGrows(cfg, threads, before, m);
      } else if m == |before| + 1 {
        assert sch[..m] == before + [c];
      } else {
        assert sch[..m] == before + [c] + [c];
      }
    }
  }

  lemma TwoThreadsRefuse(cfg: Config, threads: nat)
    requires cfg.Valid() && !cfg.variant.Scq? && threads >= 2
    ensures !RefusesOnlyFull(cfg, threads)
  {
    var sch := RefusedWithRoom(cfg, threads);
    var log := Run(cfg, threads, sch).g.log;
    assert !WasFull(cfg, threads, sch, log[|log| - 1]);
  }

  lemma FewThreadsRefuseFull(cfg: Config, threads: nat, sch: seq<Choice>, p: nat)
    requires cfg.Valid() && (cfg.variant.Scq? || threads <= 1)
    requires p < |Run(cfg, threads, sch).g.log| && Run(cfg, threads, sch).g.log[p].EnqRefused?
    ensures WasFull(cfg, threads, sch, Run(cfg, threads, sch).g.log[p])
  {
    if cfg.variant.Scq? {
      ScqNeverRefuses(cfg, threads, sch);
    } else if threads == 0 {
      G.NobodyLogs(cfg, sch);
    } else {
      AloneRefusesFull(cfg, sch, p);
    }
  }

  /** Every refusal in every run of that many threads has a moment of its call with every
      slot full, if and only if the queue is SCQ, which never refuses, or there is at most
      one thread. */
  lemma RefusesOnlyFullIff(cfg: Config, threads: nat)
    requires cfg.Valid()
    ensures RefusesOnlyFull(cfg, threads) <==> cfg.variant.Scq? || threads <= 1
  {
    if !cfg.variant.Scq? && threads >= 2 {
      TwoThreadsRefuse(cfg, threads);
    } else {
      forall sch: seq<Choice>, p: nat |
        p < |Run(cfg, threads, sch).g.log| && Run(cfg, threads, sch).g.log[p].EnqRefused?
        ensures WasFull(cfg, threads, sch, Run(cfg, threads, sch).g.log[p])
      {
        FewThreadsRefuseFull(cfg, threads, sch, p);
      }
    }
  }
}
