/** Tickets and calls, over every run: each committed ticket belongs to exactly one enqueue
    call, and each taken one to exactly one dequeue call, returned or still on its way out.
    So no call stores or delivers twice, and what it stores is what its caller passed. */
module TicketCalls {
  import opened Ring
  import opened TicketQueue
  import opened TicketOrder
  import opened TicketEmpty

  // ----- who owns a ticket -----

  /** Some thread has committed ticket u and not yet returned. */
  ghost predicate Storing(pcs: seq<Pc>, u: nat) {
    exists i :: 0 <= i < |pcs| && DoneEnq(pcs[i]) == Some(u)
  }

  /** Some thread has taken ticket u and not yet returned. */
  ghost predicate Delivering(pcs: seq<Pc>, u: nat) {
    exists i :: 0 <= i < |pcs| && DoneDeq(pcs[i]) == Some(u)
  }

  ghost predicate DeliveredBy(g: Hist, u: nat) {
    exists q :: 0 <= q < |g.log| && g.log[q].DeqReturned? && g.log[q].h == u
  }

  ghost predicate Owned(s: State) {
    && (forall u :: u in s.g.commit ==> ReturnedBy(s.g, u) || Storing(s.pcs, u))
    && (forall u :: u in s.g.taken ==> DeliveredBy(s.g, u) || Delivering(s.pcs, u))
  }

  // ----- every step -----

  /** New tickets are the moving thread's own, and it keeps a ticket until it returns. */
  ghost predicate Hands(g: Hist, pc: Pc, g': Hist, pc': Pc) {
    && g.log <= g'.log
    && (forall u :: u in g'.commit ==> u in g.commit || DoneEnq(pc') == Some(u))
    && (DoneEnq(pc).Some? ==> DoneEnq(pc') == DoneEnq(pc) || ReturnedBy(g', DoneEnq(pc).value))
  }

  ghost predicate Delivers(g: Hist, pc: Pc, g': Hist, pc': Pc) {
    && (forall u :: u in g'.taken ==> u in g.taken || DoneDeq(pc') == Some(u) || DeliveredBy(g', u))
    && (DoneDeq(pc).Some? ==> DoneDeq(pc') == DoneDeq(pc) || DeliveredBy(g', DoneDeq(pc).value))
  }

  lemma LastReturned(g: Hist, op: nat, t: nat)
    ensures ReturnedBy(Logged(g, EnqReturned(op, t)), t)
  {
    assert Logged(g, EnqReturned(op, t)).log[|g.log|].t == t;
  }

  lemma LastDelivered(g: Hist, h: nat, v: Value)
    ensures DeliveredBy(Logged(g, DeqReturned(h, v)), h)
  {
    assert Logged(g, DeqReturned(h, v)).log[|g.log|].h == h;
  }

  lemma EnqHands(cfg: Config, w: Words, g: Hist, pc: Pc)
    requires !TouchesSlot(pc) && IsEnq(pc)
    ensures var l := EnqControl(cfg, w, g, pc); Hands(g, pc, l.g, l.pc) && Delivers(g, pc, l.g, l.pc)
  {
    if DoneEnq(pc).Some? {
      LastReturned(g, pc.op, pc.t);
    }
  }

  lemma DeqHands(cfg: Config, w: Words, g: Hist, pc: Pc, c: Choice)
    requires !TouchesSlot(pc) && !IsEnq(pc)
    ensures var l := Control(cfg, w, g, pc, c); Hands(g, pc, l.g, l.pc) && Delivers(g, pc, l.g, l.pc)
  {
    if pc.DeqCount? {
      LastDelivered(g, pc.h, pc.v);
    }
  }

  lemma SlotHands(cfg: Config, w: Words, sl: Slot, g: Hist, pc: Pc, c: Choice)
    requires TouchesSlot(pc) && SlotOf(cfg.n, SlotTicket(pc)) < |g.wrote|
    ensures var e := SlotStep(cfg, w, sl, g, pc, c); Hands(g, pc, e.g, e.pc) && Delivers(g, pc, e.g, e.pc)
  {
    if pc.DeqTake? {
      LastDelivered(g.(taken := g.taken[pc.h := pc.v]), pc.h, pc.v);
    }
  }

  lemma StepHands(cfg: Config, s: State, c: Choice)
    requires Sized(cfg, s) && c.tid < |s.pcs|
    ensures var s' := Next(cfg, s, c);
            && Hands(s.g, s.pcs[c.tid], s'.g, s'.pcs[c.tid]) && Delivers(s.g, s.pcs[c.tid], s'.g, s'.pcs[c.tid])
            && s'.pcs == s.pcs[c.tid := s'.pcs[c.tid]]
  {
    var pc := s.pcs[c.tid];
    if TouchesSlot(pc) {
      SlotHands(cfg, s.w, s.slots[SlotOf(cfg.n, SlotTicket(pc))], s.g, pc, c);
    } else if IsEnq(pc) {
      EnqHands(cfg, s.w, s.g, pc);
    } else {
      DeqHands(cfg, s.w, s.g, pc, c);
    }
  }

  lemma CommitOwned(s: State, s': State, i: nat, u: nat)
    requires Owned(s) && i < |s.pcs| == |s'.pcs| && s'.pcs == s.pcs[i := s'.pcs[i]]
    requires Hands(s.g, s.pcs[i], s'.g, s'.pcs[i]) && u in s'.g.commit
    ensures ReturnedBy(s'.g, u) || Storing(s'.pcs, u)
  {
    if u !in s.g.commit {
      assert DoneEnq(s'.pcs[i]) == Some(u);
    } else if ReturnedBy(s.g, u) {
      var q :| 0 <= q < |s.g.log| && s.g.log[q].EnqReturned? && s.g.log[q].t == u;
      assert s'.g.log[q] == s.g.log[q];
    } else {
      var k :| 0 <= k < |s.pcs| && DoneEnq(s.pcs[k]) == Some(u);
      assert k == i || s'.pcs[k] == s.pcs[k];
    }
  }

  lemma TakenOwned(s: State, s': State, i: nat, u: nat)
    requires Owned(s) && i < |s.pcs| == |s'.pcs| && s'.pcs == s.pcs[i := s'.pcs[i]] && s.g.log <= s'.g.log
    requires Delivers(s.g, s.pcs[i], s'.g, s'.pcs[i]) && u in s'.g.taken
    ensures DeliveredBy(s'.g, u) || Delivering(s'.pcs, u)
  {
    if u !in s.g.taken {
      assert DoneDeq(s'.pcs[i]) == Some(u) || DeliveredBy(s'.g, u);
    } else if DeliveredBy(s.g, u) {
      var q :| 0 <= q < |s.g.log| && s.g.log[q].DeqReturned? && s.g.log[q].h == u;
      assert s'.g.log[q] == s.g.log[q];
    } else {
      var k :| 0 <= k < |s.pcs| && DoneDeq(s.pcs[k]) == Some(u);
      assert k == i || s'.pcs[k] == s.pcs[k];
    }
  }

  lemma OwnedNext(cfg: Config, s: State, c: Choice)
    requires Sized(cfg, s) && Owned(s) && c.tid < |s.pcs|
    ensures Owned(Next(cfg, s, c))
  {
    var s' := Next(cfg, s, c);
    StepHands(cfg, s, c);
    forall u | u in s'.g.commit ensures ReturnedBy(s'.g, u) || Storing(s'.pcs, u) {
      CommitOwned(s, s', c.tid, u);
    }
    forall u | u in s'.g.taken ensures DeliveredBy(s'.g, u) || Delivering(s'.pcs, u) {
      TakenOwned(s, s', c.tid, u);
    }
  }

  lemma OwnedTick(s: State)
    requires Owned(s)
    ensures Owned(s.(g := Tick(s.g)))
  {
    var s' := s.(g := Tick(s.g));
    forall u | u in s'.g.commit ensures ReturnedBy(s'.g, u) || Storing(s'.pcs, u) {
      assert ReturnedBy(s.g, u) || Storing(s.pcs, u);
    }
    forall u | u in s'.g.taken ensures DeliveredBy(s'.g, u) || Delivering(s'.pcs, u) {
      assert DeliveredBy(s.g, u) || Delivering(s.pcs, u);
    }
  }

  lemma {:induction false} RunOwned(cfg: Config, threads: nat, sch: seq<Choice>)
    requires cfg.Valid()
    ensures Owned(Run(cfg, threads, sch))
  {
    if sch != [] {
      var before, c := sch[..|sch| - 1], sch[|sch| - 1];
      RunOwned(cfg, threads, before);
      if c.tid < threads {
        OwnedNext(cfg, Run(cfg, threads, before), c);
      } else {
        OwnedTick(Run(cfg, threads, before));
      }
    }
  }

  // ----- one call each -----

  /** No two calls share a ticket, and no call has two or is refused besides: returns have
      different calls and tickets, and so have the threads on their way out, among each
      other and against the returns. */
  ghost predicate OneEach(s: State) {
    && (forall p, q :: 0 <= p < q < |s.g.log| && Closes(s.g.log[p]) && Closes(s.g.log[q]) ==>
          && s.g.log[p].op != s.g.log[q].op
          && (s.g.log[p].EnqReturned? && s.g.log[q].EnqReturned? ==> s.g.log[p].t != s.g.log[q].t))
    && (forall i, k :: 0 <= i < k < |s.pcs| && DoneEnq(s.pcs[i]).Some? && DoneEnq(s.pcs[k]).Some? ==>
          DoneEnq(s.pcs[i]) != DoneEnq(s.pcs[k]) && OpOf(s.pcs[i]) != OpOf(s.pcs[k]))
    && (forall p, i :: 0 <= p < |s.g.log| && 0 <= i < |s.pcs| && Closes(s.g.log[p]) && DoneEnq(s.pcs[i]).Some? ==>
          && OpOf(s.pcs[i]) != Some(s.g.log[p].op)
          && (s.g.log[p].EnqReturned? ==> DoneEnq(s.pcs[i]) != Some(s.g.log[p].t)))
  }

  lemma LogOneEach(s: State)
    requires LogInv(s)
    ensures OneEach(s)
  {
    forall p, q | 0 <= p < q < |s.g.log| && Closes(s.g.log[p]) && Closes(s.g.log[q])
      ensures PairOk(s.g.log[p], s.g.log[q])
    {
    }
    forall i, k | 0 <= i < k < |s.pcs| && DoneEnq(s.pcs[i]).Some? && DoneEnq(s.pcs[k]).Some?
      ensures DoneEnq(s.pcs[i]) != DoneEnq(s.pcs[k]) && OpOf(s.pcs[i]) != OpOf(s.pcs[k])
    {
      assert LogApart(s.pcs[i], s.pcs[k]);
    }
    forall p, i | 0 <= p < |s.g.log| && 0 <= i < |s.pcs| && Closes(s.g.log[p]) && DoneEnq(s.pcs[i]).Some?
      ensures OpOf(s.pcs[i]) != Some(s.g.log[p].op)
      ensures s.g.log[p].EnqReturned? ==> DoneEnq(s.pcs[i]) != Some(s.g.log[p].t)
    {
      assert LogPc(s.g, s.pcs[i]);
    }
  }

  /** Each committed ticket belongs to exactly one enqueue call, which has returned with it
      or is on its way to, and each taken one to a dequeue call; no enqueue call commits
      two tickets. */
  lemma CommittedByOneCall(cfg: Config, threads: nat, sch: seq<Choice>)
    requires cfg.Valid()
    ensures Owned(Run(cfg, threads, sch)) && OneEach(Run(cfg, threads, sch))
  {
    RunOwned(cfg, threads, sch);
    RunLogInv(cfg, threads, sch);
    LogOneEach(Run(cfg, threads, sch));
  }

  // ----- calls and what their callers passed -----

  /** What an idle thread does that is told to enqueue: with an argument the queue takes, it
      logs a call with that argument; otherwise it stays idle and nothing changes. */
  lemma EnqueueStarts(cfg: Config, threads: nat, sch: seq<Choice>, m: nat)
    requires cfg.Valid() && m < |sch| && sch[m].tid < threads && !sch[m].deq
    requires Run(cfg, threads, sch[..m]).pcs[sch[m].tid].Idle?
    ensures var s, s', c := Run(cfg, threads, sch[..m]), Run(cfg, threads, sch[..m + 1]), sch[m];
            && s'.w == s.w && s'.slots == s.slots
            && (if c.arg.Some? && (cfg.variant.Scq? ==> c.arg.value < cfg.n - 1) then
                  s'.g.log == s.g.log + [EnqCalled(c.arg.value)] && OpOf(s'.pcs[c.tid]) == Some(|s.g.log|)
                else
                  s'.g.log == s.g.log && s'.pcs[c.tid].Idle?)
  {
    assert sch[..m + 1][..m] == sch[..m];
  }

  /** At step m an idle thread was told to enqueue v, and log entry op is its call. */
  ghost predicate CalledAt(cfg: Config, threads: nat, sch: seq<Choice>, op: nat, v: Value, m: nat)
    requires cfg.Valid()
  {
    && m < |sch| && sch[m].tid < threads && !sch[m].deq && sch[m].arg == Some(v)
    && Run(cfg, threads, sch[..m]).pcs[sch[m].tid].Idle? && |Run(cfg, threads, sch[..m]).g.log| == op
  }

  ghost predicate Called(cfg: Config, threads: nat, sch: seq<Choice>, op: nat, v: Value)
    requires cfg.Valid()
  {
    exists m: nat :: CalledAt(cfg, threads, sch, op, v, m)
  }

  ghost predicate AllCalled(cfg: Config, threads: nat, sch: seq<Choice>)
    requires cfg.Valid()
  {
    var log := Run(cfg, threads, sch).g.log;
    forall op :: 0 <= op < |log| && log[op].EnqCalled? ==> Called(cfg, threads, sch, op, log[op].v)
  }

  /** Only a start logs a call. */
  ghost predicate StartsOnly(g: Hist, pc: Pc, g': Hist, c: Choice) {
    && g.log <= g'.log && |g'.log| <= |g.log| + 1
    && (|g'.log| > |g.log| && g'.log[|g.log|].EnqCalled? ==>
          pc.Idle? && !c.deq && c.arg == Some(g'.log[|g.log|].v))
  }

  lemma ControlStarts(cfg: Config, w: Words, g: Hist, pc: Pc, c: Choice)
    requires !TouchesSlot(pc)
    ensures StartsOnly(g, pc, Control(cfg, w, g, pc, c).g, c)
  {
  }

  lemma SlotStarts(cfg: Config, w: Words, sl: Slot, g: Hist, pc: Pc, c: Choice)
    requires TouchesSlot(pc) && SlotOf(cfg.n, SlotTicket(pc)) < |g.wrote|
    ensures StartsOnly(g, pc, SlotStep(cfg, w, sl, g, pc, c).g, c)
  {
  }

  lemma StepStarts(cfg: Config, s: State, c: Choice)
    requires Sized(cfg, s) && c.tid < |s.pcs|
    ensures StartsOnly(s.g, s.pcs[c.tid], Next(cfg, s, c).g, c)
  {
    var pc := s.pcs[c.tid];
    if TouchesSlot(pc) {
      SlotStarts(cfg, s.w, s.slots[SlotOf(cfg.n, SlotTicket(pc))], s.g, pc, c);
    } else {
      ControlStarts(cfg, s.w, s.g, pc, c);
    }
  }

  lemma CalledLater(cfg: Config, threads: nat, sch: seq<Choice>, c: Choice, op: nat, v: Value)
    requires cfg.Valid() && Called(cfg, threads, sch, op, v)
    ensures Called(cfg, threads, sch + [c], op, v)
  {
    var m: nat :| CalledAt(cfg, threads, sch, op, v, m);
    assert (sch + [c])[..m] == sch[..m];
    assert CalledAt(cfg, threads, sch + [c], op, v, m);
  }

  lemma CalledNow(cfg: Config, threads: nat, sch: seq<Choice>, c: Choice, v: Value)
    requires cfg.Valid() && c.tid < threads && !c.deq && c.arg == Some(v)
    requires Run(cfg, threads, sch).pcs[c.tid].Idle?
    ensures Called(cfg, threads, sch + [c], |Run(cfg, threads, sch).g.log|, v)
  {
    assert (sch + [c])[..|sch|] == sch;
    assert CalledAt(cfg, threads, sch + [c], |Run(cfg, threads, sch).g.log|, v, |sch|);
  }

  lemma CalledNext(cfg: Config, threads: nat, sch: seq<Choice>, c: Choice, g': Hist, op: nat)
    requires cfg.Valid() && AllCalled(cfg, threads, sch) && c.tid < threads
    requires StartsOnly(Run(cfg, threads, sch).g, Run(cfg, threads, sch).pcs[c.tid], g', c)
    requires op < |g'.log| && g'.log[op].EnqCalled?
    ensures Called(cfg, threads, sch + [c], op, g'.log[op].v)
  {
    var log := Run(cfg, threads, sch).g.log;
    if op < |log| {
      assert g'.log[op] == log[op];
      CalledLater(cfg, threads, sch, c, op, log[op].v);
    } else {
      CalledNow(cfg, threads, sch, c, g'.log[op].v);
    }
  }

  lemma RunCalledNext(cfg: Config, threads: nat, sch: seq<Choice>, c: Choice)
    requires cfg.Valid() && AllCalled(cfg, threads, sch)
    ensures AllCalled(cfg, threads, sch + [c])
  {
    var g' := Next(cfg, Run(cfg, threads, sch), c).g;
    RunSnoc(cfg, threads, sch, c);
    if c.tid < threads {
      StepStarts(cfg, Run(cfg, threads, sch), c);
    }
    forall op | 0 <= op < |g'.log| && g'.log[op].EnqCalled? ensures Called(cfg, threads, sch + [c], op, g'.log[op].v) {
      if c.tid < threads {
        CalledNext(cfg, threads, sch, c, g', op);
      } else {
        CalledLater(cfg, threads, sch, c, op, g'.log[op].v);
      }
    }
  }

  lemma {:induction false} RunCalled(cfg: Config, threads: nat, sch: seq<Choice>)
    requires cfg.Valid()
    ensures AllCalled(cfg, threads, sch)
  {
    if sch != [] {
      var before, c := sch[..|sch| - 1], sch[|sch| - 1];
      RunCalled(cfg, threads, before);
      RunCalledNext(cfg, threads, before, c);
      assert sch == before + [c];
    }
  }

  /** What is stored under a ticket was passed to an enqueue call: the one that has returned
      with the ticket, or that is on its way to. */
  lemma StoredIsArgument(cfg: Config, threads: nat, sch: seq<Choice>, u: nat) returns (op: nat)
    requires cfg.Valid() && u in Run(cfg, threads, sch).g.commit
    ensures var s := Run(cfg, threads, sch);
            && Called(cfg, threads, sch, op, s.g.commit[u])
            && ((exists q :: 0 <= q < |s.g.log| && s.g.log[q] == EnqReturned(op, u))
                || (exists i :: 0 <= i < |s.pcs| && DoneEnq(s.pcs[i]) == Some(u) && OpOf(s.pcs[i]) == Some(op)))
  {
    var s := Run(cfg, threads, sch);
    RunOwned(cfg, threads, sch);
    RunLogInv(cfg, threads, sch);
    RunCalled(cfg, threads, sch);
    if ReturnedBy(s.g, u) {
      var q :| 0 <= q < |s.g.log| && s.g.log[q].EnqReturned? && s.g.log[q].t == u;
      assert EventOk(s.w, s.g, q);
      op := s.g.log[q].op;
    } else {
      var i :| 0 <= i < |s.pcs| && DoneEnq(s.pcs[i]) == Some(u);
      assert LogPc(s.g, s.pcs[i]);
      op := s.pcs[i].op;
    }
  }

  /** What a dequeue returns under the ticket of a returned enqueue call is the argument the
      scheduler gave that call. */
  lemma ReturnedIsArgument(cfg: Config, threads: nat, sch: seq<Choice>)
    requires cfg.Valid()
    ensures var log := Run(cfg, threads, sch).g.log;
            forall p, r ::
              && 0 <= p < |log| && 0 <= r < |log| && log[p].EnqReturned? && log[r].DeqReturned?
              && log[r].h == log[p].t
              ==> Called(cfg, threads, sch, log[p].op, log[r].v)
  {
    ReturnedIsLogged(cfg, threads, sch);
    RunCalled(cfg, threads, sch);
  }
}
