/** What SCQP's answer "full" means.  Enqueue compares its counter of completed enqueues
    with a counter of completed dequeues that it read before, so the answer is about calls
    that have returned, not about slots: with two threads it can be given although a slot
    is empty during the whole call. */
module TicketFull {
  import opened Ring
  import opened TicketQueue
  import opened TicketSafety
  import opened TicketOrder
  import opened TicketEmpty
  import opened TicketCalls

  // ----- the success counters -----

  /** How many enqueues have returned with true. */
  function Enqueued(log: seq<Event>): nat {
    if log == [] then 0 else Enqueued(log[..|log| - 1]) + (if log[|log| - 1].EnqReturned? then 1 else 0)
  }

  /** How many dequeues have returned with an element. */
  function Dequeued(log: seq<Event>): nat {
    if log == [] then 0 else Dequeued(log[..|log| - 1]) + (if log[|log| - 1].DeqReturned? then 1 else 0)
  }

  lemma CountSnoc(log: seq<Event>, e: Event)
    ensures Enqueued(log + [e]) == Enqueued(log) + (if e.EnqReturned? then 1 else 0)
    ensures Dequeued(log + [e]) == Dequeued(log) + (if e.DeqReturned? then 1 else 0)
  {
    assert (log + [e])[..|log|] == log;
  }

  ghost predicate Exact(w: Words, g: Hist) {
    w.enqOk == Enqueued(g.log) && w.deqOk == Dequeued(g.log)
  }

  lemma EnqExact(cfg: Config, w: Words, g: Hist, pc: Pc)
    requires !cfg.variant.Scq? && Exact(w, g)
    ensures var l := EnqControl(cfg, w, g, pc); Exact(l.w, l.g)
  {
    if pc.EnqCount? {
      CountSnoc(g.log, EnqReturned(pc.op, pc.t));
    } else if pc.EnqReadEnqOk? {
      CountSnoc(g.log, EnqRefused(pc.op, g.clock));
    }
  }

  /** The other steps append at most one event, and count exactly the returns. */
  lemma DeqEvents(cfg: Config, w: Words, g: Hist, pc: Pc, c: Choice) returns (e: Event)
    requires !cfg.variant.Scq? && !TouchesSlot(pc) && !IsEnq(pc)
    ensures var l := Control(cfg, w, g, pc, c);
            && (l.g.log == g.log || l.g.log == g.log + [e]) && !e.EnqReturned?
            && l.w.enqOk == w.enqOk
            && l.w.deqOk == w.deqOk + (if l.g.log == g.log + [e] && e.DeqReturned? then 1 else 0)
  {
    var l := Control(cfg, w, g, pc, c);
    e := if |l.g.log| > |g.log| then l.g.log[|g.log|] else DeqClaimed(0);
  }

  lemma ControlExact(cfg: Config, w: Words, g: Hist, pc: Pc, c: Choice)
    requires !cfg.variant.Scq? && !TouchesSlot(pc) && Exact(w, g)
    ensures var l := Control(cfg, w, g, pc, c); Exact(l.w, l.g)
  {
    if IsEnq(pc) {
      EnqExact(cfg, w, g, pc);
    } else {
      var e := DeqEvents(cfg, w, g, pc, c);
      CountSnoc(g.log, e);
    }
  }

  lemma SlotExact(cfg: Config, w: Words, sl: Slot, g: Hist, pc: Pc, c: Choice)
    requires !cfg.variant.Scq? && TouchesSlot(pc) && SlotOf(cfg.n, SlotTicket(pc)) < |g.wrote|
    ensures var e := SlotStep(cfg, w, sl, g, pc, c); e.w == w && e.g.log == g.log
  {
  }

  lemma ExactNext(cfg: Config, s: State, c: Choice)
    requires Sized(cfg, s) && !cfg.variant.Scq? && Exact(s.w, s.g)
    ensures var s' := Next(cfg, s, c); Exact(s'.w, s'.g)
  {
    if c.tid < |s.pcs| {
      var pc := s.pcs[c.tid];
      if TouchesSlot(pc) {
        SlotExact(cfg, s.w, s.slots[SlotOf(cfg.n, SlotTicket(pc))], s.g, pc, c);
      } else {
        ControlExact(cfg, s.w, s.g, pc, c);
      }
    }
  }

  /** The success counters count the returns exactly. */
  lemma {:induction false} CountersAreExact(cfg: Config, threads: nat, sch: seq<Choice>)
    requires cfg.Valid() && !cfg.variant.Scq?
    ensures var s := Run(cfg, threads, sch);
            s.w.enqOk == Enqueued(s.g.log) && s.w.deqOk == Dequeued(s.g.log)
  {
    if sch != [] {
      CountersAreExact(cfg, threads, sch[..|sch| - 1]);
      ExactNext(cfg, Run(cfg, threads, sch[..|sch| - 1]), sch[|sch| - 1]);
    }
  }

  // ----- what a refusal has seen -----

  /** Time m lies in call op. */
  ghost predicate During(cfg: Config, threads: nat, sch: seq<Choice>, op: nat, m: nat)
    requires cfg.Valid() && m <= |sch|
  {
    op < |Run(cfg, threads, sch[..m]).g.log|
  }

  ghost predicate ReadAt(cfg: Config, threads: nat, sch: seq<Choice>, op: nat, d: nat, m: nat)
    requires cfg.Valid()
  {
    m <= |sch| && During(cfg, threads, sch, op, m) && Run(cfg, threads, sch[..m]).w.deqOk == d
  }

  ghost predicate ReadBefore(cfg: Config, threads: nat, sch: seq<Choice>, op: nat, d: nat)
    requires cfg.Valid()
  {
    exists m: nat :: ReadAt(cfg, threads, sch, op, d, m)
  }

  /** At time r the counter of enqueues was n above a count of dequeues read in the call. */
  ghost predicate Refused(cfg: Config, threads: nat, sch: seq<Choice>, op: nat, r: nat)
    requires cfg.Valid()
  {
    r < |sch| && exists m: nat ::
      m <= r && ReadAt(cfg, threads, sch, op, Run(cfg, threads, sch[..m]).w.deqOk, m)
      && Run(cfg, threads, sch[..r]).w.enqOk >= Run(cfg, threads, sch[..m]).w.deqOk + cfg.n
  }

  ghost predicate RefuseInv(cfg: Config, threads: nat, sch: seq<Choice>)
    requires cfg.Valid()
  {
    var s := Run(cfg, threads, sch);
    && (forall i :: 0 <= i < |s.pcs| && s.pcs[i].EnqReadEnqOk? ==>
          ReadBefore(cfg, threads, sch, s.pcs[i].op, s.pcs[i].deqSeen))
    && (forall p :: 0 <= p < |s.g.log| && s.g.log[p].EnqRefused? ==>
          Refused(cfg, threads, sch, s.g.log[p].op, s.g.log[p].returned))
  }

  lemma ReadLater(cfg: Config, threads: nat, sch: seq<Choice>, c: Choice, op: nat, d: nat)
    requires cfg.Valid() && ReadBefore(cfg, threads, sch, op, d)
    ensures ReadBefore(cfg, threads, sch + [c], op, d)
  {
    var m: nat :| ReadAt(cfg, threads, sch, op, d, m);
    assert (sch + [c])[..m] == sch[..m];
    assert ReadAt(cfg, threads, sch + [c], op, d, m);
  }

  lemma RefusedLater(cfg: Config, threads: nat, sch: seq<Choice>, c: Choice, op: nat, r: nat)
    requires cfg.Valid() && Refused(cfg, threads, sch, op, r)
    ensures Refused(cfg, threads, sch + [c], op, r)
  {
    var m: nat :| m <= r && ReadAt(cfg, threads, sch, op, Run(cfg, threads, sch[..m]).w.deqOk, m)
                  && Run(cfg, threads, sch[..r]).w.enqOk >= Run(cfg, threads, sch[..m]).w.deqOk + cfg.n;
    assert (sch + [c])[..m] == sch[..m] && (sch + [c])[..r] == sch[..r];
    assert ReadAt(cfg, threads, sch + [c], op, Run(cfg, threads, (sch + [c])[..m]).w.deqOk, m);
  }

  /** What a step may add: a fresh reading of the counter, or a refusal that rests on one. */
  ghost predicate RefuseMove(cfg: Config, w: Words, g: Hist, pc: Pc, g': Hist, pc': Pc) {
    && (pc'.EnqReadEnqOk? ==> pc.EnqReadDeqOk? && pc' == EnqReadEnqOk(pc.v, pc.op, w.deqOk))
    && g.log <= g'.log
    && (forall p :: |g.log| <= p < |g'.log| && g'.log[p].EnqRefused? ==>
          pc.EnqReadEnqOk? && g'.log[p] == EnqRefused(pc.op, g.clock) && w.enqOk >= pc.deqSeen + cfg.n)
  }

  lemma EnqRefuseMove(cfg: Config, w: Words, g: Hist, pc: Pc)
    requires !TouchesSlot(pc) && IsEnq(pc)
    ensures var l := EnqControl(cfg, w, g, pc); RefuseMove(cfg, w, g, pc, l.g, l.pc)
  {
  }

  lemma DeqRefuseMove(cfg: Config, w: Words, g: Hist, pc: Pc, c: Choice)
    requires !TouchesSlot(pc) && !IsEnq(pc)
    ensures var l := Control(cfg, w, g, pc, c); RefuseMove(cfg, w, g, pc, l.g, l.pc)
  {
  }

  lemma SlotRefuseMove(cfg: Config, w: Words, sl: Slot, g: Hist, pc: Pc, c: Choice)
    requires TouchesSlot(pc) && SlotOf(cfg.n, SlotTicket(pc)) < |g.wrote|
    ensures var e := SlotStep(cfg, w, sl, g, pc, c); RefuseMove(cfg, w, g, pc, e.g, e.pc)
  {
  }

  lemma StepRefuseMove(cfg: Config, s: State, c: Choice)
    requires Sized(cfg, s) && c.tid < |s.pcs|
    ensures var s' := Next(cfg, s, c);
            RefuseMove(cfg, s.w, s.g, s.pcs[c.tid], s'.g, s'.pcs[c.tid]) && s'.pcs == s.pcs[c.tid := s'.pcs[c.tid]]
  {
    var pc := s.pcs[c.tid];
    if TouchesSlot(pc) {
      SlotRefuseMove(cfg, s.w, s.slots[SlotOf(cfg.n, SlotTicket(pc))], s.g, pc, c);
    } else if IsEnq(pc) {
      EnqRefuseMove(cfg, s.w, s.g, pc);
    } else {
      DeqRefuseMove(cfg, s.w, s.g, pc, c);
    }
  }

  lemma ReadNow(cfg: Config, threads: nat, sch: seq<Choice>, c: Choice, op: nat)
    requires cfg.Valid() && op < |Run(cfg, threads, sch).g.log|
    ensures ReadBefore(cfg, threads, sch + [c], op, Run(cfg, threads, sch).w.deqOk)
  {
    assert (sch + [c])[..|sch|] == sch;
    assert ReadAt(cfg, threads, sch + [c], op, Run(cfg, threads, sch).w.deqOk, |sch|);
  }

  lemma RefusedNow(cfg: Config, threads: nat, sch: seq<Choice>, c: Choice, op: nat, d: nat)
    requires cfg.Valid() && ReadBefore(cfg, threads, sch, op, d)
    requires Run(cfg, threads, sch).w.enqOk >= d + cfg.n
    ensures Refused(cfg, threads, sch + [c], op, |sch|)
  {
    var m: nat :| ReadAt(cfg, threads, sch, op, d, m);
    assert (sch + [c])[..m] == sch[..m] && (sch + [c])[..|sch|] == sch;
    assert ReadAt(cfg, threads, sch + [c], op, Run(cfg, threads, (sch + [c])[..m]).w.deqOk, m);
  }

  lemma RefusePcs(cfg: Config, threads: nat, sch: seq<Choice>, c: Choice, i: nat)
    requires cfg.Valid() && RefuseInv(cfg, threads, sch) && c.tid < threads && i < threads
    requires LogInv(Run(cfg, threads, sch))
    requires Next(cfg, Run(cfg, threads, sch), c).pcs[i].EnqReadEnqOk?
    ensures var pc := Next(cfg, Run(cfg, threads, sch), c).pcs[i];
            ReadBefore(cfg, threads, sch + [c], pc.op, pc.deqSeen)
  {
    var s := Run(cfg, threads, sch);
    StepRefuseMove(cfg, s, c);
    if i == c.tid {
      assert LogPc(s.g, s.pcs[i]);
      ReadNow(cfg, threads, sch, c, s.pcs[i].op);
    } else {
      ReadLater(cfg, threads, sch, c, s.pcs[i].op, s.pcs[i].deqSeen);
    }
  }

  lemma RefuseEvents(cfg: Config, threads: nat, sch: seq<Choice>, c: Choice, p: nat)
    requires cfg.Valid() && RefuseInv(cfg, threads, sch) && c.tid < threads
    requires var g' := Next(cfg, Run(cfg, threads, sch), c).g; p < |g'.log| && g'.log[p].EnqRefused?
    ensures var e := Next(cfg, Run(cfg, threads, sch), c).g.log[p];
            Refused(cfg, threads, sch + [c], e.op, e.returned)
  {
    var s := Run(cfg, threads, sch);
    StepRefuseMove(cfg, s, c);
    if p < |s.g.log| {
      RefusedLater(cfg, threads, sch, c, s.g.log[p].op, s.g.log[p].returned);
    } else {
      RefusedNow(cfg, threads, sch, c, s.pcs[c.tid].op, s.pcs[c.tid].deqSeen);
    }
  }

  lemma RefuseIdle(cfg: Config, threads: nat, sch: seq<Choice>, c: Choice)
    requires cfg.Valid() && RefuseInv(cfg, threads, sch) && c.tid >= threads
    ensures RefuseInv(cfg, threads, sch + [c])
  {
    var s := Run(cfg, threads, sch);
    RunSnoc(cfg, threads, sch, c);
    forall i | 0 <= i < |s.pcs| && s.pcs[i].EnqReadEnqOk?
      ensures ReadBefore(cfg, threads, sch + [c], s.pcs[i].op, s.pcs[i].deqSeen)
    {
      ReadLater(cfg, threads, sch, c, s.pcs[i].op, s.pcs[i].deqSeen);
    }
    forall p | 0 <= p < |s.g.log| && s.g.log[p].EnqRefused?
      ensures Refused(cfg, threads, sch + [c], s.g.log[p].op, s.g.log[p].returned)
    {
      RefusedLater(cfg, threads, sch, c, s.g.log[p].op, s.g.log[p].returned);
    }
  }

  lemma RefuseNext(cfg: Config, threads: nat, sch: seq<Choice>, c: Choice)
    requires cfg.Valid() && RefuseInv(cfg, threads, sch) && LogInv(Run(cfg, threads, sch))
    ensures RefuseInv(cfg, threads, sch + [c])
  {
    if c.tid >= threads {
      RefuseIdle(cfg, threads, sch, c);
    } else {
      RunSnoc(cfg, threads, sch, c);
      var s' := Next(cfg, Run(cfg, threads, sch), c);
      forall i | 0 <= i < |s'.pcs| && s'.pcs[i].EnqReadEnqOk?
        ensures ReadBefore(cfg, threads, sch + [c], s'.pcs[i].op, s'.pcs[i].deqSeen)
      {
        RefusePcs(cfg, threads, sch, c, i);
      }
      forall p | 0 <= p < |s'.g.log| && s'.g.log[p].EnqRefused?
        ensures Refused(cfg, threads, sch + [c], s'.g.log[p].op, s'.g.log[p].returned)
      {
        RefuseEvents(cfg, threads, sch, c, p);
      }
    }
  }

  lemma {:induction false} RunRefuse(cfg: Config, threads: nat, sch: seq<Choice>)
    requires cfg.Valid()
    ensures RefuseInv(cfg, threads, sch)
  {
    if sch == [] {
      assert Run(cfg, threads, []) == Init(cfg, threads);
    } else {
      var before, c := sch[..|sch| - 1], sch[|sch| - 1];
      RunRefuse(cfg, threads, before);
      RunLogInv(cfg, threads, before);
      RefuseNext(cfg, threads, before, c);
      assert sch == before + [c];
    }
  }

  // ----- counting elements -----

  function Occupied(slots: seq<Slot>): set<nat> {
    set j | 0 <= j < |slots| && slots[j].val.Some?
  }

  /** Every slot holds an element. */
  ghost predicate Full(s: State) {
    forall j :: 0 <= j < |s.slots| ==> s.slots[j].val.Some?
  }

  function SlotsOf(n: nat, us: set<nat>): set<nat>
    requires RingSize(n)
  {
    set u | u in us :: SlotOf(n, u)
  }

  lemma {:induction false} SlotsOfSize(n: nat, us: set<nat>)
    requires RingSize(n)
    requires forall u, v :: u in us && v in us && SlotOf(n, u) == SlotOf(n, v) ==> u == v
    ensures |SlotsOf(n, us)| == |us|
  {
    if us != {} {
      var u :| u in us;
      SlotsOfSize(n, us - {u});
      assert SlotOf(n, u) !in SlotsOf(n, us - {u});
      assert SlotsOf(n, us) == SlotsOf(n, us - {u}) + {SlotOf(n, u)};
    }
  }

  lemma {:induction false} SubsetSize(a: set<nat>, b: set<nat>)
    requires a <= b
    ensures |a| <= |b|
  {
    if a != {} {
      var x :| x in a;
      SubsetSize(a - {x}, b - {x});
    }
  }

  /** The occupied slots are those of the tickets committed and not taken. */
  lemma OccupiedSlots(cfg: Config, s: State)
    requires Inv(cfg, s)
    ensures Occupied(s.slots) == SlotsOf(cfg.n, s.g.commit.Keys - s.g.taken.Keys)
  {
    var us := s.g.commit.Keys - s.g.taken.Keys;
    forall j | j in Occupied(s.slots) ensures j in SlotsOf(cfg.n, us) {
      assert s.g.wrote[j] in us;
    }
    forall j | j in SlotsOf(cfg.n, us) ensures j in Occupied(s.slots) {
      var u :| u in us && SlotOf(cfg.n, u) == j;
      assert Holds(cfg.n, s.slots, u, s.g.commit[u]);
    }
  }

  /** Stored elements are in different slots. */
  lemma StoredApart(cfg: Config, s: State, u: nat, v: nat)
    requires Inv(cfg, s) && u in s.g.commit && u !in s.g.taken && v in s.g.commit && v !in s.g.taken
    requires SlotOf(cfg.n, u) == SlotOf(cfg.n, v)
    ensures u == v
  {
    assert Holds(cfg.n, s.slots, u, s.g.commit[u]) && Holds(cfg.n, s.slots, v, s.g.commit[v]);
    SameSlotSameCycle(cfg.n, u, v);
  }

  lemma DifferenceSize(a: set<nat>, b: set<nat>)
    requires b <= a
    ensures |a - b| == |a| - |b|
  {
    assert a == (a - b) + b;
  }

  lemma TakenIsCommitted(cfg: Config, s: State)
    requires Inv(cfg, s)
    ensures s.g.taken.Keys <= s.g.commit.Keys
  {
  }

  /** As many slots are occupied as tickets are committed and not taken. */
  lemma OccupiedCount(cfg: Config, s: State)
    requires Inv(cfg, s)
    ensures |Occupied(s.slots)| == |s.g.commit| - |s.g.taken|
  {
    var us := s.g.commit.Keys - s.g.taken.Keys;
    OccupiedSlots(cfg, s);
    forall u, v | u in us && v in us && SlotOf(cfg.n, u) == SlotOf(cfg.n, v) ensures u == v {
      StoredApart(cfg, s, u, v);
    }
    SlotsOfSize(cfg.n, us);
    TakenIsCommitted(cfg, s);
    DifferenceSize(s.g.commit.Keys, s.g.taken.Keys);
  }

  lemma {:induction false} OccupiedBound(slots: seq<Slot>)
    ensures |Occupied(slots)| <= |slots|
    ensures |Occupied(slots)| == |slots| ==> forall j :: 0 <= j < |slots| ==> slots[j].val.Some?
  {
    if slots != [] {
      var k := |slots| - 1;
      OccupiedBound(slots[..k]);
      assert Occupied(slots) == Occupied(slots[..k]) + (if slots[k].val.Some? then {k} else {});
    }
  }

  // ----- returned calls and their tickets -----

  function EnqTickets(log: seq<Event>): set<nat> {
    if log == [] then {}
    else
      var last := log[|log| - 1];
      EnqTickets(log[..|log| - 1]) + (if last.EnqReturned? then {last.t} else {})
  }

  function DeqTickets(log: seq<Event>): set<nat> {
    if log == [] then {}
    else
      var last := log[|log| - 1];
      DeqTickets(log[..|log| - 1]) + (if last.DeqReturned? then {last.h} else {})
  }

  lemma {:induction false} EnqTicketsAre(log: seq<Event>, u: nat)
    ensures u in EnqTickets(log) <==> exists q :: 0 <= q < |log| && log[q].EnqReturned? && log[q].t == u
  {
    if log != [] {
      EnqTicketsAre(log[..|log| - 1], u);
      assert log[|log| - 1].EnqReturned? && log[|log| - 1].t == u ==> u in EnqTickets(log);
      if u in EnqTickets(log[..|log| - 1]) {
        var q :| 0 <= q < |log| - 1 && log[..|log| - 1][q].EnqReturned? && log[..|log| - 1][q].t == u;
        assert log[q].EnqReturned? && log[q].t == u;
      }
      if q :| 0 <= q < |log| - 1 && log[q].EnqReturned? && log[q].t == u {
        assert log[..|log| - 1][q] == log[q];
      }
    }
  }

  lemma {:induction false} DeqTicketsHave(log: seq<Event>, q: nat)
    requires q < |log| && log[q].DeqReturned?
    ensures log[q].h in DeqTickets(log)
  {
    if q < |log| - 1 {
      DeqTicketsHave(log[..|log| - 1], q);
    }
  }

  /** Returned enqueues have different tickets. */
  lemma {:induction false} EnqTicketsSize(log: seq<Event>)
    requires forall p, q :: 0 <= p < q < |log| ==> PairOk(log[p], log[q])
    ensures |EnqTickets(log)| == Enqueued(log)
  {
    if log != [] {
      var before, last := log[..|log| - 1], log[|log| - 1];
      EnqTicketsSize(before);
      if last.EnqReturned? {
        EnqTicketsAre(before, last.t);
        forall q | 0 <= q < |before| && before[q].EnqReturned? ensures before[q].t != last.t {
          assert PairOk(log[q], log[|log| - 1]);
        }
      }
    }
  }

  lemma {:induction false} DeqTicketsSize(log: seq<Event>)
    ensures |DeqTickets(log)| <= Dequeued(log)
  {
    if log != [] {
      DeqTicketsSize(log[..|log| - 1]);
    }
  }

  /** At least as many tickets are committed as enqueues have returned. */
  lemma EnqueuedIsCommitted(s: State)
    requires LogInv(s)
    ensures Enqueued(s.g.log) <= |s.g.commit|
  {
    EnqTicketsSize(s.g.log);
    forall u | u in EnqTickets(s.g.log) ensures u in s.g.commit.Keys {
      EnqTicketsAre(s.g.log, u);
      var q :| 0 <= q < |s.g.log| && s.g.log[q].EnqReturned? && s.g.log[q].t == u;
      assert EventOk(s.w, s.g, q);
    }
    SubsetSize(EnqTickets(s.g.log), s.g.commit.Keys);
  }

  /** With no dequeue between taking and returning, as many tickets are taken as dequeues
      have returned. */
  lemma TakenIsDequeued(s: State)
    requires Owned(s) && forall i :: 0 <= i < |s.pcs| ==> DoneDeq(s.pcs[i]).None?
    ensures |s.g.taken| <= Dequeued(s.g.log)
  {
    DeqTicketsSize(s.g.log);
    forall u | u in s.g.taken.Keys ensures u in DeqTickets(s.g.log) {
      assert !Delivering(s.pcs, u) && DeliveredBy(s.g, u);
      var q :| 0 <= q < |s.g.log| && s.g.log[q].DeqReturned? && s.g.log[q].h == u;
      DeqTicketsHave(s.g.log, q);
    }
    SubsetSize(s.g.taken.Keys, DeqTickets(s.g.log));
  }

  /** What every refusal rests on, for any number of threads: at its last look, time r, at
      least n more enqueues had returned than dequeues at an earlier moment m of the call.
      So at r only as many slots can be empty as dequeues had taken an element by then and
      not returned at m; without such a dequeue every slot was full. */
  lemma RefusalIsCounted(cfg: Config, threads: nat, sch: seq<Choice>, p: nat) returns (m: nat)
    requires cfg.Valid() && !cfg.variant.Scq?
    requires p < |Run(cfg, threads, sch).g.log| && Run(cfg, threads, sch).g.log[p].EnqRefused?
    ensures var e := Run(cfg, threads, sch).g.log[p];
            && m <= e.returned < |sch| && During(cfg, threads, sch, e.op, m)
            && var s, seen := Run(cfg, threads, sch[..e.returned]), Run(cfg, threads, sch[..m]);
               && Enqueued(s.g.log) >= Dequeued(seen.g.log) + cfg.n
               && |Occupied(s.slots)| >= cfg.n - (|s.g.taken| - Dequeued(seen.g.log))
               && (|s.g.taken| <= Dequeued(seen.g.log) ==> Full(s))
  {
    RunRefuse(cfg, threads, sch);
    var e := Run(cfg, threads, sch).g.log[p];
    var r := e.returned;
    assert Refused(cfg, threads, sch, e.op, r);
    m :| m <= r && ReadAt(cfg, threads, sch, e.op, Run(cfg, threads, sch[..m]).w.deqOk, m)
         && Run(cfg, threads, sch[..r]).w.enqOk >= Run(cfg, threads, sch[..m]).w.deqOk + cfg.n;
    CountersAreExact(cfg, threads, sch[..m]);
    CountersAreExact(cfg, threads, sch[..r]);
    RefusalFills(cfg, threads, sch[..r], Dequeued(Run(cfg, threads, sch[..m]).g.log));
  }

  lemma RefusalFills(cfg: Config, threads: nat, sch: seq<Choice>, d: nat)
    requires cfg.Valid() && Enqueued(Run(cfg, threads, sch).g.log) >= d + cfg.n
    ensures var s := Run(cfg, threads, sch);
            |Occupied(s.slots)| >= cfg.n - (|s.g.taken| - d) && (|s.g.taken| <= d ==> Full(s))
  {
    var s := Run(cfg, threads, sch);
    RunInv(cfg, threads, sch);
    RunLogInv(cfg, threads, sch);
    EnqueuedIsCommitted(s);
    OccupiedCount(cfg, s);
    OccupiedBound(s.slots);
  }
}
