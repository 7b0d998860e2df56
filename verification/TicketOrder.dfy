/** Order of calls and tickets over whole runs: an enqueue that returned before
    another was called owns the smaller ticket, dequeue tickets are claimed in
    increasing order, and every ticket is returned at most once. */
module TicketOrder {
  import opened Ring
  import opened TicketQueue
  import opened TicketSafety

  // ----- the log invariant -----

  /** Every enqueue that returned before operation op was called has a ticket below t. */
  ghost predicate After(log: seq<Event>, op: nat, t: nat) {
    forall p :: 0 <= p < |log| && p < op && log[p].EnqReturned? ==> log[p].t < t
  }

  /** The return of an enqueue call, with an answer of true or of false. */
  predicate Closes(e: Event) {
    e.EnqReturned? || e.EnqRefused?
  }

  ghost predicate OpOpen(log: seq<Event>, op: nat) {
    op < |log| && log[op].EnqCalled?
    && forall p :: 0 <= p < |log| && Closes(log[p]) ==> log[p].op != op
  }

  ghost predicate TicketOpen(log: seq<Event>, t: nat) {
    forall p :: 0 <= p < |log| && log[p].EnqReturned? ==> log[p].t != t
  }

  /** The enqueue with ticket u has returned. */
  ghost predicate ReturnedBy(g: Hist, u: nat) {
    exists q :: 0 <= q < |g.log| && g.log[q].EnqReturned? && g.log[q].t == u
  }

  ghost predicate ClaimOpen(log: seq<Event>, h: nat) {
    DeqClaimed(h) in log
    && forall p :: 0 <= p < |log| && log[p].DeqReturned? ==> log[p].h != h
  }

  ghost predicate EventOk(w: Words, g: Hist, p: nat)
    requires p < |g.log|
  {
    match g.log[p]
    case EnqReturned(op, t) =>
      op < p && g.log[op].EnqCalled? && t in g.commit && g.commit[t] == g.log[op].v
      && t < w.tail && After(g.log, op, t)
    case EnqRefused(op, _) => op < p && g.log[op].EnqCalled?
    case DeqClaimed(h) => h < w.head
    case DeqReturned(h, v) => h in g.taken && g.taken[h] == v && DeqClaimed(h) in g.log
    case _ => true
  }

  /** An earlier event a and a later event b. */
  ghost predicate PairOk(a: Event, b: Event) {
    && (a.DeqClaimed? && b.DeqClaimed? ==> a.h < b.h)
    && (a.EnqReturned? && b.EnqReturned? ==> a.t != b.t)
    && (Closes(a) && Closes(b) ==> a.op != b.op)
    && (a.DeqReturned? && b.DeqReturned? ==> a.h != b.h)
  }

  ghost predicate LogCore(w: Words, g: Hist) {
    && (forall p :: 0 <= p < |g.log| ==> EventOk(w, g, p))
    && (forall p, q :: 0 <= p < q < |g.log| ==> PairOk(g.log[p], g.log[q]))
  }

  function OpOf(pc: Pc): Option<nat> {
    if IsEnq(pc) then Some(pc.op) else None
  }

  /** The ticket of an enqueue that has committed and not yet returned. */
  function DoneEnq(pc: Pc): Option<nat> {
    if pc.EnqReadThreshold? || pc.EnqResetThreshold? || pc.EnqCount? then Some(pc.t) else None
  }

  function DoneDeq(pc: Pc): Option<nat> {
    if pc.DeqCount? then Some(pc.h) else None
  }

  ghost predicate LogPc(g: Hist, pc: Pc) {
    && (OpOf(pc).Some? ==> OpOpen(g.log, OpOf(pc).value))
    && (OpOf(pc).Some? && DoneEnq(pc).None? ==> g.log[pc.op].v == pc.v)
    && (EnqTicketOf(pc).Some? ==> After(g.log, pc.op, EnqTicketOf(pc).value))
    && (DoneEnq(pc).Some? ==>
          After(g.log, pc.op, DoneEnq(pc).value) && TicketOpen(g.log, DoneEnq(pc).value)
          && DoneEnq(pc).value in g.commit && g.commit[DoneEnq(pc).value] == g.log[pc.op].v)
    && (DeqTicketOf(pc).Some? ==> DeqClaimed(DeqTicketOf(pc).value) in g.log)
    && (DoneDeq(pc).Some? ==> ClaimOpen(g.log, DoneDeq(pc).value))
  }

  ghost predicate LogApart(a: Pc, b: Pc) {
    && (OpOf(a).Some? ==> OpOf(a) != OpOf(b))
    && (DoneEnq(a).Some? ==> DoneEnq(a) != DoneEnq(b))
    && (DoneDeq(a).Some? ==> DoneDeq(a) != DoneDeq(b))
  }

  ghost predicate LogInv(s: State) {
    && LogCore(s.w, s.g)
    && (forall i :: 0 <= i < |s.pcs| ==> LogPc(s.g, s.pcs[i]))
    && (forall i, k :: 0 <= i < |s.pcs| && 0 <= k < |s.pcs| && i != k ==> LogApart(s.pcs[i], s.pcs[k]))
  }

  // ----- growth -----

  ghost predicate Extends(m: map<nat, Value>, m': map<nat, Value>) {
    forall u :: u in m ==> u in m' && m'[u] == m[u]
  }

  ghost predicate Grows(w: Words, g: Hist, w': Words, g': Hist) {
    w'.head >= w.head && w'.tail >= w.tail && Extends(g.commit, g'.commit) && Extends(g.taken, g'.taken)
  }

  /** What the appended event owes the log before it. */
  ghost predicate Fits(w: Words, g: Hist, e: Event) {
    match e
    case EnqReturned(op, t) =>
      OpOpen(g.log, op) && TicketOpen(g.log, t) && After(g.log, op, t)
      && t in g.commit && g.commit[t] == g.log[op].v && t < w.tail
    case EnqRefused(op, _) => OpOpen(g.log, op)
    case DeqClaimed(h) => h < w.head && forall p :: 0 <= p < |g.log| && g.log[p].DeqClaimed? ==> g.log[p].h < h
    case DeqReturned(h, v) => h in g.taken && g.taken[h] == v && ClaimOpen(g.log, h)
    case _ => true
  }

  lemma CoreGrows(w: Words, g: Hist, w': Words, g': Hist)
    requires LogCore(w, g) && Grows(w, g, w', g') && g'.log == g.log
    ensures LogCore(w', g')
  {
    forall p | 0 <= p < |g'.log| ensures EventOk(w', g', p) {
      assert EventOk(w, g, p);
    }
  }

  lemma CoreAppend(w: Words, g: Hist, e: Event)
    requires LogCore(w, g) && Fits(w, g, e)
    ensures LogCore(w, Logged(g, e))
  {
    var g' := Logged(g, e);
    forall p | 0 <= p < |g'.log| ensures EventOk(w, g', p) {
      if p < |g.log| {
        assert EventOk(w, g, p);
      }
    }
    forall p, q | 0 <= p < q < |g'.log| ensures PairOk(g'.log[p], g'.log[q]) {
      if q < |g.log| {
        assert PairOk(g.log[p], g.log[q]);
      } else {
        assert g'.log[q] == e;
      }
    }
  }

  lemma PcGrows(w: Words, g: Hist, w': Words, g': Hist, pc: Pc)
    requires LogPc(g, pc) && Grows(w, g, w', g') && g'.log == g.log
    ensures LogPc(g', pc)
  {
  }

  /** Another thread's event does not close this thread's operation. */
  ghost predicate Foreign(e: Event, pc: Pc) {
    && (Closes(e) ==> OpOf(pc) != Some(e.op)) && (e.EnqReturned? ==> DoneEnq(pc) != Some(e.t))
    && (e.DeqReturned? ==> DoneDeq(pc) != Some(e.h))
  }

  lemma PcAppend(g: Hist, e: Event, pc: Pc)
    requires LogPc(g, pc) && Foreign(e, pc)
    ensures LogPc(Logged(g, e), pc)
  {
    if OpOf(pc).Some? {
      assert OpOpen(g.log, pc.op);
    }
  }

  // ----- one step -----

  function WithEvent(g: Hist, e: Option<Event>): Hist {
    if e.Some? then Logged(g, e.value) else g
  }

  /** The moving thread keeps its operation and finished tickets or opens new ones. */
  ghost predicate OpMove(g: Hist, pc: Pc, pc': Pc) {
    && (OpOf(pc').Some? ==> OpOf(pc') == OpOf(pc) || OpOf(pc') == Some(|g.log|))
    && (DoneEnq(pc').Some? ==> DoneEnq(pc') == DoneEnq(pc) || DoneEnq(pc').value !in g.commit)
    && (DoneDeq(pc').Some? ==> DoneDeq(pc') == DoneDeq(pc) || DoneDeq(pc').value !in g.taken)
  }

  /** The event closes only the moving thread's own operation. */
  ghost predicate OwnEvent(g: Hist, pc: Pc, e: Option<Event>) {
    e.Some? ==>
      && (Closes(e.value) ==> OpOf(pc) == Some(e.value.op))
      && (e.value.EnqReturned? ==> DoneEnq(pc) == Some(e.value.t))
      && (e.value.DeqReturned? ==> DoneDeq(pc) == Some(e.value.h) || e.value.h !in g.taken)
  }

  lemma ApartAfter(cfg: Config, s: State, i: nat, k: nat, e: Option<Event>, pc': Pc)
    requires Inv(cfg, s) && LogInv(s) && i < |s.pcs| && k < |s.pcs| && k != i
    requires OpMove(s.g, s.pcs[i], pc') && OwnEvent(s.g, s.pcs[i], e)
    ensures LogApart(pc', s.pcs[k]) && LogApart(s.pcs[k], pc')
    ensures e.Some? ==> Foreign(e.value, s.pcs[k])
  {
    assert LogApart(s.pcs[i], s.pcs[k]) && LogApart(s.pcs[k], s.pcs[i]);
    assert LogPc(s.g, s.pcs[k]) && PcOk(cfg.n, s.w, s.slots, s.g, s.pcs[k]);
  }

  lemma LogAssemble(cfg: Config, s: State, i: nat, w': Words, sl': seq<Slot>, gm: Hist,
                    e: Option<Event>, pc': Pc)
    requires Inv(cfg, s) && LogInv(s) && i < |s.pcs|
    requires Grows(s.w, s.g, w', gm) && gm.log == s.g.log
    requires e.Some? ==> Fits(w', gm, e.value)
    requires OpMove(s.g, s.pcs[i], pc') && OwnEvent(s.g, s.pcs[i], e)
    requires LogPc(WithEvent(gm, e), pc')
    ensures LogInv(State(w', sl', Tick(WithEvent(gm, e)), s.pcs[i := pc']))
  {
    var g' := WithEvent(gm, e);
    CoreGrows(s.w, s.g, w', gm);
    if e.Some? {
      CoreAppend(w', gm, e.value);
    }
    CoreGrows(w', g', w', Tick(g'));
    PcGrows(w', g', w', Tick(g'), pc');
    forall k | 0 <= k < |s.pcs| && k != i
      ensures LogPc(Tick(g'), s.pcs[k]) && LogApart(pc', s.pcs[k]) && LogApart(s.pcs[k], pc')
    {
      ApartAfter(cfg, s, i, k, e, pc');
      PcGrows(s.w, s.g, w', gm, s.pcs[k]);
      if e.Some? {
        PcAppend(gm, e.value, s.pcs[k]);
      }
      PcGrows(w', g', w', Tick(g'), s.pcs[k]);
    }
  }

  /** What a control step appends. */
  function NewEvent(g: Hist, g': Hist): Option<Event> {
    if |g'.log| > |g.log| then Some(g'.log[|g'.log| - 1]) else None
  }

  ghost predicate LogGood(w: Words, g: Hist, pc: Pc, l: Local) {
    var e := NewEvent(g, l.g);
    && l.g == WithEvent(g, e) && l.w.head >= w.head && l.w.tail >= w.tail
    && (e.Some? ==> Fits(l.w, g, e.value))
    && OpMove(g, pc, l.pc) && OwnEvent(g, pc, e) && LogPc(l.g, l.pc)
  }

  lemma EnqClaimLog(cfg: Config, w: Words, g: Hist, pc: Pc)
    requires LogCore(w, g) && LogPc(g, pc) && pc.EnqClaim?
    ensures LogGood(w, g, pc, EnqControl(cfg, w, g, pc))
  {
    forall p | 0 <= p < |g.log| && p < pc.op && g.log[p].EnqReturned? ensures g.log[p].t < w.tail {
      assert EventOk(w, g, p);
    }
  }

  lemma EnqReturnLog(w: Words, w': Words, g: Hist, pc: Pc)
    requires LogPc(g, pc) && DoneEnq(pc).Some?
    requires w'.head >= w.head && w'.tail >= w.tail && pc.t < w.tail
    ensures LogGood(w, g, pc, Local(w', Logged(g, EnqReturned(pc.op, pc.t)), Idle))
  {
  }

  lemma EnqRefuseLog(w: Words, g: Hist, pc: Pc)
    requires LogPc(g, pc) && pc.EnqReadEnqOk?
    ensures LogGood(w, g, pc, Local(w, Logged(g, EnqRefused(pc.op, g.clock)), Idle))
  {
  }

  lemma EnqControlLog(cfg: Config, w: Words, g: Hist, pc: Pc)
    requires Tickets(cfg.n, w, g)
    requires LogCore(w, g) && LogPc(g, pc) && !TouchesSlot(pc) && IsEnq(pc)
    ensures LogGood(w, g, pc, EnqControl(cfg, w, g, pc))
  {
    var l := EnqControl(cfg, w, g, pc);
    if pc.EnqClaim? {
      EnqClaimLog(cfg, w, g, pc);
    } else if pc.EnqReadEnqOk? && |l.g.log| > |g.log| {
      EnqRefuseLog(w, g, pc);
    } else if |l.g.log| != |g.log| {
      EnqReturnLog(w, l.w, g, pc);
    } else {
      EnqQuietLog(cfg, w, g, pc);
    }
  }

  /** The steps of an enqueue that append nothing and draw no ticket. */
  lemma EnqQuietLog(cfg: Config, w: Words, g: Hist, pc: Pc)
    requires LogPc(g, pc) && !TouchesSlot(pc) && IsEnq(pc) && !pc.EnqClaim?
    requires |EnqControl(cfg, w, g, pc).g.log| == |g.log|
    ensures LogGood(w, g, pc, EnqControl(cfg, w, g, pc))
  {
    var l := EnqControl(cfg, w, g, pc);
    assert l.g == g && OpMove(g, pc, l.pc);
  }

  lemma DeqClaimLog(cfg: Config, w: Words, g: Hist, pc: Pc, c: Choice)
    requires LogCore(w, g) && pc.DeqClaim?
    ensures LogGood(w, g, pc, DeqControl(cfg, w, g, pc, c))
  {
    forall p | 0 <= p < |g.log| && g.log[p].DeqClaimed? ensures g.log[p].h < w.head {
      assert EventOk(w, g, p);
    }
  }

  lemma DeqCountLog(cfg: Config, w: Words, sl: seq<Slot>, g: Hist, pc: Pc, c: Choice)
    requires Shape(cfg.n, w, sl, g) && PcOk(cfg.n, w, sl, g, pc) && LogPc(g, pc) && pc.DeqCount?
    ensures LogGood(w, g, pc, DeqControl(cfg, w, g, pc, c))
  {
  }

  /** The steps that return empty. */
  lemma DeqEmptyLog(cfg: Config, w: Words, g: Hist, pc: Pc, c: Choice)
    requires !TouchesSlot(pc) && !IsEnq(pc) && !pc.Idle? && !pc.DeqClaim? && !pc.DeqCount?
    requires DeqControl(cfg, w, g, pc, c).pc.Idle?
    ensures LogGood(w, g, pc, DeqControl(cfg, w, g, pc, c))
  {
  }

  /** The steps around the threshold and the repair of the tail. */
  lemma DeqQuietLog(cfg: Config, w: Words, sl: seq<Slot>, g: Hist, pc: Pc, c: Choice)
    requires Shape(cfg.n, w, sl, g) && PcOk(cfg.n, w, sl, g, pc)
    requires !TouchesSlot(pc) && !IsEnq(pc) && !pc.Idle? && !pc.DeqClaim? && !pc.DeqCount?
    requires !DeqControl(cfg, w, g, pc, c).pc.Idle?
    ensures LogGood(w, g, pc, DeqControl(cfg, w, g, pc, c))
  {
  }

  lemma DeqControlLog(cfg: Config, w: Words, sl: seq<Slot>, g: Hist, pc: Pc, c: Choice)
    requires Shape(cfg.n, w, sl, g) && PcOk(cfg.n, w, sl, g, pc) && LogPc(g, pc)
    requires !TouchesSlot(pc) && !IsEnq(pc) && !pc.Idle? && !pc.DeqClaim?
    ensures LogGood(w, g, pc, DeqControl(cfg, w, g, pc, c))
  {
    if pc.DeqCount? {
      DeqCountLog(cfg, w, sl, g, pc, c);
    } else if DeqControl(cfg, w, g, pc, c).pc.Idle? {
      DeqEmptyLog(cfg, w, g, pc, c);
    } else {
      DeqQuietLog(cfg, w, sl, g, pc, c);
    }
  }

  lemma BeginLog(cfg: Config, w: Words, g: Hist, c: Choice)
    requires LogCore(w, g)
    ensures LogGood(w, g, Idle, Begin(cfg, w, g, c))
  {
    forall p | 0 <= p < |g.log| && Closes(g.log[p]) ensures g.log[p].op < |g.log| {
      assert EventOk(w, g, p);
    }
  }

  lemma ControlLogNext(cfg: Config, s: State, c: Choice)
    requires Inv(cfg, s) && LogInv(s) && c.tid < |s.pcs| && !TouchesSlot(s.pcs[c.tid])
    ensures LogInv(Next(cfg, s, c))
  {
    var pc := s.pcs[c.tid];
    var l := Control(cfg, s.w, s.g, pc, c);
    if pc.Idle? {
      BeginLog(cfg, s.w, s.g, c);
    } else if IsEnq(pc) {
      EnqControlLog(cfg, s.w, s.g, pc);
    } else if pc.DeqClaim? {
      DeqClaimLog(cfg, s.w, s.g, pc, c);
    } else {
      DeqControlLog(cfg, s.w, s.slots, s.g, pc, c);
    }
    LogAssemble(cfg, s, c.tid, l.w, s.slots, s.g, NewEvent(s.g, l.g), l.pc);
  }

  lemma EnqMoveLog(cfg: Config, w: Words, sl: Slot, g: Hist, pc: Pc, c: Choice)
    requires (pc.EnqLoad? || pc.EnqCas?) && SlotOf(cfg.n, pc.t) < |g.wrote|
    requires LogPc(g, pc) && !SlotStep(cfg, w, sl, g, pc, c).pc.EnqReadThreshold?
    ensures var e := SlotStep(cfg, w, sl, g, pc, c);
            e.w == w && e.g == g && OpMove(g, pc, e.pc) && LogPc(g, e.pc)
  {
  }

  lemma DeqMoveLog(cfg: Config, w: Words, sl: Slot, g: Hist, pc: Pc, c: Choice)
    requires (pc.DeqLoad? || pc.DeqCas?) && SlotOf(cfg.n, pc.h) < |g.wrote| && LogPc(g, pc)
    ensures var e := SlotStep(cfg, w, sl, g, pc, c);
            && e.w == w && e.g.log == g.log && e.g.commit == g.commit && e.g.taken == g.taken
            && OpMove(g, pc, e.pc) && LogPc(e.g, e.pc)
  {
  }

  /** Slot steps other than a commit only move the pc. */
  lemma SlotMoveLog(cfg: Config, w: Words, sl: Slot, g: Hist, pc: Pc, c: Choice)
    requires TouchesSlot(pc) && !pc.DeqTake? && SlotOf(cfg.n, SlotTicket(pc)) < |g.wrote|
    requires LogPc(g, pc) && !SlotStep(cfg, w, sl, g, pc, c).pc.EnqReadThreshold?
    ensures var e := SlotStep(cfg, w, sl, g, pc, c);
            && e.w == w && e.g.log == g.log && e.g.commit == g.commit && e.g.taken == g.taken
            && OpMove(g, pc, e.pc) && LogPc(e.g, e.pc)
  {
    if pc.EnqLoad? || pc.EnqCas? {
      EnqMoveLog(cfg, w, sl, g, pc, c);
    } else {
      DeqMoveLog(cfg, w, sl, g, pc, c);
    }
  }

  lemma SlotLogNext(cfg: Config, s: State, c: Choice)
    requires Inv(cfg, s) && LogInv(s) && c.tid < |s.pcs| && TouchesSlot(s.pcs[c.tid])
    requires !s.pcs[c.tid].DeqTake?
    requires var pc := s.pcs[c.tid];
             !SlotStep(cfg, s.w, s.slots[SlotOf(cfg.n, SlotTicket(pc))], s.g, pc, c).pc.EnqReadThreshold?
    ensures LogInv(Next(cfg, s, c))
  {
    var pc := s.pcs[c.tid];
    var j := SlotOf(cfg.n, SlotTicket(pc));
    var e := SlotStep(cfg, s.w, s.slots[j], s.g, pc, c);
    SlotMoveLog(cfg, s.w, s.slots[j], s.g, pc, c);
    LogAssemble(cfg, s, c.tid, e.w, s.slots[j := e.slot], e.g, None, e.pc);
  }

  lemma CommitLogNext(cfg: Config, s: State, c: Choice)
    requires Inv(cfg, s) && LogInv(s) && c.tid < |s.pcs| && s.pcs[c.tid].EnqCas?
    requires var pc := s.pcs[c.tid];
             EnqCasStep(cfg, s.w, s.slots[SlotOf(cfg.n, pc.t)], s.g, pc, c.fail).pc.EnqReadThreshold?
    ensures LogInv(Next(cfg, s, c))
  {
    var pc := s.pcs[c.tid];
    var j := SlotOf(cfg.n, pc.t);
    var e := EnqCasStep(cfg, s.w, s.slots[j], s.g, pc, c.fail);
    assert PcOk(cfg.n, s.w, s.slots, s.g, pc) && LogPc(s.g, pc);
    forall p | 0 <= p < |s.g.log| && s.g.log[p].EnqReturned? ensures s.g.log[p].t != pc.t {
      assert EventOk(s.w, s.g, p);
    }
    LogAssemble(cfg, s, c.tid, e.w, s.slots[j := e.slot], e.g, None, e.pc);
  }

  lemma TakeLogNext(cfg: Config, s: State, c: Choice)
    requires Inv(cfg, s) && LogInv(s) && c.tid < |s.pcs| && s.pcs[c.tid].DeqTake?
    ensures LogInv(Next(cfg, s, c))
  {
    var pc := s.pcs[c.tid];
    var j := SlotOf(cfg.n, SlotTicket(pc));
    var e := DeqTakeStep(cfg, s.w, s.slots[j], s.g, pc);
    var gm := s.g.(taken := s.g.taken[pc.h := pc.v]);
    assert PcOk(cfg.n, s.w, s.slots, s.g, pc) && LogPc(s.g, pc);
    forall p | 0 <= p < |s.g.log| && s.g.log[p].DeqReturned? ensures s.g.log[p].h != pc.h {
      assert EventOk(s.w, s.g, p);
    }
    LogAssemble(cfg, s, c.tid, e.w, s.slots[j := e.slot], gm,
                if cfg.variant.Scq? then Some(DeqReturned(pc.h, pc.v)) else None, e.pc);
  }

  lemma LogNext(cfg: Config, s: State, c: Choice)
    requires Inv(cfg, s) && LogInv(s)
    ensures LogInv(Next(cfg, s, c))
  {
    if c.tid >= |s.pcs| {
      CoreGrows(s.w, s.g, s.w, Tick(s.g));
      forall k | 0 <= k < |s.pcs| ensures LogPc(Tick(s.g), s.pcs[k]) {
        PcGrows(s.w, s.g, s.w, Tick(s.g), s.pcs[k]);
      }
    } else if !TouchesSlot(s.pcs[c.tid]) {
      ControlLogNext(cfg, s, c);
    } else if s.pcs[c.tid].DeqTake? {
      TakeLogNext(cfg, s, c);
    } else {
      var pc := s.pcs[c.tid];
      var j := SlotOf(cfg.n, SlotTicket(pc));
      if SlotStep(cfg, s.w, s.slots[j], s.g, pc, c).pc.EnqReadThreshold? {
        CommitLogNext(cfg, s, c);
      } else {
        SlotLogNext(cfg, s, c);
      }
    }
  }

  lemma {:induction false} RunLogInv(cfg: Config, threads: nat, sch: seq<Choice>)
    requires cfg.Valid()
    ensures LogInv(Run(cfg, threads, sch))
  {
    if sch != [] {
      var before := sch[..|sch| - 1];
      RunInv(cfg, threads, before);
      RunLogInv(cfg, threads, before);
      LogNext(cfg, Run(cfg, threads, before), sch[|sch| - 1]);
    }
  }

  // ----- theorems about every run -----

  lemma ReturnedOnce(cfg: Config, s: State, p: nat, q: nat)
    requires Inv(cfg, s) && LogInv(s) && p < |s.g.log| && q < |s.g.log|
    requires s.g.log[p].DeqReturned? && s.g.log[q].DeqReturned?
    ensures s.g.log[p].h in s.g.commit && s.g.commit[s.g.log[p].h] == s.g.log[p].v
    ensures s.g.log[p].h == s.g.log[q].h ==> p == q
  {
    assert EventOk(s.w, s.g, p);
    if p < q {
      assert PairOk(s.g.log[p], s.g.log[q]);
    } else if q < p {
      assert PairOk(s.g.log[q], s.g.log[p]);
    }
  }

  lemma ClaimOrder(s: State, p: nat, k: nat, x: nat, y: nat)
    requires LogInv(s) && p < |s.g.log| && k < |s.g.log| && x < |s.g.log| && y < |s.g.log|
    requires s.g.log[p].EnqReturned? && s.g.log[k].EnqReturned? && p < s.g.log[k].op
    requires s.g.log[x] == DeqClaimed(s.g.log[p].t) && s.g.log[y] == DeqClaimed(s.g.log[k].t)
    ensures x < y
  {
    assert EventOk(s.w, s.g, k);
    assert s.g.log[p].t < s.g.log[k].t;
  }

  lemma ValueOfCall(s: State, cfg: Config, p: nat, r: nat)
    requires Inv(cfg, s) && LogInv(s) && p < |s.g.log| && r < |s.g.log|
    requires s.g.log[p].EnqReturned? && s.g.log[r].DeqReturned? && s.g.log[r].h == s.g.log[p].t
    ensures s.g.log[p].op < p && s.g.log[s.g.log[p].op] == EnqCalled(s.g.log[r].v)
  {
    assert EventOk(s.w, s.g, p) && EventOk(s.w, s.g, r);
  }

  /** A value is returned under ticket h only if it was committed under enqueue
      ticket h, and no ticket is returned twice. */
  lemma ReturnedOnceAndAsCommitted(cfg: Config, threads: nat, sch: seq<Choice>)
    requires cfg.Valid()
    ensures var g := Run(cfg, threads, sch).g;
            forall p, q :: 0 <= p < |g.log| && 0 <= q < |g.log|
                           && g.log[p].DeqReturned? && g.log[q].DeqReturned? ==>
              && g.log[p].h in g.commit && g.commit[g.log[p].h] == g.log[p].v
              && (g.log[p].h == g.log[q].h ==> p == q)
  {
    var s := Run(cfg, threads, sch);
    RunInv(cfg, threads, sch);
    RunLogInv(cfg, threads, sch);
    forall p, q | 0 <= p < |s.g.log| && 0 <= q < |s.g.log|
                  && s.g.log[p].DeqReturned? && s.g.log[q].DeqReturned?
      ensures s.g.log[p].h in s.g.commit && s.g.commit[s.g.log[p].h] == s.g.log[p].v
      ensures s.g.log[p].h == s.g.log[q].h ==> p == q
    {
      ReturnedOnce(cfg, s, p, q);
    }
  }

  /** First in, first out: if enqueue a returned (at p) before enqueue b was called
      (at log[k].op) and both tickets are claimed by dequeuers, a's is claimed first. */
  lemma TicketFifo(cfg: Config, threads: nat, sch: seq<Choice>)
    requires cfg.Valid()
    ensures var log := Run(cfg, threads, sch).g.log;
            forall p, k, x, y ::
              && 0 <= p < |log| && 0 <= k < |log| && 0 <= x < |log| && 0 <= y < |log|
              && log[p].EnqReturned? && log[k].EnqReturned? && p < log[k].op
              && log[x] == DeqClaimed(log[p].t) && log[y] == DeqClaimed(log[k].t)
              ==> x < y
  {
    var s := Run(cfg, threads, sch);
    RunLogInv(cfg, threads, sch);
    forall p, k, x, y | 0 <= p < |s.g.log| && 0 <= k < |s.g.log| && 0 <= x < |s.g.log| && 0 <= y < |s.g.log|
                        && s.g.log[p].EnqReturned? && s.g.log[k].EnqReturned? && p < s.g.log[k].op
                        && s.g.log[x] == DeqClaimed(s.g.log[p].t)
                        && s.g.log[y] == DeqClaimed(s.g.log[k].t)
      ensures x < y
    {
      ClaimOrder(s, p, k, x, y);
    }
  }

  /** What is returned under the ticket of an enqueue call is what that call logged. */
  lemma ReturnedIsLogged(cfg: Config, threads: nat, sch: seq<Choice>)
    requires cfg.Valid()
    ensures var log := Run(cfg, threads, sch).g.log;
            forall p, r ::
              && 0 <= p < |log| && 0 <= r < |log| && log[p].EnqReturned? && log[r].DeqReturned?
              && log[r].h == log[p].t
              ==> log[p].op < p && log[log[p].op] == EnqCalled(log[r].v)
  {
    var s := Run(cfg, threads, sch);
    RunInv(cfg, threads, sch);
    RunLogInv(cfg, threads, sch);
    forall p, r | 0 <= p < |s.g.log| && 0 <= r < |s.g.log| && s.g.log[p].EnqReturned?
                  && s.g.log[r].DeqReturned? && s.g.log[r].h == s.g.log[p].t
      ensures s.g.log[p].op < p && s.g.log[s.g.log[p].op] == EnqCalled(s.g.log[r].v)
    {
      ValueOfCall(s, cfg, p, r);
    }
  }
}
