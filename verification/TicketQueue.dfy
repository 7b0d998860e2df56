/** SCQ and the pointer mode of SCQP as one state machine over atomic accesses.

    Every step performs one access to shared memory (a load, store, fetch_add,
    CAS2, exchange or atomic OR); local computation is folded into the step that
    produced its operands.  A run is any sequence of choices, so every
    interleaving of any number of threads is a run.  Tickets are unbounded. */
module TicketQueue {
  import opened Ring

  /** An index (SCQ) or the identity of a non-null pointer (SCQP). */
  type Value = nat

  /** `ScqpIdx` adds the option to give up a ticket just before the CAS2; the
      index mode of SCQP is simulated by it (see module IndexQueue). */
  datatype Variant = Scq | ScqpPtr | ScqpIdx

  datatype Config = Config(variant: Variant, n: nat) {
    ghost predicate Valid() { RingSize(n) }

    /** The value to which a successful enqueue resets the threshold. */
    function ThresholdReset(): int {
      if variant.Scq? then n + n / 2 - 1 else 2 * n - 1
    }

    /** SCQ refuses its bottom marker n - 1 and everything above it. */
    predicate Accepts(arg: Option<Value>) {
      arg.Some? && (variant.Scq? ==> arg.value < n - 1)
    }
  }

  const MAX_INNER_RETRIES: nat := 1024

  datatype Slot = Slot(cycle: nat, safe: bool, val: Option<Value>)

  /** The atomic words beside the slots. */
  datatype Words = Words(head: nat, tail: nat, threshold: int, deqOk: nat, enqOk: nat)

  /** Log of calls and returns.  An operation is named by the log index of its
      call; times are step counts. */
  datatype Event =
    | EnqCalled(v: Value)
    | EnqReturned(op: nat, t: nat)
    | EnqRefused(op: nat, returned: nat)
    | DeqClaimed(h: nat)
    | DeqReturned(h: nat, v: Value)
    | DeqEmpty(tid: nat, started: nat, seen: Option<nat>, returned: nat)

  /** What happened so far: which ticket committed or was taken with which value,
      which tickets were left without an element (dead) or by the retry valve
      (abandoned), and the ticket that last filled each slot. */
  datatype Hist = Hist(commit: map<nat, Value>, taken: map<nat, Value>,
                       dead: set<nat>, abandoned: set<nat>,
                       wrote: seq<nat>, log: seq<Event>, clock: nat)

  /** Program counters with the locals that are live there. */
  datatype Pc =
    | Idle
    | EnqReadDeqOk(v: Value, op: nat)
    | EnqReadEnqOk(v: Value, op: nat, deqSeen: nat)
    | EnqClaim(v: Value, op: nat)
    | EnqLoad(v: Value, op: nat, t: nat)
    | EnqHead(v: Value, op: nat, t: nat, ent: Slot)
    | EnqCas(v: Value, op: nat, t: nat, ent: Slot)
    | EnqReadThreshold(op: nat, t: nat)
    | EnqResetThreshold(op: nat, t: nat)
    | EnqCount(op: nat, t: nat)
    | DeqReadThreshold(started: nat)
    | DeqEntryHead(started: nat)
    | DeqEntryTail(started: nat, headSeen: nat)
    | DeqLoopReset(started: nat)
    | DeqClaim(started: nat)
    | DeqLoad(started: nat, h: nat, retries: nat)
    | DeqCas(started: nat, h: nat, retries: nat, ent: Slot)
    | DeqTake(started: nat, h: nat, v: Value)
    | DeqCount(h: nat, v: Value)
    | DeqTail(started: nat, h: nat)
    | DeqPenalty(started: nat, seen: Option<nat>)
    | DeqHeadNow(started: nat, seen: Option<nat>)
    | DeqTailNow(started: nat, seen: Option<nat>, headSeen: nat)
    | FixHead(started: nat, seen: Option<nat>)
    | FixTail(started: nat, seen: Option<nat>, headSeen: nat)
    | FixCas(started: nat, seen: Option<nat>, headSeen: nat, tailSeen: nat)
    | DeqFinalReset(started: nat, seen: Option<nat>)

  datatype State = State(w: Words, slots: seq<Slot>, g: Hist, pcs: seq<Pc>)

  /** The scheduler's choice: which thread moves, what an idle thread starts, and
      whether a weak CAS fails spuriously or a ticket is given up. */
  datatype Choice = Choice(tid: nat, deq: bool, arg: Option<Value>, fail: bool)

  /** The effect of a step on the words, the history and the moving thread. */
  datatype Local = Local(w: Words, g: Hist, pc: Pc)

  // ----- decisions taken on a loaded slot -----

  datatype EnqDecision = Skip | CheckHead | TryCommit

  function EnqDecide(cycleT: nat, cycle: nat, safe: bool, occupied: bool): EnqDecision {
    if cycle < cycleT && !occupied then (if safe then TryCommit else CheckHead) else Skip
  }

  datatype DeqDecision = Spin | Leave | Abandon | Take | TryMark

  function DeqDecide(variant: Variant, cycleH: nat, cycle: nat, safe: bool, occupied: bool,
                     retries: nat): DeqDecision
  {
    if cycle == cycleH then
      if variant.Scq? then
        if !safe then Spin else if !occupied then Leave else Take
      else
        if !occupied then Leave
        else if !safe then (if retries + 1 > MAX_INNER_RETRIES then Abandon else Spin)
        else Take
    else if cycle < cycleH then TryMark
    else Leave
  }

  /** What a dequeuer that finds an older cycle installs: an empty slot is
      advanced to its cycle, an occupied one is marked unsafe. */
  function Marked(ent: Slot, cycleH: nat): Slot {
    if ent.val.None? then Slot(cycleH, ent.safe, None) else Slot(ent.cycle, false, ent.val)
  }

  /** Where an enqueuer continues that did not get its slot. */
  function NextTicket(variant: Variant, v: Value, op: nat): Pc {
    if variant.Scq? then EnqClaim(v, op) else EnqReadDeqOk(v, op)
  }

  // ----- history updates -----

  function Logged(g: Hist, e: Event): Hist { g.(log := g.log + [e]) }

  function Empty(w: Words, g: Hist, tid: nat, started: nat, seen: Option<nat>): Local {
    Local(w, Logged(g, DeqEmpty(tid, started, seen, g.clock)), Idle)
  }

  // ----- steps that do not touch a slot -----

  predicate TouchesSlot(pc: Pc) {
    pc.EnqLoad? || pc.EnqCas? || pc.DeqLoad? || pc.DeqCas? || pc.DeqTake?
  }

  /** SCQ returns here; SCQP still counts the success. */
  function EnqCommitted(cfg: Config, w: Words, g: Hist, op: nat, t: nat): Local {
    if cfg.variant.Scq? then Local(w, Logged(g, EnqReturned(op, t)), Idle)
    else Local(w, g, EnqCount(op, t))
  }

  predicate IsEnq(pc: Pc) {
    pc.EnqReadDeqOk? || pc.EnqReadEnqOk? || pc.EnqClaim? || pc.EnqLoad? || pc.EnqHead? || pc.EnqCas?
    || pc.EnqReadThreshold? || pc.EnqResetThreshold? || pc.EnqCount?
  }

  function EnqControl(cfg: Config, w: Words, g: Hist, pc: Pc): Local {
    match pc
    case EnqReadDeqOk(v, op) => Local(w, g, EnqReadEnqOk(v, op, w.deqOk))
    case EnqReadEnqOk(v, op, deqSeen) =>
      if w.enqOk >= deqSeen && w.enqOk - deqSeen >= cfg.n then Local(w, Logged(g, EnqRefused(op, g.clock)), Idle)
      else Local(w, g, EnqClaim(v, op))
    case EnqClaim(v, op) => Local(w.(tail := w.tail + 1), g, EnqLoad(v, op, w.tail))
    case EnqHead(v, op, t, ent) =>
      Local(w, g, if w.head <= t then EnqCas(v, op, t, ent) else NextTicket(cfg.variant, v, op))
    case EnqReadThreshold(op, t) =>
      if w.threshold != cfg.ThresholdReset() then Local(w, g, EnqResetThreshold(op, t))
      else EnqCommitted(cfg, w, g, op, t)
    case EnqResetThreshold(op, t) =>
      EnqCommitted(cfg, w.(threshold := cfg.ThresholdReset()), g, op, t)
    case EnqCount(op, t) =>
      Local(w.(enqOk := w.enqOk + 1), Logged(g, EnqReturned(op, t)), Idle)
    case _ => Local(w, g, pc)
  }

  function DeqControl(cfg: Config, w: Words, g: Hist, pc: Pc, c: Choice): Local {
    match pc
    case DeqReadThreshold(a) => Local(w, g, if w.threshold < 0 then DeqEntryHead(a) else DeqClaim(a))
    case DeqEntryHead(a) => Local(w, g, DeqEntryTail(a, w.head))
    case DeqEntryTail(a, headSeen) =>
      if w.tail > headSeen then Local(w, g, DeqLoopReset(a))
      else Empty(w, g, c.tid, a, Some(g.clock))
    case DeqLoopReset(a) => Local(w.(threshold := cfg.ThresholdReset()), g, DeqClaim(a))
    case DeqClaim(a) =>
      Local(w.(head := w.head + 1), Logged(g, DeqClaimed(w.head)), DeqLoad(a, w.head, 0))
    case DeqCount(h, v) => Local(w.(deqOk := w.deqOk + 1), Logged(g, DeqReturned(h, v)), Idle)
    case DeqTail(a, h) =>
      Local(w, g, DeqPenalty(a, if w.tail <= h + 1 then Some(g.clock) else None))
    case DeqPenalty(a, x) =>
      var w' := w.(threshold := w.threshold - 1);
      if w'.threshold <= 0 then Local(w', g, DeqHeadNow(a, x))
      else if x.Some? then Empty(w', g, c.tid, a, x)
      else Local(w', g, DeqClaim(a))
    case DeqHeadNow(a, x) => Local(w, g, DeqTailNow(a, x, w.head))
    case DeqTailNow(a, x, headSeen) =>
      if w.tail > headSeen then
        if cfg.variant.Scq? then Local(w, g, DeqFinalReset(a, x))
        else if x.None? then Local(w, g, DeqLoopReset(a))
        else Empty(w, g, c.tid, a, x)
      else
        var x' := if x.Some? then x else Some(g.clock);
        if headSeen - w.tail > cfg.n then Local(w, g, FixHead(a, x')) else Empty(w, g, c.tid, a, x')
    case FixHead(a, x) => Local(w, g, FixTail(a, x, w.head))
    case FixTail(a, x, h) =>
      Local(w, g, if h <= w.tail || h - w.tail <= cfg.n then DeqFinalReset(a, x)
                  else FixCas(a, x, h, w.tail))
    case FixCas(a, x, h, t) =>
      if c.fail || w.tail != t then Local(w, g, FixHead(a, x))
      else Local(w.(tail := h), g, DeqFinalReset(a, x))
    case DeqFinalReset(a, x) => Empty(w.(threshold := cfg.ThresholdReset()), g, c.tid, a, x)
    case _ => Local(w, g, pc)
  }

  function Begin(cfg: Config, w: Words, g: Hist, c: Choice): Local {
    if c.deq then Local(w, g, DeqReadThreshold(g.clock))
    else if cfg.Accepts(c.arg) then
      Local(w, Logged(g, EnqCalled(c.arg.value)), NextTicket(cfg.variant, c.arg.value, |g.log|))
    else Local(w, g, Idle)
  }

  function Control(cfg: Config, w: Words, g: Hist, pc: Pc, c: Choice): (l: Local)
    ensures |l.g.wrote| == |g.wrote| && l.g.clock == g.clock
  {
    if pc.Idle? then Begin(cfg, w, g, c)
    else if IsEnq(pc) then EnqControl(cfg, w, g, pc)
    else DeqControl(cfg, w, g, pc, c)
  }

  // ----- steps on a slot -----

  /** The effect of a step that may also write slot j. */
  datatype SlotEffect = SlotEffect(slot: Slot, w: Words, g: Hist, pc: Pc)

  function EnqLoadStep(cfg: Config, w: Words, sl: Slot, g: Hist, pc: Pc): SlotEffect
    requires pc.EnqLoad?
  {
    match EnqDecide(Cycle(cfg.n, pc.t), sl.cycle, sl.safe, sl.val.Some?)
    case Skip => SlotEffect(sl, w, g, NextTicket(cfg.variant, pc.v, pc.op))
    case CheckHead => SlotEffect(sl, w, g, EnqHead(pc.v, pc.op, pc.t, sl))
    case TryCommit => SlotEffect(sl, w, g, EnqCas(pc.v, pc.op, pc.t, sl))
  }

  function Committed(g: Hist, j: nat, t: nat, v: Value): Hist
    requires j < |g.wrote|
  {
    g.(commit := g.commit[t := v], wrote := g.wrote[j := t])
  }

  function EnqCasStep(cfg: Config, w: Words, sl: Slot, g: Hist, pc: Pc, giveUp: bool): SlotEffect
    requires pc.EnqCas? && SlotOf(cfg.n, pc.t) < |g.wrote|
  {
    if cfg.variant.ScqpIdx? && giveUp then SlotEffect(sl, w, g, NextTicket(cfg.variant, pc.v, pc.op))
    else if sl != pc.ent then SlotEffect(sl, w, g, EnqLoad(pc.v, pc.op, pc.t))
    else SlotEffect(Slot(Cycle(cfg.n, pc.t), true, Some(pc.v)), w,
                    Committed(g, SlotOf(cfg.n, pc.t), pc.t, pc.v),
                    EnqReadThreshold(pc.op, pc.t))
  }

  function DeqLoadStep(cfg: Config, w: Words, sl: Slot, g: Hist, pc: Pc): SlotEffect
    requires pc.DeqLoad?
  {
    match DeqDecide(cfg.variant, Cycle(cfg.n, pc.h), sl.cycle, sl.safe, sl.val.Some?, pc.retries)
    case Spin => SlotEffect(sl, w, g, DeqLoad(pc.started, pc.h, pc.retries + 1))
    case Leave => SlotEffect(sl, w, g.(dead := g.dead + {pc.h}), DeqTail(pc.started, pc.h))
    case Abandon => SlotEffect(sl, w, g.(abandoned := g.abandoned + {pc.h}), DeqTail(pc.started, pc.h))
    case Take => SlotEffect(sl, w, g, DeqTake(pc.started, pc.h, sl.val.value))
    case TryMark => SlotEffect(sl, w, g, DeqCas(pc.started, pc.h, pc.retries, sl))
  }

  function DeqCasStep(cfg: Config, w: Words, sl: Slot, g: Hist, pc: Pc): SlotEffect
    requires pc.DeqCas?
  {
    if sl != pc.ent then SlotEffect(sl, w, g, DeqLoad(pc.started, pc.h, pc.retries))
    else SlotEffect(Marked(sl, Cycle(cfg.n, pc.h)), w, g.(dead := g.dead + {pc.h}),
                    DeqTail(pc.started, pc.h))
  }

  /** The exchange with null, or the atomic OR with bottom: only the payload goes. */
  function DeqTakeStep(cfg: Config, w: Words, sl: Slot, g: Hist, pc: Pc): SlotEffect
    requires pc.DeqTake?
  {
    var g' := g.(taken := g.taken[pc.h := pc.v]);
    if cfg.variant.Scq? then
      SlotEffect(sl.(val := None), w, Logged(g', DeqReturned(pc.h, pc.v)), Idle)
    else SlotEffect(sl.(val := None), w, g', DeqCount(pc.h, pc.v))
  }

  function SlotTicket(pc: Pc): nat
    requires TouchesSlot(pc)
  {
    if pc.EnqLoad? || pc.EnqCas? then pc.t else pc.h
  }

  function SlotStep(cfg: Config, w: Words, sl: Slot, g: Hist, pc: Pc, c: Choice): (e: SlotEffect)
    requires TouchesSlot(pc) && SlotOf(cfg.n, SlotTicket(pc)) < |g.wrote|
    ensures |e.g.wrote| == |g.wrote| && e.g.clock == g.clock
  {
    match pc
    case EnqLoad(_, _, _) => EnqLoadStep(cfg, w, sl, g, pc)
    case EnqCas(_, _, _, _) => EnqCasStep(cfg, w, sl, g, pc, c.fail)
    case DeqLoad(_, _, _) => DeqLoadStep(cfg, w, sl, g, pc)
    case DeqCas(_, _, _, _) => DeqCasStep(cfg, w, sl, g, pc)
    case DeqTake(_, _, _) => DeqTakeStep(cfg, w, sl, g, pc)
  }

  // ----- runs -----

  ghost predicate Sized(cfg: Config, s: State) {
    cfg.Valid() && |s.slots| == cfg.n && |s.g.wrote| == cfg.n
  }

  function Init(cfg: Config, threads: nat): State {
    State(Words(cfg.n, cfg.n, cfg.ThresholdReset(), 0, 0),
          seq(cfg.n, _ => Slot(0, true, None)),
          Hist(map[], map[], {}, {}, seq(cfg.n, _ => 0), [], 0),
          seq(threads, _ => Idle))
  }

  function Tick(g: Hist): Hist { g.(clock := g.clock + 1) }

  function Next(cfg: Config, s: State, c: Choice): (s': State)
    requires Sized(cfg, s)
    ensures Sized(cfg, s') && |s'.pcs| == |s.pcs| && s'.g.clock == s.g.clock + 1
  {
    if c.tid >= |s.pcs| then s.(g := Tick(s.g))
    else
      var pc := s.pcs[c.tid];
      if TouchesSlot(pc) then
        var j := SlotOf(cfg.n, SlotTicket(pc));
        var e := SlotStep(cfg, s.w, s.slots[j], s.g, pc, c);
        State(e.w, s.slots[j := e.slot], Tick(e.g), s.pcs[c.tid := e.pc])
      else
        var l := Control(cfg, s.w, s.g, pc, c);
        State(l.w, s.slots, Tick(l.g), s.pcs[c.tid := l.pc])
  }

  function Run(cfg: Config, threads: nat, sch: seq<Choice>): (s: State)
    requires cfg.Valid()
    ensures Sized(cfg, s) && |s.pcs| == threads && s.g.clock == |sch|
  {
    if sch == [] then Init(cfg, threads)
    else Next(cfg, Run(cfg, threads, sch[..|sch| - 1]), sch[|sch| - 1])
  }
}
