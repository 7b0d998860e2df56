/** The index mode of SCQP: entries hold the slot index, the pointers live in a
    side array.  An enqueuer first places its pointer, then commits by CAS2, and
    takes the pointer back when the CAS2 fails. */
module IndexQueue {
  import opened Ring
  import opened TicketQueue

  /** `idx` is None for the empty-index marker. */
  datatype Entry = Entry(cycle: nat, safe: bool, idx: Option<nat>)

  /** History: to whom the pointer in a side-array cell belongs. */
  datatype Owner = Free | Placer(tid: nat) | Filled(u: nat)

  /** `filled` records the ticket that filled the loaded entry (history only). */
  datatype IPc =
    | Plain(pc: Pc)
    | IEnqHead(v: Value, op: nat, t: nat, ent: Entry)
    | IEnqPlace(v: Value, op: nat, t: nat, ent: Entry)
    | IEnqCas(v: Value, op: nat, t: nat, ent: Entry)
    | IEnqRollback(v: Value, op: nat, t: nat)
    | IDeqCas(started: nat, h: nat, retries: nat, ent: Entry, filled: nat)
    | IDeqExchange(started: nat, h: nat, idx: nat)
    | IDeqClear(started: nat, h: nat, value: Option<Value>)

  datatype IState = IState(w: Words, ents: seq<Entry>, ptrs: seq<Option<Value>>, g: Hist,
                           own: seq<Owner>, exchanged: set<nat>, pcs: seq<IPc>)

  ghost predicate ISized(cfg: Config, s: IState) {
    && cfg.Valid() && cfg.variant.ScqpIdx? && |s.ents| == cfg.n && |s.ptrs| == cfg.n
    && |s.own| == cfg.n && |s.g.wrote| == cfg.n
  }

  function IInit(cfg: Config, threads: nat): IState {
    IState(Words(cfg.n, cfg.n, cfg.ThresholdReset(), 0, 0),
           seq(cfg.n, _ => Entry(0, true, None)), seq(cfg.n, _ => None),
           Hist(map[], map[], {}, {}, seq(cfg.n, _ => 0), [], 0),
           seq(cfg.n, _ => Free), {}, seq(threads, _ => Plain(Idle)))
  }

  function IEnqLoadPc(cfg: Config, e: Entry, v: Value, op: nat, t: nat): IPc {
    match EnqDecide(Cycle(cfg.n, t), e.cycle, e.safe, e.idx.Some?)
    case Skip => Plain(NextTicket(cfg.variant, v, op))
    case CheckHead => IEnqHead(v, op, t, e)
    case TryCommit => IEnqPlace(v, op, t, e)
  }

  function IDeqLoad(cfg: Config, s: IState, tid: nat, e: Entry, pc: Pc): IState
    requires ISized(cfg, s) && tid < |s.pcs| && pc.DeqLoad?
  {
    match DeqDecide(cfg.variant, Cycle(cfg.n, pc.h), e.cycle, e.safe, e.idx.Some?, pc.retries)
    case Spin => s.(pcs := s.pcs[tid := Plain(DeqLoad(pc.started, pc.h, pc.retries + 1))])
    case Leave =>
      s.(g := s.g.(dead := s.g.dead + {pc.h}), pcs := s.pcs[tid := Plain(DeqTail(pc.started, pc.h))])
    case Abandon =>
      s.(g := s.g.(abandoned := s.g.abandoned + {pc.h}),
         pcs := s.pcs[tid := Plain(DeqTail(pc.started, pc.h))])
    case Take => s.(pcs := s.pcs[tid := IDeqExchange(pc.started, pc.h, e.idx.value)])
    case TryMark =>
      s.(pcs := s.pcs[tid := IDeqCas(pc.started, pc.h, pc.retries, e, s.g.wrote[SlotOf(cfg.n, pc.h)])])
  }

  function IPlain(cfg: Config, s: IState, pc: Pc, c: Choice): IState
    requires ISized(cfg, s) && c.tid < |s.pcs|
  {
    if pc.EnqLoad? then
      var e := s.ents[SlotOf(cfg.n, pc.t)];
      s.(pcs := s.pcs[c.tid := IEnqLoadPc(cfg, e, pc.v, pc.op, pc.t)])
    else if pc.DeqLoad? then IDeqLoad(cfg, s, c.tid, s.ents[SlotOf(cfg.n, pc.h)], pc)
    else if TouchesSlot(pc) || pc.EnqHead? then s
    else
      var l := Control(cfg, s.w, s.g, pc, c);
      s.(w := l.w, g := l.g, pcs := s.pcs[c.tid := Plain(l.pc)])
  }

  /** The side-array CAS: null -> v. */
  function IPlace(cfg: Config, s: IState, pc: IPc, tid: nat): IState
    requires ISized(cfg, s) && tid < |s.pcs| && pc.IEnqPlace?
  {
    var j := SlotOf(cfg.n, pc.t);
    if s.ptrs[j].Some? then s.(pcs := s.pcs[tid := Plain(NextTicket(cfg.variant, pc.v, pc.op))])
    else s.(ptrs := s.ptrs[j := Some(pc.v)], own := s.own[j := Placer(tid)],
            pcs := s.pcs[tid := IEnqCas(pc.v, pc.op, pc.t, pc.ent)])
  }

  /** The entry CAS2. */
  function ICommit(cfg: Config, s: IState, pc: IPc, tid: nat): IState
    requires ISized(cfg, s) && tid < |s.pcs| && pc.IEnqCas?
  {
    var j := SlotOf(cfg.n, pc.t);
    if s.ents[j] != pc.ent then s.(pcs := s.pcs[tid := IEnqRollback(pc.v, pc.op, pc.t)])
    else s.(ents := s.ents[j := Entry(Cycle(cfg.n, pc.t), true, Some(j))],
            g := Committed(s.g, j, pc.t, pc.v), own := s.own[j := Filled(pc.t)],
            pcs := s.pcs[tid := Plain(EnqReadThreshold(pc.op, pc.t))])
  }

  /** The rollback CAS: v -> null, whatever its outcome the slot is retried. */
  function IRollback(cfg: Config, s: IState, pc: IPc, tid: nat): IState
    requires ISized(cfg, s) && tid < |s.pcs| && pc.IEnqRollback?
  {
    var j := SlotOf(cfg.n, pc.t);
    var s' := s.(pcs := s.pcs[tid := Plain(EnqLoad(pc.v, pc.op, pc.t))]);
    if s.ptrs[j] == Some(pc.v) then s'.(ptrs := s.ptrs[j := None], own := s.own[j := Free]) else s'
  }

  function IMark(cfg: Config, s: IState, pc: IPc, tid: nat): IState
    requires ISized(cfg, s) && tid < |s.pcs| && pc.IDeqCas?
  {
    var j := SlotOf(cfg.n, pc.h);
    if s.ents[j] != pc.ent then s.(pcs := s.pcs[tid := Plain(DeqLoad(pc.started, pc.h, pc.retries))])
    else
      var e := if pc.ent.idx.None? then Entry(Cycle(cfg.n, pc.h), pc.ent.safe, None)
               else Entry(pc.ent.cycle, false, pc.ent.idx);
      s.(ents := s.ents[j := e], g := s.g.(dead := s.g.dead + {pc.h}),
         pcs := s.pcs[tid := Plain(DeqTail(pc.started, pc.h))])
  }

  /** exchange(ptr_array[idx], null). */
  function IExchange(cfg: Config, s: IState, pc: IPc, tid: nat): IState
    requires ISized(cfg, s) && tid < |s.pcs| && pc.IDeqExchange?
  {
    if pc.idx >= cfg.n then s
    else s.(ptrs := s.ptrs[pc.idx := None], own := s.own[pc.idx := Free],
            exchanged := s.exchanged + {pc.h},
            pcs := s.pcs[tid := IDeqClear(pc.started, pc.h, s.ptrs[pc.idx])])
  }

  /** exchange(entries[j].index, empty); a null value would be returned as empty. */
  function IClear(cfg: Config, s: IState, pc: IPc, tid: nat): IState
    requires ISized(cfg, s) && tid < |s.pcs| && pc.IDeqClear?
  {
    var j := SlotOf(cfg.n, pc.h);
    var s' := s.(ents := s.ents[j := s.ents[j].(idx := None)], exchanged := s.exchanged - {pc.h});
    if pc.value.None? then s'.(pcs := s.pcs[tid := Plain(Idle)])
    else s'.(g := s.g.(taken := s.g.taken[pc.h := pc.value.value]),
             pcs := s.pcs[tid := Plain(DeqCount(pc.h, pc.value.value))])
  }

  function IStep(cfg: Config, s: IState, c: Choice): (s': IState)
    requires ISized(cfg, s) && c.tid < |s.pcs|
    ensures ISized(cfg, s') && |s'.pcs| == |s.pcs| && s'.g.clock == s.g.clock
  {
    var pc := s.pcs[c.tid];
    match pc
    case Plain(p) => IPlain(cfg, s, p, c)
    case IEnqHead(v, op, t, ent) =>
      s.(pcs := s.pcs[c.tid := if s.w.head <= t then IEnqPlace(v, op, t, ent)
                               else Plain(NextTicket(cfg.variant, v, op))])
    case IEnqPlace(_, _, _, _) => IPlace(cfg, s, pc, c.tid)
    case IEnqCas(_, _, _, _) => ICommit(cfg, s, pc, c.tid)
    case IEnqRollback(_, _, _) => IRollback(cfg, s, pc, c.tid)
    case IDeqCas(_, _, _, _, _) => IMark(cfg, s, pc, c.tid)
    case IDeqExchange(_, _, _) => IExchange(cfg, s, pc, c.tid)
    case IDeqClear(_, _, _) => IClear(cfg, s, pc, c.tid)
  }

  function INext(cfg: Config, s: IState, c: Choice): (s': IState)
    requires ISized(cfg, s)
    ensures ISized(cfg, s') && |s'.pcs| == |s.pcs|
  {
    var s' := if c.tid < |s.pcs| then IStep(cfg, s, c) else s;
    s'.(g := Tick(s'.g))
  }

  function IRun(cfg: Config, threads: nat, sch: seq<Choice>): (s: IState)
    requires cfg.Valid() && cfg.variant.ScqpIdx?
    ensures ISized(cfg, s) && |s.pcs| == threads
  {
    if sch == [] then IInit(cfg, threads)
    else INext(cfg, IRun(cfg, threads, sch[..|sch| - 1]), sch[|sch| - 1])
  }

  // ----- the abstraction to pointer mode -----

  function ValOf(g: Hist, idx: Option<nat>, u: nat): Option<Value> {
    if idx.Some? && u in g.commit then Some(g.commit[u]) else None
  }

  function AbsEntry(g: Hist, e: Entry, u: nat): Slot {
    Slot(e.cycle, e.safe, ValOf(g, e.idx, u))
  }

  function AbsPc(g: Hist, pc: IPc): Pc {
    match pc
    case Plain(p) => p
    case IEnqHead(v, op, t, ent) => EnqHead(v, op, t, AbsEntry(g, ent, 0))
    case IEnqPlace(v, op, t, ent) => EnqCas(v, op, t, AbsEntry(g, ent, 0))
    case IEnqCas(v, op, t, ent) => EnqCas(v, op, t, AbsEntry(g, ent, 0))
    case IEnqRollback(v, op, t) => EnqLoad(v, op, t)
    case IDeqCas(a, h, r, ent, filled) => DeqCas(a, h, r, AbsEntry(g, ent, filled))
    case IDeqExchange(a, h, _) => DeqTake(a, h, if h in g.commit then g.commit[h] else 0)
    case IDeqClear(a, h, _) => DeqTake(a, h, if h in g.commit then g.commit[h] else 0)
  }

  function AbsSlots(g: Hist, ents: seq<Entry>): (sl: seq<Slot>)
    ensures |sl| == |ents|
    ensures |g.wrote| == |ents| ==> forall j :: 0 <= j < |ents| ==> sl[j] == AbsEntry(g, ents[j], g.wrote[j])
  {
    seq(|ents|, j requires 0 <= j < |ents| =>
      AbsEntry(g, ents[j], if j < |g.wrote| then g.wrote[j] else 0))
  }

  function AbsPcs(g: Hist, pcs: seq<IPc>): (a: seq<Pc>)
    ensures |a| == |pcs| && forall i :: 0 <= i < |pcs| ==> a[i] == AbsPc(g, pcs[i])
  {
    seq(|pcs|, i requires 0 <= i < |pcs| => AbsPc(g, pcs[i]))
  }

  function Abs(s: IState): State {
    State(s.w, AbsSlots(s.g, s.ents), s.g, AbsPcs(s.g, s.pcs))
  }

  /** The pointer-mode choice that matches a step; a choice of no thread is a stutter. */
  function AbsChoice(cfg: Config, s: IState, c: Choice): Choice
    requires ISized(cfg, s)
  {
    var stutter := c.(tid := |s.pcs|, deq := false);
    if c.tid >= |s.pcs| then c
    else
      match s.pcs[c.tid]
      case IEnqPlace(v, op, t, _) => if s.ptrs[SlotOf(cfg.n, t)].Some? then c.(fail := true) else stutter
      case IEnqCas(_, _, _, _) => c.(fail := false)
      case IEnqRollback(_, _, _) => stutter
      case IDeqExchange(_, _, _) => stutter
      case _ => c
  }
}
