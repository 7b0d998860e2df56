/** What a call of the ticket protocol is bound to do, whatever the other threads do meanwhile:
    a dequeue that has seen the tail not past its ticket answers empty, and an enqueue drops a
    ticket only if it cannot be used any more. */
module TicketFates {
  import opened Ring
  import opened TicketQueue
  import opened TicketEmpty
  import TicketCalls

  // ----- dequeues -----

  /** A dequeue that started at a has, at x, seen the tail not past its ticket. */
  predicate Seen(pc: Pc, a: nat, x: nat) {
    SeenOf(pc) == Some(x) && pc.started == a
  }

  /** The log has the empty answer of that call. */
  ghost predicate Said(log: seq<Event>, i: nat, a: nat, x: nat) {
    exists k :: 0 <= k < |log| && log[k].DeqEmpty? && log[k].tid == i && log[k].started == a && log[k].seen == Some(x)
  }

  lemma SeenControl(cfg: Config, w: Words, g: Hist, pc: Pc, c: Choice, a: nat, x: nat)
    requires Seen(pc, a, x)
    ensures var l := Control(cfg, w, g, pc, c);
            Seen(l.pc, a, x) || (l.pc.Idle? && Said(l.g.log, c.tid, a, x))
  {
    var l := Control(cfg, w, g, pc, c);
    if l.pc.Idle? {
      assert l.g.log[|g.log|].DeqEmpty?;
    }
  }

  lemma SaidLater(log: seq<Event>, log': seq<Event>, i: nat, a: nat, x: nat)
    requires log <= log' && Said(log, i, a, x)
    ensures Said(log', i, a, x)
  {
    var k :| 0 <= k < |log| && log[k].DeqEmpty? && log[k].tid == i && log[k].started == a && log[k].seen == Some(x);
    assert log'[k] == log[k];
  }

  /** The call is on its way out with that answer, or has given it. */
  ghost predicate Bound(s: State, i: nat, a: nat, x: nat) {
    i < |s.pcs| && (Seen(s.pcs[i], a, x) || Said(s.g.log, i, a, x))
  }

  lemma BoundNext(cfg: Config, s: State, c: Choice, i: nat, a: nat, x: nat)
    requires Sized(cfg, s) && Bound(s, i, a, x)
    ensures Bound(Next(cfg, s, c), i, a, x)
  {
    var s' := Next(cfg, s, c);
    if Said(s.g.log, i, a, x) {
      if c.tid < |s.pcs| {
        TicketCalls.StepStarts(cfg, s, c);
      }
      SaidLater(s.g.log, s'.g.log, i, a, x);
    } else if c.tid == i {
      SeenControl(cfg, s.w, s.g, s.pcs[i], c, a, x);
    }
  }

  lemma BoundRun(cfg: Config, threads: nat, sch: seq<Choice>, i: nat, a: nat, x: nat)
    requires cfg.Valid() && sch != [] && Bound(Run(cfg, threads, sch[..|sch| - 1]), i, a, x)
    ensures Bound(Run(cfg, threads, sch), i, a, x)
  {
    BoundNext(cfg, Run(cfg, threads, sch[..|sch| - 1]), sch[|sch| - 1], i, a, x);
  }

  /** Once a dequeue has seen the tail not past its ticket, it draws no other: in every later state it
      is still on its way out, or has answered empty. */
  lemma {:induction false} SeenEnds(cfg: Config, threads: nat, sch: seq<Choice>, more: seq<Choice>, i: nat, a: nat,
                                    x: nat)
    requires cfg.Valid() && Bound(Run(cfg, threads, sch), i, a, x)
    ensures Bound(Run(cfg, threads, sch + more), i, a, x)
    decreases |more|
  {
    if more == [] {
      assert sch + more == sch;
    } else {
      var all, last := sch + more, |more| - 1;
      SeenEnds(cfg, threads, sch, more[..last], i, a, x);
      assert all[..|all| - 1] == sch + more[..last];
      BoundRun(cfg, threads, all, i, a, x);
    }
  }

  // ----- enqueues -----

  /** An enqueue of v at work on ticket t. */
  predicate WorksOn(pc: Pc, v: Value, op: nat, t: nat) {
    (pc.EnqLoad? || pc.EnqHead? || pc.EnqCas?) && pc.v == v && pc.op == op && pc.t == t
  }

  /** The slot of ticket t has no place for it, or the head has passed it. */
  ghost predicate Useless(cfg: Config, s: State, t: nat)
    requires Sized(cfg, s)
  {
    var sl := s.slots[SlotOf(cfg.n, t)];
    sl.cycle >= Cycle(cfg.n, t) || sl.val.Some? || s.w.head > t
  }

  /** An enqueue keeps its ticket until it has stored its value under it, unless the ticket is of no
      use; only the variant that stands for the index mode may give one up just before its CAS2. */
  lemma TicketIsKept(cfg: Config, s: State, c: Choice, v: Value, op: nat, t: nat)
    requires Sized(cfg, s) && c.tid < |s.pcs| && WorksOn(s.pcs[c.tid], v, op, t)
    ensures var s' := Next(cfg, s, c);
            var pc := s'.pcs[c.tid];
            || WorksOn(pc, v, op, t)
            || (pc == EnqReadThreshold(op, t) && t in s'.g.commit && s'.g.commit[t] == v
                && s'.slots[SlotOf(cfg.n, t)] == Slot(Cycle(cfg.n, t), true, Some(v)))
            || (pc == NextTicket(cfg.variant, v, op) && s'.slots == s.slots
                && (Useless(cfg, s, t) || (cfg.variant.ScqpIdx? && s.pcs[c.tid].EnqCas? && c.fail)))
  {
    var pc := s.pcs[c.tid];
    if TouchesSlot(pc) {
      assert SlotTicket(pc) == t;
      assert s.slots[SlotOf(cfg.n, t) := s.slots[SlotOf(cfg.n, t)]] == s.slots;
    }
  }
}
