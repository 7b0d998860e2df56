/** NCQ calls that run alone: from any reachable state, whatever the other threads are in
    the middle of, what one thread's call does if nobody else moves and no CAS fails
    spuriously. */
module NcqSolo {
  import opened Ring
  import opened FifoHistory
  import opened Ncq

  /** Only thread i has moved since s: it is at pc, and the tail is t. */
  function At(s: State, i: nat, pc: Pc, t: nat): State
    requires i < |s.pcs|
  {
    s.(pcs := s.pcs[i := pc], tail := t)
  }

  lemma {:induction false} StepsMore(n: nat, s: State, c: Choice, k: nat, m: nat)
    requires Sized(n, s)
    ensures Steps(n, Steps(n, s, c, k), c, m) == Steps(n, s, c, k + m)
  {
    if m > 0 {
      StepsMore(n, s, c, k, m - 1);
      NextOf(n, Steps(n, Steps(n, s, c, k), c, m - 1), Steps(n, s, c, k + m - 1), c);
    }
  }

  lemma NextOf(n: nat, s: State, u: State, c: Choice)
    requires Sized(n, s) && s == u
    ensures Next(n, s, c) == Next(n, u, c)
  {
  }

  lemma OneStep(n: nat, s: State, c: Choice)
    requires Sized(n, s)
    ensures Steps(n, s, c, 1) == Next(n, s, c)
  {
    assert Steps(n, s, c, 0) == s;
  }

  // ----- enqueue -----

  function Enqueuer(i: nat, v: Value): Choice { Choice(i, false, Some(v), false) }

  lemma EnqBegins(n: nat, s: State, i: nat, v: Value)
    requires Sized(n, s) && i < |s.pcs| && s.pcs[i].Idle?
    ensures Next(n, s, Enqueuer(i, v)) == At(s, i, EnqTail(v, |s.log|), s.tail)
  {
  }

  /** From its look at the tail to its look at the slot. */
  lemma EnqLooks(n: nat, s: State, i: nat, v: Value, a: nat, t: nat)
    requires Sized(n, s) && i < |s.pcs|
    ensures var c := Enqueuer(i, v);
            Next(n, At(s, i, EnqTail(v, a), t), c) == At(s, i, EnqLoad(v, a, t), t)
  {
    assert s.pcs[i := EnqTail(v, a)][i := EnqLoad(v, a, t)] == s.pcs[i := EnqLoad(v, a, t)];
  }

  lemma EnqLoads(n: nat, s: State, i: nat, v: Value, a: nat, t: nat)
    requires Sized(n, s) && i < |s.pcs|
    ensures var c, ent := Enqueuer(i, v), s.slots[SlotOf(n, t)];
            && (ent.cycle == Cycle(n, t) ==>
                  Next(n, At(s, i, EnqLoad(v, a, t), t), c) == At(s, i, EnqHelp(v, a, t), t))
            && (ent.cycle + 1 == Cycle(n, t) ==>
                  Next(n, At(s, i, EnqLoad(v, a, t), t), c) == At(s, i, EnqCas(v, a, t, ent), t))
  {
    var ent := s.slots[SlotOf(n, t)];
    assert s.pcs[i := EnqLoad(v, a, t)][i := EnqHelp(v, a, t)] == s.pcs[i := EnqHelp(v, a, t)];
    assert s.pcs[i := EnqLoad(v, a, t)][i := EnqCas(v, a, t, ent)] == s.pcs[i := EnqCas(v, a, t, ent)];
  }

  lemma EnqHelps(n: nat, s: State, i: nat, v: Value, a: nat, t: nat)
    requires Sized(n, s) && i < |s.pcs|
    ensures Next(n, At(s, i, EnqHelp(v, a, t), t), Enqueuer(i, v)) == At(s, i, EnqTail(v, a), t + 1)
  {
    assert s.pcs[i := EnqHelp(v, a, t)][i := EnqTail(v, a)] == s.pcs[i := EnqTail(v, a)];
  }

  /** The CAS2 and the return. */
  lemma EnqStores(n: nat, s: State, i: nat, v: Value, a: nat, t: nat)
    requires Sized(n, s) && i < |s.pcs|
    ensures var c, ent := Enqueuer(i, v), s.slots[SlotOf(n, t)];
            var u := Next(n, Next(n, At(s, i, EnqCas(v, a, t, ent), t), c), c);
            && u.log == s.log + [Enq(v)] && u.calls == s.calls + [Effect(Enq(v), a, |s.log|, |s.log| + 1)]
            && u.head == s.head && u.tail == t + 1 && u.pcs == s.pcs[i := Idle]
  {
    var c, ent := Enqueuer(i, v), s.slots[SlotOf(n, t)];
    var s1 := Next(n, At(s, i, EnqCas(v, a, t, ent), t), c);
    assert s1.pcs[i] == EnqBump(v, a, t, |s.log|);
    assert Next(n, s1, c).pcs == s.pcs[i := Idle];
  }

  /** The call is over: it has stored v. */
  ghost predicate Stored1(n: nat, s: State, u: State, i: nat, v: Value) {
    && i < |s.pcs| && u.pcs == s.pcs[i := Idle] && u.head == s.head && u.log == s.log + [Enq(v)]
    && u.tail == Written(n, s) + 1
    && u.calls == s.calls + [Effect(Enq(v), |s.log|, |s.log|, |s.log| + 1)]
  }

  /** With the tail at the next free position four more steps store. */
  lemma EnqFinishes(n: nat, s: State, i: nat, v: Value)
    requires Inv(n, s) && i < |s.pcs| && s.pcs[i].Idle?
    ensures Stored1(n, s, Steps(n, At(s, i, EnqTail(v, |s.log|), Written(n, s)), Enqueuer(i, v), 4), i, v)
  {
    var c, a, t := Enqueuer(i, v), |s.log|, Written(n, s);
    var s0 := At(s, i, EnqTail(v, a), t);
    var s1 := At(s, i, EnqLoad(v, a, t), t);
    var s2 := At(s, i, EnqCas(v, a, t, s.slots[SlotOf(n, t)]), t);
    WindowAt(n, s, t);
    EnqLooks(n, s, i, v, a, t);
    EnqLoads(n, s, i, v, a, t);
    EnqStores(n, s, i, v, a, t);
    FourSteps(n, s0, s1, s2, c);
  }

  lemma FourSteps(n: nat, s0: State, s1: State, s2: State, c: Choice)
    requires Sized(n, s0) && Sized(n, s1) && Sized(n, s2) && s1 == Next(n, s0, c) && s2 == Next(n, s1, c)
    ensures Steps(n, s0, c, 4) == Next(n, Next(n, s2, c), c)
  {
    OneStep(n, s0, c);
    assert Steps(n, s0, c, 2) == Next(n, Steps(n, s0, c, 1), c);
    assert Steps(n, s0, c, 3) == Next(n, Steps(n, s0, c, 2), c);
  }

  lemma ThreeSteps(n: nat, s0: State, s1: State, s2: State, c: Choice)
    requires Sized(n, s0) && Sized(n, s1) && Sized(n, s2) && s1 == Next(n, s0, c) && s2 == Next(n, s1, c)
    ensures Steps(n, s0, c, 3) == Next(n, s2, c)
  {
    OneStep(n, s0, c);
    assert Steps(n, s0, c, 2) == Next(n, Steps(n, s0, c, 1), c);
  }

  /** A lagging tail costs three steps of help. */
  lemma EnqCatchesUp(n: nat, s: State, i: nat, v: Value)
    requires Inv(n, s) && i < |s.pcs| && s.pcs[i].Idle? && s.tail < Written(n, s)
    ensures var a := |s.log|;
            Steps(n, At(s, i, EnqTail(v, a), s.tail), Enqueuer(i, v), 3) == At(s, i, EnqTail(v, a), Written(n, s))
  {
    var c, a, t := Enqueuer(i, v), |s.log|, s.tail;
    WindowAt(n, s, t);
    EnqLooks(n, s, i, v, a, t);
    EnqLoads(n, s, i, v, a, t);
    EnqHelps(n, s, i, v, a, t);
    ThreeSteps(n, At(s, i, EnqTail(v, a), t), At(s, i, EnqLoad(v, a, t), t), At(s, i, EnqHelp(v, a, t), t), c);
  }

  lemma EnqLevel(n: nat, s: State, i: nat, v: Value)
    requires Inv(n, s) && i < |s.pcs| && s.pcs[i].Idle? && s.tail == Written(n, s)
    ensures Stored1(n, s, Steps(n, s, Enqueuer(i, v), 5), i, v)
  {
    var c, s1 := Enqueuer(i, v), At(s, i, EnqTail(v, |s.log|), s.tail);
    EnqBegins(n, s, i, v);
    OneStep(n, s, c);
    EnqFinishes(n, s, i, v);
    StepsMore(n, s, c, 1, 4);
  }

  lemma EnqLagging(n: nat, s: State, i: nat, v: Value)
    requires Inv(n, s) && i < |s.pcs| && s.pcs[i].Idle? && s.tail < Written(n, s)
    ensures Steps(n, s, Enqueuer(i, v), 4) == At(s, i, EnqTail(v, |s.log|), Written(n, s))
  {
    var c := Enqueuer(i, v);
    EnqBegins(n, s, i, v);
    OneStep(n, s, c);
    EnqCatchesUp(n, s, i, v);
    StepsMore(n, s, c, 1, 3);
  }

  lemma EnqLags(n: nat, s: State, i: nat, v: Value)
    requires Inv(n, s) && i < |s.pcs| && s.pcs[i].Idle? && s.tail < Written(n, s)
    ensures Stored1(n, s, Steps(n, s, Enqueuer(i, v), 8), i, v)
  {
    EnqLagging(n, s, i, v);
    EnqFinishes(n, s, i, v);
    StepsMore(n, s, Enqueuer(i, v), 4, 4);
  }

  /** Whatever the state and the other threads' positions, an enqueue running alone stores
      its argument and returns within eight steps. */
  lemma EnqueueAlone(n: nat, threads: nat, sch: seq<Choice>, i: nat, v: Value) returns (k: nat)
    requires RingSize(n) && i < threads && Run(n, threads, sch).pcs[i].Idle?
    ensures k <= 8
    ensures var s := Run(n, threads, sch);
            var u := Steps(n, s, Choice(i, false, Some(v), false), k);
            && u.pcs == s.pcs[i := Idle] && u.head == s.head && u.tail == Written(n, s) + 1
            && u.log == s.log + [Enq(v)]
            && u.calls == s.calls + [Effect(Enq(v), |s.log|, |s.log|, |s.log| + 1)]
  {
    var s := Run(n, threads, sch);
    RunInv(n, threads, sch);
    if s.tail < Written(n, s) {
      EnqLags(n, s, i, v);
      k := 8;
    } else {
      EnqLevel(n, s, i, v);
      k := 5;
    }
  }

  // ----- dequeue -----

  function Dequeuer(i: nat): Choice { Choice(i, true, None, false) }

  lemma DeqLooks(n: nat, s: State, i: nat)
    requires Sized(n, s) && i < |s.pcs| && s.pcs[i].Idle?
    ensures Steps(n, s, Dequeuer(i), 2) == At(s, i, DeqLoad(|s.log|, s.head), s.tail)
  {
    var c, a := Dequeuer(i), |s.log|;
    OneStep(n, s, c);
    assert Next(n, s, c) == At(s, i, DeqHead(a), s.tail);
    assert s.pcs[i := DeqHead(a)][i := DeqLoad(a, s.head)] == s.pcs[i := DeqLoad(a, s.head)];
  }

  lemma DeqTakes(n: nat, s: State, i: nat, a: nat)
    requires Sized(n, s) && i < |s.pcs| && s.slots[SlotOf(n, s.head)].cycle == Cycle(n, s.head)
    ensures var c, x := Dequeuer(i), s.slots[SlotOf(n, s.head)].val;
            var u := Steps(n, At(s, i, DeqLoad(a, s.head), s.tail), c, 2);
            && u.pcs == s.pcs[i := Idle] && u.log == s.log + [Deq(x)]
            && u.calls == s.calls + [Effect(Deq(x), a, |s.log|, |s.log| + 1)]
  {
    var c, ent, s0 := Dequeuer(i), s.slots[SlotOf(n, s.head)], At(s, i, DeqLoad(a, s.head), s.tail);
    OneStep(n, s0, c);
    assert s.pcs[i := DeqLoad(a, s.head)][i := DeqCas(a, s.head, ent)] == s.pcs[i := DeqCas(a, s.head, ent)];
    assert Next(n, s0, c) == At(s, i, DeqCas(a, s.head, ent), s.tail);
    assert s.pcs[i := DeqCas(a, s.head, ent)][i := Idle] == s.pcs[i := Idle];
  }

  lemma DeqSeesEmpty(n: nat, s: State, i: nat, a: nat)
    requires Sized(n, s) && i < |s.pcs| && s.slots[SlotOf(n, s.head)].cycle + 1 == Cycle(n, s.head)
    ensures var u := Steps(n, At(s, i, DeqLoad(a, s.head), s.tail), Dequeuer(i), 1);
            u.pcs == s.pcs[i := Idle] && u.log == s.log && u.calls == s.calls + [SeenEmpty(a, |s.log|, |s.log|)]
  {
    var s0 := At(s, i, DeqLoad(a, s.head), s.tail);
    OneStep(n, s0, Dequeuer(i));
    assert s.pcs[i := DeqLoad(a, s.head)][i := Idle] == s.pcs[i := Idle];
  }

  /** With at most n elements stored a dequeue running alone returns within four steps: the
      oldest element, or empty exactly when nothing is stored. */
  lemma DequeueAlone(n: nat, threads: nat, sch: seq<Choice>, i: nat) returns (k: nat)
    requires RingSize(n) && i < threads && Run(n, threads, sch).pcs[i].Idle?
    requires Stored(n, Run(n, threads, sch)) <= n
    ensures k <= 4
    ensures var s := Run(n, threads, sch);
            var u := Steps(n, s, Choice(i, true, None, false), k);
            && Contents(s.log).Some? && u.pcs == s.pcs[i := Idle]
            && var q := Contents(s.log).value;
               (if q == [] then u.log == s.log && u.calls == s.calls + [SeenEmpty(|s.log|, |s.log|, |s.log|)]
                else u.log == s.log + [Deq(q[0])]
                     && u.calls == s.calls + [Effect(Deq(q[0]), |s.log|, |s.log|, |s.log| + 1)])
  {
    var s, c := Run(n, threads, sch), Dequeuer(i);
    RunInv(n, threads, sch);
    WindowAt(n, s, s.head);
    DeqLooks(n, s, i);
    if Stored(n, s) == 0 {
      DeqSeesEmpty(n, s, i, |s.log|);
      StepsMore(n, s, c, 2, 1);
      k := 3;
    } else {
      DeqTakes(n, s, i, |s.log|);
      StepsMore(n, s, c, 2, 2);
      k := 4;
    }
  }

  /** The thread goes round between its looks at the head and at an overwritten slot. */
  ghost predicate Round(s: State, u: State, i: nat, a: nat) {
    i < |s.pcs| && (u == At(s, i, DeqHead(a), s.tail) || u == At(s, i, DeqLoad(a, s.head), s.tail))
  }

  lemma RoundNext(n: nat, s: State, u: State, i: nat, a: nat)
    requires Sized(n, s) && Sized(n, u) && Round(s, u, i, a)
    requires var e := s.slots[SlotOf(n, s.head)].cycle; e != Cycle(n, s.head) && e + 1 != Cycle(n, s.head)
    ensures Round(s, Next(n, u, Dequeuer(i)), i, a)
  {
    assert s.pcs[i := DeqHead(a)][i := DeqLoad(a, s.head)] == s.pcs[i := DeqLoad(a, s.head)];
    assert s.pcs[i := DeqLoad(a, s.head)][i := DeqHead(a)] == s.pcs[i := DeqHead(a)];
  }

  /** With more than n stored the element at the head is overwritten, and a dequeue running
      alone never returns. */
  lemma {:induction false} DequeueStuck(n: nat, threads: nat, sch: seq<Choice>, i: nat, k: nat)
    requires RingSize(n) && i < threads && Run(n, threads, sch).pcs[i].Idle? && k > 0
    requires Stored(n, Run(n, threads, sch)) > n
    ensures var s := Run(n, threads, sch);
            var u := Steps(n, s, Choice(i, true, None, false), k);
            Round(s, u, i, |s.log|) && !u.pcs[i].Idle? && u.calls == s.calls && u.log == s.log
  {
    var s, c := Run(n, threads, sch), Dequeuer(i);
    if k == 1 {
      OneStep(n, s, c);
    } else {
      DequeueStuck(n, threads, sch, i, k - 1);
      RunInv(n, threads, sch);
      WindowAt(n, s, s.head);
      RoundNext(n, s, Steps(n, s, c, k - 1), i, |s.log|);
    }
  }
}
