/** MSQueue calls that run alone: from any reachable state, whatever the other threads are
    in the middle of, an enqueue or dequeue completes in a bounded number of its own steps
    if nobody else moves and no CAS fails spuriously, with the answer of a FIFO. */
module MsQueueSolo {
  import opened Ring
  import opened FifoHistory
  import opened MsQueue
  import opened MsQueueProofs

  /** The state after k steps of one choice. */
  function Steps(s: State, c: Choice, k: nat): (s': State)
    ensures |s'.pcs| == |s.pcs|
    decreases k
  {
    if k == 0 then s else Steps(Next(s, c), c, k - 1)
  }

  lemma {:induction false} StepsMore(s: State, c: Choice, k: nat, m: nat)
    ensures Steps(Steps(s, c, k), c, m) == Steps(s, c, k + m)
    decreases k
  {
    if k > 0 {
      StepsMore(Next(s, c), c, k - 1, m);
    }
  }

  lemma OneStep(s: State, c: Choice)
    ensures Steps(s, c, 1) == Next(s, c)
  {
    assert Steps(Next(s, c), c, 0) == Next(s, c);
  }

  lemma ThreeSteps(s0: State, s1: State, s2: State, c: Choice)
    requires s1 == Next(s0, c) && s2 == Next(s1, c)
    ensures Steps(s0, c, 3) == Next(s2, c)
  {
    OneStep(s2, c);
    assert Steps(s0, c, 3) == Steps(s1, c, 2) == Steps(s2, c, 1);
  }

  lemma MovedAgain(s: State, i: nat, p: Pc, q: Pc)
    requires i < |s.pcs|
    ensures Move(Move(s, i, p), i, q) == Move(s, i, q)
  {
    assert s.pcs[i := p][i := q] == s.pcs[i := q];
  }

  /** The tail moved on to node y. */
  function Swung(s: State, y: nat): State {
    s.(tail := y, tl := s.tl + 1)
  }

  // ----- enqueue -----

  function Enqueuer(i: nat, v: Value): Choice { Choice(i, false, v, false) }

  /** The node of the call, not yet linked. */
  function WithNode(s: State, v: Value): State {
    s.(nodes := s.nodes + [Node(v, None, None, None)])
  }

  lemma EnqBegins(s: State, i: nat, v: Value)
    requires i < |s.pcs| && s.pcs[i].Idle?
    ensures Next(s, Enqueuer(i, v)) == Move(WithNode(s, v), i, EnqTail(|s.nodes|, |s.log|))
  {
  }

  /** Its looks at the tail and at the tail's link. */
  lemma EnqLooks(s: State, i: nat, v: Value, x: nat, a: nat)
    requires i < |s.pcs|
    ensures Steps(Move(s, i, EnqTail(x, a)), Enqueuer(i, v), 3)
            == Move(s, i, if NextOf(s, s.tail).None? then EnqLink(x, a, s.tail)
                          else EnqHelp(x, a, s.tail, NextOf(s, s.tail).value))
  {
    var c, t := Enqueuer(i, v), s.tail;
    var s0, s1 := Move(s, i, EnqTail(x, a)), Move(s, i, EnqNext(x, a, t));
    var s2 := Move(s, i, EnqCheck(x, a, t, NextOf(s, t)));
    MovedAgain(s, i, EnqTail(x, a), EnqNext(x, a, t));
    MovedAgain(s, i, EnqNext(x, a, t), EnqCheck(x, a, t, NextOf(s, t)));
    ThreeSteps(s0, s1, s2, c);
    MovedAgain(s, i, EnqCheck(x, a, t, NextOf(s, t)), EnqLink(x, a, t));
    if NextOf(s, t).Some? {
      MovedAgain(s, i, EnqCheck(x, a, t, NextOf(s, t)), EnqHelp(x, a, t, NextOf(s, t).value));
    }
  }

  lemma EnqHelps(s: State, i: nat, v: Value, x: nat, a: nat, y: nat)
    requires i < |s.pcs|
    ensures Next(Move(s, i, EnqHelp(x, a, s.tail, y)), Enqueuer(i, v)) == Move(Swung(s, y), i, EnqTail(x, a))
  {
    MovedAgain(Swung(s, y), i, EnqHelp(x, a, s.tail, y), EnqTail(x, a));
  }

  /** The call is over: v is the last effect, its node x is the last one, and nothing else was
      recorded. */
  ghost predicate Stored(s: State, u: State, i: nat, v: Value, x: nat) {
    && i < |s.pcs| && u.pcs == s.pcs[i := Idle] && u.log == s.log + [Enq(v)]
    && u.head == s.head && u.tail == x && u.chain == s.chain + [x]
    && u.calls == s.calls + [Effect(Enq(v), |s.log|, |s.log|, |s.log| + 1)]
  }

  lemma EnqLinks(s: State, i: nat, v: Value, x: nat)
    requires i < |s.pcs| && s.tail < |s.nodes| && x < |s.nodes| && s.nodes[s.tail].next.None? && s.nodes[x].data == v
    ensures Stored(s, Steps(Move(s, i, EnqLink(x, |s.log|, s.tail)), Enqueuer(i, v), 2), i, v, x)
  {
    var c, a := Enqueuer(i, v), |s.log|;
    var s0 := Move(s, i, EnqLink(x, a, s.tail));
    OneStep(s0, c);
    var s1 := Next(s0, c);
    assert s1.pcs[i] == EnqSwing(x, a, s.tail, a) && s1.nodes[x].data == v;
    assert s1.pcs[i := Idle] == s.pcs[i := Idle];
  }

  /** From a tail that is the last node. */
  lemma EnqLevel(s: State, i: nat, v: Value, x: nat)
    requires i < |s.pcs| && s.tail < |s.nodes| && x < |s.nodes| && s.nodes[s.tail].next.None? && s.nodes[x].data == v
    ensures Stored(s, Steps(Move(s, i, EnqTail(x, |s.log|)), Enqueuer(i, v), 5), i, v, x)
  {
    EnqLooks(s, i, v, x, |s.log|);
    EnqLinks(s, i, v, x);
    StepsMore(Move(s, i, EnqTail(x, |s.log|)), Enqueuer(i, v), 3, 2);
  }

  /** A tail that lags is helped on first. */
  lemma EnqCatchesUp(s: State, i: nat, v: Value, x: nat, a: nat)
    requires i < |s.pcs| && NextOf(s, s.tail).Some?
    ensures Steps(Move(s, i, EnqTail(x, a)), Enqueuer(i, v), 4)
            == Move(Swung(s, NextOf(s, s.tail).value), i, EnqTail(x, a))
  {
    var c, s0 := Enqueuer(i, v), Move(s, i, EnqTail(x, a));
    EnqLooks(s, i, v, x, a);
    EnqHelps(s, i, v, x, a, NextOf(s, s.tail).value);
    OneStep(Steps(s0, c, 3), c);
    StepsMore(s0, c, 3, 1);
  }

  lemma EnqLagging(s: State, i: nat, v: Value, x: nat, y: nat)
    requires i < |s.pcs| && x < |s.nodes| && s.nodes[x].data == v
    requires NextOf(s, s.tail) == Some(y) && y < |s.nodes| && s.nodes[y].next.None?
    ensures Stored(s, Steps(Move(s, i, EnqTail(x, |s.log|)), Enqueuer(i, v), 9), i, v, x)
  {
    EnqCatchesUp(s, i, v, x, |s.log|);
    EnqLevel(Swung(s, y), i, v, x);
    StepsMore(Move(s, i, EnqTail(x, |s.log|)), Enqueuer(i, v), 4, 5);
  }

  /** Where the tail is: at the last node or one before it. */
  lemma TailAt(s: State)
    requires Inv(s)
    ensures s.tail < |s.nodes|
    ensures s.nodes[s.tail].next.Some? ==>
              s.nodes[s.tail].next.value < |s.nodes| && s.nodes[s.nodes[s.tail].next.value].next.None?
  {
    assert LinkOk(s, s.tl);
    if s.tl + 1 < |s.chain| {
      assert LinkOk(s, s.tl + 1);
    }
  }

  lemma EnqAlone(s: State, i: nat, v: Value) returns (k: nat)
    requires Inv(s) && i < |s.pcs| && s.pcs[i].Idle?
    ensures k <= 10 && Stored(s, Steps(s, Enqueuer(i, v), k), i, v, |s.nodes|)
  {
    var c, s1, x := Enqueuer(i, v), WithNode(s, v), |s.nodes|;
    TailAt(s);
    EnqBegins(s, i, v);
    OneStep(s, c);
    var y := NextOf(s1, s1.tail);
    if y.None? {
      EnqLevel(s1, i, v, x);
      StepsMore(s, c, 1, 5);
      k := 6;
    } else {
      EnqLagging(s1, i, v, x, y.value);
      StepsMore(s, c, 1, 9);
      k := 10;
    }
  }

  /** An enqueue running alone stores its argument and returns within ten steps. */
  lemma EnqueueAlone(threads: nat, sch: seq<Choice>, i: nat, v: Value) returns (k: nat)
    requires i < threads && Run(threads, sch).pcs[i].Idle?
    ensures k <= 10
    ensures var s := Run(threads, sch);
            var u := Steps(s, Choice(i, false, v, false), k);
            && u.pcs == s.pcs[i := Idle] && u.log == s.log + [Enq(v)]
            && u.calls == s.calls + [Effect(Enq(v), |s.log|, |s.log|, |s.log| + 1)]
            && u.head == s.head && u.tail == |s.nodes| && u.chain == s.chain + [u.tail]
  {
    RunInv(threads, sch);
    k := EnqAlone(Run(threads, sch), i, v);
  }

  // ----- dequeue -----

  function Dequeuer(i: nat): Choice { Choice(i, true, 0, false) }

  lemma DeqBegins(s: State, i: nat)
    requires i < |s.pcs| && s.pcs[i].Idle?
    ensures Next(s, Dequeuer(i)) == Move(s, i, DeqHead(|s.log|))
  {
  }

  /** Its looks at the head, the tail and the head's link. */
  lemma DeqLooks(s: State, i: nat, a: nat)
    requires i < |s.pcs|
    ensures Steps(Move(s, i, DeqHead(a)), Dequeuer(i), 3)
            == Move(s, i, DeqCheck(a, s.head, s.tail, NextOf(s, s.head), |s.log|))
  {
    var c, h, t := Dequeuer(i), s.head, s.tail;
    MovedAgain(s, i, DeqHead(a), DeqTail(a, h));
    MovedAgain(s, i, DeqTail(a, h), DeqNext(a, h, t));
    MovedAgain(s, i, DeqNext(a, h, t), DeqCheck(a, h, t, NextOf(s, h), |s.log|));
    ThreeSteps(Move(s, i, DeqHead(a)), Move(s, i, DeqTail(a, h)), Move(s, i, DeqNext(a, h, t)), c);
  }

  lemma DeqSeesEmpty(s: State, i: nat, a: nat)
    requires i < |s.pcs| && NextOf(s, s.head).None?
    ensures var u := Next(Move(s, i, DeqCheck(a, s.head, s.tail, None, |s.log|)), Dequeuer(i));
            u.pcs == s.pcs[i := Idle] && u.log == s.log && u.calls == s.calls + [SeenEmpty(a, |s.log|, |s.log|)]
  {
    assert s.pcs[i := DeqCheck(a, s.head, s.tail, None, |s.log|)][i := Idle] == s.pcs[i := Idle];
  }

  lemma DeqChecks(s: State, i: nat, a: nat, y: nat)
    requires i < |s.pcs|
    ensures Next(Move(s, i, DeqCheck(a, s.head, s.tail, Some(y), |s.log|)), Dequeuer(i))
            == Move(s, i, if s.head == s.tail then DeqHelp(a, s.tail, y) else DeqRead(a, s.head, y))
  {
    MovedAgain(s, i, DeqCheck(a, s.head, s.tail, Some(y), |s.log|), DeqHelp(a, s.tail, y));
    MovedAgain(s, i, DeqCheck(a, s.head, s.tail, Some(y), |s.log|), DeqRead(a, s.head, y));
  }

  lemma DeqHelps(s: State, i: nat, a: nat, y: nat)
    requires i < |s.pcs|
    ensures Next(Move(s, i, DeqHelp(a, s.tail, y)), Dequeuer(i)) == Move(Swung(s, y), i, DeqHead(a))
  {
    MovedAgain(Swung(s, y), i, DeqHelp(a, s.tail, y), DeqHead(a));
  }

  /** The head moved to node y, whose value v is out. */
  function Unlinked(s: State, y: nat, v: Value): State {
    s.(head := y, hd := s.hd + 1, log := s.log + [Deq(v)])
  }

  lemma DeqReads(s: State, i: nat, a: nat, y: nat)
    requires i < |s.pcs| && y < |s.nodes|
    ensures var v := s.nodes[y].data;
            Steps(Move(s, i, DeqRead(a, s.head, y)), Dequeuer(i), 2)
            == Move(Unlinked(s, y, v), i, RetLoad(a, s.head, v, |s.log|))
  {
    var c, v, s0 := Dequeuer(i), s.nodes[y].data, Move(s, i, DeqRead(a, s.head, y));
    OneStep(s0, c);
    MovedAgain(s, i, DeqRead(a, s.head, y), DeqCas(a, s.head, y, v));
    MovedAgain(Unlinked(s, y, v), i, DeqCas(a, s.head, y, v), RetLoad(a, s.head, v, |s.log|));
  }

  /** The old head goes to the retired stack, and the call returns. */
  lemma DeqRetires(s: State, i: nat, a: nat, x: nat, v: Value, at: nat)
    requires i < |s.pcs| && x < |s.nodes|
    ensures var u := Steps(Move(s, i, RetLoad(a, x, v, at)), Dequeuer(i), 3);
            && u.pcs == s.pcs[i := Idle] && u.log == s.log && u.calls == s.calls + [Effect(Deq(v), a, at, |s.log|)]
            && u.head == s.head && u.retired == Some(x) && u.stack == [x] + s.stack
  {
    var c := Dequeuer(i);
    var linked := s.(nodes := s.nodes[x := s.nodes[x].(retiredNext := s.retired)]);
    MovedAgain(s, i, RetLoad(a, x, v, at), RetStore(a, x, v, at, s.retired));
    MovedAgain(linked, i, RetStore(a, x, v, at, s.retired), RetCas(a, x, v, at, s.retired));
    ThreeSteps(Move(s, i, RetLoad(a, x, v, at)), Move(s, i, RetStore(a, x, v, at, s.retired)),
               Move(linked, i, RetCas(a, x, v, at, s.retired)), c);
    assert s.pcs[i := RetCas(a, x, v, at, s.retired)][i := Idle] == s.pcs[i := Idle];
  }

  /** The call is over: v is out, and the old head is on top of the retired stack. */
  ghost predicate Took(s: State, u: State, i: nat, v: Value) {
    && i < |s.pcs| && u.pcs == s.pcs[i := Idle] && u.log == s.log + [Deq(v)]
    && NextOf(s, s.head) == Some(u.head) && u.retired == Some(s.head) && u.stack == [s.head] + s.stack
    && u.calls == s.calls + [Effect(Deq(v), |s.log|, |s.log|, |s.log| + 1)]
  }

  lemma DeqTakes(s: State, i: nat, y: nat)
    requires i < |s.pcs| && y < |s.nodes| && s.head < |s.nodes| && NextOf(s, s.head) == Some(y)
    ensures Took(s, Steps(Move(s, i, DeqRead(|s.log|, s.head, y)), Dequeuer(i), 5), i, s.nodes[y].data)
  {
    var c, a, v, s0 := Dequeuer(i), |s.log|, s.nodes[y].data, Move(s, i, DeqRead(|s.log|, s.head, y));
    DeqReads(s, i, a, y);
    DeqRetires(Unlinked(s, y, v), i, a, s.head, v, a);
    StepsMore(s0, c, 2, 3);
  }

  lemma DeqFourSteps(s: State, i: nat, a: nat, y: nat)
    requires i < |s.pcs| && NextOf(s, s.head) == Some(y)
    ensures Steps(Move(s, i, DeqHead(a)), Dequeuer(i), 4)
            == Move(s, i, if s.head == s.tail then DeqHelp(a, s.tail, y) else DeqRead(a, s.head, y))
  {
    var c, s0 := Dequeuer(i), Move(s, i, DeqHead(a));
    DeqLooks(s, i, a);
    DeqChecks(s, i, a, y);
    OneStep(Steps(s0, c, 3), c);
    StepsMore(s0, c, 3, 1);
  }

  /** From a tail ahead of the head. */
  lemma DeqAhead(s: State, i: nat, y: nat)
    requires i < |s.pcs| && y < |s.nodes| && s.head < |s.nodes| && s.head != s.tail && NextOf(s, s.head) == Some(y)
    ensures Took(s, Steps(Move(s, i, DeqHead(|s.log|)), Dequeuer(i), 9), i, s.nodes[y].data)
  {
    DeqFourSteps(s, i, |s.log|, y);
    DeqTakes(s, i, y);
    StepsMore(Move(s, i, DeqHead(|s.log|)), Dequeuer(i), 4, 5);
  }

  lemma DeqCatchesUp(s: State, i: nat, a: nat, y: nat)
    requires i < |s.pcs| && s.head == s.tail && NextOf(s, s.head) == Some(y)
    ensures Steps(Move(s, i, DeqHead(a)), Dequeuer(i), 5) == Move(Swung(s, y), i, DeqHead(a))
  {
    var c, s0 := Dequeuer(i), Move(s, i, DeqHead(a));
    DeqFourSteps(s, i, a, y);
    DeqHelps(s, i, a, y);
    OneStep(Steps(s0, c, 4), c);
    StepsMore(s0, c, 4, 1);
  }

  /** From a tail that the head has reached although there is a next node. */
  lemma DeqLagging(s: State, i: nat, y: nat)
    requires i < |s.pcs| && y < |s.nodes| && s.head < |s.nodes| && s.head == s.tail && y != s.head
    requires NextOf(s, s.head) == Some(y)
    ensures Took(s, Steps(Move(s, i, DeqHead(|s.log|)), Dequeuer(i), 14), i, s.nodes[y].data)
  {
    DeqCatchesUp(s, i, |s.log|, y);
    DeqAhead(Swung(s, y), i, y);
    StepsMore(Move(s, i, DeqHead(|s.log|)), Dequeuer(i), 5, 9);
  }

  lemma DeqEmpty(s: State, i: nat)
    requires i < |s.pcs| && s.pcs[i].Idle? && NextOf(s, s.head).None?
    ensures var u := Steps(s, Dequeuer(i), 5);
            && u.pcs == s.pcs[i := Idle] && u.log == s.log
            && u.calls == s.calls + [SeenEmpty(|s.log|, |s.log|, |s.log|)]
  {
    var c, s1 := Dequeuer(i), Move(s, i, DeqHead(|s.log|));
    DeqBegins(s, i);
    OneStep(s, c);
    DeqLooks(s, i, |s.log|);
    DeqSeesEmpty(s, i, |s.log|);
    OneStep(Steps(s1, c, 3), c);
    StepsMore(s1, c, 3, 1);
    StepsMore(s, c, 1, 4);
  }

  /** The first node after the head holds the oldest value. */
  lemma HeadAt(s: State)
    requires Inv(s)
    ensures s.head < |s.nodes|
    ensures NextOf(s, s.head).None? <==> Contents(s.log).value == []
    ensures NextOf(s, s.head).Some? ==>
              var y := NextOf(s, s.head).value;
              y < |s.nodes| && y != s.head && s.nodes[y].data == Contents(s.log).value[0]
  {
    assert LinkOk(s, s.hd);
    if s.hd + 1 < |s.chain| {
      assert LinkOk(s, s.hd + 1);
    }
  }

  lemma DeqAlone(s: State, i: nat, y: nat) returns (k: nat)
    requires i < |s.pcs| && s.pcs[i].Idle? && y < |s.nodes| && s.head < |s.nodes| && y != s.head
    requires NextOf(s, s.head) == Some(y)
    ensures k <= 15 && Took(s, Steps(s, Dequeuer(i), k), i, s.nodes[y].data)
  {
    var c := Dequeuer(i);
    DeqBegins(s, i);
    OneStep(s, c);
    if s.head == s.tail {
      DeqLagging(s, i, y);
      StepsMore(s, c, 1, 14);
      k := 15;
    } else {
      DeqAhead(s, i, y);
      StepsMore(s, c, 1, 9);
      k := 10;
    }
  }

  /** A dequeue running alone returns within fifteen steps: the oldest element, or empty
      exactly when the queue is. */
  lemma DequeueAlone(threads: nat, sch: seq<Choice>, i: nat) returns (k: nat)
    requires i < threads && Run(threads, sch).pcs[i].Idle?
    ensures k <= 15
    ensures var s := Run(threads, sch);
            var u := Steps(s, Choice(i, true, 0, false), k);
            && Contents(s.log).Some? && u.pcs == s.pcs[i := Idle]
            && var q := Contents(s.log).value;
               (if q == [] then u.log == s.log && u.calls == s.calls + [SeenEmpty(|s.log|, |s.log|, |s.log|)]
                else u.log == s.log + [Deq(q[0])] && u.stack == [s.head] + s.stack && u.retired == Some(s.head)
                     && u.calls == s.calls + [Effect(Deq(q[0]), |s.log|, |s.log|, |s.log| + 1)])
  {
    var s := Run(threads, sch);
    RunInv(threads, sch);
    HeadAt(s);
    if NextOf(s, s.head).None? {
      DeqEmpty(s, i);
      k := 5;
    } else {
      k := DeqAlone(s, i, NextOf(s, s.head).value);
    }
  }
}
