/** MSQueue is a linearizable FIFO: the invariant of its chain, history and threads, and
    the bijection between logged effects and calls. */
module MsQueueProofs {
  import opened Ring
  import opened FifoHistory
  import opened MsQueue

  // ----- the linked chain -----

  /** Node x is linked at position k. */
  ghost predicate At(s: State, x: nat, k: nat) {
    x < |s.nodes| && s.nodes[x].pos == Some(k)
  }

  ghost predicate LinkOk(s: State, k: nat)
    requires k < |s.chain|
  {
    At(s, s.chain[k], k)
    && s.nodes[s.chain[k]].next == (if k + 1 < |s.chain| then Some(s.chain[k + 1]) else None)
  }

  ghost predicate NodeOk(s: State, x: nat)
    requires x < |s.nodes|
  {
    match s.nodes[x].pos
    case Some(k) => k < |s.chain| && s.chain[k] == x
    case None => s.nodes[x].next.None?
  }

  /** Head never passes tail, and tail lags the last node by at most one. */
  ghost predicate Ends(s: State) {
    && s.hd <= s.tl < |s.chain| <= s.tl + 2
    && s.head == s.chain[s.hd] && s.tail == s.chain[s.tl]
  }

  ghost predicate ChainInv(s: State) {
    && Ends(s)
    && (forall k :: 0 <= k < |s.chain| ==> LinkOk(s, k))
    && (forall x :: 0 <= x < |s.nodes| ==> NodeOk(s, x))
  }

  // ----- the abstract queue -----

  /** q lists the data of the nodes after head. */
  ghost predicate QueueIs(s: State, q: seq<Value>)
    requires Ends(s)
  {
    && |q| == |s.chain| - s.hd - 1
    && forall p :: s.hd < p < |s.chain| ==>
         s.chain[p] < |s.nodes| && q[p - s.hd - 1] == s.nodes[s.chain[p]].data
  }

  ghost predicate HistInv(s: State)
    requires Ends(s)
  {
    Placed(s.log, s.calls) && QueueIs(s, Contents(s.log).value)
  }

  // ----- threads -----

  /** A node its enqueuer has not linked yet. */
  ghost predicate Private(s: State, x: nat) {
    x < |s.nodes| && s.nodes[x].pos.None?
  }

  ghost predicate LinkedUpTo(s: State, x: nat, bound: nat) {
    x < |s.nodes| && s.nodes[x].pos.Some? && s.nodes[x].pos.value <= bound
  }

  ghost predicate Follows(s: State, x: nat, y: nat) {
    x < |s.nodes| && y < |s.nodes| && s.nodes[x].pos.Some? && s.nodes[y].pos == Some(s.nodes[x].pos.value + 1)
  }

  ghost predicate EffectOpen(s: State, op: Op, invoked: nat, at: nat) {
    invoked <= at < |s.log| && s.log[at] == op
    && forall k :: 0 <= k < |s.calls| && s.calls[k].Effect? ==> s.calls[k].at != at
  }

  ghost predicate EnqOk(s: State, pc: Pc)
    requires IsEnq(pc)
  {
    match pc
    case EnqTail(x, a) => a <= |s.log| && Private(s, x)
    case EnqNext(x, a, t) => a <= |s.log| && Private(s, x) && LinkedUpTo(s, t, s.tl)
    case EnqCheck(x, a, t, next) =>
      a <= |s.log| && Private(s, x) && LinkedUpTo(s, t, s.tl) && (next.Some? ==> Follows(s, t, next.value))
    case EnqLink(x, a, t) => a <= |s.log| && Private(s, x) && LinkedUpTo(s, t, s.tl)
    case EnqHelp(x, a, t, after) => a <= |s.log| && Private(s, x) && Follows(s, t, after)
    case EnqSwing(x, a, t, at) => Follows(s, t, x) && EffectOpen(s, Enq(s.nodes[x].data), a, at)
  }

  ghost predicate DeqOk(s: State, pc: Pc)
    requires !IsEnq(pc)
  {
    match pc
    case Idle => true
    case DeqHead(a) => a <= |s.log|
    case DeqTail(a, h) => a <= |s.log| && LinkedUpTo(s, h, s.hd)
    case DeqNext(a, h, t) =>
      a <= |s.log| && LinkedUpTo(s, h, s.hd) && LinkedUpTo(s, t, s.tl)
      && s.nodes[h].pos.value <= s.nodes[t].pos.value
    case DeqCheck(a, h, t, next, seen) =>
      && a <= seen <= |s.log| && LinkedUpTo(s, h, s.hd) && LinkedUpTo(s, t, s.tl)
      && s.nodes[h].pos.value <= s.nodes[t].pos.value
      && (next.Some? ==> Follows(s, h, next.value))
      && (next.None? ==> Contents(s.log[..seen]) == Some([]))
    case DeqHelp(a, t, after) => a <= |s.log| && Follows(s, t, after)
    case DeqRead(a, h, after) => a <= |s.log| && Follows(s, h, after) && s.nodes[after].pos.value <= s.tl
    case DeqCas(a, h, after, v) =>
      a <= |s.log| && Follows(s, h, after) && s.nodes[after].pos.value <= s.tl && v == s.nodes[after].data
    case RetLoad(a, x, v, at) => EffectOpen(s, Deq(v), a, at)
    case RetStore(a, x, v, at, _) => EffectOpen(s, Deq(v), a, at)
    case RetCas(a, x, v, at, _) => EffectOpen(s, Deq(v), a, at)
  }

  ghost predicate PcOk(s: State, pc: Pc) {
    if IsEnq(pc) then EnqOk(s, pc) else DeqOk(s, pc)
  }

  /** The node an enqueuer owns until it links it. */
  function Owned(pc: Pc): Option<nat> {
    if IsEnq(pc) && !pc.EnqSwing? then Some(pc.node) else None
  }

  function PendingEffect(pc: Pc): Option<nat> {
    if pc.EnqSwing? || pc.RetLoad? || pc.RetStore? || pc.RetCas? then Some(pc.at) else None
  }

  ghost predicate Apart(a: Pc, b: Pc) {
    && (Owned(a).Some? ==> Owned(a) != Owned(b))
    && (PendingEffect(a).Some? ==> PendingEffect(a) != PendingEffect(b))
  }

  ghost predicate ThreadsInv(s: State) {
    && (forall i :: 0 <= i < |s.pcs| ==> PcOk(s, s.pcs[i]))
    && (forall i, k :: 0 <= i < |s.pcs| && 0 <= k < |s.pcs| && i != k ==> Apart(s.pcs[i], s.pcs[k]))
  }

  ghost predicate Inv(s: State) {
    ChainInv(s) && HistInv(s) && ThreadsInv(s)
  }

  // ----- steps that only move one thread -----

  /** New program points keep what the thread owns, or drop it. */
  ghost predicate Keeps(pc: Pc, pc': Pc) {
    && (Owned(pc').Some? ==> Owned(pc') == Owned(pc))
    && (PendingEffect(pc').Some? ==> PendingEffect(pc') == PendingEffect(pc))
  }

  /** What no step undoes: nodes keep their data and place, positions and logs grow. */
  ghost predicate Grows(s: State, s': State) {
    && |s.nodes| <= |s'.nodes| && s.hd <= s'.hd && s.tl <= s'.tl && s.log <= s'.log
    && (forall x :: 0 <= x < |s.nodes| ==>
          s'.nodes[x].data == s.nodes[x].data
          && (s.nodes[x].pos.Some? ==> s'.nodes[x].pos == s.nodes[x].pos))
  }

  /** The step leaves what thread pc owns alone. */
  ghost predicate Respects(s: State, s': State, pc: Pc) {
    && (Owned(pc).Some? && Owned(pc).value < |s.nodes| && Owned(pc).value < |s'.nodes| ==>
          s'.nodes[Owned(pc).value].pos == s.nodes[Owned(pc).value].pos)
    && (PendingEffect(pc).Some? ==>
          forall k :: 0 <= k < |s'.calls| && s'.calls[k].Effect? && s'.calls[k].at == PendingEffect(pc).value
            ==> k < |s.calls| && s.calls[k] == s'.calls[k])
  }

  lemma EnqStable(s: State, s': State, pc: Pc)
    requires IsEnq(pc) && EnqOk(s, pc) && Grows(s, s') && Respects(s, s', pc)
    ensures EnqOk(s', pc)
  {
  }

  lemma DeqStable(s: State, s': State, pc: Pc)
    requires !IsEnq(pc) && DeqOk(s, pc) && Grows(s, s') && Respects(s, s', pc)
    ensures DeqOk(s', pc)
  {
    if pc.DeqCheck? {
      assert s'.log[..pc.seen] == s.log[..pc.seen];
    }
  }

  lemma ThreadsStep(s: State, s': State, i: nat)
    requires ThreadsInv(s) && Grows(s, s') && i < |s.pcs| && |s'.pcs| == |s.pcs|
    requires s'.pcs == s.pcs[i := s'.pcs[i]] && PcOk(s', s'.pcs[i])
    requires forall k :: 0 <= k < |s.pcs| && k != i ==>
               Respects(s, s', s.pcs[k]) && Apart(s'.pcs[i], s.pcs[k]) && Apart(s.pcs[k], s'.pcs[i])
    ensures ThreadsInv(s')
  {
    forall k | 0 <= k < |s'.pcs| ensures PcOk(s', s'.pcs[k]) {
      if k != i {
        assert PcOk(s, s.pcs[k]);
        if IsEnq(s.pcs[k]) {
          EnqStable(s, s', s.pcs[k]);
        } else {
          DeqStable(s, s', s.pcs[k]);
        }
      }
    }
  }

  lemma KeepsApart(s: State, i: nat, pc': Pc)
    requires ThreadsInv(s) && i < |s.pcs| && Keeps(s.pcs[i], pc')
    ensures forall k :: 0 <= k < |s.pcs| && k != i ==> Apart(pc', s.pcs[k]) && Apart(s.pcs[k], pc')
  {
    forall k | 0 <= k < |s.pcs| && k != i ensures Apart(pc', s.pcs[k]) && Apart(s.pcs[k], pc') {
      assert Apart(s.pcs[i], s.pcs[k]) && Apart(s.pcs[k], s.pcs[i]);
    }
  }

  // ----- the chain under the different writes -----

  /** Nodes may change only their retired link, the tail word may catch up. */
  lemma ChainSame(s: State, s': State)
    requires ChainInv(s) && s'.chain == s.chain && s'.head == s.head && s'.hd == s.hd && |s'.nodes| == |s.nodes|
    requires forall x :: 0 <= x < |s.nodes| ==>
               s'.nodes[x].pos == s.nodes[x].pos && s'.nodes[x].next == s.nodes[x].next
    requires s.tl <= s'.tl < |s.chain| && s'.tail == s.chain[s'.tl]
    ensures ChainInv(s')
  {
    forall k | 0 <= k < |s'.chain| ensures LinkOk(s', k) {
      assert LinkOk(s, k);
    }
    forall x | 0 <= x < |s'.nodes| ensures NodeOk(s', x) {
      assert NodeOk(s, x);
    }
  }

  lemma HistSame(s: State, s': State)
    requires Ends(s) && HistInv(s) && Ends(s') && s'.chain == s.chain && s'.hd == s.hd && s'.log == s.log
    requires s'.calls == s.calls && |s.nodes| <= |s'.nodes|
    requires forall x :: 0 <= x < |s.nodes| ==> s'.nodes[x].data == s.nodes[x].data
    ensures HistInv(s')
  {
  }

  /** Steps of one thread that touch at most the tail word or a retired link. */
  lemma QuietStep(s: State, s': State, i: nat)
    requires Inv(s) && i < |s.pcs| && |s'.pcs| == |s.pcs|
    requires s'.chain == s.chain && s'.head == s.head && s'.hd == s.hd && |s'.nodes| == |s.nodes|
    requires s'.log == s.log && s'.calls == s.calls
    requires forall x :: 0 <= x < |s.nodes| ==>
               s'.nodes[x].pos == s.nodes[x].pos && s'.nodes[x].next == s.nodes[x].next
               && s'.nodes[x].data == s.nodes[x].data
    requires s.tl <= s'.tl < |s.chain| && s'.tail == s.chain[s'.tl]
    requires s'.pcs == s.pcs[i := s'.pcs[i]] && PcOk(s', s'.pcs[i]) && Keeps(s.pcs[i], s'.pcs[i])
    ensures Inv(s')
  {
    ChainSame(s, s');
    HistSame(s, s');
    KeepsApart(s, i, s'.pcs[i]);
    ThreadsStep(s, s', i);
  }

  /** A tail CAS from t to its successor. */
  lemma SwingOk(s: State, t: nat, after: nat, fail: bool)
    requires ChainInv(s) && Follows(s, t, after)
    ensures var s' := SwingTail(s, t, after, fail);
            s.tl <= s'.tl < |s.chain| && s'.tail == s.chain[s'.tl]
  {
    assert NodeOk(s, t) && NodeOk(s, after) && LinkOk(s, s.tl);
  }

  // ----- returns -----

  lemma ReturnStep(s: State, i: nat, c: Call)
    requires Inv(s) && i < |s.pcs| && CallOk(s.log, c)
    requires c.Effect? ==> PendingEffect(s.pcs[i]) == Some(c.at)
    requires c.Effect? ==> forall k :: 0 <= k < |s.calls| && s.calls[k].Effect? ==> s.calls[k].at != c.at
    ensures Inv(Return(s, i, c))
  {
    var s' := Return(s, i, c);
    ChainSame(s, s');
    LinearReturn(s.log, s.calls, c);
    assert QueueIs(s', Contents(s'.log).value);
    forall k | 0 <= k < |s.pcs| && k != i ensures Respects(s, s', s.pcs[k]) {
      assert Apart(s.pcs[i], s.pcs[k]) && Apart(s.pcs[k], s.pcs[i]);
    }
    ThreadsStep(s, s', i);
  }

  // ----- allocation -----

  lemma AllocStep(s: State, i: nat, v: Value)
    requires Inv(s) && i < |s.pcs| && s.pcs[i].Idle?
    ensures Inv(Move(s.(nodes := s.nodes + [Node(v, None, None, None)]), i, EnqTail(|s.nodes|, |s.log|)))
  {
    var s' := Move(s.(nodes := s.nodes + [Node(v, None, None, None)]), i, EnqTail(|s.nodes|, |s.log|));
    forall k | 0 <= k < |s'.chain| ensures LinkOk(s', k) {
      assert LinkOk(s, k);
    }
    forall x | 0 <= x < |s'.nodes| ensures NodeOk(s', x) {
      if x < |s.nodes| {
        assert NodeOk(s, x);
      }
    }
    HistSame(s, s');
    forall k | 0 <= k < |s.pcs| && k != i
      ensures Apart(s'.pcs[i], s.pcs[k]) && Apart(s.pcs[k], s'.pcs[i])
    {
      assert PcOk(s, s.pcs[k]);
    }
    ThreadsStep(s, s', i);
  }

  /** A successor read from a linked node is the next node of the chain. */
  lemma NextFollows(s: State, x: nat)
    requires ChainInv(s) && x < |s.nodes| && s.nodes[x].pos.Some?
    ensures s.nodes[x].next.Some? ==> Follows(s, x, s.nodes[x].next.value)
    ensures s.nodes[x].next.None? ==> s.nodes[x].pos.value == |s.chain| - 1
  {
    var k := s.nodes[x].pos.value;
    assert NodeOk(s, x) && LinkOk(s, k);
    if k + 1 < |s.chain| {
      assert LinkOk(s, k + 1);
    }
  }

  // ----- linking a node: the effect of enqueue -----

  /** The two nodes a link writes. */
  lemma LinkWrites(s: State, i: nat)
    requires i < |s.pcs| && s.pcs[i].EnqLink? && EnqOk(s, s.pcs[i])
    requires s.nodes[s.pcs[i].tail].next.None?
    ensures var pc := s.pcs[i];
            var s' := Link(s, i, pc, false);
            && pc.tail != pc.node && |s'.nodes| == |s.nodes| && s'.chain == s.chain + [pc.node]
            && s'.log == s.log + [Enq(s.nodes[pc.node].data)]
            && s' == s.(nodes := s'.nodes, chain := s'.chain, log := s'.log, pcs := s'.pcs)
            && s'.pcs == s.pcs[i := EnqSwing(pc.node, pc.invoked, pc.tail, |s.log|)]
            && forall x :: 0 <= x < |s.nodes| ==>
                 && s'.nodes[x].data == s.nodes[x].data
                 && s'.nodes[x].next == (if x == pc.tail then Some(pc.node) else s.nodes[x].next)
                 && s'.nodes[x].pos == (if x == pc.node then Some(|s.chain|) else s.nodes[x].pos)
  {
  }

  lemma LinkChain(s: State, s': State, t: nat, y: nat)
    requires ChainInv(s) && LinkedUpTo(s, t, s.tl) && s.nodes[t].next.None? && Private(s, y) && t != y
    requires s'.chain == s.chain + [y] && |s'.nodes| == |s.nodes|
    requires s'.hd == s.hd && s'.tl == s.tl && s'.head == s.head && s'.tail == s.tail
    requires forall x :: 0 <= x < |s.nodes| ==>
               && s'.nodes[x].next == (if x == t then Some(y) else s.nodes[x].next)
               && s'.nodes[x].pos == (if x == y then Some(|s.chain|) else s.nodes[x].pos)
    ensures ChainInv(s') && s.nodes[t].pos == Some(|s.chain| - 1)
  {
    NextFollows(s, t);
    assert NodeOk(s, t) && NodeOk(s, y);
    forall k | 0 <= k < |s'.chain| ensures LinkOk(s', k) {
      if k < |s.chain| {
        assert LinkOk(s, k);
      }
    }
    forall x | 0 <= x < |s'.nodes| ensures NodeOk(s', x) {
      assert NodeOk(s, x);
    }
  }

  lemma LinkHistory(s: State, s': State, y: nat)
    requires Ends(s) && HistInv(s) && Ends(s') && y < |s.nodes|
    requires s'.chain == s.chain + [y] && s'.hd == s.hd && |s'.nodes| == |s.nodes| && s'.calls == s.calls
    requires forall x :: 0 <= x < |s.nodes| ==> s'.nodes[x].data == s.nodes[x].data
    requires s'.log == s.log + [Enq(s.nodes[y].data)]
    ensures HistInv(s')
  {
    var v := s.nodes[y].data;
    ReplaySnoc(s.log, Enq(v));
    LinearSnoc(s.log, Enq(v), s.calls);
  }

  /** A fresh effect index collides with no recorded or pending effect. */
  lemma FreshEffect(s: State)
    requires Inv(s)
    ensures forall k :: 0 <= k < |s.calls| && s.calls[k].Effect? ==> s.calls[k].at < |s.log|
    ensures forall k :: 0 <= k < |s.pcs| && PendingEffect(s.pcs[k]).Some? ==>
              PendingEffect(s.pcs[k]).value < |s.log|
  {
    forall k | 0 <= k < |s.calls| && s.calls[k].Effect? ensures s.calls[k].at < |s.log| {
      assert CallOk(s.log, s.calls[k]);
    }
    forall k | 0 <= k < |s.pcs| && PendingEffect(s.pcs[k]).Some?
      ensures PendingEffect(s.pcs[k]).value < |s.log|
    {
      assert PcOk(s, s.pcs[k]);
    }
  }

  lemma LinkStep(s: State, i: nat)
    requires Inv(s) && i < |s.pcs| && s.pcs[i].EnqLink? && s.pcs[i].tail < |s.nodes|
    requires s.nodes[s.pcs[i].tail].next.None?
    ensures Inv(Link(s, i, s.pcs[i], false))
  {
    var pc := s.pcs[i];
    assert PcOk(s, pc);
    var s' := Link(s, i, pc, false);
    LinkWrites(s, i);
    LinkChain(s, s', pc.tail, pc.node);
    LinkHistory(s, s', pc.node);
    LinkThreads(s, s', i);
  }

  lemma LinkThreads(s: State, s': State, i: nat)
    requires Inv(s) && i < |s.pcs| && s.pcs[i].EnqLink? && |s'.nodes| == |s.nodes|
    requires var pc := s.pcs[i];
             && EnqOk(s, pc) && s.nodes[pc.tail].pos == Some(|s.chain| - 1)
             && (forall x :: 0 <= x < |s.nodes| ==>
                   && s'.nodes[x].data == s.nodes[x].data
                   && s'.nodes[x].pos == (if x == pc.node then Some(|s.chain|) else s.nodes[x].pos))
             && s'.pcs == s.pcs[i := EnqSwing(pc.node, pc.invoked, pc.tail, |s.log|)]
             && s'.log == s.log + [Enq(s.nodes[pc.node].data)] && s'.calls == s.calls
             && s'.hd == s.hd && s'.tl == s.tl
    ensures ThreadsInv(s')
  {
    var pc := s.pcs[i];
    FreshEffect(s);
    forall k | 0 <= k < |s.pcs| && k != i
      ensures Respects(s, s', s.pcs[k]) && Apart(s'.pcs[i], s.pcs[k]) && Apart(s.pcs[k], s'.pcs[i])
    {
      assert Apart(pc, s.pcs[k]) && Apart(s.pcs[k], pc);
    }
    ThreadsStep(s, s', i);
  }

  // ----- moving head: the effect of dequeue -----

  lemma UnlinkHistory(s: State, i: nat)
    requires ChainInv(s) && HistInv(s) && i < |s.pcs| && s.pcs[i].DeqCas? && DeqOk(s, s.pcs[i])
    requires s.head == s.pcs[i].head
    ensures var s' := Unlink(s, i, s.pcs[i], false); Ends(s') && HistInv(s')
  {
    var pc := s.pcs[i];
    var s' := Unlink(s, i, pc, false);
    assert LinkOk(s, s.hd) && NodeOk(s, pc.after);
    assert pc.after == s.chain[s.hd + 1];
    var q := Contents(s.log).value;
    assert q[0] == s.nodes[s.chain[s.hd + 1]].data;
    ReplaySnoc(s.log, Deq(pc.v));
    LinearSnoc(s.log, Deq(pc.v), s.calls);
  }

  lemma UnlinkStep(s: State, i: nat)
    requires Inv(s) && i < |s.pcs| && s.pcs[i].DeqCas? && s.head == s.pcs[i].head
    ensures Inv(Unlink(s, i, s.pcs[i], false))
  {
    var pc := s.pcs[i];
    assert PcOk(s, pc);
    UnlinkHistory(s, i);
    FreshEffect(s);
    var s' := Unlink(s, i, pc, false);
    forall k | 0 <= k < |s'.chain| ensures LinkOk(s', k) {
      assert LinkOk(s, k);
    }
    forall x | 0 <= x < |s'.nodes| ensures NodeOk(s', x) {
      assert NodeOk(s, x);
    }
    forall k | 0 <= k < |s.pcs| && k != i
      ensures Respects(s, s', s.pcs[k]) && Apart(s'.pcs[i], s.pcs[k]) && Apart(s.pcs[k], s'.pcs[i])
    {
      assert Apart(pc, s.pcs[k]) && Apart(s.pcs[k], pc);
    }
    ThreadsStep(s, s', i);
  }

  // ----- loads of next -----

  lemma SeenEmptyHere(s: State, h: nat)
    requires ChainInv(s) && HistInv(s) && LinkedUpTo(s, h, s.hd) && s.nodes[h].next.None?
    ensures Contents(s.log[..|s.log|]) == Some([])
  {
    NextFollows(s, h);
    assert s.log[..|s.log|] == s.log;
    assert |Contents(s.log).value| == 0;
  }

  // ----- every step -----

  lemma EnqNextInv(s: State, c: Choice)
    requires Inv(s) && c.tid < |s.pcs| && IsEnq(s.pcs[c.tid])
    ensures Inv(EnqStep(s, c))
  {
    var i, pc := c.tid, s.pcs[c.tid];
    var s' := EnqStep(s, c);
    assert PcOk(s, pc);
    if pc.EnqSwing? {
      SwingReturn(s, c);
    } else if pc.EnqLink? && !c.fail && s.nodes[pc.tail].next.None? {
      LinkStep(s, i);
    } else {
      EnqQuiet(s, c);
    }
  }

  lemma EnqHelpQuiet(s: State, c: Choice)
    requires Inv(s) && c.tid < |s.pcs| && s.pcs[c.tid].EnqHelp? && EnqOk(s, s.pcs[c.tid])
    ensures Inv(EnqStep(s, c))
  {
    SwingOk(s, s.pcs[c.tid].tail, s.pcs[c.tid].after, c.fail);
    QuietStep(s, EnqStep(s, c), c.tid);
  }

  lemma EnqQuiet(s: State, c: Choice)
    requires Inv(s) && c.tid < |s.pcs|
    requires var pc := s.pcs[c.tid];
             && IsEnq(pc) && !pc.EnqSwing? && EnqOk(s, pc)
             && (pc.EnqLink? ==> c.fail || s.nodes[pc.tail].next.Some?)
    ensures Inv(EnqStep(s, c))
  {
    var i, pc := c.tid, s.pcs[c.tid];
    if pc.EnqHelp? {
      EnqHelpQuiet(s, c);
    } else {
      if pc.EnqTail? {
        TailLinked(s);
      } else if pc.EnqNext? {
        NextFollows(s, pc.tail);
      }
      QuietStep(s, EnqStep(s, c), i);
    }
  }

  /** Head and tail are linked nodes. */
  lemma TailLinked(s: State)
    requires ChainInv(s)
    ensures LinkedUpTo(s, s.tail, s.tl) && LinkedUpTo(s, s.head, s.hd)
    ensures s.nodes[s.tail].pos == Some(s.tl) && s.nodes[s.head].pos == Some(s.hd)
  {
    assert LinkOk(s, s.tl) && LinkOk(s, s.hd);
  }

  lemma SwingReturn(s: State, c: Choice)
    requires Inv(s) && c.tid < |s.pcs| && s.pcs[c.tid].EnqSwing?
    ensures Inv(EnqStep(s, c))
  {
    var i, pc := c.tid, s.pcs[c.tid];
    assert PcOk(s, pc);
    var s1 := SwingTail(s, pc.tail, pc.node, c.fail);
    SwingOk(s, pc.tail, pc.node, c.fail);
    assert s1.pcs == s.pcs[i := pc];
    QuietStep(s, s1, i);
    ReturnStep(s1, i, Effect(Enq(s.nodes[pc.node].data), pc.invoked, pc.at, |s.log|));
  }

  lemma DeqHelpInv(s: State, c: Choice)
    requires Inv(s) && c.tid < |s.pcs| && s.pcs[c.tid].DeqHelp?
    ensures Inv(DeqStep(s, c))
  {
    assert PcOk(s, s.pcs[c.tid]);
    SwingOk(s, s.pcs[c.tid].tail, s.pcs[c.tid].after, c.fail);
    QuietStep(s, DeqStep(s, c), c.tid);
  }

  lemma DeqNextInv(s: State, c: Choice)
    requires Inv(s) && c.tid < |s.pcs| && !IsEnq(s.pcs[c.tid]) && !s.pcs[c.tid].Idle?
    requires s.pcs[c.tid].DeqHead? || s.pcs[c.tid].DeqTail? || s.pcs[c.tid].DeqNext?
             || s.pcs[c.tid].DeqHelp? || s.pcs[c.tid].DeqRead?
    ensures Inv(DeqStep(s, c))
  {
    var i, pc := c.tid, s.pcs[c.tid];
    if pc.DeqHelp? {
      DeqHelpInv(s, c);
    } else {
      assert PcOk(s, pc);
      TailLinked(s);
      if pc.DeqNext? {
        NextFollows(s, pc.head);
        if s.nodes[pc.head].next.None? {
          SeenEmptyHere(s, pc.head);
        }
      }
      QuietStep(s, DeqStep(s, c), i);
    }
  }

  lemma DeqCheckInv(s: State, c: Choice)
    requires Inv(s) && c.tid < |s.pcs| && s.pcs[c.tid].DeqCheck?
    ensures Inv(DeqStep(s, c))
  {
    var i, pc := c.tid, s.pcs[c.tid];
    assert PcOk(s, pc);
    if pc.head == s.head && pc.next.None? {
      ReturnStep(s, i, SeenEmpty(pc.invoked, pc.seen, |s.log|));
    } else {
      if pc.head != pc.tail && pc.next.Some? {
        assert NodeOk(s, pc.head) && NodeOk(s, pc.tail);
      }
      QuietStep(s, DeqStep(s, c), i);
    }
  }

  lemma RetInvStep(s: State, c: Choice)
    requires Inv(s) && c.tid < |s.pcs|
    requires s.pcs[c.tid].RetLoad? || s.pcs[c.tid].RetStore? || s.pcs[c.tid].RetCas?
    ensures Inv(DeqStep(s, c))
  {
    var i, pc := c.tid, s.pcs[c.tid];
    assert PcOk(s, pc);
    if pc.RetCas? && !c.fail && s.retired == pc.top {
      var s1 := s.(retired := Some(pc.node), stack := [pc.node] + s.stack);
      assert s1.pcs == s.pcs[i := pc];
      QuietStep(s, s1, i);
      ReturnStep(s1, i, Effect(Deq(pc.v), pc.invoked, pc.at, |s.log|));
    } else if pc.RetStore? && pc.node >= |s.nodes| {
    } else {
      QuietStep(s, DeqStep(s, c), i);
    }
  }

  lemma InvNext(s: State, c: Choice)
    requires Inv(s)
    ensures Inv(Next(s, c))
  {
    if c.tid < |s.pcs| {
      var pc := s.pcs[c.tid];
      if pc.Idle? {
        if c.deq {
          QuietStep(s, Next(s, c), c.tid);
        } else {
          AllocStep(s, c.tid, c.v);
        }
      } else if IsEnq(pc) {
        EnqNextInv(s, c);
      } else if pc.DeqCheck? {
        DeqCheckInv(s, c);
      } else if pc.DeqCas? {
        assert PcOk(s, pc);
        if c.fail || s.head != pc.head {
          QuietStep(s, DeqStep(s, c), c.tid);
        } else {
          UnlinkStep(s, c.tid);
        }
      } else if pc.RetLoad? || pc.RetStore? || pc.RetCas? {
        RetInvStep(s, c);
      } else {
        DeqNextInv(s, c);
      }
    }
  }

  lemma InitInv(threads: nat)
    ensures Inv(Init(threads))
  {
    var s := Init(threads);
    assert LinkOk(s, 0) && NodeOk(s, 0);
    assert Placed(s.log, s.calls);
  }

  lemma {:induction false} RunInv(threads: nat, sch: seq<Choice>)
    ensures Inv(Run(threads, sch))
  {
    if sch == [] {
      InitInv(threads);
    } else {
      RunInv(threads, sch[..|sch| - 1]);
      InvNext(Run(threads, sch[..|sch| - 1]), sch[|sch| - 1]);
    }
  }

  // ----- every effect has its call -----

  /** An enqueue is open from its link to its return, a dequeue from its head CAS to the
      push of the old head. */
  function OpenOf(s: State, pc: Pc): Option<Open> {
    if pc.EnqSwing? then Some(Open(Enq(if pc.node < |s.nodes| then s.nodes[pc.node].data else 0), pc.invoked, pc.at))
    else if PendingEffect(pc).Some? then Some(Open(Deq(pc.v), pc.invoked, pc.at))
    else None
  }

  function OpenCalls(s: State): seq<Option<Open>> {
    seq(|s.pcs|, i requires 0 <= i < |s.pcs| => OpenOf(s, s.pcs[i]))
  }

  lemma OpenCallsOk(s: State)
    requires Inv(s)
    ensures var open := OpenCalls(s);
            && (forall i :: 0 <= i < |open| && open[i].Some? ==>
                  OpenOk(s.log, open[i].value) && !CompletedAt(s.calls, open[i].value.at))
            && (forall i, m :: 0 <= i < m < |open| && open[i].Some? && open[m].Some? ==>
                  open[i].value.at != open[m].value.at)
  {
    var open := OpenCalls(s);
    forall i | 0 <= i < |open| && open[i].Some?
      ensures OpenOk(s.log, open[i].value) && !CompletedAt(s.calls, open[i].value.at)
    {
      assert PcOk(s, s.pcs[i]);
    }
    forall i, m | 0 <= i < m < |open| && open[i].Some? && open[m].Some?
      ensures open[i].value.at != open[m].value.at
    {
      assert Apart(s.pcs[i], s.pcs[m]);
    }
  }

  /** The place a is taken by a call. */
  ghost predicate Taken(s: State, a: nat) {
    CompletedAt(s.calls, a) || PendingAt(s.pcs, a)
  }

  ghost predicate AllTaken(s: State) {
    forall a: nat :: a < |s.log| ==> Taken(s, a)
  }

  ghost predicate PendingAt(pcs: seq<Pc>, a: nat) {
    exists i :: 0 <= i < |pcs| && PendingEffect(pcs[i]) == Some(a)
  }

  /** What a step does to the log, the calls and its thread's effect. */
  ghost predicate Records(s: State, s': State, i: nat) {
    && |s'.pcs| == |s.pcs| && i < |s.pcs| && s'.pcs == s.pcs[i := s'.pcs[i]] && s.calls <= s'.calls
    && |s.log| <= |s'.log| <= |s.log| + 1
    && (|s'.log| > |s.log| ==> PendingEffect(s'.pcs[i]) == Some(|s.log|) && PendingEffect(s.pcs[i]).None?)
    && (PendingEffect(s.pcs[i]).Some? ==>
          PendingEffect(s'.pcs[i]) == PendingEffect(s.pcs[i])
          || CompletedAt(s'.calls, PendingEffect(s.pcs[i]).value))
  }

  lemma EnqRecords(s: State, c: Choice)
    requires c.tid < |s.pcs| && IsEnq(s.pcs[c.tid])
    ensures Records(s, EnqStep(s, c), c.tid)
  {
    var s' := EnqStep(s, c);
    if s.pcs[c.tid].EnqSwing? {
      assert s'.calls[|s.calls|].at == s.pcs[c.tid].at;
    }
  }

  lemma DeqRecords(s: State, c: Choice)
    requires c.tid < |s.pcs| && !IsEnq(s.pcs[c.tid]) && !s.pcs[c.tid].Idle?
    ensures Records(s, DeqStep(s, c), c.tid)
  {
    var s' := DeqStep(s, c);
    if |s'.calls| > |s.calls| && s.pcs[c.tid].RetCas? {
      assert s'.calls[|s.calls|].at == s.pcs[c.tid].at;
    }
  }

  lemma StepRecords(s: State, c: Choice)
    requires c.tid < |s.pcs|
    ensures Records(s, Next(s, c), c.tid)
  {
    if !s.pcs[c.tid].Idle? {
      if IsEnq(s.pcs[c.tid]) {
        EnqRecords(s, c);
      } else {
        DeqRecords(s, c);
      }
    }
  }

  lemma TakenLater(s: State, s': State, i: nat, a: nat)
    requires Records(s, s', i) && a < |s'.log| && (a < |s.log| ==> Taken(s, a))
    ensures Taken(s', a)
  {
    if a < |s.log| {
      if CompletedAt(s.calls, a) {
        var k :| 0 <= k < |s.calls| && s.calls[k].Effect? && s.calls[k].at == a;
        assert s'.calls[k] == s.calls[k];
      } else {
        var m :| 0 <= m < |s.pcs| && PendingEffect(s.pcs[m]) == Some(a);
        assert m == i || s'.pcs[m] == s.pcs[m];
      }
    }
  }

  lemma {:induction false} RunTaken(threads: nat, sch: seq<Choice>)
    ensures AllTaken(Run(threads, sch))
  {
    if sch != [] {
      var before, c := sch[..|sch| - 1], sch[|sch| - 1];
      RunTaken(threads, before);
      var s, s' := Run(threads, before), Run(threads, sch);
      if c.tid < threads {
        StepRecords(s, c);
        forall a: nat | a < |s'.log| ensures Taken(s', a) {
          TakenLater(s, s', c.tid, a);
        }
      }
    }
  }

  lemma RunCovered(threads: nat, sch: seq<Choice>)
    ensures var s := Run(threads, sch); Covered(s.log, s.calls, OpenCalls(s))
  {
    RunTaken(threads, sch);
    var s := Run(threads, sch);
    forall a: nat | a < |s.log| ensures CompletedAt(s.calls, a) || OpenAt(OpenCalls(s), a) {
      assert Taken(s, a);
      if !CompletedAt(s.calls, a) {
        var i :| 0 <= i < |s.pcs| && PendingEffect(s.pcs[i]) == Some(a);
        assert OpenCalls(s)[i].Some? && OpenCalls(s)[i].value.at == a;
      }
    }
  }

  /** MSQueue is a linearizable FIFO: every call has a point between its invocation
      and its return, effects replay as a queue, and the queue is what is linked
      after head; head never passes tail, tail lags the last node by at most one. */
  lemma MsQueueLinearizable(threads: nat, sch: seq<Choice>)
    ensures var s := Run(threads, sch);
            && Linearizable(s.log, s.calls, OpenCalls(s))
            && s.hd <= s.tl < |s.chain| <= s.tl + 2
            && s.head == s.chain[s.hd] && s.tail == s.chain[s.tl]
            && QueueIs(s, Contents(s.log).value)
  {
    RunInv(threads, sch);
    RunCovered(threads, sch);
    OpenCallsOk(Run(threads, sch));
  }

  /** With every thread idle the log lists exactly the completed enqueues and dequeues,
      each once. */
  lemma MsQueueQuiet(threads: nat, sch: seq<Choice>) returns (f: seq<nat>)
    requires var s := Run(threads, sch); forall i :: 0 <= i < |s.pcs| ==> s.pcs[i].Idle?
    ensures var s := Run(threads, sch);
            && |f| == |s.log|
            && (forall a :: 0 <= a < |f| ==>
                  f[a] < |s.calls| && s.calls[f[a]].Effect? && s.calls[f[a]].at == a
                  && s.calls[f[a]].op == s.log[a])
            && (forall k :: 0 <= k < |s.calls| && s.calls[k].Effect? ==>
                  s.calls[k].at < |f| && f[s.calls[k].at] == k)
  {
    MsQueueLinearizable(threads, sch);
    var s := Run(threads, sch);
    f := QuietBijection(s.log, s.calls, OpenCalls(s), |s.log|);
    forall k | 0 <= k < |s.calls| && s.calls[k].Effect? ensures s.calls[k].at < |f| {
      assert CallOk(s.log, s.calls[k]);
    }
  }

  // ----- calls and what their callers passed -----

  lemma DataKeptNext(s: State, c: Choice, x: nat)
    requires x < |s.nodes|
    ensures x < |Next(s, c).nodes| && Next(s, c).nodes[x].data == s.nodes[x].data
  {
  }

  /** A node keeps the value its enqueue call was given. */
  lemma {:induction false} ArgumentIsKept(threads: nat, sch: seq<Choice>, m: nat)
    requires m < |sch| && sch[m].tid < threads && !sch[m].deq
    requires Run(threads, sch[..m]).pcs[sch[m].tid].Idle?
    ensures var x := |Run(threads, sch[..m]).nodes|;
            && Run(threads, sch[..m + 1]).pcs[sch[m].tid] == EnqTail(x, |Run(threads, sch[..m]).log|)
            && x < |Run(threads, sch).nodes| && Run(threads, sch).nodes[x].data == sch[m].v
  {
    var x := |Run(threads, sch[..m]).nodes|;
    assert sch[..m + 1][..m] == sch[..m];
    if m + 1 == |sch| {
      assert sch[..m + 1] == sch;
    } else {
      var before := sch[..|sch| - 1];
      assert before[..m] == sch[..m] && before[..m + 1] == sch[..m + 1];
      ArgumentIsKept(threads, before, m);
      DataKeptNext(Run(threads, before), sch[|sch| - 1], x);
    }
  }

  /** The thread started a call at step m and is still in it at time k. */
  ghost predicate InCall(threads: nat, sch: seq<Choice>, m: nat, k: nat) {
    && m < k <= |sch| && sch[m].tid < threads && Run(threads, sch[..m]).pcs[sch[m].tid].Idle?
    && forall j :: m < j <= k ==> !Run(threads, sch[..j]).pcs[sch[m].tid].Idle?
  }

  /** What a step inside a call may do: keep the node, log its value, or return with it. */
  ghost predicate CallStep(s: State, s': State, i: nat, x: nat, v: Value, invoked: nat) {
    && i < |s.pcs| == |s'.pcs|
    && (s'.log == s.log || s'.log == s.log + [Enq(v)])
    && (!s'.pcs[i].Idle? ==> IsEnq(s'.pcs[i]) && s'.pcs[i].node == x && s'.pcs[i].invoked == invoked
                             && s'.calls == s.calls)
    && (s'.pcs[i].Idle? ==>
          |s'.calls| == |s.calls| + 1
          && var c := s'.calls[|s.calls|]; c.Effect? && c.op == Enq(v) && c.invoked == invoked && s.calls <= s'.calls)
  }

  lemma EnqCallStep(s: State, c: Choice)
    requires c.tid < |s.pcs| && IsEnq(s.pcs[c.tid]) && s.pcs[c.tid].node < |s.nodes|
    ensures var pc := s.pcs[c.tid];
            CallStep(s, Next(s, c), c.tid, pc.node, s.nodes[pc.node].data, pc.invoked)
  {
  }

  lemma OthersStay(s: State, c: Choice, i: nat)
    requires i < |s.pcs| && i != c.tid
    ensures Next(s, c).pcs[i] == s.pcs[i]
  {
  }

  /** Thread i is in an enqueue of v with node x. */
  ghost predicate Carrying(s: State, i: nat, x: nat, v: Value, invoked: nat) {
    && i < |s.pcs| && IsEnq(s.pcs[i]) && s.pcs[i].node == x && s.pcs[i].invoked == invoked
    && x < |s.nodes| && s.nodes[x].data == v
  }

  lemma CarryStart(s: State, c: Choice)
    requires c.tid < |s.pcs| && s.pcs[c.tid].Idle? && !c.deq
    ensures Carrying(Next(s, c), c.tid, |s.nodes|, c.v, |s.log|)
  {
  }

  lemma CarryNext(s: State, c: Choice, i: nat, x: nat, v: Value, invoked: nat)
    requires Carrying(s, i, x, v, invoked) && !Next(s, c).pcs[i].Idle?
    ensures Carrying(Next(s, c), i, x, v, invoked)
  {
    DataKeptNext(s, c, x);
    if c.tid == i {
      EnqCallStep(s, c);
    } else {
      OthersStay(s, c, i);
    }
  }

  lemma RunPrefix(threads: nat, sch: seq<Choice>, k: nat)
    requires k < |sch|
    ensures Run(threads, sch[..k + 1]) == Next(Run(threads, sch[..k]), sch[k])
  {
    assert sch[..k + 1][..k] == sch[..k];
  }

  /** In every run a thread carries the node of its enqueue call, with the argument it was
      given, until it returns. */
  lemma {:induction false} CarriesNode(threads: nat, sch: seq<Choice>, m: nat, k: nat)
    requires InCall(threads, sch, m, k) && !sch[m].deq
    ensures var s := Run(threads, sch[..m]);
            Carrying(Run(threads, sch[..k]), sch[m].tid, |s.nodes|, sch[m].v, |s.log|)
    decreases k
  {
    var s := Run(threads, sch[..m]);
    RunPrefix(threads, sch, k - 1);
    if k == m + 1 {
      CarryStart(s, sch[m]);
    } else {
      CarriesNode(threads, sch, m, k - 1);
      CarryNext(Run(threads, sch[..k - 1]), sch[k - 1], sch[m].tid, |s.nodes|, sch[m].v, |s.log|);
    }
  }

  /** So what an enqueue call logs, and what is recorded when it returns, is an enqueue of
      the argument it was given, invoked when it was. */
  lemma CallHasArgument(threads: nat, sch: seq<Choice>, m: nat, k: nat)
    requires InCall(threads, sch, m, k) && !sch[m].deq && k < |sch| && sch[k].tid == sch[m].tid
    ensures CallStep(Run(threads, sch[..k]), Run(threads, sch[..k + 1]), sch[m].tid, |Run(threads, sch[..m]).nodes|,
                     sch[m].v, |Run(threads, sch[..m]).log|)
  {
    CarriesNode(threads, sch, m, k);
    RunPrefix(threads, sch, k);
    EnqCallStep(Run(threads, sch[..k]), sch[k]);
  }
}
