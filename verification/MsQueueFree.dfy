/** Deferred freeing: retired nodes and the chain from head partition the nodes,
    so the destructor deletes every node exactly once. */
module MsQueueFree {
  import opened Ring
  import opened MsQueue
  import opened MsQueueProofs

  /** A dequeued node its dequeuer is still pushing on the retired list. */
  function Retiring(pc: Pc): Option<nat> {
    if pc.RetLoad? || pc.RetStore? || pc.RetCas? then Some(pc.node) else None
  }

  ghost predicate Dequeued(s: State, x: nat) {
    x < |s.nodes| && s.nodes[x].pos.Some? && s.nodes[x].pos.value < s.hd
  }

  ghost predicate StackLink(s: State, k: nat)
    requires k < |s.stack|
  {
    Dequeued(s, s.stack[k])
    && s.nodes[s.stack[k]].retiredNext == (if k + 1 < |s.stack| then Some(s.stack[k + 1]) else None)
  }

  ghost predicate NoDup(xs: seq<nat>) {
    forall i, k :: 0 <= i < k < |xs| ==> xs[i] != xs[k]
  }

  ghost predicate StackInv(s: State) {
    && (forall k :: 0 <= k < |s.stack| ==> StackLink(s, k))
    && NoDup(s.stack)
    && s.retired == (if s.stack == [] then None else Some(s.stack[0]))
  }

  ghost predicate RetiringOk(s: State, pc: Pc) {
    && (Retiring(pc).Some? ==> Dequeued(s, Retiring(pc).value) && Retiring(pc).value !in s.stack)
    && (pc.RetCas? && pc.node < |s.nodes| ==> s.nodes[pc.node].retiredNext == pc.top)
  }

  ghost predicate RetApart(a: Pc, b: Pc) {
    Retiring(a).Some? ==> Retiring(a) != Retiring(b)
  }

  ghost predicate BeingRetired(pcs: seq<Pc>, x: nat) {
    exists i :: 0 <= i < |pcs| && Retiring(pcs[i]) == Some(x)
  }

  ghost predicate BeingEnqueued(pcs: seq<Pc>, x: nat) {
    exists i :: 0 <= i < |pcs| && Owned(pcs[i]) == Some(x)
  }

  /** Every node is linked or still owned by its enqueuer; every dequeued node is
      on the retired list or on its way there. */
  ghost predicate Covered(s: State) {
    && (forall x :: 0 <= x < |s.nodes| ==> s.nodes[x].pos.Some? || BeingEnqueued(s.pcs, x))
    && (forall x: nat :: Dequeued(s, x) ==> x in s.stack || BeingRetired(s.pcs, x))
  }

  ghost predicate FreeInv(s: State) {
    && StackInv(s) && Covered(s)
    && (forall i :: 0 <= i < |s.pcs| ==> RetiringOk(s, s.pcs[i]))
    && (forall i, k :: 0 <= i < |s.pcs| && 0 <= k < |s.pcs| && i != k ==> RetApart(s.pcs[i], s.pcs[k]))
  }

  // ----- steps -----

  /** A step that leaves the retired list alone; x is the one node, if any, whose
      retired link it writes. */
  ghost predicate ListKept(s: State, s': State, x: Option<nat>) {
    && s'.stack == s.stack && s'.retired == s.retired && |s.nodes| <= |s'.nodes| && s.hd <= s'.hd
    && forall y :: 0 <= y < |s.nodes| ==>
         && (s.nodes[y].pos.Some? ==> s'.nodes[y].pos == s.nodes[y].pos)
         && (x != Some(y) ==> s'.nodes[y].retiredNext == s.nodes[y].retiredNext)
  }

  lemma StackKept(s: State, s': State, x: Option<nat>)
    requires StackInv(s) && ListKept(s, s', x) && (x.Some? ==> x.value !in s.stack)
    ensures StackInv(s')
  {
    forall k | 0 <= k < |s'.stack| ensures StackLink(s', k) {
      assert StackLink(s, k);
    }
  }

  /** Thread i takes over no foreign node and leaves none of its own behind. */
  lemma ThreadsKept(s: State, s': State, i: nat, x: Option<nat>)
    requires FreeInv(s) && ListKept(s, s', x) && i < |s.pcs| && |s'.pcs| == |s.pcs|
    requires s'.pcs == s.pcs[i := s'.pcs[i]] && RetiringOk(s', s'.pcs[i])
    requires x.Some? ==> Retiring(s.pcs[i]) == x
    requires Retiring(s'.pcs[i]).Some? ==>
               || Retiring(s'.pcs[i]) == Retiring(s.pcs[i])
               || (forall k :: 0 <= k < |s.pcs| ==> Retiring(s.pcs[k]) != Retiring(s'.pcs[i]))
    ensures StackInv(s')
    ensures forall k :: 0 <= k < |s'.pcs| ==> RetiringOk(s', s'.pcs[k])
    ensures forall j, k :: 0 <= j < |s'.pcs| && 0 <= k < |s'.pcs| && j != k ==> RetApart(s'.pcs[j], s'.pcs[k])
  {
    assert RetiringOk(s, s.pcs[i]);
    StackKept(s, s', x);
    forall k | 0 <= k < |s'.pcs| ensures RetiringOk(s', s'.pcs[k]) {
      assert RetiringOk(s, s.pcs[k]);
      if k != i {
        assert RetApart(s.pcs[i], s.pcs[k]);
      }
    }
    forall j, k | 0 <= j < |s'.pcs| && 0 <= k < |s'.pcs| && j != k
      ensures RetApart(s'.pcs[j], s'.pcs[k])
    {
      assert RetApart(s.pcs[j], s.pcs[k]) && RetApart(s.pcs[k], s.pcs[j]);
    }
  }

  /** Ownership by threads other than i is unaffected by i's move. */
  lemma StillOwned(s: State, s': State, i: nat, x: nat)
    requires i < |s.pcs| && |s'.pcs| == |s.pcs| && s'.pcs == s.pcs[i := s'.pcs[i]]
    ensures BeingEnqueued(s.pcs, x) && Owned(s.pcs[i]) != Some(x) ==> BeingEnqueued(s'.pcs, x)
    ensures BeingRetired(s.pcs, x) && Retiring(s.pcs[i]) != Some(x) ==> BeingRetired(s'.pcs, x)
    ensures Owned(s'.pcs[i]) == Some(x) ==> BeingEnqueued(s'.pcs, x)
    ensures Retiring(s'.pcs[i]) == Some(x) ==> BeingRetired(s'.pcs, x)
  {
    if BeingEnqueued(s.pcs, x) && Owned(s.pcs[i]) != Some(x) {
      var k :| 0 <= k < |s.pcs| && Owned(s.pcs[k]) == Some(x);
      assert Owned(s'.pcs[k]) == Some(x);
    }
    if BeingRetired(s.pcs, x) && Retiring(s.pcs[i]) != Some(x) {
      var k :| 0 <= k < |s.pcs| && Retiring(s.pcs[k]) == Some(x);
      assert Retiring(s'.pcs[k]) == Some(x);
    }
  }

  /** Coverage after a step: the node thread i owned is still owned or was linked,
      the node it was retiring is still being retired or was pushed, a newly
      dequeued node is being retired by i, a new node is owned by i. */
  lemma CoveredStep(s: State, s': State, i: nat)
    requires Covered(s) && i < |s.pcs| && |s'.pcs| == |s.pcs| && s'.pcs == s.pcs[i := s'.pcs[i]]
    requires |s.nodes| <= |s'.nodes| <= |s.nodes| + 1 && s.hd <= s'.hd
    requires forall x :: 0 <= x < |s.nodes| ==> (s.nodes[x].pos.Some? ==> s'.nodes[x].pos == s.nodes[x].pos)
    requires forall x :: x in s.stack ==> x in s'.stack
    requires Owned(s.pcs[i]).Some? && Owned(s.pcs[i]).value < |s.nodes| ==>
               Owned(s'.pcs[i]) == Owned(s.pcs[i]) || s'.nodes[Owned(s.pcs[i]).value].pos.Some?
    requires |s'.nodes| > |s.nodes| ==> Owned(s'.pcs[i]) == Some(|s.nodes|)
    requires Retiring(s.pcs[i]).Some? ==>
               Retiring(s'.pcs[i]) == Retiring(s.pcs[i]) || Retiring(s.pcs[i]).value in s'.stack
    requires forall x: nat :: Dequeued(s', x) && !Dequeued(s, x) ==> Retiring(s'.pcs[i]) == Some(x)
    ensures Covered(s')
  {
    forall x | 0 <= x < |s'.nodes| ensures s'.nodes[x].pos.Some? || BeingEnqueued(s'.pcs, x) {
      StillOwned(s, s', i, x);
    }
    forall x: nat | Dequeued(s', x) ensures x in s'.stack || BeingRetired(s'.pcs, x) {
      StillOwned(s, s', i, x);
    }
  }

  /** A step that keeps positions, the list, and what its thread owns. */
  lemma KeepStep(s: State, s': State, i: nat, x: Option<nat>)
    requires FreeInv(s) && ListKept(s, s', x) && i < |s.pcs| && |s'.pcs| == |s.pcs|
    requires |s'.nodes| == |s.nodes| && s'.hd == s.hd
    requires forall y :: 0 <= y < |s.nodes| ==> s'.nodes[y].pos == s.nodes[y].pos
    requires s'.pcs == s.pcs[i := s'.pcs[i]] && RetiringOk(s', s'.pcs[i])
    requires Owned(s'.pcs[i]) == Owned(s.pcs[i]) && Retiring(s'.pcs[i]) == Retiring(s.pcs[i])
    requires x.Some? ==> Retiring(s.pcs[i]) == x
    ensures FreeInv(s')
  {
    ThreadsKept(s, s', i, x);
    CoveredStep(s, s', i);
  }

  lemma AllocFree(s: State, c: Choice)
    requires FreeInv(s) && c.tid < |s.pcs| && s.pcs[c.tid].Idle?
    ensures FreeInv(Next(s, c))
  {
    var s' := Next(s, c);
    ThreadsKept(s, s', c.tid, None);
    CoveredStep(s, s', c.tid);
  }

  lemma LinkFree(s: State, i: nat)
    requires FreeInv(s) && i < |s.pcs| && s.pcs[i].EnqLink? && EnqOk(s, s.pcs[i])
    requires s.nodes[s.pcs[i].tail].next.None? && s.hd < |s.chain|
    ensures FreeInv(Link(s, i, s.pcs[i], false))
  {
    var s' := Link(s, i, s.pcs[i], false);
    LinkWrites(s, i);
    ThreadsKept(s, s', i, None);
    CoveredStep(s, s', i);
  }

  lemma UnlinkFree(s: State, i: nat)
    requires Inv(s) && FreeInv(s) && i < |s.pcs| && s.pcs[i].DeqCas? && s.head == s.pcs[i].head
    ensures FreeInv(Unlink(s, i, s.pcs[i], false))
  {
    var s' := Unlink(s, i, s.pcs[i], false);
    TailLinked(s);
    forall x: nat | Dequeued(s', x) && !Dequeued(s, x) ensures x == s.head {
      assert NodeOk(s, x);
    }
    forall k | 0 <= k < |s.pcs| ensures Retiring(s.pcs[k]) != Some(s.head) {
      assert RetiringOk(s, s.pcs[k]);
    }
    forall k | 0 <= k < |s.stack| ensures s.stack[k] != s.head {
      assert StackLink(s, k);
    }
    ThreadsKept(s, s', i, None);
    CoveredStep(s, s', i);
  }

  lemma PushFree(s: State, i: nat)
    requires FreeInv(s) && i < |s.pcs| && s.pcs[i].RetCas? && s.retired == s.pcs[i].top
    ensures FreeInv(Push(s, i, s.pcs[i], false))
  {
    var s' := Push(s, i, s.pcs[i], false);
    var x := s.pcs[i].node;
    assert RetiringOk(s, s.pcs[i]);
    assert s'.stack == [x] + s.stack;
    forall k | 0 <= k < |s'.stack| ensures StackLink(s', k) {
      if k > 0 {
        assert StackLink(s, k - 1);
      }
    }
    forall k | 0 <= k < |s'.pcs| ensures RetiringOk(s', s'.pcs[k]) {
      assert RetiringOk(s, s.pcs[k]);
      if k != i {
        assert RetApart(s.pcs[i], s.pcs[k]);
      }
    }
    CoveredStep(s, s', i);
  }

  /** What a step that neither links, unlinks nor pushes leaves alone. */
  ghost predicate StepKeeps(s: State, s': State, i: nat, x: Option<nat>)
    requires i < |s.pcs|
  {
    && ListKept(s, s', x) && |s'.pcs| == |s.pcs| && |s'.nodes| == |s.nodes| && s'.hd == s.hd
    && (forall y :: 0 <= y < |s.nodes| ==> s'.nodes[y].pos == s.nodes[y].pos)
    && s'.pcs == s.pcs[i := s'.pcs[i]]
    && Owned(s'.pcs[i]) == Owned(s.pcs[i]) && Retiring(s'.pcs[i]) == Retiring(s.pcs[i])
  }

  lemma EnqKeeps(s: State, c: Choice)
    requires c.tid < |s.pcs| && IsEnq(s.pcs[c.tid])
    requires var pc := s.pcs[c.tid];
             pc.EnqLink? ==> pc.tail < |s.nodes| && (c.fail || s.nodes[pc.tail].next.Some?)
    ensures StepKeeps(s, EnqStep(s, c), c.tid, None)
  {
  }

  lemma EnqFree(s: State, c: Choice)
    requires Inv(s) && FreeInv(s) && c.tid < |s.pcs| && IsEnq(s.pcs[c.tid])
    ensures FreeInv(EnqStep(s, c))
  {
    var i, pc := c.tid, s.pcs[c.tid];
    assert PcOk(s, pc);
    if pc.EnqLink? && !c.fail && s.nodes[pc.tail].next.None? {
      LinkFree(s, i);
    } else {
      EnqKeeps(s, c);
      KeepStep(s, EnqStep(s, c), i, None);
    }
  }

  lemma RetStoreKeeps(s: State, c: Choice)
    requires c.tid < |s.pcs| && s.pcs[c.tid].RetStore? && RetiringOk(s, s.pcs[c.tid])
    ensures var s' := DeqStep(s, c);
            StepKeeps(s, s', c.tid, Some(s.pcs[c.tid].node)) && RetiringOk(s', s'.pcs[c.tid])
  {
  }

  lemma DeqKeeps(s: State, c: Choice)
    requires c.tid < |s.pcs|
    requires var pc := s.pcs[c.tid];
             && !IsEnq(pc) && !pc.Idle?
             && (pc.DeqCas? ==> c.fail || s.head != pc.head)
             && (pc.RetCas? ==> c.fail || s.retired != pc.top)
             && RetiringOk(s, pc)
    ensures var s', pc := DeqStep(s, c), s.pcs[c.tid];
            StepKeeps(s, s', c.tid, if pc.RetStore? then Some(pc.node) else None)
            && RetiringOk(s', s'.pcs[c.tid])
  {
    if s.pcs[c.tid].RetStore? {
      RetStoreKeeps(s, c);
    }
  }

  lemma DeqFree(s: State, c: Choice)
    requires Inv(s) && FreeInv(s) && c.tid < |s.pcs| && !IsEnq(s.pcs[c.tid]) && !s.pcs[c.tid].Idle?
    ensures FreeInv(DeqStep(s, c))
  {
    var i, pc := c.tid, s.pcs[c.tid];
    assert RetiringOk(s, pc);
    if pc.DeqCas? && !c.fail && s.head == pc.head {
      UnlinkFree(s, i);
    } else if pc.RetCas? && !c.fail && s.retired == pc.top {
      PushFree(s, i);
    } else {
      DeqKeeps(s, c);
      KeepStep(s, DeqStep(s, c), i, if pc.RetStore? then Some(pc.node) else None);
    }
  }

  lemma {:induction false} RunFreeInv(threads: nat, sch: seq<Choice>)
    ensures FreeInv(Run(threads, sch))
  {
    if sch != [] {
      var before, c := sch[..|sch| - 1], sch[|sch| - 1];
      RunInv(threads, before);
      RunFreeInv(threads, before);
      var s := Run(threads, before);
      if c.tid < |s.pcs| {
        if s.pcs[c.tid].Idle? {
          AllocFree(s, c);
        } else if IsEnq(s.pcs[c.tid]) {
          EnqFree(s, c);
        } else {
          DeqFree(s, c);
        }
      }
    }
  }

  // ----- quiescence and destruction -----

  ghost predicate Quiet(s: State) {
    forall i :: 0 <= i < |s.pcs| ==> s.pcs[i].Idle?
  }

  lemma NoNodeTwice(s: State)
    requires ChainInv(s) && StackInv(s)
    ensures NoDup(s.stack + s.chain[s.hd..])
  {
    var all := s.stack + s.chain[s.hd..];
    forall i, k | 0 <= i < k < |all| ensures all[i] != all[k] {
      if k >= |s.stack| {
        assert all[k] == s.chain[s.hd + k - |s.stack|] && LinkOk(s, s.hd + k - |s.stack|);
        if i < |s.stack| {
          assert StackLink(s, i);
        } else {
          assert all[i] == s.chain[s.hd + i - |s.stack|] && LinkOk(s, s.hd + i - |s.stack|);
        }
      }
    }
  }

  /** After any run that has quiesced, the retired list and the chain from head
      are disjoint and together hold every allocated node once. */
  lemma RetiredAndChainPartition(s: State)
    requires Inv(s) && FreeInv(s) && Quiet(s)
    ensures NoDup(s.stack + s.chain[s.hd..])
    ensures forall x :: 0 <= x < |s.nodes| <==> x in s.stack + s.chain[s.hd..]
  {
    NoNodeTwice(s);
    var all := s.stack + s.chain[s.hd..];
    forall x | 0 <= x < |s.nodes| ensures x in all {
      assert !BeingEnqueued(s.pcs, x) && !BeingRetired(s.pcs, x) && NodeOk(s, x);
      if !Dequeued(s, x) {
        assert all[|s.stack| + s.nodes[x].pos.value - s.hd] == x;
      }
    }
    forall k | 0 <= k < |all| ensures 0 <= all[k] < |s.nodes| {
      if k < |s.stack| {
        assert StackLink(s, k);
      } else {
        assert LinkOk(s, s.hd + k - |s.stack|);
      }
    }
  }

  /** delete_retired: each node is read before it is deleted. */
  method DeleteRetired(s: State) returns (deleted: seq<nat>)
    requires Inv(s) && FreeInv(s)
    ensures deleted == s.stack
  {
    deleted := [];
    var cur := s.retired;
    while cur.Some?
      invariant |deleted| <= |s.stack| && deleted == s.stack[..|deleted|]
      invariant cur == if |deleted| < |s.stack| then Some(s.stack[|deleted|]) else None
      decreases |s.stack| - |deleted|
    {
      assert StackLink(s, |deleted|);
      var next := s.nodes[cur.value].retiredNext;
      deleted := deleted + [cur.value];
      cur := next;
    }
  }

  /** delete_chain, from head. */
  method DeleteChain(s: State) returns (deleted: seq<nat>)
    requires Inv(s)
    ensures deleted == s.chain[s.hd..]
  {
    deleted := [];
    ghost var chain := s.chain[s.hd..];
    var cur := Some(s.head);
    while cur.Some?
      invariant |deleted| <= |chain| && deleted == chain[..|deleted|]
      invariant cur == if |deleted| < |chain| then Some(chain[|deleted|]) else None
      decreases |chain| - |deleted|
    {
      assert LinkOk(s, s.hd + |deleted|);
      var next := s.nodes[cur.value].next;
      deleted := deleted + [cur.value];
      cur := next;
    }
  }

  /** The destructor: every allocated node is deleted exactly once. */
  method Destroy(s: State) returns (deleted: seq<nat>)
    requires Inv(s) && FreeInv(s) && Quiet(s)
    ensures NoDup(deleted)
    ensures forall x :: 0 <= x < |s.nodes| <==> x in deleted
  {
    RetiredAndChainPartition(s);
    var retired := DeleteRetired(s);
    var chain := DeleteChain(s);
    deleted := retired + chain;
  }

  /** Quiesced runs meet the destructor's precondition. */
  lemma QuietRunCanBeDestroyed(threads: nat, sch: seq<Choice>)
    requires Quiet(Run(threads, sch))
    ensures var s := Run(threads, sch);
            Inv(s) && FreeInv(s) && NoDup(s.stack + s.chain[s.hd..])
            && forall x :: 0 <= x < |s.nodes| <==> x in s.stack + s.chain[s.hd..]
  {
    RunInv(threads, sch);
    RunFreeInv(threads, sch);
    RetiredAndChainPartition(Run(threads, sch));
  }
}
