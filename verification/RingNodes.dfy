/** The nodes of the unbounded queue: each has a ring, a link and a finalized flag.
    The rings are separate objects that share no memory; `parts` is what they hold. */
module RingNodes {
  import opened Ring
  import opened MachineWord
  import Scqp

  class Nodes {
    const scqsize: nat
    const fallback: bool
    var queues: seq<Scqp.Queue>
    var next: seq<Option<nat>>
    var finalized: seq<bool>
    ghost var parts: seq<seq<nat>>
    /** The memory of all rings. */
    ghost var repr: set<object>

    ghost predicate RingOk(i: nat)
      requires i < |queues| == |parts|
      reads this, repr
    {
      && queues[i] in repr && queues[i].entriesP in repr && queues[i].entriesI in repr && queues[i].ptrs in repr
      && queues[i].Valid() && queues[i].Exact() && queues[i].contents == parts[i] && queues[i].n > 0
    }

    ghost predicate Apart(a: Scqp.Queue, b: Scqp.Queue) {
      a != b && a.entriesP != b.entriesP && a.entriesI != b.entriesI && a.ptrs != b.ptrs
    }

    ghost predicate Valid()
      reads this, repr
    {
      && scqsize <= HALF && |queues| == |next| == |finalized| == |parts| && this !in repr
      && (forall i :: 0 <= i < |queues| ==> RingOk(i))
      && (forall i, j :: 0 <= i < j < |queues| ==> Apart(queues[i], queues[j]))
    }

    constructor (scqsize: nat, fallback: bool)
      requires scqsize <= HALF
      ensures Valid() && |queues| == 0 && repr == {}
    {
      this.scqsize, this.fallback := scqsize, fallback;
      queues, next, finalized, parts, repr := [], [], [], [], {};
    }

    method Enqueue(i: nat, p: nat) returns (ok: bool)
      requires Valid() && i < |queues|
      modifies this`parts, repr
      ensures Valid() && (ok <==> |old(parts)[i]| < queues[i].n)
      ensures parts == if ok then old(parts)[i := old(parts)[i] + [p]] else old(parts)
    {
      assert RingOk(i);
      ok := queues[i].Enqueue(Some(p));
      parts := parts[i := queues[i].contents];
      forall j | 0 <= j < |queues| ensures RingOk(j) {
        assert old(RingOk(j));
      }
    }

    method Dequeue(i: nat) returns (r: Option<nat>)
      requires Valid() && i < |queues|
      modifies this`parts, repr
      ensures Valid() && (r == None <==> old(parts)[i] == [])
      ensures if r.None? then parts == old(parts) else parts == old(parts)[i := old(parts)[i][1..]]
      ensures r.Some? ==> r.value == old(parts)[i][0]
    {
      assert RingOk(i);
      r := queues[i].Dequeue();
      parts := parts[i := queues[i].contents];
      forall j | 0 <= j < |queues| ensures RingOk(j) {
        assert old(RingOk(j));
      }
    }

    method IsEmpty(i: nat) returns (empty: bool)
      requires Valid() && i < |queues|
      ensures empty <==> parts[i] == []
    {
      assert RingOk(i);
      empty := queues[i].IsEmpty();
    }

    method Link(i: nat, j: nat)
      requires Valid() && i < |queues|
      modifies this`next
      ensures Valid() && next == old(next)[i := Some(j)]
    {
      next := next[i := Some(j)];
      forall k | 0 <= k < |queues| ensures RingOk(k) {
        assert old(RingOk(k));
      }
    }

    method Finalize(i: nat)
      requires Valid() && i < |queues|
      modifies this`finalized
      ensures Valid() && finalized == old(finalized)[i := true]
    {
      finalized := finalized[i := true];
      forall k | 0 <= k < |queues| ensures RingOk(k) {
        assert old(RingOk(k));
      }
    }

    /** The pool's factory makes one more node. */
    method Add()
      requires Valid()
      modifies this
      ensures Valid() && |queues| == |old(queues)| + 1 && fresh(repr - old(repr))
      ensures next == old(next) + [None] && finalized == old(finalized) + [false] && parts == old(parts) + [[]]
    {
      var q := new Scqp.Queue(scqsize, fallback);
      queues := queues + [q];
      next := next + [None];
      finalized := finalized + [false];
      parts := parts + [[]];
      repr := repr + {q, q.entriesP, q.entriesI, q.ptrs};
      forall k | 0 <= k < |queues| ensures RingOk(k) {
        if k < |old(queues)| {
          assert old(RingOk(k));
        }
      }
    }

    /** Destroy a ring and construct a new one in its place. */
    method Replace(i: nat)
      requires Valid() && i < |queues|
      modifies this
      ensures |queues| == |old(queues)| && Valid() && queues[i].Fresh() && fresh(repr - old(repr))
      ensures next == old(next) && finalized == old(finalized) && parts == old(parts)[i := []]
    {
      var q := new Scqp.Queue(scqsize, fallback);
      queues := queues[i := q];
      parts := parts[i := []];
      repr := repr + {q, q.entriesP, q.entriesI, q.ptrs};
      forall k | 0 <= k < |queues| ensures RingOk(k) {
        assert old(RingOk(k));
      }
    }

    method TryReset(i: nat) returns (ok: bool)
      requires Valid() && i < |queues|
      modifies repr
      ensures Valid() && (ok ==> queues[i].Fresh() && parts[i] == [])
    {
      assert RingOk(i);
      ok := queues[i].ResetForReuse();
      forall j | 0 <= j < |queues| ensures RingOk(j) {
        assert old(RingOk(j));
      }
    }

    /** prepare_node_for_use: whatever the node was, it ends unlinked, open, and with a ring
        in the state a new one has. */
    method Prepare(i: nat)
      requires Valid() && i < |queues|
      modifies this, repr
      ensures |queues| == |old(queues)| && Valid() && queues[i].Fresh() && fresh(repr - old(repr))
      ensures next == old(next)[i := None] && finalized == old(finalized)[i := false] && parts == old(parts)[i := []]
    {
      next := next[i := None];
      finalized := finalized[i := false];
      forall k | 0 <= k < |queues| ensures RingOk(k) {
        assert old(RingOk(k));
      }
      var ok := TryReset(i);
      if !ok {
        Replace(i);
      }
    }
  }
}
