/** The unbounded queue, one call at a time: a linked list of rings, extended when the
    last ring is full, shortened when the first is drained, with drained nodes going
    back to an object pool and coming out of it again.  Nodes are numbered in the
    order in which the pool's factory made them. */
module Lscq {
  import opened Ring
  import opened MachineWord
  import opened PoolShard
  import opened ObjectPool
  import opened NodeList
  import opened RingNodes

  class Queue {
    const nodes: Nodes
    const pool: Core
    var head: nat
    var tail: nat
    var closing: bool
    var activeOps: int
    /** The nodes from head to tail. */
    ghost var list: seq<nat>

    /** The rings share no memory with the rest. */
    ghost predicate Separate()
      reads this, nodes
    {
      this !in nodes.repr && pool !in nodes.repr && forall k :: 0 <= k < |pool.shards| ==> pool.shards[k] !in nodes.repr
    }

    /** Every node made is in the list, in the pool, or in hand. */
    ghost predicate Sound(hand: seq<nat>)
      reads this, pool, pool.shards, nodes, nodes.repr
    {
      && Separate() && pool.Valid() && nodes.Valid() && pool.made == |nodes.queues|
      && Spread(list, pool.stored, hand, pool.made)
    }

    ghost predicate Valid()
      reads this, pool, pool.shards, nodes, nodes.repr
    {
      Sound([]) && Chain(nodes.next, nodes.finalized, list, head, tail)
    }

    ghost function Contents(): seq<nat>
      reads this, nodes
    {
      Flat(nodes.parts, list)
    }

    /** A node from the pool, or a new one. */
    method TakeNode(home: nat) returns (id: nat)
      requires Sound([]) && home < |pool.shards|
      modifies pool, pool.shards, nodes
      ensures Sound([id]) && id < pool.made && id !in list && fresh(nodes.repr - old(nodes.repr))
      ensures old(nodes.next) <= nodes.next && old(nodes.finalized) <= nodes.finalized
      ensures old(nodes.parts) <= nodes.parts
    {
      ghost var stored := pool.stored;
      var node := pool.GetShared(home, true);
      id := node.value;
      ghost var n := FirstStocked(stored, home, 0);
      if n < |stored| {
        SpreadTake(list, stored, |nodes.queues|, RoundRobin(home, n, |stored|));
      } else {
        SpreadMake(list, stored, |nodes.queues|);
      }
      SpreadHeld(list, pool.stored, id, pool.made);
      if id == |nodes.queues| {
        nodes.Add();
      }
    }

    constructor (scqsize: nat, fallback: bool, shardCount: nat, home: nat)
      requires scqsize <= HALF && home < (if shardCount == 0 then 1 else shardCount)
      ensures Valid() && Contents() == [] && !closing && activeOps == 0
      ensures fresh(pool) && fresh(pool.shards) && fresh(nodes) && fresh(nodes.repr)
      ensures |pool.shards| == if shardCount == 0 then 1 else shardCount
    {
      pool := new Core(shardCount);
      nodes := new Nodes(scqsize, fallback);
      head, tail, closing, activeOps := 0, 0, false, 0;
      list := [];
      new;
      SpreadNone(pool.stored);
      Start(home);
    }

    /** The first node. */
    method Start(home: nat)
      requires Sound([]) && list == [] && home < |pool.shards|
      modifies this, pool, pool.shards, nodes, nodes.repr
      ensures Valid() && Contents() == [] && fresh(nodes.repr - old(nodes.repr))
      ensures closing == old(closing) && activeOps == old(activeOps)
    {
      var id := NewNode(home);
      FlatSingle(nodes.parts, id);
      Install(id);
    }

    method Install(id: nat)
      requires Sound([id]) && id < pool.made && nodes.next[id] == None && !nodes.finalized[id] && list == []
      modifies this`list, this`head, this`tail
      ensures Valid() && list == [id]
    {
      SpreadLink([], pool.stored, id, pool.made);
      assert [] + [id] == [id];
      list, head, tail := [id], id, id;
    }

    /** A node taken out and prepared: it cannot be told from one just made. */
    method NewNode(home: nat) returns (id: nat)
      requires Sound([]) && home < |pool.shards|
      modifies pool, pool.shards, nodes, nodes.repr
      ensures Sound([id]) && id < pool.made && id !in list && fresh(nodes.repr - old(nodes.repr))
      ensures nodes.queues[id].Fresh()
      ensures nodes.next[id] == None && !nodes.finalized[id] && nodes.parts[id] == []
      ensures Kept(old(nodes.next), nodes.next, id) && Kept(old(nodes.finalized), nodes.finalized, id)
      ensures Kept(old(nodes.parts), nodes.parts, id)
    {
      id := TakeNode(home);
      nodes.Prepare(id);
    }

    /** The full tail is finalized, a fresh node is linked behind it and becomes the tail. */
    method Extend(home: nat)
      requires Valid() && home < |pool.shards|
      modifies this`list, this`tail, pool, pool.shards, nodes
      modifies nodes.repr
      ensures Valid() && Contents() == old(Contents()) && nodes.parts[tail] == [] && fresh(nodes.repr - old(nodes.repr))
    {
      var id := CloseTail(home);
      FlatKept(old(nodes.parts), nodes.parts, list, id);
      LinkBehind(id);
    }

    /** The tail is finalized and the node to follow it is prepared. */
    method CloseTail(home: nat) returns (id: nat)
      requires Valid() && home < |pool.shards|
      modifies pool, pool.shards, nodes, nodes.repr
      ensures Sound([id]) && id < pool.made && id !in list && fresh(nodes.repr - old(nodes.repr))
      ensures nodes.next[id] == None && !nodes.finalized[id] && nodes.parts[id] == []
      ensures OpenChain(nodes.next, nodes.finalized, list, head, tail) && Kept(old(nodes.parts), nodes.parts, id)
    {
      nodes.Finalize(tail);
      id := NewNode(home);
      OpenChainKept(old(nodes.next), nodes.next, old(nodes.finalized), nodes.finalized, list, head, tail, id);
    }

    /** The tail's link is free, so its compare-and-swap succeeds; then the tail moves. */
    method LinkBehind(id: nat)
      requires Sound([id]) && id < pool.made && id !in list && nodes.next[id] == None && !nodes.finalized[id]
      requires OpenChain(nodes.next, nodes.finalized, list, head, tail)
      modifies this`list, this`tail, nodes`next
      ensures Valid() && list == old(list) + [id] && tail == id
    {
      SpreadBound(list, pool.stored, [id], pool.made, |list| - 1);
      ChainExtends(nodes.next, nodes.finalized, list, head, tail, id);
      SpreadLink(list, pool.stored, id, pool.made);
      nodes.Link(tail, id);
      list, tail := list + [id], id;
    }

    /** One attempt on the tail's ring. */
    method Append(p: nat) returns (ok: bool)
      requires Valid()
      modifies nodes`parts, nodes.repr
      ensures Valid() && (old(nodes.parts)[tail] == [] ==> ok)
      ensures Contents() == if ok then old(Contents()) + [p] else old(Contents())
    {
      SpreadBound(list, pool.stored, [], pool.made, |list| - 1);
      FlatLast(nodes.parts, list, nodes.parts[tail] + [p]);
      assert nodes.RingOk(tail);
      ok := nodes.Enqueue(tail, p);
    }

    /** A non-null pointer is always accepted, at the latest in the second of 16 rounds. */
    method Enqueue(ptr: Option<nat>, home: nat) returns (ok: bool)
      requires Valid() && home < |pool.shards|
      modifies this, pool, pool.shards, nodes
      modifies nodes.repr
      ensures Valid() && closing == old(closing) && activeOps == old(activeOps) && fresh(nodes.repr - old(nodes.repr))
      ensures ok <==> ptr.Some? && !closing
      ensures Contents() == if ok then old(Contents()) + [ptr.value] else old(Contents())
    {
      ok := false;
      if ptr.Some? && !closing {
        activeOps := activeOps + 1;
        var retry := 0;
        while retry < 16 && !ok
          invariant Valid() && closing == old(closing) && activeOps == old(activeOps) + 1
          invariant fresh(nodes.repr - old(nodes.repr))
          invariant retry <= 1 || ok
          invariant retry == 1 && !ok ==> nodes.parts[tail] == []
          invariant Contents() == if ok then old(Contents()) + [ptr.value] else old(Contents())
          decreases 16 - retry
        {
          ok := Append(ptr.value);
          if !ok {
            Extend(home);
          }
          retry := retry + 1;
        }
        activeOps := activeOps - 1;
      }
    }

    /** One attempt on the head's ring. */
    method TakeFirst() returns (r: Option<nat>)
      requires Valid()
      modifies nodes`parts, nodes.repr
      ensures Valid() && (r == None <==> old(nodes.parts)[head] == []) && (r.None? ==> nodes.parts == old(nodes.parts))
      ensures r.Some? ==> [r.value] + Contents() == old(Contents())
    {
      SpreadBound(list, pool.stored, [], pool.made, 0);
      FlatFirst(nodes.parts, list, if nodes.parts[head] == [] then [] else nodes.parts[head][1..]);
      r := nodes.Dequeue(head);
    }

    /** A drained, finalized head goes back to the pool. */
    method DropFirst(home: nat)
      requires Valid() && home < |pool.shards| && nodes.parts[head] == [] && |list| > 1
      modifies this`head, this`list, pool, pool.shards
      ensures Valid() && Contents() == old(Contents()) && list == old(list)[1..]
    {
      ChainDrops(nodes.next, nodes.finalized, list, head, tail);
      FlatHead(nodes.parts, list);
      var empty := nodes.IsEmpty(head);
      assert empty;
      var first := head;
      head := nodes.next[head].value;
      Recycle(first, home);
    }

    /** The first node of the list goes to a shard. */
    method Recycle(first: nat, home: nat)
      requires Sound([]) && home < |pool.shards| && list != [] && first == list[0]
      modifies this`list, pool, pool.shards
      ensures Sound([]) && list == old(list)[1..]
    {
      SpreadUnlink(list, pool.stored, pool.made, home);
      list := list[1..];
      pool.PutShared(home, Some(first));
    }

    /** Three more attempts on a drained ring find nothing. */
    method RetryFirst()
      requires Valid() && nodes.parts[head] == []
      modifies nodes`parts, nodes.repr
      ensures Valid() && nodes.parts == old(nodes.parts)
    {
      var retry := 0;
      while retry < 3
        invariant 0 <= retry <= 3 && Valid() && nodes.parts == old(nodes.parts)
      {
        var again := TakeFirst();
        assert again == None;
        retry := retry + 1;
      }
    }

    /** The oldest element, or None exactly when the queue is empty (or closing). */
    method Dequeue(home: nat) returns (r: Option<nat>)
      requires Valid() && home < |pool.shards|
      modifies this, pool, pool.shards, nodes
      modifies nodes.repr
      ensures Valid() && closing == old(closing) && activeOps == old(activeOps) && nodes.repr == old(nodes.repr)
      ensures r == None <==> closing || old(Contents()) == []
      ensures if r.Some? then [r.value] + Contents() == old(Contents()) else Contents() == old(Contents())
    {
      r := None;
      if !closing {
        activeOps := activeOps + 1;
        var empty := false;
        while r.None? && !empty
          invariant Valid() && closing == old(closing) && activeOps == old(activeOps) + 1
          invariant nodes.repr == old(nodes.repr)
          invariant if r.Some? then [r.value] + Contents() == old(Contents()) else Contents() == old(Contents())
          invariant empty ==> old(Contents()) == []
          decreases if r.None? && !empty then 1 else 0, |list|
        {
          r := TakeFirst();
          if r.None? {
            if !nodes.finalized[head] && nodes.next[head] == None {
              assert list[1..] == [];
              FlatHead(nodes.parts, list);
              empty := true;
            } else {
              RetryFirst();
              DropFirst(home);
            }
          }
        }
        activeOps := activeOps - 1;
      }
    }

    /** The destructor: every node of the list goes to the pool, and the pool is cleared, so
        every node ever made is deleted exactly once. */
    method Destroy(home: nat) returns (deleted: seq<nat>)
      requires Valid() && home < |pool.shards| && activeOps == 0
      modifies this, pool, pool.shards
      ensures closing && forall x: nat :: Count(deleted, x) == if x < old(pool.made) then 1 else 0
    {
      closing := true;
      var current := Some(head);
      while current.Some?
        invariant closing && pool.Valid() && pool.made == old(pool.made) && Spread(list, pool.stored, [], pool.made)
        invariant forall i :: 0 <= i < |list| ==> list[i] < |nodes.next|
        invariant forall i :: 0 <= i < |list| - 1 ==> nodes.next[list[i]] == Some(list[i + 1])
        invariant list != [] ==> nodes.next[list[|list| - 1]] == None
        invariant current == if list == [] then None else Some(list[0])
        decreases |list|
      {
        var following := nodes.next[current.value];
        SpreadUnlink(list, pool.stored, pool.made, home);
        pool.PutShared(home, current);
        list := list[1..];
        current := following;
      }
      ghost var stored := pool.stored;
      deleted := pool.ClearShared();
      forall x: nat ensures Count(deleted, x) == if x < old(pool.made) then 1 else 0 {
        assert Count([], x) + InShards(stored, x) + Count([], x) == if x < old(pool.made) then 1 else 0;
      }
    }
  }

  // ----- whole runs -----

  datatype Call = Put(ptr: Option<nat>) | Get

  datatype Reply = Accepted(ok: bool) | Got(r: Option<nat>)

  /** An unbounded FIFO. */
  function FifoNext(before: seq<nat>, call: Call): seq<nat> {
    match call
    case Put(ptr) => if ptr.Some? then before + [ptr.value] else before
    case Get => if before == [] then [] else before[1..]
  }

  function FifoReply(before: seq<nat>, call: Call): Reply {
    match call
    case Put(ptr) => Accepted(ptr.Some?)
    case Get => Got(if before == [] then None else Some(before[0]))
  }

  function FifoAfter(calls: seq<Call>): seq<nat> {
    if calls == [] then [] else FifoNext(FifoAfter(calls[..|calls| - 1]), calls[|calls| - 1])
  }

  function FifoReplies(calls: seq<Call>): seq<Reply> {
    if calls == [] then []
    else
      FifoReplies(calls[..|calls| - 1]) + [FifoReply(FifoAfter(calls[..|calls| - 1]), calls[|calls| - 1])]
  }

  method Answer(q: Queue, call: Call, home: nat) returns (reply: Reply)
    requires q.Valid() && !q.closing && home < |q.pool.shards|
    modifies q, q.pool, q.pool.shards, q.nodes
    modifies q.nodes.repr
    ensures q.Valid() && !q.closing && q.activeOps == old(q.activeOps) && fresh(q.nodes.repr - old(q.nodes.repr))
    ensures q.Contents() == FifoNext(old(q.Contents()), call) && reply == FifoReply(old(q.Contents()), call)
  {
    match call
    case Put(ptr) =>
      var ok := q.Enqueue(ptr, home);
      reply := Accepted(ok);
    case Get =>
      var r := q.Dequeue(home);
      reply := Got(r);
  }

  /** The calls in turn, on a queue that was empty. */
  method AnswerAll(q: Queue, homes: seq<nat>, calls: seq<Call>) returns (replies: seq<Reply>)
    requires q.Valid() && !q.closing && q.Contents() == []
    requires |homes| == |calls| && forall i :: 0 <= i < |homes| ==> homes[i] < |q.pool.shards|
    modifies q, q.pool, q.pool.shards, q.nodes
    modifies q.nodes.repr
    ensures q.Valid() && !q.closing && q.activeOps == old(q.activeOps) && fresh(q.nodes.repr - old(q.nodes.repr))
    ensures q.Contents() == FifoAfter(calls) && replies == FifoReplies(calls)
    decreases |calls|
  {
    if calls == [] {
      replies := [];
    } else {
      var last := |calls| - 1;
      replies := AnswerAll(q, homes[..last], calls[..last]);
      var reply := Answer(q, calls[last], homes[last]);
      replies := replies + [reply];
    }
  }

  /** Any sequence of calls on a new queue, with any ring size, in either mode, and from
      threads with any home shards, is answered as by an unbounded FIFO; destroying the
      queue then deletes each of its nodes once. */
  method Serve(scqsize: nat, fallback: bool, shardCount: nat, homes: seq<nat>, calls: seq<Call>)
    returns (replies: seq<Reply>, made: nat, deleted: seq<nat>)
    requires scqsize <= HALF && |homes| == |calls|
    requires forall i :: 0 <= i < |homes| ==> homes[i] < if shardCount == 0 then 1 else shardCount
    ensures replies == FifoReplies(calls)
    ensures forall x: nat :: Count(deleted, x) == if x < made then 1 else 0
  {
    var q := new Queue(scqsize, fallback, shardCount, 0);
    replies := AnswerAll(q, homes, calls);
    made := q.pool.made;
    deleted := q.Destroy(0);
  }
}
