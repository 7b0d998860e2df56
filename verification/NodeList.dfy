/** The linked list of ring nodes as values: which nodes are linked, what their rings
    hold together, and where every node ever made is. */
module NodeList {
  import opened Ring
  import opened PoolShard

  /** The list runs from head to tail; all nodes but the last are finalized. */
  ghost predicate Chain(next: seq<Option<nat>>, finalized: seq<bool>, list: seq<nat>, head: nat, tail: nat) {
    && |next| == |finalized| && |list| > 0 && list[0] == head && list[|list| - 1] == tail
    && (forall i :: 0 <= i < |list| ==> list[i] < |next|)
    && (forall i :: 0 <= i < |list| - 1 ==> next[list[i]] == Some(list[i + 1]) && finalized[list[i]])
    && next[tail] == None && !finalized[tail]
  }

  /** Every node made is in exactly one place: the list, the pool, or in hand. */
  ghost predicate Spread(list: seq<nat>, stored: seq<seq<nat>>, hand: seq<nat>, made: nat) {
    forall x: nat :: Count(list, x) + InShards(stored, x) + Count(hand, x) == if x < made then 1 else 0
  }

  /** The elements of the nodes in list order. */
  function Flat(parts: seq<seq<nat>>, list: seq<nat>): seq<nat> {
    if list == [] then []
    else
      var last := list[|list| - 1];
      Flat(parts, list[..|list| - 1]) + (if last < |parts| then parts[last] else [])
  }

  lemma {:induction false} FlatFrame(parts: seq<seq<nat>>, other: seq<seq<nat>>, list: seq<nat>)
    requires forall i :: 0 <= i < |list| ==> list[i] < |parts| && list[i] < |other| && parts[list[i]] == other[list[i]]
    ensures Flat(parts, list) == Flat(other, list)
  {
    if list != [] {
      FlatFrame(parts, other, list[..|list| - 1]);
    }
  }

  lemma FlatSingle(parts: seq<seq<nat>>, id: nat)
    requires id < |parts|
    ensures Flat(parts, [id]) == parts[id]
  {
    assert Flat(parts, [id][..0]) == [];
  }

  lemma {:induction false} FlatHead(parts: seq<seq<nat>>, list: seq<nat>)
    requires list != [] && list[0] < |parts|
    ensures Flat(parts, list) == parts[list[0]] + Flat(parts, list[1..])
  {
    if |list| == 1 {
      assert list[..0] == [] && list[1..] == [];
    } else {
      FlatHead(parts, list[..|list| - 1]);
      assert list[..|list| - 1][1..] == list[1..][..|list[1..]| - 1];
    }
  }

  /** A node that occurs once is not among the others. */
  lemma {:induction false} OnceAt(list: seq<nat>, k: nat, i: nat)
    requires k < |list| && i < |list| && i != k && Count(list, list[k]) <= 1
    ensures list[i] != list[k]
  {
    var x := list[k];
    CountRemove(list, k, x);
    CountMember(list[..k] + list[k + 1..], x);
    assert (list[..k] + list[k + 1..])[if i < k then i else i - 1] == list[i];
  }

  /** Appending to the last node appends to the whole. */
  lemma FlatLast(parts: seq<seq<nat>>, list: seq<nat>, part: seq<nat>)
    requires list != [] && Count(list, list[|list| - 1]) <= 1
    requires forall i :: 0 <= i < |list| ==> list[i] < |parts|
    ensures Flat(parts[list[|list| - 1] := part], list) == Flat(parts, list[..|list| - 1]) + part
    ensures Flat(parts, list) == Flat(parts, list[..|list| - 1]) + parts[list[|list| - 1]]
  {
    var k := |list| - 1;
    forall i | 0 <= i < k ensures list[i] != list[k] {
      OnceAt(list, k, i);
    }
    FlatFrame(parts, parts[list[k] := part], list[..k]);
  }

  /** Changing the first node changes the front of the whole. */
  lemma FlatFirst(parts: seq<seq<nat>>, list: seq<nat>, part: seq<nat>)
    requires list != [] && Count(list, list[0]) <= 1
    requires forall i :: 0 <= i < |list| ==> list[i] < |parts|
    ensures Flat(parts[list[0] := part], list) == part + Flat(parts, list[1..])
    ensures Flat(parts, list) == parts[list[0]] + Flat(parts, list[1..])
  {
    FlatHead(parts, list);
    FlatHead(parts[list[0] := part], list);
    forall i | 1 <= i < |list| ensures list[i] != list[0] {
      OnceAt(list, 0, i);
    }
    FlatFrame(parts, parts[list[0] := part], list[1..]);
  }

  /** The same with the last node finalized and its successor still to come. */
  ghost predicate OpenChain(next: seq<Option<nat>>, finalized: seq<bool>, list: seq<nat>, head: nat, tail: nat) {
    && |next| == |finalized| && |list| > 0 && list[0] == head && list[|list| - 1] == tail
    && (forall i :: 0 <= i < |list| ==> list[i] < |next| && finalized[list[i]])
    && (forall i :: 0 <= i < |list| - 1 ==> next[list[i]] == Some(list[i + 1]))
    && next[tail] == None
  }

  /** Node id aside, the old nodes are as they were. */
  ghost predicate Kept<T>(before: seq<T>, after: seq<T>, id: nat) {
    |before| <= |after| && forall k :: 0 <= k < |before| && k != id ==> after[k] == before[k]
  }

  lemma OpenChainKept(next: seq<Option<nat>>, next': seq<Option<nat>>, finalized: seq<bool>, finalized': seq<bool>,
                      list: seq<nat>, head: nat, tail: nat, id: nat)
    requires Chain(next, finalized, list, head, tail) && id !in list
    requires Kept(next, next', id) && Kept(finalized[tail := true], finalized', id) && |next'| == |finalized'|
    ensures OpenChain(next', finalized', list, head, tail)
  {
  }

  lemma FlatKept(parts: seq<seq<nat>>, parts': seq<seq<nat>>, list: seq<nat>, id: nat)
    requires Kept(parts, parts', id) && id !in list && id < |parts'| && parts'[id] == []
    requires forall i :: 0 <= i < |list| ==> list[i] < |parts|
    ensures Flat(parts', list + [id]) == Flat(parts, list)
  {
    FlatFrame(parts, parts', list);
    assert (list + [id])[..|list|] == list;
  }

  /** A first node with a successor is finalized and linked to it; the rest is a chain. */
  lemma ChainDrops(next: seq<Option<nat>>, finalized: seq<bool>, list: seq<nat>, head: nat, tail: nat)
    requires Chain(next, finalized, list, head, tail) && |list| > 1
    ensures next[head] == Some(list[1]) && finalized[head] && Chain(next, finalized, list[1..], list[1], tail)
  {
  }

  /** Linking a new empty node behind the tail. */
  lemma ChainExtends(next: seq<Option<nat>>, finalized: seq<bool>, list: seq<nat>, head: nat, tail: nat, id: nat)
    requires OpenChain(next, finalized, list, head, tail) && Count(list, tail) <= 1
    requires id < |next| && next[id] == None && !finalized[id] && id !in list
    ensures Chain(next[tail := Some(id)], finalized, list + [id], head, id)
  {
    var k := |list| - 1;
    forall i | 0 <= i < k ensures list[i] != tail {
      OnceAt(list, k, i);
    }
    assert tail in list;
  }

  lemma SpreadBound(list: seq<nat>, stored: seq<seq<nat>>, hand: seq<nat>, made: nat, i: nat)
    requires Spread(list, stored, hand, made) && i < |list|
    ensures list[i] < made && Count(list, list[i]) == 1
  {
    CountMember(list, list[i]);
    assert Count(list, list[i]) + InShards(stored, list[i]) + Count(hand, list[i])
        == if list[i] < made then 1 else 0;
  }

  lemma SpreadNone(stored: seq<seq<nat>>)
    requires forall k :: 0 <= k < |stored| ==> stored[k] == []
    ensures Spread([], stored, [], 0)
  {
    forall x: nat ensures Count([], x) + InShards(stored, x) + Count([], x) == 0 {
      EmptyShards(stored, x);
    }
  }

  /** Taking the newest object of a shard. */
  lemma SpreadTake(list: seq<nat>, stored: seq<seq<nat>>, made: nat, k: nat)
    requires Spread(list, stored, [], made) && k < |stored| && stored[k] != []
    ensures Spread(list, stored[k := stored[k][..|stored[k]| - 1]], [stored[k][|stored[k]| - 1]], made)
  {
    var rest, obj := stored[k][..|stored[k]| - 1], stored[k][|stored[k]| - 1];
    forall x: nat
      ensures Count(list, x) + InShards(stored[k := rest], x) + Count([obj], x) == if x < made then 1 else 0
    {
      assert Count(list, x) + InShards(stored, x) + Count([], x) == if x < made then 1 else 0;
      ShardUpdate(stored, k, rest, x);
      CountAppend(rest, [obj], x);
      assert stored[k] == rest + [obj];
    }
  }

  lemma SpreadMake(list: seq<nat>, stored: seq<seq<nat>>, made: nat)
    requires Spread(list, stored, [], made)
    ensures Spread(list, stored, [made], made + 1)
  {
    forall x: nat ensures Count(list, x) + InShards(stored, x) + Count([made], x) == if x < made + 1 then 1 else 0 {
      assert Count(list, x) + InShards(stored, x) + Count([], x) == if x < made then 1 else 0;
      CountOne(made, x);
    }
  }

  lemma SpreadHeld(list: seq<nat>, stored: seq<seq<nat>>, id: nat, made: nat)
    requires Spread(list, stored, [id], made)
    ensures id < made && id !in list
  {
    CountOne(id, id);
    CountMember(list, id);
    assert Count(list, id) + InShards(stored, id) + Count([id], id) == if id < made then 1 else 0;
  }

  lemma SpreadLink(list: seq<nat>, stored: seq<seq<nat>>, id: nat, made: nat)
    requires Spread(list, stored, [id], made)
    ensures Spread(list + [id], stored, [], made)
  {
    forall x: nat ensures Count(list + [id], x) + InShards(stored, x) + Count([], x) == if x < made then 1 else 0 {
      assert Count(list, x) + InShards(stored, x) + Count([id], x) == if x < made then 1 else 0;
      CountAppend(list, [id], x);
    }
  }

  /** The first node goes to a shard of the pool. */
  lemma SpreadUnlink(list: seq<nat>, stored: seq<seq<nat>>, made: nat, k: nat)
    requires Spread(list, stored, [], made) && list != [] && k < |stored|
    ensures Spread(list[1..], stored[k := stored[k] + [list[0]]], [], made)
  {
    var stored' := stored[k := stored[k] + [list[0]]];
    forall x: nat ensures Count(list[1..], x) + InShards(stored', x) + Count([], x) == if x < made then 1 else 0 {
      assert Count(list, x) + InShards(stored, x) + Count([], x) == if x < made then 1 else 0;
      ShardUpdate(stored, k, stored[k] + [list[0]], x);
      CountAppend(stored[k], [list[0]], x);
      CountOne(list[0], x);
    }
  }
}
