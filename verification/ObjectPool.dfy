/** The shared object pool, one call at a time: a vector of shards and a factory.
    The calling thread's own shard is a parameter. */
module ObjectPool {
  import opened Ring
  import opened PoolShard

  /** The shard looked at in round n. */
  function RoundRobin(home: nat, n: nat, shards: nat): (k: nat)
    requires home < shards && n < shards
    ensures k < shards
  {
    if home + n < shards then home + n else home + n - shards
  }

  /** Round n looks at the n-th shard after home, around the ring of shards. */
  lemma RoundRobinIsModulo(home: nat, n: nat, shards: nat)
    requires home < shards && n < shards
    ensures RoundRobin(home, n, shards) == (home + n) % shards
  {
    if home + n < shards {
      DivModUnique(home + n, shards, 0, home + n, 0);
    } else {
      DivModUnique(home + n, shards, 1, home + n - shards, 0);
    }
  }

  /** The first round, from n on, whose shard has an object; `|stored|` if none has. */
  function FirstStocked(stored: seq<seq<nat>>, home: nat, n: nat): (r: nat)
    requires home < |stored| && n <= |stored|
    ensures n <= r <= |stored|
    ensures r < |stored| ==> stored[RoundRobin(home, r, |stored|)] != []
    ensures forall m :: n <= m < r ==> stored[RoundRobin(home, m, |stored|)] == []
    decreases |stored| - n
  {
    if n == |stored| then n
    else if stored[RoundRobin(home, n, |stored|)] != [] then n
    else FirstStocked(stored, home, n + 1)
  }

  /** Every shard is reached in some round. */
  lemma RoundRobinCovers(home: nat, k: nat, shards: nat) returns (n: nat)
    requires home < shards && k < shards
    ensures n < shards && RoundRobin(home, n, shards) == k
  {
    n := if k >= home then k - home else k + shards - home;
  }

  function Total(stored: seq<seq<nat>>): nat {
    if stored == [] then 0 else Total(stored[..|stored| - 1]) + |stored[|stored| - 1]|
  }

  /** The total is that of a pool whose shards differ in one place, plus the difference. */
  lemma {:induction false} TotalUpdate(stored: seq<seq<nat>>, k: nat, objects: seq<nat>)
    requires k < |stored|
    ensures Total(stored[k := objects]) == Total(stored) - |stored[k]| + |objects|
  {
    var last := |stored| - 1;
    if k == last {
      assert stored[k := objects][..last] == stored[..last];
    } else {
      TotalUpdate(stored[..last], k, objects);
      assert stored[k := objects][..last] == stored[..last][k := objects];
    }
  }

  lemma {:induction false} TotalEmpty(stored: seq<seq<nat>>)
    requires forall k :: 0 <= k < |stored| ==> stored[k] == []
    ensures Total(stored) == 0
  {
    if stored != [] {
      TotalEmpty(stored[..|stored| - 1]);
    }
  }

  // ----- the order in which a batch is gathered -----

  /** The objects of the shards of the first n rounds, each shard's newest first. */
  function InOrder(stored: seq<seq<nat>>, home: nat, n: nat): seq<nat>
    requires home < |stored| && n <= |stored|
  {
    if n == 0 then []
    else InOrder(stored, home, n - 1) + Reversed(stored[RoundRobin(home, n - 1, |stored|)])
  }

  /** The first entries of what is gathered up to round n are those up to a later round. */
  lemma {:induction false} InOrderGrows(stored: seq<seq<nat>>, home: nat, n: nat, m: nat)
    requires home < |stored| && n <= m <= |stored|
    ensures InOrder(stored, home, n) <= InOrder(stored, home, m)
  {
    if n < m {
      InOrderGrows(stored, home, n, m - 1);
    }
  }

  /** A take from the newest is the start of the reversed shard. */
  lemma NewestIsPrefix(objects: seq<nat>, max: nat)
    ensures Newest(objects, max) == Reversed(objects)[..|Newest(objects, max)|]
    ensures |Newest(objects, max)| < max ==> Newest(objects, max) == Reversed(objects)
  {
    NewestIs(objects, max);
    forall i | 0 <= i < |Newest(objects, max)| ensures Newest(objects, max)[i] == Reversed(objects)[i] {
      ReversedAt(objects, i);
    }
  }

  /** What is out after n rounds is the start of the order, and all of it if more is wanted. */
  ghost predicate StartOfOrder(before: seq<seq<nat>>, home: nat, max: nat, out: seq<nat>, n: nat)
    requires home < |before| && n <= |before|
  {
    && |out| <= max && out <= InOrder(before, home, n)
    && (|out| < max ==> out == InOrder(before, home, n))
  }

  /** Shards to come are untouched, those gone through have lost objects from their end, all if more
      is wanted. */
  ghost predicate GoneThrough(before: seq<seq<nat>>, stored: seq<seq<nat>>, home: nat, more: bool, n: nat)
    requires home < |before| && n <= |before|
  {
    && |stored| == |before|
    && (more ==> forall m :: 0 <= m < n ==> stored[RoundRobin(home, m, |before|)] == [])
    && (forall m :: n <= m < |before| ==>
          stored[RoundRobin(home, m, |before|)] == before[RoundRobin(home, m, |before|)])
    && (forall k :: 0 <= k < |before| ==> stored[k] <= before[k])
  }

  /** Nothing is lost. */
  ghost predicate NothingLost(before: seq<seq<nat>>, stored: seq<seq<nat>>, out: seq<nat>) {
    forall x: nat :: Count(out, x) + InShards(stored, x) == InShards(before, x)
  }

  /** After n rounds. */
  ghost predicate Gathered(before: seq<seq<nat>>, stored: seq<seq<nat>>, home: nat, max: nat, out: seq<nat>, n: nat)
    requires home < |before| && n <= |before|
  {
    && StartOfOrder(before, home, max, out, n) && GoneThrough(before, stored, home, |out| < max, n)
    && NothingLost(before, stored, out)
  }

  lemma GatherCounts(stored: seq<seq<nat>>, k: nat, max: nat, out: seq<nat>, x: nat)
    requires k < |stored|
    ensures Count(out + Newest(stored[k], max), x) + InShards(stored[k := Left(stored[k], max)], x)
            == Count(out, x) + InShards(stored, x)
  {
    TakeCounts(stored[k], max, x);
    ShardUpdate(stored, k, Left(stored[k], max), x);
    CountAppend(out, Newest(stored[k], max), x);
  }

  /** The other rounds look at other shards. */
  lemma OtherRounds(home: nat, n: nat, shards: nat)
    requires home < shards && n < shards
    ensures forall m :: 0 <= m < shards && m != n ==> RoundRobin(home, m, shards) != RoundRobin(home, n, shards)
  {
  }

  lemma OrderNext(before: seq<seq<nat>>, home: nat, max: nat, out: seq<nat>, n: nat)
    requires home < |before| && n < |before| && StartOfOrder(before, home, max, out, n) && |out| < max
    ensures StartOfOrder(before, home, max, out + Newest(before[RoundRobin(home, n, |before|)], max - |out|), n + 1)
  {
    var shard := before[RoundRobin(home, n, |before|)];
    NewestIs(shard, max - |out|);
    NewestIsPrefix(shard, max - |out|);
  }

  lemma ShardsNext(before: seq<seq<nat>>, stored: seq<seq<nat>>, home: nat, want: nat, n: nat)
    requires home < |before| && n < |before| && GoneThrough(before, stored, home, true, n)
    ensures var k := RoundRobin(home, n, |before|);
            GoneThrough(before, stored[k := Left(stored[k], want)], home, |Newest(stored[k], want)| < want, n + 1)
  {
    NewestIs(stored[RoundRobin(home, n, |before|)], want);
    OtherRounds(home, n, |before|);
  }

  lemma GatherNext(before: seq<seq<nat>>, stored: seq<seq<nat>>, home: nat, max: nat, out: seq<nat>, n: nat)
    requires home < |before| && n < |before| && Gathered(before, stored, home, max, out, n) && |out| < max
    ensures var k := RoundRobin(home, n, |before|);
            Gathered(before, stored[k := Left(stored[k], max - |out|)], home, max,
                     out + Newest(stored[k], max - |out|), n + 1)
  {
    var k, want := RoundRobin(home, n, |before|), max - |out|;
    OrderNext(before, home, max, out, n);
    ShardsNext(before, stored, home, want, n);
    forall x: nat
      ensures Count(out + Newest(stored[k], want), x) + InShards(stored[k := Left(stored[k], want)], x)
              == InShards(before, x)
    {
      GatherCounts(stored, k, want, out, x);
    }
  }

  lemma GatherStart(stored: seq<seq<nat>>, home: nat, max: nat)
    requires home < |stored|
    ensures Gathered(stored, stored, home, max, [], 0)
  {
  }

  lemma GatherEnds(before: seq<seq<nat>>, stored: seq<seq<nat>>, home: nat, max: nat, out: seq<nat>, n: nat)
    requires home < |before| && n <= |before| && Gathered(before, stored, home, max, out, n)
    requires n == |before| || |out| == max
    ensures var all := InOrder(before, home, |before|);
            |out| == (if max <= |all| then max else |all|) && out == all[..|out|]
    ensures |out| < max ==> forall k :: 0 <= k < |before| ==> stored[k] == []
  {
    InOrderGrows(before, home, n, |before|);
    if |out| < max {
      forall k | 0 <= k < |before| ensures stored[k] == [] {
        var m := RoundRobinCovers(home, k, |before|);
      }
    }
  }

  class Core {
    const shards: seq<Shard>
    var made: nat
    ghost var stored: seq<seq<nat>>

    ghost predicate Valid()
      reads this, shards
    {
      && |shards| == |stored| > 0
      && (forall a, b :: 0 <= a < b < |shards| ==> shards[a] != shards[b])
      && (forall i :: 0 <= i < |shards| ==> shards[i].Valid() && shards[i].objects == stored[i])
    }

    /** At least one shard. */
    constructor (shardCount: nat)
      ensures Valid() && made == 0 && fresh(shards)
      ensures |shards| == (if shardCount == 0 then 1 else shardCount)
      ensures forall i :: 0 <= i < |stored| ==> stored[i] == []
    {
      var count := if shardCount == 0 then 1 else shardCount;
      var made: seq<Shard> := [];
      while |made| < count
        invariant |made| <= count && fresh(made)
        invariant forall i :: 0 <= i < |made| ==> made[i].Valid() && made[i].objects == []
        invariant forall a, b :: 0 <= a < b < |made| ==> made[a] != made[b]
      {
        var shard := new Shard();
        made := made + [shard];
      }
      shards := made;
      this.made := 0;
      stored := seq(count, _ => []);
    }

    /** The newest object of the first stocked shard, or what the factory gives: a new
        object, or null if there is no factory or it returns null. */
    method GetShared(home: nat, factory: bool) returns (obj: Option<nat>)
      requires Valid() && home < |shards|
      modifies this, shards
      ensures Valid()
      ensures var n := FirstStocked(old(stored), home, 0);
              if n == |shards| then
                && stored == old(stored) && made == old(made) + (if factory then 1 else 0)
                && obj == if factory then Some(old(made)) else None
              else
                var k := RoundRobin(home, n, |shards|);
                && made == old(made)
                && obj == Some(old(stored)[k][|old(stored)[k]| - 1])
                && stored == old(stored)[k := old(stored)[k][..|old(stored)[k]| - 1]]
    {
      var n := 0;
      while n < |shards|
        invariant 0 <= n <= |shards| && Valid() && stored == old(stored) && made == old(made)
        invariant FirstStocked(old(stored), home, 0) == FirstStocked(old(stored), home, n)
      {
        var k := RoundRobin(home, n, |shards|);
        if shards[k].objects != [] {
          var popped := Pop(k);
          return Some(popped);
        }
        n := n + 1;
      }
      if factory {
        obj := Some(made);
        made := made + 1;
      } else {
        obj := None;
      }
    }

    method Pop(k: nat) returns (obj: nat)
      requires Valid() && k < |shards| && shards[k].objects != []
      modifies this`stored, shards[k]
      ensures Valid() && obj == old(stored)[k][|old(stored)[k]| - 1]
      ensures stored == old(stored)[k := old(stored)[k][..|old(stored)[k]| - 1]]
    {
      var shard := shards[k];
      obj := shard.objects[|shard.objects| - 1];
      shard.objects := shard.objects[..|shard.objects| - 1];
      shard.approxSize := shard.approxSize - 1;
      stored := stored[k := shard.objects];
    }

    method PutShared(home: nat, obj: Option<nat>)
      requires Valid() && home < |shards|
      modifies this`stored, shards[home]
      ensures Valid()
      ensures stored == if obj.None? then old(stored) else old(stored)[home := old(stored)[home] + [obj.value]]
    {
      if obj.Some? {
        var shard := shards[home];
        shard.objects := shard.objects + [obj.value];
        shard.approxSize := shard.approxSize + 1;
        stored := stored[home := shard.objects];
      }
    }

    /** As many objects as there are, up to max: the caller's shard first, then the others. */
    method GetSharedBatch(home: nat, max: nat) returns (out: seq<nat>)
      requires Valid() && home < |shards|
      modifies this`stored, shards
      ensures Valid() && |out| <= max
      ensures forall x :: Count(out, x) + InShards(stored, x) == InShards(old(stored), x)
      ensures |out| < max ==> forall k :: 0 <= k < |shards| ==> stored[k] == []
      ensures var all := InOrder(old(stored), home, |shards|);
              |out| == (if max <= |all| then max else |all|) && out == all[..|out|]
      ensures forall k :: 0 <= k < |shards| ==> stored[k] <= old(stored)[k]
    {
      ghost var before := stored;
      var n;
      GatherStart(stored, home, max);
      out, n := GatherRounds(before, home, max);
      GatherEnds(before, stored, home, max, out, n);
    }

    /** The loop over the shards, until enough is out or all have been gone through. */
    method GatherRounds(ghost before: seq<seq<nat>>, home: nat, max: nat) returns (out: seq<nat>, n: nat)
      requires Valid() && home < |shards| == |before| && Gathered(before, stored, home, max, [], 0)
      modifies this`stored, shards
      ensures Valid() && n <= |shards| && Gathered(before, stored, home, max, out, n)
      ensures n == |shards| || |out| == max
    {
      out, n := [], 0;
      while n < |shards| && |out| < max
        invariant 0 <= n <= |shards| && Valid() && |out| <= max && Gathered(before, stored, home, max, out, n)
      {
        out := GatherRound(before, home, max, out, n);
        n := n + 1;
      }
    }

    /** One shard's part of the batch. */
    method GatherRound(ghost before: seq<seq<nat>>, home: nat, max: nat, got: seq<nat>, n: nat) returns (out: seq<nat>)
      requires Valid() && home < |shards| == |before| && n < |shards| && |got| < max
      requires Gathered(before, stored, home, max, got, n)
      modifies this`stored, shards
      ensures Valid() && |out| <= max && Gathered(before, stored, home, max, out, n + 1)
    {
      var k := RoundRobin(home, n, |shards|);
      GatherNext(before, stored, home, max, got, n);
      var more := TakeFrom(k, max - |got|);
      out := got + more;
    }

    method TakeFrom(k: nat, max: nat) returns (more: seq<nat>)
      requires Valid() && k < |shards|
      modifies this`stored, shards[k]
      ensures Valid() && more == Newest(old(stored)[k], max) && stored == old(stored)[k := Left(old(stored)[k], max)]
    {
      more := shards[k].GetBatch(max);
      stored := stored[k := shards[k].objects];
    }

    method PutSharedBatch(home: nat, items: seq<Option<nat>>)
      requires Valid() && home < |shards|
      modifies this`stored, shards[home]
      ensures Valid() && stored == old(stored)[home := old(stored)[home] + Given(items)]
      ensures |stored[home]| == |old(stored)[home]| + |set k | 0 <= k < |items| && items[k].Some?|
      ensures forall i :: 0 <= i < |items| && items[i].Some? ==>
                |old(stored)[home]| + Rank(items, i) < |stored[home]|
                && stored[home][|old(stored)[home]| + Rank(items, i)] == items[i].value
      ensures forall x: nat :: Count(stored[home], x) == Count(old(stored)[home], x) + Times(items, x)
    {
      var count := shards[home].PutBatch(items);
      stored := stored[home := shards[home].objects];
    }

    /** Delete everything; `deleted` lists what was deleted. */
    method ClearShared() returns (deleted: seq<nat>)
      requires Valid()
      modifies this`stored, shards
      ensures Valid() && forall k :: 0 <= k < |stored| ==> stored[k] == []
      ensures forall x :: Count(deleted, x) == InShards(old(stored), x)
    {
      deleted := [];
      var k := 0;
      while k < |shards|
        invariant 0 <= k <= |shards| && Valid()
        invariant forall i :: 0 <= i < k ==> stored[i] == []
        invariant forall x :: Count(deleted, x) + InShards(stored, x) == InShards(old(stored), x)
      {
        ghost var before, gone := stored, deleted;
        var shard := shards[k];
        deleted := deleted + shard.objects;
        shard.objects := [];
        shard.approxSize := 0;
        stored := stored[k := []];
        forall x: nat ensures Count(deleted, x) + InShards(stored, x) == InShards(old(stored), x) {
          ShardUpdate(before, k, [], x);
          CountAppend(gone, before[k], x);
        }
        k := k + 1;
      }
      forall x: nat ensures Count(deleted, x) == InShards(old(stored), x) {
        EmptyShards(stored, x);
      }
    }

    method SizeApprox() returns (total: nat)
      requires Valid()
      ensures total == Total(stored)
    {
      total := 0;
      var k := 0;
      while k < |shards|
        invariant 0 <= k <= |shards| && total == Total(stored[..k])
      {
        assert stored[..k + 1][..k] == stored[..k];
        total := total + shards[k].approxSize;
        k := k + 1;
      }
      assert stored[..k] == stored;
    }
  }
}
