/** A shard of the object pools: it hands out its newest objects first, in batches, and
    counts what it holds.  Objects are identified by numbers. */
module PoolShard {
  import opened Ring

  /** How often object x occurs in a list. */
  function Count(xs: seq<nat>, x: nat): nat {
    if xs == [] then 0 else (if xs[0] == x then 1 else 0) + Count(xs[1..], x)
  }

  lemma {:induction false} CountAppend(xs: seq<nat>, ys: seq<nat>, x: nat)
    ensures Count(xs + ys, x) == Count(xs, x) + Count(ys, x)
  {
    if xs == [] {
      assert xs + ys == ys;
    } else {
      CountAppend(xs[1..], ys, x);
      assert (xs + ys)[1..] == xs[1..] + ys;
    }
  }

  /** Occurrences are multiplicities. */
  lemma {:induction false} CountIsMultiplicity(xs: seq<nat>, x: nat)
    ensures Count(xs, x) == multiset(xs)[x]
  {
    if xs != [] {
      CountIsMultiplicity(xs[1..], x);
      assert xs == [xs[0]] + xs[1..];
    }
  }

  lemma CountOne(p: nat, x: nat)
    ensures Count([p], x) == if p == x then 1 else 0
  {
    assert [p][1..] == [];
  }

  lemma CountRemove(xs: seq<nat>, i: nat, x: nat)
    requires i < |xs|
    ensures Count(xs[..i] + xs[i + 1..], x) + (if xs[i] == x then 1 else 0) == Count(xs, x)
  {
    CountAppend(xs[..i], xs[i + 1..], x);
    CountAppend(xs[..i], xs[i..], x);
    assert xs == xs[..i] + xs[i..];
    assert xs[i..][1..] == xs[i + 1..];
  }

  lemma {:induction false} CountMember(xs: seq<nat>, x: nat)
    ensures Count(xs, x) > 0 <==> x in xs
  {
    if xs != [] {
      CountMember(xs[1..], x);
    }
  }

  function Reversed(xs: seq<nat>): (r: seq<nat>)
    ensures |r| == |xs|
  {
    if xs == [] then [] else [xs[|xs| - 1]] + Reversed(xs[..|xs| - 1])
  }

  lemma {:induction false} CountReversed(xs: seq<nat>, x: nat)
    ensures Count(Reversed(xs), x) == Count(xs, x)
  {
    if xs != [] {
      CountReversed(xs[..|xs| - 1], x);
      CountAppend([xs[|xs| - 1]], Reversed(xs[..|xs| - 1]), x);
      CountAppend(xs[..|xs| - 1], [xs[|xs| - 1]], x);
      assert xs == xs[..|xs| - 1] + [xs[|xs| - 1]];
    }
  }

  function Min(a: nat, b: nat): nat {
    if a <= b then a else b
  }

  /** The newest max objects of a shard, newest first, and what is left. */
  function Newest(objects: seq<nat>, max: nat): seq<nat> {
    Reversed(objects[|objects| - Min(max, |objects|)..])
  }

  function Left(objects: seq<nat>, max: nat): seq<nat> {
    objects[..|objects| - Min(max, |objects|)]
  }

  lemma TakeCounts(objects: seq<nat>, max: nat, x: nat)
    ensures Count(Newest(objects, max), x) + Count(Left(objects, max), x) == Count(objects, x)
    ensures |Newest(objects, max)| == Min(max, |objects|)
  {
    var cut := |objects| - Min(max, |objects|);
    CountReversed(objects[cut..], x);
    CountAppend(objects[..cut], objects[cut..], x);
    assert objects == objects[..cut] + objects[cut..];
  }

  /** The non-null pointers of a list. */
  function Given(items: seq<Option<nat>>): seq<nat> {
    if items == [] then []
    else Given(items[..|items| - 1]) + (if items[|items| - 1].Some? then [items[|items| - 1].value] else [])
  }

  // ----- what a batch of pointers stores -----

  /** How many of the first i pointers are not null. */
  ghost function Rank(items: seq<Option<nat>>, i: nat): nat
    requires i <= |items|
  {
    |set k | 0 <= k < i && items[k].Some?|
  }

  /** At how many places of the list the pointer x stands. */
  ghost function Times(items: seq<Option<nat>>, x: nat): nat {
    |set k | 0 <= k < |items| && items[k] == Some(x)|
  }

  lemma RankNext(items: seq<Option<nat>>, i: nat)
    requires i < |items|
    ensures Rank(items, i + 1) == Rank(items, i) + (if items[i].Some? then 1 else 0)
  {
    var upTo := set k | 0 <= k < i && items[k].Some?;
    assert (set k | 0 <= k < i + 1 && items[k].Some?) == upTo + (if items[i].Some? then {i} else {});
  }

  lemma RankBefore(items: seq<Option<nat>>, i: nat)
    requires i < |items|
    ensures forall k :: 0 <= k <= i ==> Rank(items[..i], k) == Rank(items, k)
  {
    forall k | 0 <= k <= i ensures Rank(items[..i], k) == Rank(items, k) {
      assert (set m | 0 <= m < k && items[..i][m].Some?) == (set m | 0 <= m < k && items[m].Some?);
    }
  }

  lemma TimesSnoc(items: seq<Option<nat>>, x: nat)
    requires items != []
    ensures Times(items, x) == Times(items[..|items| - 1], x) + (if items[|items| - 1] == Some(x) then 1 else 0)
  {
    var last := |items| - 1;
    assert (set k | 0 <= k < |items| && items[k] == Some(x))
        == (set k | 0 <= k < last && items[..last][k] == Some(x)) + (if items[last] == Some(x) then {last} else {});
  }

  /** One object per non-null pointer, the k-th object from the k-th of them. */
  lemma {:induction false} GivenIs(items: seq<Option<nat>>)
    ensures |Given(items)| == Rank(items, |items|)
    ensures forall i :: 0 <= i < |items| && items[i].Some? ==>
              Rank(items, i) < |Given(items)| && Given(items)[Rank(items, i)] == items[i].value
  {
    if items != [] {
      var last := |items| - 1;
      GivenIs(items[..last]);
      RankBefore(items, last);
      RankNext(items, last);
      forall i | 0 <= i < |items| && items[i].Some?
        ensures Rank(items, i) < |Given(items)| && Given(items)[Rank(items, i)] == items[i].value
      {
        if i < last {
          assert items[..last][i] == items[i];
        }
      }
    }
  }

  lemma {:induction false} GivenCounts(items: seq<Option<nat>>, x: nat)
    ensures Count(Given(items), x) == Times(items, x)
  {
    if items != [] {
      var last := |items| - 1;
      GivenCounts(items[..last], x);
      TimesSnoc(items, x);
      var more := if items[last].Some? then [items[last].value] else [];
      CountAppend(Given(items[..last]), more, x);
      if items[last].Some? {
        CountOne(items[last].value, x);
      }
    }
  }

  /** The newest objects come first. */
  lemma {:induction false} ReversedAt(xs: seq<nat>, i: nat)
    requires i < |xs|
    ensures Reversed(xs)[i] == xs[|xs| - 1 - i]
  {
    if i > 0 {
      ReversedAt(xs[..|xs| - 1], i - 1);
    }
  }

  /** What a take is: the last objects in reverse, as many as asked for or as there are. */
  lemma NewestIs(objects: seq<nat>, max: nat)
    ensures var m := if max <= |objects| then max else |objects|;
            && |Newest(objects, max)| == m && Left(objects, max) == objects[..|objects| - m]
            && forall i :: 0 <= i < m ==> Newest(objects, max)[i] == objects[|objects| - 1 - i]
  {
    var cut := |objects| - Min(max, |objects|);
    forall i | 0 <= i < |objects| - cut ensures Newest(objects, max)[i] == objects[|objects| - 1 - i] {
      ReversedAt(objects[cut..], i);
    }
  }

  /** All objects of all shards together. */
  function InShards(shards: seq<seq<nat>>, x: nat): nat {
    if shards == [] then 0 else Count(shards[0], x) + InShards(shards[1..], x)
  }

  lemma {:induction false} ShardUpdate(shards: seq<seq<nat>>, i: nat, objects: seq<nat>, x: nat)
    requires i < |shards|
    ensures InShards(shards[i := objects], x) + Count(shards[i], x) == InShards(shards, x) + Count(objects, x)
  {
    if i == 0 {
      assert shards[0 := objects][1..] == shards[1..];
    } else {
      ShardUpdate(shards[1..], i - 1, objects, x);
      assert shards[i := objects][1..] == shards[1..][i - 1 := objects];
    }
  }

  lemma {:induction false} EmptyShards(shards: seq<seq<nat>>, x: nat)
    requires forall i :: 0 <= i < |shards| ==> shards[i] == []
    ensures InShards(shards, x) == 0
  {
    if shards != [] {
      EmptyShards(shards[1..], x);
    }
  }

  lemma {:induction false} ReversedCons(x: nat, xs: seq<nat>)
    ensures Reversed([x] + xs) == Reversed(xs) + [x]
  {
    if xs == [] {
      assert [x] + xs == [x];
    } else {
      ReversedCons(x, xs[..|xs| - 1]);
      assert ([x] + xs)[..|xs|] == [x] + xs[..|xs| - 1];
    }
  }

  lemma NewestNone(objects: seq<nat>)
    ensures Newest(objects, 0) == [] && Left(objects, 0) == objects
    ensures objects == [] ==> forall max :: Newest(objects, max) == [] && Left(objects, max) == []
  {
  }

  lemma NewestNext(objects: seq<nat>, i: nat)
    requires i < |objects|
    ensures Newest(objects, i + 1) == Newest(objects, i) + [objects[|objects| - 1 - i]]
    ensures Left(objects, i + 1) == Left(objects, i)[..|objects| - i - 1]
  {
    var cut := |objects| - i;
    assert objects[cut - 1..] == [objects[cut - 1]] + objects[cut..];
    ReversedCons(objects[cut - 1], objects[cut..]);
  }

  class Shard {
    var objects: seq<nat>
    var approxSize: nat

    ghost predicate Valid()
      reads this
    {
      approxSize == |objects|
    }

    constructor ()
      ensures Valid() && objects == []
    {
      objects, approxSize := [], 0;
    }

    method GetBatch(max: nat) returns (out: seq<nat>)
      requires Valid()
      modifies this
      ensures Valid() && out == Newest(old(objects), max) && objects == Left(old(objects), max)
      ensures |out| == (if max <= |old(objects)| then max else |old(objects)|)
      ensures objects == old(objects)[..|old(objects)| - |out|]
      ensures forall i :: 0 <= i < |out| ==> out[i] == old(objects)[|old(objects)| - 1 - i]
    {
      NewestIs(objects, max);
      NewestNone(objects);
      out := [];
      if max == 0 {
        return;
      }
      var count := Min(max, |objects|);
      var i := 0;
      while i < count
        invariant 0 <= i <= count <= |old(objects)| && approxSize == |old(objects)|
        invariant objects == Left(old(objects), i) && out == Newest(old(objects), i)
      {
        NewestNext(old(objects), i);
        out := out + [objects[|objects| - 1]];
        objects := objects[..|objects| - 1];
        i := i + 1;
      }
      if count > 0 {
        approxSize := approxSize - count;
      }
    }

    method PutBatch(items: seq<Option<nat>>) returns (stored: nat)
      requires Valid()
      modifies this
      ensures Valid() && objects == old(objects) + Given(items)
      ensures stored == |set k | 0 <= k < |items| && items[k].Some?| && |objects| == |old(objects)| + stored
      ensures forall i :: 0 <= i < |items| && items[i].Some? ==>
                Rank(items, i) < stored && objects[|old(objects)| + Rank(items, i)] == items[i].value
      ensures forall x: nat :: Count(objects, x) == Count(old(objects), x) + Times(items, x)
    {
      GivenIs(items);
      forall x: nat ensures Count(objects + Given(items), x) == Count(objects, x) + Times(items, x) {
        CountAppend(objects, Given(items), x);
        GivenCounts(items, x);
      }
      stored := 0;
      if |items| == 0 {
        return;
      }
      var i := 0;
      while i < |items|
        invariant 0 <= i <= |items| && approxSize == |old(objects)|
        invariant objects == old(objects) + Given(items[..i]) && stored == |Given(items[..i])|
      {
        assert items[..i + 1][..i] == items[..i];
        if items[i].Some? {
          objects := objects + [items[i].value];
          stored := stored + 1;
        }
        i := i + 1;
      }
      assert items[..i] == items;
      if stored > 0 {
        approxSize := approxSize + stored;
      }
    }

    /** Stealing gives up when the try-lock fails; the outcome of the lock is an input. */
    method TryStealBatch(max: nat, locked: bool) returns (out: seq<nat>)
      requires Valid()
      modifies this
      ensures Valid()
      ensures locked ==> out == Newest(old(objects), max) && objects == Left(old(objects), max)
      ensures |out| == if !locked then 0 else if max <= |old(objects)| then max else |old(objects)|
      ensures objects == old(objects)[..|old(objects)| - |out|]
      ensures forall i :: 0 <= i < |out| ==> out[i] == old(objects)[|old(objects)| - 1 - i]
      ensures !locked ==> out == [] && objects == old(objects)
    {
      NewestIs(objects, max);
      NewestNone(objects);
      if !locked || objects == [] || max == 0 {
        return [];
      }
      out := GetBatch(max);
    }
  }
}
