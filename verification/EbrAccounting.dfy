/** Every retired node is in exactly one place, overlapping reclaimers included:
    in a retire call, in a bucket, in a reclaimer's hands, or deleted once. */
module EbrAccounting {
  import opened Ebr

  /** How often node x occurs in a list. */
  function Count(xs: seq<RNode>, x: nat): nat {
    if xs == [] then 0 else (if xs[0].id == x then 1 else 0) + Count(xs[1..], x)
  }

  function InRetire(r: Retirer, x: nat): nat {
    match r
    case RIdle => 0
    case RBegun(id, _) => if id == x then 1 else 0
    case RTagged(node) => if node.id == x then 1 else 0
  }

  function InHand(c: Reclaimer, x: nat): nat {
    if c.Deleting? then Count(c.todo, x) else 0
  }

  function AllInRetire(rs: seq<Retirer>, x: nat): nat {
    if rs == [] then 0 else InRetire(rs[0], x) + AllInRetire(rs[1..], x)
  }

  function AllInHand(cs: seq<Reclaimer>, x: nat): nat {
    if cs == [] then 0 else InHand(cs[0], x) + AllInHand(cs[1..], x)
  }

  function AllInBuckets(bs: seq<seq<RNode>>, x: nat): nat {
    if bs == [] then 0 else Count(bs[0], x) + AllInBuckets(bs[1..], x)
  }

  /** The number of places that hold node x. */
  function Places(s: State, x: nat): nat {
    AllInRetire(s.retirers, x) + AllInBuckets(s.buckets, x) + AllInHand(s.reclaimers, x)
    + Count(s.deleted, x)
  }

  lemma {:induction false} CountAppend(xs: seq<RNode>, ys: seq<RNode>, x: nat)
    ensures Count(xs + ys, x) == Count(xs, x) + Count(ys, x)
  {
    if xs == [] {
      assert xs + ys == ys;
    } else {
      CountAppend(xs[1..], ys, x);
      assert (xs + ys)[1..] == xs[1..] + ys;
    }
  }

  lemma {:induction false} CountSplit(xs: seq<RNode>, safe: nat, x: nat)
    ensures Count(Old(xs, safe), x) + Count(Young(xs, safe), x) == Count(xs, x)
  {
    if xs != [] {
      CountSplit(xs[1..], safe, x);
      CountAppend([xs[0]], Old(xs[1..], safe), x);
      CountAppend([xs[0]], Young(xs[1..], safe), x);
      assert xs[0].epoch <= safe ==> Young(xs, safe) == Young(xs[1..], safe);
      assert xs[0].epoch > safe ==> Old(xs, safe) == Old(xs[1..], safe);
    }
  }

  lemma {:induction false} RetireUpdate(rs: seq<Retirer>, i: nat, r: Retirer, x: nat)
    requires i < |rs|
    ensures AllInRetire(rs[i := r], x) + InRetire(rs[i], x) == AllInRetire(rs, x) + InRetire(r, x)
  {
    if i == 0 {
      assert rs[0 := r][1..] == rs[1..];
    } else {
      RetireUpdate(rs[1..], i - 1, r, x);
      assert rs[i := r][1..] == rs[1..][i - 1 := r];
    }
  }

  lemma {:induction false} HandUpdate(cs: seq<Reclaimer>, i: nat, c: Reclaimer, x: nat)
    requires i < |cs|
    ensures AllInHand(cs[i := c], x) + InHand(cs[i], x) == AllInHand(cs, x) + InHand(c, x)
  {
    if i == 0 {
      assert cs[0 := c][1..] == cs[1..];
    } else {
      HandUpdate(cs[1..], i - 1, c, x);
      assert cs[i := c][1..] == cs[1..][i - 1 := c];
    }
  }

  lemma {:induction false} BucketUpdate(bs: seq<seq<RNode>>, i: nat, b: seq<RNode>, x: nat)
    requires i < |bs|
    ensures AllInBuckets(bs[i := b], x) + Count(bs[i], x) == AllInBuckets(bs, x) + Count(b, x)
  {
    if i == 0 {
      assert bs[0 := b][1..] == bs[1..];
    } else {
      BucketUpdate(bs[1..], i - 1, b, x);
      assert bs[i := b][1..] == bs[1..][i - 1 := b];
    }
  }

  /** A node sits in the bucket of its epoch. */
  ghost predicate Sorted(s: State) {
    && |s.buckets| == 3
    && forall b, x :: 0 <= b < 3 && x in s.buckets[b] ==> x.epoch % 3 == b
  }

  ghost predicate InOnePlace(s: State, x: nat) {
    Places(s, x) == if x < s.created then 1 else 0
  }

  ghost predicate Accounted(s: State) {
    Sorted(s) && forall x: nat :: InOnePlace(s, x)
  }

  lemma RetirePlaces(s: State, i: nat, x: nat)
    requires |s.buckets| == 3 && InOnePlace(s, x) && InOnePlace(s, s.created) && i < |s.retirers|
    ensures InOnePlace(RetireStep(s, i), x)
  {
    var s' := RetireStep(s, i);
    RetireUpdate(s.retirers, i, s'.retirers[i], x);
    if s.retirers[i].RTagged? {
      var node := s.retirers[i].node;
      var b := node.epoch % 3;
      BucketUpdate(s.buckets, b, s.buckets[b] + [node], x);
      CountAppend(s.buckets[b], [node], x);
    }
  }

  lemma SweepPlaces(s: State, i: nat, x: nat)
    requires |s.buckets| == 3 && InOnePlace(s, x) && i < |s.reclaimers|
    requires s.reclaimers[i].Sweep? && s.reclaimers[i].b < 3
    ensures InOnePlace(ReclaimStep(s, i), x)
  {
    var r := s.reclaimers[i];
    var todo := Old(s.buckets[r.b], r.safe);
    HandUpdate(s.reclaimers, i, Deleting(r.safe, r.b, todo), x);
    BucketUpdate(s.buckets, r.b, Young(s.buckets[r.b], r.safe), x);
    CountSplit(s.buckets[r.b], r.safe, x);
  }

  lemma DeletePlaces(s: State, i: nat, x: nat)
    requires |s.buckets| == 3 && InOnePlace(s, x) && i < |s.reclaimers|
    requires s.reclaimers[i].Deleting? && s.reclaimers[i].todo != []
    ensures InOnePlace(ReclaimStep(s, i), x)
  {
    var r := s.reclaimers[i];
    HandUpdate(s.reclaimers, i, Deleting(r.safe, r.b, r.todo[1..]), x);
    CountAppend(s.deleted, [r.todo[0]], x);
  }

  lemma MovePlaces(s: State, i: nat, x: nat)
    requires |s.buckets| == 3 && InOnePlace(s, x) && i < |s.reclaimers|
    requires s.reclaimers[i].Sweep? ==> s.reclaimers[i].b >= 3
    requires s.reclaimers[i].Deleting? ==> s.reclaimers[i].todo == []
    ensures InOnePlace(ReclaimStep(s, i), x)
  {
    var s' := ReclaimStep(s, i);
    HandUpdate(s.reclaimers, i, s'.reclaimers[i], x);
    assert s'.reclaimers == s.reclaimers[i := s'.reclaimers[i]];
    assert s'.buckets == s.buckets && s'.deleted == s.deleted;
    assert s'.retirers == s.retirers && s'.created == s.created;
    assert InHand(s'.reclaimers[i], x) == 0 && InHand(s.reclaimers[i], x) == 0;
  }

  lemma ReclaimPlaces(s: State, i: nat, x: nat)
    requires |s.buckets| == 3 && InOnePlace(s, x) && i < |s.reclaimers|
    ensures InOnePlace(ReclaimStep(s, i), x)
  {
    var r := s.reclaimers[i];
    if r.Sweep? && r.b < 3 {
      SweepPlaces(s, i, x);
    } else if r.Deleting? && r.todo != [] {
      DeletePlaces(s, i, x);
    } else {
      MovePlaces(s, i, x);
    }
  }

  lemma SortedNext(s: State, c: Choice)
    requires Sorted(s)
    ensures Sorted(Next(s, c))
  {
    if c.MoveReclaimer? && c.i < |s.reclaimers| && s.reclaimers[c.i].Sweep? && s.reclaimers[c.i].b < 3 {
      var r := s.reclaimers[c.i];
      forall x | x in Young(s.buckets[r.b], r.safe) ensures x in s.buckets[r.b] {
        OldYoungMember(s.buckets[r.b], r.safe, x);
      }
    }
  }

  lemma AccountNext(s: State, c: Choice)
    requires Accounted(s)
    ensures Accounted(Next(s, c))
  {
    SortedNext(s, c);
    forall x: nat ensures InOnePlace(Next(s, c), x) {
      assert InOnePlace(s, x) && InOnePlace(s, s.created);
      if c.MoveRetirer? && c.i < |s.retirers| {
        RetirePlaces(s, c.i, x);
      } else if c.MoveReclaimer? && c.i < |s.reclaimers| {
        ReclaimPlaces(s, c.i, x);
      }
    }
  }

  lemma {:induction false} QuietRetirers(rs: seq<Retirer>, x: nat)
    requires forall i :: 0 <= i < |rs| ==> rs[i].RIdle?
    ensures AllInRetire(rs, x) == 0
  {
    if rs != [] {
      QuietRetirers(rs[1..], x);
    }
  }

  lemma {:induction false} QuietReclaimers(cs: seq<Reclaimer>, x: nat)
    requires forall i :: 0 <= i < |cs| ==> cs[i].CIdle?
    ensures AllInHand(cs, x) == 0
  {
    if cs != [] {
      QuietReclaimers(cs[1..], x);
    }
  }

  lemma {:induction false} EmptyBuckets(bs: seq<seq<RNode>>, x: nat)
    requires forall b :: 0 <= b < |bs| ==> bs[b] == []
    ensures AllInBuckets(bs, x) == 0
  {
    if bs != [] {
      EmptyBuckets(bs[1..], x);
    }
  }

  lemma InitAccounted(threads: nat, retirers: nat, reclaimers: nat)
    ensures Accounted(Init(threads, retirers, reclaimers))
  {
    var s := Init(threads, retirers, reclaimers);
    forall x: nat ensures InOnePlace(s, x) {
      QuietRetirers(s.retirers, x);
      QuietReclaimers(s.reclaimers, x);
      EmptyBuckets(s.buckets, x);
    }
  }

  lemma {:induction false} RunAccounted(threads: nat, retirers: nat, reclaimers: nat, sch: seq<Choice>)
    ensures Accounted(Run(threads, retirers, reclaimers, sch))
  {
    if sch == [] {
      InitAccounted(threads, retirers, reclaimers);
    } else {
      var before := sch[..|sch| - 1];
      RunAccounted(threads, retirers, reclaimers, before);
      AccountNext(Run(threads, retirers, reclaimers, before), sch[|sch| - 1]);
    }
  }

  /** In every interleaving, overlapping reclaimers included, every node ever retired
      is in exactly one place, so its deleter runs at most once; a node in a bucket is
      in the bucket of its epoch. */
  lemma EachNodeInOnePlace(threads: nat, retirers: nat, reclaimers: nat, sch: seq<Choice>)
    ensures var s := Run(threads, retirers, reclaimers, sch);
            && Sorted(s)
            && forall x: nat :: Places(s, x) == (if x < s.created then 1 else 0) && Count(s.deleted, x) <= 1
  {
    RunAccounted(threads, retirers, reclaimers, sch);
    var s := Run(threads, retirers, reclaimers, sch);
    forall x: nat ensures Places(s, x) == (if x < s.created then 1 else 0) && Count(s.deleted, x) <= 1 {
      assert InOnePlace(s, x);
    }
  }

  /** No retire or reclaim call is in progress. */
  ghost predicate Quiet(s: State) {
    && (forall i :: 0 <= i < |s.retirers| ==> s.retirers[i].RIdle?)
    && (forall i :: 0 <= i < |s.reclaimers| ==> s.reclaimers[i].CIdle?)
  }

  /** Everything in the buckets, in the order the destructor visits it. */
  function Remaining(bs: seq<seq<RNode>>): seq<RNode> {
    if bs == [] then [] else bs[0] + Remaining(bs[1..])
  }

  lemma {:induction false} RemainingCounts(bs: seq<seq<RNode>>, x: nat)
    ensures Count(Remaining(bs), x) == AllInBuckets(bs, x)
  {
    if bs != [] {
      RemainingCounts(bs[1..], x);
      CountAppend(bs[0], Remaining(bs[1..]), x);
    }
  }

  /** The destructor: delete what is left in each bucket.  Afterwards every node ever
      retired has been deleted exactly once. */
  method Destroy(s: State) returns (deleted: seq<RNode>)
    requires Accounted(s) && Quiet(s)
    ensures forall x: nat :: Count(deleted, x) == if x < s.created then 1 else 0
  {
    deleted := s.deleted;
    var b := 0;
    while b < 3
      invariant 0 <= b <= 3
      invariant deleted + Remaining(s.buckets[b..]) == s.deleted + Remaining(s.buckets)
    {
      var k := 0;
      ghost var before := deleted;
      while k < |s.buckets[b]|
        invariant 0 <= k <= |s.buckets[b]| && deleted == before + s.buckets[b][..k]
      {
        deleted := deleted + [s.buckets[b][k]];
        k := k + 1;
      }
      assert s.buckets[b][..k] == s.buckets[b];
      assert s.buckets[b..][1..] == s.buckets[b + 1..];
      b := b + 1;
    }
    assert deleted == s.deleted + Remaining(s.buckets);
    forall x: nat ensures Count(deleted, x) == if x < s.created then 1 else 0 {
      assert InOnePlace(s, x);
      QuietRetirers(s.retirers, x);
      QuietReclaimers(s.reclaimers, x);
      CountAppend(s.deleted, Remaining(s.buckets), x);
      RemainingCounts(s.buckets, x);
    }
  }
}
