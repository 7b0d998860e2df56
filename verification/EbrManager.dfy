/** The reclamation manager called from one thread at a time: the class as it is
    written, with its loops, against the value it stands for. */
module EbrManager {
  import opened Ring

  /** A retired pointer, whether a deleter came with it, and its epoch. */
  datatype Retired = Retired(ptr: nat, deleter: bool, epoch: nat)

  datatype Registered = Registered(epoch: nat, active: bool)

  /** `calls` is the log of deleter calls. */
  datatype View = View(epoch: nat, threads: seq<Registered>, retired: seq<seq<Retired>>, calls: seq<nat>)

  predicate Lagging(t: Registered, epoch: nat) {
    t.active && t.epoch < epoch
  }

  predicate CaughtUp(threads: seq<Registered>, epoch: nat) {
    forall i :: 0 <= i < |threads| ==> !Lagging(threads[i], epoch)
  }

  function Due(xs: seq<Retired>, safe: int): seq<Retired> {
    if xs == [] then []
    else Due(xs[..|xs| - 1], safe) + (if xs[|xs| - 1].epoch <= safe then [xs[|xs| - 1]] else [])
  }

  function Kept(xs: seq<Retired>, safe: int): seq<Retired> {
    if xs == [] then []
    else Kept(xs[..|xs| - 1], safe) + (if xs[|xs| - 1].epoch <= safe then [] else [xs[|xs| - 1]])
  }

  /** The deleter calls that freeing a list makes. */
  function Calls(xs: seq<Retired>): seq<nat> {
    if xs == [] then []
    else Calls(xs[..|xs| - 1]) + (if xs[|xs| - 1].deleter then [xs[|xs| - 1].ptr] else [])
  }

  /** The deleter calls that sweeping some buckets makes, in order. */
  function DueCalls(buckets: seq<seq<Retired>>, safe: int): seq<nat> {
    if buckets == [] then []
    else DueCalls(buckets[..|buckets| - 1], safe) + Calls(Due(buckets[|buckets| - 1], safe))
  }

  function KeptAll(buckets: seq<seq<Retired>>, safe: int): (r: seq<seq<Retired>>)
    ensures |r| == |buckets| && forall b :: 0 <= b < |buckets| ==> r[b] == Kept(buckets[b], safe)
  {
    if buckets == [] then []
    else KeptAll(buckets[..|buckets| - 1], safe) + [Kept(buckets[|buckets| - 1], safe)]
  }

  /** Every retired node sits in the bucket of its epoch. */
  ghost predicate Placed(v: View) {
    |v.retired| == 3
    && forall b, k :: 0 <= b < 3 && 0 <= k < |v.retired[b]| ==> v.retired[b][k].epoch % 3 == b
  }

  ghost predicate UpTo(xs: seq<Retired>, limit: int) {
    forall k :: 0 <= k < |xs| ==> xs[k].epoch <= limit
  }

  ghost predicate Above(xs: seq<Retired>, limit: int) {
    forall k :: 0 <= k < |xs| ==> xs[k].epoch > limit
  }

  /** No retired node carries a future epoch. */
  ghost predicate NotAhead(v: View) {
    |v.retired| == 3 && forall b :: 0 <= b < 3 ==> UpTo(v.retired[b], v.epoch)
  }

  ghost predicate WellFormed(v: View) {
    Placed(v) && NotAhead(v)
  }

  /** The registered threads once the caller has its state. */
  function AfterEntry(threads: seq<Registered>, tls: Option<nat>): (r: seq<Registered>)
    ensures |threads| <= |r| && (tls.None? ==> |r| == |threads| + 1)
  {
    if tls.Some? then threads else threads + [Registered(0, false)]
  }

  function AfterRetire(v: View, ptr: Option<nat>, deleter: bool): View
    requires |v.retired| == 3
  {
    if ptr.None? then v
    else
      var b := v.epoch % 3;
      v.(retired := v.retired[b := v.retired[b] + [Retired(ptr.value, deleter, v.epoch)]])
  }

  function EpochReached(v: View): nat {
    if CaughtUp(v.threads, v.epoch) then v.epoch + 1 else v.epoch
  }

  function AfterReclaim(v: View): (r: View)
    requires |v.retired| == 3
    ensures |r.retired| == 3 && r.epoch == EpochReached(v)
    ensures forall b :: 0 <= b < 3 ==> r.retired[b] == Kept(v.retired[b], EpochReached(v) - 2)
  {
    var safe := EpochReached(v) - 2;
    View(EpochReached(v), v.threads, KeptAll(v.retired, safe),
         v.calls + DueCalls(v.retired, safe))
  }

  // ----- what the filters do -----

  lemma {:induction false} FilterMember(xs: seq<Retired>, safe: int, x: Retired)
    ensures x in Due(xs, safe) <==> x in xs && x.epoch <= safe
    ensures x in Kept(xs, safe) <==> x in xs && x.epoch > safe
  {
    if xs != [] {
      FilterMember(xs[..|xs| - 1], safe, x);
      assert xs == xs[..|xs| - 1] + [xs[|xs| - 1]];
    }
  }

  lemma {:induction false} NothingDue(xs: seq<Retired>, safe: int)
    requires Above(xs, safe)
    ensures Due(xs, safe) == [] && Kept(xs, safe) == xs
  {
    if xs != [] {
      NothingDue(xs[..|xs| - 1], safe);
      assert xs == xs[..|xs| - 1] + [xs[|xs| - 1]];
    }
  }

  lemma {:induction false} KeptAbove(xs: seq<Retired>, safe: int)
    ensures Above(Kept(xs, safe), safe)
  {
    if xs != [] {
      KeptAbove(xs[..|xs| - 1], safe);
    }
  }

  /** Nothing stays exactly when everything is due. */
  lemma {:induction false} NoneKeptIff(xs: seq<Retired>, safe: int)
    ensures Kept(xs, safe) == [] <==> UpTo(xs, safe)
  {
    if xs != [] {
      NoneKeptIff(xs[..|xs| - 1], safe);
      var last := xs[|xs| - 1];
      if last.epoch <= safe {
        assert Kept(xs, safe) == Kept(xs[..|xs| - 1], safe);
        assert UpTo(xs[..|xs| - 1], safe) ==> UpTo(xs, safe);
      }
    }
  }

  lemma {:induction false} NoDueCalls(buckets: seq<seq<Retired>>, safe: int)
    requires forall b :: 0 <= b < |buckets| ==> Above(buckets[b], safe)
    ensures DueCalls(buckets, safe) == []
    ensures forall b :: 0 <= b < |buckets| ==> Kept(buckets[b], safe) == buckets[b]
  {
    if buckets != [] {
      NoDueCalls(buckets[..|buckets| - 1], safe);
      NothingDue(buckets[|buckets| - 1], safe);
    }
  }

  lemma {:induction false} KeptKeeps(xs: seq<Retired>, safe: int, limit: int, b: nat)
    requires UpTo(xs, limit) && forall k :: 0 <= k < |xs| ==> xs[k].epoch % 3 == b
    ensures UpTo(Kept(xs, safe), limit) && forall k :: 0 <= k < |Kept(xs, safe)| ==> Kept(xs, safe)[k].epoch % 3 == b
  {
    if xs != [] {
      KeptKeeps(xs[..|xs| - 1], safe, limit, b);
    }
  }

  // ----- what is kept, freed and called, counted by place -----

  /** How many of the first i nodes are due. */
  ghost function DueRank(xs: seq<Retired>, safe: int, i: nat): nat
    requires i <= |xs|
  {
    |set k | 0 <= k < i && xs[k].epoch <= safe|
  }

  /** At how many places of the bucket a node with pointer p and a deleter stands. */
  ghost function Armed(xs: seq<Retired>, p: nat): nat {
    |set k | 0 <= k < |xs| && xs[k].deleter && xs[k].ptr == p|
  }

  /** And those of an epoch up to safe. */
  ghost function ArmedDue(xs: seq<Retired>, p: nat, safe: int): nat {
    |set k | 0 <= k < |xs| && xs[k].deleter && xs[k].ptr == p && xs[k].epoch <= safe|
  }

  lemma ArmedSnoc(xs: seq<Retired>, x: Retired, p: nat)
    ensures Armed(xs + [x], p) == Armed(xs, p) + (if x.deleter && x.ptr == p then 1 else 0)
  {
    var ys := xs + [x];
    assert (set k | 0 <= k < |ys| && ys[k].deleter && ys[k].ptr == p)
        == (set k | 0 <= k < |xs| && xs[k].deleter && xs[k].ptr == p)
           + (if x.deleter && x.ptr == p then {|xs|} else {});
  }

  lemma ArmedDueSnoc(xs: seq<Retired>, x: Retired, p: nat, safe: int)
    ensures ArmedDue(xs + [x], p, safe)
            == ArmedDue(xs, p, safe) + (if x.deleter && x.ptr == p && x.epoch <= safe then 1 else 0)
  {
    var ys := xs + [x];
    assert (set k | 0 <= k < |ys| && ys[k].deleter && ys[k].ptr == p && ys[k].epoch <= safe)
        == (set k | 0 <= k < |xs| && xs[k].deleter && xs[k].ptr == p && xs[k].epoch <= safe)
           + (if x.deleter && x.ptr == p && x.epoch <= safe then {|xs|} else {});
  }

  lemma DueRankNext(xs: seq<Retired>, safe: int, i: nat)
    requires i < |xs|
    ensures DueRank(xs, safe, i + 1) == DueRank(xs, safe, i) + (if xs[i].epoch <= safe then 1 else 0)
    ensures forall k :: 0 <= k <= i ==> DueRank(xs[..i], safe, k) == DueRank(xs, safe, k)
  {
    var upTo := set k | 0 <= k < i && xs[k].epoch <= safe;
    assert (set k | 0 <= k < i + 1 && xs[k].epoch <= safe) == upTo + (if xs[i].epoch <= safe then {i} else {});
    forall k | 0 <= k <= i ensures DueRank(xs[..i], safe, k) == DueRank(xs, safe, k) {
      assert (set m | 0 <= m < k && xs[..i][m].epoch <= safe) == (set m | 0 <= m < k && xs[m].epoch <= safe);
    }
  }

  /** The node at place i goes to its place among the due or among the kept ones. */
  ghost predicate Sorted(xs: seq<Retired>, safe: int, remaining: seq<Retired>, due: seq<Retired>, i: nat)
    requires i < |xs|
  {
    var r := DueRank(xs, safe, i);
    if xs[i].epoch <= safe then r < |due| && due[r] == xs[i]
    else 0 <= i - r < |remaining| && remaining[i - r] == xs[i]
  }

  lemma {:induction false} SplitIs(xs: seq<Retired>, safe: int)
    ensures |Due(xs, safe)| == DueRank(xs, safe, |xs|) && |Kept(xs, safe)| == |xs| - DueRank(xs, safe, |xs|)
    ensures forall i :: 0 <= i < |xs| ==> Sorted(xs, safe, Kept(xs, safe), Due(xs, safe), i)
  {
    if xs != [] {
      var n := |xs| - 1;
      SplitIs(xs[..n], safe);
      DueRankNext(xs, safe, n);
      forall i | 0 <= i < |xs| ensures Sorted(xs, safe, Kept(xs, safe), Due(xs, safe), i) {
        if i < n {
          assert Sorted(xs[..n], safe, Kept(xs[..n], safe), Due(xs[..n], safe), i);
        }
      }
    }
  }

  lemma CallsSnoc(xs: seq<Retired>, x: Retired)
    ensures Calls(xs + [x]) == Calls(xs) + (if x.deleter then [x.ptr] else [])
  {
    assert (xs + [x])[..|xs|] == xs;
  }

  lemma CallsCountSnoc(xs: seq<Retired>, x: Retired, p: nat)
    ensures multiset(Calls(xs + [x]))[p] == multiset(Calls(xs))[p] + (if x.deleter && x.ptr == p then 1 else 0)
  {
    CallsSnoc(xs, x);
  }

  /** Freeing a bucket calls the deleter of each due node that has one, once. */
  lemma {:induction false} BucketCalls(xs: seq<Retired>, safe: int, p: nat)
    ensures multiset(Calls(Due(xs, safe)))[p] == ArmedDue(xs, p, safe)
  {
    if xs != [] {
      var front, last := xs[..|xs| - 1], xs[|xs| - 1];
      assert xs == front + [last];
      BucketCalls(front, safe, p);
      ArmedDueSnoc(front, last, p, safe);
      FilterSnoc(front, last, safe);
      CallsCountSnoc(Due(front, safe), last, p);
    }
  }

  /** What stays pending and what was due are together what was pending. */
  lemma {:induction false} BucketKeeps(xs: seq<Retired>, safe: int, p: nat)
    ensures Armed(Kept(xs, safe), p) + ArmedDue(xs, p, safe) == Armed(xs, p)
  {
    if xs != [] {
      var front, last := xs[..|xs| - 1], xs[|xs| - 1];
      assert xs == front + [last];
      BucketKeeps(front, safe, p);
      ArmedSnoc(front, last, p);
      ArmedDueSnoc(front, last, p, safe);
      FilterSnoc(front, last, safe);
      ArmedSnoc(Kept(front, safe), last, p);
    }
  }

  /** A bucket keeps every younger node as often as it had it, and nothing else. */
  lemma {:induction false} BucketYoung(xs: seq<Retired>, safe: int, x: Retired)
    ensures multiset(Kept(xs, safe))[x] == if x.epoch > safe then multiset(xs)[x] else 0
  {
    if xs != [] {
      var front, last := xs[..|xs| - 1], xs[|xs| - 1];
      assert xs == front + [last];
      BucketYoung(front, safe, x);
      FilterSnoc(front, last, safe);
    }
  }

  /** A bucket keeps its younger nodes as often as it had them and no other, and each due
      node with a deleter has had it run once. */
  ghost predicate Freed(xs: seq<Retired>, xs': seq<Retired>, calls: seq<nat>, calls': seq<nat>, safe: int) {
    && (forall x :: multiset(xs')[x] == if x.epoch > safe then multiset(xs)[x] else 0)
    && (forall p: nat :: multiset(calls')[p] == multiset(calls)[p] + ArmedDue(xs, p, safe))
  }

  lemma FreedIs(xs: seq<Retired>, calls: seq<nat>, safe: int)
    ensures Freed(xs, Kept(xs, safe), calls, calls + Calls(Due(xs, safe)), safe)
  {
    forall x ensures multiset(Kept(xs, safe))[x] == if x.epoch > safe then multiset(xs)[x] else 0 {
      BucketYoung(xs, safe, x);
    }
    forall p: nat ensures multiset(Calls(Due(xs, safe)))[p] == ArmedDue(xs, p, safe) {
      BucketCalls(xs, safe, p);
    }
  }

  /** How many pending nodes have pointer p and a deleter. */
  ghost function Pending(v: View, p: nat): nat
    requires |v.retired| == 3
  {
    Armed(v.retired[0], p) + Armed(v.retired[1], p) + Armed(v.retired[2], p)
  }

  /** And of these, how many have an epoch up to safe. */
  ghost function PendingDue(v: View, p: nat, safe: int): nat
    requires |v.retired| == 3
  {
    ArmedDue(v.retired[0], p, safe) + ArmedDue(v.retired[1], p, safe) + ArmedDue(v.retired[2], p, safe)
  }

  lemma ThreeCalls(buckets: seq<seq<Retired>>, safe: int)
    requires |buckets| == 3
    ensures DueCalls(buckets, safe)
            == Calls(Due(buckets[0], safe)) + Calls(Due(buckets[1], safe)) + Calls(Due(buckets[2], safe))
  {
    var none: seq<seq<Retired>> := [];
    assert buckets[..2][..1] == buckets[..1] && buckets[..1][..0] == none;
    assert DueCalls(buckets[..1], safe) == Calls(Due(buckets[0], safe));
    assert DueCalls(buckets[..2], safe) == DueCalls(buckets[..1], safe) + Calls(Due(buckets[1], safe));
  }

  /** A reclaim runs the deleters of exactly the pending nodes that have one and are two
      epochs behind the epoch it reaches, each once, and of no other node; what it does not
      run stays pending. */
  lemma ReclaimCalls(v: View, p: nat)
    requires |v.retired| == 3
    ensures v.calls <= AfterReclaim(v).calls
    ensures multiset(AfterReclaim(v).calls)[p] == multiset(v.calls)[p] + PendingDue(v, p, AfterReclaim(v).epoch - 2)
    ensures Pending(AfterReclaim(v), p) + PendingDue(v, p, AfterReclaim(v).epoch - 2) == Pending(v, p)
  {
    var safe := AfterReclaim(v).epoch - 2;
    ThreeCalls(v.retired, safe);
    BucketCalls(v.retired[0], safe, p);
    BucketCalls(v.retired[1], safe, p);
    BucketCalls(v.retired[2], safe, p);
    BucketKeeps(v.retired[0], safe, p);
    BucketKeeps(v.retired[1], safe, p);
    BucketKeeps(v.retired[2], safe, p);
  }

  /** A retire adds one pending node with that pointer and that flag. */
  lemma RetireAdds(v: View, ptr: Option<nat>, deleter: bool, p: nat)
    requires |v.retired| == 3
    ensures Pending(AfterRetire(v, ptr, deleter), p)
            == Pending(v, p) + (if ptr == Some(p) && deleter then 1 else 0)
  {
    if ptr.Some? {
      ArmedSnoc(v.retired[v.epoch % 3], Retired(ptr.value, deleter, v.epoch), p);
    }
  }

  // ----- laws of the manager -----

  lemma RetireKeeps(v: View, ptr: Option<nat>, deleter: bool)
    requires WellFormed(v)
    ensures WellFormed(AfterRetire(v, ptr, deleter))
  {
  }

  lemma ReclaimKeeps(v: View)
    requires WellFormed(v)
    ensures WellFormed(AfterReclaim(v))
  {
    forall b | 0 <= b < 3
      ensures UpTo(AfterReclaim(v).retired[b], v.epoch)
      ensures forall k :: 0 <= k < |AfterReclaim(v).retired[b]| ==> AfterReclaim(v).retired[b][k].epoch % 3 == b
    {
      KeptKeeps(v.retired[b], EpochReached(v) - 2, v.epoch, b);
    }
  }

  /** A pending node survives one reclaim if and only if the epoch it leaves behind is
      less than two above the node's own. */
  lemma SurvivesIffYoung(v: View, b: nat, x: Retired)
    requires |v.retired| == 3 && b < 3 && x in v.retired[b]
    ensures x in AfterReclaim(v).retired[b] <==> AfterReclaim(v).epoch < x.epoch + 2
  {
    FilterMember(v.retired[b], EpochReached(v) - 2, x);
  }

  /** Below epoch two a reclaim frees nothing. */
  lemma NothingBeforeTwo(v: View)
    requires |v.retired| == 3 && EpochReached(v) < 2
    ensures AfterReclaim(v) == v.(epoch := EpochReached(v))
  {
    NoDueCalls(v.retired, EpochReached(v) - 2);
    assert AfterReclaim(v).retired == v.retired;
  }

  predicate Empty(v: View) {
    forall b :: 0 <= b < |v.retired| ==> v.retired[b] == []
  }

  lemma FilterSnoc(xs: seq<Retired>, x: Retired, safe: int)
    ensures Kept(xs + [x], safe) == if x.epoch <= safe then Kept(xs, safe) else Kept(xs, safe) + [x]
    ensures Due(xs + [x], safe) == if x.epoch <= safe then Due(xs, safe) + [x] else Due(xs, safe)
  {
    assert (xs + [x])[..|xs|] == xs;
  }

  /** Filtering by a limit and then by a later one is filtering by the later one. */
  lemma {:induction false} FilterTwice(xs: seq<Retired>, safe: int, later: int)
    requires safe <= later
    ensures Kept(Kept(xs, safe), later) == Kept(xs, later)
  {
    if xs != [] {
      var front, last := xs[..|xs| - 1], xs[|xs| - 1];
      FilterTwice(front, safe, later);
      assert xs == front + [last];
      FilterSnoc(front, last, safe);
      FilterSnoc(front, last, later);
      FilterSnoc(Kept(front, safe), last, later);
    }
  }

  lemma TwiceRetired(v: View, b: nat)
    requires |v.retired| == 3 && b < 3
    ensures AfterReclaim(AfterReclaim(v)).retired[b]
            == Kept(v.retired[b], AfterReclaim(AfterReclaim(v)).epoch - 2)
  {
    var u := AfterReclaim(v);
    FilterTwice(v.retired[b], u.epoch - 2, EpochReached(u) - 2);
  }

  /** Two reclaims in a row leave nothing pending if and only if every pending node is
      at least two epochs behind the epoch they reach. */
  lemma TwoReclaims(v: View)
    requires |v.retired| == 3
    ensures Empty(AfterReclaim(AfterReclaim(v)))
            <==> forall b :: 0 <= b < 3 ==> UpTo(v.retired[b], AfterReclaim(AfterReclaim(v)).epoch - 2)
  {
    var w := AfterReclaim(AfterReclaim(v));
    forall b | 0 <= b < 3 ensures w.retired[b] == [] <==> UpTo(v.retired[b], w.epoch - 2) {
      TwiceRetired(v, b);
      NoneKeptIff(v.retired[b], w.epoch - 2);
    }
  }

  /** With no thread in a critical section that is always so, whatever was pending. */
  lemma TwoQuietReclaims(v: View)
    requires NotAhead(v) && forall i :: 0 <= i < |v.threads| ==> !v.threads[i].active
    ensures Empty(AfterReclaim(AfterReclaim(v))) && AfterReclaim(AfterReclaim(v)).epoch == v.epoch + 2
  {
    TwoReclaims(v);
  }

  /** With a thread still active in an older epoch nothing moves: no epoch change, and
      reclaiming twice frees no more than reclaiming once. */
  lemma LaggardBlocks(v: View, i: nat)
    requires |v.retired| == 3 && i < |v.threads| && Lagging(v.threads[i], v.epoch)
    ensures AfterReclaim(v).epoch == v.epoch && AfterReclaim(AfterReclaim(v)) == AfterReclaim(v)
  {
    var u := AfterReclaim(v);
    forall b | 0 <= b < 3 ensures Above(u.retired[b], v.epoch - 2) {
      KeptAbove(v.retired[b], v.epoch - 2);
    }
    NoDueCalls(u.retired, v.epoch - 2);
    assert AfterReclaim(u).retired == u.retired;
  }

  /** The filtering loop over one bucket, which keeps the order. */
  method Split(xs: seq<Retired>, safe: nat) returns (remaining: seq<Retired>, due: seq<Retired>)
    ensures remaining == Kept(xs, safe) && due == Due(xs, safe)
    ensures |due| == |set k | 0 <= k < |xs| && xs[k].epoch <= safe| && |remaining| + |due| == |xs|
    ensures forall i :: 0 <= i < |xs| ==> Sorted(xs, safe, remaining, due, i)
  {
    SplitIs(xs, safe);
    remaining, due := [], [];
    var i := 0;
    while i < |xs|
      invariant 0 <= i <= |xs|
      invariant remaining == Kept(xs[..i], safe) && due == Due(xs[..i], safe)
    {
      assert xs[..i + 1] == xs[..i] + [xs[i]];
      FilterSnoc(xs[..i], xs[i], safe);
      if xs[i].epoch <= safe {
        due := due + [xs[i]];
      } else {
        remaining := remaining + [xs[i]];
      }
      i := i + 1;
    }
    assert xs[..i] == xs;
  }

  class Manager {
    var epoch: nat
    var threads: seq<Registered>
    var retired: seq<seq<Retired>>
    var calls: seq<nat>

    ghost function Value(): View
      reads this
    {
      View(epoch, threads, retired, calls)
    }

    constructor ()
      ensures Value() == View(0, [], [[], [], []], []) && WellFormed(Value())
    {
      epoch, threads, retired, calls := 0, [], [[], [], []], [];
    }

    /** The state of the calling thread; `tls` is its place if it has one here already. */
    method GetOrCreateState(tls: Option<nat>) returns (tid: nat)
      requires tls.Some? ==> tls.value < |threads|
      modifies this
      ensures tid == (if tls.Some? then tls.value else old(|threads|)) && tid < |threads|
      ensures Value() == old(Value()).(threads := AfterEntry(old(threads), tls))
    {
      if tls.Some? {
        return tls.value;
      }
      tid := |threads|;
      threads := threads + [Registered(0, false)];
    }

    /** A thread that is new here is registered first. */
    method EnterCritical(tls: Option<nat>) returns (tid: nat)
      requires tls.Some? ==> tls.value < |threads|
      modifies this
      ensures tid == (if tls.Some? then tls.value else old(|threads|)) && tid < |threads|
      ensures Value() == old(Value()).(threads := AfterEntry(old(threads), tls)[tid := Registered(epoch, true)])
    {
      tid := GetOrCreateState(tls);
      threads := threads[tid := threads[tid].(epoch := epoch)];
      threads := threads[tid := threads[tid].(active := true)];
    }

    method ExitCritical(tls: Option<nat>) returns (tid: nat)
      requires tls.Some? ==> tls.value < |threads|
      modifies this
      ensures tid == (if tls.Some? then tls.value else old(|threads|)) && tid < |threads|
      ensures var entered := AfterEntry(old(threads), tls);
              Value() == old(Value()).(threads := entered[tid := entered[tid].(active := false)])
    {
      tid := GetOrCreateState(tls);
      threads := threads[tid := threads[tid].(active := false)];
    }

    method Retire(ptr: Option<nat>, deleter: bool)
      requires WellFormed(Value())
      modifies this
      ensures WellFormed(Value()) && Value() == AfterRetire(old(Value()), ptr, deleter)
      ensures epoch == old(epoch) && threads == old(threads) && calls == old(calls)
      ensures forall b :: 0 <= b < 3 ==>
                retired[b] == old(retired)[b]
                              + (if ptr.Some? && b == epoch % 3 then [Retired(ptr.value, deleter, epoch)] else [])
    {
      RetireKeeps(Value(), ptr, deleter);
      match ptr
      case None =>
      case Some(p) =>
        var b := epoch % 3;
        retired := retired[b := retired[b] + [Retired(p, deleter, epoch)]];
    }

    method CanAdvanceEpoch() returns (ok: bool)
      ensures ok <==> forall k :: 0 <= k < |threads| && threads[k].active ==> threads[k].epoch >= epoch
    {
      var i := 0;
      while i < |threads|
        invariant 0 <= i <= |threads|
        invariant forall k :: 0 <= k < i && threads[k].active ==> threads[k].epoch >= epoch
      {
        if threads[i].active && threads[i].epoch < epoch {
          return false;
        }
        i := i + 1;
      }
      return true;
    }

    /** One bucket of a reclaim: split it, then run the deleters. */
    method ReclaimBucket(b: nat, safe: nat) returns (reclaimed: nat)
      requires b < |retired|
      modifies this
      ensures retired == old(retired)[b := Kept(old(retired)[b], safe)]
      ensures calls == old(calls) + Calls(Due(old(retired)[b], safe))
      ensures epoch == old(epoch) && threads == old(threads)
      ensures reclaimed == |calls| - |old(calls)|
      ensures Freed(old(retired)[b], retired[b], old(calls), calls, safe)
    {
      FreedIs(retired[b], calls, safe);
      var remaining, due := Split(retired[b], safe);
      retired := retired[b := remaining];
      reclaimed := Delete(due);
    }

    method Delete(due: seq<Retired>) returns (reclaimed: nat)
      modifies this`calls
      ensures calls == old(calls) + Calls(due) && reclaimed == |Calls(due)|
    {
      reclaimed := 0;
      var i := 0;
      while i < |due|
        invariant 0 <= i <= |due|
        invariant calls == old(calls) + Calls(due[..i]) && reclaimed == |Calls(due[..i])|
      {
        assert due[..i + 1][..i] == due[..i];
        if due[i].deleter {
          calls := calls + [due[i].ptr];
          reclaimed := reclaimed + 1;
        }
        i := i + 1;
      }
      assert due[..i] == due;
    }

    /** The same, as the sweep needs it. */
    method SweepBucket(b: nat, safe: nat) returns (reclaimed: nat)
      requires b < |retired|
      modifies this
      ensures retired == old(retired)[b := Kept(old(retired)[b], safe)]
      ensures calls == old(calls) + Calls(Due(old(retired)[b], safe)) && reclaimed == |calls| - |old(calls)|
      ensures epoch == old(epoch) && threads == old(threads)
    {
      reclaimed := ReclaimBucket(b, safe);
    }

    /** The sweep over the three buckets. */
    method Sweep(safe: nat) returns (reclaimed: nat)
      requires |retired| == 3
      modifies this
      ensures retired == KeptAll(old(retired), safe)
      ensures calls == old(calls) + DueCalls(old(retired), safe)
      ensures epoch == old(epoch) && threads == old(threads)
      ensures reclaimed == |calls| - |old(calls)|
    {
      reclaimed := 0;
      var i := 0;
      while i < 3
        invariant 0 <= i <= 3 && |retired| == 3
        invariant forall b :: 0 <= b < i ==> retired[b] == Kept(old(retired)[b], safe)
        invariant forall b :: i <= b < 3 ==> retired[b] == old(retired)[b]
        invariant calls == old(calls) + DueCalls(old(retired)[..i], safe)
        invariant epoch == old(epoch) && threads == old(threads)
        invariant reclaimed == |calls| - |old(calls)|
      {
        var n := SweepBucket(i, safe);
        assert old(retired)[..i + 1][..i] == old(retired)[..i];
        reclaimed := reclaimed + n;
        i := i + 1;
      }
      assert old(retired)[..3] == old(retired);
    }

    method TryReclaim() returns (reclaimed: nat)
      requires |retired| == 3
      modifies this
      ensures Value() == AfterReclaim(old(Value())) && |retired| == 3 && threads == old(threads)
      ensures epoch == old(epoch) + if exists k :: 0 <= k < |threads| && threads[k].active
                                                   && threads[k].epoch < old(epoch) then 0 else 1
      ensures old(calls) <= calls && reclaimed == |calls| - |old(calls)|
      ensures forall p: nat :: multiset(calls)[p] == multiset(old(calls))[p] + PendingDue(old(Value()), p, epoch - 2)
      ensures forall p: nat ::
                Pending(Value(), p) + multiset(calls)[p] == Pending(old(Value()), p) + multiset(old(calls))[p]
    {
      forall p: nat { ReclaimCalls(Value(), p); }
      reclaimed := Advance();
    }

    /** The epoch moves on if it may, and what is two epochs back is swept. */
    method Advance() returns (reclaimed: nat)
      requires |retired| == 3
      modifies this
      ensures Value() == AfterReclaim(old(Value()))
      ensures reclaimed == |calls| - |old(calls)|
    {
      reclaimed := 0;
      var ok := CanAdvanceEpoch();
      if ok {
        epoch := epoch + 1;
      }
      if epoch >= 2 {
        reclaimed := Sweep(epoch - 2);
      } else {
        NothingBeforeTwo(old(Value()));
      }
    }

    method HasPending() returns (pending: bool)
      requires |retired| == 3
      ensures pending <==> !Empty(Value())
    {
      var i := 0;
      while i < 3
        invariant 0 <= i <= 3
        invariant forall b :: 0 <= b < i ==> retired[b] == []
      {
        if retired[i] != [] {
          return true;
        }
        i := i + 1;
      }
      return false;
    }
  }

  /** From any state with no thread in a critical section, two calls empty the manager. */
  method Drain(m: Manager) returns (pending: bool)
    requires WellFormed(m.Value()) && forall i :: 0 <= i < |m.threads| ==> !m.threads[i].active
    modifies m
    ensures !pending && Empty(m.Value()) && m.epoch == old(m.epoch) + 2 && WellFormed(m.Value())
  {
    ReclaimKeeps(m.Value());
    ReclaimKeeps(AfterReclaim(m.Value()));
    TwoQuietReclaims(m.Value());
    var first := m.TryReclaim();
    var second := m.TryReclaim();
    pending := m.HasPending();
  }
}
