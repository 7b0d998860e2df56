/** Clear running alone: every registered cache of this pool and every shard is empty when it
    returns, and nothing else has changed. */
module TlsClear {
  import opened Ring
  import opened TlsPool
  import opened TlsInvariant
  import opened TlsSolo

  function Emptied(t: Thread): Thread {
    t.(fast := None, batch := NoSlots(|t.batch|), count := 0)
  }

  /** Two stages of a thread with the same cache. */
  predicate SameCache(t: Thread, u: Thread) {
    t.(pc := Ready) == u.(pc := Ready)
  }

  /** What no step of the walk over the caches changes. */
  ghost predicate Quiet(c: State, v: State, i: nat) {
    && |v.threads| == |c.threads| && v.shards == c.shards && v.hands == c.hands && c.deleted <= v.deleted
    && v.created == c.created && v.registry == c.registry && v.lock == c.lock
    && forall x :: 0 <= x < |c.threads| && x != i ==> v.threads[x].pc == c.threads[x].pc
  }

  /** Only cache m differs, and it is now that of `after`. */
  ghost predicate OnlyCache(c: State, v: State, m: nat, after: Thread) {
    |v.threads| == |c.threads|
    && forall x :: 0 <= x < |c.threads| ==> SameCache(v.threads[x], if x == m then after else c.threads[x])
  }

  // ----- one cache -----

  /** A thread that is walking, at registry entry k. */
  ghost predicate Walks(cfg: Config, c: State, i: nat, k: nat) {
    Fits(cfg, c, i) && k < |c.registry| && c.registry[k] < |c.threads|
  }

  lemma SlotStep(cfg: Config, c: State, i: nat, w: Will, k: nat, j: nat) returns (v: State)
    requires Walks(cfg, c, i, k) && c.threads[i].pc == ClearSlot(k, j) && j < |c.threads[c.registry[k]].batch|
    ensures Leads(cfg, c, v, i, w) && v.threads[i].pc == ClearSlot(k, j + 1) && Quiet(c, v, i)
    ensures var u := c.threads[c.registry[k]];
            OnlyCache(c, v, c.registry[k], u.(batch := u.batch[j := None]))
  {
    v := One(cfg, c, i, w);
    LeadsOne(cfg, c, v, i, w);
  }

  lemma SlotsEnd(cfg: Config, c: State, i: nat, w: Will, k: nat, j: nat) returns (v: State)
    requires Walks(cfg, c, i, k) && c.threads[i].pc == ClearSlot(k, j) && j >= |c.threads[c.registry[k]].batch|
    ensures Leads(cfg, c, v, i, w) && v.threads[i].pc == ClearOwner(k + 1) && Quiet(c, v, i)
    ensures OnlyCache(c, v, c.registry[k], c.threads[c.registry[k]].(count := 0))
  {
    v := One(cfg, c, i, w);
    LeadsOne(cfg, c, v, i, w);
  }

  lemma {:induction false} SlotsAlone(cfg: Config, c: State, i: nat, w: Will, k: nat, j: nat) returns (v: State)
    requires Walks(cfg, c, i, k) && c.threads[i].pc == ClearSlot(k, j)
    requires NoneIn(c.threads[c.registry[k]].batch, 0, j) && j <= |c.threads[c.registry[k]].batch|
    ensures Leads(cfg, c, v, i, w) && v.threads[i].pc == ClearOwner(k + 1) && Quiet(c, v, i)
    ensures var u := c.threads[c.registry[k]];
            OnlyCache(c, v, c.registry[k], u.(batch := NoSlots(|u.batch|), count := 0))
    decreases |c.threads[c.registry[k]].batch| - j
  {
    var m := c.registry[k];
    var u := c.threads[m];
    if j == |u.batch| {
      v := SlotsEnd(cfg, c, i, w, k, j);
      assert u.batch == NoSlots(|u.batch|);
    } else {
      var c1 := SlotStep(cfg, c, i, w, k, j);
      assert SameCache(c1.threads[m], u.(batch := u.batch[j := None]));
      v := SlotsAlone(cfg, c1, i, w, k, j + 1);
      LeadsOn(cfg, c, c1, v, i, w);
      OnlyTwice(c, c1, v, m, u.(batch := u.batch[j := None]),
                c1.threads[m].(batch := NoSlots(|c1.threads[m].batch|), count := 0));
    }
  }

  lemma OnlyTwice(c: State, c1: State, v: State, m: nat, a: Thread, b: Thread)
    requires OnlyCache(c, c1, m, a) && OnlyCache(c1, v, m, b)
    ensures OnlyCache(c, v, m, b)
  {
    forall x | 0 <= x < |c.threads| ensures SameCache(v.threads[x], if x == m then b else c.threads[x]) {
      assert SameCache(c1.threads[x], if x == m then a else c.threads[x]);
      assert SameCache(v.threads[x], if x == m then b else c1.threads[x]);
    }
  }

  lemma FastStep(cfg: Config, c: State, i: nat, w: Will, k: nat) returns (v: State)
    requires Walks(cfg, c, i, k) && c.threads[i].pc == ClearFast(k)
    ensures Leads(cfg, c, v, i, w) && v.threads[i].pc == ClearSlot(k, 0) && Quiet(c, v, i)
    ensures OnlyCache(c, v, c.registry[k], c.threads[c.registry[k]].(fast := None))
  {
    v := One(cfg, c, i, w);
    LeadsOne(cfg, c, v, i, w);
  }

  lemma OwnerLook(cfg: Config, c: State, i: nat, w: Will, k: nat) returns (v: State)
    requires Walks(cfg, c, i, k) && c.threads[i].pc == ClearOwner(k)
    ensures Leads(cfg, c, v, i, w) && Quiet(c, v, i)
    ensures v.threads[i].pc == if c.threads[c.registry[k]].owner == Here then ClearFast(k) else ClearOwner(k + 1)
    ensures OnlyCache(c, v, c.registry[k], c.threads[c.registry[k]])
  {
    v := One(cfg, c, i, w);
    LeadsOne(cfg, c, v, i, w);
  }

  /** What the walk makes of a cache it comes to. */
  function Swept(t: Thread): Thread {
    if t.owner == Here then Emptied(t) else t
  }

  lemma CacheAlone(cfg: Config, c: State, i: nat, w: Will, k: nat) returns (v: State)
    requires Walks(cfg, c, i, k) && c.threads[i].pc == ClearOwner(k)
    ensures Leads(cfg, c, v, i, w) && v.threads[i].pc == ClearOwner(k + 1) && Quiet(c, v, i)
    ensures OnlyCache(c, v, c.registry[k], Swept(c.threads[c.registry[k]]))
  {
    var m := c.registry[k];
    var c1 := OwnerLook(cfg, c, i, w, k);
    assert SameCache(c1.threads[m], c.threads[m]);
    if c.threads[m].owner == Here {
      var c2 := FastStep(cfg, c1, i, w, k);
      assert SameCache(c2.threads[m], c1.threads[m].(fast := None));
      v := SlotsAlone(cfg, c2, i, w, k, 0);
      LeadsOn(cfg, c1, c2, v, i, w);
      LeadsOn(cfg, c, c1, v, i, w);
      OnlyTwice(c, c1, c2, m, c.threads[m], c1.threads[m].(fast := None));
      OnlyTwice(c, c2, v, m, c1.threads[m].(fast := None),
                c2.threads[m].(batch := NoSlots(|c2.threads[m].batch|), count := 0));
    } else {
      v := c1;
    }
  }

  // ----- all caches -----

  /** The caches of the registry's entries from k on are swept, the others are as they were. */
  ghost predicate SweptFrom(c: State, v: State, k: nat)
    requires k <= |c.registry|
  {
    |v.threads| == |c.threads|
    && forall x :: 0 <= x < |c.threads| ==>
         SameCache(v.threads[x], if x in c.registry[k..] then Swept(c.threads[x]) else c.threads[x])
  }

  ghost predicate Registered(c: State) {
    Distinct(c.registry) && forall x :: x in c.registry ==> x < |c.threads|
  }

  lemma SweepMore(c: State, c1: State, v: State, k: nat)
    requires k < |c.registry| && c1.registry == c.registry && Distinct(c.registry) && c.registry[k] < |c.threads|
    requires OnlyCache(c, c1, c.registry[k], Swept(c.threads[c.registry[k]])) && SweptFrom(c1, v, k + 1)
    ensures SweptFrom(c, v, k)
  {
    var m := c.registry[k];
    assert c.registry[k..] == [m] + c.registry[k + 1..];
    assert m !in c.registry[k + 1..];
    forall x | 0 <= x < |c.threads|
      ensures SameCache(v.threads[x], if x in c.registry[k..] then Swept(c.threads[x]) else c.threads[x])
    {
      assert SameCache(c1.threads[x], if x == m then Swept(c.threads[m]) else c.threads[x]);
      assert x in c.registry[k..] <==> x == m || x in c.registry[k + 1..];
    }
  }

  lemma {:induction false} CachesAlone(cfg: Config, c: State, i: nat, w: Will, k: nat) returns (v: State)
    requires Fits(cfg, c, i) && k <= |c.registry| && c.threads[i].pc == ClearOwner(k) && Registered(c)
    ensures Leads(cfg, c, v, i, w) && v.threads[i].pc == ClearOwner(|c.registry|) && Quiet(c, v, i)
    ensures SweptFrom(c, v, k)
    decreases |c.registry| - k
  {
    if k == |c.registry| {
      v := c;
      LeadsNowhere(cfg, c, i, w);
    } else {
      assert c.registry[k] in c.registry;
      var c1 := CacheAlone(cfg, c, i, w, k);
      v := CachesAlone(cfg, c1, i, w, k + 1);
      LeadsOn(cfg, c, c1, v, i, w);
      SweepMore(c, c1, v, k);
    }
  }

  // ----- the shards -----

  ghost predicate NoShards(stored: seq<seq<nat>>, n: nat) {
    forall k :: 0 <= k < n && k < |stored| ==> stored[k] == []
  }

  /** What emptying the shards does not change. */
  ghost predicate Still(c: State, v: State, i: nat) {
    && |v.threads| == |c.threads| && v.hands == c.hands && c.deleted <= v.deleted && v.created == c.created
    && v.registry == c.registry && v.lock == c.lock
    && forall x :: 0 <= x < |c.threads| ==>
         SameCache(v.threads[x], c.threads[x]) && (x != i ==> v.threads[x] == c.threads[x])
  }

  lemma {:induction false} ShardsAlone(cfg: Config, c: State, i: nat, w: Will, k: nat) returns (v: State)
    requires Fits(cfg, c, i) && k <= cfg.shards && c.threads[i].pc == ClearShards(k) && NoShards(c.shards, k)
    ensures Leads(cfg, c, v, i, w) && v.threads[i].pc == Ready && Still(c, v, i)
    ensures |v.shards| == cfg.shards && NoShards(v.shards, cfg.shards)
    decreases cfg.shards - k
  {
    var c1 := One(cfg, c, i, w);
    LeadsOne(cfg, c, c1, i, w);
    if k == cfg.shards {
      v := c1;
    } else {
      v := ShardsAlone(cfg, c1, i, w, k + 1);
      LeadsOn(cfg, c, c1, v, i, w);
    }
  }

  // ----- the whole call -----

  lemma Locks(cfg: Config, s: State, i: nat, w: Will) returns (c: State)
    requires Fits(cfg, s, i) && s.threads[i].pc.Ready? && s.lock.None? && w.act == CallClear
    ensures Leads(cfg, s, c, i, w)
    ensures c == Goto(s, i, ClearOwner(0)).(lock := Some(i))
  {
    var t := s.threads[i];
    var s1 := Goto(s, i, ClearLock);
    LeadsOne(cfg, s, s1, i, w);
    c := One(cfg, s1, i, w);
    Replaced(s, i, t.(pc := ClearLock), t.(pc := ClearOwner(0)));
    LeadsOne(cfg, s1, c, i, w);
    LeadsOn(cfg, s, s1, c, i, w);
  }

  lemma Unlocks(cfg: Config, c: State, i: nat, w: Will) returns (v: State)
    requires Fits(cfg, c, i) && c.threads[i].pc == ClearOwner(|c.registry|)
    ensures Leads(cfg, c, v, i, w) && v == Goto(c, i, ClearShards(0)).(lock := None)
  {
    v := One(cfg, c, i, w);
    LeadsOne(cfg, c, v, i, w);
  }

  /** The effect of Clear: the registered caches of this pool and all shards are empty, the other
      caches, the objects in use, the other threads and the registry are as they were. */
  ghost predicate Cleared(s: State, u: State, i: nat) {
    && |u.threads| == |s.threads| && SweptFrom(s, u, 0)
    && (forall x :: 0 <= x < |s.threads| ==> u.threads[x].pc == s.threads[x].pc)
    && |u.shards| == |s.shards| && NoShards(u.shards, |u.shards|)
    && u.hands == s.hands && s.deleted <= u.deleted && u.created == s.created && u.registry == s.registry
    && u.lock == s.lock
  }

  lemma ThenCleared(s: State, c: State, v: State, e: State, u: State, i: nat)
    requires i < |s.threads| && s.threads[i].pc.Ready? && s.lock.None?
    requires c == Goto(s, i, ClearOwner(0)).(lock := Some(i)) && Quiet(c, v, i) && SweptFrom(c, v, 0)
    requires e == Goto(v, i, ClearShards(0)).(lock := None) && Still(e, u, i) && u.threads[i].pc.Ready?
    requires |u.shards| == |s.shards| && NoShards(u.shards, |u.shards|)
    ensures Cleared(s, u, i)
  {
    forall x | 0 <= x < |s.threads|
      ensures SameCache(u.threads[x], if x in s.registry[0..] then Swept(s.threads[x]) else s.threads[x])
      ensures u.threads[x].pc == s.threads[x].pc
    {
      assert SameCache(u.threads[x], e.threads[x]);
      assert SameCache(v.threads[x], if x in c.registry[0..] then Swept(c.threads[x]) else c.threads[x]);
    }
  }

  /** Clear running alone from any reachable state in which nobody holds the registry lock. */
  lemma ClearAlone(cfg: Config, sch: seq<Choice>, i: nat, w: Will) returns (u: State)
    requires ConfigOk(cfg) && i < |cfg.home| && w.act == CallClear
    requires Run(cfg, sch).threads[i].pc.Ready? && Run(cfg, sch).lock.None?
    ensures Leads(cfg, Run(cfg, sch), u, i, w) && Cleared(Run(cfg, sch), u, i)
    ensures forall x :: 0 <= x < |u.threads| && u.threads[x].owner == Here && !u.threads[x].pc.Register? ==>
              Bare(u.threads[x]) && u.threads[x].count == 0
  {
    var s := Run(cfg, sch);
    RunInv(cfg, sch);
    var c := Locks(cfg, s, i, w);
    var v := CachesAlone(cfg, c, i, w, 0);
    var e := Unlocks(cfg, v, i, w);
    u := ShardsAlone(cfg, e, i, w, 0);
    LeadsOn(cfg, s, c, v, i, w);
    LeadsOn(cfg, s, v, e, i, w);
    LeadsOn(cfg, s, e, u, i, w);
    ThenCleared(s, c, v, e, u, i);
    AllBare(cfg, s, u, i);
  }

  /** Every cache of this pool is a registered one, unless its thread is about to register it. */
  lemma AllBare(cfg: Config, s: State, u: State, i: nat)
    requires Inv(cfg, s) && Cleared(s, u, i)
    ensures forall x :: 0 <= x < |u.threads| && u.threads[x].owner == Here && !u.threads[x].pc.Register? ==>
              Bare(u.threads[x]) && u.threads[x].count == 0
  {
    forall x | 0 <= x < |u.threads| && u.threads[x].owner == Here && !u.threads[x].pc.Register?
      ensures Bare(u.threads[x]) && u.threads[x].count == 0
    {
      assert SameCache(u.threads[x], s.threads[x]) || SameCache(u.threads[x], Swept(s.threads[x]));
      assert Listed(s.threads[x]);
      assert x in s.registry && s.registry[0..] == s.registry;
      assert SameCache(u.threads[x], Swept(s.threads[x]));
    }
  }
}
