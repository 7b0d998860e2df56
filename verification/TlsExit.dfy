/** A thread that leaves while nobody else moves: its cached objects go to its own shard, the
    fast slot's first, its cache is empty and off the registry, and all else is as it was. */
module TlsExit {
  import opened Ring
  import opened PoolShard
  import opened TlsPool
  import opened TlsInvariant
  import opened TlsSolo

  /** What a cache holds, the fast slot first. */
  function Cached(t: Thread): seq<nat> {
    (if t.fast.Some? then [t.fast.value] else []) + Given(t.batch)
  }

  /** The thread after k slots: their objects are collected, the others are still there. */
  ghost predicate Collecting(t: Thread, first: seq<nat>, batch: seq<Option<nat>>, k: nat) {
    && k <= |batch| == |t.batch| && t.pc == ExitSlot(first + Given(batch[..k]), k)
    && NoneIn(t.batch, 0, k) && forall m :: k <= m < |batch| ==> t.batch[m] == batch[m]
  }

  lemma CollectNext(t: Thread, first: seq<nat>, batch: seq<Option<nat>>, k: nat)
    requires Collecting(t, first, batch, k) && k < |batch|
    ensures Collecting(OwnerStep(t), first, batch, k + 1)
    ensures OwnerStep(t) == t.(batch := OwnerStep(t).batch, pc := OwnerStep(t).pc)
  {
    assert batch[..k + 1][..k] == batch[..k];
    assert batch[..k + 1][k] == t.batch[k];
    var more := if batch[k].Some? then [batch[k].value] else [];
    assert first + Given(batch[..k + 1]) == first + Given(batch[..k]) + more;
  }

  /** The thread with all it cached in its hands. */
  function Collected(t: Thread, items: seq<nat>): Thread {
    t.(batch := NoSlots(|t.batch|), count := 0, pc := if items == [] then Unregister else Give(items, true))
  }

  lemma {:induction false} CollectAlone(cfg: Config, s: State, i: nat, w: Will, t: Thread, first: seq<nat>,
                                        batch: seq<Option<nat>>, k: nat)
    requires Fits(cfg, s, i) && Collecting(t, first, batch, k)
    ensures Leads(cfg, Place(s, i, t), Place(s, i, Collected(t, first + Given(batch))), i, w)
    decreases |batch| - k
  {
    OwnStep(cfg, s, i, w, t);
    if k < |batch| {
      CollectNext(t, first, batch, k);
      CollectAlone(cfg, s, i, w, OwnerStep(t), first, batch, k + 1);
      ThenPlace(cfg, s, i, w, t, OwnerStep(t), Collected(t, first + Given(batch)));
    } else {
      assert batch[..k] == batch;
      assert t.batch == NoSlots(|t.batch|);
    }
  }

  /** The own shard gets what there is. */
  lemma HandOver(cfg: Config, s: State, i: nat, w: Will, t: Thread, items: seq<nat>)
    requires Fits(cfg, s, i) && t == Collected(t, items)
    ensures var k := cfg.home[i];
            Leads(cfg, Place(s, i, t),
                  Place(s, i, t.(pc := Unregister)).(shards := s.shards[k := s.shards[k] + items]), i, w)
  {
    var k := cfg.home[i];
    var u := Place(s, i, t.(pc := Unregister)).(shards := s.shards[k := s.shards[k] + items]);
    if items == [] {
      assert s.shards[k] + items == s.shards[k];
      assert s.shards[k := s.shards[k]] == s.shards;
      LeadsNowhere(cfg, u, i, w);
    } else {
      Replaced(s, i, t, t.(pc := Unregister));
      LeadsOne(cfg, Place(s, i, t), u, i, w);
    }
  }

  lemma LeaveRegistry(cfg: Config, s: State, i: nat, w: Will, t: Thread)
    requires Fits(cfg, s, i) && t.pc.Unregister? && s.lock.None?
    ensures Leads(cfg, Place(s, i, t),
                  Place(s, i, t.(pc := Gone)).(registry := Without(s.registry, i)), i, w)
  {
    Replaced(s, i, t, t.(pc := Gone));
    LeadsOne(cfg, Place(s, i, t), Place(s, i, t.(pc := Gone)).(registry := Without(s.registry, i)), i, w);
  }

  lemma BeginExit(cfg: Config, s: State, i: nat, w: Will)
    requires Fits(cfg, s, i) && s.threads[i].pc.Ready? && s.threads[i].owner == Here && w.act == ThreadExit
    ensures var t := s.threads[i];
            var first := if t.fast.Some? then [t.fast.value] else [];
            Leads(cfg, s, Place(s, i, t.(owner := Nobody, fast := None, pc := ExitSlot(first, 0))), i, w)
  {
    var t := s.threads[i];
    var t1, t2 := t.(pc := ExitBegin), t.(owner := Nobody, pc := ExitFast);
    LeadsOne(cfg, s, Place(s, i, t1), i, w);
    OwnStep(cfg, s, i, w, t1);
    OwnStep(cfg, s, i, w, t2);
    LeadsOn(cfg, s, Place(s, i, t1), Place(s, i, t2), i, w);
    LeadsOn(cfg, s, Place(s, i, t2), Place(s, i, OwnerStep(t2)), i, w);
  }

  /** The effect of leaving. */
  ghost predicate HasLeft(cfg: Config, s: State, u: State, i: nat)
    requires Fits(cfg, s, i)
  {
    var t, k := s.threads[i], cfg.home[i];
    var bare := t.(fast := None, batch := NoSlots(|t.batch|), count := 0, owner := Nobody, pc := Gone);
    && u.threads == s.threads[i := bare]
    && u.shards == s.shards[k := s.shards[k] + Cached(t)] && u.hands == s.hands && u.deleted == s.deleted
    && u.created == s.created && u.lock == s.lock
    && Distinct(u.registry) && forall x :: x in u.registry <==> x in s.registry && x != i
  }

  /** A thread that uses this pool leaves, running alone from any reachable state in which nobody
      holds the registry lock. */
  lemma ExitAlone(cfg: Config, sch: seq<Choice>, i: nat, w: Will) returns (u: State)
    requires ConfigOk(cfg) && i < |cfg.home| && w.act == ThreadExit && Run(cfg, sch).lock.None?
    requires Run(cfg, sch).threads[i].pc.Ready? && Run(cfg, sch).threads[i].owner == Here
    ensures Leads(cfg, Run(cfg, sch), u, i, w) && HasLeft(cfg, Run(cfg, sch), u, i)
  {
    var s := Run(cfg, sch);
    var t, k := s.threads[i], cfg.home[i];
    var first := if t.fast.Some? then [t.fast.value] else [];
    var t1 := t.(owner := Nobody, fast := None, pc := ExitSlot(first, 0));
    var t2 := Collected(t1, Cached(t));
    var t3, b := t2.(pc := Unregister), s.(shards := s.shards[k := s.shards[k] + Cached(t)]);
    BeginExit(cfg, s, i, w);
    assert t.batch[..0] == [] && first + [] == first;
    CollectAlone(cfg, s, i, w, t1, first, t.batch, 0);
    HandOver(cfg, s, i, w, t2, Cached(t));
    LeaveRegistry(cfg, b, i, w, t3);
    u := Place(b, i, t3.(pc := Gone)).(registry := Without(s.registry, i));
    LeadsOn(cfg, s, Place(s, i, t1), Place(s, i, t2), i, w);
    LeadsOn(cfg, s, Place(s, i, t2), Place(b, i, t3), i, w);
    LeadsOn(cfg, s, Place(b, i, t3), u, i, w);
    RunInv(cfg, sch);
    OffRegistry(s.registry, i);
  }

  lemma OffRegistry(registry: seq<nat>, i: nat)
    requires Distinct(registry)
    ensures Distinct(Without(registry, i)) && forall x :: x in Without(registry, i) <==> x in registry && x != i
  {
    WithoutDistinct(registry, i);
    forall x ensures x in Without(registry, i) <==> x in registry && x != i {
      if x >= 0 {
        WithoutMember(registry, i, x);
      }
    }
  }
}
