/** Put running alone: the object goes into the fast slot if that is empty, else into a slot of
    the batch below the adaptive limit, else with the whole batch to the thread's own shard. */
module TlsPut {
  import opened Ring
  import opened PoolShard
  import opened TlsPool
  import opened TlsInvariant
  import opened TlsSolo

  /** Slot j takes the object: the one at the count, or the lowest free one below the limit. */
  ghost predicate Takes(t: Thread, limit: nat, j: nat) {
    && t.count < limit && t.count < |t.batch| && j < |t.batch| && t.batch[j].None?
    && (j == t.count
        || (t.batch[t.count].Some? && j < limit && forall m :: 0 <= m < j ==> t.batch[m].Some?))
  }

  /** No slot takes it: the count is at the limit, or all slots in question are occupied. */
  ghost predicate Full(t: Thread, limit: nat) {
    t.count < limit ==>
      && t.count < |t.batch| && t.batch[t.count].Some?
      && forall m :: 0 <= m < limit && m < |t.batch| ==> t.batch[m].Some?
  }

  lemma {:induction false} LowestFree(t: Thread, limit: nat, k: nat) returns (j: nat)
    requires k <= limit <= |t.batch| && forall m :: 0 <= m < k ==> t.batch[m].Some?
    ensures k <= j <= limit && (j < limit ==> t.batch[j].None?) && forall m :: 0 <= m < j ==> t.batch[m].Some?
    decreases limit - k
  {
    if k == limit || t.batch[k].None? {
      j := k;
    } else {
      j := LowestFree(t, limit, k + 1);
    }
  }

  // ----- into the batch -----

  /** The thread with the object in slot j. */
  function Pushed(t: Thread, p: nat, j: nat): Thread
    requires j < |t.batch|
  {
    t.(batch := t.batch[j := Some(p)], count := t.count + 1, pc := Ready)
  }

  lemma {:induction false} ScanFree(cfg: Config, s: State, i: nat, w: Will, t: Thread, p: nat, limit: nat, k: nat,
                                    j: nat)
    requires Fits(cfg, s, i) && t.pc == PushScan(p, limit, k) && k <= j < limit <= |t.batch| && t.batch[j].None?
    requires forall m :: k <= m < j ==> t.batch[m].Some?
    ensures Leads(cfg, Place(s, i, t), Place(s, i, t.(batch := t.batch[j := Some(p)], pc := Bump)), i, w)
    decreases j - k
  {
    PutCacheStep(cfg, s, i, w, t);
    if k < j {
      var t' := t.(pc := PushScan(p, limit, k + 1));
      ScanFree(cfg, s, i, w, t', p, limit, k + 1, j);
      ThenPlace(cfg, s, i, w, t, t', t.(batch := t.batch[j := Some(p)], pc := Bump));
    }
  }

  lemma {:induction false} ScanFull(cfg: Config, s: State, i: nat, w: Will, t: Thread, p: nat, limit: nat, k: nat)
    requires Fits(cfg, s, i) && t.pc == PushScan(p, limit, k) && k <= limit <= |t.batch|
    requires forall m :: k <= m < limit ==> t.batch[m].Some?
    ensures Leads(cfg, Place(s, i, t), Place(s, i, t.(pc := Drain(p, [], 0))), i, w)
    decreases limit - k
  {
    PutCacheStep(cfg, s, i, w, t);
    if k < limit {
      var t' := t.(pc := PushScan(p, limit, k + 1));
      ScanFull(cfg, s, i, w, t', p, limit, k + 1);
      ThenPlace(cfg, s, i, w, t, t', t.(pc := Drain(p, [], 0)));
    }
  }

  lemma Bumps(cfg: Config, s: State, i: nat, w: Will, t: Thread, p: nat, j: nat)
    requires Fits(cfg, s, i) && j < |t.batch| && t.count < |t.batch|
    requires Leads(cfg, s, Place(s, i, t.(batch := t.batch[j := Some(p)], pc := Bump)), i, w)
    ensures Leads(cfg, s, Place(s, i, Pushed(t, p, j)), i, w)
  {
    var t' := t.(batch := t.batch[j := Some(p)], pc := Bump);
    PutCacheStep(cfg, s, i, w, t');
    LeadsOn(cfg, s, Place(s, i, t'), Place(s, i, Pushed(t, p, j)), i, w);
  }

  /** A thread whose fast slot is occupied, at its look at the batch. */
  ghost predicate AtPush(cfg: Config, b: State, i: nat, p: nat) {
    && Fits(cfg, b, i) && b.threads[i].pc == PushLook(p)
    && |b.threads[i].batch| == Capacity(cfg) && b.threads[i].count <= |b.threads[i].batch|
  }

  /** The first look: at the count, or straight to draining. */
  lemma Looks(cfg: Config, b: State, i: nat, w: Will, p: nat)
    requires AtPush(cfg, b, i, p)
    ensures var t, limit := b.threads[i], Effective(cfg, w.size);
            Leads(cfg, b, Place(b, i, t.(pc := if t.count >= limit then Drain(p, [], 0)
                                               else PushAt(p, limit, t.count))), i, w)
  {
    EffectiveBounds(cfg, w.size);
    PlaceSelf(b, i);
    PutCacheStep(cfg, b, i, w, b.threads[i]);
  }

  /** The slot at the count is occupied, so the scan begins. */
  lemma ScanBegins(cfg: Config, b: State, i: nat, w: Will, p: nat)
    requires AtPush(cfg, b, i, p) && b.threads[i].count < Effective(cfg, w.size)
    requires b.threads[i].count < |b.threads[i].batch| && b.threads[i].batch[b.threads[i].count].Some?
    ensures Leads(cfg, b, Place(b, i, b.threads[i].(pc := PushScan(p, Effective(cfg, w.size), 0))), i, w)
  {
    var t, limit := b.threads[i], Effective(cfg, w.size);
    Looks(cfg, b, i, w, p);
    PutCacheStep(cfg, b, i, w, t.(pc := PushAt(p, limit, t.count)));
    LeadsOn(cfg, b, Place(b, i, t.(pc := PushAt(p, limit, t.count))), Place(b, i, t.(pc := PushScan(p, limit, 0))),
            i, w);
  }

  lemma PushAlone(cfg: Config, b: State, i: nat, w: Will, p: nat, j: nat)
    requires AtPush(cfg, b, i, p) && Takes(b.threads[i], Effective(cfg, w.size), j)
    ensures Leads(cfg, b, Place(b, i, Pushed(b.threads[i], p, j)), i, w)
  {
    var t, limit := b.threads[i], Effective(cfg, w.size);
    var end := t.(batch := t.batch[j := Some(p)], pc := Bump);
    EffectiveBounds(cfg, w.size);
    if j == t.count {
      Looks(cfg, b, i, w, p);
      PutCacheStep(cfg, b, i, w, t.(pc := PushAt(p, limit, t.count)));
      LeadsOn(cfg, b, Place(b, i, t.(pc := PushAt(p, limit, t.count))), Place(b, i, end), i, w);
    } else {
      ScanBegins(cfg, b, i, w, p);
      ScanFree(cfg, b, i, w, t.(pc := PushScan(p, limit, 0)), p, limit, 0, j);
      LeadsOn(cfg, b, Place(b, i, t.(pc := PushScan(p, limit, 0))), Place(b, i, end), i, w);
    }
    Bumps(cfg, b, i, w, t, p, j);
  }

  lemma PushFails(cfg: Config, b: State, i: nat, w: Will, p: nat)
    requires AtPush(cfg, b, i, p) && Full(b.threads[i], Effective(cfg, w.size))
    ensures Leads(cfg, b, Place(b, i, b.threads[i].(pc := Drain(p, [], 0))), i, w)
  {
    var t, limit := b.threads[i], Effective(cfg, w.size);
    EffectiveBounds(cfg, w.size);
    if t.count >= limit {
      Looks(cfg, b, i, w, p);
    } else {
      ScanBegins(cfg, b, i, w, p);
      ScanFull(cfg, b, i, w, t.(pc := PushScan(p, limit, 0)), p, limit, 0);
      LeadsOn(cfg, b, Place(b, i, t.(pc := PushScan(p, limit, 0))), Place(b, i, t.(pc := Drain(p, [], 0))), i, w);
    }
  }

  // ----- to the shard -----

  /** The thread with its batch collected for the shard, the new object last. */
  function Drained(t: Thread, items: seq<nat>): Thread {
    t.(batch := NoSlots(|t.batch|), count := 0, pc := Give(items, false))
  }

  /** k slots of the batch are drained: their objects are in out, the others are still there. */
  ghost predicate Draining(t: Thread, batch: seq<Option<nat>>, p: nat, k: nat) {
    && k <= |batch| == |t.batch| && t.pc == Drain(p, Given(batch[..k]), k) && |Given(batch[..k])| <= k
    && NoneIn(t.batch, 0, k) && forall m :: k <= m < |batch| ==> t.batch[m] == batch[m]
  }

  lemma DrainNext(cfg: Config, t: Thread, batch: seq<Option<nat>>, w: Will, p: nat, k: nat)
    requires Draining(t, batch, p, k) && k < |batch|
    ensures Draining(PutStep(cfg, t, w.size), batch, p, k + 1)
    ensures PutStep(cfg, t, w.size) == t.(batch := PutStep(cfg, t, w.size).batch, pc := PutStep(cfg, t, w.size).pc)
  {
    assert batch[..k + 1][..k] == batch[..k];
    assert batch[..k + 1][k] == t.batch[k];
  }

  lemma {:induction false} DrainAlone(cfg: Config, s: State, i: nat, w: Will, t: Thread, batch: seq<Option<nat>>,
                                      p: nat, k: nat)
    requires Fits(cfg, s, i) && Draining(t, batch, p, k)
    ensures Leads(cfg, Place(s, i, t), Place(s, i, Drained(t, Given(batch) + [p])), i, w)
    decreases |batch| - k
  {
    var t' := PutStep(cfg, t, w.size);
    PutCacheStep(cfg, s, i, w, t);
    if k < |batch| {
      DrainNext(cfg, t, batch, w, p, k);
      DrainAlone(cfg, s, i, w, t', batch, p, k + 1);
      ThenPlace(cfg, s, i, w, t, t', Drained(t, Given(batch) + [p]));
    } else {
      assert batch[..k] == batch;
      assert t.batch == NoSlots(|t.batch|);
    }
  }

  /** The own shard gets the objects. */
  lemma GiveAlone(cfg: Config, s: State, b: State, i: nat, w: Will, t: Thread, items: seq<nat>)
    requires Fits(cfg, b, i) && t.pc == Give(items, false) && Leads(cfg, s, Place(b, i, t), i, w)
    ensures var k := cfg.home[i];
            Leads(cfg, s, Place(b, i, t.(pc := Ready)).(shards := b.shards[k := b.shards[k] + items]), i, w)
  {
    var k := cfg.home[i];
    var u := Place(b, i, t.(pc := Ready)).(shards := b.shards[k := b.shards[k] + items]);
    Replaced(b, i, t, t.(pc := Ready));
    LeadsOne(cfg, Place(b, i, t), u, i, w);
    LeadsOn(cfg, s, Place(b, i, t), u, i, w);
  }

  // ----- the whole call -----

  /** What Put of p does for a thread whose cache is this pool's, from b to u. */
  ghost predicate CachedPut(cfg: Config, b: State, u: State, i: nat, w: Will, p: nat)
    requires Fits(cfg, b, i)
  {
    var t, limit, k := b.threads[i], Effective(cfg, w.size), cfg.home[i];
    if t.fast.None? then u == Place(b, i, t.(fast := Some(p), pc := Ready))
    else if Full(t, limit) then
      u == Place(b, i, t.(batch := NoSlots(|t.batch|), count := 0, pc := Ready))
           .(shards := b.shards[k := b.shards[k] + Given(t.batch) + [p]])
    else exists j: nat :: Takes(t, limit, j) && u == Place(b, i, Pushed(t, p, j))
  }

  /** A thread at its first step, with a count that fits. */
  ghost predicate AtGive(cfg: Config, b: State, i: nat, p: nat) {
    && Fits(cfg, b, i) && b.threads[i].pc == FastGive(p)
    && |b.threads[i].batch| == Capacity(cfg) && b.threads[i].count <= |b.threads[i].batch|
  }

  /** A batch that is not full has a slot for the object. */
  lemma SomeTakes(cfg: Config, t: Thread, limit: nat) returns (j: nat)
    requires limit <= |t.batch| && !Full(t, limit)
    ensures Takes(t, limit, j)
  {
    if t.batch[t.count].None? {
      j := t.count;
    } else {
      j := LowestFree(t, limit, 0);
    }
  }

  lemma FlushAlone(cfg: Config, b: State, i: nat, w: Will, p: nat)
    requires AtPush(cfg, b, i, p) && Full(b.threads[i], Effective(cfg, w.size))
    ensures var t, k := b.threads[i], cfg.home[i];
            Leads(cfg, b, Place(b, i, t.(batch := NoSlots(|t.batch|), count := 0, pc := Ready))
                          .(shards := b.shards[k := b.shards[k] + Given(t.batch) + [p]]), i, w)
  {
    var t, k := b.threads[i], cfg.home[i];
    var items := Given(t.batch) + [p];
    PushFails(cfg, b, i, w, p);
    assert t.batch[..0] == [];
    DrainAlone(cfg, b, i, w, t.(pc := Drain(p, [], 0)), t.batch, p, 0);
    LeadsOn(cfg, b, Place(b, i, t.(pc := Drain(p, [], 0))), Place(b, i, Drained(t, items)), i, w);
    GiveAlone(cfg, b, b, i, w, Drained(t, items), items);
    assert b.shards[k] + items == b.shards[k] + Given(t.batch) + [p];
  }

  lemma BatchPut(cfg: Config, b: State, i: nat, w: Will, p: nat) returns (u: State)
    requires AtPush(cfg, b, i, p) && b.threads[i].fast.Some?
    ensures Leads(cfg, b, u, i, w) && CachedPut(cfg, b, u, i, w, p)
  {
    var t, limit, k := b.threads[i], Effective(cfg, w.size), cfg.home[i];
    EffectiveBounds(cfg, w.size);
    if Full(t, limit) {
      FlushAlone(cfg, b, i, w, p);
      u := Place(b, i, t.(batch := NoSlots(|t.batch|), count := 0, pc := Ready))
           .(shards := b.shards[k := b.shards[k] + Given(t.batch) + [p]]);
    } else {
      var j := SomeTakes(cfg, t, limit);
      PushAlone(cfg, b, i, w, p, j);
      u := Place(b, i, Pushed(t, p, j));
    }
  }

  /** CachedPut does not depend on where in the call the thread is. */
  lemma PutFrom(cfg: Config, b: State, u: State, i: nat, w: Will, p: nat, pc: Pc)
    requires Fits(cfg, b, i) && CachedPut(cfg, Goto(b, i, pc), u, i, w, p)
    ensures CachedPut(cfg, b, u, i, w, p)
  {
    var t, c := b.threads[i], Goto(b, i, pc);
    forall v: Thread ensures Place(c, i, v) == Place(b, i, v) {
      Replaced(b, i, t.(pc := pc), v);
    }
    if t.fast.Some? && !Full(t, Effective(cfg, w.size)) {
      var j: nat :| Takes(c.threads[i], Effective(cfg, w.size), j) && u == Place(c, i, Pushed(c.threads[i], p, j));
      assert Takes(t, Effective(cfg, w.size), j);
    }
  }

  lemma CachePut(cfg: Config, b: State, i: nat, w: Will, p: nat) returns (u: State)
    requires AtGive(cfg, b, i, p)
    ensures Leads(cfg, b, u, i, w) && CachedPut(cfg, b, u, i, w, p)
  {
    var t := b.threads[i];
    PlaceSelf(b, i);
    PutCacheStep(cfg, b, i, w, t);
    if t.fast.None? {
      u := Place(b, i, t.(fast := Some(p), pc := Ready));
    } else {
      var c := Goto(b, i, PushLook(p));
      u := BatchPut(cfg, c, i, w, p);
      LeadsOn(cfg, b, c, u, i, w);
      PutFrom(cfg, b, u, i, w, p, PushLook(p));
    }
  }

  /** The state once the object has left the caller's hands. */
  function Handed(s: State, n: nat): State
    requires n < |s.hands|
  {
    s.(hands := s.hands[..n] + s.hands[n + 1..])
  }

  lemma BeginPut(cfg: Config, s: State, i: nat, w: Will, p: nat)
    requires Fits(cfg, s, i) && MayCall(s, i) && w.act == CallPut && w.held < |s.hands| && p == s.hands[w.held]
    ensures Leads(cfg, s, Place(Handed(s, w.held), i, OwnerStep(s.threads[i].(pc := PutBegin(p)))), i, w)
  {
    var t, h := s.threads[i].(pc := PutBegin(p)), Handed(s, w.held);
    LeadsOne(cfg, s, Place(h, i, t), i, w);
    OwnStep(cfg, h, i, w, t);
    LeadsOn(cfg, s, Place(h, i, t), Place(h, i, OwnerStep(t)), i, w);
  }

  lemma EnterPut(cfg: Config, s: State, i: nat, w: Will, p: nat)
    requires Fits(cfg, s, i) && MayCall(s, i) && w.act == CallPut && w.held < |s.hands| && p == s.hands[w.held]
    requires s.threads[i].owner != Elsewhere
    ensures Leads(cfg, s, Goto(Entered(Handed(s, w.held), i), i, FastGive(p)), i, w)
  {
    BeginPut(cfg, s, i, w, p);
    var t, h := s.threads[i], Handed(s, w.held);
    if t.owner == Nobody {
      var t1, t2 := t.(owner := Here, pc := Register([p])), t.(owner := Here, pc := FastGive(p));
      var b := Place(h, i, t2).(registry := h.registry + [i]);
      Replaced(h, i, t1, t2);
      Replaced(h, i, t.(owner := Here), t2);
      LeadsOne(cfg, Place(h, i, t1), b, i, w);
      LeadsOn(cfg, s, Place(h, i, t1), b, i, w);
    }
  }

  /** The effect of the whole call; a cache of another pool is passed by. */
  ghost predicate PutDone(cfg: Config, s: State, u: State, i: nat, w: Will)
    requires Fits(cfg, s, i) && w.held < |s.hands|
  {
    var p, h, k := s.hands[w.held], Handed(s, w.held), cfg.home[i];
    if s.threads[i].owner == Elsewhere then u == h.(shards := s.shards[k := s.shards[k] + [p]])
    else CachedPut(cfg, Entered(h, i), u, i, w, p)
  }

  /** Put running alone from any reachable state: it ends, and the object is in the fast slot, in
      a batch slot, or with the drained batch in the thread's own shard. */
  lemma PutAlone(cfg: Config, sch: seq<Choice>, i: nat, w: Will) returns (u: State)
    requires ConfigOk(cfg) && MayCall(Run(cfg, sch), i) && w.act == CallPut && w.held < |Run(cfg, sch).hands|
    ensures Leads(cfg, Run(cfg, sch), u, i, w) && u.threads[i].pc == Ready && PutDone(cfg, Run(cfg, sch), u, i, w)
  {
    var s := Run(cfg, sch);
    var p, h := s.hands[w.held], Handed(s, w.held);
    RunInv(cfg, sch);
    assert Local(cfg, s.threads[i]);
    if s.threads[i].owner == Elsewhere {
      BeginPut(cfg, s, i, w, p);
      GiveAlone(cfg, s, h, i, w, s.threads[i].(pc := Give([p], false)), [p]);
      PlaceSelf(h, i);
      u := h.(shards := s.shards[cfg.home[i] := s.shards[cfg.home[i]] + [p]]);
    } else {
      var b := Goto(Entered(h, i), i, FastGive(p));
      EnterPut(cfg, s, i, w, p);
      u := CachePut(cfg, b, i, w, p);
      LeadsOn(cfg, s, b, u, i, w);
      PutFrom(cfg, Entered(h, i), u, i, w, p, FastGive(p));
    }
  }
}
