/** What every interleaving of the three-tier pool keeps: facts about each thread's
    own cache, and the registry that Clear walks. */
module TlsInvariant {
  import opened Ring
  import opened TlsPool

  /** The batch slots from lo up to hi are empty. */
  ghost predicate NoneIn(batch: seq<Option<nat>>, lo: nat, hi: nat) {
    forall j :: lo <= j < hi && j < |batch| ==> batch[j] == None
  }

  ghost predicate Bare(t: Thread) {
    t.fast == None && NoneIn(t.batch, 0, |t.batch|)
  }

  /** Between taking ownership of the cache and finishing with it. */
  predicate UsesCache(pc: Pc) {
    OnGetCache(pc) || OnPutCache(pc) || pc.Fetch? || pc.Register?
  }

  predicate Leaving(pc: Pc) {
    pc.ExitFast? || pc.ExitSlot? || (pc.Give? && pc.exiting) || pc.Unregister? || pc.Gone?
  }

  /** What a program counter says about the thread's cache: indices in bounds, the
      part of the batch array that a scan has emptied, and the sizes of local arrays. */
  ghost predicate PcOk(cfg: Config, t: Thread) {
    match t.pc
    case PopTry(c) => c <= |t.batch|
    case PopTake(c) => 0 < c <= |t.batch|
    case PopScan(i) => i <= |t.batch| && NoneIn(t.batch, 0, i)
    case Fetch(out, target, _) => |out| <= target <= |t.batch| && NoneIn(t.batch, 0, |t.batch|)
    case Refill(out, i) => 0 < |out| <= |t.batch| && i <= |t.batch| && NoneIn(t.batch, i, |t.batch|)
    case PushAt(_, limit, c) => c < limit <= |t.batch| && t.count < |t.batch|
    case PushScan(_, limit, i) => i <= limit <= |t.batch| && t.count < |t.batch|
    case Bump => t.count < |t.batch|
    case BumpClamp => false
    case Drain(_, out, i) => |out| <= i <= |t.batch| && NoneIn(t.batch, 0, i)
    case ExitSlot(out, j) => |out| <= j + 1 && j <= |t.batch| && t.fast == None && NoneIn(t.batch, 0, j)
    case Give(items, exiting) => |items| <= |t.batch| + 1 && (exiting ==> Bare(t))
    case Unregister => Bare(t)
    case Gone => Bare(t)
    case ExitBegin => t.owner == Here
    case Register(carried) => |carried| <= 1
    case _ => true
  }

  ghost predicate Local(cfg: Config, t: Thread) {
    && |t.batch| == Capacity(cfg) >= 2
    && t.count <= |t.batch|
    && PcOk(cfg, t)
    && (UsesCache(t.pc) ==> t.owner == Here)
    && (Leaving(t.pc) ==> t.owner != Here)
    && (t.owner != Here && !Leaving(t.pc) ==> Bare(t))
  }

  /** Caches that Clear may reach: owned and registered, or on the way out. */
  predicate Listed(t: Thread) {
    (t.owner == Here && !t.pc.Register?) || (Leaving(t.pc) && !t.pc.Gone?)
  }

  predicate HoldsLock(pc: Pc) {
    pc.ClearOwner? || pc.ClearFast? || pc.ClearSlot?
  }

  /** Two stages of a thread that look the same to the registry and its lock. */
  predicate Alike(t: Thread, u: Thread) {
    Listed(t) == Listed(u) && HoldsLock(t.pc) == HoldsLock(u.pc)
  }

  // ----- own steps -----

  lemma EffectiveBounds(cfg: Config, size: nat)
    requires cfg.batch > 0
    ensures 1 <= Effective(cfg, size) <= Capacity(cfg)
    ensures 2 * Effective(cfg, size) + 1 >= cfg.batch
    ensures 1 <= size && cfg.batch <= 2 * size + 1 && size <= 2 * cfg.batch ==> Effective(cfg, size) == size
    ensures size > 2 * cfg.batch ==> Effective(cfg, size) == 2 * cfg.batch
    ensures 2 * size + 1 < cfg.batch ==> Effective(cfg, size) <= cfg.batch / 2
  {
  }

  lemma GetLocal(cfg: Config, t: Thread, fail: bool, pick: nat)
    requires cfg.batch > 0 && Local(cfg, t) && OnGetCache(t.pc)
    ensures Local(cfg, GetStep(cfg, t, fail, pick)) && Alike(t, GetStep(cfg, t, fail, pick))
  {
    EffectiveBounds(cfg, pick);
  }

  lemma PutBegins(cfg: Config, t: Thread, pick: nat)
    requires cfg.batch > 0 && Local(cfg, t) && (t.pc.FastGive? || t.pc.PushLook?)
    ensures Local(cfg, PutStep(cfg, t, pick)) && Alike(t, PutStep(cfg, t, pick))
  {
    EffectiveBounds(cfg, pick);
  }

  lemma PutPushes(cfg: Config, t: Thread, pick: nat)
    requires Local(cfg, t) && (t.pc.PushAt? || t.pc.PushScan?)
    ensures Local(cfg, PutStep(cfg, t, pick)) && Alike(t, PutStep(cfg, t, pick))
  {
  }

  lemma PutEnds(cfg: Config, t: Thread, pick: nat)
    requires Local(cfg, t) && (t.pc.Bump? || t.pc.BumpClamp? || t.pc.Drain?)
    ensures Local(cfg, PutStep(cfg, t, pick)) && Alike(t, PutStep(cfg, t, pick))
  {
  }

  lemma PutLocal(cfg: Config, t: Thread, pick: nat)
    requires cfg.batch > 0 && Local(cfg, t) && OnPutCache(t.pc)
    ensures Local(cfg, PutStep(cfg, t, pick)) && Alike(t, PutStep(cfg, t, pick))
  {
    if t.pc.FastGive? || t.pc.PushLook? {
      PutBegins(cfg, t, pick);
    } else if t.pc.PushAt? || t.pc.PushScan? {
      PutPushes(cfg, t, pick);
    } else {
      PutEnds(cfg, t, pick);
    }
  }

  lemma BeginLocal(cfg: Config, t: Thread)
    requires Local(cfg, t) && (t.pc.GetBegin? || t.pc.PutBegin?)
    ensures Local(cfg, OwnerStep(t)) && Alike(t, OwnerStep(t))
  {
  }

  lemma LeaveLocal(cfg: Config, t: Thread)
    requires Local(cfg, t) && (t.pc.ExitBegin? || t.pc.ExitFast? || t.pc.ExitSlot?)
    ensures Local(cfg, OwnerStep(t)) && Alike(t, OwnerStep(t))
  {
  }

  lemma OwnerLocal(cfg: Config, t: Thread)
    requires Local(cfg, t) && OnOwner(t.pc)
    ensures Local(cfg, OwnerStep(t)) && Alike(t, OwnerStep(t))
  {
    if t.pc.GetBegin? || t.pc.PutBegin? {
      BeginLocal(cfg, t);
    } else {
      LeaveLocal(cfg, t);
    }
  }

  /** Another thread can only empty slots and zero the count, which harms nothing. */
  ghost predicate Robbed(t: Thread, u: Thread) {
    && u.pc == t.pc && u.owner == t.owner && |u.batch| == |t.batch|
    && (u.fast == t.fast || u.fast == None)
    && (forall j :: 0 <= j < |t.batch| ==> u.batch[j] == t.batch[j] || u.batch[j] == None)
    && (u.count == t.count || u.count == 0)
  }

  lemma RobbedLocal(cfg: Config, t: Thread, u: Thread)
    requires Local(cfg, t) && Robbed(t, u)
    ensures Local(cfg, u)
  {
  }

  // ----- the registry -----

  ghost predicate Distinct(xs: seq<nat>) {
    forall a, b :: 0 <= a < b < |xs| ==> xs[a] != xs[b]
  }

  ghost predicate RegistryOk(s: State) {
    && Distinct(s.registry)
    && (forall i :: i in s.registry ==> i < |s.threads|)
    && (forall i :: 0 <= i < |s.threads| ==> (i in s.registry <==> Listed(s.threads[i])))
  }

  ghost predicate LockOk(s: State) {
    && (forall i :: 0 <= i < |s.threads| ==> (HoldsLock(s.threads[i].pc) <==> s.lock == Some(i)))
    && (forall i :: 0 <= i < |s.threads| && (s.threads[i].pc.ClearFast? || s.threads[i].pc.ClearSlot?) ==>
          s.threads[i].pc.k < |s.registry|)
  }

  ghost predicate AllLocal(cfg: Config, s: State) {
    forall i :: 0 <= i < |s.threads| ==> Local(cfg, s.threads[i])
  }

  ghost predicate Inv(cfg: Config, s: State) {
    AllLocal(cfg, s) && RegistryOk(s) && LockOk(s)
  }

  lemma {:induction false} WithoutMember(xs: seq<nat>, i: nat, k: nat)
    requires Distinct(xs)
    ensures k in Without(xs, i) <==> k in xs && k != i
  {
    if xs != [] {
      DistinctTail(xs);
      WithoutMember(xs[1..], i, k);
    }
  }

  lemma DistinctTail(xs: seq<nat>)
    requires Distinct(xs) && xs != []
    ensures Distinct(xs[1..]) && xs[0] !in xs[1..]
  {
    forall a, b | 0 <= a < b < |xs| - 1 ensures xs[1..][a] != xs[1..][b] {
      assert xs[a + 1] != xs[b + 1];
    }
  }

  lemma DistinctCons(x: nat, xs: seq<nat>)
    requires Distinct(xs) && x !in xs
    ensures Distinct([x] + xs)
  {
    var ys := [x] + xs;
    forall a, b | 0 <= a < b < |ys| ensures ys[a] != ys[b] {
      assert ys[b] == xs[b - 1];
      assert a > 0 ==> ys[a] == xs[a - 1];
    }
  }

  lemma {:induction false} WithoutDistinct(xs: seq<nat>, i: nat)
    requires Distinct(xs)
    ensures Distinct(Without(xs, i))
  {
    if xs != [] {
      DistinctTail(xs);
      if xs[0] != i {
        WithoutDistinct(xs[1..], i);
        WithoutMember(xs[1..], i, xs[0]);
        DistinctCons(xs[0], Without(xs[1..], i));
      }
    }
  }

  /** Moving one thread without changing whether it is listed or holds the lock. */
  lemma PlaceOk(cfg: Config, s: State, s': State, i: nat, t: Thread)
    requires Inv(cfg, s) && i < |s.threads| && Local(cfg, t)
    requires s'.threads == s.threads[i := t] && s'.registry == s.registry && s'.lock == s.lock
    requires Alike(s.threads[i], t)
    requires (t.pc.ClearFast? || t.pc.ClearSlot?) ==> t.pc.k < |s.registry|
    ensures Inv(cfg, s')
  {
  }

  lemma StartOk(cfg: Config, s: State, c: Choice)
    requires Inv(cfg, s) && c.tid < |s.threads| && s.threads[c.tid].pc.Ready?
    ensures Inv(cfg, StartStep(s, c))
  {
    var t := s.threads[c.tid];
    match c.act
    case CallGet => IdleOk(cfg, s, StartStep(s, c), c.tid, t.(pc := GetBegin));
    case CallPut =>
      if c.pick < |s.hands| {
        IdleOk(cfg, s, StartStep(s, c), c.tid, t.(pc := PutBegin(s.hands[c.pick])));
      }
    case CallClear => IdleOk(cfg, s, StartStep(s, c), c.tid, t.(pc := ClearLock));
    case Make => IdleOk(cfg, s, StartStep(s, c), c.tid, t);
    case ThreadExit =>
      PlaceOk(cfg, s, StartStep(s, c), c.tid, t.(pc := if t.owner == Here then ExitBegin else Gone));
    case OtherPool =>
      if t.owner != Here {
        PlaceOk(cfg, s, StartStep(s, c), c.tid, t.(owner := if t.owner == Nobody then Elsewhere else Nobody));
      }
  }

  /** An idle thread begins a call. */
  lemma IdleOk(cfg: Config, s: State, s': State, i: nat, t: Thread)
    requires Inv(cfg, s) && i < |s.threads| && s.threads[i].pc.Ready?
    requires t.pc.GetBegin? || t.pc.PutBegin? || t.pc.ClearLock? || t.pc.Ready?
    requires t == s.threads[i].(pc := t.pc)
    requires s'.threads == s.threads[i := t] && s'.registry == s.registry && s'.lock == s.lock
    ensures Inv(cfg, s')
  {
    PlaceOk(cfg, s, s', i, t);
  }

  lemma FetchOk(cfg: Config, s: State, i: nat, fail: bool)
    requires ConfigOk(cfg) && Inv(cfg, s) && i < |cfg.home| == |s.threads| && |s.shards| == cfg.shards
    requires s.threads[i].pc.Fetch?
    ensures Inv(cfg, FetchStep(cfg, s, i, fail))
  {
    var s' := FetchStep(cfg, s, i, fail);
    PlaceOk(cfg, s, s', i, s'.threads[i]);
  }

  lemma FetchOneOk(cfg: Config, s: State, i: nat, fail: bool)
    requires ConfigOk(cfg) && Inv(cfg, s) && i < |cfg.home| == |s.threads| && |s.shards| == cfg.shards
    requires s.threads[i].pc.FetchOne?
    ensures Inv(cfg, FetchOneStep(cfg, s, i, fail))
  {
    var s' := FetchOneStep(cfg, s, i, fail);
    PlaceOk(cfg, s, s', i, s'.threads[i]);
  }

  lemma RegisterOk(cfg: Config, s: State, i: nat)
    requires ConfigOk(cfg) && Inv(cfg, s) && i < |cfg.home| == |s.threads| && |s.shards| == cfg.shards
    requires s.threads[i].pc.Register?
    ensures Inv(cfg, SharedStep(cfg, s, i))
  {
    assert i !in s.registry;
  }

  lemma UnregisterOk(cfg: Config, s: State, i: nat)
    requires ConfigOk(cfg) && Inv(cfg, s) && i < |cfg.home| == |s.threads| && |s.shards| == cfg.shards
    requires s.threads[i].pc.Unregister?
    ensures Inv(cfg, SharedStep(cfg, s, i))
  {
    WithoutDistinct(s.registry, i);
    forall k: nat ensures k in Without(s.registry, i) <==> k in s.registry && k != i {
      WithoutMember(s.registry, i, k);
    }
  }

  lemma ReturnOk(cfg: Config, s: State, i: nat)
    requires ConfigOk(cfg) && Inv(cfg, s) && i < |cfg.home| == |s.threads| && |s.shards| == cfg.shards
    requires s.threads[i].pc.Returning?
    ensures Inv(cfg, SharedStep(cfg, s, i))
  {
    PlaceOk(cfg, s, SharedStep(cfg, s, i), i, s.threads[i].(pc := Ready));
  }

  lemma GiveOk(cfg: Config, s: State, i: nat)
    requires ConfigOk(cfg) && Inv(cfg, s) && i < |cfg.home| == |s.threads| && |s.shards| == cfg.shards
    requires s.threads[i].pc.Give?
    ensures Inv(cfg, SharedStep(cfg, s, i))
  {
    var t := s.threads[i];
    PlaceOk(cfg, s, SharedStep(cfg, s, i), i, t.(pc := if t.pc.exiting then Unregister else Ready));
  }

  lemma ClearShardOk(cfg: Config, s: State, i: nat)
    requires ConfigOk(cfg) && Inv(cfg, s) && i < |cfg.home| == |s.threads| && |s.shards| == cfg.shards
    requires s.threads[i].pc.ClearShards?
    ensures Inv(cfg, SharedStep(cfg, s, i))
  {
    var t := s.threads[i];
    var pc := if t.pc.k >= |s.shards| then Ready else ClearShards(t.pc.k + 1);
    PlaceOk(cfg, s, SharedStep(cfg, s, i), i, t.(pc := pc));
  }

  lemma SharedOk(cfg: Config, s: State, i: nat)
    requires ConfigOk(cfg) && Inv(cfg, s) && i < |cfg.home| == |s.threads| && |s.shards| == cfg.shards
    ensures Inv(cfg, SharedStep(cfg, s, i))
  {
    var pc := s.threads[i].pc;
    if pc.Register? {
      RegisterOk(cfg, s, i);
    } else if pc.Unregister? {
      UnregisterOk(cfg, s, i);
    } else if pc.Returning? {
      ReturnOk(cfg, s, i);
    } else if pc.Give? {
      GiveOk(cfg, s, i);
    } else if pc.ClearShards? {
      ClearShardOk(cfg, s, i);
    }
  }

  /** Taking from the cache at position k of the registry. */
  lemma RobOk(cfg: Config, s: State, k: nat, u: Thread)
    requires Inv(cfg, s) && k < |s.registry| && s.registry[k] < |s.threads| && Robbed(s.threads[s.registry[k]], u)
    ensures Inv(cfg, Place(s, s.registry[k], u))
  {
    var i := s.registry[k];
    RobbedLocal(cfg, s.threads[i], u);
    PlaceOk(cfg, s, Place(s, i, u), i, u);
  }

  /** The holder of the lock moves on within the walk. */
  lemma WalkOk(cfg: Config, s: State, s': State, i: nat, pc: Pc)
    requires Inv(cfg, s) && i < |s.threads| && HoldsLock(s.threads[i].pc) && HoldsLock(pc)
    requires (pc.ClearFast? || pc.ClearSlot?) ==> pc.k < |s.registry|
    requires s'.threads == s.threads[i := s.threads[i].(pc := pc)] && s'.registry == s.registry && s'.lock == s.lock
    ensures Inv(cfg, s')
  {
    PlaceOk(cfg, s, s', i, s.threads[i].(pc := pc));
  }

  lemma ClearOk(cfg: Config, s: State, i: nat)
    requires Inv(cfg, s) && i < |s.threads| && Clearing(s.threads[i].pc)
    ensures Inv(cfg, ClearStep(s, i))
  {
    var s' := ClearStep(s, i);
    match s.threads[i].pc
    case ClearLock =>
      LockingOk(cfg, s, i);
    case ClearOwner(k) =>
      if k >= |s.registry| {
        UnlockingOk(cfg, s, i);
      } else {
        WalkOk(cfg, s, s', i, s'.threads[i].pc);
      }
    case ClearFast(k) =>
      var j := s.registry[k];
      assert j in s.registry;
      RobOk(cfg, s, k, s.threads[j].(fast := None));
      WalkOk(cfg, Place(s, j, s.threads[j].(fast := None)), s', i, ClearSlot(k, 0));
    case ClearSlot(k, j) =>
      assert s.registry[k] in s.registry;
      SlotOk(cfg, s, i);
  }

  lemma LockingOk(cfg: Config, s: State, i: nat)
    requires Inv(cfg, s) && i < |s.threads| && s.threads[i].pc.ClearLock?
    ensures Inv(cfg, ClearStep(s, i))
  {
  }

  lemma UnlockingOk(cfg: Config, s: State, i: nat)
    requires Inv(cfg, s) && i < |s.threads| && s.threads[i].pc.ClearOwner? && s.threads[i].pc.k >= |s.registry|
    ensures Inv(cfg, ClearStep(s, i))
  {
  }

  lemma SlotOk(cfg: Config, s: State, i: nat)
    requires Inv(cfg, s) && i < |s.threads| && s.threads[i].pc.ClearSlot?
    requires s.registry[s.threads[i].pc.k] < |s.threads|
    ensures Inv(cfg, ClearStep(s, i))
  {
    var ClearSlot(k, j) := s.threads[i].pc;
    var c := s.registry[k];
    var u := s.threads[c];
    var v := if j < |u.batch| then u.(batch := u.batch[j := None]) else u.(count := 0);
    RobOk(cfg, s, k, v);
    WalkOk(cfg, Place(s, c, v), ClearStep(s, i), i, if j < |u.batch| then ClearSlot(k, j + 1) else ClearOwner(k + 1));
  }

  lemma OwnOk(cfg: Config, s: State, i: nat, t: Thread)
    requires Inv(cfg, s) && i < |s.threads| && Local(cfg, t) && Alike(s.threads[i], t) && !HoldsLock(s.threads[i].pc)
    ensures Inv(cfg, Place(s, i, t))
  {
    PlaceOk(cfg, s, Place(s, i, t), i, t);
  }

  lemma InvNext(cfg: Config, s: State, c: Choice)
    requires ConfigOk(cfg) && Inv(cfg, s) && |cfg.home| == |s.threads| && |s.shards| == cfg.shards
    ensures Inv(cfg, Next(cfg, s, c))
  {
    if c.tid < |s.threads| {
      var t := s.threads[c.tid];
      if t.pc.Ready? {
        StartOk(cfg, s, c);
      } else if OnGetCache(t.pc) {
        GetLocal(cfg, t, c.fail, c.pick);
        OwnOk(cfg, s, c.tid, GetStep(cfg, t, c.fail, c.pick));
      } else if OnPutCache(t.pc) {
        PutLocal(cfg, t, c.pick);
        OwnOk(cfg, s, c.tid, PutStep(cfg, t, c.pick));
      } else if OnOwner(t.pc) {
        OwnerLocal(cfg, t);
        OwnOk(cfg, s, c.tid, OwnerStep(t));
      } else if t.pc.Fetch? {
        FetchOk(cfg, s, c.tid, c.fail);
      } else if t.pc.FetchOne? {
        FetchOneOk(cfg, s, c.tid, c.fail);
      } else if Clearing(t.pc) {
        ClearOk(cfg, s, c.tid);
      } else {
        SharedOk(cfg, s, c.tid);
      }
    }
  }

  lemma {:induction false} RunInv(cfg: Config, sch: seq<Choice>)
    requires ConfigOk(cfg)
    ensures Inv(cfg, Run(cfg, sch))
  {
    if sch != [] {
      RunInv(cfg, sch[..|sch| - 1]);
      InvNext(cfg, Run(cfg, sch[..|sch| - 1]), sch[|sch| - 1]);
    }
  }

  /** The clamp of the batch count is never needed: only its own thread raises a count, by one from
      below the limit, and another thread can only set it to zero in between. */
  lemma ClampIsUnused(cfg: Config, sch: seq<Choice>, i: nat)
    requires ConfigOk(cfg) && i < |cfg.home|
    ensures var t := Run(cfg, sch).threads[i];
            !t.pc.BumpClamp? && t.count <= Capacity(cfg) && (t.pc.Bump? ==> t.count < Capacity(cfg))
  {
    RunInv(cfg, sch);
    assert Local(cfg, Run(cfg, sch).threads[i]);
  }
}
