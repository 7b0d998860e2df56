/** Conservation in the three-tier pool: in every interleaving each object is in
    exactly one place, and at most once deleted. */
module TlsConservation {
  import opened Ring
  import opened PoolShard
  import opened TlsPool
  import opened TlsInvariant

  function InSlot(o: Option<nat>, x: nat): nat {
    if o == Some(x) then 1 else 0
  }

  function InSlots(batch: seq<Option<nat>>, x: nat): nat {
    if batch == [] then 0 else InSlot(batch[0], x) + InSlots(batch[1..], x)
  }

  /** Objects an operation in progress holds in its local variables. */
  function InFlight(pc: Pc, x: nat): nat {
    match pc
    case PopFixLook(p) => InSlot(Some(p), x)
    case PopFix(p, _) => InSlot(Some(p), x)
    case Fetch(out, _, _) => Count(out, x)
    case Refill(out, i) => if |out| == 0 then 0 else Count(out[Min(i, |out| - 1)..], x)
    case Returning(p) => InSlot(Some(p), x)
    case PutBegin(p) => InSlot(Some(p), x)
    case FastGive(p) => InSlot(Some(p), x)
    case PushLook(p) => InSlot(Some(p), x)
    case PushAt(p, _, _) => InSlot(Some(p), x)
    case PushScan(p, _, _) => InSlot(Some(p), x)
    case Drain(p, out, _) => InSlot(Some(p), x) + Count(out, x)
    case Give(items, _) => Count(items, x)
    case Register(carried) => Count(carried, x)
    case ExitSlot(out, _) => Count(out, x)
    case _ => 0
  }

  function InThread(t: Thread, x: nat): nat {
    InSlot(t.fast, x) + InSlots(t.batch, x) + InFlight(t.pc, x)
  }

  function InThreads(ts: seq<Thread>, x: nat): nat {
    if ts == [] then 0 else InThread(ts[0], x) + InThreads(ts[1..], x)
  }

  /** The number of places that hold object x. */
  function Places(s: State, x: nat): nat {
    InThreads(s.threads, x) + InShards(s.shards, x) + Count(s.hands, x) + Count(s.deleted, x)
  }

  ghost predicate InOnePlace(s: State, x: nat) {
    Places(s, x) == if x < s.created then 1 else 0
  }

  lemma {:induction false} SlotUpdate(batch: seq<Option<nat>>, i: nat, o: Option<nat>, x: nat)
    requires i < |batch|
    ensures InSlots(batch[i := o], x) + InSlot(batch[i], x) == InSlots(batch, x) + InSlot(o, x)
  {
    if i == 0 {
      assert batch[0 := o][1..] == batch[1..];
    } else {
      SlotUpdate(batch[1..], i - 1, o, x);
      assert batch[i := o][1..] == batch[1..][i - 1 := o];
    }
  }

  lemma {:induction false} ThreadUpdate(ts: seq<Thread>, i: nat, t: Thread, x: nat)
    requires i < |ts|
    ensures InThreads(ts[i := t], x) + InThread(ts[i], x) == InThreads(ts, x) + InThread(t, x)
  {
    if i == 0 {
      assert ts[0 := t][1..] == ts[1..];
    } else {
      ThreadUpdate(ts[1..], i - 1, t, x);
      assert ts[i := t][1..] == ts[1..][i - 1 := t];
    }
  }

  lemma {:induction false} NoSlots(batch: seq<Option<nat>>, x: nat)
    requires forall j :: 0 <= j < |batch| ==> batch[j] == None
    ensures InSlots(batch, x) == 0
  {
    if batch != [] {
      NoSlots(batch[1..], x);
    }
  }

  // ----- own steps move objects between slots and local variables -----

  lemma RefillCount(cfg: Config, t: Thread, x: nat)
    requires Local(cfg, t) && t.pc.Refill?
    ensures InThread(GetStep(cfg, t, false, 0), x) == InThread(t, x)
  {
    var Refill(out, i) := t.pc;
    if i >= |t.batch| {
      assert out[|out| - 1..] == [out[|out| - 1]];
      CountOne(out[|out| - 1], x);
    } else {
      assert t.batch[i] == None;
      SlotUpdate(t.batch, i, if i < |out| - 1 then Some(out[i]) else None, x);
      if i < |out| - 1 {
        assert out[i..][1..] == out[i + 1..];
      }
    }
  }

  lemma GetCount(cfg: Config, t: Thread, fail: bool, pick: nat, x: nat)
    requires Local(cfg, t) && OnGetCache(t.pc)
    ensures InThread(GetStep(cfg, t, fail, pick), x) == InThread(t, x)
  {
    if t.pc.Refill? {
      RefillCount(cfg, t, x);
    } else if t.pc.PopTake? {
      SlotUpdate(t.batch, t.pc.count - 1, None, x);
    } else if t.pc.PopScan? && t.pc.i < |t.batch| {
      SlotUpdate(t.batch, t.pc.i, None, x);
    }
  }

  lemma DrainCount(cfg: Config, t: Thread, pick: nat, x: nat)
    requires Local(cfg, t) && t.pc.Drain?
    ensures InThread(PutStep(cfg, t, pick), x) == InThread(t, x)
  {
    var Drain(p, out, i) := t.pc;
    if i < |t.batch| && |out| < |t.batch| {
      SlotUpdate(t.batch, i, None, x);
      if t.batch[i].Some? {
        CountAppend(out, [t.batch[i].value], x);
        CountOne(t.batch[i].value, x);
      }
    } else {
      CountAppend(out, [p], x);
      CountOne(p, x);
    }
  }

  /** An object moves from the thread's hands into an empty slot. */
  lemma PushCount(t: Thread, i: nat, p: nat, x: nat)
    requires i < |t.batch| && t.batch[i] == None && InFlight(t.pc, x) == InSlot(Some(p), x)
    ensures InThread(t.(batch := t.batch[i := Some(p)], pc := Bump), x) == InThread(t, x)
  {
    SlotUpdate(t.batch, i, Some(p), x);
  }

  lemma PutCount(cfg: Config, t: Thread, pick: nat, x: nat)
    requires Local(cfg, t) && OnPutCache(t.pc)
    ensures InThread(PutStep(cfg, t, pick), x) == InThread(t, x)
  {
    if t.pc.Drain? {
      DrainCount(cfg, t, pick, x);
    } else if t.pc.PushAt? && t.batch[t.pc.count] == None {
      PushCount(t, t.pc.count, t.pc.p, x);
    } else if t.pc.PushScan? && t.pc.i < t.pc.limit && t.batch[t.pc.i] == None {
      PushCount(t, t.pc.i, t.pc.p, x);
    }
  }

  lemma ExitCount(cfg: Config, t: Thread, x: nat)
    requires Local(cfg, t) && t.pc.ExitSlot?
    ensures InThread(OwnerStep(t), x) == InThread(t, x)
  {
    var ExitSlot(out, j) := t.pc;
    if j < |t.batch| {
      SlotUpdate(t.batch, j, None, x);
      if t.batch[j].Some? {
        CountAppend(out, [t.batch[j].value], x);
        CountOne(t.batch[j].value, x);
      }
    }
  }

  lemma OwnerCount(cfg: Config, t: Thread, x: nat)
    requires Local(cfg, t) && OnOwner(t.pc)
    ensures InThread(OwnerStep(t), x) == InThread(t, x)
  {
    match t.pc
    case ExitSlot(_, _) => ExitCount(cfg, t, x);
    case ExitFast =>
      if t.fast.Some? { CountOne(t.fast.value, x); }
    case PutBegin(p) => CountOne(p, x);
    case _ =>
  }

  // ----- shared steps -----

  /** The balance of a step of thread i. */
  lemma Balance(s: State, s': State, i: nat, x: nat)
    requires i < |s.threads| == |s'.threads| && s'.threads == s.threads[i := s'.threads[i]]
    requires InThread(s'.threads[i], x) + InShards(s'.shards, x) + Count(s'.hands, x) + Count(s'.deleted, x)
             == InThread(s.threads[i], x) + InShards(s.shards, x) + Count(s.hands, x) + Count(s.deleted, x)
                + (if s.created <= x < s'.created then 1 else 0)
    requires InOnePlace(s, x) && s.created <= s'.created
    ensures InOnePlace(s', x)
  {
    ThreadUpdate(s.threads, i, s'.threads[i], x);
  }

  /** The same for a step that only changes the program counter and shared lists. */
  lemma Exchange(s: State, s': State, i: nat, pc: Pc, x: nat)
    requires i < |s.threads| && s'.threads == s.threads[i := s.threads[i].(pc := pc)]
    requires InFlight(pc, x) + InShards(s'.shards, x) + Count(s'.hands, x) + Count(s'.deleted, x)
             == InFlight(s.threads[i].pc, x) + InShards(s.shards, x) + Count(s.hands, x) + Count(s.deleted, x)
                + (if s.created <= x < s'.created then 1 else 0)
    requires InOnePlace(s, x) && s.created <= s'.created
    ensures InOnePlace(s', x)
  {
    Balance(s, s', i, x);
  }

  lemma TakeUpCount(s: State, c: Choice, x: nat)
    requires c.tid < |s.threads| && s.threads[c.tid].pc.Ready? && c.act.CallPut? && InOnePlace(s, x)
    ensures InOnePlace(StartStep(s, c), x)
  {
    if c.pick < |s.hands| {
      CountRemove(s.hands, c.pick, x);
      Balance(s, StartStep(s, c), c.tid, x);
    }
  }

  lemma StartCount(s: State, c: Choice, x: nat)
    requires c.tid < |s.threads| && s.threads[c.tid].pc.Ready? && InOnePlace(s, x)
    ensures InOnePlace(StartStep(s, c), x)
  {
    match c.act
    case CallPut => TakeUpCount(s, c, x);
    case Make =>
      CountAppend(s.hands, [s.created], x);
      CountOne(s.created, x);
    case _ => Balance(s, StartStep(s, c), c.tid, x);
  }

  lemma FetchCount(cfg: Config, s: State, i: nat, fail: bool, x: nat)
    requires ConfigOk(cfg) && i < |cfg.home| == |s.threads| && |s.shards| == cfg.shards && s.threads[i].pc.Fetch?
    requires InOnePlace(s, x)
    ensures InOnePlace(FetchStep(cfg, s, i, fail), x)
  {
    var Fetch(out, target, n) := s.threads[i].pc;
    var s' := FetchStep(cfg, s, i, fail);
    if n < cfg.shards && |out| < target && !(n > 0 && fail) {
      var k := ShardAt(cfg, i, n);
      var max := target - |out|;
      TakeCounts(s.shards[k], max, x);
      ShardUpdate(s.shards, k, Left(s.shards[k], max), x);
      CountAppend(out, Newest(s.shards[k], max), x);
      Exchange(s, s', i, Fetch(out + Newest(s.shards[k], max), target, n + 1), x);
    } else {
      assert out[0..] == out;
      Exchange(s, s', i, s'.threads[i].pc, x);
    }
  }

  /** Popping the newest object of shard k. */
  lemma PopOneCount(s: State, i: nat, k: nat, x: nat)
    requires i < |s.threads| && k < |s.shards| && s.shards[k] != [] && InOnePlace(s, x) && s.threads[i].pc.FetchOne?
    ensures var objects := s.shards[k];
            InOnePlace(Place(s, i, s.threads[i].(pc := Returning(objects[|objects| - 1])))
                         .(shards := s.shards[k := objects[..|objects| - 1]]), x)
  {
    var objects := s.shards[k];
    var rest, last := objects[..|objects| - 1], objects[|objects| - 1];
    ShardUpdate(s.shards, k, rest, x);
    CountAppend(rest, [last], x);
    CountOne(last, x);
    assert objects == rest + [last];
    var s' := Place(s, i, s.threads[i].(pc := Returning(last))).(shards := s.shards[k := rest]);
    Exchange(s, s', i, Returning(last), x);
  }

  lemma FetchOneCount(cfg: Config, s: State, i: nat, fail: bool, x: nat)
    requires ConfigOk(cfg) && i < |cfg.home| == |s.threads| && |s.shards| == cfg.shards && s.threads[i].pc.FetchOne?
    requires InOnePlace(s, x)
    ensures InOnePlace(FetchOneStep(cfg, s, i, fail), x)
  {
    var n := s.threads[i].pc.n;
    if n < cfg.shards && !(n > 0 && fail) && s.shards[ShardAt(cfg, i, n)] != [] {
      PopOneCount(s, i, ShardAt(cfg, i, n), x);
    } else {
      var s' := FetchOneStep(cfg, s, i, fail);
      Exchange(s, s', i, s'.threads[i].pc, x);
    }
  }

  lemma GiveCount(s: State, i: nat, k: nat, pc: Pc, x: nat)
    requires i < |s.threads| && k < |s.shards| && InOnePlace(s, x)
    requires s.threads[i].pc.Give? && (pc.Unregister? || pc.Ready?)
    ensures InOnePlace(Place(s, i, s.threads[i].(pc := pc))
                         .(shards := s.shards[k := s.shards[k] + s.threads[i].pc.items]), x)
  {
    var items := s.threads[i].pc.items;
    ShardUpdate(s.shards, k, s.shards[k] + items, x);
    CountAppend(s.shards[k], items, x);
    Exchange(s, Place(s, i, s.threads[i].(pc := pc)).(shards := s.shards[k := s.shards[k] + items]), i, pc, x);
  }

  lemma ClearShardCount(s: State, i: nat, k: nat, x: nat)
    requires i < |s.threads| && k < |s.shards| && InOnePlace(s, x) && s.threads[i].pc.ClearShards?
    ensures InOnePlace(Place(s, i, s.threads[i].(pc := ClearShards(k + 1)))
                         .(shards := s.shards[k := []], deleted := s.deleted + s.shards[k]), x)
  {
    ShardUpdate(s.shards, k, [], x);
    CountAppend(s.deleted, s.shards[k], x);
    Exchange(s, Place(s, i, s.threads[i].(pc := ClearShards(k + 1)))
                  .(shards := s.shards[k := []], deleted := s.deleted + s.shards[k]), i, ClearShards(k + 1), x);
  }

  lemma RegisterCount(s: State, i: nat, pc: Pc, registry: seq<nat>, x: nat)
    requires i < |s.threads| && InOnePlace(s, x)
    requires s.threads[i].pc.Register? && |s.threads[i].pc.carried| <= 1
    requires pc == if s.threads[i].pc.carried == [] then FastLook else FastGive(s.threads[i].pc.carried[0])
    ensures InOnePlace(Place(s, i, s.threads[i].(pc := pc)).(registry := registry), x)
  {
    var carried := s.threads[i].pc.carried;
    if carried != [] {
      assert carried == [carried[0]];
      CountOne(carried[0], x);
    }
    Exchange(s, Place(s, i, s.threads[i].(pc := pc)).(registry := registry), i, pc, x);
  }

  lemma ReturnCount(s: State, i: nat, x: nat)
    requires i < |s.threads| && InOnePlace(s, x) && s.threads[i].pc.Returning?
    ensures InOnePlace(Place(s, i, s.threads[i].(pc := Ready)).(hands := s.hands + [s.threads[i].pc.p]), x)
  {
    var p := s.threads[i].pc.p;
    CountAppend(s.hands, [p], x);
    CountOne(p, x);
    Exchange(s, Place(s, i, s.threads[i].(pc := Ready)).(hands := s.hands + [p]), i, Ready, x);
  }

  lemma SharedCount(cfg: Config, s: State, i: nat, x: nat)
    requires ConfigOk(cfg) && i < |cfg.home| == |s.threads| && |s.shards| == cfg.shards && InOnePlace(s, x)
    requires s.threads[i].pc.Register? ==> |s.threads[i].pc.carried| <= 1
    ensures InOnePlace(SharedStep(cfg, s, i), x)
  {
    var pc := s.threads[i].pc;
    if pc.Returning? {
      ReturnCount(s, i, x);
    } else if pc.Give? {
      GiveCount(s, i, ShardAt(cfg, i, 0), if pc.exiting then Unregister else Ready, x);
    } else if pc.ClearShards? && pc.k < |s.shards| {
      ClearShardCount(s, i, pc.k, x);
    } else if pc.ClearShards? {
      MoveOnCount(s, i, Ready, s.registry, x);
    } else if pc.Register? {
      RegisterCount(s, i, if pc.carried == [] then FastLook else FastGive(pc.carried[0]), s.registry + [i], x);
    } else if pc.Unregister? {
      MoveOnCount(s, i, Gone, Without(s.registry, i), x);
    }
  }

  /** A step that holds nothing before or after. */
  lemma MoveOnCount(s: State, i: nat, pc: Pc, registry: seq<nat>, x: nat)
    requires i < |s.threads| && InOnePlace(s, x)
    requires s.threads[i].pc.ClearShards? || s.threads[i].pc.Unregister?
    requires pc.Ready? || pc.Gone?
    ensures InOnePlace(Place(s, i, s.threads[i].(pc := pc)).(registry := registry), x)
  {
    Exchange(s, Place(s, i, s.threads[i].(pc := pc)).(registry := registry), i, pc, x);
  }

  /** What a clearer takes from a cache it deletes. */
  lemma RobCount(s: State, c: nat, u: Thread, taken: Option<nat>, x: nat)
    requires c < |s.threads|
    requires InThread(u, x) + InSlot(taken, x) == InThread(s.threads[c], x)
    ensures InThreads(Place(s, c, u).threads, x) + InSlot(taken, x) == InThreads(s.threads, x)
    ensures Count(s.deleted + (if taken.Some? then [taken.value] else []), x)
            == Count(s.deleted, x) + InSlot(taken, x)
  {
    ThreadUpdate(s.threads, c, u, x);
    CountAppend(s.deleted, if taken.Some? then [taken.value] else [], x);
    if taken.Some? {
      CountOne(taken.value, x);
    }
  }

  lemma WalkCount(s: State, i: nat, pc: Pc, x: nat)
    requires i < |s.threads| && Clearing(s.threads[i].pc) && (Clearing(pc) || pc.ClearShards?)
    ensures InThreads(Goto(s, i, pc).threads, x) == InThreads(s.threads, x)
  {
    ThreadUpdate(s.threads, i, s.threads[i].(pc := pc), x);
  }

  /** A clearer takes one object out of a cache, deletes it, and walks on. */
  lemma RobbedWalk(s: State, s': State, i: nat, c: nat, u: Thread, taken: Option<nat>, pc: Pc, x: nat)
    requires i < |s.threads| && c < |s.threads| && Clearing(s.threads[i].pc) && Clearing(pc)
    requires u.pc == s.threads[c].pc && InThread(u, x) + InSlot(taken, x) == InThread(s.threads[c], x)
    requires s'.threads == Goto(Place(s, c, u), i, pc).threads && s'.shards == s.shards && s'.hands == s.hands
    requires s'.deleted == s.deleted + (if taken.Some? then [taken.value] else [])
    ensures Places(s', x) == Places(s, x)
  {
    RobCount(s, c, u, taken, x);
    WalkCount(Place(s, c, u), i, pc, x);
  }

  lemma ClearSlotCount(s: State, i: nat, x: nat)
    requires i < |s.threads| && s.threads[i].pc.ClearSlot?
    requires s.threads[i].pc.k < |s.registry| && s.registry[s.threads[i].pc.k] < |s.threads|
    requires s.threads[i].pc.j < |s.threads[s.registry[s.threads[i].pc.k]].batch|
    ensures Places(ClearStep(s, i), x) == Places(s, x)
  {
    var ClearSlot(k, j) := s.threads[i].pc;
    var c := s.registry[k];
    var u := s.threads[c];
    var v := u.(batch := u.batch[j := None]);
    SlotUpdate(u.batch, j, None, x);
    RobbedWalk(s, ClearStep(s, i), i, c, v, u.batch[j], ClearSlot(k, j + 1), x);
  }

  lemma ClearZeroCount(s: State, i: nat, x: nat)
    requires i < |s.threads| && s.threads[i].pc.ClearSlot?
    requires s.threads[i].pc.k < |s.registry| && s.registry[s.threads[i].pc.k] < |s.threads|
    requires s.threads[i].pc.j >= |s.threads[s.registry[s.threads[i].pc.k]].batch|
    ensures Places(ClearStep(s, i), x) == Places(s, x)
  {
    var k := s.threads[i].pc.k;
    var c := s.registry[k];
    var v := s.threads[c].(count := 0);
    RobbedWalk(s, ClearStep(s, i), i, c, v, None, ClearOwner(k + 1), x);
  }

  lemma ClearFastCount(s: State, i: nat, x: nat)
    requires i < |s.threads| && s.threads[i].pc.ClearFast?
    requires s.threads[i].pc.k < |s.registry| && s.registry[s.threads[i].pc.k] < |s.threads|
    ensures Places(ClearStep(s, i), x) == Places(s, x)
  {
    var k := s.threads[i].pc.k;
    var c := s.registry[k];
    var u := s.threads[c];
    RobbedWalk(s, ClearStep(s, i), i, c, u.(fast := None), u.fast, ClearSlot(k, 0), x);
  }

  lemma ClearCount(s: State, i: nat, x: nat)
    requires i < |s.threads| && Clearing(s.threads[i].pc)
    ensures Places(ClearStep(s, i), x) == Places(s, x)
  {
    match s.threads[i].pc
    case ClearLock => WalkCount(s, i, ClearOwner(0), x);
    case ClearOwner(k) => WalkCount(s, i, ClearStep(s, i).threads[i].pc, x);
    case ClearFast(k) =>
      if k < |s.registry| && s.registry[k] < |s.threads| { ClearFastCount(s, i, x); }
    case ClearSlot(k, j) =>
      if k < |s.registry| && s.registry[k] < |s.threads| {
        if j < |s.threads[s.registry[k]].batch| {
          ClearSlotCount(s, i, x);
        } else {
          ClearZeroCount(s, i, x);
        }
      }
  }

  lemma OwnCount(s: State, i: nat, t: Thread, x: nat)
    requires i < |s.threads| && InThread(t, x) == InThread(s.threads[i], x)
    ensures Places(Place(s, i, t), x) == Places(s, x)
  {
    ThreadUpdate(s.threads, i, t, x);
  }

  lemma CountNext(cfg: Config, s: State, c: Choice, x: nat)
    requires ConfigOk(cfg) && AllLocal(cfg, s) && |cfg.home| == |s.threads| && |s.shards| == cfg.shards
    requires InOnePlace(s, x)
    ensures InOnePlace(Next(cfg, s, c), x)
  {
    if c.tid < |s.threads| {
      var t := s.threads[c.tid];
      if t.pc.Ready? {
        StartCount(s, c, x);
      } else if OnGetCache(t.pc) {
        GetCount(cfg, t, c.fail, c.pick, x);
        OwnCount(s, c.tid, GetStep(cfg, t, c.fail, c.pick), x);
      } else if OnPutCache(t.pc) {
        PutCount(cfg, t, c.pick, x);
        OwnCount(s, c.tid, PutStep(cfg, t, c.pick), x);
      } else if OnOwner(t.pc) {
        OwnerCount(cfg, t, x);
        OwnCount(s, c.tid, OwnerStep(t), x);
      } else if t.pc.Fetch? {
        FetchCount(cfg, s, c.tid, c.fail, x);
      } else if t.pc.FetchOne? {
        FetchOneCount(cfg, s, c.tid, c.fail, x);
      } else if Clearing(t.pc) {
        ClearCount(s, c.tid, x);
      } else {
        SharedCount(cfg, s, c.tid, x);
      }
    }
  }

  lemma {:induction false} FreshThreads(ts: seq<Thread>, x: nat)
    requires forall i :: 0 <= i < |ts| ==> ts[i].pc.Ready? && Bare(ts[i])
    ensures InThreads(ts, x) == 0
  {
    if ts != [] {
      NoSlots(ts[0].batch, x);
      FreshThreads(ts[1..], x);
    }
  }

  /** In every interleaving each object made so far is in exactly one of: a fast slot, a
      batch slot, a shard, an operation's or a caller's hands, or the list of deleted
      ones; no other object is anywhere. */
  lemma {:induction false} EachObjectInOnePlace(cfg: Config, sch: seq<Choice>, x: nat)
    requires ConfigOk(cfg)
    ensures Places(Run(cfg, sch), x) == if x < Run(cfg, sch).created then 1 else 0
  {
    if sch == [] {
      FreshThreads(Init(cfg).threads, x);
      EmptyShards(Init(cfg).shards, x);
    } else {
      var s := Run(cfg, sch[..|sch| - 1]);
      EachObjectInOnePlace(cfg, sch[..|sch| - 1], x);
      RunInv(cfg, sch[..|sch| - 1]);
      CountNext(cfg, s, sch[|sch| - 1], x);
    }
  }

  /** A refill only ever stores into empty slots, and every access to the batch array and
      to the local arrays of 2B + 1 entries is in bounds. */
  lemma RefillAndBounds(cfg: Config, sch: seq<Choice>, i: nat)
    requires ConfigOk(cfg) && i < |cfg.home|
    ensures var t := Run(cfg, sch).threads[i];
            && |t.batch| == 2 * cfg.batch
            && (t.pc.Refill? && t.pc.i < |t.batch| ==> t.batch[t.pc.i] == None && |t.pc.out| - 1 <= |t.batch|)
            && (t.pc.PopTake? ==> 0 < t.pc.count <= |t.batch|)
            && (t.pc.PushScan? ==> t.pc.limit <= |t.batch|)
            && (t.pc.PushAt? ==> t.pc.count < |t.batch|)
            && (t.pc.Give? ==> |t.pc.items| <= |t.batch| + 1)
            && (!t.pc.BumpClamp? ==> t.count <= |t.batch|)
  {
    RunInv(cfg, sch);
    assert Local(cfg, Run(cfg, sch).threads[i]);
  }

  /** Clear never reaches into the cache of a thread that has gone, and a thread leaves
      nothing behind in its cache. */
  lemma ClearReachesLiveCaches(cfg: Config, sch: seq<Choice>, i: nat)
    requires ConfigOk(cfg) && i < |cfg.home|
    ensures var s := Run(cfg, sch);
            && (s.threads[i].pc.ClearFast? || s.threads[i].pc.ClearSlot? ==>
                  && s.threads[i].pc.k < |s.registry|
                  && s.registry[s.threads[i].pc.k] < |s.threads|
                  && !s.threads[s.registry[s.threads[i].pc.k]].pc.Gone?)
            && (s.threads[i].pc.Gone? ==> Bare(s.threads[i]) && i !in s.registry)
  {
    RunInv(cfg, sch);
    var s := Run(cfg, sch);
    assert Local(cfg, s.threads[i]);
    if s.threads[i].pc.ClearFast? || s.threads[i].pc.ClearSlot? {
      var c := s.registry[s.threads[i].pc.k];
      assert c in s.registry;
      assert Listed(s.threads[c]) && Local(cfg, s.threads[c]);
    }
  }

  lemma {:induction false} GoneThreads(ts: seq<Thread>, x: nat)
    requires forall i :: 0 <= i < |ts| ==> ts[i].pc.Gone? && Bare(ts[i])
    ensures InThreads(ts, x) == 0
  {
    if ts != [] {
      NoSlots(ts[0].batch, x);
      GoneThreads(ts[1..], x);
    }
  }

  /** Once every thread has exited, nothing is lost: each object is with a caller, in a
      shard, or deleted, exactly one of the three. */
  lemma NothingLostAtExit(cfg: Config, sch: seq<Choice>, x: nat)
    requires ConfigOk(cfg) && forall i :: 0 <= i < |cfg.home| ==> Run(cfg, sch).threads[i].pc.Gone?
    requires x < Run(cfg, sch).created
    ensures var s := Run(cfg, sch);
            InShards(s.shards, x) + Count(s.hands, x) + Count(s.deleted, x) == 1
  {
    EachObjectInOnePlace(cfg, sch, x);
    RunInv(cfg, sch);
    var s := Run(cfg, sch);
    forall i | 0 <= i < |s.threads| ensures s.threads[i].pc.Gone? && Bare(s.threads[i]) {
      assert Local(cfg, s.threads[i]);
    }
    GoneThreads(s.threads, x);
  }
}
