/** The three-tier object pool: each thread has a cache (one fast slot and an array
    of batch slots) in front of shared shards, and any thread may clear all caches
    and shards at any time.  One step per access to a word that another thread can
    touch; a block under a shard's mutex is one step.  Objects are numbers, handed
    out by a counter; callers keep what they got in `hands` and may pass it around. */
module TlsPool {
  import opened Ring
  import opened PoolShard

  /** Batch size of the template, number of shards, and the shard each thread hashes to. */
  datatype Config = Config(batch: nat, shards: nat, home: seq<nat>)

  predicate ConfigOk(cfg: Config) {
    cfg.batch > 0 && cfg.shards > 0 && forall i :: 0 <= i < |cfg.home| ==> cfg.home[i] < cfg.shards
  }

  function Capacity(cfg: Config): nat {
    2 * cfg.batch
  }

  /** The adaptive batch size, clamped; the stored value is a parameter. */
  function Effective(cfg: Config, size: nat): nat {
    var least := if cfg.batch / 2 == 0 then 1 else cfg.batch / 2;
    if size < least then least else if size > Capacity(cfg) then Capacity(cfg) else size
  }

  /** Who a thread's cache belongs to: no pool, this one, or another one. */
  datatype Owner = Nobody | Here | Elsewhere

  datatype Pc =
    | Ready
    // Get
    | GetBegin
    | FastLook
    | FastTake
    | PopLook
    | PopTry(count: nat)
    | PopTake(count: nat)
    | PopScan(i: nat)
    | PopFixLook(p: nat)
    | PopFix(p: nat, current: nat)
    | Fetch(out: seq<nat>, target: nat, n: nat)
    | Refill(out: seq<nat>, i: nat)
    | FetchOne(n: nat)
    | Returning(p: nat)
    // Put
    | PutBegin(p: nat)
    | FastGive(p: nat)
    | PushLook(p: nat)
    | PushAt(p: nat, limit: nat, count: nat)
    | PushScan(p: nat, limit: nat, i: nat)
    | Bump
    | BumpClamp
    | Drain(p: nat, out: seq<nat>, i: nat)
    | Give(items: seq<nat>, exiting: bool)
    // registration, with the object of a Put
    | Register(carried: seq<nat>)
    // Clear
    | ClearLock
    | ClearOwner(k: nat)
    | ClearFast(k: nat)
    | ClearSlot(k: nat, j: nat)
    | ClearShards(k: nat)
    // thread exit
    | ExitBegin
    | ExitFast
    | ExitSlot(out: seq<nat>, j: nat)
    | Unregister
    | Gone

  datatype Thread = Thread(pc: Pc, fast: Option<nat>, batch: seq<Option<nat>>, count: nat, owner: Owner)

  datatype State = State(threads: seq<Thread>, shards: seq<seq<nat>>, hands: seq<nat>, deleted: seq<nat>,
                         created: nat, registry: seq<nat>, lock: Option<nat>)

  datatype Act = CallGet | CallPut | CallClear | Make | ThreadExit | OtherPool

  /** `fail`: a weak CAS fails, a try-lock fails, or the factory returns null.  `pick`:
      which held object to put back, or the stored adaptive batch size. */
  datatype Choice = Choice(tid: nat, act: Act, fail: bool, pick: nat)

  function Init(cfg: Config): State {
    State(seq(|cfg.home|, _ => Thread(Ready, None, seq(Capacity(cfg), _ => None), 0, Nobody)),
          seq(cfg.shards, _ => []), [], [], 0, [], None)
  }

  // ----- steps on the thread's own cache -----

  predicate OnGetCache(pc: Pc) {
    pc.FastLook? || pc.FastTake? || pc.PopLook? || pc.PopTry? || pc.PopTake? || pc.PopScan? || pc.PopFixLook?
    || pc.PopFix? || pc.Refill?
  }

  predicate OnPutCache(pc: Pc) {
    pc.FastGive? || pc.PushLook? || pc.PushAt? || pc.PushScan? || pc.Bump? || pc.BumpClamp? || pc.Drain?
  }

  predicate OnOwner(pc: Pc) {
    pc.GetBegin? || pc.PutBegin? || pc.ExitBegin? || pc.ExitFast? || pc.ExitSlot?
  }

  function GetStep(cfg: Config, t: Thread, fail: bool, pick: nat): Thread
    requires OnGetCache(t.pc)
  {
    match t.pc
    case FastLook => t.(pc := if t.fast.Some? then FastTake else PopLook)
    case FastTake =>
      if t.fast.Some? then t.(fast := None, pc := Returning(t.fast.value)) else t.(pc := PopLook)
    case PopLook => t.(pc := PopTry(Min(t.count, |t.batch|)))
    case PopTry(c) =>
      if c == 0 then t.(pc := PopScan(0))
      else if t.count == c && !fail then t.(count := c - 1, pc := PopTake(c))
      else t.(pc := PopTry(t.count))
    case PopTake(c) =>
      if 0 < c <= |t.batch| && t.batch[c - 1].Some? then
        t.(batch := t.batch[c - 1 := None], pc := Returning(t.batch[c - 1].value))
      else t.(pc := PopTry(c))
    case PopScan(i) =>
      if i >= |t.batch| then t.(count := 0, pc := Fetch([], Effective(cfg, pick), 0))
      else if t.batch[i].Some? then t.(batch := t.batch[i := None], pc := PopFixLook(t.batch[i].value))
      else t.(pc := PopScan(i + 1))
    case PopFixLook(p) => t.(pc := PopFix(p, t.count))
    case PopFix(p, current) =>
      if current == 0 then t.(pc := Returning(p))
      else if t.count == current && !fail then t.(count := current - 1, pc := Returning(p))
      else t.(pc := PopFix(p, t.count))
    case Refill(out, i) =>
      if |out| == 0 then t
      else if i >= |t.batch| then t.(count := |out| - 1, pc := Returning(out[|out| - 1]))
      else t.(batch := t.batch[i := if i < |out| - 1 then Some(out[i]) else None], pc := Refill(out, i + 1))
  }

  function PutStep(cfg: Config, t: Thread, pick: nat): Thread
    requires OnPutCache(t.pc)
  {
    match t.pc
    case FastGive(p) =>
      if t.fast.None? then t.(fast := Some(p), pc := Ready) else t.(pc := PushLook(p))
    case PushLook(p) =>
      var limit := Effective(cfg, pick);
      if t.count >= limit then t.(pc := Drain(p, [], 0))
      else if t.count < |t.batch| then t.(pc := PushAt(p, limit, t.count))
      else t.(pc := PushScan(p, limit, 0))
    case PushAt(p, limit, c) =>
      if c < |t.batch| && t.batch[c].None? then t.(batch := t.batch[c := Some(p)], pc := Bump)
      else t.(pc := PushScan(p, limit, 0))
    case PushScan(p, limit, i) =>
      if i >= limit then t.(pc := Drain(p, [], 0))
      else if i < |t.batch| && t.batch[i].None? then t.(batch := t.batch[i := Some(p)], pc := Bump)
      else t.(pc := PushScan(p, limit, i + 1))
    case Bump => t.(count := t.count + 1, pc := if t.count >= |t.batch| then BumpClamp else Ready)
    case BumpClamp => t.(count := |t.batch|, pc := Ready)
    case Drain(p, out, i) =>
      if i < |t.batch| && |out| < |t.batch| then
        if t.batch[i].Some? then
          t.(batch := t.batch[i := None], pc := Drain(p, out + [t.batch[i].value], i + 1))
        else t.(pc := Drain(p, out, i + 1))
      else t.(count := 0, pc := Give(out + [p], false))
  }

  function OwnerStep(t: Thread): Thread
    requires OnOwner(t.pc)
  {
    match t.pc
    case GetBegin =>
      if t.owner == Here then t.(pc := FastLook)
      else if t.owner == Nobody then t.(owner := Here, pc := Register([]))
      else t.(pc := FetchOne(0))
    case PutBegin(p) =>
      if t.owner == Here then t.(pc := FastGive(p))
      else if t.owner == Nobody then t.(owner := Here, pc := Register([p]))
      else t.(pc := Give([p], false))
    case ExitBegin => t.(owner := Nobody, pc := ExitFast)
    case ExitFast =>
      t.(fast := None, pc := ExitSlot(if t.fast.Some? then [t.fast.value] else [], 0))
    case ExitSlot(out, j) =>
      if j < |t.batch| then
        t.(batch := t.batch[j := None],
           pc := ExitSlot(if t.batch[j].Some? then out + [t.batch[j].value] else out, j + 1))
      else t.(count := 0, pc := if out == [] then Unregister else Give(out, true))
  }

  // ----- steps on shared words -----

  /** Idle threads start a call, make an object of their own, or leave. */
  function StartStep(s: State, c: Choice): State
    requires c.tid < |s.threads|
  {
    var t := s.threads[c.tid];
    match c.act
    case CallGet => Place(s, c.tid, t.(pc := GetBegin))
    case CallPut =>
      if c.pick < |s.hands| then
        Place(s, c.tid, t.(pc := PutBegin(s.hands[c.pick]))).(hands := s.hands[..c.pick] + s.hands[c.pick + 1..])
      else s
    case CallClear => Place(s, c.tid, t.(pc := ClearLock))
    case Make => s.(hands := s.hands + [s.created], created := s.created + 1)
    case ThreadExit => Place(s, c.tid, t.(pc := if t.owner == Here then ExitBegin else Gone))
    case OtherPool =>
      if t.owner == Here then s
      else Place(s, c.tid, t.(owner := if t.owner == Nobody then Elsewhere else Nobody))
  }

  function Place(s: State, i: nat, t: Thread): State
    requires i < |s.threads|
  {
    s.(threads := s.threads[i := t])
  }

  /** The shard a thread looks at in round n: its own, then the following ones. */
  function ShardAt(cfg: Config, i: nat, n: nat): (k: nat)
    requires ConfigOk(cfg) && i < |cfg.home| && n < cfg.shards
    ensures k < cfg.shards
  {
    var k := cfg.home[i] + n;
    if k < cfg.shards then k else k - cfg.shards
  }

  lemma ShardAtIsModulo(cfg: Config, i: nat, n: nat)
    requires ConfigOk(cfg) && i < |cfg.home| && n < cfg.shards
    ensures ShardAt(cfg, i, n) == (cfg.home[i] + n) % cfg.shards
  {
    var k := cfg.home[i] + n;
    if k < cfg.shards {
      DivModUnique(k, cfg.shards, 0, k, 0);
    } else {
      DivModUnique(k, cfg.shards, 1, k - cfg.shards, 0);
    }
  }

  function FetchStep(cfg: Config, s: State, i: nat, fail: bool): State
    requires ConfigOk(cfg) && i < |cfg.home| == |s.threads| && |s.shards| == cfg.shards && s.threads[i].pc.Fetch?
  {
    var t := s.threads[i];
    var Fetch(out, target, n) := t.pc;
    if n >= cfg.shards || |out| >= target then
      Place(s, i, t.(pc := if out == [] then FetchOne(0) else Refill(out, 0)))
    else if n > 0 && fail then Place(s, i, t.(pc := Fetch(out, target, n + 1)))
    else
      var k := ShardAt(cfg, i, n);
      var max := target - |out|;
      Place(s, i, t.(pc := Fetch(out + Newest(s.shards[k], max), target, n + 1)))
        .(shards := s.shards[k := Left(s.shards[k], max)])
  }

  function FetchOneStep(cfg: Config, s: State, i: nat, fail: bool): State
    requires ConfigOk(cfg) && i < |cfg.home| == |s.threads| && |s.shards| == cfg.shards && s.threads[i].pc.FetchOne?
  {
    var t := s.threads[i];
    var n := t.pc.n;
    if n >= cfg.shards then
      if fail then Place(s, i, t.(pc := Ready))
      else Place(s, i, t.(pc := Returning(s.created))).(created := s.created + 1)
    else
      var objects := s.shards[ShardAt(cfg, i, n)];
      if (n > 0 && fail) || objects == [] then Place(s, i, t.(pc := FetchOne(n + 1)))
      else
        Place(s, i, t.(pc := Returning(objects[|objects| - 1])))
          .(shards := s.shards[ShardAt(cfg, i, n) := objects[..|objects| - 1]])
  }

  function SharedStep(cfg: Config, s: State, i: nat): State
    requires ConfigOk(cfg) && i < |cfg.home| == |s.threads| && |s.shards| == cfg.shards
  {
    var t := s.threads[i];
    match t.pc
    case Returning(p) => Place(s, i, t.(pc := Ready)).(hands := s.hands + [p])
    case Give(items, exiting) =>
      var k := ShardAt(cfg, i, 0);
      Place(s, i, t.(pc := if exiting then Unregister else Ready)).(shards := s.shards[k := s.shards[k] + items])
    case Register(carried) =>
      if s.lock.Some? then s
      else
        Place(s, i, t.(pc := if carried == [] then FastLook else FastGive(carried[0])))
          .(registry := s.registry + [i])
    case Unregister =>
      if s.lock.Some? then s else Place(s, i, t.(pc := Gone)).(registry := Without(s.registry, i))
    case ClearShards(k) =>
      if k >= |s.shards| then Place(s, i, t.(pc := Ready))
      else
        Place(s, i, t.(pc := ClearShards(k + 1))).(shards := s.shards[k := []], deleted := s.deleted + s.shards[k])
    case _ => s
  }

  function Without(registry: seq<nat>, i: nat): seq<nat> {
    if registry == [] then []
    else if registry[0] == i then registry[1..]
    else [registry[0]] + Without(registry[1..], i)
  }

  predicate Clearing(pc: Pc) {
    pc.ClearLock? || pc.ClearOwner? || pc.ClearFast? || pc.ClearSlot?
  }

  /** Clear walks the registry under its lock and deletes what it takes. */
  function ClearStep(s: State, i: nat): State
    requires i < |s.threads| && Clearing(s.threads[i].pc)
  {
    match s.threads[i].pc
    case ClearLock => if s.lock.Some? then s else Goto(s, i, ClearOwner(0)).(lock := Some(i))
    case ClearOwner(k) =>
      if k >= |s.registry| then Goto(s, i, ClearShards(0)).(lock := None)
      else if s.registry[k] < |s.threads| && s.threads[s.registry[k]].owner == Here then Goto(s, i, ClearFast(k))
      else Goto(s, i, ClearOwner(k + 1))
    case ClearFast(k) =>
      if k < |s.registry| && s.registry[k] < |s.threads| then
        var u := s.threads[s.registry[k]];
        Goto(Place(s, s.registry[k], u.(fast := None)), i, ClearSlot(k, 0))
          .(deleted := s.deleted + (if u.fast.Some? then [u.fast.value] else []))
      else s
    case ClearSlot(k, j) =>
      if k < |s.registry| && s.registry[k] < |s.threads| then
        var u := s.threads[s.registry[k]];
        if j < |u.batch| then
          Goto(Place(s, s.registry[k], u.(batch := u.batch[j := None])), i, ClearSlot(k, j + 1))
            .(deleted := s.deleted + (if u.batch[j].Some? then [u.batch[j].value] else []))
        else Goto(Place(s, s.registry[k], u.(count := 0)), i, ClearOwner(k + 1))
      else s
  }

  function Goto(s: State, i: nat, pc: Pc): State
    requires i < |s.threads|
  {
    Place(s, i, s.threads[i].(pc := pc))
  }

  function Next(cfg: Config, s: State, c: Choice): (s': State)
    requires ConfigOk(cfg) && |cfg.home| == |s.threads| && |s.shards| == cfg.shards
    ensures |s'.threads| == |s.threads| && |s'.shards| == |s.shards|
  {
    if c.tid >= |s.threads| then s
    else
      var t := s.threads[c.tid];
      if t.pc.Ready? then StartStep(s, c)
      else if OnGetCache(t.pc) then Place(s, c.tid, GetStep(cfg, t, c.fail, c.pick))
      else if OnPutCache(t.pc) then Place(s, c.tid, PutStep(cfg, t, c.pick))
      else if OnOwner(t.pc) then Place(s, c.tid, OwnerStep(t))
      else if t.pc.Fetch? then FetchStep(cfg, s, c.tid, c.fail)
      else if t.pc.FetchOne? then FetchOneStep(cfg, s, c.tid, c.fail)
      else if Clearing(t.pc) then ClearStep(s, c.tid)
      else SharedStep(cfg, s, c.tid)
  }

  function Run(cfg: Config, sch: seq<Choice>): (s: State)
    requires ConfigOk(cfg)
    ensures |s.threads| == |cfg.home| && |s.shards| == cfg.shards
  {
    if sch == [] then Init(cfg) else Next(cfg, Run(cfg, sch[..|sch| - 1]), sch[|sch| - 1])
  }
}
