/** Get running alone: the fast slot's object if there is one, else one of the batch, else
    one from the shards, the thread's own shard first, with the others it took behind it in
    the batch; a new object, or nothing, exactly when all of these are empty. */
module TlsGet {
  import opened Ring
  import opened PoolShard
  import opened ObjectPool
  import opened TlsPool
  import opened TlsInvariant
  import opened TlsSolo

  ghost predicate NoBatch(t: Thread) {
    forall j :: 0 <= j < |t.batch| ==> t.batch[j].None?
  }

  // ----- the batch -----

  /** Slot j is the one popped: the highest occupied slot below the count, or the lowest
      occupied one if there is none. */
  ghost predicate Chosen(t: Thread, j: nat) {
    && j < |t.batch| && t.batch[j].Some?
    && (if j < t.count then forall m :: j < m < t.count && m < |t.batch| ==> t.batch[m].None?
        else forall m :: 0 <= m < |t.batch| && (m < t.count || m < j) ==> t.batch[m].None?)
  }

  /** The object of slot j is on its way to the caller. */
  function Popped(t: Thread, j: nat): Thread
    requires j < |t.batch| && t.batch[j].Some?
  {
    t.(batch := t.batch[j := None], count := if j < t.count then j else 0, pc := Returning(t.batch[j].value))
  }

  /** One count down: the slot below it is taken, or found empty. */
  lemma CountDown(cfg: Config, s: State, i: nat, w: Will, t: Thread)
    requires Fits(cfg, s, i) && t.pc == PopTry(t.count) && 0 < t.count <= |t.batch|
    ensures var c := t.count;
            Leads(cfg, Place(s, i, t),
                  Place(s, i, if t.batch[c - 1].Some? then Popped(t, c - 1)
                              else t.(count := c - 1, pc := PopTry(c - 1))),
                  i, w)
  {
    var c := t.count;
    var t1 := t.(count := c - 1, pc := PopTake(c));
    GetCacheStep(cfg, s, i, w, t);
    GetCacheStep(cfg, s, i, w, t1);
    if t.batch[c - 1].Some? {
      ThenPlace(cfg, s, i, w, t, t1, Popped(t, c - 1));
    } else {
      var t2 := t1.(pc := PopTry(c));
      GetCacheStep(cfg, s, i, w, t2);
      ThenPlace(cfg, s, i, w, t, t1, t2);
      ThenPlace(cfg, s, i, w, t, t2, t.(count := c - 1, pc := PopTry(c - 1)));
    }
  }

  /** Down to the highest occupied slot below the count. */
  lemma {:induction false} PopHigh(cfg: Config, s: State, i: nat, w: Will, t: Thread, j: nat)
    requires Fits(cfg, s, i) && t.pc == PopTry(t.count) && j < t.count <= |t.batch| && t.batch[j].Some?
    requires forall m :: j < m < t.count ==> t.batch[m].None?
    ensures Leads(cfg, Place(s, i, t), Place(s, i, Popped(t, j)), i, w)
    decreases t.count
  {
    CountDown(cfg, s, i, w, t);
    if j < t.count - 1 {
      var t' := t.(count := t.count - 1, pc := PopTry(t.count - 1));
      PopHigh(cfg, s, i, w, t', j);
      ThenPlace(cfg, s, i, w, t, t', Popped(t, j));
    }
  }

  /** Down to zero without one. */
  lemma {:induction false} PopNone(cfg: Config, s: State, i: nat, w: Will, t: Thread)
    requires Fits(cfg, s, i) && t.pc == PopTry(t.count) && t.count <= |t.batch|
    requires forall m :: 0 <= m < t.count ==> t.batch[m].None?
    ensures Leads(cfg, Place(s, i, t), Place(s, i, t.(count := 0, pc := PopScan(0))), i, w)
    decreases t.count
  {
    if t.count == 0 {
      GetCacheStep(cfg, s, i, w, t);
    } else {
      var t' := t.(count := t.count - 1, pc := PopTry(t.count - 1));
      CountDown(cfg, s, i, w, t);
      PopNone(cfg, s, i, w, t');
      ThenPlace(cfg, s, i, w, t, t', t.(count := 0, pc := PopScan(0)));
    }
  }

  /** The scan finds slot j, the lowest occupied one. */
  lemma FixCount(cfg: Config, s: State, i: nat, w: Will, t: Thread, p: nat)
    requires Fits(cfg, s, i) && t.pc == PopFixLook(p) && t.count == 0
    ensures Leads(cfg, Place(s, i, t), Place(s, i, t.(pc := Returning(p))), i, w)
  {
    GetCacheStep(cfg, s, i, w, t);
    GetCacheStep(cfg, s, i, w, t.(pc := PopFix(p, 0)));
    ThenPlace(cfg, s, i, w, t, t.(pc := PopFix(p, 0)), t.(pc := Returning(p)));
  }

  lemma {:induction false} ScanLow(cfg: Config, s: State, i: nat, w: Will, t: Thread, k: nat, j: nat)
    requires Fits(cfg, s, i) && t.pc == PopScan(k) && t.count == 0 && k <= j < |t.batch| && t.batch[j].Some?
    requires forall m :: k <= m < j ==> t.batch[m].None?
    ensures Leads(cfg, Place(s, i, t), Place(s, i, Popped(t, j)), i, w)
    decreases j - k
  {
    GetCacheStep(cfg, s, i, w, t);
    if k < j {
      ScanLow(cfg, s, i, w, t.(pc := PopScan(k + 1)), k + 1, j);
      ThenPlace(cfg, s, i, w, t, t.(pc := PopScan(k + 1)), Popped(t, j));
    } else {
      var t' := t.(batch := t.batch[j := None], pc := PopFixLook(t.batch[j].value));
      FixCount(cfg, s, i, w, t', t.batch[j].value);
      ThenPlace(cfg, s, i, w, t, t', Popped(t, j));
    }
  }

  /** Or it finds nothing, and goes for the shards. */
  lemma {:induction false} ScanNone(cfg: Config, s: State, i: nat, w: Will, t: Thread, k: nat)
    requires Fits(cfg, s, i) && t.pc == PopScan(k) && t.count == 0 && k <= |t.batch| && NoBatch(t)
    ensures Leads(cfg, Place(s, i, t), Place(s, i, t.(pc := Fetch([], Effective(cfg, w.size), 0))), i, w)
    decreases |t.batch| - k
  {
    GetCacheStep(cfg, s, i, w, t);
    if k < |t.batch| {
      ScanNone(cfg, s, i, w, t.(pc := PopScan(k + 1)), k + 1);
      ThenPlace(cfg, s, i, w, t, t.(pc := PopScan(k + 1)), t.(pc := Fetch([], Effective(cfg, w.size), 0)));
    }
  }

  /** A cache as its thread finds it: at its first look, counting at most what fits. */
  ghost predicate AtLook(t: Thread) {
    t.pc == PopLook && t.count <= |t.batch|
  }

  /** Nothing below the count: the scan over all slots begins. */
  lemma PopLow(cfg: Config, s: State, i: nat, w: Will, t: Thread)
    requires Fits(cfg, s, i) && AtLook(t) && forall m :: 0 <= m < t.count ==> t.batch[m].None?
    ensures Leads(cfg, Place(s, i, t), Place(s, i, t.(count := 0, pc := PopScan(0))), i, w)
  {
    var t0 := t.(pc := PopTry(t.count));
    GetCacheStep(cfg, s, i, w, t);
    PopNone(cfg, s, i, w, t0);
    ThenPlace(cfg, s, i, w, t, t0, t.(count := 0, pc := PopScan(0)));
  }

  lemma PopAlone(cfg: Config, s: State, i: nat, w: Will, t: Thread, j: nat)
    requires Fits(cfg, s, i) && AtLook(t) && Chosen(t, j)
    ensures Leads(cfg, Place(s, i, t), Place(s, i, Popped(t, j)), i, w)
  {
    if j < t.count {
      var t0 := t.(pc := PopTry(t.count));
      GetCacheStep(cfg, s, i, w, t);
      PopHigh(cfg, s, i, w, t0, j);
      ThenPlace(cfg, s, i, w, t, t0, Popped(t, j));
    } else {
      var t1 := t.(count := 0, pc := PopScan(0));
      PopLow(cfg, s, i, w, t);
      ScanLow(cfg, s, i, w, t1, 0, j);
      ThenPlace(cfg, s, i, w, t, t1, Popped(t, j));
    }
  }

  lemma PopFails(cfg: Config, s: State, i: nat, w: Will, t: Thread)
    requires Fits(cfg, s, i) && AtLook(t) && NoBatch(t)
    ensures Leads(cfg, Place(s, i, t), Place(s, i, t.(count := 0, pc := Fetch([], Effective(cfg, w.size), 0))), i, w)
  {
    var t1 := t.(count := 0, pc := PopScan(0));
    PopLow(cfg, s, i, w, t);
    ScanNone(cfg, s, i, w, t1, 0);
    ThenPlace(cfg, s, i, w, t, t1, t.(count := 0, pc := Fetch([], Effective(cfg, w.size), 0)));
  }

  /** An occupied batch has a slot to pop. */
  lemma {:induction false} HighestBelow(t: Thread, c: nat) returns (j: nat)
    requires c <= |t.batch| && exists m :: 0 <= m < c && t.batch[m].Some?
    ensures j < c && t.batch[j].Some? && forall m :: j < m < c ==> t.batch[m].None?
  {
    if t.batch[c - 1].Some? {
      j := c - 1;
    } else {
      j := HighestBelow(t, c - 1);
    }
  }

  lemma {:induction false} LowestFrom(t: Thread, k: nat) returns (j: nat)
    requires k <= |t.batch| && exists m :: k <= m < |t.batch| && t.batch[m].Some?
    ensures k <= j < |t.batch| && t.batch[j].Some? && forall m :: k <= m < j ==> t.batch[m].None?
    decreases |t.batch| - k
  {
    if t.batch[k].Some? {
      j := k;
    } else {
      j := LowestFrom(t, k + 1);
    }
  }

  lemma SomeChosen(t: Thread) returns (j: nat)
    requires t.count <= |t.batch| && !NoBatch(t)
    ensures Chosen(t, j)
  {
    if exists m :: 0 <= m < t.count && t.batch[m].Some? {
      j := HighestBelow(t, t.count);
    } else {
      j := LowestFrom(t, 0);
    }
  }

  // ----- the shards -----

  lemma ShardAtIsRound(cfg: Config, i: nat, n: nat)
    requires ConfigOk(cfg) && i < |cfg.home| && n < cfg.shards
    ensures ShardAt(cfg, i, n) == RoundRobin(cfg.home[i], n, cfg.shards)
  {
  }

  /** The state with other shards and thread i at t. */
  function With(s: State, i: nat, t: Thread, shards: seq<seq<nat>>): State
    requires i < |s.threads|
  {
    Place(s, i, t).(shards := shards)
  }

  lemma FetchLeads(cfg: Config, c: State, i: nat, w: Will)
    requires Fits(cfg, c, i) && c.threads[i].pc.Fetch?
    ensures Leads(cfg, c, FetchStep(cfg, c, i, false), i, w)
  {
    LeadsOne(cfg, c, FetchStep(cfg, c, i, false), i, w);
  }

  /** The thread and the shards after one shard's part of a batch. */
  function FetchThread(cfg: Config, i: nat, t: Thread, shards: seq<seq<nat>>): (t': Thread)
    requires ConfigOk(cfg) && i < |cfg.home| && |shards| == cfg.shards && t.pc.Fetch? && t.pc.n < cfg.shards
    requires |t.pc.out| < t.pc.target
    ensures t'.pc.Fetch? && t'.pc.n == t.pc.n + 1 && t'.pc.target == t.pc.target && t' == t.(pc := t'.pc)
  {
    var shard := shards[RoundRobin(cfg.home[i], t.pc.n, cfg.shards)];
    t.(pc := Fetch(t.pc.out + Newest(shard, t.pc.target - |t.pc.out|), t.pc.target, t.pc.n + 1))
  }

  function FetchShards(cfg: Config, i: nat, t: Thread, shards: seq<seq<nat>>): (r: seq<seq<nat>>)
    requires ConfigOk(cfg) && i < |cfg.home| && |shards| == cfg.shards && t.pc.Fetch? && t.pc.n < cfg.shards
    requires |t.pc.out| < t.pc.target
    ensures |r| == |shards|
  {
    var k := RoundRobin(cfg.home[i], t.pc.n, cfg.shards);
    shards[k := Left(shards[k], t.pc.target - |t.pc.out|)]
  }

  lemma FetchTakes(cfg: Config, s: State, i: nat, t: Thread, shards: seq<seq<nat>>)
    requires Fits(cfg, s, i) && |shards| == cfg.shards && t.pc.Fetch? && t.pc.n < cfg.shards && |t.pc.out| < t.pc.target
    ensures FetchStep(cfg, With(s, i, t, shards), i, false)
            == With(s, i, FetchThread(cfg, i, t, shards), FetchShards(cfg, i, t, shards))
  {
    ShardAtIsRound(cfg, i, t.pc.n);
    Replaced(s, i, t, FetchThread(cfg, i, t, shards));
  }

  lemma FetchRound(cfg: Config, s: State, i: nat, w: Will, t: Thread, shards: seq<seq<nat>>)
    requires Fits(cfg, s, i) && |shards| == cfg.shards && t.pc.Fetch? && t.pc.n < cfg.shards && |t.pc.out| < t.pc.target
    ensures Leads(cfg, With(s, i, t, shards),
                  With(s, i, FetchThread(cfg, i, t, shards), FetchShards(cfg, i, t, shards)), i, w)
  {
    FetchTakes(cfg, s, i, t, shards);
    FetchLeads(cfg, With(s, i, t, shards), i, w);
  }

  lemma FetchGathers(cfg: Config, i: nat, before: seq<seq<nat>>, t: Thread, shards: seq<seq<nat>>)
    requires ConfigOk(cfg) && i < |cfg.home| && |before| == |shards| == cfg.shards
    requires t.pc.Fetch? && t.pc.n < cfg.shards && |t.pc.out| < t.pc.target
    requires Gathered(before, shards, cfg.home[i], t.pc.target, t.pc.out, t.pc.n)
    ensures var t', shards' := FetchThread(cfg, i, t, shards), FetchShards(cfg, i, t, shards);
            Gathered(before, shards', cfg.home[i], t'.pc.target, t'.pc.out, t'.pc.n)
  {
    GatherNext(before, shards, cfg.home[i], t.pc.target, t.pc.out, t.pc.n);
  }

  lemma FetchEnd(cfg: Config, s: State, i: nat, w: Will, t: Thread, shards: seq<seq<nat>>)
    requires Fits(cfg, s, i) && |shards| == cfg.shards && t.pc.Fetch?
    requires t.pc.n >= cfg.shards || |t.pc.out| >= t.pc.target
    ensures Leads(cfg, With(s, i, t, shards),
                  With(s, i, t.(pc := if t.pc.out == [] then FetchOne(0) else Refill(t.pc.out, 0)), shards), i, w)
  {
    var t' := t.(pc := if t.pc.out == [] then FetchOne(0) else Refill(t.pc.out, 0));
    Replaced(s, i, t, t');
    LeadsOne(cfg, With(s, i, t, shards), With(s, i, t', shards), i, w);
  }

  /** What a fetch of up to target objects leaves: out is the start of all objects in the
      order of the shards, each shard's newest first, and the rest is still there. */
  ghost predicate Fetched(before: seq<seq<nat>>, left: seq<seq<nat>>, home: nat, target: nat, out: seq<nat>)
    requires home < |before|
  {
    var all := InOrder(before, home, |before|);
    && |out| == (if target <= |all| then target else |all|) && out == all[..|out|]
    && |left| == |before| && (forall k :: 0 <= k < |before| ==> left[k] <= before[k])
    && (forall x: nat :: Count(out, x) + InShards(left, x) == InShards(before, x))
  }

  lemma FetchDone(before: seq<seq<nat>>, left: seq<seq<nat>>, home: nat, target: nat, out: seq<nat>, n: nat)
    requires home < |before| && n <= |before| && Gathered(before, left, home, target, out, n)
    requires n == |before| || |out| == target
    ensures Fetched(before, left, home, target, out)
  {
    GatherEnds(before, left, home, target, out, n);
  }

  /** The thread after the fetch. */
  function Loaded(t: Thread, out: seq<nat>): Thread {
    t.(pc := if out == [] then FetchOne(0) else Refill(out, 0))
  }

  /** The own shard is waited for: a refused try-lock can only cost the other ones. */
  lemma HomeIsWaitedFor(cfg: Config, c: State, i: nat, fail: bool)
    requires Fits(cfg, c, i) && (c.threads[i].pc.Fetch? || c.threads[i].pc.FetchOne?) && c.threads[i].pc.n == 0
    ensures c.threads[i].pc.Fetch? ==> FetchStep(cfg, c, i, fail) == FetchStep(cfg, c, i, false)
    ensures c.threads[i].pc.FetchOne? ==> FetchOneStep(cfg, c, i, fail) == FetchOneStep(cfg, c, i, false)
  {
  }

  /** The whole batch, in the order of the shards. */
  lemma {:induction false} FetchAll(cfg: Config, s: State, i: nat, w: Will, t: Thread, shards: seq<seq<nat>>)
    returns (out: seq<nat>, left: seq<seq<nat>>)
    requires Fits(cfg, s, i) && |shards| == cfg.shards && t.pc.Fetch? && t.pc.n <= cfg.shards
    requires Gathered(s.shards, shards, cfg.home[i], t.pc.target, t.pc.out, t.pc.n)
    ensures Fetched(s.shards, left, cfg.home[i], t.pc.target, out)
    ensures Leads(cfg, With(s, i, t, shards), With(s, i, Loaded(t, out), left), i, w)
    decreases cfg.shards - t.pc.n
  {
    if t.pc.n == cfg.shards || |t.pc.out| == t.pc.target {
      FetchEnd(cfg, s, i, w, t, shards);
      out, left := t.pc.out, shards;
      FetchDone(s.shards, left, cfg.home[i], t.pc.target, out, t.pc.n);
    } else {
      var t', shards' := FetchThread(cfg, i, t, shards), FetchShards(cfg, i, t, shards);
      FetchRound(cfg, s, i, w, t, shards);
      FetchGathers(cfg, i, s.shards, t, shards);
      out, left := FetchAll(cfg, s, i, w, t', shards');
      LeadsOn(cfg, With(s, i, t, shards), With(s, i, t', shards'), With(s, i, Loaded(t, out), left), i, w);
    }
  }

  /** The batch after a refill: all but the last of what was fetched. */
  function Refilled(n: nat, out: seq<nat>): seq<Option<nat>> {
    seq(n, j requires 0 <= j => if j < |out| - 1 then Some(out[j]) else None)
  }

  lemma {:induction false} RefillAlone(cfg: Config, s: State, i: nat, w: Will, t: Thread, out: seq<nat>, k: nat)
    requires Fits(cfg, s, i) && t.pc == Refill(out, k) && out != [] && k <= |t.batch|
    requires forall j :: 0 <= j < k ==> t.batch[j] == Refilled(|t.batch|, out)[j]
    ensures Leads(cfg, Place(s, i, t),
                  Place(s, i, t.(batch := Refilled(|t.batch|, out), count := |out| - 1,
                                 pc := Returning(out[|out| - 1]))),
                  i, w)
    decreases |t.batch| - k
  {
    GetCacheStep(cfg, s, i, w, t);
    var end := t.(batch := Refilled(|t.batch|, out), count := |out| - 1, pc := Returning(out[|out| - 1]));
    if k == |t.batch| {
      assert t.batch == Refilled(|t.batch|, out);
    } else {
      var t' := GetStep(cfg, t, false, w.size);
      RefillAlone(cfg, s, i, w, t', out, k + 1);
      ThenPlace(cfg, s, i, w, t, t', end);
    }
  }

  /** The state with the newest object of shard k on its way to the caller. */
  function OneFrom(s: State, i: nat, t: Thread, k: nat): State
    requires i < |s.threads| && k < |s.shards| && s.shards[k] != []
  {
    var top := |s.shards[k]| - 1;
    With(s, i, t.(pc := Returning(s.shards[k][top])), s.shards[k := s.shards[k][..top]])
  }

  /** The state in which the factory was asked. */
  function OneMade(s: State, i: nat, t: Thread, factory: bool): State
    requires i < |s.threads|
  {
    if factory then Place(s, i, t.(pc := Returning(s.created))).(created := s.created + 1)
    else Place(s, i, t.(pc := Ready))
  }

  /** A single object, from round n on: the newest of the first stocked shard. */
  function OneAnswer(cfg: Config, s: State, i: nat, factory: bool, t: Thread, n: nat): State
    requires Fits(cfg, s, i) && n <= cfg.shards
  {
    var r := FirstStocked(s.shards, cfg.home[i], n);
    if r < cfg.shards then OneFrom(s, i, t, RoundRobin(cfg.home[i], r, cfg.shards)) else OneMade(s, i, t, factory)
  }

  /** An empty shard makes no difference. */
  lemma OneAnswerNext(cfg: Config, s: State, i: nat, factory: bool, t: Thread, n: nat, pc: Pc)
    requires Fits(cfg, s, i) && n < cfg.shards && s.shards[RoundRobin(cfg.home[i], n, cfg.shards)] == []
    ensures OneAnswer(cfg, s, i, factory, t, n) == OneAnswer(cfg, s, i, factory, t.(pc := pc), n + 1)
  {
  }

  lemma {:induction false} FetchOneAlone(cfg: Config, s: State, i: nat, w: Will, t: Thread, n: nat)
    requires Fits(cfg, s, i) && t.pc == FetchOne(n) && n <= cfg.shards
    ensures Leads(cfg, Place(s, i, t), OneAnswer(cfg, s, i, w.factory, t, n), i, w)
    decreases cfg.shards - n
  {
    if n == cfg.shards {
      FetchOneEnd(cfg, s, i, w, t);
    } else if s.shards[RoundRobin(cfg.home[i], n, cfg.shards)] != [] {
      FetchOneTakes(cfg, s, i, w, t);
    } else {
      var t' := t.(pc := FetchOne(n + 1));
      FetchOneAlone(cfg, s, i, w, t', n + 1);
      FetchOneMisses(cfg, s, i, w, t, OneAnswer(cfg, s, i, w.factory, t', n + 1));
      OneAnswerNext(cfg, s, i, w.factory, t, n, t'.pc);
    }
  }

  lemma FetchOneEnd(cfg: Config, s: State, i: nat, w: Will, t: Thread)
    requires Fits(cfg, s, i) && t.pc == FetchOne(cfg.shards)
    ensures Leads(cfg, Place(s, i, t), OneMade(s, i, t, w.factory), i, w)
  {
    Replaced(s, i, t, t.(pc := Returning(s.created)));
    Replaced(s, i, t, t.(pc := Ready));
    LeadsOne(cfg, Place(s, i, t), One(cfg, Place(s, i, t), i, w), i, w);
  }

  lemma FetchOneTakes(cfg: Config, s: State, i: nat, w: Will, t: Thread)
    requires Fits(cfg, s, i) && t.pc.FetchOne? && t.pc.n < cfg.shards
    requires s.shards[RoundRobin(cfg.home[i], t.pc.n, cfg.shards)] != []
    ensures Leads(cfg, Place(s, i, t), OneFrom(s, i, t, RoundRobin(cfg.home[i], t.pc.n, cfg.shards)), i, w)
  {
    var k := RoundRobin(cfg.home[i], t.pc.n, cfg.shards);
    ShardAtIsRound(cfg, i, t.pc.n);
    Replaced(s, i, t, t.(pc := Returning(s.shards[k][|s.shards[k]| - 1])));
    LeadsOne(cfg, Place(s, i, t), One(cfg, Place(s, i, t), i, w), i, w);
  }

  /** What follows an empty shard. */
  lemma FetchOneMisses(cfg: Config, s: State, i: nat, w: Will, t: Thread, u: State)
    requires Fits(cfg, s, i) && t.pc.FetchOne? && t.pc.n < cfg.shards
    requires s.shards[RoundRobin(cfg.home[i], t.pc.n, cfg.shards)] == []
    requires Leads(cfg, Place(s, i, t.(pc := FetchOne(t.pc.n + 1))), u, i, w)
    ensures Leads(cfg, Place(s, i, t), u, i, w)
  {
    var t' := t.(pc := FetchOne(t.pc.n + 1));
    FetchOneStays(cfg, s, i, w, t);
    LeadsOn(cfg, Place(s, i, t), Place(s, i, t'), u, i, w);
  }

  lemma FetchOneStays(cfg: Config, s: State, i: nat, w: Will, t: Thread)
    requires Fits(cfg, s, i) && t.pc.FetchOne? && t.pc.n < cfg.shards
    requires s.shards[RoundRobin(cfg.home[i], t.pc.n, cfg.shards)] == []
    ensures Leads(cfg, Place(s, i, t), Place(s, i, t.(pc := FetchOne(t.pc.n + 1))), i, w)
  {
    ShardAtIsRound(cfg, i, t.pc.n);
    Replaced(s, i, t, t.(pc := FetchOne(t.pc.n + 1)));
    LeadsOne(cfg, Place(s, i, t), Place(s, i, t.(pc := FetchOne(t.pc.n + 1))), i, w);
  }

  // ----- handing out -----

  /** The last step: the object is in the caller's hands. */
  lemma HandOut(cfg: Config, s: State, i: nat, w: Will, t: Thread, p: nat)
    requires Fits(cfg, s, i) && t.pc == Returning(p)
    ensures Leads(cfg, Place(s, i, t), Place(s, i, t.(pc := Ready)).(hands := s.hands + [p]), i, w)
  {
    Replaced(s, i, t, t.(pc := Ready));
    LeadsOne(cfg, Place(s, i, t), One(cfg, Place(s, i, t), i, w), i, w);
  }

  /** From any later state of the same thread. */
  lemma HandOutThen(cfg: Config, s: State, u: State, i: nat, w: Will, t: Thread, p: nat)
    requires Fits(cfg, u, i) && t.pc == Returning(p) && Leads(cfg, s, Place(u, i, t), i, w)
    ensures Leads(cfg, s, Place(u, i, t.(pc := Ready)).(hands := u.hands + [p]), i, w)
  {
    HandOut(cfg, u, i, w, t, p);
    LeadsOn(cfg, s, Place(u, i, t), Place(u, i, t.(pc := Ready)).(hands := u.hands + [p]), i, w);
  }

  // ----- the whole call -----

  /** What Get does for a thread whose cache is this pool's, from b to u. */
  ghost predicate CachedGet(cfg: Config, b: State, u: State, i: nat, w: Will)
    requires Fits(cfg, b, i)
  {
    var t := b.threads[i];
    if t.fast.Some? then
      u == Place(b, i, t.(fast := None, pc := Ready)).(hands := b.hands + [t.fast.value])
    else if !NoBatch(t) then
      exists j: nat :: Chosen(t, j)
        && u == Place(b, i, Popped(t, j).(pc := Ready)).(hands := b.hands + [t.batch[j].value])
    else SharedGet(cfg, b, u, i, w)
  }

  /** With nothing in the cache: from the shards, or new. */
  ghost predicate SharedGet(cfg: Config, b: State, u: State, i: nat, w: Will)
    requires Fits(cfg, b, i)
  {
    var t, home := b.threads[i], cfg.home[i];
    var all := InOrder(b.shards, home, cfg.shards);
    if all != [] then
      exists out: seq<nat>, left: seq<seq<nat>> ::
        && Fetched(b.shards, left, home, Effective(cfg, w.size), out) && out != []
        && u == With(b, i, t.(batch := Refilled(|t.batch|, out), count := |out| - 1, pc := Ready), left)
                .(hands := b.hands + [out[|out| - 1]])
    else NewGet(b, u, i, w, t.(count := 0, pc := Ready))
  }

  /** Everything is empty: what the factory gives. */
  ghost predicate NewGet(b: State, u: State, i: nat, w: Will, t: Thread)
    requires i < |b.threads|
  {
    u == if w.factory then Place(b, i, t).(hands := b.hands + [b.created], created := b.created + 1)
         else Place(b, i, t)
  }

  /** A thread at its first look, with a count that fits. */
  ghost predicate AtFast(cfg: Config, b: State, i: nat) {
    && Fits(cfg, b, i) && b.threads[i].pc == FastLook && b.threads[i].count <= |b.threads[i].batch|
    && |b.threads[i].batch| == Capacity(cfg)
  }

  lemma FastGet(cfg: Config, b: State, i: nat, w: Will)
    requires AtFast(cfg, b, i) && b.threads[i].fast.Some?
    ensures var t := b.threads[i];
            Leads(cfg, b, Place(b, i, t.(fast := None, pc := Ready)).(hands := b.hands + [t.fast.value]), i, w)
  {
    var t := b.threads[i];
    var t1, t2 := t.(pc := FastTake), t.(fast := None, pc := Returning(t.fast.value));
    PlaceSelf(b, i);
    GetCacheStep(cfg, b, i, w, t);
    GetCacheStep(cfg, b, i, w, t1);
    ThenPlace(cfg, b, i, w, t, t1, t2);
    HandOutThen(cfg, b, b, i, w, t2, t.fast.value);
  }

  lemma BatchGet(cfg: Config, b: State, i: nat, w: Will, j: nat)
    requires AtFast(cfg, b, i) && b.threads[i].fast.None? && Chosen(b.threads[i], j)
    ensures var t := b.threads[i];
            Leads(cfg, b, Place(b, i, Popped(t, j).(pc := Ready)).(hands := b.hands + [t.batch[j].value]), i, w)
  {
    var t := b.threads[i];
    var t1 := t.(pc := PopLook);
    PlaceSelf(b, i);
    GetCacheStep(cfg, b, i, w, t);
    PopAlone(cfg, b, i, w, t1, j);
    ThenPlace(cfg, b, i, w, t, t1, Popped(t, j));
    HandOutThen(cfg, b, b, i, w, Popped(t, j), t.batch[j].value);
  }

  /** With an empty cache the thread fetches from the shards. */
  lemma GoFetch(cfg: Config, b: State, i: nat, w: Will) returns (out: seq<nat>, left: seq<seq<nat>>)
    requires AtFast(cfg, b, i) && b.threads[i].fast.None? && NoBatch(b.threads[i])
    ensures Fetched(b.shards, left, cfg.home[i], Effective(cfg, w.size), out)
    ensures Leads(cfg, b, With(b, i, Loaded(b.threads[i].(count := 0), out), left), i, w)
  {
    var t := b.threads[i];
    var t1 := t.(pc := PopLook);
    var t2 := t.(count := 0, pc := Fetch([], Effective(cfg, w.size), 0));
    PlaceSelf(b, i);
    GetCacheStep(cfg, b, i, w, t);
    PopFails(cfg, b, i, w, t1);
    ThenPlace(cfg, b, i, w, t, t1, t2);
    GatherStart(b.shards, cfg.home[i], Effective(cfg, w.size));
    out, left := FetchAll(cfg, b, i, w, t2, b.shards);
    LeadsOn(cfg, b, Place(b, i, t2), With(b, i, Loaded(t2, out), left), i, w);
  }

  lemma RefillGet(cfg: Config, b: State, i: nat, w: Will, t: Thread, out: seq<nat>, left: seq<seq<nat>>)
    requires Fits(cfg, b, i) && out != [] && |left| == cfg.shards
    requires Leads(cfg, b, With(b, i, Loaded(t, out), left), i, w)
    ensures Leads(cfg, b, With(b, i, t.(batch := Refilled(|t.batch|, out), count := |out| - 1, pc := Ready), left)
                          .(hands := b.hands + [out[|out| - 1]]), i, w)
  {
    var c := b.(shards := left);
    var end := t.(batch := Refilled(|t.batch|, out), count := |out| - 1, pc := Returning(out[|out| - 1]));
    RefillAlone(cfg, c, i, w, Loaded(t, out), out, 0);
    LeadsOn(cfg, b, Place(c, i, Loaded(t, out)), Place(c, i, end), i, w);
    HandOutThen(cfg, b, c, i, w, end, out[|out| - 1]);
  }

  /** Nothing fetched: every shard is empty, and the shards are as they were. */
  lemma NothingFetched(before: seq<seq<nat>>, left: seq<seq<nat>>, home: nat, target: nat)
    requires home < |before| && target > 0 && Fetched(before, left, home, target, [])
    ensures InOrder(before, home, |before|) == [] && left == before
    ensures FirstStocked(before, home, 0) == |before|
  {
    AllEmpty(before, home);
    forall k | 0 <= k < |before| ensures left[k] == before[k] {
      assert left[k] <= before[k];
    }
  }

  ghost predicate NoShared(stored: seq<seq<nat>>) {
    forall k :: 0 <= k < |stored| ==> stored[k] == []
  }

  lemma {:induction false} NothingInOrder(stored: seq<seq<nat>>, home: nat, n: nat)
    requires home < |stored| && n <= |stored| && NoShared(stored)
    ensures InOrder(stored, home, n) == []
  {
    if n > 0 {
      NothingInOrder(stored, home, n - 1);
    }
  }

  /** An order without objects is one of empty shards. */
  lemma {:induction false} EmptyOrder(before: seq<seq<nat>>, home: nat, n: nat, m: nat)
    requires home < |before| && m < n <= |before| && InOrder(before, home, n) == []
    ensures before[RoundRobin(home, m, |before|)] == []
  {
    if m < n - 1 {
      EmptyOrder(before, home, n - 1, m);
    }
  }

  lemma AllEmpty(before: seq<seq<nat>>, home: nat)
    requires home < |before| && InOrder(before, home, |before|) == []
    ensures NoShared(before) && FirstStocked(before, home, 0) == |before|
  {
    forall k | 0 <= k < |before| ensures before[k] == [] {
      var m := RoundRobinCovers(home, k, |before|);
      EmptyOrder(before, home, |before|, m);
    }
  }

  lemma FactoryGet(cfg: Config, b: State, i: nat, w: Will, t: Thread)
    requires Fits(cfg, b, i) && t.pc == FetchOne(0) && FirstStocked(b.shards, cfg.home[i], 0) == cfg.shards
    requires Leads(cfg, b, Place(b, i, t), i, w)
    ensures exists u :: Leads(cfg, b, u, i, w) && NewGet(b, u, i, w, t.(pc := Ready))
  {
    FetchOneAlone(cfg, b, i, w, t, 0);
    if w.factory {
      var c := b.(created := b.created + 1);
      LeadsOn(cfg, b, Place(b, i, t), Place(c, i, t.(pc := Returning(b.created))), i, w);
      HandOutThen(cfg, b, c, i, w, t.(pc := Returning(b.created)), b.created);
      assert NewGet(b, Place(c, i, t.(pc := Ready)).(hands := b.hands + [b.created]), i, w, t.(pc := Ready));
    } else {
      LeadsOn(cfg, b, Place(b, i, t), Place(b, i, t.(pc := Ready)), i, w);
      assert NewGet(b, Place(b, i, t.(pc := Ready)), i, w, t.(pc := Ready));
    }
  }

  lemma EmptyCacheGet(cfg: Config, b: State, i: nat, w: Will) returns (u: State)
    requires AtFast(cfg, b, i) && b.threads[i].fast.None? && NoBatch(b.threads[i])
    ensures Leads(cfg, b, u, i, w) && SharedGet(cfg, b, u, i, w)
  {
    var t := b.threads[i];
    var out, left := GoFetch(cfg, b, i, w);
    EffectiveBounds(cfg, w.size);
    if out == [] {
      NothingFetched(b.shards, left, cfg.home[i], Effective(cfg, w.size));
      FactoryGet(cfg, b, i, w, t.(count := 0, pc := FetchOne(0)));
      u :| Leads(cfg, b, u, i, w) && NewGet(b, u, i, w, t.(count := 0, pc := Ready));
    } else {
      RefillGet(cfg, b, i, w, t.(count := 0), out, left);
      u := With(b, i, t.(batch := Refilled(|t.batch|, out), count := |out| - 1, pc := Ready), left)
           .(hands := b.hands + [out[|out| - 1]]);
    }
  }

  lemma CacheGet(cfg: Config, b: State, i: nat, w: Will) returns (u: State)
    requires AtFast(cfg, b, i)
    ensures Leads(cfg, b, u, i, w) && CachedGet(cfg, b, u, i, w)
  {
    var t := b.threads[i];
    if t.fast.Some? {
      FastGet(cfg, b, i, w);
      u := Place(b, i, t.(fast := None, pc := Ready)).(hands := b.hands + [t.fast.value]);
    } else if !NoBatch(t) {
      var j := SomeChosen(t);
      BatchGet(cfg, b, i, w, j);
      u := Place(b, i, Popped(t, j).(pc := Ready)).(hands := b.hands + [t.batch[j].value]);
    } else {
      u := EmptyCacheGet(cfg, b, i, w);
    }
  }

  // ----- from the call on -----

  lemma BeginGet(cfg: Config, s: State, i: nat, w: Will)
    requires Fits(cfg, s, i) && MayCall(s, i) && w.act == CallGet
    ensures Leads(cfg, s, Place(s, i, OwnerStep(s.threads[i].(pc := GetBegin))), i, w)
  {
    var t := s.threads[i];
    LeadsOne(cfg, s, Place(s, i, t.(pc := GetBegin)), i, w);
    OwnStep(cfg, s, i, w, t.(pc := GetBegin));
    LeadsOn(cfg, s, Place(s, i, t.(pc := GetBegin)), Place(s, i, OwnerStep(t.(pc := GetBegin))), i, w);
  }

  lemma EnterGet(cfg: Config, s: State, i: nat, w: Will)
    requires Fits(cfg, s, i) && MayCall(s, i) && w.act == CallGet && s.threads[i].owner != Elsewhere
    ensures Leads(cfg, s, Goto(Entered(s, i), i, FastLook), i, w)
  {
    BeginGet(cfg, s, i, w);
    var t := s.threads[i];
    if t.owner == Nobody {
      var t1, t2 := t.(owner := Here, pc := Register([])), t.(owner := Here, pc := FastLook);
      var b := Place(s, i, t2).(registry := s.registry + [i]);
      Replaced(s, i, t1, t2);
      Replaced(s, i, t.(owner := Here), t2);
      LeadsOne(cfg, Place(s, i, t1), b, i, w);
      LeadsOn(cfg, s, Place(s, i, t1), b, i, w);
    }
  }

  /** A cache of another pool is passed by: the newest object of the first stocked shard. */
  ghost predicate PassedGet(cfg: Config, s: State, u: State, i: nat, w: Will)
    requires Fits(cfg, s, i)
  {
    var r := FirstStocked(s.shards, cfg.home[i], 0);
    if r == cfg.shards then NewGet(s, u, i, w, s.threads[i].(pc := Ready))
    else
      var k := RoundRobin(cfg.home[i], r, cfg.shards);
      var top := |s.shards[k]| - 1;
      u == With(s, i, s.threads[i].(pc := Ready), s.shards[k := s.shards[k][..top]])
           .(hands := s.hands + [s.shards[k][top]])
  }

  lemma PassGet(cfg: Config, s: State, i: nat, w: Will) returns (u: State)
    requires Fits(cfg, s, i) && MayCall(s, i) && w.act == CallGet && s.threads[i].owner == Elsewhere
    ensures Leads(cfg, s, u, i, w) && PassedGet(cfg, s, u, i, w)
  {
    var t, r := s.threads[i].(pc := FetchOne(0)), FirstStocked(s.shards, cfg.home[i], 0);
    BeginGet(cfg, s, i, w);
    if r == cfg.shards {
      FactoryGet(cfg, s, i, w, t);
      u :| Leads(cfg, s, u, i, w) && NewGet(s, u, i, w, t.(pc := Ready));
    } else {
      u := PassTakes(cfg, s, i, w, t, r);
    }
  }

  lemma PassTakes(cfg: Config, s: State, i: nat, w: Will, t: Thread, r: nat) returns (u: State)
    requires Fits(cfg, s, i) && t == s.threads[i].(pc := FetchOne(0)) && Leads(cfg, s, Place(s, i, t), i, w)
    requires r == FirstStocked(s.shards, cfg.home[i], 0) < cfg.shards
    ensures Leads(cfg, s, u, i, w) && PassedGet(cfg, s, u, i, w)
  {
    var k := RoundRobin(cfg.home[i], r, cfg.shards);
    var p, rest := s.shards[k][|s.shards[k]| - 1], s.shards[k][..|s.shards[k]| - 1];
    var c, t' := s.(shards := s.shards[k := rest]), t.(pc := Returning(p));
    FetchOneAlone(cfg, s, i, w, t, 0);
    LeadsOn(cfg, s, Place(s, i, t), Place(c, i, t'), i, w);
    HandOutThen(cfg, s, c, i, w, t', p);
    u := Place(c, i, t'.(pc := Ready)).(hands := s.hands + [p]);
  }

  /** The effect of the whole call. */
  ghost predicate GetDone(cfg: Config, s: State, u: State, i: nat, w: Will)
    requires Fits(cfg, s, i)
  {
    if s.threads[i].owner == Elsewhere then PassedGet(cfg, s, u, i, w)
    else CachedGet(cfg, Entered(s, i), u, i, w)
  }

  /** CachedGet does not depend on where in the call the thread is. */
  lemma FromFast(cfg: Config, b: State, u: State, i: nat, w: Will)
    requires Fits(cfg, b, i) && CachedGet(cfg, Goto(b, i, FastLook), u, i, w)
    ensures CachedGet(cfg, b, u, i, w)
  {
    var t, c := b.threads[i], Goto(b, i, FastLook);
    forall v: Thread ensures Place(c, i, v) == Place(b, i, v) {
      Replaced(b, i, t.(pc := FastLook), v);
    }
    if t.fast.None? && !NoBatch(t) {
      var j: nat :| Chosen(c.threads[i], j)
                    && u == Place(c, i, Popped(c.threads[i], j).(pc := Ready))
                            .(hands := c.hands + [c.threads[i].batch[j].value]);
      assert Chosen(t, j);
    }
  }

  /** Get of a thread that runs alone from any reachable state on. */
  lemma GetEnds(cfg: Config, sch: seq<Choice>, i: nat, w: Will) returns (u: State)
    requires ConfigOk(cfg) && MayCall(Run(cfg, sch), i) && w.act == CallGet
    ensures Leads(cfg, Run(cfg, sch), u, i, w) && GetDone(cfg, Run(cfg, sch), u, i, w)
  {
    var s := Run(cfg, sch);
    if s.threads[i].owner == Elsewhere {
      u := PassGet(cfg, s, i, w);
    } else {
      var b := Goto(Entered(s, i), i, FastLook);
      RunInv(cfg, sch);
      assert Local(cfg, s.threads[i]);
      EnterGet(cfg, s, i, w);
      u := CacheGet(cfg, b, i, w);
      LeadsOn(cfg, s, b, u, i, w);
      FromFast(cfg, Entered(s, i), u, i, w);
    }
  }

  // ----- what the caller sees -----

  /** The pool has nothing that the thread could reach. */
  ghost predicate Dry(s: State, i: nat)
    requires i < |s.threads|
  {
    s.threads[i].fast.None? && NoBatch(s.threads[i]) && NoShared(s.shards)
  }

  lemma {:induction false} NothingBefore(stored: seq<seq<nat>>, home: nat, n: nat)
    requires home < |stored| && n <= FirstStocked(stored, home, 0)
    ensures InOrder(stored, home, n) == []
  {
    if n > 0 {
      NothingBefore(stored, home, n - 1);
      assert stored[RoundRobin(home, n - 1, |stored|)] == [];
    }
  }

  /** The newest object of the first stocked shard is the first of all. */
  lemma FirstInOrder(stored: seq<seq<nat>>, home: nat)
    requires home < |stored| && FirstStocked(stored, home, 0) < |stored|
    ensures var shard := stored[RoundRobin(home, FirstStocked(stored, home, 0), |stored|)];
            var all := InOrder(stored, home, |stored|);
            shard != [] && all != [] && all[0] == shard[|shard| - 1]
  {
    var r := FirstStocked(stored, home, 0);
    var shard := stored[RoundRobin(home, r, |stored|)];
    NothingBefore(stored, home, r);
    assert InOrder(stored, home, r + 1) == Reversed(shard);
    ReversedAt(shard, 0);
    InOrderGrows(stored, home, r + 1, |stored|);
  }

  /** Which of the shared objects is handed out: the last of those fetched for the cache, or the
      first of all if the cache is another pool's. */
  ghost predicate FromShared(cfg: Config, s: State, u: State, i: nat, w: Will)
    requires Fits(cfg, s, i)
  {
    var all := InOrder(s.shards, cfg.home[i], cfg.shards);
    var got := if s.threads[i].owner == Elsewhere then 1 else Min(Effective(cfg, w.size), |all|);
    0 < got <= |all| && u.hands == s.hands + [all[got - 1]] && u.created == s.created
  }

  ghost predicate FromFactory(s: State, u: State, w: Will) {
    if w.factory then u.hands == s.hands + [s.created] && u.created == s.created + 1
    else u.hands == s.hands && u.created == s.created
  }

  /** What the caller gets. */
  ghost predicate Obtained(cfg: Config, s: State, u: State, i: nat, w: Will)
    requires Fits(cfg, s, i)
  {
    var t := s.threads[i];
    if t.fast.Some? then u.hands == s.hands + [t.fast.value] && u.created == s.created
    else if !NoBatch(t) then
      exists j: nat :: Chosen(t, j) && u.hands == s.hands + [t.batch[j].value] && u.created == s.created
    else if !NoShared(s.shards) then FromShared(cfg, s, u, i, w)
    else FromFactory(s, u, w)
  }

  lemma PassedObtains(cfg: Config, s: State, u: State, i: nat, w: Will)
    requires Fits(cfg, s, i) && s.threads[i].owner == Elsewhere && PassedGet(cfg, s, u, i, w)
    requires s.threads[i].fast.None? && NoBatch(s.threads[i])
    ensures Obtained(cfg, s, u, i, w)
  {
    if FirstStocked(s.shards, cfg.home[i], 0) == cfg.shards {
      NothingBefore(s.shards, cfg.home[i], cfg.shards);
      AllEmpty(s.shards, cfg.home[i]);
    } else {
      FirstInOrder(s.shards, cfg.home[i]);
      assert FromShared(cfg, s, u, i, w);
    }
  }

  lemma SharedObtains(cfg: Config, s: State, u: State, i: nat, w: Will)
    requires Fits(cfg, s, i) && s.threads[i].owner != Elsewhere && SharedGet(cfg, Entered(s, i), u, i, w)
    requires s.threads[i].fast.None? && NoBatch(s.threads[i])
    ensures Obtained(cfg, s, u, i, w)
  {
    EffectiveBounds(cfg, w.size);
    if NoShared(s.shards) {
      NothingInOrder(s.shards, cfg.home[i], cfg.shards);
    } else if InOrder(s.shards, cfg.home[i], cfg.shards) == [] {
      AllEmpty(s.shards, cfg.home[i]);
      assert false;
    } else {
      assert FromShared(cfg, s, u, i, w);
    }
  }

  lemma CachedObtains(cfg: Config, s: State, u: State, i: nat, w: Will)
    requires Fits(cfg, s, i) && s.threads[i].owner != Elsewhere && CachedGet(cfg, Entered(s, i), u, i, w)
    ensures Obtained(cfg, s, u, i, w)
  {
    var t, b := s.threads[i], Entered(s, i);
    if t.fast.None? && !NoBatch(t) {
      var j: nat :| Chosen(b.threads[i], j)
                    && u == Place(b, i, Popped(b.threads[i], j).(pc := Ready))
                            .(hands := b.hands + [b.threads[i].batch[j].value]);
      assert Chosen(t, j);
    } else if t.fast.None? {
      SharedObtains(cfg, s, u, i, w);
    }
  }

  /** Get running alone from any reachable state: it ends, and hands out the fast slot's object,
      else one of the batch, else one of the shards; a new object or nothing exactly when all
      of these are empty. */
  lemma GetAlone(cfg: Config, sch: seq<Choice>, i: nat, w: Will) returns (u: State)
    requires ConfigOk(cfg) && MayCall(Run(cfg, sch), i) && w.act == CallGet
    ensures var s := Run(cfg, sch);
            Leads(cfg, s, u, i, w) && u.threads[i].pc == Ready && Obtained(cfg, s, u, i, w)
            && GetDone(cfg, s, u, i, w)
    ensures var s := Run(cfg, sch);
            Dry(s, i) <==> (u.hands == s.hands || u.created == s.created + 1)
  {
    var s := Run(cfg, sch);
    RunInv(cfg, sch);
    assert Local(cfg, s.threads[i]);
    u := GetEnds(cfg, sch, i, w);
    if s.threads[i].owner == Elsewhere {
      PassedObtains(cfg, s, u, i, w);
    } else {
      CachedObtains(cfg, s, u, i, w);
    }
  }
}
