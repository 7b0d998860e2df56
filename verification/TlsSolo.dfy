/** One thread of the three-tier pool running alone: what its moves lead to if nobody else
    moves, no CAS fails spuriously and no try-lock is refused. */
module TlsSolo {
  import opened Ring
  import opened TlsPool

  /** What the thread is to do: the call, the object it puts back, whether the factory makes
      objects, and the stored adaptive batch size. */
  datatype Will = Will(act: Act, held: nat, factory: bool, size: nat)

  ghost predicate Fits(cfg: Config, s: State, i: nat) {
    ConfigOk(cfg) && |cfg.home| == |s.threads| && |s.shards| == cfg.shards && i < |s.threads|
  }

  /** The choice for the thread's next step; only the factory can fail. */
  function Mine(cfg: Config, s: State, i: nat, w: Will): Choice
    requires i < |s.threads|
  {
    var pc := s.threads[i].pc;
    Choice(i, w.act, pc.FetchOne? && pc.n >= cfg.shards && !w.factory, if pc.Ready? then w.held else w.size)
  }

  function One(cfg: Config, s: State, i: nat, w: Will): (u: State)
    requires Fits(cfg, s, i)
    ensures Fits(cfg, u, i)
  {
    Next(cfg, s, Mine(cfg, s, i, w))
  }

  function Steps(cfg: Config, s: State, i: nat, w: Will, k: nat): (u: State)
    requires Fits(cfg, s, i)
    ensures Fits(cfg, u, i)
    decreases k
  {
    if k == 0 then s else Steps(cfg, One(cfg, s, i, w), i, w, k - 1)
  }

  lemma {:induction false} StepsMore(cfg: Config, s: State, i: nat, w: Will, k: nat, m: nat)
    requires Fits(cfg, s, i)
    ensures Steps(cfg, Steps(cfg, s, i, w, k), i, w, m) == Steps(cfg, s, i, w, k + m)
    decreases k
  {
    if k > 0 {
      StepsMore(cfg, One(cfg, s, i, w), i, w, k - 1, m);
    }
  }

  /** Some number of the thread's own steps lead from s to u. */
  ghost predicate Leads(cfg: Config, s: State, u: State, i: nat, w: Will) {
    Fits(cfg, s, i) && exists k: nat :: Steps(cfg, s, i, w, k) == u
  }

  lemma LeadsNowhere(cfg: Config, s: State, i: nat, w: Will)
    requires Fits(cfg, s, i)
    ensures Leads(cfg, s, s, i, w)
  {
    assert Steps(cfg, s, i, w, 0) == s;
  }

  lemma LeadsOne(cfg: Config, s: State, u: State, i: nat, w: Will)
    requires Fits(cfg, s, i) && One(cfg, s, i, w) == u
    ensures Leads(cfg, s, u, i, w)
  {
    assert Steps(cfg, u, i, w, 0) == u;
    assert Steps(cfg, s, i, w, 1) == u;
  }

  lemma LeadsOn(cfg: Config, s: State, u: State, v: State, i: nat, w: Will)
    requires Leads(cfg, s, u, i, w) && Leads(cfg, u, v, i, w)
    ensures Leads(cfg, s, v, i, w)
  {
    var k: nat :| Steps(cfg, s, i, w, k) == u;
    var m: nat :| Steps(cfg, u, i, w, m) == v;
    StepsMore(cfg, s, i, w, k, m);
    assert Steps(cfg, s, i, w, k + m) == v;
  }

  /** A batch array without objects. */
  function NoSlots(n: nat): seq<Option<nat>> {
    seq(n, _ => None)
  }

  /** The state in which the thread's cache is this pool's: as it is, or with the thread registered. */
  function Entered(s: State, i: nat): State
    requires i < |s.threads|
  {
    if s.threads[i].owner == Nobody then
      Place(s, i, s.threads[i].(owner := Here)).(registry := s.registry + [i])
    else s
  }

  /** A thread may call: it is idle, and nobody holds the registry lock it may need. */
  ghost predicate MayCall(s: State, i: nat) {
    i < |s.threads| && s.threads[i].pc.Ready? && (s.threads[i].owner == Nobody ==> s.lock.None?)
  }

  // ----- steps on the thread's own cache -----

  lemma Replaced(s: State, i: nat, t: Thread, u: Thread)
    requires i < |s.threads|
    ensures Place(Place(s, i, t), i, u) == Place(s, i, u)
  {
    assert s.threads[i := t][i := u] == s.threads[i := u];
  }

  lemma PlaceSelf(b: State, i: nat)
    requires i < |b.threads|
    ensures Place(b, i, b.threads[i]) == b
  {
    assert b.threads[i := b.threads[i]] == b.threads;
  }

  lemma GetCacheStep(cfg: Config, s: State, i: nat, w: Will, t: Thread)
    requires Fits(cfg, s, i) && OnGetCache(t.pc)
    ensures Leads(cfg, Place(s, i, t), Place(s, i, GetStep(cfg, t, false, w.size)), i, w)
  {
    Replaced(s, i, t, GetStep(cfg, t, false, w.size));
    LeadsOne(cfg, Place(s, i, t), Place(s, i, GetStep(cfg, t, false, w.size)), i, w);
  }

  lemma PutCacheStep(cfg: Config, s: State, i: nat, w: Will, t: Thread)
    requires Fits(cfg, s, i) && OnPutCache(t.pc)
    ensures Leads(cfg, Place(s, i, t), Place(s, i, PutStep(cfg, t, w.size)), i, w)
  {
    Replaced(s, i, t, PutStep(cfg, t, w.size));
    LeadsOne(cfg, Place(s, i, t), Place(s, i, PutStep(cfg, t, w.size)), i, w);
  }

  lemma OwnStep(cfg: Config, s: State, i: nat, w: Will, t: Thread)
    requires Fits(cfg, s, i) && OnOwner(t.pc)
    ensures Leads(cfg, Place(s, i, t), Place(s, i, OwnerStep(t)), i, w)
  {
    Replaced(s, i, t, OwnerStep(t));
    LeadsOne(cfg, Place(s, i, t), Place(s, i, OwnerStep(t)), i, w);
  }

  /** Two legs in which only the thread itself changes. */
  lemma ThenPlace(cfg: Config, s: State, i: nat, w: Will, t: Thread, u: Thread, v: Thread)
    requires i < |s.threads|
    requires Leads(cfg, Place(s, i, t), Place(s, i, u), i, w) && Leads(cfg, Place(s, i, u), Place(s, i, v), i, w)
    ensures Leads(cfg, Place(s, i, t), Place(s, i, v), i, w)
  {
    LeadsOn(cfg, Place(s, i, t), Place(s, i, u), Place(s, i, v), i, w);
  }
}
