/** When the epoch advances: a reclaim call increments it if no active thread is in an older
    epoch during its scan, whatever else happens meanwhile; running alone it does so if and
    only if no such thread is there. */
module EbrAdvance {
  import opened Ring
  import opened Ebr
  import opened EbrDrain

  predicate Lags(t: Thread, epoch: nat) {
    t.active && t.epoch < epoch
  }

  // ----- a scan among other threads -----

  /** Threads are active exactly inside, and no scan is ahead of the epoch. */
  ghost predicate ScanInv(s: State) {
    && |s.buckets| == 3
    && (forall k :: 0 <= k < |s.threads| ==> (s.threads[k].active <==> s.threads[k].sec.Inside?))
    && (forall i :: 0 <= i < |s.reclaimers| && Scans(s.reclaimers[i]) ==> s.reclaimers[i].cur <= s.epoch)
  }

  lemma ScanInvNext(s: State, c: Choice)
    requires ScanInv(s)
    ensures ScanInv(Next(s, c)) && Next(s, c).epoch >= s.epoch
  {
  }

  lemma {:induction false} RunScanInv(threads: nat, retirers: nat, reclaimers: nat, sch: seq<Choice>)
    ensures ScanInv(Run(threads, retirers, reclaimers, sch))
  {
    if sch != [] {
      RunScanInv(threads, retirers, reclaimers, sch[..|sch| - 1]);
      ScanInvNext(Run(threads, retirers, reclaimers, sch[..|sch| - 1]), sch[|sch| - 1]);
    }
  }

  /** A thread that will not show an epoch below cur. */
  predicate Recent(t: Thread, cur: nat) {
    t.epoch >= cur && (t.sec.Loaded? ==> t.sec.e >= cur)
  }

  /** The thread a scan is about to compare was seen active, and is recent. */
  ghost predicate SeenRecent(s: State, r: nat, cur: nat) {
    && r < |s.reclaimers| && Scans(s.reclaimers[r]) && s.reclaimers[r].cur == cur
    && (s.reclaimers[r].ScanEpoch? && s.reclaimers[r].k < |s.threads| ==> Recent(s.threads[s.reclaimers[r].k], cur))
  }

  lemma RecentNext(s: State, c: Choice, k: nat, cur: nat)
    requires |s.buckets| == 3 && k < |s.threads| && Recent(s.threads[k], cur) && cur <= s.epoch
    ensures Recent(Next(s, c).threads[k], cur)
  {
  }

  /** One step of anybody: the scan goes on with what it knows, or ends in the increment. */
  lemma ScanGoesOn(s: State, c: Choice, r: nat, cur: nat)
    requires ScanInv(s) && SeenRecent(s, r, cur) && forall k :: 0 <= k < |s.threads| ==> !Lags(s.threads[k], cur)
    ensures SeenRecent(Next(s, c), r, cur) || Next(s, c).reclaimers[r].Increment?
  {
    if !(c.MoveReclaimer? && c.i == r) {
      var k := s.reclaimers[r].k;
      assert Next(s, c).reclaimers[r] == s.reclaimers[r];
      if s.reclaimers[r].ScanEpoch? && k < |s.threads| {
        RecentNext(s, c, k, cur);
      }
    }
  }

  /** Reclaimer r scans for epoch cur, and no active thread lags behind it. */
  ghost predicate FreeAt(s: State, r: nat, cur: nat) {
    && r < |s.reclaimers| && Scans(s.reclaimers[r]) && s.reclaimers[r].cur == cur
    && forall k :: 0 <= k < |s.threads| ==> !Lags(s.threads[k], cur)
  }

  /** So it is from time a to b. */
  ghost predicate ScansFreely(threads: nat, retirers: nat, reclaimers: nat, sch: seq<Choice>, r: nat, cur: nat,
                              a: nat, b: nat)
  {
    a <= b <= |sch| && forall j :: a <= j <= b ==> FreeAt(Run(threads, retirers, reclaimers, sch[..j]), r, cur)
  }

  lemma RunStep(threads: nat, retirers: nat, reclaimers: nat, sch: seq<Choice>, j: nat)
    requires j < |sch|
    ensures Run(threads, retirers, reclaimers, sch[..j + 1])
            == Next(Run(threads, retirers, reclaimers, sch[..j]), sch[j])
  {
    assert sch[..j + 1][..j] == sch[..j];
  }

  lemma ScanStep(threads: nat, retirers: nat, reclaimers: nat, sch: seq<Choice>, r: nat, cur: nat, j: nat)
    requires j < |sch| && FreeAt(Run(threads, retirers, reclaimers, sch[..j]), r, cur)
    requires SeenRecent(Run(threads, retirers, reclaimers, sch[..j]), r, cur)
    ensures var u := Run(threads, retirers, reclaimers, sch[..j + 1]);
            SeenRecent(u, r, cur) || (r < |u.reclaimers| && u.reclaimers[r].Increment?)
  {
    RunScanInv(threads, retirers, reclaimers, sch[..j]);
    RunStep(threads, retirers, reclaimers, sch, j);
    ScanGoesOn(Run(threads, retirers, reclaimers, sch[..j]), sch[j], r, cur);
  }

  lemma {:induction false} ScanKnows(threads: nat, retirers: nat, reclaimers: nat, sch: seq<Choice>, r: nat, cur: nat,
                                     a: nat, b: nat)
    requires r < reclaimers && ScansFreely(threads, retirers, reclaimers, sch, r, cur, a, b)
    requires Run(threads, retirers, reclaimers, sch[..a]).reclaimers[r] == ScanActive(cur, 0)
    ensures SeenRecent(Run(threads, retirers, reclaimers, sch[..b]), r, cur)
    decreases b
  {
    if a < b {
      ScanKnows(threads, retirers, reclaimers, sch, r, cur, a, b - 1);
      assert FreeAt(Run(threads, retirers, reclaimers, sch[..b - 1]), r, cur);
      ScanStep(threads, retirers, reclaimers, sch, r, cur, b - 1);
      assert FreeAt(Run(threads, retirers, reclaimers, sch[..b]), r, cur);
    }
  }

  /** A scan during which no active thread is in an older epoch leads to the increment, in
      every interleaving: when it ends, the call is about to advance the epoch. */
  lemma FreeScanAdvances(threads: nat, retirers: nat, reclaimers: nat, sch: seq<Choice>, r: nat, cur: nat, a: nat,
                         b: nat)
    requires r < reclaimers && ScansFreely(threads, retirers, reclaimers, sch, r, cur, a, b) && b < |sch|
    requires Run(threads, retirers, reclaimers, sch[..a]).reclaimers[r] == ScanActive(cur, 0)
    requires !Scans(Run(threads, retirers, reclaimers, sch[..b + 1]).reclaimers[r])
    ensures Run(threads, retirers, reclaimers, sch[..b + 1]).reclaimers[r].Increment?
  {
    ScanKnows(threads, retirers, reclaimers, sch, r, cur, a, b);
    assert FreeAt(Run(threads, retirers, reclaimers, sch[..b]), r, cur);
    ScanStep(threads, retirers, reclaimers, sch, r, cur, b);
  }

  // ----- a call alone -----

  /** Where a scan alone goes from its look at thread k. */
  lemma LookStep(s: State, s': State, r: nat, k: nat)
    requires k <= |s.threads| && Alone(s, s', r, ScanActive(s.epoch, k))
    ensures var u := Next(s', MoveReclaimer(r));
            && u.epoch == s'.epoch && u.buckets == s'.buckets
            && Alone(s, u, r, if k == |s.threads| then Increment
                              else if s.threads[k].active then ScanEpoch(s.epoch, k) else ScanActive(s.epoch, k + 1))
  {
  }

  lemma CompareStep(s: State, s': State, r: nat, k: nat)
    requires k < |s.threads| && Alone(s, s', r, ScanEpoch(s.epoch, k))
    ensures var u := Next(s', MoveReclaimer(r));
            && u.epoch == s'.epoch && u.buckets == s'.buckets
            && Alone(s, u, r, if s.threads[k].epoch < s.epoch then LoadEpoch else ScanActive(s.epoch, k + 1))
  {
  }

  /** The look at thread k. */
  lemma LookAlone(s0: State, s: State, s': State, r: nat, k: nat, i: nat) returns (u: State, m: nat)
    requires |s0.buckets| == 3 && s' == Moves(s0, r, i)
    requires k < |s.threads| && Alone(s, s', r, ScanActive(s.epoch, k))
    ensures u == Moves(s0, r, m) && u.epoch == s'.epoch && u.buckets == s'.buckets
    ensures Alone(s, u, r, if Lags(s.threads[k], s.epoch) then LoadEpoch else ScanActive(s.epoch, k + 1))
  {
    LookStep(s, s', r, k);
    u := Onward(s0, s', r, i);
    m := i + 1;
    if s.threads[k].active {
      CompareStep(s, u, r, k);
      u := Onward(s0, u, r, m);
      m := m + 1;
    }
  }

  /** The look after the last thread. */
  lemma LookPast(s0: State, s: State, s': State, r: nat, i: nat) returns (u: State, m: nat)
    requires |s0.buckets| == 3 && s' == Moves(s0, r, i) && Alone(s, s', r, ScanActive(s.epoch, |s.threads|))
    ensures u == Moves(s0, r, m) && u.epoch == s'.epoch && u.buckets == s'.buckets && Alone(s, u, r, Increment)
  {
    LookStep(s, s', r, |s.threads|);
    u := Onward(s0, s', r, i);
    m := i + 1;
  }

  ghost predicate AnyLags(s: State, k: nat) {
    exists j :: 0 <= j < |s.threads| && k <= j && Lags(s.threads[j], s.epoch)
  }

  /** The scan ends at the increment if nobody lags, and past it otherwise. */
  lemma {:induction false} ScanAlone(s0: State, s: State, s': State, r: nat, k: nat, i: nat) returns (u: State, m: nat)
    requires |s0.buckets| == 3 && s' == Moves(s0, r, i)
    requires k <= |s.threads| && Alone(s, s', r, ScanActive(s.epoch, k))
    ensures u == Moves(s0, r, m) && u.epoch == s'.epoch && u.buckets == s'.buckets
    ensures Alone(s, u, r, if AnyLags(s, k) then LoadEpoch else Increment)
    decreases |s.threads| - k
  {
    if k == |s.threads| {
      u, m := LookPast(s0, s, s', r, i);
    } else {
      u, m := LookAlone(s0, s, s', r, k, i);
      if !Lags(s.threads[k], s.epoch) {
        u, m := ScanAlone(s0, s, u, r, k + 1, m);
        assert AnyLags(s, k) <==> AnyLags(s, k + 1);
      }
    }
  }

  lemma IncrementStep(s: State, s': State, r: nat)
    requires Alone(s, s', r, Increment)
    ensures var u := Next(s', MoveReclaimer(r));
            && u.epoch == s'.epoch + 1 && u.buckets == s'.buckets
            && Alone(s, u, r, LoadEpoch)
  {
  }

  lemma BeginStep(s: State, r: nat)
    requires |s.buckets| == 3 && r < |s.reclaimers| && s.reclaimers[r].CIdle? && s.scanning == None
    ensures var u := Next(s, MoveReclaimer(r));
            && u.epoch == s.epoch && u.buckets == s.buckets
            && Alone(s, u, r, ScanActive(s.epoch, 0))
  {
  }

  /** From any reachable state in which nobody holds the threads mutex, a reclaim call that
      runs alone advances the epoch by one if and only if no active thread is in an older
      epoch; up to its sweep it changes nothing else. */
  lemma AdvancesIff(threads: nat, retirers: nat, reclaimers: nat, sch: seq<Choice>, r: nat) returns (m: nat)
    requires r < reclaimers
    requires var s := Run(threads, retirers, reclaimers, sch); s.reclaimers[r].CIdle? && s.scanning == None
    ensures var s := Run(threads, retirers, reclaimers, sch);
            var u := Moves(s, r, m);
            && u.reclaimers == s.reclaimers[r := LoadEpoch] && u.threads == s.threads && u.buckets == s.buckets
            && u.epoch == s.epoch + (if exists j :: 0 <= j < |s.threads| && s.threads[j].active
                                                    && s.threads[j].epoch < s.epoch then 0 else 1)
  {
    var s := Run(threads, retirers, reclaimers, sch);
    BeginStep(s, r);
    assert Moves(s, r, 0) == s;
    var u := Onward(s, s, r, 0);
    u, m := ScanAlone(s, s, u, r, 0, 1);
    if !AnyLags(s, 0) {
      IncrementStep(s, u, r);
      u := Onward(s, u, r, m);
      m := m + 1;
    }
  }
}
