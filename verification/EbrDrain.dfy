/** Draining after any concurrent past: once no call is in progress and no thread is in a
    critical section, two reclaim calls of any one reclaimer delete everything that was
    ever retired, each node once. */
module EbrDrain {
  import opened Ring
  import opened Ebr
  import opened EbrAccounting

  // ----- what every run keeps -----

  predicate Scans(r: Reclaimer) {
    r.ScanActive? || r.ScanEpoch?
  }

  /** No node is tagged ahead of the epoch, and the mutex is held by a scanning call. */
  ghost predicate DrainInv(s: State) {
    && |s.buckets| == 3
    && (forall b, x :: 0 <= b < 3 && x in s.buckets[b] ==> x.epoch <= s.epoch)
    && (forall i :: 0 <= i < |s.retirers| && s.retirers[i].RTagged? ==> s.retirers[i].node.epoch <= s.epoch)
    && (s.scanning.Some? ==> s.scanning.value < |s.reclaimers| && Scans(s.reclaimers[s.scanning.value]))
    && (forall i :: 0 <= i < |s.reclaimers| && Scans(s.reclaimers[i]) ==> s.scanning == Some(i))
  }

  lemma SweepKeeps(s: State, i: nat)
    requires DrainInv(s) && i < |s.reclaimers| && s.reclaimers[i].Sweep? && s.reclaimers[i].b < 3
    ensures DrainInv(ReclaimStep(s, i))
  {
    var r := s.reclaimers[i];
    forall x | x in Young(s.buckets[r.b], r.safe) ensures x in s.buckets[r.b] {
      OldYoungMember(s.buckets[r.b], r.safe, x);
    }
  }

  lemma ReclaimKeeps(s: State, i: nat)
    requires DrainInv(s) && i < |s.reclaimers|
    ensures DrainInv(ReclaimStep(s, i))
  {
    if s.reclaimers[i].Sweep? && s.reclaimers[i].b < 3 {
      SweepKeeps(s, i);
    }
  }

  lemma RetireKeeps(s: State, i: nat)
    requires DrainInv(s) && i < |s.retirers|
    ensures DrainInv(RetireStep(s, i))
  {
  }

  lemma DrainNext(s: State, c: Choice)
    requires DrainInv(s)
    ensures DrainInv(Next(s, c))
  {
    if c.MoveRetirer? && c.i < |s.retirers| {
      RetireKeeps(s, c.i);
    } else if c.MoveReclaimer? && c.i < |s.reclaimers| {
      ReclaimKeeps(s, c.i);
    }
  }

  lemma {:induction false} RunDrainInv(threads: nat, retirers: nat, reclaimers: nat, sch: seq<Choice>)
    ensures DrainInv(Run(threads, retirers, reclaimers, sch))
  {
    if sch != [] {
      RunDrainInv(threads, retirers, reclaimers, sch[..|sch| - 1]);
      DrainNext(Run(threads, retirers, reclaimers, sch[..|sch| - 1]), sch[|sch| - 1]);
    }
  }

  // ----- one reclaim call on its own -----

  /** No thread is in a critical section. */
  ghost predicate NoneActive(s: State) {
    forall k :: 0 <= k < |s.threads| ==> !s.threads[k].active
  }

  /** From s only reclaimer r has moved, and is now at c. */
  ghost predicate Alone(s: State, s': State, r: nat, c: Reclaimer) {
    && r < |s.reclaimers| && |s'.buckets| == 3 && s'.reclaimers == s.reclaimers[r := c]
    && s'.threads == s.threads && s'.retirers == s.retirers && s'.created == s.created
  }

  /** The state after k moves of reclaimer r. */
  function Moves(s: State, r: nat, k: nat): (s': State)
    requires |s.buckets| == 3
    ensures |s'.buckets| == 3
  {
    if k == 0 then s else Next(Moves(s, r, k - 1), MoveReclaimer(r))
  }

  /** One move more. */
  lemma Onward(s0: State, s: State, r: nat, k: nat) returns (s': State)
    requires |s0.buckets| == 3 && s == Moves(s0, r, k)
    ensures s' == Next(s, MoveReclaimer(r)) == Moves(s0, r, k + 1)
  {
    s' := Next(s, MoveReclaimer(r));
  }

  lemma ScanStep(s: State, s': State, r: nat, k: nat)
    requires NoneActive(s) && k <= |s.threads| && Alone(s, s', r, ScanActive(s.epoch, k))
    ensures var u := Next(s', MoveReclaimer(r));
            && u.epoch == s'.epoch && u.buckets == s'.buckets
            && (if k < |s.threads| then Alone(s, u, r, ScanActive(s.epoch, k + 1)) && u.scanning == s'.scanning
                else Alone(s, u, r, Increment) && u.scanning == None)
  {
  }

  /** The scan finds nobody and lets the epoch advance. */
  lemma {:induction false} ScanAll(s0: State, s: State, s': State, r: nat, k: nat, i: nat) returns (u: State, m: nat)
    requires |s0.buckets| == 3 && s' == Moves(s0, r, i)
    requires NoneActive(s) && k <= |s.threads| && Alone(s, s', r, ScanActive(s.epoch, k))
    ensures u == Moves(s0, r, m) && Alone(s, u, r, Increment)
    ensures u.epoch == s'.epoch && u.buckets == s'.buckets && u.scanning == None
    decreases |s.threads| - k
  {
    ScanStep(s, s', r, k);
    u := Onward(s0, s', r, i);
    m := i + 1;
    if k < |s.threads| {
      u, m := ScanAll(s0, s, u, r, k + 1, m);
    }
  }

  lemma DeleteStep(s: State, s': State, r: nat, safe: nat, b: nat, todo: seq<RNode>)
    requires Alone(s, s', r, Deleting(safe, b, todo))
    ensures var u := Next(s', MoveReclaimer(r));
            && u.epoch == s'.epoch && u.buckets == s'.buckets && u.scanning == s'.scanning
            && Alone(s, u, r, if todo == [] then Sweep(safe, b + 1) else Deleting(safe, b, todo[1..]))
  {
  }

  lemma {:induction false} DeleteAll(s0: State, s: State, s': State, r: nat, safe: nat, b: nat, todo: seq<RNode>,
                                     i: nat)
    returns (u: State, m: nat)
    requires |s0.buckets| == 3 && s' == Moves(s0, r, i) && Alone(s, s', r, Deleting(safe, b, todo))
    ensures u == Moves(s0, r, m) && Alone(s, u, r, Sweep(safe, b + 1))
    ensures u.epoch == s'.epoch && u.buckets == s'.buckets && u.scanning == s'.scanning
    decreases |todo|
  {
    DeleteStep(s, s', r, safe, b, todo);
    u := Onward(s0, s', r, i);
    m := i + 1;
    if todo != [] {
      u, m := DeleteAll(s0, s, u, r, safe, b, todo[1..], m);
    }
  }

  /** The buckets below b have been swept. */
  ghost predicate SweptBelow(s: State, s': State, safe: nat, b: nat) {
    && |s.buckets| == |s'.buckets| == 3 && s'.epoch == s.epoch && s'.scanning == s.scanning
    && forall j :: 0 <= j < 3 ==> s'.buckets[j] == if j < b then Young(s.buckets[j], safe) else s.buckets[j]
  }

  lemma SweepStep(s: State, s': State, r: nat, safe: nat, b: nat)
    requires b < 3 && SweptBelow(s, s', safe, b) && Alone(s, s', r, Sweep(safe, b))
    ensures var u := Next(s', MoveReclaimer(r));
            Alone(s, u, r, Deleting(safe, b, Old(s.buckets[b], safe))) && SweptBelow(s, u, safe, b + 1)
  {
  }

  lemma SweepEnds(s: State, s': State, r: nat, safe: nat)
    requires SweptBelow(s, s', safe, 3) && Alone(s, s', r, Sweep(safe, 3))
    ensures var u := Next(s', MoveReclaimer(r)); Alone(s, u, r, CIdle) && SweptBelow(s, u, safe, 3)
  {
  }

  lemma {:induction false} SweepAll(s0: State, s: State, s': State, r: nat, safe: nat, b: nat, i: nat)
    returns (u: State, m: nat)
    requires |s0.buckets| == 3 && s' == Moves(s0, r, i)
    requires b <= 3 && SweptBelow(s, s', safe, b) && Alone(s, s', r, Sweep(safe, b))
    ensures u == Moves(s0, r, m) && Alone(s, u, r, CIdle) && SweptBelow(s, u, safe, 3)
    decreases 3 - b
  {
    u := Onward(s0, s', r, i);
    m := i + 1;
    if b == 3 {
      SweepEnds(s, s', r, safe);
    } else {
      SweepStep(s, s', r, safe, b);
      u, m := DeleteAll(s0, s, u, r, safe, b, Old(s.buckets[b], safe), m);
      u, m := SweepAll(s0, s, u, r, safe, b + 1, m);
    }
  }

  /** What a call leaves of a bucket when it reaches that epoch. */
  function Left(xs: seq<RNode>, epoch: nat): seq<RNode> {
    if epoch >= 2 then Young(xs, epoch - 2) else xs
  }

  /** The epoch advances and is loaded. */
  lemma LoadStep(s: State, s': State, r: nat)
    requires Alone(s, s', r, Increment)
    ensures var u := Next(s', MoveReclaimer(r));
            && u.epoch == s'.epoch + 1 && u.buckets == s'.buckets && u.scanning == s'.scanning
            && Alone(s, u, r, LoadEpoch)
            && var v := Next(u, MoveReclaimer(r));
               && v.epoch == u.epoch && v.buckets == u.buckets && v.scanning == u.scanning
               && Alone(s, v, r, if u.epoch >= 2 then Sweep(u.epoch - 2, 0) else CIdle)
  {
  }

  /** Seen from a state that differs only in that reclaimer's place. */
  lemma AloneFrom(s: State, s1: State, s2: State, r: nat, c: Reclaimer, d: Reclaimer)
    requires Alone(s, s1, r, c) && Alone(s1, s2, r, d)
    ensures Alone(s, s2, r, d)
  {
    assert s.reclaimers[r := c][r := d] == s.reclaimers[r := d];
  }

  lemma AloneHere(s: State, r: nat)
    requires |s.buckets| == 3 && r < |s.reclaimers|
    ensures Alone(s, s, r, s.reclaimers[r])
  {
  }

  /** From the advanced epoch on: sweep if anything can be two epochs back. */
  lemma AdvanceAndSweep(s0: State, s: State, s': State, r: nat, i: nat) returns (u: State, m: nat)
    requires |s0.buckets| == 3 && s' == Moves(s0, r, i) && Alone(s, s', r, Increment)
    ensures u == Moves(s0, r, m) && Alone(s, u, r, CIdle)
    ensures u.epoch == s'.epoch + 1 && u.scanning == s'.scanning
    ensures forall j :: 0 <= j < 3 ==> u.buckets[j] == Left(s'.buckets[j], u.epoch)
  {
    LoadStep(s, s', r);
    u := Onward(s0, s', r, i);
    u := Onward(s0, u, r, i + 1);
    m := i + 2;
    if s'.epoch + 1 >= 2 {
      var loaded := u;
      AloneHere(loaded, r);
      u, m := SweepAll(s0, loaded, loaded, r, loaded.epoch - 2, 0, m);
      AloneFrom(s, loaded, u, r, loaded.reclaimers[r], CIdle);
    }
  }

  lemma ScanBegins(s: State, s': State, r: nat)
    requires Alone(s, s', r, CIdle) && s'.scanning == None
    ensures var u := Next(s', MoveReclaimer(r));
            && Alone(s, u, r, ScanActive(s'.epoch, 0)) && u.epoch == s'.epoch && u.buckets == s'.buckets
  {
  }

  /** A whole call. */
  lemma ReclaimCall(s0: State, s: State, r: nat, i: nat) returns (u: State, m: nat)
    requires |s0.buckets| == |s.buckets| == 3 && s == Moves(s0, r, i)
    requires r < |s.reclaimers| && s.reclaimers[r].CIdle? && s.scanning == None && NoneActive(s)
    ensures u == Moves(s0, r, m) && Alone(s, u, r, CIdle) && u.epoch == s.epoch + 1 && u.scanning == None
    ensures forall j :: 0 <= j < 3 ==> u.buckets[j] == Left(s.buckets[j], s.epoch + 1)
  {
    AloneHere(s, r);
    ScanBegins(s, s, r);
    u := Onward(s0, s, r, i);
    u, m := ScanAll(s0, s, u, r, 0, i + 1);
    u, m := AdvanceAndSweep(s0, s, u, r, m);
  }

  // ----- two calls -----

  lemma {:induction false} NoneYoung(xs: seq<RNode>, safe: nat)
    requires forall x :: x in xs ==> x.epoch <= safe
    ensures Young(xs, safe) == []
  {
    if xs != [] {
      assert xs[0] in xs;
      NoneYoung(xs[1..], safe);
    }
  }

  /** Two calls leave nothing of a bucket without nodes ahead of the first epoch. */
  lemma LeftTwice(xs: seq<RNode>, epoch: nat)
    requires forall x :: x in xs ==> x.epoch <= epoch
    ensures Left(Left(xs, epoch + 1), epoch + 2) == []
  {
    forall x | x in Left(xs, epoch + 1) ensures x.epoch <= epoch {
      if epoch >= 1 {
        OldYoungMember(xs, epoch - 1, x);
      }
    }
    NoneYoung(Left(xs, epoch + 1), epoch);
  }

  lemma StillIdle(s: State, mid: State, r: nat)
    requires NoneActive(s) && Alone(s, mid, r, CIdle)
    ensures r < |mid.reclaimers| && mid.reclaimers[r].CIdle? && NoneActive(mid)
  {
  }

  /** The second call empties what the first one left. */
  lemma NothingLeft(s: State, mid: State, u: State, r: nat)
    requires DrainInv(s) && Alone(s, mid, r, CIdle) && Alone(mid, u, r, CIdle)
    requires mid.epoch == s.epoch + 1 && u.epoch == mid.epoch + 1
    requires forall j :: 0 <= j < 3 ==> mid.buckets[j] == Left(s.buckets[j], s.epoch + 1)
    requires forall j :: 0 <= j < 3 ==> u.buckets[j] == Left(mid.buckets[j], mid.epoch + 1)
    ensures Alone(s, u, r, CIdle) && u.epoch == s.epoch + 2 && forall j :: 0 <= j < 3 ==> u.buckets[j] == []
  {
    AloneFrom(s, mid, u, r, CIdle, CIdle);
    forall j | 0 <= j < 3 ensures u.buckets[j] == [] {
      LeftTwice(s.buckets[j], s.epoch);
    }
  }

  lemma TwoCalls(s: State, r: nat) returns (u: State, m: nat)
    requires DrainInv(s) && r < |s.reclaimers| && s.reclaimers[r].CIdle? && s.scanning == None && NoneActive(s)
    ensures u == Moves(s, r, m) && Alone(s, u, r, CIdle) && u.epoch == s.epoch + 2
    ensures forall j :: 0 <= j < 3 ==> u.buckets[j] == []
  {
    var mid, k := ReclaimCall(s, s, r, 0);
    StillIdle(s, mid, r);
    u, m := ReclaimCall(s, mid, r, k);
    NothingLeft(s, mid, u, r);
  }

  /** The schedule goes on with moves of reclaimer r only. */
  ghost predicate OnlyMoves(sch: seq<Choice>, after: seq<Choice>, r: nat) {
    sch <= after && forall i :: |sch| <= i < |after| ==> after[i] == MoveReclaimer(r)
  }

  lemma OneMove(sch: seq<Choice>, after: seq<Choice>, r: nat)
    requires OnlyMoves(sch, after, r)
    ensures OnlyMoves(sch, after + [MoveReclaimer(r)], r)
  {
  }

  lemma RunMore(threads: nat, retirers: nat, reclaimers: nat, sch: seq<Choice>, c: Choice)
    ensures Run(threads, retirers, reclaimers, sch + [c]) == Next(Run(threads, retirers, reclaimers, sch), c)
  {
    assert (sch + [c])[..|sch|] == sch;
  }

  lemma MovesUnfold(s: State, r: nat, m: nat)
    requires |s.buckets| == 3
    ensures Moves(s, r, m + 1) == Next(Moves(s, r, m), MoveReclaimer(r))
  {
  }

  lemma {:induction false} MovesRun(threads: nat, retirers: nat, reclaimers: nat, sch: seq<Choice>, r: nat, m: nat)
    returns (after: seq<Choice>)
    ensures OnlyMoves(sch, after, r)
    ensures Run(threads, retirers, reclaimers, after) == Moves(Run(threads, retirers, reclaimers, sch), r, m)
  {
    after := sch;
    if m > 0 {
      after := MovesRun(threads, retirers, reclaimers, sch, r, m - 1);
      OneMove(sch, after, r);
      RunMore(threads, retirers, reclaimers, after, MoveReclaimer(r));
      MovesUnfold(Run(threads, retirers, reclaimers, sch), r, m - 1);
      after := after + [MoveReclaimer(r)];
    }
  }

  /** With no call in progress every node is in a bucket or deleted. */
  lemma AllDeleted(s: State, x: nat)
    requires Accounted(s) && Quiet(s) && forall j :: 0 <= j < 3 ==> s.buckets[j] == []
    ensures Count(s.deleted, x) == if x < s.created then 1 else 0
  {
    assert InOnePlace(s, x);
    QuietRetirers(s.retirers, x);
    QuietReclaimers(s.reclaimers, x);
    EmptyBuckets(s.buckets, x);
  }

  /** After any run, overlapping reclaims included, that has come to rest with no thread in
      a critical section, reclaimer r empties all buckets in two calls: the run continues
      with moves of r alone to a state in which every node ever retired has been deleted
      exactly once. */
  lemma QuietDrain(threads: nat, retirers: nat, reclaimers: nat, sch: seq<Choice>, r: nat)
    returns (after: seq<Choice>)
    requires r < reclaimers
    requires var s := Run(threads, retirers, reclaimers, sch); Quiet(s) && NoneActive(s)
    ensures OnlyMoves(sch, after, r)
    ensures var s, u := Run(threads, retirers, reclaimers, sch), Run(threads, retirers, reclaimers, after);
            && Quiet(u) && u.epoch == s.epoch + 2 && u.created == s.created && u.threads == s.threads
            && (forall j :: 0 <= j < 3 ==> u.buckets[j] == [])
            && (forall x: nat :: Count(u.deleted, x) == if x < s.created then 1 else 0)
  {
    var s := Run(threads, retirers, reclaimers, sch);
    RunDrainInv(threads, retirers, reclaimers, sch);
    var u, m := TwoCalls(s, r);
    after := MovesRun(threads, retirers, reclaimers, sch, r, m);
    RunAccounted(threads, retirers, reclaimers, after);
    forall x: nat ensures Count(u.deleted, x) == if x < s.created then 1 else 0 {
      AllDeleted(u, x);
    }
  }

  // ----- threads still inside -----

  /** A thread is active exactly while it is inside. */
  ghost predicate ActiveInside(s: State) {
    forall k :: 0 <= k < |s.threads| ==> (s.threads[k].active <==> s.threads[k].sec.Inside?)
  }

  lemma {:induction false} RunActive(threads: nat, retirers: nat, reclaimers: nat, sch: seq<Choice>)
    ensures ActiveInside(Run(threads, retirers, reclaimers, sch))
  {
    if sch != [] {
      RunActive(threads, retirers, reclaimers, sch[..|sch| - 1]);
    }
  }

  /** From s to u threads of the first n that were inside have left, and nothing else has changed. */
  ghost predicate HaveLeft(s: State, u: State, n: nat) {
    && |u.threads| == |s.threads| && u.epoch == s.epoch && u.retirers == s.retirers && u.reclaimers == s.reclaimers
    && u.buckets == s.buckets && u.deleted == s.deleted && u.scanning == s.scanning && u.created == s.created
    && (forall k :: 0 <= k < |s.threads| && k < n ==> !u.threads[k].active)
    && (forall k :: n <= k < |s.threads| ==> u.threads[k] == s.threads[k])
  }

  /** Only moves of threads that were inside, at most one of each of the first n. */
  ghost predicate OnlyLeaving(s: State, sch: seq<Choice>, after: seq<Choice>, n: nat) {
    && sch <= after && |after| <= |sch| + n
    && forall i :: |sch| <= i < |after| ==>
         after[i].MoveThread? && after[i].i < n && after[i].i < |s.threads| && s.threads[after[i].i].sec.Inside?
  }

  lemma LeaveStep(s: State, u: State, n: nat)
    requires |u.buckets| == 3 && HaveLeft(s, u, n) && n < |s.threads| && s.threads[n].sec.Inside?
    ensures HaveLeft(s, Next(u, MoveThread(n)), n + 1)
  {
  }

  /** Threads that are inside leave by one step each. */
  lemma {:induction false} AllLeave(threads: nat, retirers: nat, reclaimers: nat, sch: seq<Choice>, n: nat)
    returns (after: seq<Choice>)
    requires n <= threads
    ensures OnlyLeaving(Run(threads, retirers, reclaimers, sch), sch, after, n)
    ensures HaveLeft(Run(threads, retirers, reclaimers, sch), Run(threads, retirers, reclaimers, after), n)
  {
    var s := Run(threads, retirers, reclaimers, sch);
    if n == 0 {
      after := sch;
    } else {
      after := AllLeave(threads, retirers, reclaimers, sch, n - 1);
      RunActive(threads, retirers, reclaimers, sch);
      if s.threads[n - 1].sec.Inside? {
        LeaveStep(s, Run(threads, retirers, reclaimers, after), n - 1);
        RunMore(threads, retirers, reclaimers, after, MoveThread(n - 1));
        after := after + [MoveThread(n - 1)];
      }
    }
  }

  /** With no call in progress, whatever threads are inside: once these have left, by one step each,
      two calls of reclaimer r delete every node ever retired, each exactly once. */
  lemma LeaveAndDrain(threads: nat, retirers: nat, reclaimers: nat, sch: seq<Choice>, r: nat)
    returns (left: seq<Choice>, after: seq<Choice>)
    requires r < reclaimers && Quiet(Run(threads, retirers, reclaimers, sch))
    ensures OnlyLeaving(Run(threads, retirers, reclaimers, sch), sch, left, threads) && OnlyMoves(left, after, r)
    ensures var s, u := Run(threads, retirers, reclaimers, sch), Run(threads, retirers, reclaimers, after);
            && Quiet(u) && NoneActive(u) && u.epoch == s.epoch + 2 && u.created == s.created
            && (forall x: nat :: Count(u.deleted, x) == if x < s.created then 1 else 0)
  {
    left := AllLeave(threads, retirers, reclaimers, sch, threads);
    after := QuietDrain(threads, retirers, reclaimers, left, r);
  }
}
