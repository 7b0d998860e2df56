/** Epoch-based reclamation as a state machine: threads entering and leaving
    critical sections, retire calls in flight, and reclaimers, any number of
    each.  One step per access to shared memory; a mutex-protected block is one
    step, except the thread scan, whose reads race with the threads. */
module Ebr {
  import opened Ring

  /** A retired node: its identity, the epoch it was tagged with, and the time at
      which its retire call began (history). */
  datatype RNode = RNode(id: nat, epoch: nat, born: nat)

  /** Where a thread is in enter_critical / exit_critical. */
  datatype Section = Outside | Loaded(e: nat) | Stored | Inside

  /** `since` and `entered`: global epoch and time when it became active (history). */
  datatype Thread = Thread(epoch: nat, active: bool, sec: Section, since: nat, entered: nat)

  datatype Retirer = RIdle | RBegun(id: nat, born: nat) | RTagged(node: RNode)

  datatype Reclaimer =
    | CIdle
    | ScanActive(cur: nat, k: nat)
    | ScanEpoch(cur: nat, k: nat)
    | Increment
    | LoadEpoch
    | Sweep(safe: nat, b: nat)
    | Deleting(safe: nat, b: nat, todo: seq<RNode>)

  /** `scanning` is the holder of the threads mutex. */
  datatype State = State(epoch: nat, threads: seq<Thread>, retirers: seq<Retirer>, reclaimers: seq<Reclaimer>,
                         buckets: seq<seq<RNode>>, deleted: seq<RNode>, scanning: Option<nat>,
                         created: nat, clock: nat)

  datatype Choice = MoveThread(i: nat) | MoveRetirer(i: nat) | MoveReclaimer(i: nat)

  function Init(threads: nat, retirers: nat, reclaimers: nat): State {
    State(0, seq(threads, _ => Thread(0, false, Outside, 0, 0)), seq(retirers, _ => RIdle),
          seq(reclaimers, _ => CIdle), [[], [], []], [], None, 0, 0)
  }

  function ThreadStep(s: State, i: nat): State
    requires i < |s.threads|
  {
    var t := s.threads[i];
    var t' :=
      match t.sec
      case Outside => t.(sec := Loaded(s.epoch))
      case Loaded(e) => t.(sec := Stored, epoch := e)
      case Stored => t.(sec := Inside, active := true, since := s.epoch, entered := s.clock)
      case Inside => t.(sec := Outside, active := false);
    s.(threads := s.threads[i := t'])
  }

  function RetireStep(s: State, i: nat): State
    requires i < |s.retirers| && |s.buckets| == 3
  {
    match s.retirers[i]
    case RIdle =>
      s.(retirers := s.retirers[i := RBegun(s.created, s.clock)], created := s.created + 1)
    case RBegun(id, born) => s.(retirers := s.retirers[i := RTagged(RNode(id, s.epoch, born))])
    case RTagged(node) =>
      var b := node.epoch % 3;
      s.(retirers := s.retirers[i := RIdle], buckets := s.buckets[b := s.buckets[b] + [node]])
  }

  function Old(xs: seq<RNode>, safe: nat): seq<RNode> {
    if xs == [] then []
    else (if xs[0].epoch <= safe then [xs[0]] else []) + Old(xs[1..], safe)
  }

  function Young(xs: seq<RNode>, safe: nat): seq<RNode> {
    if xs == [] then []
    else (if xs[0].epoch <= safe then [] else [xs[0]]) + Young(xs[1..], safe)
  }

  function ReclaimStep(s: State, i: nat): State
    requires i < |s.reclaimers| && |s.buckets| == 3
  {
    match s.reclaimers[i]
    case CIdle =>
      // can_advance_epoch takes the threads mutex
      if s.scanning.Some? then s
      else s.(scanning := Some(i), reclaimers := s.reclaimers[i := ScanActive(s.epoch, 0)])
    case ScanActive(cur, k) =>
      if k >= |s.threads| then s.(scanning := None, reclaimers := s.reclaimers[i := Increment])
      else if s.threads[k].active then s.(reclaimers := s.reclaimers[i := ScanEpoch(cur, k)])
      else s.(reclaimers := s.reclaimers[i := ScanActive(cur, k + 1)])
    case ScanEpoch(cur, k) =>
      if k < |s.threads| && s.threads[k].epoch < cur then
        s.(scanning := None, reclaimers := s.reclaimers[i := LoadEpoch])
      else s.(reclaimers := s.reclaimers[i := ScanActive(cur, k + 1)])
    case Increment => s.(epoch := s.epoch + 1, reclaimers := s.reclaimers[i := LoadEpoch])
    case LoadEpoch =>
      s.(reclaimers := s.reclaimers[i := if s.epoch >= 2 then Sweep(s.epoch - 2, 0) else CIdle])
    case Sweep(safe, b) =>
      if b >= 3 then s.(reclaimers := s.reclaimers[i := CIdle])
      else s.(buckets := s.buckets[b := Young(s.buckets[b], safe)],
              reclaimers := s.reclaimers[i := Deleting(safe, b, Old(s.buckets[b], safe))])
    case Deleting(safe, b, todo) =>
      if todo == [] then s.(reclaimers := s.reclaimers[i := Sweep(safe, b + 1)])
      else s.(deleted := s.deleted + [todo[0]],
              reclaimers := s.reclaimers[i := Deleting(safe, b, todo[1..])])
  }

  function Next(s: State, c: Choice): (s': State)
    requires |s.buckets| == 3
    ensures |s'.buckets| == 3 && |s'.threads| == |s.threads| && |s'.reclaimers| == |s.reclaimers|
    ensures |s'.retirers| == |s.retirers| && s'.clock == s.clock + 1
  {
    var moved :=
      match c
      case MoveThread(i) => if i < |s.threads| then ThreadStep(s, i) else s
      case MoveRetirer(i) => if i < |s.retirers| then RetireStep(s, i) else s
      case MoveReclaimer(i) => if i < |s.reclaimers| then ReclaimStep(s, i) else s;
    moved.(clock := s.clock + 1)
  }

  function Run(threads: nat, retirers: nat, reclaimers: nat, sch: seq<Choice>): (s: State)
    ensures |s.buckets| == 3 && |s.threads| == threads && |s.reclaimers| == reclaimers
    ensures |s.retirers| == retirers
  {
    if sch == [] then Init(threads, retirers, reclaimers)
    else Next(Run(threads, retirers, reclaimers, sch[..|sch| - 1]), sch[|sch| - 1])
  }

  // ----- filtering -----

  lemma {:induction false} OldYoungMember(xs: seq<RNode>, safe: nat, x: RNode)
    ensures x in Old(xs, safe) <==> x in xs && x.epoch <= safe
    ensures x in Young(xs, safe) <==> x in xs && x.epoch > safe
  {
    if xs != [] {
      OldYoungMember(xs[1..], safe, x);
    }
  }

  // ----- grace period without overlapping epoch advances -----

  /** A node whose retire call began after an active thread entered carries an
      epoch not below the one that thread entered in. */
  ghost predicate Tagged(s: State, x: RNode) {
    x.born <= s.clock
    && forall k :: 0 <= k < |s.threads| && s.threads[k].active && s.threads[k].entered < x.born ==>
         x.epoch >= s.threads[k].since
  }

  ghost predicate ThreadOk(s: State, t: Thread) {
    && (t.active <==> t.sec.Inside?)
    && (t.sec.Loaded? ==> t.sec.e <= s.epoch)
    && (t.sec.Stored? ==> t.epoch <= s.epoch)
    && (t.active ==> t.epoch <= t.since <= s.epoch <= t.since + 1 && t.entered < s.clock)
  }

  /** The threads a scan has passed are inactive or entered in the current epoch. */
  ghost predicate Passed(s: State, k: nat) {
    forall i :: 0 <= i < |s.threads| && i < k && s.threads[i].active ==> s.threads[i].since == s.epoch
  }

  ghost predicate ReclaimerOk(s: State, r: Reclaimer) {
    match r
    case ScanActive(cur, k) => cur == s.epoch && Passed(s, k)
    case ScanEpoch(cur, k) => cur == s.epoch && Passed(s, k)
    case Increment => Passed(s, |s.threads|)
    case Sweep(safe, _) => safe + 2 <= s.epoch
    case Deleting(safe, _, todo) =>
      safe + 2 <= s.epoch && forall x :: x in todo ==> x.epoch <= safe && Tagged(s, x)
    case _ => true
  }

  ghost predicate RetirerOk(s: State, r: Retirer) {
    match r
    case RIdle => true
    case RBegun(_, born) => born < s.clock
    case RTagged(x) => Tagged(s, x)
  }

  ghost predicate GraceInv(s: State) {
    && |s.buckets| == 3
    && (forall i :: 0 <= i < |s.threads| ==> ThreadOk(s, s.threads[i]))
    && (forall i :: 0 <= i < |s.reclaimers| ==> ReclaimerOk(s, s.reclaimers[i]))
    && (forall i :: 0 <= i < |s.retirers| ==> RetirerOk(s, s.retirers[i]))
    && (forall b, x :: 0 <= b < 3 && x in s.buckets[b] ==> Tagged(s, x))
    && (forall x :: x in s.deleted ==> Tagged(s, x) && x.epoch + 2 <= s.epoch)
  }

  /** No node whose retire began after a thread became active is deleted before
      that thread leaves. */
  ghost predicate Grace(s: State) {
    forall x, k :: x in s.deleted && 0 <= k < |s.threads| && s.threads[k].active ==>
      !(s.threads[k].entered < x.born)
  }

  /** Threads only leave, or enter at the current time and epoch. */
  ghost predicate ThreadsMove(s: State, s': State) {
    && s'.clock == s.clock + 1 && |s'.threads| == |s.threads|
    && forall k :: 0 <= k < |s.threads| && s'.threads[k].active ==>
         || (s.threads[k].active && s'.threads[k].since == s.threads[k].since
             && s'.threads[k].entered == s.threads[k].entered)
         || (s'.threads[k].entered == s.clock && s'.threads[k].since == s'.epoch == s.epoch)
  }

  lemma TaggedLater(s: State, s': State, x: RNode)
    requires Tagged(s, x) && ThreadsMove(s, s')
    ensures Tagged(s', x)
  {
  }

  /** Steps that do not move the epoch keep every reclaimer's view. */
  lemma ReclaimerLater(s: State, s': State, r: Reclaimer)
    requires ReclaimerOk(s, r) && ThreadsMove(s, s') && s'.epoch == s.epoch
    ensures ReclaimerOk(s', r)
  {
    if r.Deleting? {
      forall x | x in r.todo ensures Tagged(s', x) {
        TaggedLater(s, s', x);
      }
    }
  }

  /** Nodes stay tagged wherever they were. */
  lemma NodesLater(s: State, s': State)
    requires GraceInv(s) && ThreadsMove(s, s') && s'.epoch >= s.epoch && |s'.retirers| == |s.retirers|
    ensures forall i :: 0 <= i < |s.retirers| ==> RetirerOk(s', s.retirers[i])
    ensures forall b, x :: 0 <= b < 3 && x in s.buckets[b] ==> Tagged(s', x)
    ensures forall x :: x in s.deleted ==> Tagged(s', x) && x.epoch + 2 <= s'.epoch
  {
    forall i | 0 <= i < |s.retirers| ensures RetirerOk(s', s.retirers[i]) {
      assert RetirerOk(s, s.retirers[i]);
      if s.retirers[i].RTagged? {
        TaggedLater(s, s', s.retirers[i].node);
      }
    }
    forall b, x | 0 <= b < 3 && x in s.buckets[b] ensures Tagged(s', x) {
      TaggedLater(s, s', x);
    }
    forall x | x in s.deleted ensures Tagged(s', x) {
      TaggedLater(s, s', x);
    }
  }

  lemma ThreadGrace(s: State, c: Choice)
    requires GraceInv(s) && c.MoveThread? && c.i < |s.threads|
    ensures GraceInv(Next(s, c))
  {
    var s' := Next(s, c);
    assert ThreadOk(s, s.threads[c.i]);
    NodesLater(s, s');
    forall k | 0 <= k < |s'.reclaimers| ensures ReclaimerOk(s', s'.reclaimers[k]) {
      ReclaimerLater(s, s', s.reclaimers[k]);
    }
  }

  lemma RetireGrace(s: State, c: Choice)
    requires GraceInv(s) && c.MoveRetirer? && c.i < |s.retirers|
    ensures GraceInv(Next(s, c))
  {
    var i := c.i;
    var s' := Next(s, c);
    NodesLater(s, s');
    assert RetirerOk(s, s.retirers[i]);
    forall k | 0 <= k < |s'.reclaimers| ensures ReclaimerOk(s', s'.reclaimers[k]) {
      ReclaimerLater(s, s', s.reclaimers[k]);
    }
    if s.retirers[i].RBegun? {
      TagNow(s, s', s.retirers[i].id, s.retirers[i].born);
    }
  }

  /** The epoch loaded now is not below the entry epoch of any active thread. */
  lemma TagNow(s: State, s': State, id: nat, born: nat)
    requires GraceInv(s) && ThreadsMove(s, s') && born < s.clock && s'.threads == s.threads
    ensures Tagged(s', RNode(id, s.epoch, born))
  {
    forall k | 0 <= k < |s'.threads| && s'.threads[k].active ensures s.epoch >= s'.threads[k].since {
      assert ThreadOk(s, s.threads[k]);
    }
  }

  /** The other reclaimers when the epoch stays. */
  lemma OthersLater(s: State, s': State, i: nat)
    requires GraceInv(s) && ThreadsMove(s, s') && s'.epoch == s.epoch && i < |s.reclaimers| == |s'.reclaimers|
    requires forall k :: 0 <= k < |s.reclaimers| && k != i ==> s'.reclaimers[k] == s.reclaimers[k]
    ensures forall k :: 0 <= k < |s.reclaimers| && k != i ==> ReclaimerOk(s', s'.reclaimers[k])
  {
    forall k | 0 <= k < |s.reclaimers| && k != i ensures ReclaimerOk(s', s'.reclaimers[k]) {
      ReclaimerLater(s, s', s.reclaimers[k]);
    }
  }

  lemma ThreadsLater(s: State, s': State)
    requires GraceInv(s) && s'.threads == s.threads && s'.epoch == s.epoch && s'.clock >= s.clock
    ensures forall k :: 0 <= k < |s'.threads| ==> ThreadOk(s', s'.threads[k])
  {
    forall k | 0 <= k < |s'.threads| ensures ThreadOk(s', s'.threads[k]) {
      assert ThreadOk(s, s.threads[k]);
    }
  }

  lemma ScanGrace(s: State, c: Choice)
    requires GraceInv(s) && c.MoveReclaimer? && c.i < |s.reclaimers|
    requires var r := s.reclaimers[c.i]; r.CIdle? || r.ScanActive? || r.ScanEpoch? || r.LoadEpoch?
    ensures GraceInv(Next(s, c))
  {
    var s' := Next(s, c);
    var r := s.reclaimers[c.i];
    assert ReclaimerOk(s, r);
    NodesLater(s, s');
    OthersLater(s, s', c.i);
    ThreadsLater(s, s');
    if r.ScanEpoch? && r.k < |s.threads| {
      assert ThreadOk(s, s.threads[r.k]);
    }
  }

  /** Between the start of its scan and its increment of the epoch. */
  predicate Advancing(r: Reclaimer) {
    r.ScanActive? || r.ScanEpoch? || r.Increment?
  }

  /** No two reclaim calls are advancing the epoch at once; sweeps and deletions may
      overlap with anything. */
  ghost predicate OneAdvances(s: State) {
    forall i, k :: 0 <= i < k < |s.reclaimers| ==> !(Advancing(s.reclaimers[i]) && Advancing(s.reclaimers[k]))
  }

  lemma IncrementOthers(s: State, s': State, i: nat)
    requires GraceInv(s) && OneAdvances(s) && i < |s.reclaimers| && s.reclaimers[i].Increment?
    requires s'.epoch == s.epoch + 1 && s'.threads == s.threads && s'.clock == s.clock + 1
    requires |s'.reclaimers| == |s.reclaimers|
    requires forall k :: 0 <= k < |s.reclaimers| && k != i ==> s'.reclaimers[k] == s.reclaimers[k]
    ensures forall k :: 0 <= k < |s.reclaimers| && k != i ==> ReclaimerOk(s', s'.reclaimers[k])
  {
    forall k | 0 <= k < |s.reclaimers| && k != i ensures ReclaimerOk(s', s'.reclaimers[k]) {
      assert ReclaimerOk(s, s.reclaimers[k]) && !Advancing(s.reclaimers[k]);
      if s.reclaimers[k].Deleting? {
        forall x | x in s.reclaimers[k].todo ensures Tagged(s', x) {
          TaggedLater(s, s', x);
        }
      }
    }
  }

  lemma IncrementGrace(s: State, c: Choice)
    requires GraceInv(s) && OneAdvances(s)
    requires c.MoveReclaimer? && c.i < |s.reclaimers| && s.reclaimers[c.i].Increment?
    ensures GraceInv(Next(s, c))
  {
    var s' := Next(s, c);
    assert ReclaimerOk(s, s.reclaimers[c.i]);
    NodesLater(s, s');
    IncrementOthers(s, s', c.i);
    forall k | 0 <= k < |s'.threads| ensures ThreadOk(s', s'.threads[k]) {
      assert ThreadOk(s, s.threads[k]);
    }
  }

  lemma FilterGrace(s: State, c: Choice)
    requires GraceInv(s) && c.MoveReclaimer? && c.i < |s.reclaimers| && s.reclaimers[c.i].Sweep?
    ensures GraceInv(Next(s, c))
  {
    var s' := Next(s, c);
    var r := s.reclaimers[c.i];
    assert ReclaimerOk(s, r);
    NodesLater(s, s');
    OthersLater(s, s', c.i);
    ThreadsLater(s, s');
    if r.b < 3 {
      forall x | x in Old(s.buckets[r.b], r.safe) ensures x.epoch <= r.safe && Tagged(s', x) {
        OldYoungMember(s.buckets[r.b], r.safe, x);
      }
      forall x | x in Young(s.buckets[r.b], r.safe) ensures Tagged(s', x) {
        OldYoungMember(s.buckets[r.b], r.safe, x);
      }
    }
  }

  lemma DeleteGrace(s: State, c: Choice)
    requires GraceInv(s) && c.MoveReclaimer? && c.i < |s.reclaimers| && s.reclaimers[c.i].Deleting?
    ensures GraceInv(Next(s, c))
  {
    var s' := Next(s, c);
    var r := s.reclaimers[c.i];
    ReclaimerLater(s, s', r);
    NodesLater(s, s');
    OthersLater(s, s', c.i);
    ThreadsLater(s, s');
    if r.todo != [] {
      assert r.todo[0] in r.todo;
      forall x | x in s'.deleted ensures Tagged(s', x) && x.epoch + 2 <= s'.epoch {
        assert x in s.deleted || x == r.todo[0];
      }
      assert forall x :: x in r.todo[1..] ==> x in r.todo;
    }
  }

  lemma ReclaimGrace(s: State, c: Choice)
    requires GraceInv(s) && OneAdvances(s) && c.MoveReclaimer? && c.i < |s.reclaimers|
    ensures GraceInv(Next(s, c))
  {
    var r := s.reclaimers[c.i];
    if r.Increment? {
      IncrementGrace(s, c);
    } else if r.Sweep? {
      FilterGrace(s, c);
    } else if r.Deleting? {
      DeleteGrace(s, c);
    } else {
      ScanGrace(s, c);
    }
  }

  lemma GraceNext(s: State, c: Choice)
    requires GraceInv(s) && OneAdvances(s)
    ensures GraceInv(Next(s, c))
  {
    if c.MoveThread? && c.i < |s.threads| {
      ThreadGrace(s, c);
    } else if c.MoveRetirer? && c.i < |s.retirers| {
      RetireGrace(s, c);
    } else if c.MoveReclaimer? && c.i < |s.reclaimers| {
      ReclaimGrace(s, c);
    } else {
      IdleGrace(s, c);
    }
  }

  lemma IdleGrace(s: State, c: Choice)
    requires GraceInv(s) && Next(s, c) == s.(clock := s.clock + 1)
    ensures GraceInv(Next(s, c))
  {
    var s' := Next(s, c);
    NodesLater(s, s');
    forall k | 0 <= k < |s'.reclaimers| ensures ReclaimerOk(s', s'.reclaimers[k]) {
      ReclaimerLater(s, s', s.reclaimers[k]);
    }
    forall k | 0 <= k < |s'.threads| ensures ThreadOk(s', s'.threads[k]) {
      assert ThreadOk(s, s.threads[k]);
    }
  }

  /** At no moment of the run do two reclaim calls advance the epoch at once. */
  ghost predicate NoOverlap(threads: nat, retirers: nat, reclaimers: nat, sch: seq<Choice>) {
    forall m: nat :: m <= |sch| ==> OneAdvances(Run(threads, retirers, reclaimers, sch[..m]))
  }

  lemma NoOverlapBefore(threads: nat, retirers: nat, reclaimers: nat, sch: seq<Choice>)
    requires sch != [] && NoOverlap(threads, retirers, reclaimers, sch)
    ensures var before := sch[..|sch| - 1];
            NoOverlap(threads, retirers, reclaimers, before) && OneAdvances(Run(threads, retirers, reclaimers, before))
  {
    var before := sch[..|sch| - 1];
    forall m: nat | m <= |before| ensures OneAdvances(Run(threads, retirers, reclaimers, before[..m])) {
      assert before[..m] == sch[..m];
    }
  }

  lemma {:induction false} RunGrace(threads: nat, retirers: nat, reclaimers: nat, sch: seq<Choice>)
    requires NoOverlap(threads, retirers, reclaimers, sch)
    ensures GraceInv(Run(threads, retirers, reclaimers, sch))
  {
    if sch != [] {
      var before := sch[..|sch| - 1];
      NoOverlapBefore(threads, retirers, reclaimers, sch);
      RunGrace(threads, retirers, reclaimers, before);
      GraceNext(Run(threads, retirers, reclaimers, before), sch[|sch| - 1]);
    }
  }

  /** Grace period, for any number of reclaimers: in a run in which no two try_reclaim calls
      are between scan and increment at once, no node is deleted under an active thread that
      was inside before the node's retire began; the epoch rises by at most one while a
      thread stays active. */
  lemma GracePeriod(threads: nat, retirers: nat, reclaimers: nat, sch: seq<Choice>)
    requires NoOverlap(threads, retirers, reclaimers, sch)
    ensures var s := Run(threads, retirers, reclaimers, sch);
            && Grace(s)
            && forall k :: 0 <= k < |s.threads| && s.threads[k].active ==>
                 s.threads[k].since <= s.epoch <= s.threads[k].since + 1
  {
    RunGrace(threads, retirers, reclaimers, sch);
    var s := Run(threads, retirers, reclaimers, sch);
    forall x, k | x in s.deleted && 0 <= k < |s.threads| && s.threads[k].active
      ensures !(s.threads[k].entered < x.born)
    {
      assert Tagged(s, x) && ThreadOk(s, s.threads[k]);
    }
    forall k | 0 <= k < |s.threads| && s.threads[k].active
      ensures s.threads[k].since <= s.epoch <= s.threads[k].since + 1
    {
      assert ThreadOk(s, s.threads[k]);
    }
  }

  // ----- overlapping reclaimers break the grace period -----

  lemma RunSnoc(r: nat, sch: seq<Choice>, c: Choice)
    ensures Run(1, 1, r, sch + [c]) == Next(Run(1, 1, r, sch), c)
  {
    assert (sch + [c])[..|sch|] == sch;
  }

  /** Runs c1, c2, c3 after sch. */
  lemma RunThree(r: nat, sch: seq<Choice>, c1: Choice, c2: Choice, c3: Choice)
    ensures Run(1, 1, r, sch + [c1] + [c2] + [c3]) == Next(Next(Next(Run(1, 1, r, sch), c1), c2), c3)
  {
    RunSnoc(r, sch, c1);
    RunSnoc(r, sch + [c1], c2);
    RunSnoc(r, sch + [c1] + [c2], c3);
  }

  /** The state of the counterexample: reclaimers 0 and 1, the thread, the buckets. */
  function Scene(r: nat, epoch: nat, a: Reclaimer, b: Reclaimer, t: Thread, buckets: seq<seq<RNode>>,
                 deleted: seq<RNode>, created: nat, clock: nat): State
    requires r >= 2
  {
    State(epoch, [t], [RIdle], seq(r, i => if i == 0 then a else if i == 1 then b else CIdle),
          buckets, deleted, None, created, clock)
  }

  const OUT := Thread(0, false, Outside, 0, 0)
  const IN := Thread(0, true, Inside, 0, 8)
  const VICTIM := RNode(0, 0, 9)

  /** Both reclaimers scan while the thread is outside. */
  lemma ScansPass(r: nat)
    requires r >= 2
    ensures var a, b := MoveReclaimer(0), MoveReclaimer(1);
            && Next(Next(Next(Init(1, 1, r), a), a), a)
               == Scene(r, 0, Increment, CIdle, OUT, [[], [], []], [], 0, 3)
            && Next(Next(Next(Scene(r, 0, Increment, CIdle, OUT, [[], [], []], [], 0, 3), b), b), b)
               == Scene(r, 0, Increment, Increment, OUT, [[], [], []], [], 0, 6)
  {
    var a, b := MoveReclaimer(0), MoveReclaimer(1);
    var s := Next(Next(Next(Init(1, 1, r), a), a), a);
    assert s.reclaimers == Scene(r, 0, Increment, CIdle, OUT, [[], [], []], [], 0, 3).reclaimers;
    var x := Scene(r, 0, Increment, CIdle, OUT, [[], [], []], [], 0, 3);
    var y := Next(Next(Next(x, b), b), b);
    assert y.reclaimers == Scene(r, 0, Increment, Increment, OUT, [[], [], []], [], 0, 6).reclaimers;
  }

  /** The thread enters and a node is retired. */
  lemma EnterAndRetire(r: nat)
    requires r >= 2
    ensures var t, n := MoveThread(0), MoveRetirer(0);
            && Next(Next(Next(Scene(r, 0, Increment, Increment, OUT, [[], [], []], [], 0, 6), t), t), t)
               == Scene(r, 0, Increment, Increment, IN, [[], [], []], [], 0, 9)
            && Next(Next(Next(Scene(r, 0, Increment, Increment, IN, [[], [], []], [], 0, 9), n), n), n)
               == Scene(r, 0, Increment, Increment, IN, [[VICTIM], [], []], [], 1, 12)
  {
    var n := MoveRetirer(0);
    var x := Next(Next(Scene(r, 0, Increment, Increment, IN, [[], [], []], [], 0, 9), n), n);
    assert x.retirers == [RTagged(VICTIM)];
    var e: seq<RNode> := [];
    assert e + [VICTIM] == [VICTIM];
    assert Next(x, n).buckets == [[VICTIM], [], []] && Next(x, n).retirers == [RIdle];
  }

  /** Both increment, and the second one sweeps the node. */
  lemma IncrementsAndSweep(r: nat)
    requires r >= 2
    ensures var a, b := MoveReclaimer(0), MoveReclaimer(1);
            && Next(Next(Next(Scene(r, 0, Increment, Increment, IN, [[VICTIM], [], []], [], 1, 12), a), b), b)
               == Scene(r, 2, LoadEpoch, Sweep(0, 0), IN, [[VICTIM], [], []], [], 1, 15)
            && Next(Next(Next(Scene(r, 2, LoadEpoch, Sweep(0, 0), IN, [[VICTIM], [], []], [], 1, 15), b), b), b)
               == Scene(r, 2, LoadEpoch, Sweep(0, 1), IN, [[], [], []], [VICTIM], 1, 18)
  {
    var a, b := MoveReclaimer(0), MoveReclaimer(1);
    var x := Scene(r, 0, Increment, Increment, IN, [[VICTIM], [], []], [], 1, 12);
    assert Next(Next(Next(x, a), b), b).reclaimers
        == Scene(r, 2, LoadEpoch, Sweep(0, 0), IN, [[VICTIM], [], []], [], 1, 15).reclaimers;
    var y := Scene(r, 2, LoadEpoch, Sweep(0, 0), IN, [[VICTIM], [], []], [], 1, 15);
    assert Old([VICTIM], 0) == [VICTIM] && Young([VICTIM], 0) == [];
    assert Next(Next(Next(y, b), b), b).reclaimers
        == Scene(r, 2, LoadEpoch, Sweep(0, 1), IN, [[], [], []], [VICTIM], 1, 18).reclaimers;
  }

  /** Both reclaimers scan before the thread enters and increment afterwards, so the
      epoch rises by two under it and its node is swept. */
  lemma OverlapBreaksGrace(r: nat) returns (sch: seq<Choice>)
    requires r >= 2
    ensures !Grace(Run(1, 1, r, sch))
  {
    var a, b, t, n := MoveReclaimer(0), MoveReclaimer(1), MoveThread(0), MoveRetirer(0);
    ScansPass(r);
    EnterAndRetire(r);
    IncrementsAndSweep(r);
    sch := [];
    RunThree(r, sch, a, a, a);
    sch := sch + [a] + [a] + [a];
    RunThree(r, sch, b, b, b);
    sch := sch + [b] + [b] + [b];
    RunThree(r, sch, t, t, t);
    sch := sch + [t] + [t] + [t];
    RunThree(r, sch, n, n, n);
    sch := sch + [n] + [n] + [n];
    RunThree(r, sch, a, b, b);
    sch := sch + [a] + [b] + [b];
    RunThree(r, sch, b, b, b);
    sch := sch + [b] + [b] + [b];
    var s := Run(1, 1, r, sch);
    assert VICTIM in s.deleted && s.threads[0].active && s.threads[0].entered < VICTIM.born;
  }

  ghost predicate GraceAlways(reclaimers: nat) {
    forall threads: nat, retirers: nat, sch: seq<Choice> :: Grace(Run(threads, retirers, reclaimers, sch))
  }

  ghost predicate NeverOverlaps(reclaimers: nat) {
    forall threads: nat, retirers: nat, sch: seq<Choice> :: NoOverlap(threads, retirers, reclaimers, sch)
  }

  lemma OneNeverOverlaps(reclaimers: nat)
    requires reclaimers <= 1
    ensures NeverOverlaps(reclaimers)
  {
  }

  /** The grace period holds in all runs of that many reclaimers if and only if none of them
      has overlapping epoch advances, and that is so if and only if there is at most one. */
  lemma GraceIffNoOverlap(reclaimers: nat)
    ensures GraceAlways(reclaimers) <==> NeverOverlaps(reclaimers)
    ensures NeverOverlaps(reclaimers) <==> reclaimers <= 1
  {
    if reclaimers <= 1 {
      OneNeverOverlaps(reclaimers);
      forall threads: nat, retirers: nat, sch: seq<Choice>
        ensures Grace(Run(threads, retirers, reclaimers, sch))
      {
        GracePeriod(threads, retirers, reclaimers, sch);
      }
    } else {
      var sch := OverlapBreaksGrace(reclaimers);
      assert !Grace(Run(1, 1, reclaimers, sch));
      if NoOverlap(1, 1, reclaimers, sch) {
        GracePeriod(1, 1, reclaimers, sch);
      }
    }
  }
}
