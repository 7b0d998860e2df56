/** The closing gate: operations announce themselves in a counter and re-check a
    flag; a clearer raises the flag and waits for the counter to reach zero.  The
    object pool lowers the flag again after clearing, the queue's destructor never
    does.  Any number of operation threads and of clearers, one step per access. */
module ClosingGate {
  /** Where an operation thread is: outside, past the first check, counted but not yet
      re-checked, past the re-check, or counted and backing out. */
  datatype Op = Away | Checked | Counted | Within | Backing

  datatype Clearer = Resting | Waiting | Clearing | Finished

  datatype State = State(closing: bool, active: int, ops: seq<Op>, clearers: seq<Clearer>)

  datatype Choice = MoveOp(i: nat) | MoveClearer(j: nat)

  function Init(ops: nat, clearers: nat): State {
    State(false, 0, seq(ops, _ => Away), seq(clearers, _ => Resting))
  }

  function OpStep(s: State, i: nat): State
    requires i < |s.ops|
  {
    match s.ops[i]
    case Away => if s.closing then s else s.(ops := s.ops[i := Checked])
    case Checked => s.(ops := s.ops[i := Counted], active := s.active + 1)
    case Counted => s.(ops := s.ops[i := if s.closing then Backing else Within])
    case Within => s.(ops := s.ops[i := Away], active := s.active - 1)
    case Backing => s.(ops := s.ops[i := Away], active := s.active - 1)
  }

  function ClearStep(s: State, j: nat, reopens: bool): State
    requires j < |s.clearers|
  {
    match s.clearers[j]
    case Resting => s.(clearers := s.clearers[j := Waiting], closing := true)
    case Waiting => if s.active == 0 then s.(clearers := s.clearers[j := Clearing]) else s
    case Clearing =>
      if reopens then s.(clearers := s.clearers[j := Resting], closing := false)
      else s.(clearers := s.clearers[j := Finished])
    case Finished => s
  }

  function Next(s: State, c: Choice, reopens: bool): (s': State)
    ensures |s'.ops| == |s.ops| && |s'.clearers| == |s.clearers|
  {
    match c
    case MoveOp(i) => if i < |s.ops| then OpStep(s, i) else s
    case MoveClearer(j) => if j < |s.clearers| then ClearStep(s, j, reopens) else s
  }

  function Run(ops: nat, clearers: nat, reopens: bool, sch: seq<Choice>): (s: State)
    ensures |s.ops| == ops && |s.clearers| == clearers
  {
    if sch == [] then Init(ops, clearers)
    else Next(Run(ops, clearers, reopens, sch[..|sch| - 1]), sch[|sch| - 1], reopens)
  }

  // ----- the counter -----

  predicate IsCounted(op: Op) {
    op.Counted? || op.Within? || op.Backing?
  }

  function InRegion(ops: seq<Op>): nat {
    if ops == [] then 0 else (if IsCounted(ops[0]) then 1 else 0) + InRegion(ops[1..])
  }

  lemma {:induction false} RegionUpdate(ops: seq<Op>, i: nat, op: Op)
    requires i < |ops|
    ensures InRegion(ops[i := op]) + (if IsCounted(ops[i]) then 1 else 0)
            == InRegion(ops) + (if IsCounted(op) then 1 else 0)
  {
    if i == 0 {
      assert ops[0 := op][1..] == ops[1..];
    } else {
      RegionUpdate(ops[1..], i - 1, op);
      assert ops[i := op][1..] == ops[1..][i - 1 := op];
    }
  }

  lemma {:induction false} EmptyRegion(ops: seq<Op>, i: nat)
    requires InRegion(ops) == 0 && i < |ops|
    ensures !IsCounted(ops[i])
  {
    if i > 0 {
      EmptyRegion(ops[1..], i - 1);
    }
  }

  lemma {:induction false} AwayRegion(ops: seq<Op>)
    requires forall i :: 0 <= i < |ops| ==> ops[i] == Away
    ensures InRegion(ops) == 0
  {
    if ops != [] {
      AwayRegion(ops[1..]);
    }
  }

  lemma CounterNext(s: State, c: Choice, reopens: bool)
    requires s.active == InRegion(s.ops)
    ensures Next(s, c, reopens).active == InRegion(Next(s, c, reopens).ops)
  {
    var s' := Next(s, c, reopens);
    if c.MoveOp? && c.i < |s.ops| {
      RegionUpdate(s.ops, c.i, s'.ops[c.i]);
    }
  }

  /** In every interleaving, with any number of clearers, the counter is the number of
      threads between their increment and their decrement. */
  lemma {:induction false} CounterIsExact(ops: nat, clearers: nat, reopens: bool, sch: seq<Choice>)
    ensures Run(ops, clearers, reopens, sch).active == InRegion(Run(ops, clearers, reopens, sch).ops)
  {
    if sch == [] {
      AwayRegion(Init(ops, clearers).ops);
    } else {
      CounterIsExact(ops, clearers, reopens, sch[..|sch| - 1]);
      CounterNext(Run(ops, clearers, reopens, sch[..|sch| - 1]), sch[|sch| - 1], reopens);
    }
  }

  // ----- exclusion -----

  /** No operation is past its re-check while a clearing section runs. */
  ghost predicate Excluded(s: State) {
    forall i, j :: 0 <= i < |s.ops| && 0 <= j < |s.clearers| && s.clearers[j] == Clearing ==> s.ops[i] != Within
  }

  ghost predicate Inv(s: State, reopens: bool) {
    && s.active == InRegion(s.ops)
    && Excluded(s)
    && (reopens ==> forall j :: 0 <= j < |s.clearers| ==> s.clearers[j] != Finished)
    && (forall j :: 0 <= j < |s.clearers| && s.clearers[j] != Resting ==> s.closing)
  }

  lemma OpInv(s: State, i: nat, reopens: bool)
    requires Inv(s, reopens) && i < |s.ops|
    ensures Inv(OpStep(s, i), reopens)
  {
    CounterNext(s, MoveOp(i), reopens);
  }

  lemma ClearInv(s: State, j: nat, reopens: bool)
    requires Inv(s, reopens) && j < |s.clearers| && (|s.clearers| <= 1 || !reopens)
    ensures Inv(ClearStep(s, j, reopens), reopens)
  {
    if s.clearers[j] == Waiting && s.active == 0 {
      forall i | 0 <= i < |s.ops| ensures s.ops[i] != Within {
        EmptyRegion(s.ops, i);
      }
    }
  }

  lemma {:induction false} RunInv(ops: nat, clearers: nat, reopens: bool, sch: seq<Choice>)
    requires clearers <= 1 || !reopens
    ensures Inv(Run(ops, clearers, reopens, sch), reopens)
  {
    if sch == [] {
      AwayRegion(Init(ops, clearers).ops);
    } else {
      RunInv(ops, clearers, reopens, sch[..|sch| - 1]);
      var s := Run(ops, clearers, reopens, sch[..|sch| - 1]);
      match sch[|sch| - 1]
      case MoveOp(i) =>
        if i < ops { OpInv(s, i, reopens); }
      case MoveClearer(j) =>
        if j < clearers { ClearInv(s, j, reopens); }
    }
  }

  /** Two clearers that reopen: the second lowers the flag while the first still clears,
      and an operation walks in. */
  function Intrusion(): seq<Choice> {
    [MoveClearer(0), MoveClearer(0), MoveClearer(1), MoveClearer(1), MoveClearer(1),
     MoveOp(0), MoveOp(0), MoveOp(0)]
  }

  lemma ReopenedTooEarly(ops: nat, clearers: nat)
    requires ops >= 1 && clearers >= 2
    ensures var s := Run(ops, clearers, true, Intrusion()[..5]);
            !s.closing && s.ops[0] == Away && s.clearers[0] == Clearing
  {
    var sch := Intrusion();
    assert sch[..0] == [];
    RunPrefix(ops, clearers, sch, 0);
    RunPrefix(ops, clearers, sch, 1);
    var s2 := Run(ops, clearers, true, sch[..2]);
    assert s2.closing && s2.active == 0 && s2.clearers[0] == Clearing && s2.clearers[1] == Resting;
    RunPrefix(ops, clearers, sch, 2);
    RunPrefix(ops, clearers, sch, 3);
    RunPrefix(ops, clearers, sch, 4);
  }

  lemma TwoClearersBreak(ops: nat, clearers: nat)
    requires ops >= 1 && clearers >= 2
    ensures !Excluded(Run(ops, clearers, true, Intrusion()))
  {
    var sch := Intrusion();
    ReopenedTooEarly(ops, clearers);
    RunPrefix(ops, clearers, sch, 5);
    RunPrefix(ops, clearers, sch, 6);
    RunPrefix(ops, clearers, sch, 7);
    assert sch[..8] == sch;
    var s := Run(ops, clearers, true, sch);
    assert s.ops[0] == Within && s.clearers[0] == Clearing;
  }

  lemma RunPrefix(ops: nat, clearers: nat, sch: seq<Choice>, k: nat)
    requires k < |sch|
    ensures Run(ops, clearers, true, sch[..k + 1]) == Next(Run(ops, clearers, true, sch[..k]), sch[k], true)
  {
    assert sch[..k + 1][..k] == sch[..k];
  }

  /** The gate excludes operations from the clearing section in every run if and only if
      no two reopening clearers can meet (or there is nobody to exclude). */
  lemma ExcludesIffOneClearer(ops: nat, clearers: nat, reopens: bool)
    ensures (forall sch :: Excluded(Run(ops, clearers, reopens, sch)))
            <==> (ops == 0 || clearers <= 1 || !reopens)
  {
    if ops == 0 || clearers <= 1 || !reopens {
      forall sch ensures Excluded(Run(ops, clearers, reopens, sch)) {
        if clearers <= 1 || !reopens {
          RunInv(ops, clearers, reopens, sch);
        }
      }
    } else {
      TwoClearersBreak(ops, clearers);
    }
  }

  // ----- the wait is finite -----

  function Weight(op: Op): nat {
    match op
    case Away => 0
    case Checked => 3
    case Counted => 2
    case Within => 1
    case Backing => 1
  }

  /** The steps that operations can still take once the flag is up. */
  function Work(ops: seq<Op>): nat {
    if ops == [] then 0 else Weight(ops[0]) + Work(ops[1..])
  }

  lemma {:induction false} WorkUpdate(ops: seq<Op>, i: nat, op: Op)
    requires i < |ops|
    ensures Work(ops[i := op]) + Weight(ops[i]) == Work(ops) + Weight(op)
  {
    if i == 0 {
      assert ops[0 := op][1..] == ops[1..];
    } else {
      WorkUpdate(ops[1..], i - 1, op);
      assert ops[i := op][1..] == ops[1..][i - 1 := op];
    }
  }

  /** While the flag is up an operation step either changes nothing, from a thread that is
      away, or brings the end of the wait nearer. */
  lemma WaitShrinks(s: State, i: nat)
    requires s.closing && i < |s.ops|
    ensures OpStep(s, i).closing
    ensures if s.ops[i] == Away then OpStep(s, i) == s else Work(OpStep(s, i).ops) < Work(s.ops)
  {
    WorkUpdate(s.ops, i, OpStep(s, i).ops[i]);
  }

  lemma {:induction false} RegionBelowWork(ops: seq<Op>)
    ensures InRegion(ops) <= Work(ops)
  {
    if ops != [] {
      RegionBelowWork(ops[1..]);
    }
  }

  /** With no work left the counter is zero: the waiting clearer's next look goes through. */
  lemma WaitEnds(ops: nat, clearers: nat, reopens: bool, sch: seq<Choice>, j: nat)
    requires j < clearers && Run(ops, clearers, reopens, sch).clearers[j] == Waiting
    requires Work(Run(ops, clearers, reopens, sch).ops) == 0
    ensures Run(ops, clearers, reopens, sch + [MoveClearer(j)]).clearers[j] == Clearing
  {
    CounterIsExact(ops, clearers, reopens, sch);
    RegionBelowWork(Run(ops, clearers, reopens, sch).ops);
    assert (sch + [MoveClearer(j)])[..|sch|] == sch;
  }
}
