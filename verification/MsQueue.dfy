/** The Michael-Scott queue with deferred freeing, for any number of threads.
    Nodes are numbered in allocation order and never freed before destruction. */
module MsQueue {
  import opened Ring
  import opened FifoHistory

  /** `pos` is the position of a linked node in link order (history). */
  datatype Node = Node(data: Value, next: Option<nat>, retiredNext: Option<nat>, pos: Option<nat>)

  datatype Pc =
    | Idle
    | EnqTail(node: nat, invoked: nat)
    | EnqNext(node: nat, invoked: nat, tail: nat)
    | EnqCheck(node: nat, invoked: nat, tail: nat, next: Option<nat>)
    | EnqLink(node: nat, invoked: nat, tail: nat)
    | EnqHelp(node: nat, invoked: nat, tail: nat, after: nat)
    | EnqSwing(node: nat, invoked: nat, tail: nat, at: nat)
    | DeqHead(invoked: nat)
    | DeqTail(invoked: nat, head: nat)
    | DeqNext(invoked: nat, head: nat, tail: nat)
    | DeqCheck(invoked: nat, head: nat, tail: nat, next: Option<nat>, seen: nat)
    | DeqHelp(invoked: nat, tail: nat, after: nat)
    | DeqRead(invoked: nat, head: nat, after: nat)
    | DeqCas(invoked: nat, head: nat, after: nat, v: Value)
    | RetLoad(invoked: nat, node: nat, v: Value, at: nat)
    | RetStore(invoked: nat, node: nat, v: Value, at: nat, top: Option<nat>)
    | RetCas(invoked: nat, node: nat, v: Value, at: nat, top: Option<nat>)

  /** `chain` lists the linked nodes in link order, `hd` and `tl` are the places of
      head and tail in it, `stack` lists the retired nodes from the top (history). */
  datatype State = State(head: nat, tail: nat, retired: Option<nat>, nodes: seq<Node>, pcs: seq<Pc>,
                         chain: seq<nat>, hd: nat, tl: nat, stack: seq<nat>,
                         log: seq<Op>, calls: seq<Call>)

  datatype Choice = Choice(tid: nat, deq: bool, v: Value, fail: bool)

  function Init(threads: nat): State {
    State(0, 0, None, [Node(0, None, None, Some(0))], seq(threads, _ => Idle), [0], 0, 0, [], [], [])
  }

  function Move(s: State, i: nat, pc: Pc): State
    requires i < |s.pcs|
  {
    s.(pcs := s.pcs[i := pc])
  }

  function Return(s: State, i: nat, c: Call): State
    requires i < |s.pcs|
  {
    s.(pcs := s.pcs[i := Idle], calls := s.calls + [c])
  }

  function NextOf(s: State, x: nat): Option<nat> {
    if x < |s.nodes| then s.nodes[x].next else None
  }

  /** tail_.compare_exchange_weak(from, to). */
  function SwingTail(s: State, from: nat, to: nat, fail: bool): State {
    if !fail && s.tail == from then s.(tail := to, tl := s.tl + 1) else s
  }

  /** tail->next.compare_exchange_weak(null, node): links the node. */
  function Link(s: State, i: nat, pc: Pc, fail: bool): State
    requires i < |s.pcs| && pc.EnqLink?
  {
    if fail || pc.tail >= |s.nodes| || pc.node >= |s.nodes| || s.nodes[pc.tail].next.Some? then
      Move(s, i, EnqTail(pc.node, pc.invoked))
    else
      var linked := s.nodes[pc.tail := s.nodes[pc.tail].(next := Some(pc.node))];
      var v := linked[pc.node].data;
      Move(s.(nodes := linked[pc.node := linked[pc.node].(pos := Some(|s.chain|))],
              chain := s.chain + [pc.node], log := s.log + [Enq(v)]),
           i, EnqSwing(pc.node, pc.invoked, pc.tail, |s.log|))
  }

  /** head_.compare_exchange_weak(head, next): takes the element. */
  function Unlink(s: State, i: nat, pc: Pc, fail: bool): State
    requires i < |s.pcs| && pc.DeqCas?
  {
    if fail || s.head != pc.head then Move(s, i, DeqHead(pc.invoked))
    else Move(s.(head := pc.after, hd := s.hd + 1, log := s.log + [Deq(pc.v)]),
              i, RetLoad(pc.invoked, pc.head, pc.v, |s.log|))
  }

  /** retired_.compare_exchange_weak(top, node): pushes the node and returns. */
  function Push(s: State, i: nat, pc: Pc, fail: bool): State
    requires i < |s.pcs| && pc.RetCas?
  {
    if fail || s.retired != pc.top then Move(s, i, RetStore(pc.invoked, pc.node, pc.v, pc.at, s.retired))
    else Return(s.(retired := Some(pc.node), stack := [pc.node] + s.stack), i,
                Effect(Deq(pc.v), pc.invoked, pc.at, |s.log|))
  }

  function EnqStep(s: State, c: Choice): (s': State)
    requires c.tid < |s.pcs|
    ensures |s'.pcs| == |s.pcs|
  {
    var i, pc := c.tid, s.pcs[c.tid];
    match pc
    case EnqTail(x, a) => Move(s, i, EnqNext(x, a, s.tail))
    case EnqNext(x, a, t) => Move(s, i, EnqCheck(x, a, t, NextOf(s, t)))
    case EnqCheck(x, a, t, next) =>
      if t != s.tail then Move(s, i, EnqTail(x, a))
      else if next.None? then Move(s, i, EnqLink(x, a, t))
      else Move(s, i, EnqHelp(x, a, t, next.value))
    case EnqLink(_, _, _) => Link(s, i, pc, c.fail)
    case EnqHelp(x, a, t, after) => Move(SwingTail(s, t, after, c.fail), i, EnqTail(x, a))
    case EnqSwing(x, a, t, at) =>
      var v := if x < |s.nodes| then s.nodes[x].data else 0;
      Return(SwingTail(s, t, x, c.fail), i, Effect(Enq(v), a, at, |s.log|))
    case _ => s
  }

  function DeqStep(s: State, c: Choice): (s': State)
    requires c.tid < |s.pcs|
    ensures |s'.pcs| == |s.pcs|
  {
    var i, pc := c.tid, s.pcs[c.tid];
    match pc
    case DeqHead(a) => Move(s, i, DeqTail(a, s.head))
    case DeqTail(a, h) => Move(s, i, DeqNext(a, h, s.tail))
    case DeqNext(a, h, t) => Move(s, i, DeqCheck(a, h, t, NextOf(s, h), |s.log|))
    case DeqCheck(a, h, t, next, seen) =>
      if h != s.head then Move(s, i, DeqHead(a))
      else if next.None? then Return(s, i, SeenEmpty(a, seen, |s.log|))
      else if h == t then Move(s, i, DeqHelp(a, t, next.value))
      else Move(s, i, DeqRead(a, h, next.value))
    case DeqHelp(a, t, after) => Move(SwingTail(s, t, after, c.fail), i, DeqHead(a))
    case DeqRead(a, h, after) =>
      Move(s, i, DeqCas(a, h, after, if after < |s.nodes| then s.nodes[after].data else 0))
    case DeqCas(_, _, _, _) => Unlink(s, i, pc, c.fail)
    case RetLoad(a, x, v, at) => Move(s, i, RetStore(a, x, v, at, s.retired))
    case RetStore(a, x, v, at, top) =>
      if x < |s.nodes| then
        Move(s.(nodes := s.nodes[x := s.nodes[x].(retiredNext := top)]), i, RetCas(a, x, v, at, top))
      else s
    case RetCas(_, _, _, _, _) => Push(s, i, pc, c.fail)
    case _ => s
  }

  predicate IsEnq(pc: Pc) {
    pc.EnqTail? || pc.EnqNext? || pc.EnqCheck? || pc.EnqLink? || pc.EnqHelp? || pc.EnqSwing?
  }

  /** An enqueue starts by allocating its node. */
  function Next(s: State, c: Choice): (s': State)
    ensures |s'.pcs| == |s.pcs|
  {
    if c.tid >= |s.pcs| then s
    else if s.pcs[c.tid].Idle? then
      if c.deq then Move(s, c.tid, DeqHead(|s.log|))
      else Move(s.(nodes := s.nodes + [Node(c.v, None, None, None)]), c.tid, EnqTail(|s.nodes|, |s.log|))
    else if IsEnq(s.pcs[c.tid]) then EnqStep(s, c)
    else DeqStep(s, c)
  }

  function Run(threads: nat, sch: seq<Choice>): (s: State)
    ensures |s.pcs| == threads
  {
    if sch == [] then Init(threads)
    else Next(Run(threads, sch[..|sch| - 1]), sch[|sch| - 1])
  }
}
