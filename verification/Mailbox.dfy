/**
 The actor mailbox: the multi-producer single-consumer queue (mpsc/mpsc.go)
 driven by the inbox's status word (actor/inbox.go), as an interleaving state
 machine. Go's atomics are sequentially consistent, so a run of the program is
 a sequence of atomic steps of its goroutines; every atomic access of the two
 files is a step of its own here.
 */
module Mailbox {
  import opened Options

  type Tid = nat
  type Node = nat

  // messageBatchSize
  const BATCH: nat := 4096

  // An envelope together with the goroutine that sends it.
  datatype Item = Item(from: Tid, value: int)

  // zeroVal: what the consumer leaves in a slot it has emptied.
  const ZERO := Item(0, 0)

  // procStatus
  datatype Status = Stopped | Starting | Idle | Running

  /** What a goroutine does next. `at` in Swapped is auxiliary: the position of
      `prev` in tail-swap order. */
  datatype Pc =
      // Queue.Push, then Inbox.schedule
    | GotNode(n: Node, item: Item)
    | WroteVal(n: Node, item: Item)
    | Cleared(n: Node, item: Item)
    | Swapped(n: Node, prev: Node, at: nat)
    | Linked
    | MustSchedule
    | Spawning
      // Inbox.run and Queue.PopBatch
    | LoopTest
    | PopStart
    | Walk(first: Node, cur: Node, got: seq<Item>)
    | Take(first: Node, cur: Node, nxt: Node, got: seq<Item>)
    | StoreHead(first: Node, cur: Node, got: seq<Item>)
    | SubLen(first: Node, cur: Node, got: seq<Item>)
    | Recycle(c: Node, cur: Node, got: seq<Item>)
    | Put(freeing: Node, c: Node, cur: Node, got: seq<Item>)
    | Invoking
      // the tail of Inbox.process
    | GoIdle
    | TestLen
      // Inbox.Start
    | SetProc
    | SwapIdle
  {
    // Between winning the idle-to-running CAS and leaving run.
    predicate InSection() {
      Spawning? || LoopTest? || PopStart? || Walk? || Take? || StoreHead? || SubLen? || Recycle? || Put?
      || Invoking? || GoIdle?
    }

    // Inside PopBatch or Invoke.
    predicate InBatch() { Collecting() || Settling() || Invoking? }

    // Between winning the stopped-to-starting CAS and publishing idle.
    predicate MidStart() { SetProc? || SwapIdle? }

    predicate Owner() { InSection() || MidStart() }

    // A producer that holds a node it has not appended yet.
    predicate PreSwap() { GotNode? || WroteVal? || Cleared? }

    // A producer that has yet to write to the list.
    predicate Pushing() { PreSwap() || Swapped? }

    // A producer that has appended its node but not counted it in len.
    predicate InFlight() { Swapped? || Linked? }

    // A goroutine that still has a schedule call (or the length test before one) to make.
    predicate Obliged() { Swapped? || Linked? || MustSchedule? || TestLen? }

    // The consumer has collected values but not moved head.
    predicate Collecting() { Walk? || Take? || StoreHead? }

    // The consumer has moved head and not yet handed the batch over.
    predicate Settling() { SubLen? || Recycle? || Put? }
  }

  /** The linked list with its node pool. The fields after `pool` are
      auxiliary: no step reads them to decide anything.
      order - nodes in tail-swap order, the stub first
      log   - items in tail-swap order; log[i] was appended with order[i+1]
      pos   - the position of each live node in order
      gaps  - for each position swapped in but not linked, its producer
      priv  - the producer of each node taken from the pool and not swapped in
      freed - order[..freed] went back to the pool
      hd    - head is order[hd]
      taken - the last node whose value the consumer took is order[taken] */
  datatype Queue = Queue(
    next: map<Node, Option<Node>>,
    val: map<Node, Item>,
    head: Node,
    tail: Node,
    pool: set<Node>,
    order: seq<Node>,
    log: seq<Item>,
    pos: map<Node, nat>,
    gaps: map<nat, Tid>,
    priv: map<Node, Tid>,
    freed: nat,
    hd: nat,
    taken: nat)

  /** The whole mailbox. The fields after `threads` are auxiliary.
      owner     - the goroutine that last took the right to run or to start
      calls     - items in the order their Send was called
      delivered - items handed to Invoke
      sub       - how much the consumer has subtracted from len */
  datatype State = State(
    q: Queue,
    len: int,
    status: Status,
    proc: bool,
    threads: map<Tid, Pc>,
    owner: Option<Tid>,
    calls: seq<Item>,
    delivered: seq<Item>,
    sub: nat)

  // mpsc.New and NewInbox
  function Init(): State {
    State(Queue(map[0 := None], map[0 := ZERO], 0, 0, {}, [0], [], map[0 := 0], map[], map[], 0, 0, 0),
          0, Stopped, false, map[], None, [], [], 0)
  }

  /** A run is a list of steps. Every goroutine's next action is determined by
      its program counter (Tick); the scheduler and the callers choose the rest.
      Send takes any pooled node or a fresh one, as sync.Pool may. */
  datatype Step =
    | Send(t: Tid, v: int, n: Node)
    | Start(t: Tid)
    | Stop
    | Spawn(t: Tid, child: Tid)
    | Tick(t: Tid)

  predicate Enabled(s: State, step: Step) {
    match step
    case Send(t, v, n) => t !in s.threads && (n in s.q.pool || n !in s.q.next)
    case Start(t) => t !in s.threads
    case Stop => true
    case Spawn(t, child) => t in s.threads && s.threads[t].Spawning? && child !in s.threads
    case Tick(t) => t in s.threads && !s.threads[t].Spawning? && Safe(s.q, s.threads[t])
  }

  // Every pointer a step dereferences is non-nil and allocated.
  predicate Safe(q: Queue, pc: Pc) {
    match pc
    case GotNode(n, _) => n in q.val
    case WroteVal(n, _) => n in q.next
    case Swapped(_, prev, _) => prev in q.next
    case Walk(_, cur, _) => cur in q.next
    case Take(_, _, nxt, _) => nxt in q.val
    case Recycle(c, cur, _) => c in q.next && (c == cur || q.next[c].Some?)
    case _ => true
  }

  function Goto(s: State, t: Tid, pc: Pc): State { s.(threads := s.threads[t := pc]) }

  function Exit(s: State, t: Tid): State { s.(threads := s.threads - {t}) }

  function Apply(s: State, step: Step): State
    requires Enabled(s, step)
  {
    match step
    case Send(t, v, n) => DoSend(s, t, v, n)
    case Start(t) => DoStart(s, t)
    case Stop => s.(status := Stopped)
    case Spawn(t, child) => DoSpawn(s, t, child)
    case Tick(t) => DoTick(s, t)
  }

  // n := pool.Get()
  function DoSend(s: State, t: Tid, v: int, n: Node): State {
    Goto(s.(q := GetNode(s.q, t, n), calls := s.calls + [Item(t, v)]), t, GotNode(n, Item(t, v)))
  }

  function GetNode(q: Queue, t: Tid, n: Node): Queue {
    if n in q.next then q.(pool := q.pool - {n}, priv := q.priv[n := t])
    else q.(next := q.next[n := None], val := q.val[n := ZERO], priv := q.priv[n := t])
  }

  // Inbox.Start: the stopped-to-starting CAS
  function DoStart(s: State, t: Tid): State {
    if s.status == Stopped then Goto(s.(status := Starting, owner := Some(t)), t, SetProc) else s
  }

  // go in.process()
  function DoSpawn(s: State, t: Tid, child: Tid): State {
    s.(threads := (s.threads - {t})[child := LoopTest], owner := Some(child))
  }

  // n.val = v
  function WriteVal(q: Queue, n: Node, item: Item): Queue { q.(val := q.val[n := item]) }

  // n.next.Store(nil)
  function ClearNext(q: Queue, n: Node): Queue { q.(next := q.next[n := None]) }

  // prev := tail.Swap(n), where prev is the old tail
  function SwapTail(q: Queue, t: Tid, n: Node, item: Item): Queue {
    q.(tail := n,
       order := q.order + [n],
       log := q.log + [item],
       pos := q.pos[n := |q.order|],
       gaps := q.gaps[|q.log| := t],
       priv := q.priv - {n})
  }

  // prev.next.Store(n)
  function Publish(q: Queue, n: Node, prev: Node, at: nat): Queue {
    q.(next := q.next[prev := Some(n)], gaps := q.gaps - {at})
  }

  // next.val = zero
  function TakeVal(q: Queue, nxt: Node): Queue { q.(val := q.val[nxt := ZERO], taken := q.taken + 1) }

  // q.head.Store(cur)
  function MoveHead(q: Queue, cur: Node, consumed: nat): Queue { q.(head := cur, hd := q.hd + consumed) }

  // q.pool.Put(freed)
  function PutNode(q: Queue, n: Node): Queue {
    q.(pool := q.pool + {n}, pos := q.pos - {n}, freed := q.freed + 1)
  }

  // next := cur.next.Load(), or the end of the batch
  function AfterWalk(q: Queue, first: Node, cur: Node, got: seq<Item>): Pc
    requires cur in q.next
  {
    if |got| < BATCH && q.next[cur].Some? then Take(first, cur, q.next[cur].value, got)
    else if got == [] then GoIdle
    else StoreHead(first, cur, got)
  }

  // What a goroutine's next action does to the list and the pool.
  function TickQueue(q: Queue, t: Tid, pc: Pc): Queue {
    match pc
    case GotNode(n, item) => WriteVal(q, n, item)
    case WroteVal(n, _) => ClearNext(q, n)
    case Cleared(n, item) => SwapTail(q, t, n, item)
    case Swapped(n, prev, at) => Publish(q, n, prev, at)
    case Take(_, _, nxt, _) => TakeVal(q, nxt)
    case StoreHead(_, cur, got) => MoveHead(q, cur, |got|)
    case Put(freeing, _, _, _) => PutNode(q, freeing)
    case _ => q
  }

  // Queue.Push
  function PushTick(s: State, t: Tid, pc: Pc): State
    requires pc.Pushing()
  {
    var s1 := s.(q := TickQueue(s.q, t, pc));
    match pc
    case GotNode(n, item) => Goto(s1, t, WroteVal(n, item))
    case WroteVal(n, item) => Goto(s1, t, Cleared(n, item))
    case Cleared(n, item) => Goto(s1, t, Swapped(n, s.q.tail, |s.q.log|))
    case Swapped(_, _, _) => Goto(s1, t, Linked)
  }

  // Queue.PopBatch from its first load of a next pointer on
  function PopTick(s: State, t: Tid, pc: Pc): State
    requires (pc.Collecting() || pc.Settling()) && Safe(s.q, pc)
  {
    var s1 := s.(q := TickQueue(s.q, t, pc));
    match pc
    case Walk(first, cur, got) => Goto(s1, t, AfterWalk(s.q, first, cur, got))
    case Take(first, _, nxt, got) => Goto(s1, t, Walk(first, nxt, got + [s.q.val[nxt]]))
    case StoreHead(first, cur, got) => Goto(s1, t, SubLen(first, cur, got))
    case SubLen(first, cur, got) =>
      Goto(s1.(len := s.len - |got|, sub := s.sub + |got|), t, Recycle(first, cur, got))
    case Recycle(c, cur, got) =>
      if c == cur then Goto(s1.(delivered := s.delivered + got), t, Invoking)
      else Goto(s1, t, Put(c, s.q.next[c].value, cur, got))
    case Put(_, c, cur, got) => Goto(s1, t, Recycle(c, cur, got))
  }

  // The rest: counting, schedule, process, the loop of run, and Start
  function InboxTick(s: State, t: Tid, pc: Pc): State
    requires !pc.Pushing() && !pc.Collecting() && !pc.Settling() && !pc.Spawning?
  {
    match pc
    case Linked => Goto(s.(len := s.len + 1), t, MustSchedule)
    case MustSchedule =>
      if s.status == Idle then Goto(s.(status := Running, owner := Some(t)), t, Spawning) else Exit(s, t)
    case LoopTest => Goto(s, t, if s.status == Stopped then GoIdle else PopStart)
    case PopStart => Goto(s, t, Walk(s.q.head, s.q.head, []))
    case Invoking => Goto(s, t, LoopTest)
    case GoIdle =>
      if s.status == Running then Goto(s.(status := Idle, owner := None), t, TestLen)
      else Exit(s.(owner := None), t)
    case TestLen => if s.len > 0 then Goto(s, t, MustSchedule) else Exit(s, t)
    case SetProc => Goto(s.(proc := true), t, SwapIdle)
    case SwapIdle => Goto(s.(status := Idle, owner := None), t, MustSchedule)
  }

  function DoTick(s: State, t: Tid): State
    requires Enabled(s, Tick(t))
  {
    var pc := s.threads[t];
    if pc.Pushing() then PushTick(s, t, pc)
    else if pc.Collecting() || pc.Settling() then PopTick(s, t, pc)
    else InboxTick(s, t, pc)
  }

  ghost predicate HasOwner(s: State) {
    exists t :: t in s.threads && s.threads[t].Owner()
  }

  /** The discipline Start needs from its callers: it may find the inbox
      stopped only once the previous process goroutine (or starter) is through. */
  ghost predicate Disciplined(s: State, step: Step) {
    step.Start? && s.status == Stopped ==> !HasOwner(s)
  }

  // The state after a run.
  ghost predicate Runs(steps: seq<Step>, s: State, s': State)
    decreases |steps|
  {
    if steps == [] then s' == s
    else Enabled(s, steps[0]) && Runs(steps[1..], Apply(s, steps[0]), s')
  }

  // A run in which every Start is disciplined.
  ghost predicate DisciplinedRun(steps: seq<Step>, s: State, s': State)
    decreases |steps|
  {
    if steps == [] then s' == s
    else Enabled(s, steps[0]) && Disciplined(s, steps[0]) && DisciplinedRun(steps[1..], Apply(s, steps[0]), s')
  }
}
