/** What PopBatch hands over, and that every run of the mailbox can be run to its end. */
module MailboxProgress {
  import opened Options
  import opened Mailbox
  import opened MailboxInvariant
  import opened MailboxProof
  import opened MailboxTheorems

  // ---- one step of the consumer ----

  // A step of goroutine t leads from s to s1; under a quantifier, so that proofs about runs do not look inside.
  ghost predicate Goes(seal: Seal, t: Tid, s: State, s1: State) { Enabled(s, Tick(t)) && s1 == DoTick(s, t) }

  ghost predicate Ticked(t: Tid, s: State, s1: State) { forall seal: Seal :: Goes(seal, t, s, s1) }

  lemma {:induction false} Ticks(s: State, t: Tid)
    requires Inv(s) && t in s.threads && !s.threads[t].Spawning?
    ensures Enabled(s, Tick(t)) && Ticked(t, s, DoTick(s, t)) && Inv(DoTick(s, t))
  {
    InvSafe(s, t);
    StepInv(s, Tick(t));
  }

  // The goroutine in the section is where the invariant says.
  lemma {:induction false} Consumes(s: State, t: Tid)
    requires Inv(s) && t in s.threads && s.threads[t].InSection()
    ensures Shape(s.q) && Consumer(s.q, s.threads[t], s.sub, s.delivered)
    ensures s.status == Running || s.status == Stopped
  {
    assert Holds(ShapePart, s) && Holds(ConsumerPart, s) && Holds(OwnerPart, s);
  }

  // There is a node behind the one the consumer is at.
  predicate More(q: Queue) { q.taken < |q.log| && q.taken !in q.gaps }

  lemma {:induction false} TickWalk(s: State, t: Tid) returns (s1: State)
    requires Inv(s) && t in s.threads && s.threads[t].Walk?
    ensures var pc, q := s.threads[t], s.q;
            && CollectingAt(q, pc) && Ticked(t, s, s1) && Inv(s1)
            && s1 == Goto(s, t,
                 if |pc.got| < 4096 && More(q) then Take(pc.first, pc.cur, q.order[q.taken + 1], pc.got)
                 else if pc.got == [] then GoIdle
                 else StoreHead(pc.first, pc.cur, pc.got))
  {
    Ticks(s, t);
    s1 := DoTick(s, t);
    Consumes(s, t);
    assert Holds(LinksPart, s);
    assert LinkAt(s.q, s.q.taken);
  }

  lemma {:induction false} TickTake(s: State, t: Tid) returns (s1: State)
    requires Inv(s) && t in s.threads && s.threads[t].Take?
    ensures var pc, q := s.threads[t], s.q;
            && CollectingAt(q, pc) && More(q) && pc.nxt in q.val && Ticked(t, s, s1) && Inv(s1)
            && s1 == Goto(s.(q := TakeVal(q, pc.nxt)), t,
                                    Walk(pc.first, pc.nxt, pc.got + [q.val[pc.nxt]]))
  {
    Ticks(s, t);
    s1 := DoTick(s, t);
    Consumes(s, t);
  }

  lemma {:induction false} TickStore(s: State, t: Tid) returns (s1: State)
    requires Inv(s) && t in s.threads && s.threads[t].StoreHead?
    ensures var pc, q := s.threads[t], s.q;
            && CollectingAt(q, pc) && Ticked(t, s, s1) && Inv(s1) && s.delivered == q.log[..q.hd]
            && s1 == Goto(s.(q := MoveHead(q, pc.cur, |pc.got|)), t, SubLen(pc.first, pc.cur, pc.got))
  {
    Ticks(s, t);
    s1 := DoTick(s, t);
    Consumes(s, t);
  }

  lemma {:induction false} TickSub(s: State, t: Tid) returns (s1: State)
    requires Inv(s) && t in s.threads && s.threads[t].SubLen?
    ensures var pc := s.threads[t];
            && SettlingAt(s.q, pc, s.sub, s.delivered) && Ticked(t, s, s1) && Inv(s1)
            && s1 == Goto(s.(len := s.len - |pc.got|, sub := s.sub + |pc.got|), t,
                                    Recycle(pc.first, pc.cur, pc.got))
  {
    Ticks(s, t);
    s1 := DoTick(s, t);
    Consumes(s, t);
  }

  lemma {:induction false} TickRecycle(s: State, t: Tid) returns (s1: State)
    requires Inv(s) && t in s.threads && s.threads[t].Recycle?
    ensures var pc, q := s.threads[t], s.q;
            && SettlingAt(q, pc, s.sub, s.delivered) && Ticked(t, s, s1) && Inv(s1)
            && s1 == if q.freed == q.hd then Goto(s.(delivered := s.delivered + pc.got), t, Invoking)
                               else Goto(s, t, Put(pc.c, q.order[q.freed + 1], pc.cur, pc.got))
  {
    Ticks(s, t);
    s1 := DoTick(s, t);
    Consumes(s, t);
    assert Holds(LinksPart, s);
    assert LinkAt(s.q, s.q.freed);
    assert s.q.order[s.q.freed] in s.q.pos && s.q.order[s.q.hd] in s.q.pos;
  }

  lemma {:induction false} TickPut(s: State, t: Tid) returns (s1: State)
    requires Inv(s) && t in s.threads && s.threads[t].Put?
    ensures var pc, q := s.threads[t], s.q;
            && SettlingAt(q, pc, s.sub, s.delivered) && Ticked(t, s, s1) && Inv(s1)
            && s1 == Goto(s.(q := PutNode(q, pc.freeing)), t, Recycle(pc.c, pc.cur, pc.got))
  {
    Ticks(s, t);
    s1 := DoTick(s, t);
    Consumes(s, t);
  }

  lemma {:induction false} TickPop(s: State, t: Tid) returns (s1: State)
    requires Inv(s) && t in s.threads && s.threads[t].PopStart?
    ensures Ticked(t, s, s1) && Inv(s1) && s1 == Goto(s, t, Walk(s.q.head, s.q.head, []))
    ensures |s.delivered| == s.q.hd == s.q.taken <= |s.q.log|
  {
    Ticks(s, t);
    s1 := DoTick(s, t);
    Consumes(s, t);
  }

  // ---- what PopBatch hands over ----

  // How many nodes are linked one after the other behind position i of a list with end items.
  function LinkedFrom(gaps: map<nat, Tid>, end: nat, i: nat): nat
    decreases end - i
  {
    if i >= end || i in gaps then 0 else 1 + LinkedFrom(gaps, end, i + 1)
  }

  function Min(a: nat, b: nat): nat { if a < b then a else b }

  // Inside PopBatch.
  predicate Popping(pc: Pc) { pc.PopStart? || pc.Collecting() || pc.Settling() }

  // Goroutine t alone takes n steps within PopBatch.
  ghost predicate Pops(t: Tid, n: nat, s: State, s': State) {
    if n == 0 then s' == s
    else t in s.threads && Popping(s.threads[t]) && exists s1 :: Ticked(t, s, s1) && Pops(t, n - 1, s1, s')
  }

  // The goroutine has moved on; the rest of the mailbox is as it was, up to what a consumer touches.
  predicate Outside(s: State, s': State, t: Tid) {
    && t in s'.threads && s'.threads == s.threads[t := s'.threads[t]]
    && s'.status == s.status && s'.proc == s.proc && s'.owner == s.owner && s'.calls == s.calls
    && s'.q.log == s.q.log && s'.q.gaps == s.q.gaps && s'.q.order == s.q.order
  }

  // The nodes at positions from..to of the list.
  function NodesAt(order: seq<Node>, from: nat, to: nat): set<Node>
    requires from <= to <= |order|
  {
    set i | from <= i < to :: order[i]
  }

  // k items more were handed to Invoke and their nodes' predecessors recycled, or there was nothing to hand over.
  predicate HandsOver(s: State, s': State, t: Tid, k: nat) {
    var d := |s.delivered|;
    && Outside(s, s', t)
    && s'.threads[t] == (if k == 0 then GoIdle else Invoking)
    && d + k <= |s.q.log| < |s.q.order|
    && s'.delivered == s.delivered + s.q.log[d..d + k]
    && s'.q.head == s.q.order[d + k] && s'.q.pool == s.q.pool + NodesAt(s.q.order, d, d + k)
  }

  lemma {:induction false} PopsOn(t: Tid, n: nat, s: State, s1: State, s': State)
    requires Ticked(t, s, s1) && t in s.threads && Popping(s.threads[t]) && Pops(t, n, s1, s')
    ensures Pops(t, n + 1, s, s')
  {
  }

  lemma {:induction false} PopsTwo(t: Tid, n: nat, s: State, s1: State, s2: State, s': State)
    requires t in s.threads && Popping(s.threads[t]) && Ticked(t, s, s1)
    requires t in s1.threads && Popping(s1.threads[t]) && Ticked(t, s1, s2) && Pops(t, n, s2, s')
    ensures Pops(t, n + 2, s, s')
  {
    PopsOn(t, n, s1, s2, s');
    PopsOn(t, n + 1, s, s1, s');
  }

  lemma {:induction false} Recycled(s: State, t: Tid) returns (s1: State, s2: State)
    requires Inv(s) && t in s.threads && s.threads[t].Recycle? && s.q.freed != s.q.hd
    ensures Ticked(t, s, s1) && Ticked(t, s1, s2) && t in s1.threads && Popping(s1.threads[t]) && Inv(s2)
    ensures Outside(s, s2, t) && s2.threads[t].Recycle? && s2.threads[t].got == s.threads[t].got
    ensures s2.delivered == s.delivered && s2.len == s.len && s2.q.head == s.q.head && s2.q.hd == s.q.hd
    ensures s.q.freed < s2.q.freed == s.q.freed + 1 <= s.q.hd < |s.q.order|
    ensures s2.q.pool == s.q.pool + {s.q.order[s.q.freed]}
  {
    s1 := TickRecycle(s, t);
    s2 := TickPut(s1, t);
  }

  lemma {:induction false} Recycles(s: State, t: Tid) returns (n: nat, s': State)
    requires Inv(s) && t in s.threads && s.threads[t].Recycle?
    ensures Pops(t, n, s, s') && Inv(s') && Outside(s, s', t) && s'.threads[t] == Invoking
    ensures s'.delivered == s.delivered + s.threads[t].got && s'.len == s.len && s'.q.head == s.q.head
    ensures s.q.freed <= s.q.hd < |s.q.order| && s'.q.pool == s.q.pool + NodesAt(s.q.order, s.q.freed, s.q.hd)
    decreases |s.q.order| - s.q.freed
  {
    if s.q.freed == s.q.hd {
      s' := TickRecycle(s, t);
      PopsOn(t, 0, s, s', s');
      n := 1;
    } else {
      var s1, s2 := Recycled(s, t);
      n, s' := Recycles(s2, t);
      assert NodesAt(s.q.order, s.q.freed, s.q.hd)
             == {s.q.order[s.q.freed]} + NodesAt(s.q.order, s2.q.freed, s2.q.hd);
      PopsTwo(t, n, s, s1, s2, s');
      n := n + 2;
    }
  }

  lemma {:induction false} Stores(s: State, t: Tid) returns (n: nat, s': State)
    requires Inv(s) && t in s.threads && s.threads[t].StoreHead?
    ensures Pops(t, n, s, s') && Inv(s') && CollectingAt(s.q, s.threads[t])
    ensures HandsOver(s, s', t, |s.threads[t].got|) && s'.len == s.len - |s.threads[t].got|
  {
    var s1 := TickStore(s, t);
    var s2 := TickSub(s1, t);
    n, s' := Recycles(s2, t);
    PopsTwo(t, n, s, s1, s2, s');
    n := n + 2;
  }

  lemma {:induction false} Taken(s: State, t: Tid) returns (s1: State, s2: State)
    requires Inv(s) && t in s.threads && s.threads[t].Walk? && |s.threads[t].got| < 4096 && More(s.q)
    ensures Ticked(t, s, s1) && Ticked(t, s1, s2) && t in s1.threads && Popping(s1.threads[t]) && Inv(s2)
    ensures Outside(s, s2, t) && s2.threads[t].Walk? && |s2.threads[t].got| == |s.threads[t].got| + 1
    ensures s2.delivered == s.delivered && s2.len == s.len && s2.q.taken == s.q.taken + 1
    ensures s2.q.pool == s.q.pool
    ensures CollectingAt(s.q, s.threads[t])
  {
    s1 := TickWalk(s, t);
    s2 := TickTake(s1, t);
  }

  // The end of a batch.
  lemma {:induction false} WalkEnds(s: State, t: Tid) returns (n: nat, s': State)
    requires Inv(s) && t in s.threads && s.threads[t].Walk? && !(|s.threads[t].got| < 4096 && More(s.q))
    ensures Pops(t, n, s, s') && Inv(s') && CollectingAt(s.q, s.threads[t])
    ensures HandsOver(s, s', t, |s.threads[t].got|) && s'.len == s.len - |s.threads[t].got|
  {
    var s1 := TickWalk(s, t);
    if s.threads[t].got == [] {
      n, s' := 0, s1;
      Consumes(s, t);
    } else {
      n, s' := Stores(s1, t);
    }
    PopsOn(t, n, s, s1, s');
    n := n + 1;
  }

  lemma {:induction false} HandsOn(s: State, s1: State, s': State, t: Tid, k: nat)
    requires Outside(s, s1, t) && s1.delivered == s.delivered && s1.q.pool == s.q.pool && HandsOver(s1, s', t, k)
    ensures HandsOver(s, s', t, k)
  {
  }

  // What a batch will be, from what is collected and what is linked.
  function Batch(s: State, t: Tid): nat
    requires t in s.threads && s.threads[t].Walk? && |s.threads[t].got| <= 4096
  {
    var got := |s.threads[t].got|;
    got + Min(4096 - got, LinkedFrom(s.q.gaps, |s.q.log|, s.q.taken))
  }

  lemma {:induction false} BatchSame(s: State, s2: State, t: Tid)
    requires t in s.threads && s.threads[t].Walk? && |s.threads[t].got| < 4096 && More(s.q)
    requires Outside(s, s2, t) && s2.threads[t].Walk? && |s2.threads[t].got| == |s.threads[t].got| + 1
    requires s2.q.taken == s.q.taken + 1
    ensures Batch(s2, t) == Batch(s, t)
  {
  }

  lemma {:induction false} Walks(s: State, t: Tid) returns (n: nat, s': State)
    requires Inv(s) && t in s.threads && s.threads[t].Walk?
    ensures Pops(t, n, s, s') && Inv(s') && CollectingAt(s.q, s.threads[t])
    ensures HandsOver(s, s', t, Batch(s, t)) && s'.len == s.len - Batch(s, t)
    decreases |s.q.log| - s.q.taken
  {
    if |s.threads[t].got| < 4096 && More(s.q) {
      var s1, s2 := Taken(s, t);
      n, s' := Walks(s2, t);
      BatchSame(s, s2, t);
      HandsOn(s, s2, s', t, Batch(s, t));
      PopsTwo(t, n, s, s1, s2, s');
      n := n + 2;
    } else {
      n, s' := WalkEnds(s, t);
    }
  }

  // The items PopBatch will take.
  function Linked(s: State): nat { LinkedFrom(s.q.gaps, |s.q.log|, |s.delivered|) }

  lemma {:induction false} PopsAll(s: State, t: Tid) returns (n: nat, s': State)
    requires Inv(s) && t in s.threads && s.threads[t].PopStart?
    ensures Pops(t, n, s, s') && Inv(s')
    ensures HandsOver(s, s', t, Min(4096, Linked(s))) && s'.len == s.len - Min(4096, Linked(s))
  {
    var s1 := TickPop(s, t);
    n, s' := Walks(s1, t);
    PopsOn(t, n, s, s1, s');
    n := n + 1;
  }

  /** PopBatch, left alone, hands over exactly what is linked behind head when it
      starts, in order and at most 4096 items of it, takes that many from len and
      gives that many nodes back to the pool; it reports an empty queue exactly if
      nothing is linked there. */
  lemma {:induction false} PopHandsOver(before: seq<Step>, s: State, t: Tid) returns (n: nat, s': State)
    requires Reached(before, s) && t in s.threads && s.threads[t].PopStart?
    ensures Pops(t, n, s, s')
    ensures var k := Min(4096, LinkedFrom(s.q.gaps, |s.q.log|, |s.delivered|));
            HandsOver(s, s', t, k) && s'.len == s.len - k
  {
    ReachedInv(before, s);
    n, s' := PopsAll(s, t);
  }

  // ---- what run hands over ----

  // Goroutine t alone takes n steps within run, up to its end.
  ghost predicate Loops(t: Tid, n: nat, s: State, s': State) {
    if n == 0 then s' == s
    else
      && t in s.threads && (s.threads[t].LoopTest? || Popping(s.threads[t]) || s.threads[t].Invoking?)
      && exists s1 :: Ticked(t, s, s1) && Loops(t, n - 1, s1, s')
  }

  lemma {:induction false} PopsThenLoops(t: Tid, n: nat, m: nat, s: State, s1: State, s': State)
    requires Pops(t, n, s, s1) && Loops(t, m, s1, s')
    ensures Loops(t, n + m, s, s')
    decreases n
  {
    if n > 0 {
      var s0 :| Ticked(t, s, s0) && Pops(t, n - 1, s0, s1);
      PopsThenLoops(t, n - 1, m, s0, s1, s');
    }
  }

  lemma {:induction false} LinkedSplits(gaps: map<nat, Tid>, end: nat, i: nat, k: nat)
    requires k <= LinkedFrom(gaps, end, i)
    ensures LinkedFrom(gaps, end, i) == k + LinkedFrom(gaps, end, i + k)
    decreases k
  {
    if k > 0 { LinkedSplits(gaps, end, i + 1, k - 1); }
  }

  // k items more were handed to Invoke, and the loop is over.
  predicate Emptied(s: State, s': State, t: Tid, k: nat) {
    var d := |s.delivered|;
    && Outside(s, s', t) && s'.threads[t] == GoIdle && s'.len == s.len - k
    && d + k <= |s.q.log| && s'.delivered == s.delivered + s.q.log[d..d + k]
  }

  lemma {:induction false} TickLoop(s: State, t: Tid) returns (s1: State)
    requires Inv(s) && t in s.threads && (s.threads[t].Invoking? || (s.threads[t].LoopTest? && s.status != Stopped))
    ensures Ticked(t, s, s1) && Inv(s1)
    ensures s1 == Goto(s, t, if s.threads[t].Invoking? then LoopTest else PopStart)
  {
    Ticks(s, t);
    s1 := DoTick(s, t);
  }

  lemma {:induction false} LoopsBack(s: State, t: Tid) returns (s1: State, s2: State)
    requires Inv(s) && t in s.threads && s.threads[t].Invoking? && s.status != Stopped
    ensures Ticked(t, s, s1) && t in s1.threads && s1.threads[t].LoopTest? && Ticked(t, s1, s2)
    ensures Inv(s2) && s2 == Goto(s, t, PopStart)
  {
    s1 := TickLoop(s, t);
    s2 := TickLoop(s1, t);
    assert s2.threads == s.threads[t := PopStart];
  }

  lemma {:induction false} Joins(s: State, s1: State, s2: State, s': State, t: Tid, k: nat, l: nat)
    requires HandsOver(s, s1, t, k) && k > 0 && s1.len == s.len - k && s2 == Goto(s1, t, PopStart)
    requires Emptied(s2, s', t, l)
    ensures Emptied(s, s', t, k + l)
  {
    var d, log := |s.delivered|, s.q.log;
    assert log[d..d + k] + log[d + k..d + k + l] == log[d..d + k + l];
  }

  lemma {:induction false} LinkedRest(s: State, s1: State, s2: State, t: Tid, k: nat)
    requires HandsOver(s, s1, t, k) && s2 == Goto(s1, t, PopStart) && k <= Linked(s)
    ensures Linked(s) == k + Linked(s2)
  {
    LinkedSplits(s.q.gaps, |s.q.log|, |s.delivered|, k);
  }

  lemma {:induction false} RunsOut(s: State, t: Tid) returns (n: nat, s': State)
    requires Inv(s) && t in s.threads && s.threads[t].PopStart? && s.status != Stopped
    ensures Loops(t, n, s, s') && Emptied(s, s', t, Linked(s))
    decreases Linked(s)
  {
    var k := Min(4096, Linked(s));
    var m, s1 := PopsAll(s, t);
    if k == 0 {
      n, s' := 0, s1;
    } else {
      var s2, s3 := LoopsBack(s1, t);
      LinkedRest(s, s1, s3, t, k);
      n, s' := RunsOut(s3, t);
      Joins(s, s1, s3, s', t, k, Linked(s3));
      assert Loops(t, n + 1, s2, s') && Loops(t, n + 2, s1, s');
      n := n + 2;
    }
    PopsThenLoops(t, m, n, s, s1, s');
    n := m + n;
  }

  /** Inbox.run, left alone and not stopped, hands over everything that is linked
      behind head, batch after batch, before it goes idle. */
  lemma {:induction false} RunHandsOver(before: seq<Step>, s: State, t: Tid) returns (n: nat, s': State)
    requires Reached(before, s) && t in s.threads && s.threads[t].LoopTest? && s.status != Stopped
    ensures Loops(t, n, s, s') && Emptied(s, s', t, LinkedFrom(s.q.gaps, |s.q.log|, |s.delivered|))
  {
    ReachedInv(before, s);
    var s1 := TickLoop(s, t);
    n, s' := RunsOut(s1, t);
    n := n + 1;
  }

  // ---- every run can be run to its end ----

  // Nobody calls anything: only goroutines that are there, and those they spawn, move.
  predicate IsMove(step: Step) { step.Tick? || step.Spawn? }

  ghost predicate MovesTo(seal: Seal, steps: seq<Step>, s: State, s': State) {
    DisciplinedRun(steps, s, s') && forall step :: step in steps ==> IsMove(step)
  }

  ghost predicate Moves(steps: seq<Step>, s: State, s': State) { forall seal: Seal :: MovesTo(seal, steps, s, s') }

  lemma {:induction false} NoMove(s: State)
    ensures Moves([], s, s)
  {
  }

  lemma {:induction false} MoveOn(t: Tid, steps: seq<Step>, s: State, s1: State, s': State)
    requires Ticked(t, s, s1) && Moves(steps, s1, s')
    ensures Moves([Tick(t)] + steps, s, s')
  {
    assert Goes(Seal, t, s, s1) && MovesTo(Seal, steps, s1, s');
    RunOne(s, t);
    RunAppend([Tick(t)], steps, s, s1, s');
  }

  lemma {:induction false} SpawnOn(t: Tid, child: Tid, steps: seq<Step>, s: State, s': State)
    requires t in s.threads && s.threads[t].Spawning? && child !in s.threads && Moves(steps, DoSpawn(s, t, child), s')
    ensures Moves([Spawn(t, child)] + steps, s, s')
  {
    var s1 := DoSpawn(s, t, child);
    assert MovesTo(Seal, steps, s1, s');
    assert [Spawn(t, child)][1..] == [] && DisciplinedRun([], s1, s1);
    assert DisciplinedRun([Spawn(t, child)], s, s1);
    RunAppend([Spawn(t, child)], steps, s, s1, s');
  }

  lemma {:induction false} MovesAppend(a: seq<Step>, b: seq<Step>, s: State, s1: State, s2: State)
    requires Moves(a, s, s1) && Moves(b, s1, s2)
    ensures Moves(a + b, s, s2)
  {
    assert MovesTo(Seal, a, s, s1) && MovesTo(Seal, b, s1, s2);
    RunAppend(a, b, s, s1, s2);
  }

  // A producer that has yet to link its node or to count it.
  predicate Producing(pc: Pc) { pc.Pushing() || pc.Linked? }

  function StepsLeft(pc: Pc): nat {
    if pc.GotNode? then 5 else if pc.WroteVal? then 4 else if pc.Cleared? then 3 else if pc.Swapped? then 2 else 1
  }

  lemma {:induction false} TickPush(s: State, t: Tid) returns (s1: State, pc: Pc)
    requires Inv(s) && t in s.threads && Producing(s.threads[t])
    ensures Ticked(t, s, s1) && Inv(s1) && s1.threads == s.threads[t := pc]
    ensures if s.threads[t].Linked? then pc == MustSchedule
            else Producing(pc) && StepsLeft(pc) < StepsLeft(s.threads[t])
  {
    Ticks(s, t);
    s1 := DoTick(s, t);
    pc := s1.threads[t];
  }

  // A producer finishes its push, whatever the others are doing.
  lemma {:induction false} PushFinishes(s: State, t: Tid) returns (steps: seq<Step>, s': State)
    requires Inv(s) && t in s.threads && Producing(s.threads[t])
    ensures Moves(steps, s, s') && Inv(s') && s'.threads == s.threads[t := MustSchedule]
    decreases StepsLeft(s.threads[t])
  {
    var s1, pc := TickPush(s, t);
    if s.threads[t].Linked? {
      steps, s' := [], s1;
      NoMove(s1);
    } else {
      steps, s' := PushFinishes(s1, t);
    }
    MoveOn(t, steps, s, s1, s');
    steps := [Tick(t)] + steps;
  }

  ghost function AllProducing(threads: map<Tid, Pc>): set<Tid> { set t | t in threads && Producing(threads[t]) }

  lemma {:induction false} PushesFinish(s: State) returns (steps: seq<Step>, s': State)
    requires Inv(s)
    ensures Moves(steps, s, s') && Inv(s') && AllProducing(s'.threads) == {}
    decreases |AllProducing(s.threads)|
  {
    if AllProducing(s.threads) == {} {
      steps, s' := [], s;
      NoMove(s);
    } else {
      var t :| t in AllProducing(s.threads);
      var first, s1 := PushFinishes(s, t);
      assert AllProducing(s1.threads) == AllProducing(s.threads) - {t};
      steps, s' := PushesFinish(s1);
      MovesAppend(first, steps, s, s1, s');
      steps := first + steps;
    }
  }

  /** Nobody pushes, and goroutine c is the owner or there is none. Then nothing is
      unlinked and len is exact, so a goroutine that finds the queue empty is right. */
  ghost predicate Calm(s: State, c: Tid) {
    Inv(s) && AllProducing(s.threads) == {} && c in s.threads && (s.owner.None? || s.owner == Some(c))
  }

  lemma {:induction false} CalmFacts(s: State, c: Tid)
    requires Calm(s, c)
    ensures s.q.gaps == map[] && s.len == |s.q.log| - s.sub && s.q.hd <= |s.q.log|
    ensures !s.threads[c].Owner() ==> s.owner.None? && s.q.hd == s.sub && (s.status == Idle || s.status == Stopped)
    ensures s.threads[c].GoIdle? ==> s.status == Running || s.status == Stopped
  {
    assert Holds(ProducersPart, s) && Holds(LenPart, s) && Holds(OwnerPart, s) && Holds(ShapePart, s)
           && Holds(ConsumerPart, s);
    forall t | t in s.threads ensures !Producing(s.threads[t]) {
      assert t !in AllProducing(s.threads);
    }
    assert InFlight(s.threads) == {};
  }

  // How far a goroutine is from its end: by place, and by nodes where it loops.
  ghost function Place(s: State, pc: Pc): nat {
    match pc
    case SubLen(_, _, _) => 40
    case Recycle(_, _, _) => 39
    case Put(_, _, _, _) => 39
    case Invoking => 38
    case SetProc => 32
    case SwapIdle => 31
    case GoIdle => if s.status != Stopped && Pending(s) then 30 else 2
    case TestLen => if Pending(s) then 29 else 1
    case MustSchedule => 28
    case Spawning => 27
    case LoopTest => 26
    case PopStart => 25
    case Walk(_, _, _) => 20
    case Take(_, _, _, _) => 20
    case StoreHead(_, _, _) => 19
    case _ => 0
  }

  function Nodes(q: Queue, pc: Pc): nat {
    if (pc.Walk? || pc.Take?) && q.taken <= |q.log| then 2 * (|q.log| - q.taken) + if pc.Walk? then 1 else 0
    else if (pc.Recycle? || pc.Put?) && q.freed <= q.hd then 2 * (q.hd - q.freed) + if pc.Recycle? then 1 else 0
    else 0
  }

  function Unread(q: Queue): nat { if q.hd < |q.log| then |q.log| - q.hd else 0 }

  // In s1 goroutine c is nearer to its end than in s.
  ghost predicate Nearer(s1: State, s: State, c: Tid)
    requires c in s.threads && c in s1.threads
  {
    var (a, b) := (s1.threads[c], s.threads[c]);
    || Unread(s1.q) < Unread(s.q)
    || (Unread(s1.q) == Unread(s.q) && Place(s1, a) < Place(s, b))
    || (Unread(s1.q) == Unread(s.q) && Place(s1, a) == Place(s, b) && Nodes(s1.q, a) < Nodes(s.q, b))
  }

  // After a step of c it is gone, or it is nearer to its end; nothing else has changed.
  ghost predicate Advances(s1: State, s: State, c: Tid)
    requires c in s.threads
  {
    || (s1.threads == s.threads - {c} && s1.owner.None?)
    || (c in s1.threads && s1.threads == s.threads[c := s1.threads[c]] && !Producing(s1.threads[c])
        && (s1.owner.None? || s1.owner == Some(c)) && Nearer(s1, s, c))
  }

  lemma {:induction false} WalkAdvances(s: State, c: Tid) returns (s1: State)
    requires Calm(s, c) && s.threads[c].Walk?
    ensures Ticked(c, s, s1) && Inv(s1) && Advances(s1, s, c)
  {
    CalmFacts(s, c);
    Consumes(s, c);
    s1 := TickWalk(s, c);
  }

  lemma {:induction false} TakeAdvances(s: State, c: Tid) returns (s1: State)
    requires Calm(s, c) && s.threads[c].Take?
    ensures Ticked(c, s, s1) && Inv(s1) && Advances(s1, s, c)
  {
    s1 := TickTake(s, c);
  }

  lemma {:induction false} StoreAdvances(s: State, c: Tid) returns (s1: State)
    requires Calm(s, c) && s.threads[c].StoreHead?
    ensures Ticked(c, s, s1) && Inv(s1) && Advances(s1, s, c)
  {
    s1 := TickStore(s, c);
  }

  lemma {:induction false} SubAdvances(s: State, c: Tid) returns (s1: State)
    requires Calm(s, c) && s.threads[c].SubLen?
    ensures Ticked(c, s, s1) && Inv(s1) && Advances(s1, s, c)
  {
    s1 := TickSub(s, c);
  }

  lemma {:induction false} RecycleAdvances(s: State, c: Tid) returns (s1: State)
    requires Calm(s, c) && s.threads[c].Recycle?
    ensures Ticked(c, s, s1) && Inv(s1) && Advances(s1, s, c)
  {
    s1 := TickRecycle(s, c);
  }

  lemma {:induction false} PutAdvances(s: State, c: Tid) returns (s1: State)
    requires Calm(s, c) && s.threads[c].Put?
    ensures Ticked(c, s, s1) && Inv(s1) && Advances(s1, s, c)
  {
    s1 := TickPut(s, c);
  }

  lemma {:induction false} LoopAdvances(s: State, c: Tid) returns (s1: State)
    requires Calm(s, c) && (s.threads[c].LoopTest? || s.threads[c].PopStart? || s.threads[c].Invoking?)
    ensures Ticked(c, s, s1) && Inv(s1) && Advances(s1, s, c)
  {
    Ticks(s, c);
    s1 := DoTick(s, c);
  }

  lemma {:induction false} IdleAdvances(s: State, c: Tid) returns (s1: State)
    requires Calm(s, c) && s.threads[c].GoIdle?
    ensures Ticked(c, s, s1) && Inv(s1) && Advances(s1, s, c)
  {
    CalmFacts(s, c);
    Ticks(s, c);
    s1 := DoTick(s, c);
  }

  lemma {:induction false} ScheduleAdvances(s: State, c: Tid) returns (s1: State)
    requires Calm(s, c) && !s.threads[c].InSection()
    ensures Ticked(c, s, s1) && Inv(s1) && Advances(s1, s, c)
  {
    CalmFacts(s, c);
    assert c !in AllProducing(s.threads);
    Ticks(s, c);
    s1 := DoTick(s, c);
  }

  lemma {:induction false} TickAdvances(s: State, c: Tid) returns (s1: State)
    requires Calm(s, c) && !s.threads[c].Spawning?
    ensures Ticked(c, s, s1) && Inv(s1) && Advances(s1, s, c)
  {
    var pc := s.threads[c];
    if pc.Walk? {
      s1 := WalkAdvances(s, c);
    } else if pc.Take? {
      s1 := TakeAdvances(s, c);
    } else if pc.StoreHead? {
      s1 := StoreAdvances(s, c);
    } else if pc.SubLen? {
      s1 := SubAdvances(s, c);
    } else if pc.Recycle? {
      s1 := RecycleAdvances(s, c);
    } else if pc.Put? {
      s1 := PutAdvances(s, c);
    } else if pc.GoIdle? {
      s1 := IdleAdvances(s, c);
    } else if pc.InSection() {
      s1 := LoopAdvances(s, c);
    } else {
      s1 := ScheduleAdvances(s, c);
    }
  }

  lemma {:induction false} SpawnAdvances(s: State, c: Tid) returns (s1: State, child: Tid)
    requires Calm(s, c) && s.threads[c].Spawning?
    ensures child !in s.threads && s1 == DoSpawn(s, c, child) && Calm(s1, child)
    ensures s1.threads - {child} == s.threads - {c} && s1.threads[child] == LoopTest
    ensures Unread(s1.q) == Unread(s.q) && Place(s1, s1.threads[child]) < Place(s, s.threads[c])
  {
    child := Unused(s.threads.Keys);
    s1 := DoSpawn(s, c, child);
    StepInv(s, Spawn(c, child));
    assert s1.threads - {child} == s.threads - {c};
    forall t | t in s1.threads ensures !Producing(s1.threads[t]) {
      assert t !in AllProducing(s.threads);
    }
    assert AllProducing(s1.threads) == {};
  }

  // Left alone, goroutine c ends.
  lemma {:induction false} Ends(s: State, c: Tid) returns (steps: seq<Step>, s': State)
    requires Calm(s, c)
    ensures Moves(steps, s, s') && Inv(s') && s'.threads == s.threads - {c} && s'.owner.None?
    decreases Unread(s.q), Place(s, s.threads[c]), Nodes(s.q, s.threads[c])
  {
    if s.threads[c].Spawning? {
      var s1, child := SpawnAdvances(s, c);
      steps, s' := Ends(s1, child);
      SpawnOn(c, child, steps, s, s');
      steps := [Spawn(c, child)] + steps;
    } else {
      var s1 := TickAdvances(s, c);
      if c !in s1.threads {
        steps, s' := [], s1;
        NoMove(s1);
      } else {
        StaysCalm(s, s1, c);
        steps, s' := Ends(s1, c);
        assert s1.threads - {c} == s.threads - {c};
      }
      MoveOn(c, steps, s, s1, s');
      steps := [Tick(c)] + steps;
    }
  }

  lemma {:induction false} StaysCalm(s: State, s1: State, c: Tid)
    requires Calm(s, c) && Inv(s1) && c in s1.threads && Advances(s1, s, c)
    ensures Calm(s1, c) && Nearer(s1, s, c) && s1.threads - {c} == s.threads - {c}
  {
    forall t | t in s1.threads ensures !Producing(s1.threads[t]) {
      assert t !in AllProducing(s.threads);
    }
    assert AllProducing(s1.threads) == {};
  }

  // So one goroutine after the other, the owner first.
  lemma {:induction false} AllEnd(s: State) returns (steps: seq<Step>, s': State)
    requires Inv(s) && AllProducing(s.threads) == {}
    ensures Moves(steps, s, s') && Inv(s') && s'.threads == map[]
    decreases |s.threads|
  {
    if s.threads == map[] {
      steps, s' := [], s;
      NoMove(s);
    } else {
      assert Holds(OwnerPart, s);
      var c :| c in s.threads && (s.owner.Some? ==> c == s.owner.value);
      var first, s1 := Ends(s, c);
      assert s1.threads.Keys == s.threads.Keys - {c};
      assert AllProducing(s1.threads) <= AllProducing(s.threads);
      steps, s' := AllEnd(s1);
      MovesAppend(first, steps, s, s1, s');
      steps := first + steps;
    }
  }

  // Moves send nothing and stop nothing.
  lemma {:induction false} MovesKeep(steps: seq<Step>, s: State, s': State)
    requires DisciplinedRun(steps, s, s') && forall step :: step in steps ==> IsMove(step)
    ensures s'.calls == s.calls && (s.status != Stopped ==> s'.status != Stopped)
    decreases |steps|
  {
    if steps != [] {
      assert steps[0] in steps && forall step :: step in steps[1..] ==> step in steps;
      MovesKeep(steps[1..], Apply(s, steps[0]), s');
    }
  }

  /** Progress: from every reachable state the goroutines that are there, and the
      ones they spawn, can all run to their end without a further call; then,
      unless the inbox was stopped, it is idle and every item sent was delivered. */
  lemma {:induction false} DrainsOut(before: seq<Step>, s: State) returns (steps: seq<Step>, s': State)
    requires Reached(before, s)
    ensures Reached(before + steps, s') && (forall step :: step in steps ==> IsMove(step)) && s'.threads == map[]
    ensures s.status != Stopped ==> s'.status == Idle && s'.delivered == s'.q.log && s'.len == 0
    ensures s.status != Stopped ==> forall t: Tid :: From(s'.delivered, t) == From(s.calls, t)
  {
    ReachedInv(before, s);
    var first, s1 := PushesFinish(s);
    var second, s2 := AllEnd(s1);
    MovesAppend(first, second, s, s1, s2);
    steps, s' := first + second, s2;
    assert MovesTo(Seal, steps, s, s');
    RunAppend(before, steps, Init(), s, s');
    QuiescentEmpty(before + steps, s');
    MovesKeep(steps, s, s');
  }

  // ---- after a Stop ----

  // What the running goroutine may still hand over: the batch it has in hand.
  function BatchInHand(pc: Pc): nat {
    if pc.Settling() then |pc.got| else if Popping(pc) then 4096 else 0
  }

  ghost predicate Starter(s: State) { exists t :: t in s.threads && s.threads[t].MidStart() }

  // The inbox is stopped, and nobody is in the middle of Start.
  ghost predicate Halted(s: State) { Inv(s) && s.status == Stopped && !OwnerPc(s).MidStart() }

  // The status stays, and what is delivered and in hand does not grow.
  ghost predicate NoMore(s: State, s1: State) {
    && s1.status == Stopped && !OwnerPc(s1).MidStart() && s.delivered <= s1.delivered
    && |s1.delivered| + BatchInHand(OwnerPc(s1)) <= |s.delivered| + BatchInHand(OwnerPc(s))
  }

  lemma {:induction false} StopCollect(s: State, t: Tid)
    requires Halted(s) && Enabled(s, Tick(t)) && s.threads[t].Collecting()
    ensures NoMore(s, DoTick(s, t))
  {
    Consumes(s, t);
    assert Holds(OwnerPart, s);
  }

  lemma {:induction false} StopSettle(s: State, t: Tid)
    requires Halted(s) && Enabled(s, Tick(t)) && s.threads[t].Settling()
    ensures NoMore(s, DoTick(s, t))
  {
    assert Holds(OwnerPart, s);
  }

  lemma {:induction false} StopTick(s: State, t: Tid)
    requires Halted(s) && Enabled(s, Tick(t)) && !s.threads[t].Collecting() && !s.threads[t].Settling()
    ensures NoMore(s, DoTick(s, t))
  {
    assert Holds(OwnerPart, s);
  }

  lemma {:induction false} StopStep(s: State, step: Step)
    requires Halted(s) && Enabled(s, step) && !step.Start?
    ensures Halted(Apply(s, step)) && NoMore(s, Apply(s, step))
  {
    StepInv(s, step);
    if step.Tick? {
      if s.threads[step.t].Collecting() {
        StopCollect(s, step.t);
      } else if s.threads[step.t].Settling() {
        StopSettle(s, step.t);
      } else {
        StopTick(s, step.t);
      }
    } else {
      assert Holds(OwnerPart, s);
    }
  }

  predicate StartFree(steps: seq<Step>) { forall i :: 0 <= i < |steps| ==> !steps[i].Start? }

  lemma {:induction false} StopRun(steps: seq<Step>, s: State, s': State)
    requires Halted(s) && Runs(steps, s, s') && StartFree(steps)
    ensures NoMore(s, s')
    decreases |steps|
  {
    if steps != [] {
      assert forall i :: 0 <= i < |steps[1..]| ==> steps[1..][i] == steps[i + 1];
      StopStep(s, steps[0]);
      StopRun(steps[1..], Apply(s, steps[0]), s');
    }
  }

  lemma {:induction false} HaltedIff(s: State)
    requires Inv(s) && s.status == Stopped
    ensures Halted(s) <==> !Starter(s)
  {
    assert Holds(OwnerPart, s);
  }

  /** After a Stop that does not fall into a Start, and until the next Start, the
      inbox stays stopped and at most the batch in hand is still delivered; nothing
      is, unless a goroutine is inside PopBatch. */
  lemma {:induction false} StopHolds(before: seq<Step>, s: State, steps: seq<Step>, s': State)
    requires Reached(before, s) && !Starter(s) && Runs(steps, Apply(s, Stop), s') && StartFree(steps)
    ensures s'.status == Stopped && s.delivered <= s'.delivered && |s'.delivered| <= |s.delivered| + 4096
    ensures (forall t :: t in s.threads ==> !Popping(s.threads[t])) ==> s'.delivered == s.delivered
  {
    ReachedInv(before, s);
    StepInv(s, Stop);
    var s1 := Apply(s, Stop);
    HaltedIff(s1);
    assert Holds(OwnerPart, s1) && Holds(ConsumerPart, s1);
    StopRun(steps, s1, s');
  }

  // The inbox stays stopped until the next Start.
  ghost predicate StaysStopped(s: State) {
    forall steps, s' :: Runs(steps, s, s') && StartFree(steps) ==> s'.status == Stopped
  }

  /** A Stop holds if and only if it does not fall into a Start: a Start that has
      won its CAS publishes idle over it. */
  lemma {:induction false} StopHoldsIff(before: seq<Step>, s: State)
    requires Reached(before, s)
    ensures Apply(s, Stop).status == Stopped && (StaysStopped(Apply(s, Stop)) <==> !Starter(s))
  {
    ReachedInv(before, s);
    var s1 := Apply(s, Stop);
    if Starter(s) {
      var t :| t in s.threads && s.threads[t].MidStart();
      var steps, s' := StarterTicks(s1, t);
    } else {
      forall steps, s' | Runs(steps, s1, s') && StartFree(steps) ensures s'.status == Stopped {
        StopHolds(before, s, steps, s');
      }
    }
  }

  lemma {:induction false} StarterTicks(s: State, t: Tid) returns (steps: seq<Step>, s': State)
    requires t in s.threads && s.threads[t].MidStart()
    ensures Runs(steps, s, s') && StartFree(steps) && s'.status == Idle
  {
    var s1 := DoTick(s, t);
    assert [Tick(t)][1..] == [] && Runs([], s1, s1);
    steps, s' := [Tick(t)], s1;
    if s.threads[t].SetProc? {
      s' := DoTick(s1, t);
      assert Runs([], s', s') && Runs([Tick(t)], s1, s');
      steps := [Tick(t), Tick(t)];
      assert steps[1..] == [Tick(t)];
    }
  }

  // ---- after a Start ----

  predicate StopFree(steps: seq<Step>) { forall i :: 0 <= i < |steps| ==> !steps[i].Stop? }

  // Nobody is in the middle of Start, and the inbox is not stopped.
  ghost predicate Open(s: State) { Inv(s) && s.status != Stopped && s.status != Starting && !OwnerPc(s).MidStart() }

  lemma {:induction false} OpenStep(s: State, step: Step)
    requires Open(s) && Enabled(s, step) && !step.Stop?
    ensures Open(Apply(s, step)) && Apply(s, step).proc
  {
    StepInv(s, step);
    assert Holds(OwnerPart, s) && Holds(OwnerPart, Apply(s, step));
  }

  lemma {:induction false} OpenRun(steps: seq<Step>, s: State, s': State)
    requires Open(s) && Runs(steps, s, s') && StopFree(steps)
    ensures Open(s')
    decreases |steps|
  {
    if steps != [] {
      assert forall i :: 0 <= i < |steps[1..]| ==> steps[1..][i] == steps[i + 1];
      OpenStep(s, steps[0]);
      OpenRun(steps[1..], Apply(s, steps[0]), s');
    }
  }

  /** Once a Start is through, and until the next Stop, no Start takes effect: the
      inbox stays idle or running, and nobody gets to write in.proc. */
  lemma {:induction false} StartHolds(before: seq<Step>, s: State, steps: seq<Step>, s': State)
    requires Reached(before, s) && s.status != Stopped && !Starter(s) && Runs(steps, s, s') && StopFree(steps)
    ensures (s'.status == Idle || s'.status == Running) && !Starter(s')
  {
    ReachedInv(before, s);
    assert Holds(OwnerPart, s);
    OpenRun(steps, s, s');
    assert Holds(OwnerPart, s');
  }
}
