/** What the invariant says about every run of the mailbox. */
module MailboxTheorems {
  import opened Options
  import opened Mailbox
  import opened MailboxInvariant
  import opened MailboxProof

  // s is reached from a new inbox by a disciplined run.
  ghost predicate Reached(steps: seq<Step>, s: State) {
    DisciplinedRun(steps, Init(), s)
  }

  lemma {:induction false} ReachedInv(steps: seq<Step>, s: State)
    requires Reached(steps, s)
    ensures Inv(s)
  {
    InitInv();
    RunInv(steps, Init(), s);
  }

  // ---- FIFO ----

  lemma {:induction false} FromPrefix(a: seq<Item>, b: seq<Item>, t: Tid)
    requires a <= b
    ensures From(a, t) <= From(b, t)
    decreases |b|
  {
    if a == b {
    } else {
      FromPrefix(a, b[..|b| - 1], t);
    }
  }

  /** Linearizable FIFO: what Invoke has been given so far, and what the
      consumer holds on top of it, is a prefix of the items in tail-swap order. */
  lemma {:induction false} DeliveredInOrder(steps: seq<Step>, s: State)
    requires Reached(steps, s)
    ensures s.delivered <= s.q.log
    ensures forall t :: t in s.threads && (s.threads[t].Collecting() || s.threads[t].Settling()) ==>
              s.delivered + s.threads[t].got <= s.q.log
  {
    ReachedInv(steps, s);
    assert Holds(OwnerPart, s) && Holds(ConsumerPart, s);
    forall t | t in s.threads && (s.threads[t].Collecting() || s.threads[t].Settling())
      ensures s.delivered + s.threads[t].got <= s.q.log
    {
      InHand(s.q.log, s.delivered, s.threads[t].got);
    }
  }

  lemma {:induction false} InHand(log: seq<Item>, delivered: seq<Item>, got: seq<Item>)
    requires delivered <= log && |delivered| + |got| <= |log| && got == log[|delivered|..|delivered| + |got|]
    ensures delivered + got <= log
  {
    assert delivered == log[..|delivered|];
  }

  /** Each sender's items are appended, and so delivered, in the order in which
      it called Send; the only one that may be missing from the queue is the one
      it is still pushing. */
  lemma {:induction false} SenderOrderKept(steps: seq<Step>, s: State, t: Tid)
    requires Reached(steps, s)
    ensures From(s.delivered, t) <= From(s.q.log, t) <= From(s.calls, t)
    ensures From(s.calls, t) == From(s.q.log, t) + Unsent(s.threads, t)
  {
    ReachedInv(steps, s);
    assert Holds(SenderPart, s);
    DeliveredInOrder(steps, s);
    FromPrefix(s.delivered, s.q.log, t);
  }

  // ---- no lost wakeup ----

  // The goroutine is certain to call schedule.
  ghost predicate WillSchedule(s: State, t: Tid) {
    && t in s.threads
    && (s.threads[t].Swapped? || s.threads[t].Linked? || s.threads[t].MustSchedule? || (s.threads[t].TestLen?
          && s.len > 0))
  }

  /** An idle inbox with an appended, undelivered item always has a goroutine
      that is going to call schedule, whatever len says at that moment. */
  lemma {:induction false} NoLostWakeup(steps: seq<Step>, s: State)
    requires Reached(steps, s) && s.status == Idle && |s.delivered| < |s.q.log|
    ensures exists t :: WillSchedule(s, t)
  {
    ReachedInv(steps, s);
    assert Holds(OwnerPart, s) && Holds(ConsumerPart, s) && Holds(LenPart, s) && Holds(WakePart, s);
    var t :| t in s.threads && s.threads[t].Obliged();
    if s.threads[t].TestLen? && s.len <= 0 {
      var u :| u in InFlight(s.threads);
      assert WillSchedule(s, u);
    } else {
      assert WillSchedule(s, t);
    }
  }

  /** At quiescence nothing is left behind: unless the inbox is stopped, it is
      idle and empty, every item sent has been delivered, and len is exact. */
  lemma {:induction false} QuiescentEmpty(steps: seq<Step>, s: State)
    requires Reached(steps, s) && s.threads == map[]
    ensures s.len == |s.q.log| - |s.delivered|
    ensures s.status == Stopped || s.status == Idle
    ensures s.status == Idle ==> s.delivered == s.q.log && s.len == 0
    ensures s.status == Idle ==> forall t: Tid :: From(s.delivered, t) == From(s.calls, t)
  {
    ReachedInv(steps, s);
    assert Holds(OwnerPart, s) && Holds(ConsumerPart, s) && Holds(LenPart, s) && Holds(WakePart, s)
           && Holds(SenderPart, s);
    assert InFlight(s.threads) == {};
    if s.status == Idle {
      assert s.q.log[..s.q.hd] == s.q.log;
      forall t: Tid ensures From(s.delivered, t) == From(s.calls, t) {
        assert From(s.calls, t) == From(s.q.log, t) + Unsent(s.threads, t);
      }
    }
  }

  // ---- one consumer ----

  ghost predicate OneConsumer(s: State) {
    forall t, u :: t in s.threads && u in s.threads && s.threads[t].InSection() && s.threads[u].InSection() ==> t == u
  }

  /** At most one goroutine is between the idle-to-running CAS and the end of
      run, in.proc is set when it is, and it is the only one that may be inside
      PopBatch or Invoke; nobody rewrites in.proc meanwhile. */
  lemma {:induction false} SingleConsumer(steps: seq<Step>, s: State)
    requires Reached(steps, s)
    ensures OneConsumer(s)
    ensures forall t :: t in s.threads && s.threads[t].InSection() ==>
              s.proc && s.status != Idle && forall u :: u in s.threads ==> !s.threads[u].SetProc?
  {
    ReachedInv(steps, s);
    assert Holds(OwnerPart, s);
  }

  // No two goroutines are inside PopBatch or Invoke.
  ghost predicate OneInside(s: State) {
    forall t, u :: t in s.threads && u in s.threads && s.threads[t].InBatch() && s.threads[u].InBatch() ==> t == u
  }

  // That is so in all disciplined continuations of s.
  ghost predicate StaysSingle(s: State) {
    forall steps, s' :: DisciplinedRun(steps, s, s') ==> OneInside(s')
  }

  /** The discipline is exactly what is needed: after a Start that finds the inbox
      stopped, no two goroutines can ever be inside PopBatch or Invoke at once,
      if and only if no goroutine still owns the inbox. */
  lemma {:induction false} StartSafeIff(before: seq<Step>, s: State, t: Tid)
    requires Reached(before, s) && s.status == Stopped && t !in s.threads
    ensures StaysSingle(DoStart(s, t)) <==> !HasOwner(s)
  {
    ReachedInv(before, s);
    if HasOwner(s) {
      var u :| u in s.threads && s.threads[u].Owner();
      assert Holds(ShapePart, s);
      var steps, s' := Overlap(s, t, u);
    } else {
      assert Enabled(s, Start(t)) && Disciplined(s, Start(t));
      StepInv(s, Start(t));
      forall steps, s' | DisciplinedRun(steps, DoStart(s, t), s') ensures OneInside(s') {
        RunInv(steps, DoStart(s, t), s');
        assert Holds(OwnerPart, s');
      }
    }
  }

  lemma {:induction false} RunAppend(a: seq<Step>, b: seq<Step>, s: State, s1: State, s2: State)
    requires DisciplinedRun(a, s, s1) && DisciplinedRun(b, s1, s2)
    ensures DisciplinedRun(a + b, s, s2)
    decreases |a|
  {
    if a == [] {
      assert a + b == b;
    } else {
      assert (a + b)[0] == a[0] && (a + b)[1..] == a[1..] + b;
      RunAppend(a[1..], b, Apply(s, a[0]), s1, s2);
    }
  }

  lemma {:induction false} RunOne(s: State, t: Tid)
    requires Enabled(s, Tick(t))
    ensures DisciplinedRun([Tick(t)], s, DoTick(s, t))
  {
    assert [Tick(t)][1..] == [];
    assert DisciplinedRun([], DoTick(s, t), DoTick(s, t));
  }

  // A starter that is left alone publishes idle and wins the run for itself.
  lemma {:induction false} StarterRuns(s: State, t: Tid) returns (steps: seq<Step>, s': State)
    requires t in s.threads && s.threads[t].MidStart()
    ensures DisciplinedRun(steps, s, s')
    ensures s' == s.(status := Running, proc := s.proc || s.threads[t].SetProc?, owner := Some(t),
                     threads := s.threads[t := Spawning])
  {
    steps, s' := [], s;
    if s.threads[t].SetProc? {
      RunOne(s, t);
      steps, s' := [Tick(t)], DoTick(s, t);
    }
    assert s'.threads == s.threads[t := SwapIdle];
    var s1 := DoTick(s', t);
    RunOne(s', t);
    RunAppend(steps, [Tick(t)], s, s', s1);
    var s2 := DoTick(s1, t);
    RunOne(s1, t);
    RunAppend(steps + [Tick(t)], [Tick(t)], s, s1, s2);
    assert s2.threads == s.threads[t := Spawning];
    steps, s' := steps + [Tick(t)] + [Tick(t)], s2;
  }

  lemma {:induction false} Unused(xs: set<nat>) returns (n: nat)
    ensures forall m :: m >= n ==> m !in xs
    decreases |xs|
  {
    n := 0;
    if xs != {} {
      var x :| x in xs;
      var rest := Unused(xs - {x});
      n := if x >= rest then x + 1 else rest;
      forall m | m >= n ensures m !in xs {
        assert m !in xs - {x} && m != x;
      }
    }
  }

  // A goroutine that has found the inbox not stopped loads the head of the queue.
  lemma {:induction false} LoopWalks(s: State, t: Tid) returns (steps: seq<Step>, s': State)
    requires t in s.threads && (s.threads[t].LoopTest? || s.threads[t].PopStart?) && s.status != Stopped
    ensures DisciplinedRun(steps, s, s')
    ensures s' == s.(threads := s.threads[t := Walk(s.q.head, s.q.head, [])])
  {
    steps, s' := [], s;
    if s.threads[t].LoopTest? {
      RunOne(s, t);
      steps, s' := [Tick(t)], DoTick(s, t);
    }
    assert s'.threads == s.threads[t := PopStart];
    var s1 := DoTick(s', t);
    RunOne(s', t);
    RunAppend(steps, [Tick(t)], s, s', s1);
    assert s1.threads == s.threads[t := Walk(s.q.head, s.q.head, [])];
    steps, s' := steps + [Tick(t)], s1;
  }

  // A goroutine that has won the run spawns another, which gets into PopBatch.
  lemma {:induction false} SpawnedWalks(s: State, t: Tid) returns (steps: seq<Step>, s': State, child: Tid)
    requires t in s.threads && s.threads[t].Spawning? && s.status != Stopped
    ensures DisciplinedRun(steps, s, s') && child !in s.threads && s'.status == s.status && s'.q == s.q
    ensures s'.threads == (s.threads - {t})[child := Walk(s.q.head, s.q.head, [])]
  {
    child := Unused(s.threads.Keys);
    var s1 := DoSpawn(s, t, child);
    assert [Spawn(t, child)][1..] == [] && DisciplinedRun([], s1, s1);
    assert DisciplinedRun([Spawn(t, child)], s, s1);
    steps, s' := LoopWalks(s1, child);
    RunAppend([Spawn(t, child)], steps, s, s1, s');
    assert s'.threads == (s.threads - {t})[child := Walk(s.q.head, s.q.head, [])];
    steps := [Spawn(t, child)] + steps;
  }

  // A sender that finds the inbox idle wins the run.
  lemma {:induction false} SenderWins(s: State) returns (steps: seq<Step>, s': State, w: Tid)
    requires s.status == Idle && s.q.tail in s.q.next
    ensures DisciplinedRun(steps, s, s') && w !in s.threads
    ensures s'.status == Running && s'.threads == s.threads[w := Spawning]
  {
    w := Unused(s.threads.Keys);
    var n := Unused(s.q.next.Keys);
    var s1 := DoSend(s, w, 0, n);
    assert [Send(w, 0, n)][1..] == [] && DisciplinedRun([], s1, s1);
    assert DisciplinedRun([Send(w, 0, n)], s, s1);
    steps, s' := PusherWins(s1, w, n, s.threads);
    RunAppend([Send(w, 0, n)], steps, s, s1, s');
    steps := [Send(w, 0, n)] + steps;
  }

  lemma {:induction false} PusherWins(s: State, w: Tid, n: Node, others: map<Tid, Pc>)
    returns (steps: seq<Step>, s': State)
    requires s.status == Idle && s.q.tail in s.q.next && n in s.q.next && n in s.q.val && w !in others
    requires s.threads == others[w := GotNode(n, Item(w, 0))]
    ensures DisciplinedRun(steps, s, s') && s'.status == Running && s'.threads == others[w := Spawning]
  {
    var s1 := DoTick(s, w);
    RunOne(s, w);
    var s2 := DoTick(s1, w);
    RunOne(s1, w);
    RunAppend([Tick(w)], [Tick(w)], s, s1, s2);
    var s3 := DoTick(s2, w);
    RunOne(s2, w);
    RunAppend([Tick(w)] + [Tick(w)], [Tick(w)], s, s2, s3);
    var tail, s4 := LinkerWins(s3, w, others);
    RunAppend([Tick(w)] + [Tick(w)] + [Tick(w)], tail, s, s3, s4);
    steps, s' := [Tick(w)] + [Tick(w)] + [Tick(w)] + tail, s4;
  }

  lemma {:induction false} LinkerWins(s: State, w: Tid, others: map<Tid, Pc>) returns (steps: seq<Step>, s': State)
    requires s.status == Idle && w in s.threads && s.threads[w].Swapped? && s.threads[w].prev in s.q.next
    requires w !in others && s.threads == others[w := s.threads[w]]
    ensures DisciplinedRun(steps, s, s') && s'.status == Running && s'.threads == others[w := Spawning]
  {
    var s1 := DoTick(s, w);
    RunOne(s, w);
    var s2 := DoTick(s1, w);
    RunOne(s1, w);
    RunAppend([Tick(w)], [Tick(w)], s, s1, s2);
    var s3 := DoTick(s2, w);
    RunOne(s2, w);
    RunAppend([Tick(w)] + [Tick(w)], [Tick(w)], s, s2, s3);
    assert s3.threads == others[w := Spawning];
    steps, s' := [Tick(w)] + [Tick(w)] + [Tick(w)], s3;
  }

  // The old owner gets there too, or makes way for another.
  lemma {:induction false} SecondWalks(s: State, c: Tid, u: Tid) returns (steps: seq<Step>, s': State, v: Tid)
    requires s.status == Running && s.q.tail in s.q.next && c in s.threads && s.threads[c].InBatch()
    requires u != c && u in s.threads && s.threads[u].Owner()
    ensures DisciplinedRun(steps, s, s') && v != c && c in s'.threads && v in s'.threads
    ensures s'.threads[c].InBatch() && s'.threads[v].InBatch()
  {
    var pc := s.threads[u];
    if pc.InBatch() {
      steps, s', v := [], s, u;
    } else if pc.LoopTest? || pc.PopStart? {
      steps, s' := LoopWalks(s, u);
      v := u;
    } else if pc.Spawning? {
      steps, s', v := SpawnedWalks(s, u);
    } else {
      var s1, w;
      steps, s1, w := Reopens(s, u);
      var tail, s2, child := SpawnedWalks(s1, w);
      RunAppend(steps, tail, s, s1, s2);
      steps, s', v := steps + tail, s2, child;
    }
  }

  // A starter publishes idle once more, and a finishing goroutine does; either way the run can be won again.
  lemma {:induction false} Reopens(s: State, u: Tid) returns (steps: seq<Step>, s': State, w: Tid)
    requires s.status == Running && s.q.tail in s.q.next && u in s.threads
    requires s.threads[u].MidStart() || s.threads[u].GoIdle?
    ensures DisciplinedRun(steps, s, s') && s'.status == Running && w in s'.threads && s'.threads[w].Spawning?
    ensures forall c :: c in s.threads && c != u ==> c in s'.threads && c != w && s'.threads[c] == s.threads[c]
  {
    if s.threads[u].MidStart() {
      steps, s' := StarterRuns(s, u);
      w := u;
    } else {
      var s1 := DoTick(s, u);
      RunOne(s, u);
      steps, s', w := SenderWins(s1);
      RunAppend([Tick(u)], steps, s, s1, s');
      steps := [Tick(u)] + steps;
    }
  }

  // A second owner leads to two goroutines inside PopBatch or Invoke.
  lemma {:induction false} Overlap(s: State, t: Tid, u: Tid) returns (steps: seq<Step>, s': State)
    requires s.status == Stopped && Shape(s.q) && t !in s.threads && u in s.threads && s.threads[u].Owner()
    ensures DisciplinedRun(steps, DoStart(s, t), s') && !OneInside(s')
  {
    var s0 := DoStart(s, t);
    assert s0.threads == s.threads[t := SetProc];
    assert s.q.tail in s.q.next;
    var steps1, s1 := StarterRuns(s0, t);
    var steps2, s2, c := SpawnedWalks(s1, t);
    RunAppend(steps1, steps2, s0, s1, s2);
    var steps3, s3, v := SecondWalks(s2, c, u);
    RunAppend(steps1 + steps2, steps3, s0, s2, s3);
    steps, s' := steps1 + steps2 + steps3, s3;
  }

  // A run in which nobody calls Start after somebody called Stop.
  ghost predicate NoRestart(steps: seq<Step>) {
    forall i, j :: 0 <= i < j < |steps| && steps[i].Stop? ==> !steps[j].Start?
  }

  /** In particular every run without a Start after a Stop is disciplined. */
  lemma {:induction false} NoRestartDisciplined(steps: seq<Step>, s': State)
    requires Runs(steps, Init(), s') && NoRestart(steps)
    ensures Reached(steps, s')
  {
    InitInv();
    FreshRunDisciplined(steps, Init(), s');
  }

  // As long as nobody has called Stop, a stopped inbox has no owner.
  lemma {:induction false} FreshRunDisciplined(steps: seq<Step>, s: State, s': State)
    requires Inv(s) && (s.status == Stopped ==> !HasOwner(s)) && Runs(steps, s, s') && NoRestart(steps)
    ensures DisciplinedRun(steps, s, s')
    decreases |steps|
  {
    if steps != [] {
      var step := steps[0];
      var s1 := Apply(s, step);
      StepInv(s, step);
      assert NoRestart(steps[1..]);
      if step.Stop? {
        assert forall j :: 0 <= j < |steps[1..]| ==> !steps[1..][j].Start?;
        StartFreeDisciplined(steps[1..], s1, s');
      } else {
        StillFresh(s, step);
        FreshRunDisciplined(steps[1..], s1, s');
      }
    }
  }

  lemma {:induction false} StillFresh(s: State, step: Step)
    requires Inv(s) && (s.status == Stopped ==> !HasOwner(s)) && Enabled(s, step) && !step.Stop?
    ensures Apply(s, step).status == Stopped ==> !HasOwner(Apply(s, step))
  {
    assert Holds(OwnerPart, s);
    assert s.owner.Some? && s.status == Stopped ==> HasOwner(s);
    StepInv(s, step);
    assert Holds(OwnerPart, Apply(s, step));
    if Apply(s, step).status == Stopped {
      assert s.status == Stopped && s.owner.None?;
    }
  }

  lemma {:induction false} StartFreeDisciplined(steps: seq<Step>, s: State, s': State)
    requires Runs(steps, s, s') && forall j :: 0 <= j < |steps| ==> !steps[j].Start?
    ensures DisciplinedRun(steps, s, s')
    decreases |steps|
  {
    if steps != [] {
      assert !steps[0].Start?;
      assert forall j :: 0 <= j < |steps[1..]| ==> steps[1..][j] == steps[j + 1];
      StartFreeDisciplined(steps[1..], Apply(s, steps[0]), s');
    }
  }

  // ---- recycling ----

  // The node k links after n, if the links go that far.
  function Follow(q: Queue, n: Node, k: nat): Option<Node>
    decreases k
  {
    if k == 0 then Some(n)
    else if n in q.next && q.next[n].Some? then Follow(q, q.next[n].value, k - 1)
    else None
  }

  lemma {:induction false} FollowsOrder(q: Queue, i: nat, k: nat)
    requires Shape(q) && Links(q) && q.freed <= i < |q.order|
    ensures var m := Follow(q, q.order[i], k); m.Some? ==> i + k < |q.order| && m.value == q.order[i + k]
    decreases k
  {
    if k > 0 {
      assert LinkAt(q, i);
      if i !in q.gaps && i + 1 < |q.order| {
        FollowsOrder(q, i + 1, k - 1);
      }
    }
  }

  // A goroutine still holds this node in a local variable it may use.
  predicate HoldsNode(pc: Pc, n: Node) {
    || (pc.PreSwap() && pc.n == n)
    || (pc.Swapped? && (pc.n == n || pc.prev == n))
    || (pc.Collecting() && (pc.first == n || pc.cur == n))
    || (pc.Take? && pc.nxt == n)
    || (pc.SubLen? && (pc.first == n || pc.cur == n))
    || (pc.Recycle? && (pc.c == n || pc.cur == n))
    || (pc.Put? && (pc.freeing == n || pc.c == n || pc.cur == n))
  }

  /** A pooled node is not the tail, not reachable from head, not held by any
      producer or by the consumer, and keeps no message alive; and no goroutine
      is ever about to follow a nil or unallocated pointer. */
  lemma {:induction false} RecyclingSafe(steps: seq<Step>, s: State, n: Node)
    requires Reached(steps, s) && n in s.q.pool
    ensures n != s.q.tail && n in s.q.val && s.q.val[n] == ZERO
    ensures forall k: nat :: Follow(s.q, s.q.head, k) != Some(n)
    ensures forall t :: t in s.threads ==> !HoldsNode(s.threads[t], n)
  {
    ReachedInv(steps, s);
    assert Holds(ShapePart, s) && Holds(LinksPart, s) && Holds(SlotsPart, s);
    assert n !in s.q.pos && s.q.tail in s.q.pos;
    forall k: nat ensures Follow(s.q, s.q.head, k) != Some(n) {
      FollowsOrder(s.q, s.q.hd, k);
    }
    forall t | t in s.threads ensures !HoldsNode(s.threads[t], n) {
      if HoldsNode(s.threads[t], n) { HeldIsLive(s, t, n); }
    }
  }

  lemma {:induction false} HeldIsLive(s: State, t: Tid, n: Node)
    requires Inv(s) && t in s.threads && HoldsNode(s.threads[t], n)
    ensures n !in s.q.pool
  {
    assert Holds(ShapePart, s) && Holds(ProducersPart, s) && Holds(ConsumerPart, s) && Holds(OwnerPart, s);
    var pc := s.threads[t];
    var q := s.q;
    assert pc.Owner() ==> OwnerPc(s) == pc;
    if pc.Swapped? {
      assert Fills(q, pc, pc.at);
      assert q.order[pc.at] in q.pos && q.order[pc.at + 1] in q.pos;
    }
    assert q.order[q.hd] in q.pos && q.order[q.taken] in q.pos && q.order[q.freed] in q.pos;
  }

  // No step of a disciplined run dereferences nil: every goroutine can always go on.
  lemma {:induction false} NeverStuck(steps: seq<Step>, s: State, t: Tid)
    requires Reached(steps, s) && t in s.threads
    ensures Safe(s.q, s.threads[t])
    ensures Enabled(s, Tick(t)) || s.threads[t].Spawning?
  {
    ReachedInv(steps, s);
    InvSafe(s, t);
  }

  // ---- the length ----

  // How many consumed items a consumer has not subtracted from len yet.
  ghost function Unsubtracted(s: State): nat {
    if OwnerPc(s).SubLen? then |OwnerPc(s).got| else 0
  }

  /** len is the number of appended items minus the consumed ones, corrected by
      the producers that have not counted their item and the consumer that has
      not subtracted its batch; so it is never below minus the producers in flight. */
  lemma {:induction false} LenAccounting(steps: seq<Step>, s: State)
    requires Reached(steps, s)
    ensures s.len == |s.q.log| - s.q.hd - |InFlight(s.threads)| + Unsubtracted(s)
    ensures -|InFlight(s.threads)| <= s.len
    ensures s.q.hd == |s.delivered| || OwnerPc(s).Settling()
  {
    ReachedInv(steps, s);
    assert Holds(ConsumerPart, s) && Holds(LenPart, s) && Holds(ShapePart, s);
  }

  // ---- a run that breaks the discipline ----

  // Steps from s to s', for building a run one step at a time.
  lemma {:induction false} RunThen(steps: seq<Step>, s: State, s1: State, step: Step)
    requires DisciplinedRun(steps, s, s1) && Enabled(s1, step) && Disciplined(s1, step)
    ensures DisciplinedRun(steps + [step], s, Apply(s1, step))
  {
    assert [step][1..] == [];
    assert DisciplinedRun([], Apply(s1, step), Apply(s1, step));
    RunAppend(steps, [step], s, s1, Apply(s1, step));
  }

  // A new inbox, started by goroutine 0, which is about to spawn process.
  lemma {:induction false} Started() returns (steps: seq<Step>, s: State)
    ensures Reached(steps, s)
    ensures s == Init().(status := Running, proc := true, owner := Some(0), threads := map[0 := Spawning])
  {
    var s0 := Init();
    assert Disciplined(s0, Start(0));
    RunThen([], s0, s0, Start(0));
    var s1 := DoStart(s0, 0);
    var steps', s' := StarterRuns(s1, 0);
    RunAppend([] + [Start(0)], steps', s0, s1, s');
    steps, s := [] + [Start(0)] + steps', s';
  }

  // Stop does not wait for the running goroutine, so a stopped inbox may still have an owner.
  lemma {:induction false} StoppedWithOwner() returns (steps: seq<Step>, s: State)
    ensures Reached(steps, s) && s.status == Stopped && HasOwner(s)
    ensures forall t :: t !in s.threads ==> !StaysSingle(DoStart(s, t))
  {
    steps, s := Started();
    RunThen(steps, Init(), s, Stop);
    steps, s := steps + [Stop], s.(status := Stopped);
    assert s.threads[0].Owner();
    forall t | t !in s.threads ensures !StaysSingle(DoStart(s, t)) {
      StartSafeIff(steps, s, t);
    }
  }
}
