/** Every disciplined step of the mailbox keeps the invariant. */
module MailboxProof {
  import opened Options
  import opened Mailbox
  import opened MailboxInvariant

  // ---- the list operations keep the list in shape and the slots right ----

  // Shape, links and slots, closed until a proof opens them.
  ghost predicate ListParts(seal: Seal, q: Queue) { Shape(q) && Links(q) && Slots(q) }

  ghost predicate ListInv(q: Queue) { forall seal: Seal :: ListParts(seal, q) }

  lemma {:induction false} GetNodeSlots(q: Queue, t: Tid, n: Node)
    requires Shape(q) && Slots(q)
    requires n in q.pool || n !in q.next
    ensures Slots(GetNode(q, t, n))
  {
    var r := GetNode(q, t, n);
    assert n !in q.pos;
  }

  lemma {:induction false} GetNodeList(q: Queue, t: Tid, n: Node)
    requires ListInv(q)
    requires n in q.pool || n !in q.next
    ensures ListInv(GetNode(q, t, n))
  {
    assert ListParts(Seal, q);
    GetNodeSlots(q, t, n);
    var r := GetNode(q, t, n);
    assert n !in q.pos;
    forall i | r.freed <= i < |r.order| ensures LinkAt(r, i) {
      if i < |q.order| { assert LinkAt(q, i); }
    }
  }

  lemma {:induction false} WriteValList(q: Queue, n: Node, item: Item)
    requires ListInv(q)
    requires n in q.next && n !in q.pool && n !in q.pos
    ensures ListInv(WriteVal(q, n, item))
  {
    assert ListParts(Seal, q);
    var r := WriteVal(q, n, item);
    assert r.val.Keys == q.val.Keys;
    forall i | r.freed <= i < |r.order| ensures LinkAt(r, i) {
      if i < |q.order| { assert LinkAt(q, i); }
    }
  }

  lemma {:induction false} ClearNextSlots(q: Queue, n: Node)
    requires Shape(q) && Slots(q)
    requires n in q.next && n !in q.pos
    ensures Slots(ClearNext(q, n))
  {
    assert ClearNext(q, n).next.Keys == q.next.Keys;
  }

  lemma {:induction false} ClearNextList(q: Queue, n: Node)
    requires ListInv(q)
    requires n in q.next && n !in q.pos
    ensures ListInv(ClearNext(q, n))
  {
    assert ListParts(Seal, q);
    ClearNextSlots(q, n);
    var r := ClearNext(q, n);
    assert r.next.Keys == q.next.Keys;
    forall i | r.freed <= i < |r.order| ensures LinkAt(r, i) {
      if i < |q.order| { assert LinkAt(q, i); }
    }
  }

  lemma {:induction false} SwapTailSlots(q: Queue, t: Tid, n: Node, item: Item)
    requires Shape(q) && Slots(q)
    requires n in q.next && n !in q.pool && n !in q.pos && q.next[n] == None && q.val[n] == item
    ensures Slots(SwapTail(q, t, n, item))
  {
    var r := SwapTail(q, t, n, item);
    assert r.order[|q.order|] == n && forall i :: 0 <= i < |q.order| ==> r.order[i] == q.order[i];
  }

  lemma {:induction false} SwapTailLinks(q: Queue, t: Tid, n: Node, item: Item)
    requires Shape(q) && Links(q)
    requires n in q.val && n in q.next && n !in q.pool && n !in q.pos && q.next[n] == None && q.val[n] == item
    ensures Shape(SwapTail(q, t, n, item)) && Links(SwapTail(q, t, n, item))
  {
    var r := SwapTail(q, t, n, item);
    assert r.order[|q.order|] == n && forall i :: 0 <= i < |q.order| ==> r.order[i] == q.order[i];
    forall i | r.freed <= i < |r.order| ensures LinkAt(r, i) {
      if i < |q.order| { assert LinkAt(q, i); }
    }
  }

  lemma {:induction false} SwapTailList(q: Queue, t: Tid, n: Node, item: Item)
    requires ListInv(q)
    requires n in q.val && n in q.next && n !in q.pool && n !in q.pos && q.next[n] == None && q.val[n] == item
    ensures ListInv(SwapTail(q, t, n, item))
  {
    assert ListParts(Seal, q);
    SwapTailSlots(q, t, n, item);
    SwapTailLinks(q, t, n, item);
  }

  lemma {:induction false} PublishSlots(q: Queue, n: Node, prev: Node, at: nat)
    requires Shape(q) && Slots(q)
    requires at in q.gaps && q.order[at] == prev && q.order[at + 1] == n
    ensures Slots(Publish(q, n, prev, at))
  {
    var r := Publish(q, n, prev, at);
    assert prev in q.next;
    assert r.next.Keys == q.next.Keys;
  }

  lemma {:induction false} PublishLinks(q: Queue, n: Node, prev: Node, at: nat)
    requires Shape(q) && Links(q)
    requires at + 1 < |q.order| && at in q.gaps && q.order[at] == prev && q.order[at + 1] == n
    ensures Shape(Publish(q, n, prev, at)) && Links(Publish(q, n, prev, at))
  {
    var r := Publish(q, n, prev, at);
    assert prev in q.next;
    assert r.next.Keys == q.next.Keys;
    forall i | r.freed <= i < |r.order| ensures LinkAt(r, i) {
      if i < |q.order| { assert LinkAt(q, i); }
    }
  }

  lemma {:induction false} PublishList(q: Queue, n: Node, prev: Node, at: nat)
    requires ListInv(q)
    requires at + 1 < |q.order| && at in q.gaps && q.order[at] == prev && q.order[at + 1] == n
    ensures ListInv(Publish(q, n, prev, at))
  {
    assert ListParts(Seal, q);
    PublishSlots(q, n, prev, at);
    PublishLinks(q, n, prev, at);
  }

  lemma {:induction false} TakeValSlots(q: Queue, nxt: Node)
    requires Shape(q) && Slots(q)
    requires q.taken + 1 < |q.order| && q.taken !in q.gaps && nxt == q.order[q.taken + 1]
    ensures Slots(TakeVal(q, nxt))
  {
    var r := TakeVal(q, nxt);
    assert nxt in q.pos && q.pos[nxt] == q.taken + 1;
    forall i | r.taken < i < |r.order| && r.order[i] in r.val ensures r.val[r.order[i]] == r.log[i - 1] {
      assert q.pos[q.order[i]] == i;
    }
    forall i | r.freed <= i <= r.taken && r.order[i] in r.val ensures r.val[r.order[i]] == ZERO {
      assert i == q.taken + 1 || q.val[q.order[i]] == ZERO;
    }
    assert r.val.Keys == q.val.Keys;
  }

  lemma {:induction false} TakeValLinks(q: Queue, nxt: Node)
    requires Shape(q) && Links(q)
    requires q.taken + 1 < |q.order| && q.taken !in q.gaps && nxt == q.order[q.taken + 1]
    ensures Shape(TakeVal(q, nxt)) && Links(TakeVal(q, nxt))
  {
    var r := TakeVal(q, nxt);
    assert nxt in q.pos;
    assert r.val.Keys == q.val.Keys;
    forall i | r.freed <= i < |r.order| ensures LinkAt(r, i) {
      if i < |q.order| { assert LinkAt(q, i); }
    }
  }

  lemma {:induction false} TakeValList(q: Queue, nxt: Node)
    requires ListInv(q)
    requires q.taken + 1 < |q.order| && q.taken !in q.gaps && nxt == q.order[q.taken + 1]
    ensures ListInv(TakeVal(q, nxt))
  {
    assert ListParts(Seal, q);
    TakeValSlots(q, nxt);
    TakeValLinks(q, nxt);
  }

  lemma {:induction false} MoveHeadList(q: Queue, cur: Node, consumed: nat)
    requires ListInv(q)
    requires q.taken < |q.order| && q.hd + consumed == q.taken && cur == q.order[q.taken]
    ensures ListInv(MoveHead(q, cur, consumed))
  {
    assert ListParts(Seal, q);
    var r := MoveHead(q, cur, consumed);
    forall i | r.freed <= i < |r.order| ensures LinkAt(r, i) {
      if i < |q.order| { assert LinkAt(q, i); }
    }
  }

  lemma {:induction false} PutNodeList(q: Queue, n: Node)
    requires ListInv(q)
    requires q.freed < |q.order| && q.freed < q.hd && n == q.order[q.freed]
    ensures ListInv(PutNode(q, n))
  {
    assert ListParts(Seal, q);
    var r := PutNode(q, n);
    assert q.pos[n] == q.freed;
    forall i | r.freed <= i < |r.order| ensures LinkAt(r, i) {
      if i < |q.order| { assert LinkAt(q, i); }
    }
  }

  // ---- the producers ----

  // A thread table that agrees on every producer that holds or links a node.
  ghost predicate SameProducers(a: map<Tid, Pc>, b: map<Tid, Pc>) {
    && (forall t :: t in a && (a[t].PreSwap() || a[t].Swapped?) ==> t in b && b[t] == a[t])
    && (forall t :: t in b && (b[t].PreSwap() || b[t].Swapped?) ==> t in a && a[t] == b[t])
  }

  lemma {:induction false} SameProducersKept(q: Queue, a: map<Tid, Pc>, b: map<Tid, Pc>)
    requires Producers(q, a) && SameProducers(a, b)
    ensures Producers(q, b)
  {
  }

  lemma {:induction false} GetNodeProducers(q: Queue, threads: map<Tid, Pc>, t: Tid, n: Node, item: Item)
    requires Shape(q) && Producers(q, threads) && t !in threads && (n in q.pool || n !in q.next)
    ensures Producers(GetNode(q, t, n), threads[t := GotNode(n, item)])
  {
  }

  lemma {:induction false} WriteValProducers(q: Queue, threads: map<Tid, Pc>, t: Tid, n: Node, item: Item)
    requires Producers(q, threads) && t in threads && threads[t] == GotNode(n, item)
    ensures Producers(WriteVal(q, n, item), threads[t := WroteVal(n, item)])
  {
  }

  lemma {:induction false} ClearNextProducers(q: Queue, threads: map<Tid, Pc>, t: Tid, n: Node, item: Item)
    requires Producers(q, threads) && t in threads && threads[t] == WroteVal(n, item)
    ensures Producers(ClearNext(q, n), threads[t := Cleared(n, item)])
  {
  }

  lemma {:induction false} SwapTailProducers(q: Queue, threads: map<Tid, Pc>, t: Tid, n: Node, item: Item)
    requires Shape(q) && Producers(q, threads) && t in threads && threads[t] == Cleared(n, item)
    ensures Producers(SwapTail(q, t, n, item), threads[t := Swapped(n, q.tail, |q.log|)])
  {
  }

  lemma {:induction false} PublishProducers(q: Queue, threads: map<Tid, Pc>, t: Tid, n: Node, prev: Node, at: nat)
    requires Shape(q) && Producers(q, threads) && t in threads && threads[t] == Swapped(n, prev, at)
    ensures Producers(Publish(q, n, prev, at), threads[t := Linked])
  {
    assert Fills(q, threads[t], at);
  }

  // Moving a goroutine that neither holds nor links a node to another such place.
  lemma {:induction false} GotoProducers(q: Queue, threads: map<Tid, Pc>, t: Tid, pc: Pc)
    requires Producers(q, threads) && !pc.PreSwap() && !pc.Swapped?
    requires t in threads ==> !threads[t].PreSwap() && !threads[t].Swapped?
    ensures Producers(q, threads[t := pc]) && Producers(q, threads - {t})
  {
    SameProducersKept(q, threads, threads[t := pc]);
    SameProducersKept(q, threads, threads - {t});
  }

  // ---- the consumer ----

  lemma {:induction false} SamePrefix(a: seq<Item>, b: seq<Item>, i: nat, j: nat)
    requires a <= b && i <= j <= |a|
    ensures b[i..j] == a[i..j]
  {
    assert b[..|a|] == a;
    assert b[i..j] == b[..|a|][i..j];
  }

  // Producers do not disturb the consumer.
  lemma {:induction false} ProducerConsumer(q: Queue, r: Queue, pc: Pc, sub: nat, delivered: seq<Item>)
    requires Consumer(q, pc, sub, delivered)
    requires q.order <= r.order && q.log <= r.log && |r.order| == |r.log| + 1
    requires r.freed == q.freed && r.hd == q.hd && r.taken == q.taken
    requires forall i :: i in r.gaps ==> i in q.gaps || i + 1 >= |q.order|
    ensures Consumer(r, pc, sub, delivered)
  {
    if pc.Collecting() {
      SamePrefix(q.log, r.log, q.hd, q.taken);
    }
    if pc.Settling() {
      SamePrefix(q.log, r.log, q.hd - |pc.got|, q.hd);
      SamePrefix(q.log, r.log, 0, q.hd - |pc.got|);
    } else {
      SamePrefix(q.log, r.log, 0, q.hd);
    }
  }

  lemma {:induction false} WalkConsumer(q: Queue, pc: Pc, sub: nat, delivered: seq<Item>)
    requires Shape(q) && Links(q) && Consumer(q, pc, sub, delivered) && pc.Walk?
    ensures pc.cur in q.next
    ensures Consumer(q, AfterWalk(q, pc.first, pc.cur, pc.got), sub, delivered)
  {
    assert LinkAt(q, q.taken);
  }

  lemma {:induction false} TakeConsumer(q: Queue, pc: Pc, sub: nat, delivered: seq<Item>)
    requires Shape(q) && Slots(q) && Consumer(q, pc, sub, delivered) && pc.Take?
    ensures pc.nxt in q.val
    ensures Consumer(TakeVal(q, pc.nxt), Walk(pc.first, pc.nxt, pc.got + [q.val[pc.nxt]]), sub, delivered)
  {
    assert pc.nxt in q.pos;
    assert q.val[pc.nxt] == q.log[q.taken];
    assert q.log[q.hd..q.taken] + [q.log[q.taken]] == q.log[q.hd..q.taken + 1];
  }

  lemma {:induction false} StoreHeadConsumer(q: Queue, pc: Pc, sub: nat, delivered: seq<Item>)
    requires Shape(q) && Consumer(q, pc, sub, delivered) && pc.StoreHead?
    ensures Consumer(MoveHead(q, pc.cur, |pc.got|), SubLen(pc.first, pc.cur, pc.got), sub, delivered)
  {
  }

  lemma {:induction false} SubLenConsumer(q: Queue, pc: Pc, sub: nat, delivered: seq<Item>)
    requires Consumer(q, pc, sub, delivered) && pc.SubLen?
    ensures Consumer(q, Recycle(pc.first, pc.cur, pc.got), sub + |pc.got|, delivered)
  {
  }

  // The recycling loop stops at the new head exactly when everything before it is freed.
  lemma {:induction false} RecycleConsumer(q: Queue, pc: Pc, sub: nat, delivered: seq<Item>)
    requires Shape(q) && Links(q) && Consumer(q, pc, sub, delivered) && pc.Recycle?
    ensures pc.c == pc.cur <==> q.freed == q.hd
    ensures pc.c == pc.cur ==> Consumer(q, Invoking, sub, delivered + pc.got)
    ensures pc.c != pc.cur ==>
              && pc.c in q.next && q.next[pc.c].Some?
              && Consumer(q, Put(pc.c, q.next[pc.c].value, pc.cur, pc.got), sub, delivered)
  {
    assert LinkAt(q, q.freed);
    assert q.pos[q.order[q.freed]] == q.freed && q.pos[q.order[q.hd]] == q.hd;
    assert q.log[..q.hd - |pc.got|] + q.log[q.hd - |pc.got|..q.hd] == q.log[..q.hd];
  }

  lemma {:induction false} PutConsumer(q: Queue, pc: Pc, sub: nat, delivered: seq<Item>)
    requires Consumer(q, pc, sub, delivered) && pc.Put?
    ensures Consumer(PutNode(q, pc.freeing), Recycle(pc.c, pc.cur, pc.got), sub, delivered)
  {
  }

  // ---- each step keeps each part ----

  // What the list operation behind a program counter relies on.
  ghost predicate Ready(q: Queue, pc: Pc) {
    && (pc.PreSwap() ==> pc.n in q.next && pc.n in q.val && pc.n !in q.pool && pc.n !in q.pos)
    && (pc.Cleared? ==> q.next[pc.n] == None && q.val[pc.n] == pc.item)
    && (pc.Swapped? ==>
          pc.at in q.gaps && pc.at + 1 < |q.order| && q.order[pc.at] == pc.prev && q.order[pc.at + 1] == pc.n)
    && (pc.Take? ==> q.taken + 1 < |q.order| && q.taken !in q.gaps && pc.nxt == q.order[q.taken + 1])
    && (pc.StoreHead? ==> q.hd + |pc.got| == q.taken < |q.order| && pc.cur == q.order[q.taken])
    && (pc.Put? ==> q.freed < q.hd && q.freed < |q.order| && pc.freeing == q.order[q.freed])
  }

  lemma {:induction false} InvReady(s: State, t: Tid)
    requires Inv(s) && t in s.threads
    ensures Ready(s.q, s.threads[t])
  {
    assert Holds(ProducersPart, s) && Holds(ConsumerPart, s) && Holds(OwnerPart, s);
    if s.threads[t].Swapped? { assert Fills(s.q, s.threads[t], s.threads[t].at); }
  }

  lemma {:induction false} PushList(q: Queue, t: Tid, pc: Pc)
    requires ListInv(q) && Ready(q, pc) && (pc.PreSwap() || pc.Swapped?)
    ensures ListInv(TickQueue(q, t, pc))
  {
    if pc.GotNode? {
      WriteValList(q, pc.n, pc.item);
    } else if pc.WroteVal? {
      ClearNextList(q, pc.n);
    } else if pc.Cleared? {
      SwapTailList(q, t, pc.n, pc.item);
    } else {
      PublishList(q, pc.n, pc.prev, pc.at);
    }
  }

  lemma {:induction false} PopList(q: Queue, t: Tid, pc: Pc)
    requires ListInv(q) && Ready(q, pc) && !pc.PreSwap() && !pc.Swapped?
    ensures ListInv(TickQueue(q, t, pc))
  {
    if pc.Take? {
      TakeValList(q, pc.nxt);
    } else if pc.StoreHead? {
      MoveHeadList(q, pc.cur, |pc.got|);
    } else if pc.Put? {
      PutNodeList(q, pc.freeing);
    }
  }

  lemma {:induction false} PushProducers(s: State, t: Tid)
    requires Shape(s.q) && Producers(s.q, s.threads) && t in s.threads && s.threads[t].Pushing()
    ensures var s' := PushTick(s, t, s.threads[t]); Producers(s'.q, s'.threads)
  {
    var pc := s.threads[t];
    if pc.GotNode? {
      WriteValProducers(s.q, s.threads, t, pc.n, pc.item);
    } else if pc.WroteVal? {
      ClearNextProducers(s.q, s.threads, t, pc.n, pc.item);
    } else if pc.Cleared? {
      SwapTailProducers(s.q, s.threads, t, pc.n, pc.item);
    } else {
      PublishProducers(s.q, s.threads, t, pc.n, pc.prev, pc.at);
    }
  }

  lemma {:induction false} PopQueueProducers(q: Queue, threads: map<Tid, Pc>, t: Tid, pc: Pc)
    requires Shape(q) && Ready(q, pc) && Producers(q, threads) && !pc.Pushing()
    ensures Producers(TickQueue(q, t, pc), threads)
  {
  }

  // What a step does to the list.
  lemma {:induction false} TickQueueIs(s: State, t: Tid)
    requires Enabled(s, Tick(t))
    ensures DoTick(s, t).q == TickQueue(s.q, t, s.threads[t])
  {
  }

  lemma {:induction false} CollectMoves(s: State, t: Tid)
    requires Enabled(s, Tick(t)) && s.threads[t].Collecting()
    ensures var s' := PopTick(s, t, s.threads[t]);
            t in s'.threads && !s'.threads[t].Pushing() && s'.threads == s.threads[t := s'.threads[t]]
            && s'.calls == s.calls && s'.q.log == s.q.log
  {
  }

  lemma {:induction false} SettleMoves(s: State, t: Tid)
    requires Enabled(s, Tick(t)) && s.threads[t].Settling()
    ensures var s' := PopTick(s, t, s.threads[t]);
            t in s'.threads && !s'.threads[t].Pushing() && s'.threads == s.threads[t := s'.threads[t]]
            && s'.calls == s.calls && s'.q.log == s.q.log
  {
  }

  // A goroutine that does not push exits or moves to another such place.
  lemma {:induction false} TickMoves(s: State, t: Tid) returns (pc: Pc)
    requires Enabled(s, Tick(t)) && !s.threads[t].Pushing()
    ensures !pc.Pushing()
    ensures DoTick(s, t).threads == s.threads[t := pc] || DoTick(s, t).threads == s.threads - {t}
    ensures DoTick(s, t).calls == s.calls && DoTick(s, t).q.log == s.q.log
  {
    if s.threads[t].Collecting() {
      CollectMoves(s, t);
      pc := PopTick(s, t, s.threads[t]).threads[t];
    } else if s.threads[t].Settling() {
      SettleMoves(s, t);
      pc := PopTick(s, t, s.threads[t]).threads[t];
    } else {
      pc := InboxMoves(s, t);
    }
  }

  lemma {:induction false} RestProducers(s: State, t: Tid)
    requires Shape(s.q) && Producers(s.q, s.threads) && Enabled(s, Tick(t)) && Ready(s.q, s.threads[t])
    requires !s.threads[t].Pushing()
    ensures Producers(DoTick(s, t).q, DoTick(s, t).threads)
  {
    var pc := TickMoves(s, t);
    TickQueueIs(s, t);
    PopQueueProducers(s.q, s.threads, t, s.threads[t]);
    GotoProducers(TickQueue(s.q, t, s.threads[t]), s.threads, t, pc);
  }

  lemma {:induction false} CallProducers(s: State, step: Step)
    requires Shape(s.q) && Producers(s.q, s.threads) && Enabled(s, step) && !step.Tick?
    ensures var s' := Apply(s, step); Producers(s'.q, s'.threads)
  {
    if step.Send? {
      GetNodeProducers(s.q, s.threads, step.t, step.n, Item(step.t, step.v));
    } else if step.Start? {
      GotoProducers(s.q, s.threads, step.t, SetProc);
    } else if step.Spawn? {
      GotoProducers(s.q, s.threads, step.t, LoopTest);
      GotoProducers(s.q, s.threads - {step.t}, step.child, LoopTest);
    }
  }

  ghost predicate ConsumerInv(s: State) { Consumer(s.q, OwnerPc(s), s.sub, s.delivered) }

  lemma {:induction false} PushQueueConsumer(q: Queue, t: Tid, pc: Pc, cpc: Pc, sub: nat, delivered: seq<Item>)
    requires Consumer(q, cpc, sub, delivered) && pc.Pushing()
    ensures Consumer(TickQueue(q, t, pc), cpc, sub, delivered)
  {
    var r := TickQueue(q, t, pc);
    if pc.Cleared? { assert q.order <= r.order && q.log <= r.log; }
    ProducerConsumer(q, r, cpc, sub, delivered);
  }

  lemma {:induction false} PushConsumer(s: State, t: Tid)
    requires OwnerInv(s) && ConsumerInv(s) && t in s.threads && s.threads[t].Pushing()
    ensures ConsumerInv(PushTick(s, t, s.threads[t]))
  {
    PushQueueConsumer(s.q, t, s.threads[t], OwnerPc(s), s.sub, s.delivered);
    assert OwnerPc(PushTick(s, t, s.threads[t])) == OwnerPc(s);
  }

  lemma {:induction false} CollectConsumer(s: State, t: Tid)
    requires OwnerInv(s) && Shape(s.q) && Links(s.q) && Slots(s.q) && ConsumerInv(s)
    requires t in s.threads && s.threads[t].Collecting() && Safe(s.q, s.threads[t])
    ensures ConsumerInv(PopTick(s, t, s.threads[t]))
  {
    var pc := s.threads[t];
    assert s.owner == Some(t);
    if pc.Walk? {
      WalkConsumer(s.q, pc, s.sub, s.delivered);
    } else if pc.Take? {
      TakeConsumer(s.q, pc, s.sub, s.delivered);
    } else {
      StoreHeadConsumer(s.q, pc, s.sub, s.delivered);
    }
  }

  lemma {:induction false} SubtractConsumer(s: State, t: Tid)
    requires OwnerInv(s) && ConsumerInv(s) && t in s.threads && s.threads[t].SubLen?
    ensures ConsumerInv(PopTick(s, t, s.threads[t]))
  {
    assert s.owner == Some(t);
    SubLenConsumer(s.q, s.threads[t], s.sub, s.delivered);
  }

  lemma {:induction false} RecyclingConsumer(s: State, t: Tid)
    requires OwnerInv(s) && Shape(s.q) && Links(s.q) && ConsumerInv(s)
    requires t in s.threads && s.threads[t].Recycle? && Safe(s.q, s.threads[t])
    ensures ConsumerInv(PopTick(s, t, s.threads[t]))
  {
    assert s.owner == Some(t);
    RecycleConsumer(s.q, s.threads[t], s.sub, s.delivered);
  }

  lemma {:induction false} PuttingConsumer(s: State, t: Tid)
    requires OwnerInv(s) && ConsumerInv(s) && t in s.threads && s.threads[t].Put?
    ensures ConsumerInv(PopTick(s, t, s.threads[t]))
  {
    assert s.owner == Some(t);
    PutConsumer(s.q, s.threads[t], s.sub, s.delivered);
  }

  // The inbox's own steps leave the consumer's bookkeeping settled.
  lemma {:induction false} RestConsumer(s: State, t: Tid)
    requires OwnerInv(s) && ConsumerInv(s) && s.q.head == s.q.order[s.q.hd] && t in s.threads
    requires var pc := s.threads[t]; !pc.Pushing() && !pc.Collecting() && !pc.Settling() && !pc.Spawning?
    ensures ConsumerInv(InboxTick(s, t, s.threads[t]))
  {
    var s' := InboxTick(s, t, s.threads[t]);
    if s.owner == Some(t) {
      assert !OwnerPc(s').Settling();
    } else if OwnerPc(s') != OwnerPc(s) {
      assert OwnerPc(s) == TestLen && OwnerPc(s') == Spawning;
    }
  }

  lemma {:induction false} CallConsumer(s: State, step: Step)
    requires OwnerInv(s) && ConsumerInv(s)
    requires Enabled(s, step) && !step.Tick? && Disciplined(s, step)
    ensures ConsumerInv(Apply(s, step))
  {
    var s' := Apply(s, step);
    if step.Send? {
      ProducerConsumer(s.q, s'.q, OwnerPc(s), s.sub, s.delivered);
    } else if step.Start? && s.status == Stopped {
      assert s.owner.None?;
    }
  }

  // ---- the status word ----

  // A goroutine that owns nothing and takes nothing over does not matter.
  lemma {:induction false} GotoOwner(s: State, s': State, t: Tid, pc: Pc)
    requires OwnerInv(s) && t in s.threads && !s.threads[t].Owner() && !pc.Owner()
    requires s'.threads == s.threads[t := pc] && s'.owner == s.owner && s'.status == s.status && s'.proc == s.proc
    ensures OwnerInv(s')
  {
    assert OwnerPc(s') == OwnerPc(s);
  }

  lemma {:induction false} PushOwner(s: State, t: Tid)
    requires OwnerInv(s) && t in s.threads && s.threads[t].Pushing()
    ensures OwnerInv(PushTick(s, t, s.threads[t]))
  {
    var s' := PushTick(s, t, s.threads[t]);
    GotoOwner(s, s', t, s'.threads[t]);
  }

  lemma {:induction false} PopOwner(s: State, t: Tid)
    requires OwnerInv(s) && t in s.threads && (s.threads[t].Collecting() || s.threads[t].Settling())
             && Safe(s.q, s.threads[t])
    ensures OwnerInv(PopTick(s, t, s.threads[t]))
  {
  }

  lemma {:induction false} StartOwner(s: State, t: Tid)
    requires OwnerInv(s) && t in s.threads && s.threads[t].MidStart()
    ensures OwnerInv(InboxTick(s, t, s.threads[t]))
  {
  }

  lemma {:induction false} LoopOwner(s: State, t: Tid)
    requires OwnerInv(s) && t in s.threads
    requires var pc := s.threads[t]; pc.LoopTest? || pc.PopStart? || pc.Invoking? || pc.GoIdle?
    ensures OwnerInv(InboxTick(s, t, s.threads[t]))
  {
  }

  lemma {:induction false} ScheduleOwner(s: State, t: Tid)
    requires OwnerInv(s) && t in s.threads
    requires var pc := s.threads[t]; pc.Linked? || pc.MustSchedule? || pc.TestLen?
    ensures OwnerInv(InboxTick(s, t, s.threads[t]))
  {
  }

  lemma {:induction false} CallOwner(s: State, step: Step)
    requires OwnerInv(s) && Enabled(s, step) && !step.Tick? && Disciplined(s, step)
    ensures OwnerInv(Apply(s, step))
  {
  }

  // ---- the length ----

  lemma {:induction false} InFlightGoto(threads: map<Tid, Pc>, t: Tid, pc: Pc)
    ensures InFlight(threads - {t}) == InFlight(threads) - {t}
    ensures InFlight(threads[t := pc]) == if pc.InFlight() then InFlight(threads) + {t} else InFlight(threads) - {t}
  {
  }

  lemma {:induction false} CallLen(s: State, step: Step)
    requires LenInv(s) && Enabled(s, step) && !step.Tick?
    ensures LenInv(Apply(s, step))
  {
    if step.Send? {
      InFlightGoto(s.threads, step.t, GotNode(step.n, Item(step.t, step.v)));
    } else if step.Start? {
      InFlightGoto(s.threads, step.t, SetProc);
    } else if step.Spawn? {
      InFlightGoto(s.threads, step.t, LoopTest);
      InFlightGoto(s.threads - {step.t}, step.child, LoopTest);
    }
  }

  lemma {:induction false} PushLen(s: State, t: Tid)
    requires LenInv(s) && t in s.threads && s.threads[t].Pushing()
    ensures LenInv(PushTick(s, t, s.threads[t]))
  {
    var s' := PushTick(s, t, s.threads[t]);
    InFlightGoto(s.threads, t, if t in s'.threads then s'.threads[t] else TestLen);
  }

  lemma {:induction false} PopLen(s: State, t: Tid)
    requires LenInv(s) && t in s.threads && (s.threads[t].Collecting() || s.threads[t].Settling())
             && Safe(s.q, s.threads[t])
    ensures LenInv(PopTick(s, t, s.threads[t]))
  {
    var s' := PopTick(s, t, s.threads[t]);
    InFlightGoto(s.threads, t, if t in s'.threads then s'.threads[t] else TestLen);
  }

  lemma {:induction false} InboxMoves(s: State, t: Tid) returns (pc: Pc)
    requires t in s.threads
    requires var pc := s.threads[t]; !pc.Pushing() && !pc.Collecting() && !pc.Settling() && !pc.Spawning?
    ensures !pc.InFlight() && !pc.Pushing()
    ensures var s' := InboxTick(s, t, s.threads[t]);
            && (s'.threads == s.threads[t := pc] || s'.threads == s.threads - {t})
            && s'.q == s.q && s'.sub == s.sub && s'.calls == s.calls
            && s'.len == s.len + if s.threads[t].Linked? then 1 else 0
  {
    var s' := InboxTick(s, t, s.threads[t]);
    pc := if t in s'.threads then s'.threads[t] else TestLen;
  }

  lemma {:induction false} InboxLen(s: State, t: Tid)
    requires LenInv(s) && t in s.threads
    requires var pc := s.threads[t]; !pc.Pushing() && !pc.Collecting() && !pc.Settling() && !pc.Spawning?
    ensures LenInv(InboxTick(s, t, s.threads[t]))
  {
    var pc := InboxMoves(s, t);
    InFlightGoto(s.threads, t, pc);
    assert t in InFlight(s.threads) <==> s.threads[t].Linked?;
  }

  // ---- no lost wakeup ----

  lemma {:induction false} PushWake(s: State, t: Tid)
    requires WakeInv(s) && t in s.threads && s.threads[t].Pushing()
    ensures WakeInv(PushTick(s, t, s.threads[t]))
  {
    var s' := PushTick(s, t, s.threads[t]);
    if s'.status == Idle && Pending(s') {
      if s.threads[t].Cleared? || s.threads[t].Swapped? {
        assert s'.threads[t].Obliged();
      } else {
        var u :| u in s.threads && s.threads[u].Obliged();
        assert s'.threads[u].Obliged();
      }
    }
  }

  /** The heart of it: a finishing goroutine that sees len <= 0 may leave,
      because then every pending item still has its producer in flight. */
  lemma {:induction false} LeaveWake(s: State, t: Tid)
    requires OwnerInv(s) && ConsumerInv(s) && LenInv(s)
    requires t in s.threads && s.threads[t].TestLen? && s.len <= 0 && s.status == Idle && Pending(s)
    ensures SomeObliged(s.threads - {t})
  {
    assert s.sub == s.q.hd;
    var u :| u in InFlight(s.threads);
    assert u in s.threads - {t} && (s.threads - {t})[u].Obliged();
  }

  lemma {:induction false} InboxWake(s: State, t: Tid)
    requires OwnerInv(s) && ConsumerInv(s) && LenInv(s) && WakeInv(s) && t in s.threads
    requires var pc := s.threads[t]; !pc.Pushing() && !pc.Collecting() && !pc.Settling() && !pc.Spawning?
    ensures WakeInv(InboxTick(s, t, s.threads[t]))
  {
    var pc := s.threads[t];
    var s' := InboxTick(s, t, pc);
    if s'.status == Idle && Pending(s') {
      if pc.TestLen? && s.len <= 0 {
        LeaveWake(s, t);
      } else {
        assert s'.threads[t].Obliged();
      }
    }
  }

  lemma {:induction false} CallWake(s: State, step: Step)
    requires OwnerInv(s) && WakeInv(s) && Enabled(s, step) && !step.Tick?
    ensures WakeInv(Apply(s, step))
  {
    var s' := Apply(s, step);
    if s'.status == Idle && Pending(s') && !step.Spawn? {
      var u :| u in s.threads && s.threads[u].Obliged();
      assert s'.threads[u].Obliged();
    }
  }

  // ---- each sender's own order ----

  lemma {:induction false} FromSnoc(items: seq<Item>, x: Item, t: Tid)
    ensures From(items + [x], t) == From(items, t) + if x.from == t then [x] else []
  {
    assert (items + [x])[..|items|] == items;
  }

  lemma {:induction false} SendSender(s: State, t: Tid, v: int, n: Node)
    requires SenderInv(s) && Enabled(s, Send(t, v, n))
    ensures SenderInv(DoSend(s, t, v, n))
  {
    var s' := DoSend(s, t, v, n);
    forall u: Tid ensures From(s'.calls, u) == From(s'.q.log, u) + Unsent(s'.threads, u) {
      FromSnoc(s.calls, Item(t, v), u);
      assert From(s.calls, u) == From(s.q.log, u) + Unsent(s.threads, u);
    }
  }

  lemma {:induction false} SwapSender(s: State, t: Tid)
    requires SenderInv(s) && t in s.threads && s.threads[t].Cleared?
    ensures SenderInv(PushTick(s, t, s.threads[t]))
  {
    var s' := PushTick(s, t, s.threads[t]);
    assert s'.threads[t].Swapped? && s'.q.log == s.q.log + [s.threads[t].item];
    forall u: Tid ensures From(s'.calls, u) == From(s'.q.log, u) + Unsent(s'.threads, u) {
      assert From(s.calls, u) == From(s.q.log, u) + Unsent(s.threads, u);
      FromSnoc(s.q.log, s.threads[t].item, u);
    }
  }

  lemma {:induction false} PushSender(s: State, t: Tid)
    requires SenderInv(s) && t in s.threads && s.threads[t].Pushing() && !s.threads[t].Cleared?
    ensures SenderInv(PushTick(s, t, s.threads[t]))
  {
    var s' := PushTick(s, t, s.threads[t]);
    forall u: Tid ensures From(s'.calls, u) == From(s'.q.log, u) + Unsent(s'.threads, u) {
      assert From(s.calls, u) == From(s.q.log, u) + Unsent(s.threads, u);
      assert Unsent(s'.threads, u) == Unsent(s.threads, u);
    }
  }

  // The other steps append nothing, call nothing and keep every unsent item.
  lemma {:induction false} RestSender(s: State, s': State)
    requires SenderInv(s) && s'.calls == s.calls && s'.q.log == s.q.log && SameProducers(s.threads, s'.threads)
    ensures SenderInv(s')
  {
    forall u: Tid ensures From(s'.calls, u) == From(s'.q.log, u) + Unsent(s'.threads, u) {
      assert From(s.calls, u) == From(s.q.log, u) + Unsent(s.threads, u);
      assert Unsent(s'.threads, u) == Unsent(s.threads, u);
    }
  }

  lemma {:induction false} TickSender(s: State, t: Tid)
    requires SenderInv(s) && Enabled(s, Tick(t))
    ensures SenderInv(DoTick(s, t))
  {
    var pc := s.threads[t];
    if pc.Cleared? {
      SwapSender(s, t);
    } else if pc.Pushing() {
      PushSender(s, t);
    } else {
      var pc' := TickMoves(s, t);
      RestSender(s, DoTick(s, t));
    }
  }

  // ---- all of it ----

  // No goroutine is ever about to follow a nil or unallocated pointer.
  lemma {:induction false} InvSafe(s: State, t: Tid)
    requires Inv(s) && t in s.threads
    ensures Safe(s.q, s.threads[t])
  {
    InvReady(s, t);
    assert Holds(OwnerPart, s) && Holds(ShapePart, s) && Holds(LinksPart, s) && Holds(ConsumerPart, s);
    var pc := s.threads[t];
    if pc.Swapped? {
      assert LinkAt(s.q, pc.at);
    } else if pc.Walk? {
      WalkConsumer(s.q, pc, s.sub, s.delivered);
    } else if pc.Recycle? {
      RecycleConsumer(s.q, pc, s.sub, s.delivered);
    }
  }

  lemma {:induction false} TickOwner(s: State, t: Tid)
    requires Inv(s) && Enabled(s, Tick(t))
    ensures OwnerInv(DoTick(s, t))
  {
    var pc := s.threads[t];
    assert Holds(OwnerPart, s);
    if pc.Pushing() {
      PushOwner(s, t);
    } else if pc.Collecting() || pc.Settling() {
      PopOwner(s, t);
    } else if pc.MidStart() {
      StartOwner(s, t);
    } else if pc.Linked? || pc.MustSchedule? || pc.TestLen? {
      ScheduleOwner(s, t);
    } else {
      LoopOwner(s, t);
    }
  }

  lemma {:induction false} TickList(s: State, t: Tid)
    requires Inv(s) && Enabled(s, Tick(t))
    ensures Shape(DoTick(s, t).q) && Links(DoTick(s, t).q) && Slots(DoTick(s, t).q)
  {
    var pc := s.threads[t];
    assert Holds(ShapePart, s) && Holds(LinksPart, s) && Holds(SlotsPart, s);
    assert ListInv(s.q);
    InvReady(s, t);
    if pc.Pushing() {
      PushList(s.q, t, pc);
    } else {
      PopList(s.q, t, pc);
    }
    TickQueueIs(s, t);
    assert ListParts(Seal, DoTick(s, t).q);
  }

  lemma {:induction false} TickProducers(s: State, t: Tid)
    requires Inv(s) && Enabled(s, Tick(t))
    ensures Producers(DoTick(s, t).q, DoTick(s, t).threads)
  {
    var pc := s.threads[t];
    assert Holds(ShapePart, s) && Holds(ProducersPart, s);
    if pc.Pushing() {
      PushProducers(s, t);
    } else {
      InvReady(s, t);
      RestProducers(s, t);
    }
  }

  lemma {:induction false} TickConsumer(s: State, t: Tid)
    requires Inv(s) && Enabled(s, Tick(t))
    ensures ConsumerInv(DoTick(s, t))
  {
    var pc := s.threads[t];
    assert Holds(OwnerPart, s) && Holds(ConsumerPart, s);
    assert Holds(ShapePart, s) && Holds(LinksPart, s) && Holds(SlotsPart, s);
    if pc.Pushing() {
      PushConsumer(s, t);
    } else if pc.Collecting() {
      CollectConsumer(s, t);
    } else if pc.SubLen? {
      SubtractConsumer(s, t);
    } else if pc.Recycle? {
      RecyclingConsumer(s, t);
    } else if pc.Put? {
      PuttingConsumer(s, t);
    } else {
      RestConsumer(s, t);
    }
  }

  lemma {:induction false} TickLen(s: State, t: Tid)
    requires Inv(s) && Enabled(s, Tick(t))
    ensures LenInv(DoTick(s, t))
  {
    var pc := s.threads[t];
    assert Holds(LenPart, s);
    if pc.Pushing() {
      PushLen(s, t);
    } else if pc.Collecting() || pc.Settling() {
      PopLen(s, t);
    } else {
      InboxLen(s, t);
    }
  }

  lemma {:induction false} TickWake(s: State, t: Tid)
    requires Inv(s) && Enabled(s, Tick(t))
    ensures WakeInv(DoTick(s, t))
  {
    var pc := s.threads[t];
    assert Holds(OwnerPart, s) && Holds(ConsumerPart, s) && Holds(LenPart, s) && Holds(WakePart, s);
    if pc.Pushing() {
      PushWake(s, t);
    } else if !pc.Collecting() && !pc.Settling() {
      InboxWake(s, t);
    }
  }

  lemma {:induction false} TickKept(p: Part, s: State, t: Tid)
    requires Inv(s) && Enabled(s, Tick(t))
    ensures Holds(p, DoTick(s, t))
  {
    match p
    case OwnerPart => TickOwner(s, t);
    case ShapePart => TickList(s, t);
    case LinksPart => TickList(s, t);
    case SlotsPart => TickList(s, t);
    case ProducersPart => TickProducers(s, t);
    case ConsumerPart => TickConsumer(s, t);
    case LenPart => TickLen(s, t);
    case WakePart => TickWake(s, t);
    case SenderPart =>
      assert Holds(SenderPart, s);
      TickSender(s, t);
  }

  lemma {:induction false} CallList(p: Part, s: State, step: Step)
    requires Inv(s) && Enabled(s, step) && !step.Tick? && (p.ShapePart? || p.LinksPart? || p.SlotsPart?)
    ensures Holds(p, Apply(s, step))
  {
    assert Holds(ShapePart, s) && Holds(LinksPart, s) && Holds(SlotsPart, s);
    if step.Send? {
      assert ListInv(s.q);
      GetNodeList(s.q, step.t, step.n);
      assert ListParts(Seal, GetNode(s.q, step.t, step.n));
    }
  }

  lemma {:induction false} CallSender(s: State, step: Step)
    requires SenderInv(s) && Enabled(s, step) && !step.Tick?
    ensures SenderInv(Apply(s, step))
  {
    if step.Send? {
      SendSender(s, step.t, step.v, step.n);
    } else {
      RestSender(s, Apply(s, step));
    }
  }

  lemma {:induction false} CallKept(p: Part, s: State, step: Step)
    requires Inv(s) && Enabled(s, step) && !step.Tick? && Disciplined(s, step)
    ensures Holds(p, Apply(s, step))
  {
    assert Holds(OwnerPart, s) && Holds(p, s);
    if p.OwnerPart? {
      CallOwner(s, step);
    } else if p.ProducersPart? {
      assert Holds(ShapePart, s);
      CallProducers(s, step);
    } else if p.ConsumerPart? {
      CallConsumer(s, step);
    } else if p.LenPart? {
      CallLen(s, step);
    } else if p.WakePart? {
      CallWake(s, step);
    } else if p.SenderPart? {
      CallSender(s, step);
    } else {
      CallList(p, s, step);
    }
  }

  // The initial mailbox satisfies the invariant.
  lemma {:induction false} InitInv()
    ensures Inv(Init())
  {
    forall p: Part ensures Holds(p, Init()) {
      assert LinkAt(Init().q, 0);
    }
  }

  // Every disciplined step keeps it.
  lemma {:induction false} StepInv(s: State, step: Step)
    requires Inv(s) && Enabled(s, step) && Disciplined(s, step)
    ensures Inv(Apply(s, step))
  {
    forall p: Part ensures Holds(p, Apply(s, step)) {
      if step.Tick? {
        TickKept(p, s, step.t);
      } else {
        CallKept(p, s, step);
      }
    }
  }

  // So every state of every disciplined run has it.
  lemma {:induction false} RunInv(steps: seq<Step>, s: State, s': State)
    requires Inv(s) && DisciplinedRun(steps, s, s')
    ensures Inv(s')
    decreases |steps|
  {
    if steps != [] {
      StepInv(s, steps[0]);
      RunInv(steps[1..], Apply(s, steps[0]), s');
    }
  }
}
