/** The inductive invariant of the mailbox protocol. */
module MailboxInvariant {
  import opened Options
  import opened Mailbox

  /** The status word and the right to run: the goroutines in the section or
      in the middle of Start are exactly `owner`, and the status says which. */
  ghost predicate OwnerInv(s: State) {
    && (forall t :: t in s.threads && s.threads[t].Owner() ==> s.owner == Some(t))
    && (s.owner.Some? ==> s.owner.value in s.threads && s.threads[s.owner.value].Owner())
    && (s.status == Idle ==> s.owner.None?)
    && (s.status == Running ==> OwnerPc(s).InSection())
    && (s.status == Starting ==> OwnerPc(s).MidStart())
    && (OwnerPc(s).InSection() || OwnerPc(s).SwapIdle? || s.status == Idle ==> s.proc)
  }

  // The owner's program counter; TestLen stands for "no owner".
  function OwnerPc(s: State): Pc {
    if s.owner.Some? && s.owner.value in s.threads then s.threads[s.owner.value] else TestLen
  }

  /** The list: order[freed..] are distinct live nodes, none of them pooled
      (Shape), linked in order except at the gaps that producers have yet to
      publish (Links). */
  ghost predicate Shape(q: Queue) {
    && q.next.Keys == q.val.Keys
    && q.pool <= q.next.Keys
    && |q.order| == |q.log| + 1
    && q.freed <= q.hd <= q.taken < |q.order|
    && q.head == q.order[q.hd]
    && q.tail == q.order[|q.order| - 1]
    && (forall i :: q.freed <= i < |q.order| ==> q.order[i] in q.pos && q.pos[q.order[i]] == i)
    && (forall n :: n in q.pos ==>
          n in q.next && n !in q.pool && q.freed <= q.pos[n] < |q.order| && q.order[q.pos[n]] == n)
    && (forall i :: i in q.gaps ==> q.taken <= i < |q.order| - 1)
  }

  ghost predicate Links(q: Queue) {
    forall i {:trigger LinkAt(q, i)} :: q.freed <= i < |q.order| ==> LinkAt(q, i)
  }

  // The i-th node points to its successor, or to nil at a gap and at the tail.
  ghost predicate LinkAt(q: Queue, i: nat) {
    && i < |q.order|
    && q.order[i] in q.next
    && q.next[q.order[i]] == if i in q.gaps || i + 1 == |q.order| then None else Some(q.order[i + 1])
  }

  /** The slots: what is not yet taken is the logged item; what is taken, and
      every pooled slot, is zero. */
  ghost predicate Slots(q: Queue) {
    && (forall i :: q.taken < i < |q.order| && i <= |q.log| && q.order[i] in q.val ==>
          q.val[q.order[i]] == q.log[i - 1])
    && (forall i :: q.freed <= i <= q.taken < |q.order| && q.order[i] in q.val ==> q.val[q.order[i]] == ZERO)
    && (forall n :: n in q.pool && n in q.val ==> q.val[n] == ZERO)
  }

  /** The producers' private nodes, and the gaps they are about to link. */
  ghost predicate Producers(q: Queue, threads: map<Tid, Pc>) {
    && (forall t :: t in threads && threads[t].PreSwap() ==>
          PrivateNode(q, threads[t]) && threads[t].n in q.priv && q.priv[threads[t].n] == t)
    && (forall t :: t in threads && threads[t].Swapped? ==> threads[t].at in q.gaps && q.gaps[threads[t].at] == t)
    && (forall i :: i in q.gaps ==>
          i + 1 < |q.order| && q.gaps[i] in threads && Fills(q, threads[q.gaps[i]], i))
  }

  // The producer is about to link position i to the node after it.
  ghost predicate Fills(q: Queue, pc: Pc, i: nat) {
    i + 1 < |q.order| && pc.Swapped? && pc.at == i && pc.prev == q.order[i] && pc.n == q.order[i + 1]
  }

  ghost predicate PrivateNode(q: Queue, pc: Pc)
    requires pc.PreSwap()
  {
    && pc.n in q.next
    && pc.n in q.val
    && pc.n !in q.pool
    && pc.n !in q.pos
    && (pc.WroteVal? || pc.Cleared? ==> q.val[pc.n] == pc.item)
    && (pc.Cleared? ==> q.next[pc.n] == None)
  }

  /** Where the consumer is, and how far its bookkeeping lags behind. */
  ghost predicate Consumer(q: Queue, pc: Pc, sub: nat, delivered: seq<Item>) {
    && q.hd < |q.order| == |q.log| + 1
    && (if pc.Collecting() then CollectingAt(q, pc) else q.taken == q.hd)
    && (if pc.Settling() then SettlingAt(q, pc, sub, delivered)
        else q.freed == q.hd && sub == q.hd && delivered == q.log[..q.hd])
  }

  ghost predicate CollectingAt(q: Queue, pc: Pc)
    requires pc.Collecting()
  {
    && q.taken == q.hd + |pc.got| < |q.order| == |q.log| + 1
    && |pc.got| <= BATCH
    && pc.first == q.order[q.hd]
    && pc.cur == q.order[q.taken]
    && pc.got == q.log[q.hd..q.taken]
    && (pc.Take? ==>
          && q.taken + 1 < |q.order|
          && q.taken !in q.gaps
          && |pc.got| < BATCH
          && pc.nxt == q.order[q.taken + 1])
    && (pc.StoreHead? ==> pc.got != [])
  }

  ghost predicate SettlingAt(q: Queue, pc: Pc, sub: nat, delivered: seq<Item>)
    requires pc.Settling()
  {
    && q.freed <= q.hd < |q.order| == |q.log| + 1
    && 0 < |pc.got| <= q.hd && |pc.got| <= BATCH
    && pc.cur == q.order[q.hd]
    && pc.got == q.log[q.hd - |pc.got|..q.hd]
    && delivered == q.log[..q.hd - |pc.got|]
    && (pc.SubLen? ==> sub == q.freed == q.hd - |pc.got| && pc.first == q.order[q.freed])
    && (pc.Recycle? ==> sub == q.hd && pc.c == q.order[q.freed])
    && (pc.Put? ==> sub == q.hd && q.freed < q.hd && pc.freeing == q.order[q.freed] && pc.c == q.order[q.freed + 1])
  }

  // Producers between their swap and their increment of len.
  ghost function InFlight(threads: map<Tid, Pc>): set<Tid> {
    set t | t in threads && threads[t].InFlight()
  }

  ghost predicate LenInv(s: State) {
    s.len == |s.q.log| - s.sub - |InFlight(s.threads)|
  }

  // Something has been appended and not yet consumed.
  ghost predicate Pending(s: State) { s.q.hd < |s.q.log| }

  ghost predicate SomeObliged(threads: map<Tid, Pc>) {
    exists t :: t in threads && threads[t].Obliged()
  }

  ghost predicate WakeInv(s: State) {
    s.status == Idle && Pending(s) ==> SomeObliged(s.threads)
  }

  // The items of one sender, in order.
  function From(items: seq<Item>, t: Tid): seq<Item> {
    if items == [] then []
    else From(items[..|items| - 1], t) + (if items[|items| - 1].from == t then [items[|items| - 1]] else [])
  }

  // The item a sender has called Send with and not appended yet.
  function Unsent(threads: map<Tid, Pc>, t: Tid): seq<Item> {
    if t in threads && threads[t].PreSwap() then [threads[t].item] else []
  }

  ghost predicate SenderInv(s: State) {
    && (forall t :: t in s.threads && s.threads[t].PreSwap() ==> s.threads[t].item.from == t)
    && (forall t: Tid :: From(s.calls, t) == From(s.q.log, t) + Unsent(s.threads, t))
  }

  // The invariant, by parts; each part has its own proof.
  datatype Part =
    | OwnerPart
    | ShapePart
    | LinksPart
    | SlotsPart
    | ProducersPart
    | ConsumerPart
    | LenPart
    | WakePart
    | SenderPart

  ghost predicate Holds(p: Part, s: State) {
    match p
    case OwnerPart => OwnerInv(s)
    case ShapePart => Shape(s.q)
    case LinksPart => Links(s.q)
    case SlotsPart => Slots(s.q)
    case ProducersPart => Producers(s.q, s.threads)
    case ConsumerPart => Consumer(s.q, OwnerPc(s), s.sub, s.delivered)
    case LenPart => LenInv(s)
    case WakePart => WakeInv(s)
    case SenderPart => SenderInv(s)
  }

  ghost predicate Inv(s: State) {
    forall p: Part :: Holds(p, s)
  }
}
