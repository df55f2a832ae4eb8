/**
 The growable ring buffer (ringbuffer/ringbuffer.go): a FIFO in an array that
 doubles when it is full and clears every slot it hands out. Every method runs
 under the buffer's mutex, so a call is one step.
 */
module RingBuffer {

  // Where the i-th item stands: items follow head, and wrap.
  function Slot(head: nat, i: nat, mod: nat): int { if head + 1 + i < mod then head + 1 + i else head + 1 + i - mod }

  // How many slots j is behind the first item.
  function Offset(head: nat, j: nat, mod: nat): int { if j > head then j - head - 1 else j + mod - head - 1 }

  // The items in the window of len slots behind head.
  function Window<T>(items: seq<T>, head: nat, len: nat): (w: seq<T>)
    requires head < |items| && len <= |items|
    ensures |w| == len && forall i :: 0 <= i < len ==> w[i] == items[Slot(head, i, |items|)]
  {
    seq(len, i requires 0 <= i < len => items[Slot(head, i, |items|)])
  }

  // Every slot outside the window holds the zero value.
  predicate Cleared<T(==)>(items: seq<T>, head: nat, len: nat, zero: T)
    requires head < |items|
  {
    forall j :: 0 <= j < |items| && Offset(head, j, |items|) >= len ==> items[j] == zero
  }

  lemma {:induction false} ModWraps(x: nat, m: nat)
    requires x < 2 * m
    ensures x % m == if x < m then x else x - m
  {
    if x >= m { assert x == 1 * m + (x - m); }
  }

  lemma {:induction false} WindowPush<T>(items: seq<T>, head: nat, len: nat, x: T, zero: T)
    requires head < |items| && len + 1 < |items| && Cleared(items, head, len, zero)
    ensures var next := items[Slot(head, len, |items|) := x];
            Window(next, head, len + 1) == Window(items, head, len) + [x] && Cleared(next, head, len + 1, zero)
  {
  }

  // The copy that growing makes: the slot at head, then all the items in order.
  lemma {:induction false} WindowGrow<T>(items: seq<T>, head: nat, bigger: seq<T>, zero: T)
    requires head < |items| && |bigger| == 2 * |items| && Cleared(items, head, |items| - 1, zero)
    requires forall i :: 0 <= i < |items| ==>
             bigger[i] == items[if head + i < |items| then head + i else head + i - |items|]
    requires forall i :: |items| <= i < |bigger| ==> bigger[i] == zero
    ensures Window(bigger, 0, |items| - 1) == Window(items, head, |items| - 1) && Cleared(bigger, 0, |items| - 1, zero)
  {
    assert bigger[0] == items[head] == zero;
  }

  lemma {:induction false} WindowPop<T>(items: seq<T>, head: nat, len: nat, zero: T)
    requires head < |items| && 0 < len < |items| && Cleared(items, head, len, zero)
    ensures var at := Slot(head, 0, |items|);
            && Window(items, head, len) == [items[at]] + Window(items[at := zero], at, len - 1)
            && Cleared(items[at := zero], at, len - 1, zero)
  {
  }

  // After the first n items have been taken out and their slots cleared.
  predicate TakenOut<T(==)>(items: seq<T>, after: seq<T>, head: nat, n: nat, zero: T) {
    && |after| == |items|
    && forall j :: 0 <= j < |items| ==> after[j] == if Offset(head, j, |items|) < n then zero else items[j]
  }

  lemma {:induction false} WindowTake<T>(items: seq<T>, after: seq<T>, head: nat, len: nat, n: nat, zero: T)
    requires head < |items| && n <= len < |items| && Cleared(items, head, len, zero)
    requires TakenOut(items, after, head, n, zero)
    ensures var next := if head + n < |items| then head + n else head + n - |items|;
            Window(after, next, len - n) == Window(items, head, len)[n..] && Cleared(after, next, len - n, zero)
  {
  }

  lemma {:induction false} WindowPrefix<T>(items: seq<T>, head: nat, len: nat, n: nat)
    requires head < |items| && n <= len <= |items|
    ensures Window(items, head, len)[..n] == Window(items, head, n)
  {
  }

  lemma {:induction false} SplitAt<T>(xs: seq<T>, n: nat)
    requires n <= |xs|
    ensures xs == xs[..n] + xs[n..] && |xs[..n]| == n
  {
  }

  class RingBuffer<T(==)> {
    const zero: T
    var items: array<T>
    var head: nat
    var tail: nat
    var mod: nat
    var len: nat

    // For the cost of growing: where it began, calls of Push, longest it has been, slots copied.
    ghost const initial: nat
    ghost var pushes: nat
    ghost var peak: nat
    ghost var copied: nat

    ghost predicate Valid()
      reads this, items
    {
      && items.Length == mod && head < mod && len < mod
      && tail == (if head + len < mod then head + len else head + len - mod)
      && Cleared(items[..], head, len, zero)
      && Frugal()
    }

    /** The capacity never exceeds the larger of the initial size and twice the
        longest the buffer has been, and growing has copied as many slots as it
        has added. */
    ghost predicate Frugal()
      reads this
    {
      && initial >= 1 && len <= peak <= pushes
      && (mod == initial || mod <= 2 * peak)
      && copied == mod - initial
    }

    ghost function Contents(): seq<T>
      reads this, items
      requires Valid()
    {
      Window(items[..], head, len)
    }

    constructor (size: nat, zero: T)
      requires size >= 1
      ensures Valid() && fresh(items) && Contents() == [] && this.zero == zero && initial == size
      ensures pushes == 0 && peak == 0 && mod == size
    {
      this.zero := zero;
      this.items := new T[size](_ => zero);
      this.head, this.tail, this.mod, this.len := 0, 0, size, 0;
      this.initial, this.pushes, this.peak, this.copied := size, 0, 0, 0;
    }

    // Like Valid, but tail has moved on to the slot the next item goes to.
    ghost predicate Open()
      reads this, items
    {
      && items.Length == mod && head < mod && len + 1 < mod && tail == Slot(head, len, mod)
      && Cleared(items[..], head, len, zero)
      && initial >= 1 && len <= peak <= pushes && copied == mod - initial
      && (mod == initial || mod <= 2 * peak || mod == 2 * (len + 1))
    }

    method Push(item: T)
      requires Valid()
      modifies this, items
      ensures Valid() && Contents() == old(Contents()) + [item]
      ensures items == old(items) || fresh(items)
      ensures pushes == old(pushes) + 1 && peak == if len > old(peak) then len else old(peak)
    {
      Advance();
      Store(item);
    }

    // tail = (tail + 1) % mod; if it runs into head, double the buffer.
    method Advance()
      requires Valid()
      modifies this
      ensures Open() && len == old(len) && Window(items[..], head, len) == old(Contents())
      ensures pushes == old(pushes) && peak == old(peak) && (items == old(items) || fresh(items))
    {
      ModWraps(tail + 1, mod);
      tail := (tail + 1) % mod;
      if tail == head {
        Grow();
      }
    }

    method Grow()
      requires items.Length == mod && tail == head < mod && len == mod - 1 && Cleared(items[..], head, len, zero)
      requires Frugal()
      modifies this
      ensures Open() && fresh(items) && pushes == old(pushes) && peak == old(peak) && len == old(len)
      ensures Window(items[..], head, len) == old(Window(items[..], head, len))
    {
      var newBuff := Doubled(items, mod, tail, zero);
      copied := copied + mod;
      items, head, tail, mod := newBuff, 0, mod, mod * 2;
    }

    static method Copied(items: array<T>, mod: nat, tail: nat, zero: T) returns (newBuff: array<T>)
      requires items.Length == mod && tail < mod
      ensures fresh(newBuff) && newBuff.Length == 2 * mod
      ensures forall k :: 0 <= k < mod ==> newBuff[k] == items[if tail + k < mod then tail + k else tail + k - mod]
      ensures forall k :: mod <= k < 2 * mod ==> newBuff[k] == zero
    {
      newBuff := new T[mod * 2](_ => zero);
      for i := 0 to mod
        invariant forall k :: 0 <= k < i ==> newBuff[k] == items[if tail + k < mod then tail + k else tail + k - mod]
        invariant forall k :: i <= k < 2 * mod ==> newBuff[k] == zero
      {
        ModWraps(tail + i, mod);
        newBuff[i] := items[(tail + i) % mod];
      }
    }

    static method Doubled(items: array<T>, mod: nat, tail: nat, zero: T) returns (newBuff: array<T>)
      requires items.Length == mod && tail < mod && Cleared(items[..], tail, mod - 1, zero)
      ensures fresh(newBuff) && newBuff.Length == 2 * mod && Cleared(newBuff[..], 0, mod - 1, zero)
      ensures Window(newBuff[..], 0, mod - 1) == Window(items[..], tail, mod - 1)
    {
      newBuff := Copied(items, mod, tail, zero);
      WindowGrow(items[..], tail, newBuff[..], zero);
    }

    method Store(item: T)
      requires Open()
      modifies this, items
      ensures Valid() && Contents() == old(Window(items[..], head, len)) + [item]
      ensures items == old(items) && pushes == old(pushes) + 1 && peak == if len > old(peak) then len else old(peak)
    {
      WindowPush(items[..], head, len, item, zero);
      ghost var was := items[..];
      len := len + 1;
      items[tail] := item;
      assert items[..] == was[tail := item];
      pushes := pushes + 1;
      peak := if len > peak then len else peak;
    }

    method Len() returns (n: nat)
      requires Valid()
      ensures n == |Contents()|
    {
      n := len;
    }

    method Pop() returns (item: T, ok: bool)
      requires Valid()
      modifies this, items
      ensures Valid() && items == old(items) && pushes == old(pushes) && peak == old(peak) && mod == old(mod)
      ensures ok == (old(Contents()) != [])
      ensures if ok then old(Contents()) == [item] + Contents() else item == zero && Contents() == old(Contents())
    {
      if len == 0 {
        return zero, false;
      }
      ModWraps(head + 1, mod);
      WindowPop(items[..], head, len, zero);
      ghost var was := items[..];
      head := (head + 1) % mod;
      item := items[head];
      items[head] := zero;
      assert items[..] == was[head := zero];
      len := len - 1;
      ok := true;
    }

    // The loop of PopN and PopNInto.
    static method MoveEach(items: array<T>, head: nat, mod: nat, dst: array<T>, n: nat, zero: T)
      requires items.Length == mod && head < mod && n < mod && n <= dst.Length && dst != items
      modifies items, dst
      ensures TakenOut(old(items[..]), items[..], head, n, zero)
      ensures dst[..n] == old(Window(items[..], head, n)) && dst[n..] == old(dst[n..])
    {
      for i := 0 to n
        invariant TakenOut(old(items[..]), items[..], head, i, zero)
        invariant forall k :: 0 <= k < i ==> dst[k] == old(items[Slot(head, k, mod)])
        invariant dst[n..] == old(dst[n..])
      {
        ModWraps(head + 1 + i, mod);
        var pos := (head + 1 + i) % mod;
        dst[i] := items[pos];
        items[pos] := zero;
      }
    }

    static method MoveOut(items: array<T>, head: nat, len: nat, mod: nat, dst: array<T>, n: nat, zero: T)
      returns (next: nat)
      requires items.Length == mod && head < mod && n <= len < mod && n <= dst.Length && dst != items
      requires Cleared(items[..], head, len, zero)
      modifies items, dst
      ensures next == (if head + n < mod then head + n else head + n - mod)
      ensures Window(items[..], next, len - n) == old(Window(items[..], head, len))[n..]
      ensures Cleared(items[..], next, len - n, zero)
      ensures dst[..n] == old(Window(items[..], head, len))[..n] && dst[n..] == old(dst[n..])
    {
      ghost var was := items[..];
      MoveEach(items, head, mod, dst, n, zero);
      WindowTake(was, items[..], head, len, n, zero);
      WindowPrefix(was, head, len, n);
      ModWraps(head + n, mod);
      next := (head + n) % mod;
    }

    // Takes the first n items out, into dst.
    method Drain(dst: array<T>, n: nat)
      requires Valid() && n <= len && n <= dst.Length && dst != items
      modifies this, items, dst
      ensures Valid() && items == old(items) && mod == old(mod) && pushes == old(pushes) && peak == old(peak)
      ensures dst[..n] == old(Contents())[..n] && dst[n..] == old(dst[n..])
      ensures Contents() == old(Contents())[n..]
    {
      head := MoveOut(items, head, len, mod, dst, n, zero);
      len := len - n;
    }

    method Fresh(m: nat) returns (out: array<T>)
      requires Valid()
      ensures fresh(out) && out.Length == m
      ensures Valid() && Contents() == old(Contents())
    {
      out := new T[m](_ => zero);
    }

    method PopN(n: nat) returns (popped: seq<T>, ok: bool)
      requires Valid()
      modifies this, items
      ensures Valid() && items == old(items) && mod == old(mod) && pushes == old(pushes) && peak == old(peak)
      ensures ok == (old(Contents()) != [])
      ensures old(Contents()) == popped + Contents()
      ensures ok ==> |popped| == if n < |old(Contents())| then n else |old(Contents())|
      ensures !ok ==> popped == []
    {
      if len == 0 {
        return [], false;
      }
      var m := if n >= len then len else n;
      ghost var was := Contents();
      var out := Fresh(m);
      Drain(out, m);
      SplitAt(was, m);
      popped, ok := out[..m], true;
    }

    /** PopNInto: the storage of dst is reused if it is large enough, and nothing
        beyond the items handed over is written. */
    method PopNInto(dst: array<T>, n: nat) returns (out: array<T>, m: nat, ok: bool)
      requires Valid() && dst != items
      modifies this, items, dst
      ensures Valid() && items == old(items) && mod == old(mod) && pushes == old(pushes) && peak == old(peak)
      ensures ok == (old(Contents()) != [])
      ensures m == if n < |old(Contents())| then n else |old(Contents())|
      ensures m <= out.Length && old(Contents()) == out[..m] + Contents()
      ensures if m <= dst.Length then out == dst && dst[m..] == old(dst[m..]) else fresh(out) && dst[..] == old(dst[..])
    {
      if len == 0 {
        return dst, 0, false;
      }
      m := if n > len then len else n;
      ghost var was := Contents();
      out := dst;
      if dst.Length < m {
        out := Fresh(m);
      }
      Drain(out, m);
      SplitAt(was, m);
      ok := true;
    }
  }

  // ---- whole runs ----

  // A call, and what a plain FIFO sequence makes of it: what is handed out, and what stays.
  datatype Call<T> = PushCall(item: T) | PopCall | PopNCall(n: nat)

  function HandedOut<T>(q: seq<T>, c: Call<T>): seq<T> {
    match c
    case PushCall(_) => []
    case PopCall => q[..if |q| < 1 then |q| else 1]
    case PopNCall(n) => q[..if |q| < n then |q| else n]
  }

  function Remaining<T>(q: seq<T>, c: Call<T>): seq<T> {
    if c.PushCall? then q + [c.item] else q[|HandedOut(q, c)|..]
  }

  // The plain sequence after the first k calls, and all it has handed out by then.
  function Queue<T>(calls: seq<Call<T>>, k: nat): seq<T>
    requires k <= |calls|
  {
    if k == 0 then [] else Remaining(Queue(calls, k - 1), calls[k - 1])
  }

  function Output<T>(calls: seq<Call<T>>, k: nat): seq<T>
    requires k <= |calls|
  {
    if k == 0 then [] else Output(calls, k - 1) + HandedOut(Queue(calls, k - 1), calls[k - 1])
  }

  function Pushed<T>(calls: seq<Call<T>>, k: nat): seq<T>
    requires k <= |calls|
  {
    if k == 0 then []
    else if calls[k - 1].PushCall? then Pushed(calls, k - 1) + [calls[k - 1].item]
    else Pushed(calls, k - 1)
  }

  // The longest the plain sequence has been.
  function Peak<T>(calls: seq<Call<T>>, k: nat): nat
    requires k <= |calls|
  {
    if k == 0 then 0
    else if |Queue(calls, k)| > Peak(calls, k - 1) then |Queue(calls, k)|
    else Peak(calls, k - 1)
  }

  lemma {:induction false} CallKeeps<T>(before: seq<T>, q: seq<T>, c: Call<T>)
    ensures before + HandedOut(q, c) + Remaining(q, c) == if c.PushCall? then before + q + [c.item] else before + q
  {
    if !c.PushCall? { SplitAt(q, |HandedOut(q, c)|); }
  }

  lemma {:induction false} KeptByCall<T>(out: seq<T>, q: seq<T>, pushed: seq<T>, c: Call<T>,
                                         out1: seq<T>, q1: seq<T>, pushed1: seq<T>)
    requires out + q == pushed && out1 == out + HandedOut(q, c) && q1 == Remaining(q, c)
    requires pushed1 == if c.PushCall? then pushed + [c.item] else pushed
    ensures out1 + q1 == pushed1
  {
    CallKeeps(out, q, c);
  }

  /** First in, first out: what was handed out and what is left are what was pushed, in order. */
  lemma {:induction false} NothingLost<T>(calls: seq<Call<T>>, k: nat)
    requires k <= |calls|
    ensures Output(calls, k) + Queue(calls, k) == Pushed(calls, k)
  {
    if k > 0 {
      NothingLost(calls, k - 1);
      KeptByCall(Output(calls, k - 1), Queue(calls, k - 1), Pushed(calls, k - 1), calls[k - 1],
                 Output(calls, k), Queue(calls, k), Pushed(calls, k));
    }
  }

  // One call on the buffer.
  method Perform<T>(rb: RingBuffer<T>, c: Call<T>) returns (out: seq<T>)
    requires rb.Valid()
    modifies rb, rb.items
    ensures rb.Valid() && (rb.items == old(rb.items) || fresh(rb.items))
    ensures out == HandedOut(old(rb.Contents()), c) && rb.Contents() == Remaining(old(rb.Contents()), c)
    ensures rb.pushes == old(rb.pushes) + if c.PushCall? then 1 else 0
    ensures rb.peak == if rb.len > old(rb.peak) then rb.len else old(rb.peak)
  {
    out := [];
    if c.PushCall? {
      rb.Push(c.item);
    } else if c.PopCall? {
      var item, ok := rb.Pop();
      if ok { out := [item]; }
    } else {
      var popped, _ := rb.PopN(c.n);
      out := popped;
    }
  }

  /** From any initial size, any series of calls: the buffer hands out what a
      plain FIFO sequence would, ends up within twice its longest length or at
      its initial size, and has copied fewer than two slots per push. */
  method PerformAll<T(==)>(size: nat, zero: T, calls: seq<Call<T>>)
    returns (out: seq<T>, capacity: nat, ghost copied: nat)
    requires size >= 1
    ensures out == Output(calls, |calls|)
    ensures capacity == size || capacity <= 2 * Peak(calls, |calls|)
    ensures copied == capacity - size && (copied == 0 || copied < 2 * |Pushed(calls, |calls|)|)
  {
    var rb := new RingBuffer<T>(size, zero);
    out := [];
    for k := 0 to |calls|
      invariant rb.Valid() && fresh(rb) && fresh(rb.items) && rb.initial == size
      invariant rb.Contents() == Queue(calls, k) && out == Output(calls, k)
      invariant rb.pushes == |Pushed(calls, k)| && rb.peak == Peak(calls, k)
    {
      var o := Perform(rb, calls[k]);
      out := out + o;
    }
    capacity, copied := rb.mod, rb.copied;
  }
}
