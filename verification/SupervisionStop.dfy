/** cleanup comes last and once, and what it does to the inbox. */
module SupervisionStop {
  import opened Options
  import opened Supervision
  import opened SupervisionTheorems
  import opened SupervisionLife

  // ---- cleanup comes last, and once ----

  predicate Final(d: seq<Event>, cancel: Option<int>) {
    if cancel.Some? then d == Farewell(cancel) else d == EXHAUSTED
  }

  predicate Cancels(e: Event) { e.Cancelled? }

  ghost predicate NoCleanup(d: seq<Event>) {
    forall i :: 0 <= i < |d| ==> d[i] != Unregistered && d[i] != InboxStopped && !Cancels(d[i])
  }

  lemma {:induction false} StepCleanup(max: nat, fate: Oracle, ph: Phase, c: Core) returns (cancel: Option<int>)
    requires !ph.Over? && InBudget(max, c)
    ensures var (ph1, _) := Step(max, fate, ph, c); var d := Delta(max, fate, ph, c);
            NoCleanup(d) || (ph1.Over? && Final(d, cancel))
  {
    cancel := None;
    if ph.Working? && ph.todo != [] && ph.todo[0].Pill? {
      cancel := Some(ph.todo[0].cancel);
    } else if ph.Draining? {
      cancel := Some(ph.cancel);
    }
  }

  /** A call of Invoke or Start cleans up at most once, as the last thing it
      does: so at most one pill of a batch has its cancel function called. */
  lemma {:induction false} CleanupIsLast(max: nat, fate: Oracle, ph: Phase, c: Core)
    returns (before: seq<Event>, tail: seq<Event>, cancel: Option<int>)
    requires InBudget(max, c)
    ensures Events(max, fate, ph, c) == before + tail
    ensures NoCleanup(before) && (tail == [] || Final(tail, cancel))
    decreases Budget(max, ph, c), Rank(ph)
  {
    if ph.Over? {
      before, tail, cancel := [], [], None;
    } else {
      var (ph1, c1) := Step(max, fate, ph, c);
      var d := Delta(max, fate, ph, c);
      var now := StepCleanup(max, fate, ph, c);
      if NoCleanup(d) {
        before, tail, cancel := CleanupIsLast(max, fate, ph1, c1);
        Regroup(d, before, tail);
        before := d + before;
      } else {
        before, tail, cancel := [], d, now;
        Regroup([], d, []);
      }
    }
  }

  lemma {:induction false} Regroup(d: seq<Event>, before: seq<Event>, tail: seq<Event>)
    ensures d + (before + tail) == (d + before) + tail
    ensures NoCleanup(d) && NoCleanup(before) ==> NoCleanup(d + before)
    ensures tail == [] ==> d + tail == d
    ensures d == [] ==> d + before == before && before + [] == before
  {
  }

  // ---- a process that is gone but whose inbox runs ----

  // Whether the inbox is on after the first k events of t.
  function InboxAfter(on: bool, t: seq<Event>, k: nat): bool
    requires k <= |t|
  {
    if k == 0 then on
    else if t[k - 1] == InboxStarted then true
    else if t[k - 1] == InboxStopped then false
    else InboxAfter(on, t, k - 1)
  }

  function InboxOn(t: seq<Event>): bool { InboxAfter(false, t, |t|) }

  lemma {:induction false} InboxPrefix(on: bool, a: seq<Event>, b: seq<Event>, k: nat)
    requires k <= |a|
    ensures InboxAfter(on, a + b, k) == InboxAfter(on, a, k)
  {
    if k > 0 { InboxPrefix(on, a, b, k - 1); }
  }

  lemma {:induction false} InboxAppend(on: bool, a: seq<Event>, b: seq<Event>, k: nat)
    requires k <= |b|
    ensures InboxAfter(on, a + b, |a| + k) == InboxAfter(InboxAfter(on, a, |a|), b, k)
  {
    if k == 0 {
      InboxPrefix(on, a, b, |a|);
    } else {
      InboxAppend(on, a, b, k - 1);
      assert (a + b)[|a| + k - 1] == b[k - 1];
    }
  }

  // Events that leave the inbox alone.
  lemma {:induction false} InboxSame(on: bool, d: seq<Event>, k: nat)
    requires k <= |d| && forall i :: 0 <= i < k ==> d[i] != InboxStarted && d[i] != InboxStopped
    ensures InboxAfter(on, d, k) == on
  {
    if k > 0 { InboxSame(on, d, k - 1); }
  }

  lemma {:induction false} FinalStopsInbox(on: bool, d: seq<Event>, cancel: Option<int>)
    requires Final(d, cancel)
    ensures !InboxAfter(on, d, |d|) && Unregistered in d
  {
    var k := if d == EXHAUSTED then 4 else 3;
    assert d[k - 1] == InboxStopped && d[k] == Unregistered;
    assert !InboxAfter(on, d, k);
    InboxStays(on, d, k, |d|);
  }

  lemma {:induction false} InboxStays(on: bool, d: seq<Event>, j: nat, k: nat)
    requires j <= k <= |d| && forall i :: j <= i < k ==> d[i] != InboxStarted && d[i] != InboxStopped
    ensures InboxAfter(on, d, k) == InboxAfter(on, d, j)
    decreases k
  {
    if j < k { InboxStays(on, d, j, k - 1); }
  }

  lemma {:induction false} NeverStartsInbox(max: nat, fate: Oracle, ph: Phase, c: Core)
    requires InBudget(max, c)
    ensures InboxStarted !in Events(max, fate, ph, c)
    decreases Budget(max, ph, c), Rank(ph)
  {
    if !ph.Over? {
      var (ph1, c1) := Step(max, fate, ph, c);
      NeverStartsInbox(max, fate, ph1, c1);
    }
  }

  // Frames are calls of Start that got past Started.
  lemma {:induction false} FramesAreStarts(max: nat, fate: Oracle, ph: Phase, c: Core)
    requires InBudget(max, c)
    ensures c.frames <= Run(max, fate, ph, c).frames
    ensures c.frames < Run(max, fate, ph, c).frames <==> Broadcast(StartedEvent) in Events(max, fate, ph, c)
    decreases Budget(max, ph, c), Rank(ph)
  {
    if !ph.Over? {
      var (ph1, c1) := Step(max, fate, ph, c);
      FramesAreStarts(max, fate, ph1, c1);
      StepFrames(max, fate, ph, c);
    }
  }

  lemma {:induction false} StepFrames(max: nat, fate: Oracle, ph: Phase, c: Core)
    requires !ph.Over?
    ensures var (_, c1) := Step(max, fate, ph, c);
            c1.frames == c.frames + if Broadcast(StartedEvent) in Delta(max, fate, ph, c) then 1 else 0
  {
    if ph.Booted? && Present(fate, c, Started).1 == Fine {
      assert Delta(max, fate, ph, c)[1] == Broadcast(StartedEvent);
    }
  }

  // During the run itself the inbox goes off exactly at cleanup.
  lemma {:induction false} EventsInbox(max: nat, fate: Oracle, ph: Phase, c: Core)
    requires InBudget(max, c)
    ensures var d := Events(max, fate, ph, c); InboxAfter(true, d, |d|) <==> Unregistered !in d
  {
    NeverStartsInbox(max, fate, ph, c);
    var before, tail, cancel := CleanupIsLast(max, fate, ph, c);
    InboxSame(true, before, |before|);
    InboxAppend(true, before, tail, |tail|);
    if tail != [] { FinalStopsInbox(true, tail, cancel); }
  }

  // On the way out every frame starts it.
  lemma {:induction false} UnwindInbox(c: Core)
    ensures InboxOn(Unwind(c).trace) <==> InboxOn(c.trace) || c.frames > 0
  {
    var w := seq(c.frames, _ => InboxStarted);
    InboxAppend(false, c.trace, w, |w|);
  }

  /** cleanup stops the inbox, but every replay that is still on the stack
      starts it again on its way out. So a process that has been cleaned up in
      a call of Invoke is left with a running inbox if and only if a restart
      within that call had got past Started. */
  lemma {:induction false} InboxSurvivesCleanupIff(max: nat, fate: Oracle, msgs: seq<Msg>, c: Core)
    requires InBudget(max, c) && c.frames == 0 && InboxOn(c.trace)
    ensures var d := Events(max, fate, Working(msgs), c); var u := Unwind(Run(max, fate, Working(msgs), c));
            && (Unregistered !in d ==> InboxOn(u.trace))
            && (Unregistered in d ==> (InboxOn(u.trace) <==> Broadcast(StartedEvent) in d))
  {
    var ph := Working(msgs);
    EventsInbox(max, fate, ph, c);
    RunAppends(max, fate, ph, c);
    InboxAppend(false, c.trace, Events(max, fate, ph, c), |Events(max, fate, ph, c)|);
    FramesAreStarts(max, fate, ph, c);
    UnwindInbox(Run(max, fate, ph, c));
  }

  // A receiver that panics on every user message and on nothing else.
  const PANICKY: Oracle := (t: seq<Event>) =>
    if t != [] && t[|t| - 1].Received? && t[|t| - 1].letter.Message? then Panics else Fine

  // One restart allowed, two messages, a panic on each: the second one is inside the replay.
  lemma {:induction false} SecondPanic(c: Core)
    requires c.restarts == 0
    ensures var r := Run(1, PANICKY, Working([User(0), User(1)]), c); r.frames == c.frames + 1 && Dead(r)
  {
    var (p1, c1) := Step(1, PANICKY, Working([User(0), User(1)]), c);
    assert p1 == Crashed([User(1)], Panics);
    var (p2, c2) := Step(1, PANICKY, p1, c1);
    var (p3, c3) := Step(1, PANICKY, p2, c2);
    assert p3 == Booted([User(1)]);
    var (p4, c4) := Step(1, PANICKY, p3, c3);
    assert p4 == Working([User(1)]) && c4.frames == c.frames + 1;
    var (p5, c5) := Step(1, PANICKY, p4, c4);
    assert p5 == Crashed([], Panics) && c5.restarts == 1;
    var (p6, c6) := Step(1, PANICKY, p5, c5);
    assert p6 == Over && c6.frames == c.frames + 1;
    assert Run(1, PANICKY, p6, c6) == c6;
    assert Run(1, PANICKY, p5, c5) == c6;
    assert Run(1, PANICKY, p4, c4) == c6;
    assert Run(1, PANICKY, p3, c3) == c6;
    assert Run(1, PANICKY, p2, c2) == c6;
    assert c6.trace[|c6.trace| - 3] == Unregistered;
  }

  // What Start leaves behind.
  lemma {:induction false} FirstStart() returns (c: Core)
    ensures c == Serve(1, PANICKY, 0, []) && c.restarts == 0 && c.frames == 0 && !Dead(c)
  {
    var c0 := Core(0, 0, 0, [], 0);
    var (p1, c1) := Step(1, PANICKY, Booting([]), c0);
    assert p1 == Booted([]);
    var (p2, c2) := Step(1, PANICKY, p1, c1);
    assert p2 == Working([]) && c2.restarts == 0;
    assert Run(1, PANICKY, p2, c2) == Run(1, PANICKY, Over, c2) == c2;
    assert Run(1, PANICKY, p1, c1) == c2;
    c := Unwind(c2);
  }

  /** It does happen, to a process with one restart that is sent two messages and
      panics on both. */
  lemma {:induction false} InboxSurvivesCleanup() returns (u: Core)
    ensures u == Serve(1, PANICKY, 0, [[User(0), User(1)]]) && Dead(u) && InboxOn(u.trace)
  {
    var b := [User(0), User(1)];
    var c := FirstStart();
    assert [b][..0] == [];
    var r := Run(1, PANICKY, Working(b), c.(mcount := |b|));
    SecondPanic(c.(mcount := |b|));
    UnwindInbox(r);
    u := Unwind(r);
    assert u == Serve(1, PANICKY, 0, [b]);
  }
}
