/** What supervision guarantees, for every receiver and every batch. */
module SupervisionTheorems {
  import opened Options
  import opened Supervision

  // ---- the events of a step and of a run ----

  // What cleanup leaves in the trace: the parent is left, the children are poisoned, the inbox is
  // stopped, the registry left, Stopped shown and announced, and a pill's cancel function called.
  function Farewell(cancel: Option<int>): seq<Event> {
    if cancel.Some? then
      [LeftParent, PoisonedChildren, InboxStopped, Unregistered, Received(Stopped), Broadcast(StoppedEvent),
       Cancelled(cancel.value)]
    else [LeftParent, PoisonedChildren, InboxStopped, Unregistered, Received(Stopped), Broadcast(StoppedEvent)]
  }

  lemma {:induction false} CleanupIsFarewell(cancel: Option<int>)
    ensures CleanupEvents(cancel) == Farewell(cancel)
  {
  }

  // The budget is used up.
  const EXHAUSTED := [Broadcast(MaxRestartsExceededEvent)] + Farewell(None)

  function Delta(max: nat, fate: Oracle, ph: Phase, c: Core): seq<Event>
    requires !ph.Over?
  {
    match ph
    case Booting(_) =>
      if Present(fate, c, Initialized).1 == Fine then [Received(Initialized), Broadcast(InitializedEvent)]
      else [Received(Initialized)]
    case Booted(_) =>
      if Present(fate, c, Started).1 == Fine then [Received(Started), Broadcast(StartedEvent)] else [Received(Started)]
    case Working(todo) =>
      if todo == [] then []
      else if todo[0].User? then [Received(Message(todo[0].id))]
      else if todo[0].graceful then []
      else Farewell(Some(todo[0].cancel))
    case Draining(drain, _, cancel) =>
      if drain == [] then Farewell(Some(cancel))
      else if drain[0].Pill? then []
      else [Received(Message(drain[0].id))]
    case Crashed(_, why) =>
      if why == InternalError then []
      else if c.restarts == max then EXHAUSTED
      else [Received(Stopped), Broadcast(RestartedEvent(c.restarts + 1))]
  }

  lemma {:induction false} StepDelta(max: nat, fate: Oracle, ph: Phase, c: Core)
    requires !ph.Over?
    ensures Step(max, fate, ph, c).1.trace == c.trace + Delta(max, fate, ph, c)
  {
    var (ph1, c1) := Step(max, fate, ph, c);
    CleanupIsFarewell(None);
    if ph.Working? && ph.todo != [] && ph.todo[0].Pill? { CleanupIsFarewell(Some(ph.todo[0].cancel)); }
    if ph.Draining? { CleanupIsFarewell(Some(ph.cancel)); }
    if ph.Booting? {
      assert c.trace + [Received(Initialized)] + [Broadcast(InitializedEvent)]
             == c.trace + [Received(Initialized), Broadcast(InitializedEvent)];
    } else if ph.Booted? {
      assert c.trace + [Received(Started)] + [Broadcast(StartedEvent)]
             == c.trace + [Received(Started), Broadcast(StartedEvent)];
    } else {
      assert c.trace + [] == c.trace;
    }
  }

  function Events(max: nat, fate: Oracle, ph: Phase, c: Core): seq<Event>
    requires InBudget(max, c)
    decreases Budget(max, ph, c), Rank(ph)
  {
    if ph.Over? then []
    else
      var (ph1, c1) := Step(max, fate, ph, c);
      Delta(max, fate, ph, c) + Events(max, fate, ph1, c1)
  }

  // A run only appends.
  lemma {:induction false} RunAppends(max: nat, fate: Oracle, ph: Phase, c: Core)
    requires InBudget(max, c)
    ensures Run(max, fate, ph, c).trace == c.trace + Events(max, fate, ph, c)
    decreases Budget(max, ph, c), Rank(ph)
  {
    if !ph.Over? {
      var (ph1, c1) := Step(max, fate, ph, c);
      StepDelta(max, fate, ph, c);
      RunAppends(max, fate, ph1, c1);
    }
  }

  // ---- replay ----

  // The user messages among the first k events, in order.
  function Seen(t: seq<Event>, k: nat): seq<int>
    requires k <= |t|
  {
    if k == 0 then []
    else Seen(t, k - 1) + if t[k - 1].Received? && t[k - 1].letter.Message? then [t[k - 1].letter.id] else []
  }

  function Shown(t: seq<Event>): seq<int> { Seen(t, |t|) }

  lemma {:induction false} SeenPrefix(a: seq<Event>, b: seq<Event>, k: nat)
    requires k <= |a|
    ensures Seen(a + b, k) == Seen(a, k)
  {
    if k > 0 { SeenPrefix(a, b, k - 1); }
  }

  lemma {:induction false} SeenSuffix(a: seq<Event>, b: seq<Event>, k: nat)
    requires k <= |b|
    ensures Seen(a + b, |a| + k) == Shown(a) + Seen(b, k)
  {
    if k == 0 {
      SeenPrefix(a, b, |a|);
    } else {
      SeenSuffix(a, b, k - 1);
      assert (a + b)[|a| + k - 1] == b[k - 1];
    }
  }

  lemma {:induction false} ShownAppend(a: seq<Event>, b: seq<Event>)
    ensures Shown(a + b) == Shown(a) + Shown(b)
  {
    SeenSuffix(a, b, |b|);
  }

  // The message a phase is about to show.
  function Shows(ph: Phase): seq<int> {
    if ph.Working? && ph.todo != [] && ph.todo[0].User? then [ph.todo[0].id]
    else if ph.Draining? && ph.drain != [] && ph.drain[0].User? then [ph.drain[0].id]
    else []
  }

  lemma {:induction false} NothingSeen(d: seq<Event>, k: nat)
    requires k <= |d| && forall i :: 0 <= i < |d| ==> !(d[i].Received? && d[i].letter.Message?)
    ensures Seen(d, k) == []
  {
    if k > 0 { NothingSeen(d, k - 1); }
  }

  lemma {:induction false} DeltaShows(max: nat, fate: Oracle, ph: Phase, c: Core)
    requires !ph.Over?
    ensures Shown(Delta(max, fate, ph, c)) == Shows(ph)
  {
    var d := Delta(max, fate, ph, c);
    if Shows(ph) == [] {
      NothingSeen(d, |d|);
    } else {
      assert |d| == 1 && Seen(d, 0) == [];
    }
  }

  predicate PillFree(msgs: seq<Msg>) { forall i :: 0 <= i < |msgs| ==> msgs[i].User? }

  function Ids(msgs: seq<Msg>): seq<int>
    requires PillFree(msgs)
  {
    if msgs == [] then [] else [msgs[0].id] + Ids(msgs[1..])
  }

  lemma {:induction false} IdsCons(msgs: seq<Msg>, n: nat)
    requires PillFree(msgs) && n < |msgs|
    ensures Ids(msgs[..n + 1]) == [msgs[0].id] + Ids(msgs[1..][..n])
  {
    assert msgs[..n + 1][1..] == msgs[1..][..n];
  }

  // A machine that has only user messages left.
  predicate Plain(ph: Phase) { !ph.Draining? && !ph.Over? && PillFree(ph.todo) }

  // Where a step on user messages goes, and what it leaves to do.
  lemma {:induction false} StepTodo(max: nat, fate: Oracle, ph: Phase, c: Core)
    requires Plain(ph) && InBudget(max, c)
    ensures var (ph1, c1) := Step(max, fate, ph, c);
            && InBudget(max, c1)
            && (ph1.Over? || (Plain(ph1) && ph1.todo == if ph.Working? then ph.todo[1..] else ph.todo))
            && (ph1.Over? <==>
                  (ph.Working? && ph.todo == []) || (ph.Crashed? && ph.why != InternalError && c.restarts == max))
  {
  }

  // The messages a run shows.
  function RunShows(max: nat, fate: Oracle, ph: Phase, c: Core): seq<int>
    requires InBudget(max, c)
    decreases Budget(max, ph, c), Rank(ph)
  {
    if ph.Over? then []
    else
      var (ph1, c1) := Step(max, fate, ph, c);
      Shows(ph) + RunShows(max, fate, ph1, c1)
  }

  lemma {:induction false} ShownTogether(d: seq<Event>, x: seq<int>, e: seq<Event>, y: seq<int>)
    requires Shown(d) == x && Shown(e) == y
    ensures Shown(d + e) == x + y
  {
    ShownAppend(d, e);
  }

  lemma {:induction false} EventsShow(max: nat, fate: Oracle, ph: Phase, c: Core)
    requires InBudget(max, c)
    ensures Shown(Events(max, fate, ph, c)) == RunShows(max, fate, ph, c)
    decreases Budget(max, ph, c), Rank(ph)
  {
    if !ph.Over? {
      var (ph1, c1) := Step(max, fate, ph, c);
      EventsShow(max, fate, ph1, c1);
      DeltaShows(max, fate, ph, c);
      ShownTogether(Delta(max, fate, ph, c), Shows(ph), Events(max, fate, ph1, c1), RunShows(max, fate, ph1, c1));
    }
  }

  // They are a prefix of the batch.
  lemma {:induction false} ShowsPrefix(max: nat, fate: Oracle, ph: Phase, c: Core) returns (n: nat)
    requires Plain(ph) && InBudget(max, c)
    ensures n <= |ph.todo| && RunShows(max, fate, ph, c) == Ids(ph.todo[..n])
    ensures n < |ph.todo| ==> EndsWith(Events(max, fate, ph, c), EXHAUSTED)
    decreases Budget(max, ph, c), Rank(ph)
  {
    var (ph1, c1) := Step(max, fate, ph, c);
    StepTodo(max, fate, ph, c);
    if ph1.Over? {
      n := 0;
      assert Delta(max, fate, ph, c) + [] == Delta(max, fate, ph, c);
    } else {
      n := ShowsPrefix(max, fate, ph1, c1);
      if n < |ph1.todo| { EndsAppend(Delta(max, fate, ph, c), Events(max, fate, ph1, c1), EXHAUSTED); }
      if ph.Working? {
        IdsCons(ph.todo, n);
        n := n + 1;
      }
    }
  }

  ghost predicate EndsWith(t: seq<Event>, tail: seq<Event>) {
    |tail| <= |t| && t[|t| - |tail|..] == tail
  }

  lemma {:induction false} EndsAppend(a: seq<Event>, b: seq<Event>, tail: seq<Event>)
    requires EndsWith(b, tail)
    ensures EndsWith(a + b, tail)
  {
    assert (a + b)[|a + b| - |tail|..] == b[|b| - |tail|..];
  }

  /** Replay keeps order and count: across all nested restarts the receiver is
      shown a prefix of the batch, each message once and in order. It is the
      whole batch, unless the restart budget runs out; then the last thing that
      happens is the exhaustion notice and the cleanup with its one Stopped. */
  lemma {:induction false} ReplayInOrder(max: nat, fate: Oracle, msgs: seq<Msg>, c: Core) returns (n: nat)
    requires PillFree(msgs) && InBudget(max, c)
    ensures var r := Run(max, fate, Working(msgs), c);
            && n <= |msgs|
            && Shown(r.trace) == Shown(c.trace) + Ids(msgs[..n])
            && (n < |msgs| ==> EndsWith(r.trace, EXHAUSTED))
  {
    n := ShowsPrefix(max, fate, Working(msgs), c);
    EventsShow(max, fate, Working(msgs), c);
    RunAppends(max, fate, Working(msgs), c);
    ShownAppend(c.trace, Events(max, fate, Working(msgs), c));
    if n < |msgs| { EndsAppend(c.trace, Events(max, fate, Working(msgs), c), EXHAUSTED); }
  }

  // ---- the message count ----

  lemma {:induction false} StepCounts(max: nat, fate: Oracle, ph: Phase, c: Core)
    requires Plain(ph) && c.mcount == |ph.todo|
    ensures var (ph1, c1) := Step(max, fate, ph, c); c1.mcount == if ph1.Over? then |ph.todo| else |ph1.todo|
  {
  }

  lemma {:induction false} CountsRest(max: nat, fate: Oracle, ph: Phase, c: Core)
    requires Plain(ph) && InBudget(max, c) && c.mcount == |ph.todo|
    ensures |RunShows(max, fate, ph, c)| + Run(max, fate, ph, c).mcount == |ph.todo|
    decreases Budget(max, ph, c), Rank(ph)
  {
    var (ph1, c1) := Step(max, fate, ph, c);
    StepTodo(max, fate, ph, c);
    StepCounts(max, fate, ph, c);
    if !ph1.Over? { CountsRest(max, fate, ph1, c1); }
  }

  /** Conservation: across all restarts, the messages of a batch the receiver has
      been shown and the ones mcount reports are the whole batch. */
  lemma {:induction false} CountIsRest(max: nat, fate: Oracle, msgs: seq<Msg>, c: Core)
    requires PillFree(msgs) && InBudget(max, c) && c.mcount == |msgs|
    ensures var r := Run(max, fate, Working(msgs), c);
            |Shown(r.trace)| + r.mcount == |Shown(c.trace)| + |msgs|
  {
    CountsRest(max, fate, Working(msgs), c);
    EventsShow(max, fate, Working(msgs), c);
    RunAppends(max, fate, Working(msgs), c);
    ShownAppend(c.trace, Events(max, fate, Working(msgs), c));
  }

  // ---- the restart budget ----

  // The receives at positions i..j-1 that panicked (InternalError apart; Stopped never does).
  function Panicked(fate: Oracle, t: seq<Event>, i: nat, j: nat): nat
    requires i <= j <= |t|
    decreases j - i
  {
    if i == j then 0
    else Panicked(fate, t, i, j - 1)
         + if t[j - 1].Received? && !t[j - 1].letter.Stopped? && fate(t[..j]) == Panics then 1 else 0
  }

  lemma {:induction false} PanickedPrefix(fate: Oracle, a: seq<Event>, b: seq<Event>, i: nat, j: nat)
    requires i <= j <= |a| && a <= b
    ensures Panicked(fate, b, i, j) == Panicked(fate, a, i, j)
    decreases j - i
  {
    if i < j {
      PanickedPrefix(fate, a, b, i, j - 1);
      assert b[..j] == a[..j];
    }
  }

  lemma {:induction false} PanickedSplit(fate: Oracle, t: seq<Event>, i: nat, j: nat, k: nat)
    requires i <= j <= k <= |t|
    ensures Panicked(fate, t, i, k) == Panicked(fate, t, i, j) + Panicked(fate, t, j, k)
    decreases k - j
  {
    if j < k { PanickedSplit(fate, t, i, j, k - 1); }
  }

  // Events that cannot panic.
  predicate Quiet(e: Event) { !e.Received? || e.letter.Stopped? }

  lemma {:induction false} QuietPanicked(fate: Oracle, t: seq<Event>, i: nat, j: nat)
    requires i <= j <= |t| && forall k :: i <= k < j ==> Quiet(t[k])
    ensures Panicked(fate, t, i, j) == 0
    decreases j - i
  {
    if i < j { QuietPanicked(fate, t, i, j - 1); }
  }

  function PanicsNow(ph: Phase): nat { if ph.Crashed? && ph.why == Panics then 1 else 0 }

  // Only the first of the events d may panic, and p says whether it does.
  predicate MayPanic(fate: Oracle, t: seq<Event>, d: seq<Event>, p: nat) {
    && (forall k :: 1 <= k < |d| ==> Quiet(d[k]))
    && (if d != [] && !Quiet(d[0]) then p == (if fate(t + [d[0]]) == Panics then 1 else 0) else p == 0)
  }

  lemma {:induction false} PanicsIn(fate: Oracle, t: seq<Event>, d: seq<Event>, p: nat)
    requires MayPanic(fate, t, d, p)
    ensures Panicked(fate, t + d, |t|, |t + d|) == p
  {
    var k, t1 := |t|, t + d;
    if d != [] && !Quiet(d[0]) {
      assert t1[..k + 1] == t + [d[0]];
      assert Panicked(fate, t1, k, k) == 0;
      QuietPanicked(fate, t1, k + 1, |t1|);
      PanickedSplit(fate, t1, k, k + 1, |t1|);
    } else {
      QuietPanicked(fate, t1, k, |t1|);
    }
  }

  lemma {:induction false} StepMayPanic(max: nat, fate: Oracle, ph: Phase, c: Core)
    requires !ph.Over? && InBudget(max, c)
    ensures MayPanic(fate, c.trace, Delta(max, fate, ph, c), PanicsNow(Step(max, fate, ph, c).0))
  {
  }

  lemma {:induction false} StepPanics(max: nat, fate: Oracle, ph: Phase, c: Core)
    requires !ph.Over? && InBudget(max, c)
    ensures var (ph1, c1) := Step(max, fate, ph, c);
            |c.trace| <= |c1.trace| && Panicked(fate, c1.trace, |c.trace|, |c1.trace|) == PanicsNow(ph1)
  {
    StepDelta(max, fate, ph, c);
    StepMayPanic(max, fate, ph, c);
    PanicsIn(fate, c.trace, Delta(max, fate, ph, c), PanicsNow(Step(max, fate, ph, c).0));
  }

  // The number of panics in a run.
  function RunPanics(max: nat, fate: Oracle, ph: Phase, c: Core): nat
    requires InBudget(max, c)
    decreases Budget(max, ph, c), Rank(ph)
  {
    if ph.Over? then 0
    else
      var (ph1, c1) := Step(max, fate, ph, c);
      PanicsNow(ph1) + RunPanics(max, fate, ph1, c1)
  }

  lemma {:induction false} RunPanicsCounts(max: nat, fate: Oracle, ph: Phase, c: Core)
    requires InBudget(max, c)
    ensures var r := Run(max, fate, ph, c);
            |c.trace| <= |r.trace| && Panicked(fate, r.trace, |c.trace|, |r.trace|) == RunPanics(max, fate, ph, c)
    decreases Budget(max, ph, c), Rank(ph)
  {
    if !ph.Over? {
      var (ph1, c1) := Step(max, fate, ph, c);
      var r := Run(max, fate, ph1, c1);
      StepPanics(max, fate, ph, c);
      RunPanicsCounts(max, fate, ph1, c1);
      RunAppends(max, fate, ph1, c1);
      PanickedPrefix(fate, c1.trace, r.trace, |c.trace|, |c1.trace|);
      PanickedSplit(fate, r.trace, |c.trace|, |c1.trace|, |r.trace|);
    }
  }

  // This step finds the budget empty.
  predicate ExhaustsNow(max: nat, ph: Phase, c: Core) { ph.Crashed? && ph.why != InternalError && c.restarts == max }

  // The run ends because the budget ran out.
  predicate Exhausts(max: nat, fate: Oracle, ph: Phase, c: Core)
    requires InBudget(max, c)
    decreases Budget(max, ph, c), Rank(ph)
  {
    !ph.Over?
    && (ExhaustsNow(max, ph, c)
        || var (ph1, c1) := Step(max, fate, ph, c); Exhausts(max, fate, ph1, c1))
  }

  lemma {:induction false} RestartsAccount(max: nat, fate: Oracle, ph: Phase, c: Core)
    requires InBudget(max, c) && (ph.Crashed? ==> ph.why != Fine)
    ensures var r := Run(max, fate, ph, c); var x := Exhausts(max, fate, ph, c);
            && r.restarts - c.restarts + (if x then 1 else 0) == PanicsNow(ph) + RunPanics(max, fate, ph, c)
            && c.restarts <= r.restarts <= max && (x ==> r.restarts == max)
    decreases Budget(max, ph, c), Rank(ph)
  {
    if !ph.Over? {
      var (ph1, c1) := Step(max, fate, ph, c);
      RestartsAccount(max, fate, ph1, c1);
    }
  }

  // What exhaustion looks like in the trace.
  lemma {:induction false} ExhaustsEnds(max: nat, fate: Oracle, ph: Phase, c: Core)
    requires InBudget(max, c)
    ensures var d := Events(max, fate, ph, c);
            if Exhausts(max, fate, ph, c) then EndsWith(d, EXHAUSTED) else Broadcast(MaxRestartsExceededEvent) !in d
    decreases Budget(max, ph, c), Rank(ph)
  {
    if !ph.Over? {
      var (ph1, c1) := Step(max, fate, ph, c);
      var d := Delta(max, fate, ph, c);
      if ExhaustsNow(max, ph, c) {
        assert ph1.Over? && d == EXHAUSTED && d + [] == d;
      } else {
        ExhaustsEnds(max, fate, ph1, c1);
        if Exhausts(max, fate, ph1, c1) { EndsAppend(d, Events(max, fate, ph1, c1), EXHAUSTED); }
      }
    }
  }

  /** Every panic is paid for by exactly one restart, except the one that finds
      the budget empty and ends the run; InternalError panics are free. So the
      restarts never exceed the maximum, and the budget runs out if and only if
      there is one panic more than there are restarts left. */
  lemma {:induction false} PanicsArePaid(max: nat, fate: Oracle, msgs: seq<Msg>, c: Core)
    requires InBudget(max, c)
    ensures var r := Run(max, fate, Working(msgs), c);
            && |c.trace| <= |r.trace|
            && c.restarts <= r.restarts <= max
            && var panics := Panicked(fate, r.trace, |c.trace|, |r.trace|);
            && (EndsWith(Events(max, fate, Working(msgs), c), EXHAUSTED) <==> panics > max - c.restarts)
            && panics == r.restarts - c.restarts + if panics > max - c.restarts then 1 else 0
  {
    RunPanicsCounts(max, fate, Working(msgs), c);
    RestartsAccount(max, fate, Working(msgs), c);
    ExhaustsEnds(max, fate, Working(msgs), c);
    var d := Events(max, fate, Working(msgs), c);
    if EndsWith(d, EXHAUSTED) {
      assert d[|d| - |EXHAUSTED|] == EXHAUSTED[0];
    }
  }

  /** A batch that panics no more often than there are restarts left is shown
      completely, each message once and in order, however the restarts nest. */
  lemma {:induction false} WithinBudgetExactlyOnce(max: nat, fate: Oracle, msgs: seq<Msg>, c: Core)
    requires PillFree(msgs) && InBudget(max, c)
    requires var r := Run(max, fate, Working(msgs), c);
             |c.trace| <= |r.trace| && Panicked(fate, r.trace, |c.trace|, |r.trace|) <= max - c.restarts
    ensures Shown(Run(max, fate, Working(msgs), c).trace) == Shown(c.trace) + Ids(msgs)
  {
    PanicsArePaid(max, fate, msgs, c);
    var n := ShowsPrefix(max, fate, Working(msgs), c);
    EventsShow(max, fate, Working(msgs), c);
    RunAppends(max, fate, Working(msgs), c);
    ShownAppend(c.trace, Events(max, fate, Working(msgs), c));
    assert msgs[..|msgs|] == msgs;
  }
}
