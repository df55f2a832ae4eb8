/** The lifecycle of a supervised process, panics included. */
module SupervisionLife {
  import opened Options
  import opened Supervision
  import opened SupervisionTheorems

  // ---- the lifecycle automaton ----

  // What cleanup does, in this order, once it has left its parent.
  datatype Duty = Children | Inbox | Registry | Goodbye | Notice | Cancel

  /** Where a process is in its life; every stage admits only what comes next.
      Out       - between incarnations: Initialized
      Greeted   - Initialized went well: its notice
      Inited    - Started
      Welcomed  - Started went well: its notice
      Live      - a message, or a pill's cleanup
      Broken    - the receiver has just panicked: Stopped, or the end of the budget;
                  after an InternalError, Initialized again
      Ousted    - Stopped was shown after a panic: the notice of a restart
      Exhausted - the budget is used up: cleanup
      Closing   - in cleanup, of a pill or of an exhausted process: its next duty
      Ended     - nothing but the inbox being started by pending calls of Start */
  datatype Stage =
    | Out
    | Greeted
    | Inited
    | Welcomed
    | Live
    | Broken(why: Fate)
    | Ousted
    | Exhausted
    | Closing(pill: bool, duty: Duty)
    | Ended

  // The stage, the InternalErrors still to come, and the restarts so far.
  datatype Life = Life(stage: Stage, internals: nat, restarts: nat)

  // The receiver was called with everything up to t, and moves on to next unless it panics.
  function Called(fate: Oracle, l: Life, t: seq<Event>, next: Stage): Life {
    match fate(t)
    case Fine => l.(stage := next)
    case Panics => l.(stage := Broken(Panics))
    case InternalError =>
      if l.internals > 0 then l.(stage := Broken(InternalError), internals := l.internals - 1) else l.(stage := next)
  }

  // A step of the life that needs a certain stage.
  function If(cond: bool, l: Life): Option<Life> { if cond then Some(l) else None }

  /** What the last event of t makes of a life, or None if it may not happen then.
      A message is shown only to a live receiver. After a panic the next letter is
      Stopped, and after an InternalError it is Initialized. A Stopped without a
      panic right before it belongs to a cleanup. Cleanup leaves the parent,
      poisons the children, stops the inbox, leaves the registry, shows Stopped and
      says so, each once and in this order; a pill's cancel comes last. */
  function Advance(fate: Oracle, l: Life, t: seq<Event>): Option<Life>
    requires t != []
  {
    match t[|t| - 1]
    case Received(letter) => AdvanceLetter(fate, l, t, letter)
    case Broadcast(notice) => AdvanceNotice(l, notice)
    case LeftParent =>
      if l.stage.Live? then Some(l.(stage := Closing(true, Children)))
      else If(l.stage.Exhausted?, l.(stage := Closing(false, Children)))
    case PoisonedChildren => Does(l, Children, Inbox)
    case InboxStopped => Does(l, Inbox, Registry)
    case Unregistered => Does(l, Registry, Goodbye)
    case Cancelled(_) => If(l.stage == Closing(true, Cancel), l.(stage := Ended))
    case InboxStarted => If(l.stage.Live? || l.stage.Ended?, l)
  }

  // A duty of cleanup is done, and the next one is due.
  function Does(l: Life, duty: Duty, next: Duty): Option<Life> {
    if l.stage.Closing? && l.stage.duty == duty then Some(l.(stage := Closing(l.stage.pill, next))) else None
  }

  function AdvanceLetter(fate: Oracle, l: Life, t: seq<Event>, letter: Letter): Option<Life> {
    match letter
    case Initialized => If(l.stage.Out? || l.stage == Broken(InternalError), Called(fate, l, t, Greeted))
    case Started => If(l.stage.Inited?, Called(fate, l, t, Welcomed))
    case Message(_) => If(l.stage.Live?, Called(fate, l, t, Live))
    case Stopped => if l.stage == Broken(Panics) then Some(l.(stage := Ousted)) else Does(l, Goodbye, Notice)
  }

  function AdvanceNotice(l: Life, notice: Notice): Option<Life> {
    match notice
    case InitializedEvent => If(l.stage.Greeted?, l.(stage := Inited))
    case StartedEvent => If(l.stage.Welcomed?, l.(stage := Live))
    case RestartedEvent(n) => If(l.stage.Ousted? && n == l.restarts + 1, l.(stage := Out, restarts := n))
    case MaxRestartsExceededEvent => If(l.stage == Broken(Panics), l.(stage := Exhausted))
    case StoppedEvent =>
      if l.stage == Closing(false, Notice) then Some(l.(stage := Ended)) else Does(l, Notice, Cancel)
  }

  // A process's life so far, from its trace.
  function LifeOf(fate: Oracle, internals: nat, t: seq<Event>): Option<Life> {
    if t == [] then Some(Life(Out, internals, 0))
    else
      var l := LifeOf(fate, internals, t[..|t| - 1]);
      if l.None? then None else Advance(fate, l.value, t)
  }

  lemma {:induction false} LifeSnoc(fate: Oracle, n: nat, t: seq<Event>, e: Event)
    requires LifeOf(fate, n, t).Some?
    ensures LifeOf(fate, n, t + [e]) == Advance(fate, LifeOf(fate, n, t).value, t + [e])
  {
    assert (t + [e])[..|t|] == t;
  }

  // The calls of Start that are pending start the inbox, of a live process or an ended one.
  lemma {:induction false} LifeUnwinds(fate: Oracle, n: nat, t: seq<Event>, k: nat)
    requires LifeOf(fate, n, t).Some? && var l := LifeOf(fate, n, t).value; l.stage.Live? || l.stage.Ended?
    ensures LifeOf(fate, n, t + seq(k, _ => InboxStarted)) == LifeOf(fate, n, t)
  {
    if k == 0 {
      assert t + seq(0, _ => InboxStarted) == t;
    } else {
      var d := seq(k - 1, _ => InboxStarted);
      LifeUnwinds(fate, n, t, k - 1);
      LifeSnoc(fate, n, t + d, InboxStarted);
      assert t + d + [InboxStarted] == t + seq(k, _ => InboxStarted);
    }
  }

  // The first half of cleanup, and the second.
  lemma {:induction false} LifeLeaves(fate: Oracle, n: nat, t: seq<Event>, l: Life, pill: bool)
    requires LifeOf(fate, n, t) == Some(l) && l.stage == if pill then Live else Exhausted
    ensures LifeOf(fate, n, t + [LeftParent] + [PoisonedChildren] + [InboxStopped] + [Unregistered])
            == Some(l.(stage := Closing(pill, Goodbye)))
  {
    LifeSnoc(fate, n, t, LeftParent);
    LifeSnoc(fate, n, t + [LeftParent], PoisonedChildren);
    LifeSnoc(fate, n, t + [LeftParent] + [PoisonedChildren], InboxStopped);
    LifeSnoc(fate, n, t + [LeftParent] + [PoisonedChildren] + [InboxStopped], Unregistered);
  }

  lemma {:induction false} LifeCloses(fate: Oracle, n: nat, t: seq<Event>, l: Life, pill: bool)
    requires LifeOf(fate, n, t) == Some(l) && l.stage == Closing(pill, Goodbye)
    ensures LifeOf(fate, n, t + [Received(Stopped)] + [Broadcast(StoppedEvent)])
            == Some(l.(stage := if pill then Closing(true, Cancel) else Ended))
  {
    LifeSnoc(fate, n, t, Received(Stopped));
    LifeSnoc(fate, n, t + [Received(Stopped)], Broadcast(StoppedEvent));
  }

  // cleanup closes the life.
  lemma {:induction false} LifeOfCleanup(fate: Oracle, n: nat, t: seq<Event>, l: Life, cancel: Option<int>)
    requires LifeOf(fate, n, t) == Some(l) && l.stage == if cancel.Some? then Live else Exhausted
    ensures LifeOf(fate, n, t + Farewell(cancel)) == Some(l.(stage := Ended))
  {
    var t1 := t + [LeftParent] + [PoisonedChildren] + [InboxStopped] + [Unregistered];
    var t2 := t1 + [Received(Stopped)] + [Broadcast(StoppedEvent)];
    LifeLeaves(fate, n, t, l, cancel.Some?);
    LifeCloses(fate, n, t1, l.(stage := Closing(cancel.Some?, Goodbye)), cancel.Some?);
    if cancel.Some? {
      LifeSnoc(fate, n, t2, Cancelled(cancel.value));
      assert t2 + [Cancelled(cancel.value)] == t + Farewell(cancel);
    } else {
      assert t2 == t + Farewell(cancel);
    }
  }

  // ---- every step, every run ----

  // The stage each phase belongs to.
  predicate At(ph: Phase, stage: Stage) {
    if ph.Booting? then stage.Out? || stage == Broken(InternalError)
    else if ph.Booted? then stage.Inited?
    else if ph.Working? || ph.Draining? then stage.Live?
    else if ph.Crashed? then stage == Broken(ph.why) && ph.why != Fine
    else stage.Live? || stage.Ended?
  }

  // The process has been cleaned up.
  predicate Dead(c: Core) { Unregistered in c.trace }

  // The trace is a life that fits the phase; it is over exactly if there was a cleanup.
  predicate Lives(fate: Oracle, n: nat, ph: Phase, c: Core) {
    var l := LifeOf(fate, n, c.trace);
    && l.Some? && l.value.internals == c.internals && l.value.restarts == c.restarts
    && At(ph, l.value.stage) && (Dead(c) <==> l.value.stage.Ended?)
  }

  // The receiver is called.
  lemma {:induction false} LifePresents(fate: Oracle, n: nat, c: Core, letter: Letter, l: Life, next: Stage)
    requires LifeOf(fate, n, c.trace) == Some(l) && l.internals == c.internals
    requires Advance(fate, l, c.trace + [Received(letter)]) == Some(Called(fate, l, c.trace + [Received(letter)], next))
    ensures var (c1, f) := Present(fate, c, letter);
            LifeOf(fate, n, c1.trace) == Some(Life(if f == Fine then next else Broken(f), c1.internals, l.restarts))
  {
    LifeSnoc(fate, n, c.trace, Received(letter));
  }

  lemma {:induction false} LifeSays(fate: Oracle, n: nat, t: seq<Event>, l: Life, notice: Notice, next: Stage)
    requires LifeOf(fate, n, t) == Some(l) && AdvanceNotice(l, notice) == Some(l.(stage := next))
    ensures LifeOf(fate, n, t + [Broadcast(notice)]) == Some(l.(stage := next))
  {
    LifeSnoc(fate, n, t, Broadcast(notice));
  }

  // It is, and says so if it does not panic.
  lemma {:induction false} LifeGoesOn(
    fate: Oracle, n: nat, c: Core, letter: Letter, next: Stage, notice: Notice, last: Stage)
    requires LifeOf(fate, n, c.trace).Some? && LifeOf(fate, n, c.trace).value.internals == c.internals
    requires LifeOf(fate, n, c.trace).value.restarts == c.restarts && !Dead(c)
    requires var l, t := LifeOf(fate, n, c.trace).value, c.trace + [Received(letter)];
             Advance(fate, l, t) == Some(Called(fate, l, t, next))
    requires forall l: Life :: l.stage == next ==> AdvanceNotice(l, notice) == Some(l.(stage := last))
    ensures var (c1, f) := Present(fate, c, letter); var t := c1.trace + [Broadcast(notice)];
            if f == Fine then LifeOf(fate, n, t) == Some(Life(last, c1.internals, c1.restarts)) && Unregistered !in t
            else LifeOf(fate, n, c1.trace) == Some(Life(Broken(f), c1.internals, c1.restarts)) && !Dead(c1)
  {
    var l := LifeOf(fate, n, c.trace).value;
    LifePresents(fate, n, c, letter, l, next);
    var (c1, f) := Present(fate, c, letter);
    if f == Fine { LifeSays(fate, n, c1.trace, Life(next, c1.internals, l.restarts), notice, last); }
  }

  lemma {:induction false} BootLife(max: nat, fate: Oracle, n: nat, ph: Phase, c: Core)
    requires ph.Booting? && Lives(fate, n, ph, c)
    ensures var (ph1, c1) := Step(max, fate, ph, c); Lives(fate, n, ph1, c1)
  {
    LifeGoesOn(fate, n, c, Initialized, Greeted, InitializedEvent, Inited);
  }

  lemma {:induction false} StartLife(max: nat, fate: Oracle, n: nat, ph: Phase, c: Core)
    requires ph.Booted? && Lives(fate, n, ph, c)
    ensures var (ph1, c1) := Step(max, fate, ph, c); Lives(fate, n, ph1, c1)
  {
    LifeGoesOn(fate, n, c, Started, Welcomed, StartedEvent, Live);
  }

  lemma {:induction false} ShowLife(fate: Oracle, n: nat, c: Core, id: int)
    requires Lives(fate, n, Working([]), c)
    ensures var (c1, f) := Present(fate, c, Message(id));
            && !Dead(c1)
            && LifeOf(fate, n, c1.trace) == Some(Life(if f == Fine then Live else Broken(f), c1.internals, c1.restarts))
  {
    LifePresents(fate, n, c, Message(id), LifeOf(fate, n, c.trace).value, Live);
  }

  lemma {:induction false} PillLife(fate: Oracle, n: nat, c: Core, cancel: int)
    requires Lives(fate, n, Working([]), c)
    ensures Lives(fate, n, Over, Emit(c, CleanupEvents(Some(cancel))))
  {
    CleanupIsFarewell(Some(cancel));
    LifeOfCleanup(fate, n, c.trace, LifeOf(fate, n, c.trace).value, Some(cancel));
    assert Farewell(Some(cancel))[3] == Unregistered;
  }

  lemma {:induction false} ExhaustLife(fate: Oracle, n: nat, ph: Phase, c: Core)
    requires ph.Crashed? && ph.why == Panics && Lives(fate, n, ph, c)
    ensures Lives(fate, n, Over, Emit(c, [Broadcast(MaxRestartsExceededEvent)] + CleanupEvents(None)))
  {
    CleanupIsFarewell(None);
    var l, t := LifeOf(fate, n, c.trace).value, c.trace + [Broadcast(MaxRestartsExceededEvent)];
    LifeSays(fate, n, c.trace, l, MaxRestartsExceededEvent, Exhausted);
    LifeOfCleanup(fate, n, t, l.(stage := Exhausted), None);
    assert t + Farewell(None) == c.trace + EXHAUSTED;
    assert EXHAUSTED[4] == Unregistered;
  }

  lemma {:induction false} RestartLife(fate: Oracle, n: nat, ph: Phase, c: Core)
    requires ph.Crashed? && ph.why == Panics && Lives(fate, n, ph, c)
    ensures Lives(fate, n, Booting([]), Emit(c, [Received(Stopped), Broadcast(RestartedEvent(c.restarts + 1))])
                                          .(restarts := c.restarts + 1))
  {
    var t := c.trace + [Received(Stopped)];
    LifeSnoc(fate, n, c.trace, Received(Stopped));
    LifeSnoc(fate, n, t, Broadcast(RestartedEvent(c.restarts + 1)));
    assert t + [Broadcast(RestartedEvent(c.restarts + 1))]
           == c.trace + [Received(Stopped), Broadcast(RestartedEvent(c.restarts + 1))];
  }

  lemma {:induction false} CrashLife(max: nat, fate: Oracle, n: nat, ph: Phase, c: Core)
    requires ph.Crashed? && Lives(fate, n, ph, c)
    ensures var (ph1, c1) := Step(max, fate, ph, c); Lives(fate, n, ph1, c1)
  {
    if ph.why == Panics {
      if c.restarts == max { ExhaustLife(fate, n, ph, c); } else { RestartLife(fate, n, ph, c); }
    }
  }

  lemma {:induction false} WorkLife(max: nat, fate: Oracle, n: nat, ph: Phase, c: Core)
    requires ph.Working? && Lives(fate, n, ph, c)
    ensures var (ph1, c1) := Step(max, fate, ph, c); Lives(fate, n, ph1, c1)
  {
    if ph.todo != [] {
      var c0 := c.(mcount := |ph.todo| - 1);
      if ph.todo[0].User? {
        ShowLife(fate, n, c0, ph.todo[0].id);
      } else if !ph.todo[0].graceful {
        PillLife(fate, n, c0, ph.todo[0].cancel);
      }
    }
  }

  lemma {:induction false} DrainLife(max: nat, fate: Oracle, n: nat, ph: Phase, c: Core)
    requires ph.Draining? && Lives(fate, n, ph, c)
    ensures var (ph1, c1) := Step(max, fate, ph, c); Lives(fate, n, ph1, c1)
  {
    if ph.drain == [] {
      PillLife(fate, n, c, ph.cancel);
    } else if ph.drain[0].User? {
      ShowLife(fate, n, c, ph.drain[0].id);
    }
  }

  lemma {:induction false} StepLife(max: nat, fate: Oracle, n: nat, ph: Phase, c: Core)
    requires !ph.Over? && Lives(fate, n, ph, c)
    ensures var (ph1, c1) := Step(max, fate, ph, c); Lives(fate, n, ph1, c1)
  {
    if ph.Booting? {
      BootLife(max, fate, n, ph, c);
    } else if ph.Booted? {
      StartLife(max, fate, n, ph, c);
    } else if ph.Crashed? {
      CrashLife(max, fate, n, ph, c);
    } else if ph.Working? {
      WorkLife(max, fate, n, ph, c);
    } else {
      DrainLife(max, fate, n, ph, c);
    }
  }

  ghost predicate Sealed(seal: Seal, fate: Oracle, n: nat, ph: Phase, c: Core) { Lives(fate, n, ph, c) }

  ghost predicate Living(fate: Oracle, n: nat, ph: Phase, c: Core) { forall seal: Seal :: Sealed(seal, fate, n, ph, c) }

  lemma {:induction false} StepLiving(max: nat, fate: Oracle, n: nat, ph: Phase, c: Core)
    requires !ph.Over? && Living(fate, n, ph, c)
    ensures var (ph1, c1) := Step(max, fate, ph, c); Living(fate, n, ph1, c1)
  {
    assert Sealed(Seal, fate, n, ph, c);
    StepLife(max, fate, n, ph, c);
  }

  lemma {:induction false} RunLiving(max: nat, fate: Oracle, n: nat, ph: Phase, c: Core)
    requires InBudget(max, c) && Living(fate, n, ph, c)
    ensures Living(fate, n, Over, Run(max, fate, ph, c))
    decreases Budget(max, ph, c), Rank(ph)
  {
    if !ph.Over? {
      var (ph1, c1) := Step(max, fate, ph, c);
      StepLiving(max, fate, n, ph, c);
      RunLiving(max, fate, n, ph1, c1);
    }
  }

  lemma {:induction false} RunLife(max: nat, fate: Oracle, n: nat, ph: Phase, c: Core)
    requires InBudget(max, c) && Lives(fate, n, ph, c)
    ensures Lives(fate, n, Over, Run(max, fate, ph, c))
  {
    RunLiving(max, fate, n, ph, c);
    assert Sealed(Seal, fate, n, Over, Run(max, fate, ph, c));
  }

  // A process from its first Start through the given batches, up to its first cleanup.
  function Serve(max: nat, fate: Oracle, internals: nat, batches: seq<seq<Msg>>): (c: Core)
    ensures InBudget(max, c) && c.frames == 0
  {
    if batches == [] then
      RestartsKept(max, fate, Booting([]), Core(0, internals, 0, [], 0));
      Unwind(Run(max, fate, Booting([]), Core(0, internals, 0, [], 0)))
    else
      var b := batches[|batches| - 1];
      var c := Serve(max, fate, internals, batches[..|batches| - 1]);
      if Dead(c) then c
      else
        RestartsKept(max, fate, Working(b), c.(mcount := |b|));
        Unwind(Run(max, fate, Working(b), c.(mcount := |b|)))
  }

  lemma {:induction false} RestartsKept(max: nat, fate: Oracle, ph: Phase, c: Core)
    requires InBudget(max, c) && !ph.Crashed?
    ensures InBudget(max, Run(max, fate, ph, c))
  {
    RestartsAccount(max, fate, ph, c);
  }

  lemma {:induction false} UnwindLife(fate: Oracle, n: nat, c: Core)
    requires Lives(fate, n, Over, c)
    ensures Lives(fate, n, Over, Unwind(c))
  {
    LifeUnwinds(fate, n, c.trace, c.frames);
  }

  /** The lifecycle grammar: from its first Start, through any batches and any
      panics, up to and including its first cleanup, the trace of a process is a
      life: incarnations Initialized, Started, messages, each closed by a Stopped
      that follows a panic or by a cleanup, and cut short by nothing else. It has
      used up exactly the InternalErrors and the restarts it met; it is live, or it
      was cleaned up, completely and once. */
  lemma {:induction false} LifecycleGrammar(max: nat, fate: Oracle, internals: nat, batches: seq<seq<Msg>>)
    ensures var c := Serve(max, fate, internals, batches);
            && LifeOf(fate, internals, c.trace) == Some(Life(if Dead(c) then Ended else Live, c.internals, c.restarts))
            && c.restarts <= max
  {
    if batches == [] {
      var c0 := Core(0, internals, 0, [], 0);
      RunLife(max, fate, internals, Booting([]), c0);
      UnwindLife(fate, internals, Run(max, fate, Booting([]), c0));
    } else {
      var b := batches[|batches| - 1];
      LifecycleGrammar(max, fate, internals, batches[..|batches| - 1]);
      var c := Serve(max, fate, internals, batches[..|batches| - 1]);
      if !Dead(c) {
        RunLife(max, fate, internals, Working(b), c.(mcount := |b|));
        UnwindLife(fate, internals, Run(max, fate, Working(b), c.(mcount := |b|)));
      }
    }
  }
}
