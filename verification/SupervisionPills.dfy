/** Poison pills in a batch, however many and of whichever kind. */
module SupervisionPills {
  import opened Options
  import opened Supervision
  import opened SupervisionTheorems
  import opened SupervisionStop

  // ---- what a batch holds ----

  // The IDs of the user messages, in order.
  function Users(msgs: seq<Msg>): seq<int> {
    if msgs == [] then [] else (if msgs[0].User? then [msgs[0].id] else []) + Users(msgs[1..])
  }

  function PillsOf(msgs: seq<Msg>): (ps: seq<Msg>)
    ensures forall i :: 0 <= i < |ps| ==> ps[i].Pill?
  {
    if msgs == [] then [] else (if msgs[0].Pill? then [msgs[0]] else []) + PillsOf(msgs[1..])
  }

  // The position of the first pill, or the length of the batch.
  function FirstPill(msgs: seq<Msg>): (i: nat)
    ensures i <= |msgs| && PillFree(msgs[..i]) && (i < |msgs| ==> msgs[i].Pill?)
  {
    if msgs == [] || msgs[0].Pill? then 0
    else
      var i := FirstPill(msgs[1..]);
      assert msgs[..i + 1] == [msgs[0]] + msgs[1..][..i];
      i + 1
  }

  // b goes on from a without calling any cancel function.
  predicate Uncancelled(a: seq<Event>, b: seq<Event>) { a <= b && forall i :: |a| <= i < |b| ==> !b[i].Cancelled? }

  lemma {:induction false} UncancelledThen(a: seq<Event>, b: seq<Event>, c: seq<Event>)
    requires Uncancelled(a, b) && Uncancelled(b, c)
    ensures Uncancelled(a, c)
  {
  }

  // ---- up to the first pill ----

  // A phase that is about to take a batch, or to take it again.
  predicate Serving(ph: Phase) { !ph.Over? && !ph.Draining? }

  // One step of it, unless it is at the pill.
  lemma {:induction false} ServingStep(max: nat, fate: Oracle, ph: Phase, c: Core)
    requires Serving(ph) && InBudget(max, c) && (ph.Working? ==> ph.todo != [] && ph.todo[0].User?)
    ensures var (ph1, c1) := Step(max, fate, ph, c);
            && InBudget(max, c1)
            && (ph1.Over? ==> ph.Crashed? && c1.trace == c.trace + EXHAUSTED)
            && (!ph1.Over? ==> Serving(ph1) && ph1.todo == if ph.Working? then ph.todo[1..] else ph.todo)
            && (forall i :: 0 <= i < |Delta(max, fate, ph, c)| ==> !Delta(max, fate, ph, c)[i].Cancelled?)
  {
  }

  lemma {:induction false} ServingShows(max: nat, fate: Oracle, ph: Phase, c: Core)
    requires Serving(ph) && InBudget(max, c) && (ph.Working? ==> ph.todo != [] && ph.todo[0].User?)
    ensures var (_, c1) := Step(max, fate, ph, c);
            Shown(c1.trace) == Shown(c.trace) + Shows(ph) && Uncancelled(c.trace, c1.trace)
  {
    ServingStep(max, fate, ph, c);
    StepDelta(max, fate, ph, c);
    DeltaShows(max, fate, ph, c);
    ShownAppend(c.trace, Delta(max, fate, ph, c));
  }

  // What the first n of pre add to what was shown.
  predicate ShownFirst(a: seq<Event>, b: seq<Event>, pre: seq<Msg>, n: nat) {
    n <= |pre| && PillFree(pre) && Shown(b) == Shown(a) + Ids(pre[..n]) && Uncancelled(a, b)
  }

  lemma {:induction false} ShownMore(a: seq<Event>, b: seq<Event>, c: seq<Event>, pre: seq<Msg>, n: nat)
    requires pre != [] && PillFree(pre) && n < |pre|
    requires Shown(b) == Shown(a) + [pre[0].id] && Uncancelled(a, b) && ShownFirst(b, c, pre[1..], n)
    ensures ShownFirst(a, c, pre, n + 1)
  {
    IdsCons(pre, n);
    UncancelledThen(a, b, c);
  }

  lemma {:induction false} ShownSame(a: seq<Event>, b: seq<Event>, c: seq<Event>, pre: seq<Msg>, n: nat)
    requires Shown(b) == Shown(a) && Uncancelled(a, b) && ShownFirst(b, c, pre, n)
    ensures ShownFirst(a, c, pre, n)
  {
    UncancelledThen(a, b, c);
  }

  lemma {:induction false} ExhaustedHere(a: seq<Event>, b: seq<Event>, pre: seq<Msg>)
    requires PillFree(pre) && b == a + EXHAUSTED && Shown(b) == Shown(a) && Uncancelled(a, b)
    ensures ShownFirst(a, b, pre, 0) && EndsWith(b, EXHAUSTED)
  {
    assert b[|b| - |EXHAUSTED|..] == EXHAUSTED;
  }

  // How the part of a batch before a pill ends: at the pill, or with the budget used up after n messages.
  datatype Arrival = AtPill(at: Core) | WornOut(n: nat)

  ghost predicate Arrives(
    seal: Seal, max: nat, fate: Oracle, ph: Phase, c: Core, pre: seq<Msg>, rest: seq<Msg>, o: Arrival)
    requires InBudget(max, c)
  {
    var r := Run(max, fate, ph, c);
    match o
    case AtPill(at) =>
      InBudget(max, at) && r == Run(max, fate, Working(rest), at) && ShownFirst(c.trace, at.trace, pre, |pre|)
    case WornOut(n) => ShownFirst(c.trace, r.trace, pre, n) && EndsWith(r.trace, EXHAUSTED)
  }

  ghost predicate Ends(max: nat, fate: Oracle, ph: Phase, c: Core, pre: seq<Msg>, rest: seq<Msg>, o: Arrival)
    requires InBudget(max, c)
  {
    forall seal: Seal :: Arrives(seal, max, fate, ph, c, pre, rest, o)
  }

  lemma {:induction false} EndsHere(max: nat, fate: Oracle, ph: Phase, c: Core, rest: seq<Msg>)
    requires InBudget(max, c) && ph == Working(rest)
    ensures Ends(max, fate, ph, c, [], rest, AtPill(c))
  {
  }

  lemma {:induction false} EndsWorn(max: nat, fate: Oracle, ph: Phase, c: Core, pre: seq<Msg>, rest: seq<Msg>)
    requires InBudget(max, c) && Serving(ph) && !ph.Working? && PillFree(pre) && Step(max, fate, ph, c).0.Over?
    ensures Ends(max, fate, ph, c, pre, rest, WornOut(0))
  {
    var (ph1, c1) := Step(max, fate, ph, c);
    ServingStep(max, fate, ph, c);
    ServingShows(max, fate, ph, c);
    ExhaustedHere(c.trace, c1.trace, pre);
    assert Run(max, fate, ph, c) == c1;
  }

  // A step that shows nothing.
  lemma {:induction false} EndsSame(max: nat, fate: Oracle, ph: Phase, c: Core, ph1: Phase, c1: Core,
                                    pre: seq<Msg>, rest: seq<Msg>, o: Arrival)
    requires InBudget(max, c) && InBudget(max, c1) && Run(max, fate, ph, c) == Run(max, fate, ph1, c1)
    requires Shown(c1.trace) == Shown(c.trace) && Uncancelled(c.trace, c1.trace)
    requires Ends(max, fate, ph1, c1, pre, rest, o)
    ensures Ends(max, fate, ph, c, pre, rest, o)
  {
    assert Arrives(Seal, max, fate, ph1, c1, pre, rest, o);
    if o.AtPill? {
      ShownSame(c.trace, c1.trace, o.at.trace, pre, |pre|);
    } else {
      ShownSame(c.trace, c1.trace, Run(max, fate, ph, c).trace, pre, o.n);
    }
  }

  // A step that shows the next message.
  lemma {:induction false} EndsMore(max: nat, fate: Oracle, ph: Phase, c: Core, ph1: Phase, c1: Core,
                                    pre: seq<Msg>, rest: seq<Msg>, o: Arrival)
    requires InBudget(max, c) && InBudget(max, c1) && Run(max, fate, ph, c) == Run(max, fate, ph1, c1)
    requires pre != [] && PillFree(pre) && Shown(c1.trace) == Shown(c.trace) + [pre[0].id]
    requires Uncancelled(c.trace, c1.trace) && Ends(max, fate, ph1, c1, pre[1..], rest, o)
    ensures Ends(max, fate, ph, c, pre, rest, if o.AtPill? then o else WornOut(o.n + 1))
  {
    assert Arrives(Seal, max, fate, ph1, c1, pre[1..], rest, o);
    if o.AtPill? {
      ShownMore(c.trace, c1.trace, o.at.trace, pre, |pre| - 1);
    } else {
      ShownMore(c.trace, c1.trace, Run(max, fate, ph, c).trace, pre, o.n);
    }
  }

  /** A batch up to its first pill, or its end: shown once and in order however
      often it is replayed, or a prefix of it if the budget runs out. */
  lemma {:induction false} UpToPill(max: nat, fate: Oracle, ph: Phase, c: Core, pre: seq<Msg>, rest: seq<Msg>)
    returns (o: Arrival)
    requires InBudget(max, c) && Serving(ph) && ph.todo == pre + rest && PillFree(pre)
    ensures Ends(max, fate, ph, c, pre, rest, o)
    decreases Budget(max, ph, c), Rank(ph)
  {
    if ph.Working? && pre == [] {
      assert pre + rest == rest;
      EndsHere(max, fate, ph, c, rest);
      o := AtPill(c);
    } else {
      var (ph1, c1) := Step(max, fate, ph, c);
      ServingStep(max, fate, ph, c);
      ServingShows(max, fate, ph, c);
      if ph1.Over? {
        EndsWorn(max, fate, ph, c, pre, rest);
        o := WornOut(0);
      } else if ph.Working? {
        assert ph.todo[1..] == pre[1..] + rest;
        o := UpToPill(max, fate, ph1, c1, pre[1..], rest);
        EndsMore(max, fate, ph, c, ph1, c1, pre, rest, o);
        o := if o.AtPill? then o else WornOut(o.n + 1);
      } else {
        o := UpToPill(max, fate, ph1, c1, pre, rest);
        EndsSame(max, fate, ph, c, ph1, c1, pre, rest, o);
      }
    }
  }

  // ---- from a pill on ----

  // Showing the rest of a batch until the first panic.
  function DrainRun(fate: Oracle, drain: seq<Msg>, c: Core): (Core, Fate) {
    if drain == [] then (c, Fine)
    else if drain[0].Pill? then DrainRun(fate, drain[1..], c)
    else
      var (c1, f) := Present(fate, c, Message(drain[0].id));
      if f == Fine then DrainRun(fate, drain[1..], c1) else (c1, f)
  }

  lemma {:induction false} DrainBudget(fate: Oracle, drain: seq<Msg>, c: Core)
    ensures DrainRun(fate, drain, c).0.restarts == c.restarts && DrainRun(fate, drain, c).0.frames == c.frames
  {
    if drain != [] {
      if drain[0].Pill? {
        DrainBudget(fate, drain[1..], c);
      } else {
        DrainBudget(fate, drain[1..], Present(fate, c, Message(drain[0].id)).0);
      }
    }
  }

  lemma {:induction false} DrainingRuns(max: nat, fate: Oracle, drain: seq<Msg>, todo: seq<Msg>, cancel: int, c: Core)
    requires InBudget(max, c)
    ensures var (c1, f) := DrainRun(fate, drain, c);
            && InBudget(max, c1)
            && Run(max, fate, Draining(drain, todo, cancel), c)
               == if f == Fine then Emit(c1, Farewell(Some(cancel))) else Run(max, fate, Crashed(todo, f), c1)
    decreases |drain|
  {
    DrainBudget(fate, drain, c);
    if drain != [] {
      if drain[0].Pill? {
        DrainingRuns(max, fate, drain[1..], todo, cancel, c);
      } else {
        var (c1, f) := Present(fate, c, Message(drain[0].id));
        if f == Fine { DrainingRuns(max, fate, drain[1..], todo, cancel, c1); }
      }
    }
  }

  lemma {:induction false} PresentShows(fate: Oracle, c: Core, id: int)
    ensures var c1 := Present(fate, c, Message(id)).0;
            Shown(c1.trace) == Shown(c.trace) + [id] && Uncancelled(c.trace, c1.trace)
  {
    var e := [Received(Message(id))];
    ShownAppend(c.trace, e);
    assert Seen(e, 0) == [];
  }

  lemma {:induction false} OneMore(a: seq<Event>, b: seq<Event>, c: seq<Event>, id: int, us: seq<int>, k: nat)
    requires Shown(b) == Shown(a) + [id] && Uncancelled(a, b)
    requires k <= |us| && Shown(c) == Shown(b) + us[..k] && Uncancelled(b, c)
    ensures Shown(c) == Shown(a) + ([id] + us)[..k + 1] && Uncancelled(a, c)
  {
    assert ([id] + us)[..k + 1] == [id] + us[..k];
    UncancelledThen(a, b, c);
  }

  /** The drain shows a prefix of the user messages it is given, pills passed
      over, and all of them unless it meets a panic; it calls no cancel. */
  lemma {:induction false} DrainShows(fate: Oracle, drain: seq<Msg>, c: Core) returns (k: nat)
    ensures var (c1, f) := DrainRun(fate, drain, c);
            && k <= |Users(drain)| && Shown(c1.trace) == Shown(c.trace) + Users(drain)[..k]
               && Uncancelled(c.trace, c1.trace)
            && (f == Fine ==> k == |Users(drain)|) && (f != Fine ==> k > 0)
    decreases |drain|
  {
    if drain == [] {
      k := 0;
    } else if drain[0].Pill? {
      k := DrainShows(fate, drain[1..], c);
      assert Users(drain) == Users(drain[1..]);
    } else {
      var id, us := drain[0].id, Users(drain[1..]);
      var (c1, f) := Present(fate, c, Message(id));
      PresentShows(fate, c, id);
      k := 0;
      if f == Fine { k := DrainShows(fate, drain[1..], c1); }
      assert Users(drain) == [id] + us;
      OneMore(c.trace, c1.trace, if f == Fine then DrainRun(fate, drain[1..], c1).0.trace else c1.trace, id, us, k);
      k := k + 1;
    }
  }

  // What happens from a pill on, with the message count the source keeps.
  lemma {:induction false} PillRuns(max: nat, fate: Oracle, pill: Msg, post: seq<Msg>, c: Core)
    requires InBudget(max, c) && pill.Pill?
    ensures var c0 := c.(mcount := |post|); var (c1, f) := DrainRun(fate, post, c0);
            && InBudget(max, c1)
            && Run(max, fate, Working([pill] + post), c)
               == if !pill.graceful then Emit(c0, Farewell(Some(pill.cancel)))
                  else if f == Fine then Emit(c1, Farewell(Some(pill.cancel)))
                  else Run(max, fate, Crashed(post, f), c1)
  {
    assert ([pill] + post)[1..] == post;
    DrainBudget(fate, post, c.(mcount := |post|));
    if pill.graceful { DrainingRuns(max, fate, post, post, pill.cancel, c.(mcount := |post|)); }
  }

  // ---- a whole batch ----

  /** What became of a batch.
      Served   - there was no pill, or none left; all was shown
      Worn     - the budget ran out after n messages
      Halted   - a pill was taken in state at, and cleaned up
      Relapsed - a graceful pill was taken in state at, but its drain panicked
                 after k messages: the pill is lost, and the batch behind it is
                 taken from its beginning */
  datatype Tale = Served | Worn(n: nat) | Halted(at: Core) | Relapsed(at: Core, k: nat, next: Tale)

  // The tale is true of a batch that led from the events before to the events after.
  ghost predicate Tells(fate: Oracle, msgs: seq<Msg>, before: seq<Event>, tale: Tale, after: seq<Event>)
    decreases |msgs|
  {
    var i := FirstPill(msgs);
    var pre := msgs[..i];
    match tale
    case Served => i == |msgs| && ShownFirst(before, after, pre, i)
    case Worn(n) => ShownFirst(before, after, pre, n) && EndsWith(after, EXHAUSTED)
    case Halted(at) =>
      && i < |msgs| && ShownFirst(before, at.trace, pre, i)
      && HaltsAt(fate, msgs[i], msgs[i + 1..], at, after)
    case Relapsed(at, k, next) =>
      && i < |msgs| && msgs[i].graceful && ShownFirst(before, at.trace, pre, i)
      && RelapsesAt(fate, msgs[i + 1..], at, k)
      && Tells(fate, msgs[i + 1..], DrainRun(fate, msgs[i + 1..], at).0.trace, next, after)
  }

  // A graceful pill shows what is behind it first; the cancel function is its own.
  ghost predicate HaltsAt(fate: Oracle, pill: Msg, rest: seq<Msg>, at: Core, after: seq<Event>)
    requires pill.Pill?
  {
    if pill.graceful then
      var (c1, f) := DrainRun(fate, rest, at);
      && f == Fine && Shown(c1.trace) == Shown(at.trace) + Users(rest) && Uncancelled(at.trace, c1.trace)
      && after == c1.trace + Farewell(Some(pill.cancel))
    else after == at.trace + Farewell(Some(pill.cancel))
  }

  ghost predicate RelapsesAt(fate: Oracle, rest: seq<Msg>, at: Core, k: nat) {
    var (c1, f) := DrainRun(fate, rest, at);
    && f != Fine && 0 < k <= |Users(rest)|
    && Shown(c1.trace) == Shown(at.trace) + Users(rest)[..k] && Uncancelled(at.trace, c1.trace)
  }

  lemma {:induction false} AtFirstPill(max: nat, fate: Oracle, pill: Msg, post: seq<Msg>, c: Core) returns (k: nat)
    requires InBudget(max, c) && pill.Pill?
    ensures var at := c.(mcount := |post|); var (c1, f) := DrainRun(fate, post, at);
            var r := Run(max, fate, Working([pill] + post), c);
            && InBudget(max, c1)
            && if pill.graceful && f != Fine then RelapsesAt(fate, post, at, k)
               && r == Run(max, fate, Crashed(post, f), c1)
               else HaltsAt(fate, pill, post, at, r.trace)
  {
    PillRuns(max, fate, pill, post, c);
    k := DrainShows(fate, post, c.(mcount := |post|));
    assert Users(post)[..|Users(post)|] == Users(post);
  }

  /** Every batch has a true tale: any pills, graceful or not, and any panics. */
  lemma {:induction false} BatchTale(max: nat, fate: Oracle, ph: Phase, c: Core) returns (tale: Tale)
    requires InBudget(max, c) && Serving(ph)
    ensures Tells(fate, ph.todo, c.trace, tale, Run(max, fate, ph, c).trace)
    decreases |ph.todo|, 1
  {
    var msgs := ph.todo;
    var i := FirstPill(msgs);
    assert msgs == msgs[..i] + msgs[i..];
    var o := UpToPill(max, fate, ph, c, msgs[..i], msgs[i..]);
    assert Arrives(Seal, max, fate, ph, c, msgs[..i], msgs[i..], o);
    if o.WornOut? {
      tale := Worn(o.n);
    } else if i == |msgs| {
      assert msgs[i..] == [] && Run(max, fate, Working([]), o.at) == Run(max, fate, Over, o.at) == o.at;
      tale := Served;
    } else {
      tale := PillTale(max, fate, ph, c, o.at);
    }
  }

  lemma {:induction false} PillTale(max: nat, fate: Oracle, ph: Phase, c: Core, at: Core) returns (tale: Tale)
    requires InBudget(max, c) && Serving(ph) && FirstPill(ph.todo) < |ph.todo| && InBudget(max, at)
    requires var i := FirstPill(ph.todo);
             Run(max, fate, ph, c) == Run(max, fate, Working(ph.todo[i..]), at)
               && ShownFirst(c.trace, at.trace, ph.todo[..i], i)
    ensures Tells(fate, ph.todo, c.trace, tale, Run(max, fate, ph, c).trace)
    decreases |ph.todo|, 0
  {
    var i := FirstPill(ph.todo);
    var pill, post := ph.todo[i], ph.todo[i + 1..];
    assert ph.todo[i..] == [pill] + post;
    var at0 := at.(mcount := |post|);
    var k := AtFirstPill(max, fate, pill, post, at);
    var (c1, f) := DrainRun(fate, post, at0);
    if pill.graceful && f != Fine {
      var next := BatchTale(max, fate, Crashed(post, f), c1);
      tale := Relapsed(at0, k, next);
    } else {
      tale := Halted(at0);
    }
  }

  // ---- what the tale says ----

  // The messages shown.
  function Told(msgs: seq<Msg>, tale: Tale): seq<int>
    decreases |msgs|
  {
    var i := FirstPill(msgs);
    var pre := msgs[..i];
    if tale.Worn? then Ids(pre[..if tale.n < i then tale.n else i])
    else if tale.Served? || i == |msgs| then Ids(pre)
    else
      var us := Users(msgs[i + 1..]);
      if tale.Halted? then Ids(pre) + if msgs[i].graceful then us else []
      else Ids(pre) + us[..if tale.k < |us| then tale.k else |us|] + Told(msgs[i + 1..], tale.next)
  }

  // How many pills were lost to a panic in their drain.
  function Lost(tale: Tale): nat { if tale.Relapsed? then 1 + Lost(tale.next) else 0 }

  // The pill whose cancel function is called: the first one that was not lost, if it was reached.
  function Canceller(msgs: seq<Msg>, tale: Tale): Option<Msg>
    decreases |msgs|
  {
    var i := FirstPill(msgs);
    if i == |msgs| then None
    else if tale.Halted? then Some(msgs[i])
    else if tale.Relapsed? then Canceller(msgs[i + 1..], tale.next)
    else None
  }

  // From a to b, that pill's cancel function is called, as the last thing, and no other.
  predicate CancelsOnly(a: seq<Event>, b: seq<Event>, who: Option<Msg>) {
    if who.Some? && who.value.Pill? then
      b != [] && b[|b| - 1] == Cancelled(who.value.cancel) && Uncancelled(a, b[..|b| - 1])
    else Uncancelled(a, b)
  }

  lemma {:induction false} HaltShows(fate: Oracle, pill: Msg, rest: seq<Msg>, at: Core, after: seq<Event>)
    requires pill.Pill? && HaltsAt(fate, pill, rest, at, after)
    ensures Shown(after) == Shown(at.trace) + if pill.graceful then Users(rest) else []
    ensures CancelsOnly(at.trace, after, Some(pill))
  {
    var fin := Farewell(Some(pill.cancel));
    var t := if pill.graceful then DrainRun(fate, rest, at).0.trace else at.trace;
    ShownAppend(t, fin);
    NothingSeen(fin, |fin|);
    assert after == t + fin && after[..|after| - 1] == t + fin[..|fin| - 1];
  }

  lemma {:induction false} CancelsLater(a: seq<Event>, b: seq<Event>, c: seq<Event>, who: Option<Msg>)
    requires Uncancelled(a, b) && CancelsOnly(b, c, who)
    ensures CancelsOnly(a, c, who)
  {
    UncancelledThen(a, b, if who.Some? && who.value.Pill? then c[..|c| - 1] else c);
  }

  lemma {:induction false} ToldPlain(fate: Oracle, msgs: seq<Msg>, before: seq<Event>, tale: Tale, after: seq<Event>)
    requires Tells(fate, msgs, before, tale, after) && (tale.Served? || tale.Worn?)
    ensures Shown(after) == Shown(before) + Told(msgs, tale) && CancelsOnly(before, after, Canceller(msgs, tale))
  {
    var i := FirstPill(msgs);
    assert msgs[..i][..i] == msgs[..i];
  }

  lemma {:induction false} ToldThen(
    before: seq<Event>, at: seq<Event>, after: seq<Event>, pre: seq<Msg>, us: seq<int>, who: Option<Msg>)
    requires ShownFirst(before, at, pre, |pre|) && Shown(after) == Shown(at) + us && CancelsOnly(at, after, who)
    ensures Shown(after) == Shown(before) + (Ids(pre) + us) && CancelsOnly(before, after, who)
  {
    assert pre[..|pre|] == pre;
    CancelsLater(before, at, after, who);
  }

  lemma {:induction false} ToldHalted(fate: Oracle, msgs: seq<Msg>, before: seq<Event>, tale: Tale, after: seq<Event>)
    requires Tells(fate, msgs, before, tale, after) && tale.Halted?
    ensures Shown(after) == Shown(before) + Told(msgs, tale) && CancelsOnly(before, after, Canceller(msgs, tale))
  {
    var i := FirstPill(msgs);
    HaltShows(fate, msgs[i], msgs[i + 1..], tale.at, after);
    ToldThen(before, tale.at.trace, after, msgs[..i], if msgs[i].graceful then Users(msgs[i + 1..]) else [],
             Some(msgs[i]));
  }

  // mid is where the drain panicked, and the rest of the tale is told from there.
  lemma {:induction false} ToldAgain(before: seq<Event>, at: seq<Event>, mid: seq<Event>, after: seq<Event>,
                                     pre: seq<Msg>, us: seq<int>, more: seq<int>, who: Option<Msg>)
    requires ShownFirst(before, at, pre, |pre|) && Shown(mid) == Shown(at) + us && Uncancelled(at, mid)
    requires Shown(after) == Shown(mid) + more && CancelsOnly(mid, after, who)
    ensures Shown(after) == Shown(before) + (Ids(pre) + us + more) && CancelsOnly(before, after, who)
  {
    assert pre[..|pre|] == pre;
    UncancelledThen(before, at, mid);
    CancelsLater(before, mid, after, who);
    assert Shown(before) + Ids(pre) + us + more == Shown(before) + (Ids(pre) + us + more);
  }

  /** So a true tale fixes what was shown, and whose cancel function was called. */
  lemma {:induction false} TaleTold(fate: Oracle, msgs: seq<Msg>, before: seq<Event>, tale: Tale, after: seq<Event>)
    requires Tells(fate, msgs, before, tale, after)
    ensures Shown(after) == Shown(before) + Told(msgs, tale)
    ensures CancelsOnly(before, after, Canceller(msgs, tale))
    decreases |msgs|
  {
    if tale.Halted? {
      ToldHalted(fate, msgs, before, tale, after);
    } else if tale.Relapsed? {
      var i := FirstPill(msgs);
      var rest := msgs[i + 1..];
      var mid := DrainRun(fate, rest, tale.at).0.trace;
      TaleTold(fate, rest, mid, tale.next, after);
      ToldAgain(before, tale.at.trace, mid, after, msgs[..i], Users(rest)[..tale.k], Told(rest, tale.next),
                Canceller(rest, tale.next));
    } else {
      ToldPlain(fate, msgs, before, tale, after);
    }
  }

  lemma {:induction false} PillsAfterFirst(msgs: seq<Msg>)
    ensures var i := FirstPill(msgs);
            if i == |msgs| then PillsOf(msgs) == [] else PillsOf(msgs) == [msgs[i]] + PillsOf(msgs[i + 1..])
    decreases |msgs|
  {
    if msgs != [] && msgs[0].User? {
      PillsAfterFirst(msgs[1..]);
      var i := FirstPill(msgs[1..]);
      if i < |msgs[1..]| { assert msgs[1..][i + 1..] == msgs[i + 2..]; }
    }
  }

  // Pills are there where the tale has them, and only graceful ones are lost.
  predicate Plausible(msgs: seq<Msg>, tale: Tale)
    decreases |msgs|
  {
    var i := FirstPill(msgs);
    && (tale.Halted? || tale.Relapsed? ==> i < |msgs|)
    && (tale.Relapsed? ==> msgs[i].graceful && Plausible(msgs[i + 1..], tale.next))
  }

  lemma {:induction false} TrueIsPlausible(
    fate: Oracle, msgs: seq<Msg>, before: seq<Event>, tale: Tale, after: seq<Event>)
    requires Tells(fate, msgs, before, tale, after)
    ensures Plausible(msgs, tale)
    decreases |msgs|
  {
    if tale.Relapsed? {
      var rest := msgs[FirstPill(msgs) + 1..];
      TrueIsPlausible(fate, rest, DrainRun(fate, rest, tale.at).0.trace, tale.next, after);
    }
  }

  /** One pill is lost per relapse, graceful ones only; the next one, if it is
      reached, is the one whose cancel function is called. */
  lemma {:induction false} WhichPill(msgs: seq<Msg>, tale: Tale)
    requires Plausible(msgs, tale)
    ensures Lost(tale) <= |PillsOf(msgs)|
    ensures forall j :: 0 <= j < Lost(tale) ==> PillsOf(msgs)[j].graceful
    ensures Canceller(msgs, tale).Some? ==>
              Lost(tale) < |PillsOf(msgs)| && Canceller(msgs, tale).value == PillsOf(msgs)[Lost(tale)]
    decreases |msgs|
  {
    PillsAfterFirst(msgs);
    if tale.Relapsed? { WhichPill(msgs[FirstPill(msgs) + 1..], tale.next); }
  }

  /** Any batch, any pills in it, any panics: a tale that fixes which messages the
      receiver is shown, how often and in which order, and whose cancel function
      is called, at the very end and no other. */
  lemma {:induction false} PoisonedBatch(max: nat, fate: Oracle, msgs: seq<Msg>, c: Core) returns (tale: Tale)
    requires InBudget(max, c)
    ensures var r := Run(max, fate, Working(msgs), c);
            && Tells(fate, msgs, c.trace, tale, r.trace)
            && Shown(r.trace) == Shown(c.trace) + Told(msgs, tale)
            && CancelsOnly(c.trace, r.trace, Canceller(msgs, tale))
            && Lost(tale) <= |PillsOf(msgs)| && (forall j :: 0 <= j < Lost(tale) ==> PillsOf(msgs)[j].graceful)
            && (Canceller(msgs, tale).Some? ==>
                  Lost(tale) < |PillsOf(msgs)| && Canceller(msgs, tale).value == PillsOf(msgs)[Lost(tale)])
  {
    tale := BatchTale(max, fate, Working(msgs), c);
    TaleTold(fate, msgs, c.trace, tale, Run(max, fate, Working(msgs), c).trace);
    TrueIsPlausible(fate, msgs, c.trace, tale, Run(max, fate, Working(msgs), c).trace);
    WhichPill(msgs, tale);
  }

  /** A pill that is not graceful ends the batch there and then. */
  lemma {:induction false} HardStop(max: nat, fate: Oracle, cancel: int, post: seq<Msg>, c: Core)
    requires InBudget(max, c)
    ensures var r := Run(max, fate, Working([Pill(false, cancel)] + post), c);
            Shown(r.trace) == Shown(c.trace) && r.trace == c.trace + Farewell(Some(cancel))
  {
    var k := AtFirstPill(max, fate, Pill(false, cancel), post, c);
    HaltShows(fate, Pill(false, cancel), post, c.(mcount := |post|), Run(max, fate, Working([Pill(false,
      cancel)] + post), c).trace);
  }

  /** A graceful one that meets no panic shows all the user messages behind it
      once and in order, cleans up, and has its own cancel function called last. */
  lemma {:induction false} GracefulStop(max: nat, fate: Oracle, cancel: int, post: seq<Msg>, c: Core)
    requires InBudget(max, c) && DrainRun(fate, post, c.(mcount := |post|)).1 == Fine
    ensures var r := Run(max, fate, Working([Pill(true, cancel)] + post), c);
            && Shown(r.trace) == Shown(c.trace) + Users(post)
            && EndsWith(r.trace, Farewell(Some(cancel))) && CancelsOnly(c.trace, r.trace, Some(Pill(true, cancel)))
  {
    var pill, at := Pill(true, cancel), c.(mcount := |post|);
    var k := AtFirstPill(max, fate, pill, post, c);
    var r := Run(max, fate, Working([pill] + post), c);
    HaltShows(fate, pill, post, at, r.trace);
    var t := DrainRun(fate, post, at).0.trace;
    assert (t + Farewell(Some(cancel)))[|t|..] == Farewell(Some(cancel));
  }

  /** A panic during the drain loses the pill: the messages shown so far are a
      prefix of those behind it, and then what is behind it, further pills
      included, is taken as a batch of its own from its beginning. */
  lemma {:induction false} DrainPanicLosesPill(max: nat, fate: Oracle, cancel: int, post: seq<Msg>, c: Core)
    returns (k: nat, next: Tale)
    requires InBudget(max, c) && DrainRun(fate, post, c.(mcount := |post|)).1 != Fine
    ensures var r := Run(max, fate, Working([Pill(true, cancel)] + post), c);
            var mid := DrainRun(fate, post, c.(mcount := |post|)).0.trace;
            && 0 < k <= |Users(post)| && Shown(mid) == Shown(c.trace) + Users(post)[..k] && Uncancelled(c.trace, mid)
            && Tells(fate, post, mid, next, r.trace)
            && Shown(r.trace) == Shown(c.trace) + Users(post)[..k] + Told(post, next)
            && CancelsOnly(c.trace, r.trace, Canceller(post, next))
  {
    k := AtFirstPill(max, fate, Pill(true, cancel), post, c);
    var (c1, f) := DrainRun(fate, post, c.(mcount := |post|));
    next := BatchTale(max, fate, Crashed(post, f), c1);
    var r := Run(max, fate, Crashed(post, f), c1);
    TaleTold(fate, post, c1.trace, next, r.trace);
    CancelsLater(c.trace, c1.trace, r.trace, Canceller(post, next));
  }

  // PANICKY on one message with one restart left: shown, and then the budget is used up.
  lemma {:induction false} ShownAgain(c: Core)
    requires c.restarts == 0
    ensures RunShows(1, PANICKY, Crashed([User(7)], Panics), c) == [7]
  {
    var post := [User(7)];
    var (p1, c1) := Step(1, PANICKY, Crashed(post, Panics), c);
    var (p2, c2) := Step(1, PANICKY, p1, c1);
    assert p2 == Booted(post);
    var (p3, c3) := Step(1, PANICKY, p2, c2);
    assert p3 == Working(post) && c3.restarts == 1;
    var (p4, c4) := Step(1, PANICKY, p3, c3);
    assert p4 == Crashed([], Panics) && c4.restarts == 1;
    assert RunShows(1, PANICKY, p4, c4) == [];
    assert RunShows(1, PANICKY, p3, c3) == [7];
    assert RunShows(1, PANICKY, p2, c2) == [7];
    assert RunShows(1, PANICKY, p1, c1) == [7];
  }

  /** It happens with the smallest batch: the receiver panics on the message behind
      the pill, which is shown twice, and the pill's cancel is never called. */
  lemma {:induction false} PillLost(c: Core)
    requires c.restarts == 0
    ensures var r := Run(1, PANICKY, Working([Pill(true, 0), User(7)]), c);
            Shown(r.trace) == Shown(c.trace) + [7, 7] && Uncancelled(c.trace, r.trace)
  {
    var post := [User(7)];
    assert [Pill(true, 0)] + post == [Pill(true, 0), User(7)];
    var k, next := DrainPanicLosesPill(1, PANICKY, 0, post, c);
    LostOnes(c, post, k, next);
  }

  lemma {:induction false} LostOnes(c: Core, post: seq<Msg>, k: nat, next: Tale)
    requires c.restarts == 0 && post == [User(7)] && 0 < k <= |Users(post)|
    ensures var (c1, f) := DrainRun(PANICKY, post, c.(mcount := |post|));
            && f == Panics && Users(post)[..k] == [7] && Canceller(post, next) == None
            && Shown(Run(1, PANICKY, Crashed(post, f), c1).trace) == Shown(c.trace) + [7] + [7]
  {
    assert post[1..] == [] && Users(post) == [7] && FirstPill(post) == 1;
    var (c1, f) := DrainRun(PANICKY, post, c.(mcount := |post|));
    PresentShows(PANICKY, c.(mcount := |post|), 7);
    ShownAgain(c1);
    EventsShow(1, PANICKY, Crashed(post, f), c1);
    RunAppends(1, PANICKY, Crashed(post, f), c1);
    ShownAppend(c1.trace, Events(1, PANICKY, Crashed(post, f), c1));
  }
}
