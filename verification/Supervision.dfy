/**
 A supervised process (actor/process.go): Invoke, Start, tryRestart and cleanup
 call one another through panic recovery, with a buffer of messages to replay
 and a budget of restarts.

 The receiver is an arbitrary oracle: it sees everything that has happened and
 decides whether the current Receive panics. The recursion is proved equal to
 a flat machine (Run) that has no buffer, no recovery and no call stack.
 */
module Supervision {
  import opened Options

  // What an inbox can hold: a user message, or a poison pill with its cancel function.
  datatype Msg = User(id: int) | Pill(graceful: bool, cancel: int)

  // What a receiver is shown.
  datatype Letter = Initialized | Started | Stopped | Message(id: int)

  // What is broadcast on the event stream.
  datatype Notice =
    | InitializedEvent
    | StartedEvent
    | RestartedEvent(restarts: nat)
    | MaxRestartsExceededEvent
    | StoppedEvent

  // Everything a process does that can be seen from outside, in order.
  datatype Event =
    | Received(letter: Letter)
    | Broadcast(notice: Notice)
    | LeftParent
    | PoisonedChildren
    | InboxStarted
    | InboxStopped
    | Unregistered
    | Cancelled(cancel: int)

  // How a call of the receiver ends: normally, with a panic, or with an *InternalError panic.
  datatype Fate = Fine | Panics | InternalError

  type Oracle = seq<Event> -> Fate

  /** The observable state of a process. `internals` is the number of
      InternalError panics that are still to come; they do not count as
      restarts, so a run terminates only if there are finitely many.
      `frames` counts the calls of Start that have an Invoke to return from. */
  datatype Core = Core(restarts: nat, internals: nat, mcount: int, trace: seq<Event>, frames: nat)

  // p.receive: the letter is recorded and the oracle decides.
  function Present(fate: Oracle, c: Core, l: Letter): (Core, Fate) {
    var c1 := c.(trace := c.trace + [Received(l)]);
    match fate(c1.trace)
    case Fine => (c1, Fine)
    case Panics => (c1, Panics)
    case InternalError => if c1.internals > 0 then (c1.(internals := c1.internals - 1), InternalError) else (c1, Fine)
  }

  function Emit(c: Core, events: seq<Event>): Core { c.(trace := c.trace + events) }

  // cleanup; its Stopped handler is taken not to panic
  function CleanupEvents(cancel: Option<int>): seq<Event> {
    [LeftParent, PoisonedChildren, InboxStopped, Unregistered, Received(Stopped), Broadcast(StoppedEvent)]
    + if cancel.Some? then [Cancelled(cancel.value)] else []
  }

  /** Where the flat machine is.
      Booting  - about to be shown Initialized
      Booted   - about to be shown Started
      Working  - about to take the next message of todo
      Draining - a graceful pill was found: drain is left to show, todo came after the pill
      Crashed  - the receiver has just panicked; todo is left of the batch
      Over     - back in the caller */
  datatype Phase =
    | Booting(todo: seq<Msg>)
    | Booted(todo: seq<Msg>)
    | Working(todo: seq<Msg>)
    | Draining(drain: seq<Msg>, todo: seq<Msg>, cancel: int)
    | Crashed(todo: seq<Msg>, why: Fate)
    | Over

  // One step of the flat machine.
  function Step(max: nat, fate: Oracle, ph: Phase, c: Core): (Phase, Core)
    requires !ph.Over?
  {
    match ph
    case Booting(todo) =>
      var (c1, f) := Present(fate, c, Initialized);
      if f == Fine then (Booted(todo), Emit(c1, [Broadcast(InitializedEvent)])) else (Crashed(todo, f), c1)
    case Booted(todo) =>
      var (c1, f) := Present(fate, c, Started);
      if f != Fine then (Crashed(todo, f), c1)
      else (Working(todo), Emit(c1, [Broadcast(StartedEvent)]).(frames := c1.frames + 1,
                                                                mcount := if todo == [] then c1.mcount else |todo|))
    case Working(todo) =>
      if todo == [] then (Over, c)
      else
        var c0 := c.(mcount := |todo| - 1);
        if todo[0].User? then
          var (c1, f) := Present(fate, c0, Message(todo[0].id));
          if f == Fine then (Working(todo[1..]), c1) else (Crashed(todo[1..], f), c1)
        else if todo[0].graceful then (Draining(todo[1..], todo[1..], todo[0].cancel), c0)
        else (Over, Emit(c0, CleanupEvents(Some(todo[0].cancel))))
    case Draining(drain, todo, cancel) =>
      if drain == [] then (Over, Emit(c, CleanupEvents(Some(cancel))))
      else if drain[0].Pill? then (Draining(drain[1..], todo, cancel), c)
      else
        var (c1, f) := Present(fate, c, Message(drain[0].id));
        if f == Fine then (Draining(drain[1..], todo, cancel), c1) else (Crashed(todo, f), c1)
    case Crashed(todo, why) =>
      if why == InternalError then (Booting(todo), c)
      else if c.restarts == max then (Over, Emit(c, [Broadcast(MaxRestartsExceededEvent)] + CleanupEvents(None)))
      else
        (Booting(todo),
         Emit(c, [Received(Stopped), Broadcast(RestartedEvent(c.restarts + 1))]).(restarts := c.restarts + 1))
  }

  // Every panic spends an InternalError or a restart, so this measure goes down.
  function Budget(max: nat, ph: Phase, c: Core): int {
    2 * (c.internals + max - c.restarts) + if ph.Crashed? && ph.why == InternalError then 1 else 0
  }

  function Rank(ph: Phase): nat {
    match ph
    case Booting(todo) => 2 * |todo| + 5
    case Booted(todo) => 2 * |todo| + 4
    case Working(todo) => 2 * |todo| + 3
    case Draining(drain, todo, _) => |drain| + |todo| + 2
    case Crashed(_, _) => 1
    case Over => 0
  }

  predicate InBudget(max: nat, c: Core) { c.restarts <= max }

  // The flat machine, run to the end.
  function Run(max: nat, fate: Oracle, ph: Phase, c: Core): Core
    requires InBudget(max, c)
    decreases Budget(max, ph, c), Rank(ph)
  {
    if ph.Over? then c
    else var (ph1, c1) := Step(max, fate, ph, c); Run(max, fate, ph1, c1)
  }

  // Returning through the pending calls of Start, each of which starts the inbox.
  function Unwind(c: Core): Core {
    Emit(c.(frames := 0), seq(c.frames, _ => InboxStarted))
  }

  lemma {:induction false} UnwindNone(c: Core)
    requires c.frames == 0
    ensures Unwind(c) == c
  {
    assert c.trace + [] == c.trace;
  }

  // Pending frames do not influence the machine.
  lemma {:induction false} FramesShift(max: nat, fate: Oracle, ph: Phase, c: Core, k: nat)
    requires InBudget(max, c)
    ensures Run(max, fate, ph, c.(frames := c.frames + k))
            == var r := Run(max, fate, ph, c); r.(frames := r.frames + k)
    decreases Budget(max, ph, c), Rank(ph)
  {
    if !ph.Over? {
      var (ph1, c1) := Step(max, fate, ph, c);
      assert Step(max, fate, ph, c.(frames := c.frames + k)) == (ph1, c1.(frames := c1.frames + k));
      FramesShift(max, fate, ph1, c1, k);
    }
  }

  /** actor.process. A panic is the Fate a call returns. */
  class Process {
    const max: nat
    const fate: Oracle
    var restarts: nat
    var internals: nat
    var mbuffer: seq<Msg>
    var mcount: int
    var trace: seq<Event>

    constructor (max: nat, fate: Oracle, internals: nat)
      ensures this.max == max && this.fate == fate
      ensures View() == Core(0, internals, 0, [], 0) && mbuffer == [] && Valid()
    {
      this.max, this.fate, this.internals := max, fate, internals;
      restarts, mbuffer, mcount, trace := 0, [], 0, [];
    }

    ghost predicate Valid() reads this { restarts <= max }

    ghost function View(): Core reads this { Core(restarts, internals, mcount, trace, 0) }

    method Receive(l: Letter) returns (f: Fate)
      modifies this`trace, this`internals
      ensures (View(), f) == Present(fate, old(View()), l)
    {
      trace := trace + [Received(l)];
      f := fate(trace);
      if f == InternalError {
        if internals > 0 {
          internals := internals - 1;
        } else {
          f := Fine;
        }
      }
    }

    // Poison pills are private to the engine and never shown.
    method InvokeMsg(m: Msg) returns (f: Fate)
      modifies this`trace, this`internals
      ensures m.Pill? ==> f == Fine && View() == old(View())
      ensures m.User? ==> (View(), f) == Present(fate, old(View()), Message(m.id))
    {
      if m.Pill? {
        return Fine;
      }
      f := Receive(Message(m.id));
    }

    method Cleanup(cancel: Option<int>)
      modifies this`trace
      ensures View() == Emit(old(View()), CleanupEvents(cancel))
    {
      trace := trace + [LeftParent, PoisonedChildren, InboxStopped, Unregistered, Received(Stopped),
        Broadcast(StoppedEvent)];
      if cancel.Some? {
        trace := trace + [Cancelled(cancel.value)];
      }
    }

    // The loop of a graceful stop: show what is left of the batch, until a panic.
    method Drain(msgs: seq<Msg>, ghost todo: seq<Msg>, ghost cancel: int) returns (f: Fate)
      requires Valid()
      modifies this`trace, this`internals
      ensures internals <= old(internals) && (f == InternalError ==> internals < old(internals))
      ensures Run(max, fate, Draining(msgs, todo, cancel), old(View()))
              == Run(max, fate, if f == Fine then Draining([], todo, cancel) else Crashed(todo, f), View())
    {
      f := Fine;
      var k := 0;
      while k < |msgs| && f == Fine
        invariant k <= |msgs|
        invariant internals <= old(internals) && (f == InternalError ==> internals < old(internals))
        invariant Run(max, fate, Draining(msgs, todo, cancel), old(View()))
                  == Run(max, fate, if f == Fine then Draining(msgs[k..], todo, cancel) else Crashed(todo, f), View())
      {
        assert msgs[k..][0] == msgs[k] && msgs[k..][1..] == msgs[k + 1..];
        f := InvokeMsg(msgs[k]);
        k := k + 1;
      }
    }

    // The body of Invoke: how many messages were taken, and how it ended.
    method Work(msgs: seq<Msg>) returns (nproc: nat, f: Fate)
      requires Valid()
      modifies this`trace, this`internals, this`mcount
      ensures nproc <= |msgs| && internals <= old(internals) && (f == InternalError ==> internals < old(internals))
      ensures f != Fine ==> mcount == |msgs| - nproc
      ensures Run(max, fate, Working(msgs), old(View()).(mcount := |msgs|))
              == Run(max, fate, if f == Fine then Over else Crashed(msgs[nproc..], f), View())
    {
      var processed := 0;
      nproc, mcount, f := 0, |msgs|, Fine;
      while nproc < |msgs| && f == Fine
        invariant nproc <= |msgs| && internals <= old(internals) && (f == InternalError ==> internals < old(internals))
        invariant f == Fine ==> processed == nproc
        invariant mcount == |msgs| - nproc
        invariant Run(max, fate, Working(msgs), old(View()).(mcount := |msgs|))
                  == Run(max, fate, if f == Fine then Working(msgs[nproc..]) else Crashed(msgs[nproc..], f), View())
      {
        var msg := msgs[nproc];
        assert msgs[nproc..][0] == msg && msgs[nproc..][1..] == msgs[nproc + 1..];
        nproc := nproc + 1;
        mcount := mcount - 1;
        if msg.Pill? {
          if msg.graceful {
            f := Drain(msgs[processed..], msgs[nproc..], msg.cancel);
            assert msgs[processed..][0] == msg && msgs[processed..][1..] == msgs[nproc..];
          }
          if f == Fine {
            Cleanup(Some(msg.cancel));
            return;
          }
        } else {
          f := InvokeMsg(msg);
          if f == Fine {
            processed := processed + 1;
          }
        }
      }
    }

    /** Invoke is the flat machine started on the batch. */
    method Invoke(msgs: seq<Msg>)
      requires Valid()
      modifies this
      ensures Valid()
      ensures var r := Run(max, fate, Working(msgs), old(View()).(mcount := |msgs|));
              View() == Unwind(r) && (r.frames > 0 ==> mbuffer == [])
      decreases 2 * (internals + max - restarts), 2 * |msgs| + 3
    {
      var nproc, f := Work(msgs);
      if f != Fine { // recover
        mbuffer := msgs[nproc..];
        mcount := |msgs| - nproc;
        TryRestart(f);
      } else {
        UnwindNone(View());
      }
    }

    /** Start is the flat machine started before Initialized. */
    method Start()
      requires Valid()
      modifies this
      ensures Valid()
      ensures var r := Run(max, fate, Booting(old(mbuffer)), old(View()));
              View() == Unwind(r) && (r.frames > 0 ==> mbuffer == [])
      decreases 2 * (internals + max - restarts), 2 * |mbuffer| + 5
    {
      var f := Receive(Initialized);
      if f == Fine {
        trace := trace + [Broadcast(InitializedEvent)];
        f := Receive(Started);
      }
      if f != Fine {
        TryRestart(f);
        return;
      }
      trace := trace + [Broadcast(StartedEvent)];
      ghost var c := View();
      FramesShift(max, fate, Working(mbuffer), c.(mcount := if mbuffer == [] then mcount else |mbuffer|), 1);
      if |mbuffer| > 0 {
        Invoke(mbuffer);
        mbuffer := [];
      }
      trace := trace + [InboxStarted];
    }

    method TryRestart(why: Fate)
      requires Valid() && why != Fine
      modifies this
      ensures Valid()
      ensures var r := Run(max, fate, Crashed(old(mbuffer), why), old(View()));
              View() == Unwind(r) && (r.frames > 0 ==> mbuffer == [])
      decreases 2 * (internals + max - restarts) + (if why == InternalError then 1 else 0), 1
    {
      if why == InternalError {
        Start();
        return;
      }
      if restarts == max {
        trace := trace + [Broadcast(MaxRestartsExceededEvent)];
        Cleanup(None);
        assert trace == old(trace) + ([Broadcast(MaxRestartsExceededEvent)] + CleanupEvents(None));
        UnwindNone(View());
        return;
      }
      trace := trace + [Received(Stopped)]; // taken not to panic
      restarts := restarts + 1;
      trace := trace + [Broadcast(RestartedEvent(restarts))];
      assert trace == old(trace) + [Received(Stopped), Broadcast(RestartedEvent(restarts))];
      Start();
    }
  }
}
