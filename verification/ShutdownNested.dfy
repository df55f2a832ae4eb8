/** Shutting down any set of processes, nested ones too: what still holds, and which states can be finished. */
module ShutdownNested {
  import opened Options
  import opened Shutdown
  import opened ShutdownTheorems
  import opened ShutdownHang

  // ---- the invariant for any set ----

  // A pill from outside is first in its inbox, and a parent's pill goes to its own child.
  predicate Own(f: Forest, pilled: set<nat>, p: nat, m: Proc)
    requires p < |f.parent|
  {
    if m.pc.Running? then
      if p in pilled then m.inbox != [] && m.inbox[0] == Pill(None)
      else forall pill :: pill in m.inbox ==> pill == Pill(f.parent[p]) && f.parent[p].Some?
    else m.taken == Some(Pill(Caller(f, pilled, p))) && (p in pilled || f.parent[p].Some?)
  }

  predicate Lined(f: Forest, p: nat, pc: Pc) {
    HasTodo(pc) ==>
      && Distinct(pc.todo) && (forall c :: c in pc.todo ==> IsKid(f, p, c))
      && (pc.Cleaning? || pc.todo != [])
  }

  // A child with a pill from outside that still runs has a parent that has not passed it over.
  predicate TwiceAt(f: Forest, pilled: set<nat>, procs: seq<Proc>, c: nat) {
    c < |procs| == |f.parent| && c in pilled && f.parent[c].Some? && f.parent[c].value < |procs| && procs[c].pc.Running?
    ==> var pc := procs[f.parent[c].value].pc; !Past(pc) && (HasTodo(pc) ==> c in pc.todo)
  }

  ghost predicate OwnInv(f: Forest, pilled: set<nat>, procs: seq<Proc>) {
    |procs| == |f.parent| && forall p {:trigger Own(f, pilled, p, procs[p])} :: 0 <= p < |procs| ==>
      Own(f, pilled, p, procs[p])
  }

  ghost predicate LinedInv(f: Forest, procs: seq<Proc>) {
    forall p {:trigger Lined(f, p, procs[p].pc)} :: 0 <= p < |procs| ==> Lined(f, p, procs[p].pc)
  }

  ghost predicate TwiceInv(f: Forest, pilled: set<nat>, procs: seq<Proc>) {
    forall c: nat {:trigger TwiceAt(f, pilled, procs, c)} :: TwiceAt(f, pilled, procs, c)
  }

  ghost predicate Sound(f: Forest, pilled: set<nat>, procs: seq<Proc>) {
    && Rooted(f) && OwnInv(f, pilled, procs) && LinedInv(f, procs) && TwiceInv(f, pilled, procs)
    && KidInv(f, pilled, procs) && LinkInv(f, procs)
  }

  ghost predicate AnyInv(f: Forest, pilled: set<nat>, s: State) {
    Sound(f, pilled, s.procs) && RegistryInv(s.procs, s.registry)
  }

  lemma {:induction false} InitAny(f: Forest, pilled: set<nat>)
    requires Rooted(f) && forall x :: x in pilled ==> x < |f.parent|
    ensures AnyInv(f, pilled, Init(f, pilled))
  {
    var s := Init(f, pilled);
    forall p | 0 <= p < |s.procs| ensures Own(f, pilled, p, s.procs[p]) && Lined(f, p, s.procs[p].pc) {}
    forall c: nat ensures KidAt(f, pilled, s.procs, c) && TwiceAt(f, pilled, s.procs, c) {}
    forall p: nat, c: nat ensures LinkAt(f, s.procs, p, c) {}
  }

  // A process that is past taking its pill moves on.
  lemma {:induction false} Shifts(f: Forest, pilled: set<nat>, procs: seq<Proc>, p: nat, pc: Pc)
    requires Sound(f, pilled, procs) && p < |procs|
    requires !procs[p].pc.Running? && !procs[p].pc.Gone? && !pc.Running? && !pc.Detached? && Lined(f, p, pc)
    requires forall c: nat :: c < |procs| && IsKid(f, p, c) && c !in pilled ==> KidOk(pc, c, procs[c])
    requires forall c: nat :: c < |procs| && IsKid(f, p, c) && c in pilled && procs[c].pc.Running? ==>
             !Past(pc) && (HasTodo(pc) ==> c in pc.todo)
    ensures Sound(f, pilled, procs[p := procs[p].(pc := pc)])
  {
    var after := procs[p := procs[p].(pc := pc)];
    assert Own(f, pilled, p, procs[p]);
    forall q | 0 <= q < |after| ensures Own(f, pilled, q, after[q]) {
      assert Own(f, pilled, q, procs[q]);
    }
    forall q | 0 <= q < |after| ensures Lined(f, q, after[q].pc) {
      assert Lined(f, q, procs[q].pc);
    }
    forall c: nat ensures KidAt(f, pilled, after, c) {
      assert KidAt(f, pilled, procs, c);
    }
    forall c: nat ensures TwiceAt(f, pilled, after, c) {
      assert TwiceAt(f, pilled, procs, c);
    }
    forall q: nat, c: nat ensures LinkAt(f, after, q, c) {
      assert LinkAt(f, procs, q, c);
    }
  }

  lemma {:induction false} DetachSound(f: Forest, pilled: set<nat>, s: State, p: nat)
    requires Sound(f, pilled, s.procs) && p < |s.procs| && s.procs[p].pc.Running? && s.procs[p].inbox != []
    ensures Sound(f, pilled, Detach(f, s, p).procs)
  {
    var procs, after := s.procs, Detach(f, s, p).procs;
    assert Own(f, pilled, p, procs[p]) && procs[p].inbox[0] in procs[p].inbox;
    forall q | 0 <= q < |after| ensures Own(f, pilled, q, after[q]) && Lined(f, q, after[q].pc) {
      assert Own(f, pilled, q, procs[q]) && Lined(f, q, procs[q].pc);
    }
    forall c: nat ensures KidAt(f, pilled, after, c) && TwiceAt(f, pilled, after, c) {
      assert KidAt(f, pilled, procs, c) && TwiceAt(f, pilled, procs, c);
    }
    forall q: nat, c: nat ensures LinkAt(f, after, q, c) {
      assert LinkAt(f, procs, q, c);
    }
  }

  lemma {:induction false} ListSound(f: Forest, pilled: set<nat>, procs: seq<Proc>, p: nat, order: seq<nat>)
    requires Sound(f, pilled, procs) && p < |procs| && procs[p].pc.Detached? && Lists(order, procs[p].children)
    ensures Sound(f, pilled, procs[p := procs[p].(pc := Cleaning(order))])
  {
    forall c | c in order ensures IsKid(f, p, c) {
      assert LinkAt(f, procs, p, c);
    }
    forall c: nat | c < |procs| && IsKid(f, p, c)
      ensures c !in pilled ==> KidOk(Cleaning(order), c, procs[c])
      ensures c in pilled && procs[c].pc.Running? ==> c in order
    {
      assert KidAt(f, pilled, procs, c) && LinkAt(f, procs, p, c);
    }
    Shifts(f, pilled, procs, p, Cleaning(order));
  }

  // The rest of the list, once its first is gone or has been passed over.
  lemma {:induction false} RestLined(f: Forest, p: nat, todo: seq<nat>)
    requires todo != [] && Lined(f, p, Cleaning(todo))
    ensures Lined(f, p, Cleaning(todo[1..])) && todo[0] !in todo[1..] && IsKid(f, p, todo[0])
    ensures forall c :: c in todo <==> c == todo[0] || c in todo[1..]
  {
    assert todo == [todo[0]] + todo[1..];
    assert todo[0] in todo;
  }

  lemma {:induction false} NextSound(f: Forest, pilled: set<nat>, procs: seq<Proc>, p: nat, todo: seq<nat>)
    requires Sound(f, pilled, procs) && p < |procs| && todo != []
    requires procs[p].pc == Cleaning(todo) || procs[p].pc == Waiting(todo)
    requires todo[0] < |procs| ==> if todo[0] in pilled then !procs[todo[0]].pc.Running? else procs[todo[0]].pc.Gone?
    ensures Sound(f, pilled, procs[p := procs[p].(pc := Cleaning(todo[1..]))])
  {
    assert Lined(f, p, procs[p].pc);
    RestLined(f, p, todo);
    forall c: nat | c < |procs| && IsKid(f, p, c)
      ensures c !in pilled ==> KidOk(Cleaning(todo[1..]), c, procs[c])
      ensures c in pilled && procs[c].pc.Running? ==> c in todo[1..]
    {
      assert KidAt(f, pilled, procs, c) && TwiceAt(f, pilled, procs, c);
    }
    Shifts(f, pilled, procs, p, Cleaning(todo[1..]));
  }

  lemma {:induction false} CleanUpSound(f: Forest, pilled: set<nat>, s: State, p: nat, todo: seq<nat>)
    requires AnyInv(f, pilled, s) && p < |s.procs| && s.procs[p].pc == Cleaning(todo)
    ensures Sound(f, pilled, CleanUp(s, p, todo).procs)
  {
    var procs := s.procs;
    assert Lined(f, p, procs[p].pc);
    forall c: nat | c < |procs| && IsKid(f, p, c)
      ensures KidAt(f, pilled, procs, c) && TwiceAt(f, pilled, procs, c)
    {
    }
    if todo == [] {
      Shifts(f, pilled, procs, p, Removed);
    } else if todo[0] in s.registry {
      assert todo[0] in todo;
      Shifts(f, pilled, procs, p, Sending(todo));
    } else {
      assert todo[0] in todo && IsKid(f, p, todo[0]);
      assert KidAt(f, pilled, procs, todo[0]);
      NextSound(f, pilled, procs, p, todo);
    }
  }

  lemma {:induction false} SendSound(f: Forest, pilled: set<nat>, s: State, p: nat, todo: seq<nat>)
    requires AnyInv(f, pilled, s) && p < |s.procs| && s.procs[p].pc == Sending(todo)
    requires todo != [] && todo[0] < |s.procs|
    ensures Sound(f, pilled, SendPill(s, p, todo).procs)
  {
    var procs, c0 := s.procs, todo[0];
    assert Lined(f, p, procs[p].pc) && c0 in todo && IsKid(f, p, c0);
    var after := SendPill(s, p, todo).procs;
    forall q | 0 <= q < |after| ensures Own(f, pilled, q, after[q]) && Lined(f, q, after[q].pc) {
      assert Own(f, pilled, q, procs[q]) && Lined(f, q, procs[q].pc);
    }
    forall c: nat ensures KidAt(f, pilled, after, c) && TwiceAt(f, pilled, after, c) {
      assert KidAt(f, pilled, procs, c) && TwiceAt(f, pilled, procs, c);
    }
    forall q: nat, c: nat ensures LinkAt(f, after, q, c) {
      assert LinkAt(f, procs, q, c);
    }
  }

  lemma {:induction false} WaitSound(f: Forest, pilled: set<nat>, s: State, p: nat, todo: seq<nat>)
    requires AnyInv(f, pilled, s) && p < |s.procs| && s.procs[p].pc == Waiting(todo)
    requires todo != [] && todo[0] < |s.procs| && Cancelled(s.procs[todo[0]], p)
    ensures Sound(f, pilled, s.procs[p := s.procs[p].(pc := Cleaning(todo[1..]))])
  {
    assert Own(f, pilled, todo[0], s.procs[todo[0]]);
    NextSound(f, pilled, s.procs, p, todo);
  }

  lemma {:induction false} PastSound(f: Forest, pilled: set<nat>, procs: seq<Proc>, p: nat, pc: Pc)
    requires Sound(f, pilled, procs) && p < |procs|
    requires (procs[p].pc.Removed? && pc == Told) || (procs[p].pc.Told? && pc == Gone)
    ensures Sound(f, pilled, procs[p := procs[p].(pc := pc)])
  {
    forall c: nat | c < |procs| && IsKid(f, p, c)
      ensures KidAt(f, pilled, procs, c) && TwiceAt(f, pilled, procs, c)
    {
    }
    Shifts(f, pilled, procs, p, pc);
  }

  lemma {:induction false} StepAny(f: Forest, pilled: set<nat>, s: State, a: Step)
    requires AnyInv(f, pilled, s) && Enabled(s, a)
    ensures AnyInv(f, pilled, Apply(f, s, a))
  {
    var p, pc := a.p, s.procs[a.p].pc;
    StepRegistry(f, s, a);
    if pc.Running? {
      DetachSound(f, pilled, s, p);
    } else if pc.Detached? {
      ListSound(f, pilled, s.procs, p, a.order);
    } else if pc.Cleaning? {
      CleanUpSound(f, pilled, s, p, pc.todo);
    } else if pc.Sending? {
      SendSound(f, pilled, s, p, pc.todo);
    } else if pc.Waiting? {
      WaitSound(f, pilled, s, p, pc.todo);
    } else {
      PastSound(f, pilled, s.procs, p, if pc.Removed? then Told else Gone);
    }
  }

  lemma {:induction false} RunAny(f: Forest, pilled: set<nat>, steps: seq<Step>, s: State, t: State)
    requires AnyInv(f, pilled, s) && Runs(f, steps, s, t)
    ensures AnyInv(f, pilled, t)
    decreases |steps|
  {
    if steps != [] {
      StepAny(f, pilled, s, steps[0]);
      RunAny(f, pilled, steps[1..], Apply(f, s, steps[0]), t);
    }
  }

  lemma {:induction false} ReachedAny(f: Forest, pilled: set<nat>, steps: seq<Step>, t: State)
    requires Reached(f, pilled, steps, t)
    ensures AnyInv(f, pilled, t)
  {
    InitAny(f, pilled);
    RunAny(f, pilled, steps, Init(f, pilled), t);
  }

  // ---- no orphans ----

  /** Whoever is pilled: a process leaves the registry only when every child of it
      has taken a pill, and every child without one from outside is gone. */
  lemma {:induction false} NoOrphans(f: Forest, pilled: set<nat>, steps: seq<Step>, t: State, p: nat, c: nat)
    requires Reached(f, pilled, steps, t) && p < |f.parent| && p !in t.registry && IsKid(f, p, c)
    ensures |t.procs| == |f.parent| && !t.procs[c].pc.Running? && (c !in pilled ==> t.procs[c].pc.Gone?)
  {
    ReachedAny(f, pilled, steps, t);
    assert KidAt(f, pilled, t.procs, c) && TwiceAt(f, pilled, t.procs, c);
  }

  lemma {:induction false} DeadStep(f: Forest, s: State, a: Step, c: nat)
    requires RegistryInv(s.procs, s.registry) && Enabled(s, a) && c < |s.procs| && c !in s.registry
    ensures var t := Apply(f, s, a);
            c < |t.procs| && c !in t.registry && t.procs[c].inbox == s.procs[c].inbox
  {
  }

  /** A process that has left the registry is sent nothing any more: pills on their
      way to it are dead letters. */
  lemma {:induction false} DeadLetters(f: Forest, steps: seq<Step>, s: State, t: State, c: nat)
    requires RegistryInv(s.procs, s.registry) && Runs(f, steps, s, t) && c < |s.procs| && c !in s.registry
    ensures c < |t.procs| && c !in t.registry && t.procs[c].inbox == s.procs[c].inbox
    decreases |steps|
  {
    if steps != [] {
      DeadStep(f, s, steps[0], c);
      StepRegistry(f, s, steps[0]);
      DeadLetters(f, steps[1..], Apply(f, s, steps[0]), t, c);
    }
  }

  // ---- which states can be finished ----

  // The process is sending a pill to, or waiting for, one that has a pill from outside.
  predicate Caught(pilled: set<nat>, pc: Pc) {
    (pc.Sending? || pc.Waiting?) && pc.todo != [] && pc.todo[0] in pilled
  }

  predicate Free(pilled: set<nat>, s: State) { forall p :: 0 <= p < |s.procs| ==> !Caught(pilled, s.procs[p].pc) }

  ghost predicate Finishable(f: Forest, pilled: set<nat>, s: State) {
    exists more, t :: Runs(f, more, s, t) && Finished(pilled, t)
  }

  // It waits for ever: that process dies by the pill from outside.
  lemma {:induction false} CaughtStep(f: Forest, pilled: set<nat>, s: State, a: Step, p: nat)
    requires AnyInv(f, pilled, s) && Enabled(s, a) && p < |s.procs| && Caught(pilled, s.procs[p].pc)
    ensures p < |Apply(f, s, a).procs| && Caught(pilled, Apply(f, s, a).procs[p].pc)
  {
    forall c | 0 <= c < |s.procs| && c in pilled ensures !Cancelled(s.procs[c], p) {
      assert Own(f, pilled, c, s.procs[c]);
    }
  }

  lemma {:induction false} CaughtRun(f: Forest, pilled: set<nat>, steps: seq<Step>, s: State, t: State, p: nat)
    requires AnyInv(f, pilled, s) && Runs(f, steps, s, t) && p < |s.procs| && Caught(pilled, s.procs[p].pc)
    ensures p < |t.procs| && Caught(pilled, t.procs[p].pc)
    decreases |steps|
  {
    if steps != [] {
      CaughtStep(f, pilled, s, steps[0], p);
      StepAny(f, pilled, s, steps[0]);
      CaughtRun(f, pilled, steps[1..], Apply(f, s, steps[0]), t, p);
    }
  }

  // Whoever is not done keeps everyone above it waiting, up to a process with a pill from outside.
  lemma {:induction false} HoldsUp(f: Forest, pilled: set<nat>, s: State, p: nat)
    requires AnyInv(f, pilled, s) && p < |s.procs| && !s.procs[p].pc.Running? && !s.procs[p].pc.Gone?
    ensures !Finished(pilled, s)
    decreases p
  {
    if p !in pilled {
      assert Own(f, pilled, p, s.procs[p]) && KidAt(f, pilled, s.procs, p);
      HoldsUp(f, pilled, s, f.parent[p].value);
    }
  }

  // The last process that has something to do.
  lemma {:induction false} LastBusy(s: State, k: nat) returns (p: nat)
    requires k < |s.procs| && !Quiet(s.procs[k]) && !s.procs[k].pc.Gone?
    ensures p < |s.procs| && !Quiet(s.procs[p]) && !s.procs[p].pc.Gone?
    ensures forall q :: p < q < |s.procs| ==> Quiet(s.procs[q]) || s.procs[q].pc.Gone?
    decreases |s.procs| - k
  {
    if q: nat :| k < q < |s.procs| && !Quiet(s.procs[q]) && !s.procs[q].pc.Gone? {
      p := LastBusy(s, q);
    } else {
      p := k;
    }
  }

  // Its next move catches nobody.
  lemma {:induction false} LastMoves(f: Forest, pilled: set<nat>, s: State, p: nat) returns (a: Step)
    requires AnyInv(f, pilled, s) && Free(pilled, s) && p < |s.procs| && !Quiet(s.procs[p]) && !s.procs[p].pc.Gone?
    requires forall q :: p < q < |s.procs| ==> Quiet(s.procs[q]) || s.procs[q].pc.Gone?
    ensures Enabled(s, a) && Free(pilled, Apply(f, s, a))
  {
    var m := s.procs[p];
    assert Lined(f, p, m.pc);
    a := Step(p, []);
    if m.pc.Detached? {
      var order := SomeOrder(m.children);
      a := Step(p, order);
    } else if HasTodo(m.pc) && m.pc.todo != [] {
      var c := m.pc.todo[0];
      assert c in m.pc.todo && IsKid(f, p, c);
      assert Own(f, pilled, c, s.procs[c]) && KidAt(f, pilled, s.procs, c);
    }
  }

  lemma {:induction false} Finishes(f: Forest, pilled: set<nat>, s: State) returns (steps: seq<Step>, t: State)
    requires AnyInv(f, pilled, s) && Bounded(s) && Free(pilled, s) && forall x :: x in pilled ==> x < |s.procs|
    ensures Runs(f, steps, s, t) && Finished(pilled, t)
    decreases Total(s.procs, |s.procs|)
  {
    if Finished(pilled, s) {
      steps, t := [], s;
    } else {
      var x :| x in pilled && !(s.procs[x].pc.Gone? && s.procs[x].taken == Some(Pill(None)));
      assert Own(f, pilled, x, s.procs[x]);
      var p := LastBusy(s, x);
      var a := LastMoves(f, pilled, s, p);
      StepAny(f, pilled, s, a);
      StepDown(f, s, a);
      var rest;
      rest, t := Finishes(f, pilled, Apply(f, s, a));
      steps := [a] + rest;
      assert steps[1..] == rest;
    }
  }

  /** Whoever is pilled, and however far the shutdown has come: it can still be
      completed if and only if no process is sending a pill to, or waiting for, one
      that was poisoned from outside. */
  lemma {:induction false} FinishableIff(f: Forest, pilled: set<nat>, steps: seq<Step>, s: State)
    requires Reached(f, pilled, steps, s)
    ensures Finishable(f, pilled, s) <==> Free(pilled, s)
  {
    ReachedAny(f, pilled, steps, s);
    RunsDown(f, steps, Init(f, pilled), s);
    if Free(pilled, s) {
      var more, t := Finishes(f, pilled, s);
    } else {
      var p: nat :| p < |s.procs| && Caught(pilled, s.procs[p].pc);
      forall more, t | Runs(f, more, s, t) ensures !Finished(pilled, t) {
        CaughtRun(f, pilled, more, s, t, p);
        RunAny(f, pilled, more, s, t);
        HoldsUp(f, pilled, t, p);
      }
    }
  }
}
