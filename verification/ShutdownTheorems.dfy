/** What every interleaving of a shutdown keeps, and how it ends. */
module ShutdownTheorems {
  import opened Options
  import opened Shutdown

  // ---- the invariant ----

  predicate Quiet(m: Proc) { m.pc.Running? && m.inbox == [] }

  predicate Past(pc: Pc) { pc.Removed? || pc.Told? || pc.Gone? }

  // Who waits for p's pill.
  function Caller(f: Forest, pilled: set<nat>, p: nat): Option<nat>
    requires p < |f.parent|
  {
    if p in pilled then None else f.parent[p]
  }

  // p itself: at most one pill, from its caller, and no more after that one is taken.
  predicate Self(f: Forest, pilled: set<nat>, p: nat, m: Proc)
    requires p < |f.parent|
  {
    if m.pc.Running? then m.inbox == [] || m.inbox == [Pill(Caller(f, pilled, p))]
    else m.inbox == [] && m.taken == Some(Pill(Caller(f, pilled, p)))
  }

  predicate HasTodo(pc: Pc) { pc.Cleaning? || pc.Sending? || pc.Waiting? }

  predicate Distinct(todo: seq<nat>) { forall i, j :: 0 <= i < j < |todo| ==> todo[i] != todo[j] }

  // The list of children p works through.
  predicate Agenda(f: Forest, pilled: set<nat>, p: nat, pc: Pc) {
    HasTodo(pc) ==>
      && Distinct(pc.todo) && (forall c :: c in pc.todo ==> IsKid(f, p, c) && c !in pilled)
      && (pc.Cleaning? || pc.todo != [])
  }

  // How far a child k may be, given where its parent is.
  predicate KidOk(pc: Pc, c: nat, k: Proc) {
    if pc.Running? || pc.Detached? then Quiet(k)
    else if Past(pc) then k.pc.Gone?
    else if c !in pc.todo then k.pc.Gone?
    else if pc.Waiting? && pc.todo[0] == c then !Quiet(k)
    else Quiet(k)
  }

  predicate KidAt(f: Forest, pilled: set<nat>, procs: seq<Proc>, c: nat) {
    c < |procs| == |f.parent| && c !in pilled && f.parent[c].Some? && f.parent[c].value < |procs| ==>
      KidOk(procs[f.parent[c].value].pc, c, procs[c])
  }

  // The parts of the invariant.
  ghost predicate SelfInv(f: Forest, pilled: set<nat>, procs: seq<Proc>) {
    |procs| == |f.parent| && forall p {:trigger Self(f, pilled, p, procs[p])} :: 0 <= p < |procs| ==>
      Self(f, pilled, p, procs[p])
  }

  ghost predicate AgendaInv(f: Forest, pilled: set<nat>, procs: seq<Proc>) {
    forall p {:trigger Agenda(f, pilled, p, procs[p].pc)} :: 0 <= p < |procs| ==> Agenda(f, pilled, p, procs[p].pc)
  }

  ghost predicate KidInv(f: Forest, pilled: set<nat>, procs: seq<Proc>) {
    forall c: nat {:trigger KidAt(f, pilled, procs, c)} :: KidAt(f, pilled, procs, c)
  }

  // The children maps: a child leaves when it is detached.
  predicate LinkAt(f: Forest, procs: seq<Proc>, p: nat, c: nat) {
    p < |procs| && c < |procs| ==> (c in procs[p].children <==> IsKid(f, p, c) && procs[c].pc.Running?)
  }

  ghost predicate LinkInv(f: Forest, procs: seq<Proc>) {
    && (forall p: nat, c: nat {:trigger LinkAt(f, procs, p, c)} :: LinkAt(f, procs, p, c))
    && (forall p: nat, c: nat :: p < |procs| && c in procs[p].children ==> c < |procs|)
  }

  ghost predicate RegistryInv(procs: seq<Proc>, registry: set<nat>) {
    forall p: nat :: p in registry <==> p < |procs| && !Past(procs[p].pc)
  }

  // Who has been told, and that its children were told before it.
  ghost predicate TraceInv(f: Forest, pilled: set<nat>, procs: seq<Proc>, trace: seq<nat>) {
    && (forall p: nat :: p in trace <==> p < |procs| && (procs[p].pc.Told? || procs[p].pc.Gone?))
    && Distinct(trace) && PostOrder(f, pilled, trace)
  }

  ghost predicate PostOrder(f: Forest, pilled: set<nat>, trace: seq<nat>) {
    forall i, c: nat :: 0 <= i < |trace| && IsKid(f, trace[i], c) && c !in pilled ==> c in trace[..i]
  }

  // Outside the tree nothing happens.
  ghost predicate OutsideInv(f: Forest, pilled: set<nat>, procs: seq<Proc>)
    requires Rooted(f)
  {
    forall p: nat :: p < |procs| && p < |f.parent| && !Doomed(f, pilled, p) ==> Quiet(procs[p])
  }

  predicate RootInv(pilled: set<nat>, procs: seq<Proc>) { forall x :: x in pilled ==> x < |procs| && !Quiet(procs[x]) }

  // Everything about the processes alone.
  ghost predicate ProcsInv(f: Forest, pilled: set<nat>, procs: seq<Proc>)
    requires Rooted(f)
  {
    && SelfInv(f, pilled, procs) && AgendaInv(f, pilled, procs) && KidInv(f, pilled, procs)
    && LinkInv(f, procs) && OutsideInv(f, pilled, procs) && RootInv(pilled, procs)
    && Apart(f, pilled)
  }

  ghost predicate Inv(f: Forest, pilled: set<nat>, s: State)
    requires Rooted(f)
  {
    ProcsInv(f, pilled, s.procs) && RegistryInv(s.procs, s.registry) && TraceInv(f, pilled, s.procs, s.trace)
  }

  // ---- one step ----

  lemma {:induction false} UnderLater(f: Forest, root: nat, c: nat)
    requires Rooted(f) && c < |f.parent| && Under(f, root, c)
    ensures root <= c
    decreases c
  {
    if c != root { UnderLater(f, root, f.parent[c].value); }
  }

  lemma {:induction false} DoomedBy(f: Forest, pilled: set<nat>, c: nat) returns (x: nat)
    requires Rooted(f) && c < |f.parent| && Doomed(f, pilled, c)
    ensures x in pilled && Under(f, x, c)
    decreases c
  {
    if c in pilled {
      x := c;
    } else {
      x := DoomedBy(f, pilled, f.parent[c].value);
    }
  }

  // In the tree of a pilled process nobody else is pilled.
  lemma {:induction false} KidUnpilled(f: Forest, pilled: set<nat>, p: nat, c: nat)
    requires Rooted(f) && Apart(f, pilled) && p < |f.parent| && Doomed(f, pilled, p) && IsKid(f, p, c)
    ensures c !in pilled
  {
    var x := DoomedBy(f, pilled, p);
    UnderLater(f, x, p);
    assert Under(f, x, c);
  }

  // A process that is past taking its pill moves on.
  lemma {:induction false} Moves(f: Forest, pilled: set<nat>, procs: seq<Proc>, p: nat, pc: Pc)
    requires Rooted(f) && ProcsInv(f, pilled, procs) && p < |procs|
    requires !procs[p].pc.Running? && !procs[p].pc.Gone? && !pc.Running? && !pc.Detached? && Agenda(f, pilled, p, pc)
    requires forall c: nat :: c < |procs| && IsKid(f, p, c) && c !in pilled ==> KidOk(pc, c, procs[c])
    ensures ProcsInv(f, pilled, procs[p := procs[p].(pc := pc)])
  {
    var after := procs[p := procs[p].(pc := pc)];
    assert Self(f, pilled, p, procs[p]);
    forall q | 0 <= q < |after| ensures Self(f, pilled, q, after[q]) {
      assert Self(f, pilled, q, procs[q]);
    }
    forall q | 0 <= q < |after| ensures Agenda(f, pilled, q, after[q].pc) {
      assert Agenda(f, pilled, q, procs[q].pc);
    }
    forall c: nat ensures KidAt(f, pilled, after, c) {
      assert KidAt(f, pilled, procs, c);
    }
    forall q: nat, c: nat ensures LinkAt(f, after, q, c) {
      assert LinkAt(f, procs, q, c);
    }
  }

  lemma {:induction false} InitInv(f: Forest, pilled: set<nat>)
    requires Rooted(f) && Apart(f, pilled) && forall x :: x in pilled ==> x < |f.parent|
    ensures Inv(f, pilled, Init(f, pilled))
  {
    var s := Init(f, pilled);
    forall p | 0 <= p < |s.procs| ensures Self(f, pilled, p, s.procs[p]) && Agenda(f, pilled, p, s.procs[p].pc) {}
    forall c: nat ensures KidAt(f, pilled, s.procs, c) {}
    forall p: nat, c: nat ensures LinkAt(f, s.procs, p, c) {}
  }

  // A child that is neither quiet nor gone has its parent waiting for it.
  lemma {:induction false} ParentWaits(f: Forest, pilled: set<nat>, procs: seq<Proc>, c: nat)
    requires Rooted(f) && ProcsInv(f, pilled, procs) && c < |procs| && c !in pilled
    requires f.parent[c].Some? && !Quiet(procs[c]) && !procs[c].pc.Gone?
    ensures var pc := procs[f.parent[c].value].pc; pc.Waiting? && pc.todo != [] && pc.todo[0] == c
  {
    assert KidAt(f, pilled, procs, c);
  }

  lemma {:induction false} DetachProcs(f: Forest, pilled: set<nat>, s: State, p: nat)
    requires Rooted(f) && ProcsInv(f, pilled, s.procs) && p < |s.procs| && s.procs[p].pc.Running?
             && s.procs[p].inbox != []
    ensures ProcsInv(f, pilled, Detach(f, s, p).procs)
  {
    var procs, after := s.procs, Detach(f, s, p).procs;
    assert Self(f, pilled, p, procs[p]);
    forall q | 0 <= q < |after| ensures Self(f, pilled, q, after[q]) && Agenda(f, pilled, q, after[q].pc) {
      assert Self(f, pilled, q, procs[q]) && Agenda(f, pilled, q, procs[q].pc);
    }
    forall c: nat ensures KidAt(f, pilled, after, c) {
      assert KidAt(f, pilled, procs, c);
      if c == p && c !in pilled && f.parent[p].Some? { ParentWaits(f, pilled, procs, p); }
    }
    forall q: nat, c: nat ensures LinkAt(f, after, q, c) {
      assert LinkAt(f, procs, q, c);
    }
  }

  lemma {:induction false} SnapshotProcs(f: Forest, pilled: set<nat>, s: State, p: nat, order: seq<nat>)
    requires Rooted(f) && ProcsInv(f, pilled, s.procs) && p < |s.procs|
    requires s.procs[p].pc.Detached? && Lists(order, s.procs[p].children)
    ensures ProcsInv(f, pilled, s.procs[p := s.procs[p].(pc := Cleaning(order))])
  {
    var procs := s.procs;
    assert Doomed(f, pilled, p);
    forall c | c in order ensures IsKid(f, p, c) && c !in pilled {
      assert LinkAt(f, procs, p, c);
      KidUnpilled(f, pilled, p, c);
    }
    forall c: nat | c < |procs| && IsKid(f, p, c) && c !in pilled ensures KidOk(Cleaning(order), c, procs[c]) {
      assert KidAt(f, pilled, procs, c) && LinkAt(f, procs, p, c);
    }
    Moves(f, pilled, procs, p, Cleaning(order));
  }

  // A list that leaves its first element behind.
  lemma {:induction false} TailAgenda(f: Forest, pilled: set<nat>, p: nat, todo: seq<nat>)
    requires todo != [] && Agenda(f, pilled, p, Cleaning(todo))
    ensures Agenda(f, pilled, p, Cleaning(todo[1..])) && todo[0] !in todo[1..]
    ensures forall c :: c in todo <==> c == todo[0] || c in todo[1..]
  {
    assert todo == [todo[0]] + todo[1..];
  }

  lemma {:induction false} CleanUpProcs(f: Forest, pilled: set<nat>, s: State, p: nat, todo: seq<nat>)
    requires Rooted(f) && ProcsInv(f, pilled, s.procs) && RegistryInv(s.procs, s.registry)
    requires p < |s.procs| && s.procs[p].pc == Cleaning(todo)
    ensures ProcsInv(f, pilled, CleanUp(s, p, todo).procs)
    ensures CleanUp(s, p, todo).procs[p].pc == if todo == [] then Removed else Sending(todo)
  {
    var procs := s.procs;
    assert Agenda(f, pilled, p, procs[p].pc);
    forall c: nat | c < |procs| && IsKid(f, p, c) && c !in pilled ensures KidOk(Cleaning(todo), c, procs[c]) {
      assert KidAt(f, pilled, procs, c);
    }
    if todo == [] {
      Moves(f, pilled, procs, p, Removed);
    } else {
      assert IsKid(f, p, todo[0]) && todo[0] in todo;
      Moves(f, pilled, procs, p, Sending(todo));
    }
  }

  lemma {:induction false} SendProcs(f: Forest, pilled: set<nat>, s: State, p: nat, todo: seq<nat>)
    requires Rooted(f) && ProcsInv(f, pilled, s.procs) && RegistryInv(s.procs, s.registry)
    requires p < |s.procs| && s.procs[p].pc == Sending(todo)
    ensures todo != [] && todo[0] < |s.procs| && todo[0] in s.registry
    ensures ProcsInv(f, pilled, SendPill(s, p, todo).procs)
  {
    var procs := s.procs;
    assert Agenda(f, pilled, p, procs[p].pc);
    var c0 := todo[0];
    assert c0 in todo && IsKid(f, p, c0);
    assert KidAt(f, pilled, procs, c0);
    assert Doomed(f, pilled, p);
    var after := SendPill(s, p, todo).procs;
    assert Self(f, pilled, c0, procs[c0]);
    forall q | 0 <= q < |after| ensures Self(f, pilled, q, after[q]) && Agenda(f, pilled, q, after[q].pc) {
      assert Self(f, pilled, q, procs[q]) && Agenda(f, pilled, q, procs[q].pc);
    }
    forall c: nat ensures KidAt(f, pilled, after, c) {
      assert KidAt(f, pilled, procs, c);
    }
    forall q: nat, c: nat ensures LinkAt(f, after, q, c) {
      assert LinkAt(f, procs, q, c);
    }
  }

  lemma {:induction false} WaitProcs(f: Forest, pilled: set<nat>, s: State, p: nat, todo: seq<nat>)
    requires Rooted(f) && ProcsInv(f, pilled, s.procs) && p < |s.procs| && s.procs[p].pc == Waiting(todo)
    requires todo != [] && todo[0] < |s.procs| && s.procs[todo[0]].pc.Gone?
    ensures ProcsInv(f, pilled, s.procs[p := s.procs[p].(pc := Cleaning(todo[1..]))])
  {
    var procs := s.procs;
    assert Agenda(f, pilled, p, procs[p].pc);
    TailAgenda(f, pilled, p, todo);
    forall c: nat | c < |procs| && IsKid(f, p, c) && c !in pilled ensures KidOk(Cleaning(todo[1..]), c, procs[c]) {
      assert KidAt(f, pilled, procs, c);
    }
    Moves(f, pilled, procs, p, Cleaning(todo[1..]));
  }

  lemma {:induction false} PastProcs(f: Forest, pilled: set<nat>, s: State, p: nat, pc: Pc)
    requires Rooted(f) && ProcsInv(f, pilled, s.procs) && p < |s.procs|
    requires (s.procs[p].pc.Removed? && pc == Told) || (s.procs[p].pc.Told? && pc == Gone)
    ensures ProcsInv(f, pilled, s.procs[p := s.procs[p].(pc := pc)])
    ensures forall c: nat :: c < |s.procs| && IsKid(f, p, c) && c !in pilled ==> s.procs[c].pc.Gone?
  {
    forall c: nat | c < |s.procs| && IsKid(f, p, c) && c !in pilled ensures KidOk(pc, c, s.procs[c]) {
      assert KidAt(f, pilled, s.procs, c);
    }
    Moves(f, pilled, s.procs, p, pc);
  }

  // Stopped is delivered to p after all its children.
  lemma {:induction false} ToldTrace(f: Forest, pilled: set<nat>, s: State, p: nat)
    requires Rooted(f) && TraceInv(f, pilled, s.procs, s.trace) && p < |s.procs| && s.procs[p].pc.Removed?
    requires |s.procs| == |f.parent|
    requires forall c: nat :: c < |s.procs| && IsKid(f, p, c) && c !in pilled ==> s.procs[c].pc.Gone?
    ensures TraceInv(f, pilled, s.procs[p := s.procs[p].(pc := Told)], s.trace + [p])
  {
    var trace := s.trace + [p];
    forall i, c: nat | 0 <= i < |trace| && IsKid(f, trace[i], c) && c !in pilled ensures c in trace[..i] {
      assert i < |s.trace| ==> trace[..i] == s.trace[..i];
      assert i == |s.trace| ==> trace[..i] == s.trace;
    }
  }

  // ---- every step, every run ----

  lemma {:induction false} StepProcs(f: Forest, pilled: set<nat>, s: State, a: Step)
    requires Rooted(f) && ProcsInv(f, pilled, s.procs) && RegistryInv(s.procs, s.registry) && Enabled(s, a)
    ensures ProcsInv(f, pilled, Apply(f, s, a).procs)
  {
    var p, pc := a.p, s.procs[a.p].pc;
    if pc.Running? {
      DetachProcs(f, pilled, s, p);
    } else if pc.Detached? {
      SnapshotProcs(f, pilled, s, p, a.order);
    } else if pc.Cleaning? {
      CleanUpProcs(f, pilled, s, p, pc.todo);
    } else if pc.Sending? {
      SendProcs(f, pilled, s, p, pc.todo);
    } else if pc.Waiting? {
      WaitProcs(f, pilled, s, p, pc.todo);
    } else {
      PastProcs(f, pilled, s, p, if pc.Removed? then Told else Gone);
    }
  }

  lemma {:induction false} StepTrace(f: Forest, pilled: set<nat>, s: State, a: Step)
    requires Rooted(f) && Inv(f, pilled, s) && Enabled(s, a)
    ensures TraceInv(f, pilled, Apply(f, s, a).procs, Apply(f, s, a).trace)
  {
    if s.procs[a.p].pc.Removed? {
      PastProcs(f, pilled, s, a.p, Told);
      ToldTrace(f, pilled, s, a.p);
    }
  }

  lemma {:induction false} StepInv(f: Forest, pilled: set<nat>, s: State, a: Step)
    requires Rooted(f) && Inv(f, pilled, s) && Enabled(s, a)
    ensures Inv(f, pilled, Apply(f, s, a))
  {
    StepProcs(f, pilled, s, a);
    StepTrace(f, pilled, s, a);
    StepRegistry(f, s, a);
  }

  lemma {:induction false} StepRegistry(f: Forest, s: State, a: Step)
    requires RegistryInv(s.procs, s.registry) && Enabled(s, a)
    ensures RegistryInv(Apply(f, s, a).procs, Apply(f, s, a).registry)
  {
  }

  lemma {:induction false} RunInv(f: Forest, pilled: set<nat>, steps: seq<Step>, s: State, t: State)
    requires Rooted(f) && Inv(f, pilled, s) && Runs(f, steps, s, t)
    ensures Inv(f, pilled, t)
    decreases |steps|
  {
    if steps != [] {
      StepInv(f, pilled, s, steps[0]);
      RunInv(f, pilled, steps[1..], Apply(f, s, steps[0]), t);
    }
  }

  lemma {:induction false} ReachedInv(f: Forest, pilled: set<nat>, steps: seq<Step>, t: State)
    requires Reached(f, pilled, steps, t) && Apart(f, pilled)
    ensures Inv(f, pilled, t)
  {
    InitInv(f, pilled);
    RunInv(f, pilled, steps, Init(f, pilled), t);
  }

  /** Stopped is delivered at most once per process, and only in the trees. */
  lemma {:induction false} StoppedOnce(f: Forest, pilled: set<nat>, steps: seq<Step>, t: State)
    requires Reached(f, pilled, steps, t) && Apart(f, pilled)
    ensures forall i, j :: 0 <= i < j < |t.trace| ==> t.trace[i] != t.trace[j]
    ensures forall p :: p in t.trace ==> p < |f.parent| && Doomed(f, pilled, p)
  {
    ReachedInv(f, pilled, steps, t);
  }

  /** Post-order: every descendant is stopped before its ancestor. */
  lemma {:induction false} DescendantsFirst(f: Forest, pilled: set<nat>, steps: seq<Step>, t: State, i: nat, d: nat)
    requires Reached(f, pilled, steps, t) && Apart(f, pilled) && i < |t.trace|
    requires d < |f.parent| && d != t.trace[i] && Under(f, t.trace[i], d)
    ensures d in t.trace[..i]
    decreases d
  {
    ReachedInv(f, pilled, steps, t);
    var a, q := t.trace[i], f.parent[d].value;
    assert a in t.trace;
    if q != a {
      DescendantsFirst(f, pilled, steps, t, i, q);
      var j :| 0 <= j < i && t.trace[j] == q;
      assert q in t.trace;
      KidUnpilled(f, pilled, q, d);
      assert IsKid(f, t.trace[j], d);
      assert d in t.trace[..j];
    } else {
      KidUnpilled(f, pilled, a, d);
      assert IsKid(f, t.trace[i], d);
    }
  }

  lemma {:induction false} GoneBelow(f: Forest, pilled: set<nat>, s: State, x: nat, p: nat)
    requires Rooted(f) && Inv(f, pilled, s) && x in pilled && s.procs[x].pc.Gone? && p < |s.procs| && Under(f, x, p)
    ensures s.procs[p].pc.Gone?
    decreases p
  {
    if p != x {
      GoneBelow(f, pilled, s, x, f.parent[p].value);
      assert p !in pilled;
      assert KidAt(f, pilled, s.procs, p);
    }
  }

  /** When the cancel of a pill from outside fires, every process of that tree
      has had its Stopped and is out of the registry, whatever else goes on. */
  lemma {:induction false} TreeComplete(f: Forest, pilled: set<nat>, steps: seq<Step>, t: State, x: nat, p: nat)
    requires Reached(f, pilled, steps, t) && Apart(f, pilled)
    requires x in pilled && Finished({x}, t) && p < |f.parent| && Under(f, x, p)
    ensures p in t.trace && p !in t.registry
  {
    ReachedInv(f, pilled, steps, t);
    GoneBelow(f, pilled, t, x, p);
  }

  /** When all of them have fired, exactly the processes of those trees have had
      their Stopped, the registry is the old one minus exactly the trees, and the
      other processes are as they were, but for the links to the roots. */
  lemma {:induction false} ShutdownComplete(f: Forest, pilled: set<nat>, steps: seq<Step>, t: State)
    requires Reached(f, pilled, steps, t) && Apart(f, pilled) && Finished(pilled, t)
    ensures |t.procs| == |f.parent|
    ensures forall p: nat :: p in t.trace <==> p < |f.parent| && Doomed(f, pilled, p)
    ensures forall p: nat :: p in t.registry <==> p < |f.parent| && !Doomed(f, pilled, p)
    ensures forall p: nat :: p < |f.parent| && !Doomed(f, pilled, p) ==>
              Quiet(t.procs[p]) && t.procs[p].children == Kids(f, p) - pilled
  {
    ReachedInv(f, pilled, steps, t);
    forall p: nat | p < |f.parent| && Doomed(f, pilled, p) ensures t.procs[p].pc.Gone? {
      var x := DoomedBy(f, pilled, p);
      GoneBelow(f, pilled, t, x, p);
    }
    forall p: nat | p < |f.parent| && !Doomed(f, pilled, p) ensures t.procs[p].children == Kids(f, p) - pilled {
      forall c: nat ensures c in t.procs[p].children <==> c in Kids(f, p) - pilled {
        assert LinkAt(f, t.procs, p, c) && KidAt(f, pilled, t.procs, c);
      }
    }
  }

  // ---- it ends ----

  lemma {:induction false} SomeOrder(xs: set<nat>) returns (order: seq<nat>)
    ensures Lists(order, xs)
    decreases |xs|
  {
    if xs == {} {
      order := [];
    } else {
      var x :| x in xs;
      var rest := SomeOrder(xs - {x});
      order := [x] + rest;
    }
  }

  lemma {:induction false} SomeoneMoves(f: Forest, pilled: set<nat>, s: State, p: nat) returns (a: Step)
    requires Rooted(f) && Inv(f, pilled, s) && p < |s.procs| && !Quiet(s.procs[p]) && !s.procs[p].pc.Gone?
    ensures Enabled(s, a)
    decreases |s.procs| - p
  {
    var m := s.procs[p];
    assert Agenda(f, pilled, p, m.pc);
    a := Step(p, []);
    if m.pc.Detached? {
      var order := SomeOrder(m.children);
      a := Step(p, order);
    } else if m.pc.Waiting? {
      var c := m.pc.todo[0];
      assert IsKid(f, p, c) && KidAt(f, pilled, s.procs, c) && Self(f, pilled, c, s.procs[c]);
      if !s.procs[c].pc.Gone? {
        a := SomeoneMoves(f, pilled, s, c);
      }
    } else if m.pc.Sending? {
      assert IsKid(f, p, m.pc.todo[0]);
    }
  }

  /** No interleaving gets stuck: until the cancels have all fired, some process can move. */
  lemma {:induction false} NeverStuck(f: Forest, pilled: set<nat>, steps: seq<Step>, t: State) returns (a: Step)
    requires Reached(f, pilled, steps, t) && Apart(f, pilled) && !Finished(pilled, t)
    ensures Enabled(t, a)
  {
    ReachedInv(f, pilled, steps, t);
    var x :| x in pilled && !(x < |t.procs| && t.procs[x].pc.Gone? && t.procs[x].taken == Some(Pill(None)));
    assert Self(f, pilled, x, t.procs[x]);
    a := SomeoneMoves(f, pilled, t, x);
  }

  // Moves a process has left, in a forest of n.
  function Left(n: nat, pc: Pc): nat {
    match pc
    case Running => 3 * n + 6
    case Detached => 3 * n + 5
    case Cleaning(todo) => 3 * |todo| + 4
    case Sending(todo) => 3 * |todo| + 3
    case Waiting(todo) => 3 * |todo| + 2
    case Removed => 3
    case Told => 2
    case Gone => 1
  }

  function Total(procs: seq<Proc>, k: nat): nat
    requires k <= |procs|
  {
    if k == 0 then 0 else Total(procs, k - 1) + Left(|procs|, procs[k - 1].pc)
  }

  // Only p's program counter changes.
  predicate OnlyMoves(before: seq<Proc>, after: seq<Proc>, p: nat) {
    |after| == |before| && forall q :: 0 <= q < |before| && q != p ==> after[q].pc == before[q].pc
  }

  lemma {:induction false} TotalDrops(before: seq<Proc>, after: seq<Proc>, p: nat, k: nat)
    requires OnlyMoves(before, after, p) && p < |before| && k <= |before|
    requires Left(|before|, after[p].pc) < Left(|before|, before[p].pc)
    ensures if p < k then Total(after, k) < Total(before, k) else Total(after, k) == Total(before, k)
  {
    if k > 0 { TotalDrops(before, after, p, k - 1); }
  }

  lemma {:induction false} FewDistinct(todo: seq<nat>, n: nat)
    requires Distinct(todo) && forall x :: x in todo ==> x < n
    ensures |todo| <= n
    decreases n
  {
    if todo != [] {
      assert todo[0] in todo && n > 0;
      if n - 1 in todo {
        var i :| 0 <= i < |todo| && todo[i] == n - 1;
        var rest := todo[..i] + todo[i + 1..];
        forall x | x in rest ensures x < n - 1 {
          assert x in todo;
        }
        FewDistinct(rest, n - 1);
      } else {
        FewDistinct(todo, n - 1);
      }
    }
  }

  // All that ending takes: children are processes of the forest.
  predicate Bounded(s: State) {
    forall p: nat, c: nat :: p < |s.procs| && c in s.procs[p].children ==> c < |s.procs|
  }

  lemma {:induction false} StepLeft(f: Forest, s: State, a: Step)
    requires Bounded(s) && Enabled(s, a)
    ensures OnlyMoves(s.procs, Apply(f, s, a).procs, a.p) && Bounded(Apply(f, s, a))
    ensures Left(|s.procs|, Apply(f, s, a).procs[a.p].pc) < Left(|s.procs|, s.procs[a.p].pc)
  {
    if s.procs[a.p].pc.Detached? {
      FewDistinct(a.order, |s.procs|);
    }
  }

  lemma {:induction false} StepDown(f: Forest, s: State, a: Step)
    requires Bounded(s) && Enabled(s, a)
    ensures var u := Apply(f, s, a);
            Bounded(u) && |u.procs| == |s.procs| && Total(u.procs, |u.procs|) < Total(s.procs, |s.procs|)
  {
    StepLeft(f, s, a);
    TotalDrops(s.procs, Apply(f, s, a).procs, a.p, |s.procs|);
  }

  lemma {:induction false} RunsDown(f: Forest, steps: seq<Step>, s: State, t: State)
    requires Bounded(s) && Runs(f, steps, s, t)
    ensures Bounded(t) && |t.procs| == |s.procs|
    ensures |steps| + Total(t.procs, |t.procs|) <= Total(s.procs, |s.procs|)
    decreases |steps|
  {
    if steps != [] {
      StepDown(f, s, steps[0]);
      RunsDown(f, steps[1..], Apply(f, s, steps[0]), t);
    }
  }

  lemma {:induction false} TotalAtMost(procs: seq<Proc>, k: nat)
    requires k <= |procs| && forall p :: 0 <= p < |procs| ==> procs[p].pc.Running?
    ensures Total(procs, k) == k * (3 * |procs| + 6)
  {
    if k > 0 { TotalAtMost(procs, k - 1); }
  }

  /** And none goes on for ever, whoever is pilled. */
  lemma {:induction false} AlwaysEnds(f: Forest, pilled: set<nat>, steps: seq<Step>, t: State)
    requires Reached(f, pilled, steps, t)
    ensures |steps| <= |f.parent| * (3 * |f.parent| + 6)
  {
    RunsDown(f, steps, Init(f, pilled), t);
    TotalAtMost(Init(f, pilled).procs, |f.parent|);
  }
}
