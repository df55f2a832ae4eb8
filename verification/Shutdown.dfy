/**
 Shutting down a tree of processes: process.cleanup (actor/process.go), the
 poison pills of Engine.Poison (actor/engine.go) and the parent and children
 links that Context.SpawnChild makes (actor/context.go).

 Every process runs on its own goroutine, so this is an interleaving: a step
 lets one process make its next move. Processes are numbered in the order they
 were spawned, which puts a parent before its children.
 */
module Shutdown {
  import opened Options

  // The parent of every process, if it has one.
  datatype Forest = Forest(parent: seq<Option<nat>>)

  predicate Rooted(f: Forest) {
    forall c :: 0 <= c < |f.parent| && f.parent[c].Some? ==> f.parent[c].value < c
  }

  predicate IsKid(f: Forest, p: nat, c: nat) { c < |f.parent| && f.parent[c] == Some(p) }

  function Kids(f: Forest, p: nat): set<nat> { set c: nat | c < |f.parent| && IsKid(f, p, c) }

  // c is in the tree under root.
  predicate Under(f: Forest, root: nat, c: nat)
    requires Rooted(f) && c < |f.parent|
    decreases c
  {
    c == root || (f.parent[c].Some? && Under(f, root, f.parent[c].value))
  }

  // c is in the tree of a member of the set.
  predicate Doomed(f: Forest, pilled: set<nat>, c: nat)
    requires Rooted(f) && c < |f.parent|
    decreases c
  {
    c in pilled || (f.parent[c].Some? && Doomed(f, pilled, f.parent[c].value))
  }

  // No member of the set is in the tree of another.
  predicate Apart(f: Forest, pilled: set<nat>)
    requires Rooted(f)
  {
    forall x, y :: x in pilled && y in pilled && y < |f.parent| && Under(f, x, y) ==> x == y
  }

  // A pill, and who waits for its cancel: the parent, or someone outside.
  datatype Pill = Pill(waiter: Option<nat>)

  datatype Pc =
    | Running
    | Detached                  // took the pill, deleted itself from the parent's children
    | Cleaning(todo: seq<nat>)  // children still to be poisoned
    | Sending(todo: seq<nat>)   // the first of them was found in the registry
    | Waiting(todo: seq<nat>)   // its pill is sent
    | Removed                   // inbox stopped, out of the registry
    | Told                      // Stopped delivered
    | Gone                      // cancel called

  datatype Proc = Proc(pc: Pc, inbox: seq<Pill>, taken: Option<Pill>, children: set<nat>)

  datatype State = State(procs: seq<Proc>, registry: set<nat>, trace: seq<nat>)

  function Numbers(n: nat): (r: set<nat>)
    ensures forall p: nat :: p in r <==> p < n
  {
    if n == 0 then {} else Numbers(n - 1) + {n - 1}
  }

  // Everyone runs, and some have just been sent a pill from outside.
  function InitProc(f: Forest, pilled: set<nat>, p: nat): Proc {
    Proc(Running, if p in pilled then [Pill(None)] else [], None, Kids(f, p))
  }

  function Init(f: Forest, pilled: set<nat>): State {
    State(seq(|f.parent|, p requires 0 <= p < |f.parent| => InitProc(f, pilled, p)), Numbers(|f.parent|), [])
  }

  // One move of process p; order is how ranging over the map of children happens to come out.
  datatype Step = Step(p: nat, order: seq<nat>)

  predicate Lists(order: seq<nat>, xs: set<nat>) {
    && (forall x :: x in order ==> x in xs) && (forall x :: x in xs ==> x in order)
    && (forall i, j :: 0 <= i < j < |order| ==> order[i] != order[j])
  }

  predicate Enabled(s: State, a: Step) {
    a.p < |s.procs| &&
    var m := s.procs[a.p];
    match m.pc
    case Running => m.inbox != []
    case Detached => Lists(a.order, m.children)
    case Waiting(todo) => todo != [] && todo[0] < |s.procs| && Cancelled(s.procs[todo[0]], a.p)
    case Sending(todo) => todo != [] && todo[0] < |s.procs|
    case Gone => false
    case _ => true
  }

  // The pill that p sent has had its cancel called.
  predicate Cancelled(m: Proc, p: nat) { m.pc.Gone? && m.taken == Some(Pill(Some(p))) }

  function Apply(f: Forest, s: State, a: Step): State
    requires Enabled(s, a)
  {
    var m := s.procs[a.p];
    match m.pc
    case Running => Detach(f, s, a.p)
    case Detached => With(s, a.p, m.(pc := Cleaning(a.order)))
    case Cleaning(todo) => CleanUp(s, a.p, todo)
    case Sending(todo) => SendPill(s, a.p, todo)
    case Waiting(todo) => With(s, a.p, m.(pc := Cleaning(todo[1..])))
    case Removed => With(s, a.p, m.(pc := Told)).(trace := s.trace + [a.p])
    case _ => With(s, a.p, m.(pc := Gone))
  }

  function With(s: State, p: nat, m: Proc): State
    requires p < |s.procs|
  {
    s.(procs := s.procs[p := m])
  }

  // Invoke takes the pill; cleanup deletes the process from its parent's children.
  function Detach(f: Forest, s: State, p: nat): State
    requires p < |s.procs| && s.procs[p].inbox != []
  {
    var m := s.procs[p];
    var t := With(s, p, m.(pc := Detached, inbox := m.inbox[1..], taken := Some(m.inbox[0])));
    if p < |f.parent| && f.parent[p].Some? && f.parent[p].value < |s.procs| then
      var q := f.parent[p].value;
      With(t, q, t.procs[q].(children := t.procs[q].children - {p}))
    else t
  }

  // The loop over the children: sendPoisonPill looks the next one up; when none is left, stop and deregister.
  function CleanUp(s: State, p: nat, todo: seq<nat>): State
    requires p < |s.procs|
  {
    var m := s.procs[p];
    if todo == [] then With(s, p, m.(pc := Removed)).(registry := s.registry - {p})
    else if todo[0] in s.registry && todo[0] < |s.procs| then With(s, p, m.(pc := Sending(todo)))
    else With(s, p, m.(pc := Cleaning(todo[1..])))
  }

  // SendLocal looks it up again; a pill for a process that is gone by now is a dead letter.
  function SendPill(s: State, p: nat, todo: seq<nat>): State
    requires p < |s.procs| && todo != [] && todo[0] < |s.procs|
  {
    var t := With(s, p, s.procs[p].(pc := Waiting(todo)));
    var c := todo[0];
    if c in s.registry then With(t, c, t.procs[c].(inbox := t.procs[c].inbox + [Pill(Some(p))])) else t
  }

  // ---- runs ----

  ghost predicate Runs(f: Forest, steps: seq<Step>, s: State, t: State)
    decreases |steps|
  {
    if steps == [] then t == s
    else Enabled(s, steps[0]) && Runs(f, steps[1..], Apply(f, s, steps[0]), t)
  }

  // t is reached from the pills by some interleaving.
  ghost predicate Reached(f: Forest, pilled: set<nat>, steps: seq<Step>, t: State) {
    Rooted(f) && (forall x :: x in pilled ==> x < |f.parent|) && Runs(f, steps, Init(f, pilled), t)
  }

  // Nobody can move any more.
  ghost predicate Stuck(s: State) { forall a: Step :: !Enabled(s, a) }

  // The cancels of all the pills from outside have been called.
  predicate Finished(pilled: set<nat>, s: State) {
    forall x :: x in pilled ==> x < |s.procs| && s.procs[x].pc.Gone? && s.procs[x].taken == Some(Pill(None))
  }
}
