/**
 The process registry (actor/registry.go): a copy-on-write snapshot that readers
 load without a lock, and a table of pending responses. Writers hold the mutex
 while they clone the snapshot, entry by entry, and publish the clone. Any
 number of goroutines call in at any time; a step is one atomic action of one.
 */
module Registry {
  import opened Options

  type Id = string
  type Proc = int

  const RESPONSE_PREFIX: string := "response/"

  predicate IsResponse(id: Id) { RESPONSE_PREFIX <= id }

  datatype Op = Get(id: Id) | Add(id: Id, proc: Proc) | Remove(id: Id) | Register(id: Id, proc: Proc)

  // Where a goroutine is. seen collects what the plain map has held for id since the call began.
  datatype Pc =
    | Idle
    | Getting(id: Id, seen: set<Option<Proc>>)
    | Missed(id: Id, seen: set<Option<Proc>>)
    | Got(id: Id, result: Option<Proc>, seen: set<Option<Proc>>)
    | Adding(id: Id, proc: Proc)
    | AddCloning(id: Id, proc: Proc, from: map<Id, Proc>, clone: map<Id, Proc>)
    | Starting(id: Id, proc: Proc)
    | Started(id: Id, proc: Proc)
    | Refused(id: Id, proc: Proc)
    | Removing(id: Id)
    | RemCloning(id: Id, from: map<Id, Proc>, clone: map<Id, Proc>)
    | Registering(id: Id, proc: Proc)

  datatype State = State(
    snap: map<Id, Proc>,
    responses: map<Id, Proc>,
    lock: Option<nat>,
    threads: seq<Pc>,
    installed: seq<Id>,   // IDs in the order in which add published them
    started: seq<Id>,     // IDs of the processes that add went on to start
    dropped: seq<Id>)     // IDs in the order in which Remove took them out of the snapshot

  function Init(n: nat): State { State(map[], map[], None, seq(n, _ => Idle), [], [], []) }

  // The plain map that the two tables stand for.
  function Lookup(s: State, id: Id): Option<Proc> {
    if id in s.snap then Some(s.snap[id])
    else if IsResponse(id) && id in s.responses then Some(s.responses[id])
    else None
  }

  datatype Act = Call(op: Op) | Go | Copy(key: Id)

  datatype Step = Step(t: nat, act: Act)

  predicate Cloning(pc: Pc) { pc.AddCloning? || pc.RemCloning? }

  // The keys a clone is to have in the end.
  function Wanted(pc: Pc): set<Id>
    requires Cloning(pc)
  {
    if pc.AddCloning? then pc.from.Keys else pc.from.Keys - {pc.id}
  }

  predicate NeedsLock(pc: Pc) { pc.Missed? || pc.Adding? || pc.Removing? || pc.Registering? }

  predicate Enabled(s: State, a: Step) {
    a.t < |s.threads| &&
    var pc := s.threads[a.t];
    if a.act.Call? then pc.Idle? || pc.Got? || pc.Started? || pc.Refused?
    else if a.act.Copy? then Cloning(pc) && a.act.key in Wanted(pc) && a.act.key !in pc.clone
    else if Cloning(pc) then pc.clone.Keys == Wanted(pc)
    else pc.Getting? || pc.Starting? || (NeedsLock(pc) && s.lock.None?)
  }

  // Every pending get takes note of what the plain map holds now.
  function Observe(s: State, pc: Pc): Pc {
    if pc.Getting? then Getting(pc.id, pc.seen + {Lookup(s, pc.id)})
    else if pc.Missed? then Missed(pc.id, pc.seen + {Lookup(s, pc.id)})
    else pc
  }

  function Noted(s: State): State {
    s.(threads := seq(|s.threads|, i requires 0 <= i < |s.threads| => Observe(s, s.threads[i])))
  }

  function Apply(s: State, a: Step): State
    requires Enabled(s, a)
  {
    Noted(Effect(s, a.t, a.act))
  }

  function At(s: State, t: nat, pc: Pc): State
    requires t < |s.threads|
  {
    s.(threads := s.threads[t := pc])
  }

  function Called(op: Op): Pc {
    match op
    case Get(id) => Getting(id, {})
    case Add(id, proc) => Adding(id, proc)
    case Remove(id) => Removing(id)
    case Register(id, proc) => Registering(id, proc)
  }

  // One entry more in the clone.
  function Copied(pc: Pc, key: Id): Pc
    requires Cloning(pc) && key in pc.from
  {
    var clone := pc.clone[key := pc.from[key]];
    if pc.AddCloning? then AddCloning(pc.id, pc.proc, pc.from, clone) else RemCloning(pc.id, pc.from, clone)
  }

  function Effect(s: State, t: nat, act: Act): State
    requires Enabled(s, Step(t, act))
  {
    var pc := s.threads[t];
    if act.Call? then At(s, t, Called(act.op))
    else if act.Copy? then At(s, t, Copied(pc, act.key))
    else if pc.Getting? then Load(s, t)
    else if pc.Missed? then
      At(s, t, Got(pc.id, if pc.id in s.responses then Some(s.responses[pc.id]) else None, pc.seen))
    else if pc.Adding? then BeginAdd(s, t)
    else if pc.AddCloning? then
      At(s, t, Starting(pc.id, pc.proc))
        .(snap := pc.clone[pc.id := pc.proc], lock := None, installed := s.installed + [pc.id])
    else if pc.Starting? then At(s, t, Started(pc.id, pc.proc)).(started := s.started + [pc.id])
    else if pc.Removing? then BeginRemove(s, t)
    else if pc.RemCloning? then
      At(s, t, Idle)
        .(snap := pc.clone, lock := None,
          dropped := if pc.id in pc.from then s.dropped + [pc.id] else s.dropped)
    else At(s, t, Idle).(responses := s.responses[pc.id := pc.proc])
  }

  // get: load the snapshot; a response that is not there is looked for under the lock.
  function Load(s: State, t: nat): State
    requires t < |s.threads| && s.threads[t].Getting?
  {
    var pc := s.threads[t];
    if pc.id in s.snap then At(s, t, Got(pc.id, Some(s.snap[pc.id]), pc.seen))
    else if IsResponse(pc.id) then At(s, t, Missed(pc.id, pc.seen))
    else At(s, t, Got(pc.id, None, pc.seen))
  }

  // add: with the lock held, refuse an ID that is taken, else start cloning.
  function BeginAdd(s: State, t: nat): State
    requires t < |s.threads| && s.threads[t].Adding?
  {
    var pc := s.threads[t];
    if pc.id in s.snap then At(s, t, Refused(pc.id, pc.proc))
    else At(s, t, AddCloning(pc.id, pc.proc, s.snap, map[])).(lock := Some(t))
  }

  // Remove: a pending response is deleted in place, anything else by cloning without it.
  function BeginRemove(s: State, t: nat): State
    requires t < |s.threads| && s.threads[t].Removing?
  {
    var pc := s.threads[t];
    if IsResponse(pc.id) && pc.id in s.responses then At(s, t, Idle).(responses := s.responses - {pc.id})
    else At(s, t, RemCloning(pc.id, s.snap, map[])).(lock := Some(t))
  }

  // The call of add for an actor with the ID.
  predicate AddsUnder(a: Step, id: Id) { a.act.Call? && a.act.op.Add? && a.act.op.id == id }
}
