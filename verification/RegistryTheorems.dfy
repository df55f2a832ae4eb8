/** The registry behaves like one plain map. */
module RegistryTheorems {
  import opened Options
  import opened Registry

  // ---- the invariant ----

  // A goroutine that clones holds the lock, its clone is a part of the
  // current snapshot, what it adds is new, and what it removes is not a pending response.
  predicate CloneOk(pc: Pc, s: State) {
    Cloning(pc) ==>
      && pc.from == s.snap && pc.clone.Keys <= Wanted(pc)
      && (forall k :: k in pc.clone ==> k in pc.from && pc.clone[k] == pc.from[k])
      && (pc.AddCloning? ==> pc.id !in s.snap)
      && (pc.RemCloning? && IsResponse(pc.id) ==> pc.id !in s.responses)
  }

  // A pending get has seen the present value.
  predicate WindowOk(pc: Pc, s: State) {
    && ((pc.Getting? || pc.Missed?) ==> Lookup(s, pc.id) in pc.seen)
    && (pc.Missed? ==> IsResponse(pc.id))
  }

  ghost predicate ThreadOk(s: State, t: nat) {
    t < |s.threads| ==>
      var pc := s.threads[t];
      && (Cloning(pc) <==> s.lock == Some(t)) && CloneOk(pc, s) && WindowOk(pc, s)
  }

  ghost predicate ThreadsInv(s: State) { forall t: nat {:trigger ThreadOk(s, t)} :: ThreadOk(s, t) }

  function Count(ids: seq<Id>, id: Id): nat {
    if ids == [] then 0 else Count(ids[..|ids| - 1], id) + (if ids[|ids| - 1] == id then 1 else 0)
  }

  // Every ID was installed once more than it was dropped if it is there, else as often.
  ghost predicate CountAt(s: State, id: Id) {
    Count(s.installed, id) == Count(s.dropped, id) + if id in s.snap then 1 else 0
  }

  ghost predicate CountInv(s: State) { forall id {:trigger CountAt(s, id)} :: CountAt(s, id) }

  ghost predicate Inv(s: State) {
    ThreadsInv(s) && CountInv(s) && (s.lock.Some? ==> s.lock.value < |s.threads|)
  }

  lemma {:induction false} InitInv(n: nat)
    ensures Inv(Init(n))
  {
    var s := Init(n);
    forall t: nat ensures ThreadOk(s, t) {}
    forall id ensures CountAt(s, id) {}
  }

  // The IDs of responses, and no others, begin with "response/".
  lemma {:induction false} ResponseIds(id: Id)
    ensures IsResponse(id) <==> exists rest: string :: id == "response/" + rest
  {
    if IsResponse(id) { assert id == "response/" + id[9..]; }
  }

  // ---- what a step does to the plain map ----

  // s and u hold the same but for what the change says about one key.
  datatype Change = Same | Put(id: Id, proc: Proc) | Drop(id: Id)

  ghost predicate Changes(s: State, u: State, c: Change) {
    forall id: Id {:trigger Lookup(u, id)} ::
      Lookup(u, id) == if c.Put? && id == c.id then Some(c.proc)
                       else if c.Drop? && id == c.id then None
                       else Lookup(s, id)
  }

  // The change a step is meant to make: an add or a removal when it publishes, a response when it is
  // entered or removed, unless an actor under the same ID hides it.
  function Meant(s: State, a: Step): Change
    requires Enabled(s, a)
  {
    var pc := s.threads[a.t];
    if !a.act.Go? then Same
    else if pc.AddCloning? then Put(pc.id, pc.proc)
    else if pc.RemCloning? then Drop(pc.id)
    else if pc.Removing? && IsResponse(pc.id) && pc.id in s.responses && pc.id !in s.snap then Drop(pc.id)
    else if pc.Registering? && IsResponse(pc.id) && pc.id !in s.snap then Put(pc.id, pc.proc)
    else Same
  }

  /** Every step either leaves the plain map alone or makes exactly the one change
      it is meant to make, and no write disturbs any other key. */
  lemma {:induction false} StepChanges(s: State, a: Step)
    requires Inv(s) && Enabled(s, a)
    ensures Changes(s, Apply(s, a), Meant(s, a))
  {
    assert ThreadOk(s, a.t);
    var u, v := Effect(s, a.t, a.act), Apply(s, a);
    assert v.snap == u.snap && v.responses == u.responses;
  }

  // ---- a step keeps the invariant ----

  lemma {:induction false} CountSnoc(ids: seq<Id>, x: Id, id: Id)
    ensures Count(ids + [x], id) == Count(ids, id) + if x == id then 1 else 0
  {
    assert (ids + [x])[..|ids|] == ids;
  }

  lemma {:induction false} StepCount(s: State, a: Step, id: Id)
    requires Inv(s) && Enabled(s, a)
    ensures CountAt(Apply(s, a), id)
  {
    var pc := s.threads[a.t];
    assert ThreadOk(s, a.t) && CountAt(s, id);
    if Cloning(pc) {
      CountSnoc(s.installed, pc.id, id);
      CountSnoc(s.dropped, pc.id, id);
    }
  }

  // The goroutine that moved, before it takes note of the new value.
  lemma {:induction false} MovedOk(s: State, a: Step)
    requires Inv(s) && Enabled(s, a)
    ensures ThreadOk(Apply(s, a), a.t)
  {
    assert ThreadOk(s, a.t);
  }

  lemma {:induction false} OtherOk(s: State, a: Step, t: nat)
    requires Inv(s) && Enabled(s, a) && t != a.t
    ensures ThreadOk(Apply(s, a), t)
  {
    assert ThreadOk(s, a.t) && ThreadOk(s, t);
  }

  lemma {:induction false} StepInv(s: State, a: Step)
    requires Inv(s) && Enabled(s, a)
    ensures Inv(Apply(s, a))
  {
    forall id ensures CountAt(Apply(s, a), id) {
      StepCount(s, a, id);
    }
    forall t: nat ensures ThreadOk(Apply(s, a), t) {
      if t == a.t { MovedOk(s, a); } else { OtherOk(s, a, t); }
    }
  }

  // ---- one ID ----

  // No actor takes the ID if it is a response's, and a finished get of it returns a value it has seen.
  predicate OwnOk(pc: Pc, id: Id) {
    && ((pc.Adding? || pc.AddCloning?) && pc.id == id ==> !IsResponse(id))
    && (pc.Got? && pc.id == id ==> pc.result in pc.seen)
  }

  ghost predicate OwnAt(s: State, t: nat, id: Id) { t < |s.threads| ==> OwnOk(s.threads[t], id) }

  ghost predicate IdInv(s: State, id: Id) {
    && (IsResponse(id) ==> id !in s.snap)
    && forall t: nat {:trigger OwnAt(s, t, id)} :: OwnAt(s, t, id)
  }

  lemma {:induction false} StepId(s: State, a: Step, id: Id)
    requires Inv(s) && IdInv(s, id) && Enabled(s, a) && (AddsUnder(a, id) ==> !IsResponse(id))
    ensures IdInv(Apply(s, a), id)
  {
    var v := Apply(s, a);
    assert ThreadOk(s, a.t) && OwnAt(s, a.t, id);
    ActThreads(s, a);
    forall t: nat ensures OwnAt(v, t, id) {
      assert OwnAt(s, t, id);
    }
  }

  // ---- runs ----

  // v follows s by step a; under a quantifier, so that proofs about whole runs do not look inside.
  ghost predicate Follows(seal: Seal, s: State, a: Step, v: State) { Enabled(s, a) && v == Apply(s, a) }

  ghost predicate Next(s: State, a: Step, v: State) { forall seal: Seal :: Follows(seal, s, a, v) }

  // The states of a run, one more than its steps.
  ghost predicate NextAt(states: seq<State>, steps: seq<Step>, k: nat) {
    k < |steps| && |states| == |steps| + 1 ==> Next(states[k], steps[k], states[k + 1])
  }

  // A run of n goroutines from an empty registry.
  ghost predicate IsRun(n: nat, states: seq<State>, steps: seq<Step>) {
    && |states| == |steps| + 1 && states[0] == Init(n)
    && (forall k: nat {:trigger NextAt(states, steps, k)} :: NextAt(states, steps, k))
  }

  // Nobody adds an actor under the ID in the first k steps.
  predicate NoAdd(steps: seq<Step>, k: nat, id: Id)
    requires k <= |steps|
  {
    forall i :: 0 <= i < k ==> !AddsUnder(steps[i], id)
  }

  lemma {:induction false} NextInv(s: State, a: Step, v: State)
    requires Inv(s) && Next(s, a, v)
    ensures Inv(v)
  {
    assert Follows(Seal, s, a, v);
    StepInv(s, a);
  }

  lemma {:induction false} RunInv(n: nat, states: seq<State>, steps: seq<Step>, k: nat)
    requires IsRun(n, states, steps) && k < |states|
    ensures Inv(states[k])
  {
    if k == 0 {
      InitInv(n);
    } else {
      RunInv(n, states, steps, k - 1);
      assert NextAt(states, steps, k - 1);
      NextInv(states[k - 1], steps[k - 1], states[k]);
    }
  }

  // ---- reads ----

  predicate Pending(pc: Pc, id: Id) { (pc.Getting? || pc.Missed?) && pc.id == id }

  // What a get has seen by now, or had when it returned.
  predicate Saw(pc: Pc, id: Id, v: Option<Proc>) {
    (pc.Getting? || pc.Missed? || pc.Got?) && pc.id == id && v in pc.seen
  }

  // In state j goroutine t was in a get of id, and in state k it is still in that call, or just done with it.
  ghost predicate SameCall(states: seq<State>, steps: seq<Step>, t: nat, id: Id, j: nat, k: nat) {
    && j <= k < |states| == |steps| + 1 && t < |states[j].threads| && Pending(states[j].threads[t], id)
    && forall i :: j <= i < k ==> !(steps[i].t == t && steps[i].act.Call?)
  }

  lemma {:induction false} ObserveSaw(u: State, pc: Pc, id: Id, x: Option<Proc>)
    requires Saw(Observe(u, pc), id, x)
    ensures (Pending(Observe(u, pc), id) && x == Lookup(u, id)) || Saw(pc, id, x)
  {
  }

  lemma {:induction false} MovedSaw(s: State, a: Step, id: Id, x: Option<Proc>)
    requires Enabled(s, a) && Saw(Effect(s, a.t, a.act).threads[a.t], id, x)
    ensures Saw(s.threads[a.t], id, x) && !a.act.Call?
  {
  }

  lemma {:induction false} ActThreads(s: State, a: Step)
    requires Enabled(s, a)
    ensures var u := Effect(s, a.t, a.act);
            |u.threads| == |s.threads| && u.threads == s.threads[a.t := u.threads[a.t]]
  {
  }

  // Where a step leaves a goroutine's window.
  lemma {:induction false} WindowStep(s: State, a: Step, v: State, t: nat, id: Id, x: Option<Proc>)
    requires Next(s, a, v) && t < |v.threads| && Saw(v.threads[t], id, x)
    ensures t < |s.threads|
    ensures (Pending(v.threads[t], id) && x == Lookup(v, id)) || (Saw(s.threads[t], id, x) && !(a.t == t
            && a.act.Call?))
  {
    assert Follows(Seal, s, a, v);
    var u := Effect(s, a.t, a.act);
    ActThreads(s, a);
    ObserveSaw(u, u.threads[t], id, x);
    if Saw(u.threads[t], id, x) && a.t == t { MovedSaw(s, a, id, x); }
  }

  lemma {:induction false} SeenThen(
    n: nat, states: seq<State>, steps: seq<Step>, t: nat, id: Id, x: Option<Proc>, k: nat)
    returns (j: nat)
    requires IsRun(n, states, steps) && k < |states| && t < |states[k].threads| && Saw(states[k].threads[t], id, x)
    ensures SameCall(states, steps, t, id, j, k) && Lookup(states[j], id) == x
    decreases k
  {
    assert k > 0;
    assert NextAt(states, steps, k - 1);
    WindowStep(states[k - 1], steps[k - 1], states[k], t, id, x);
    if Pending(states[k].threads[t], id) && x == Lookup(states[k], id) {
      j := k;
    } else {
      j := SeenThen(n, states, steps, t, id, x, k - 1);
    }
  }

  lemma {:induction false} RunId(n: nat, states: seq<State>, steps: seq<Step>, k: nat, id: Id)
    requires IsRun(n, states, steps) && k < |states| && (IsResponse(id) ==> NoAdd(steps, k, id))
    ensures IdInv(states[k], id)
  {
    if k == 0 {
      forall t: nat ensures OwnAt(Init(n), t, id) {}
    } else {
      RunId(n, states, steps, k - 1, id);
      RunInv(n, states, steps, k - 1);
      assert NextAt(states, steps, k - 1);
      NextId(states[k - 1], steps[k - 1], states[k], id);
    }
  }

  lemma {:induction false} NextId(s: State, a: Step, v: State, id: Id)
    requires Inv(s) && IdInv(s, id) && Next(s, a, v) && (AddsUnder(a, id) ==> !IsResponse(id))
    ensures IdInv(v, id)
  {
    assert Follows(Seal, s, a, v);
    StepId(s, a, id);
  }

  // In state k goroutine t has just returned from a get of id.
  ghost predicate GotAt(states: seq<State>, k: nat, t: nat, id: Id) {
    k < |states| && t < |states[k].threads| && states[k].threads[t].Got? && states[k].threads[t].id == id
  }

  // The get returned what the plain map held in state j, which was during the call.
  ghost predicate HeldAt(states: seq<State>, steps: seq<Step>, k: nat, t: nat, id: Id, j: nat)
    requires GotAt(states, k, t, id)
  {
    SameCall(states, steps, t, id, j, k) && Lookup(states[j], id) == states[k].threads[t].result
  }

  /** Linearizable reads: in every interleaving, what a get returns is what the
      plain map held for that ID at some moment during the call, unless the ID
      is a response's and an actor has been added under it. */
  lemma {:induction false} GetLinearizable(n: nat, states: seq<State>, steps: seq<Step>, k: nat, t: nat, id: Id)
    returns (j: nat)
    requires IsRun(n, states, steps) && GotAt(states, k, t, id) && (IsResponse(id) ==> NoAdd(steps, k, id))
    ensures HeldAt(states, steps, k, t, id, j)
  {
    RunId(n, states, steps, k, id);
    assert OwnAt(states[k], t, id);
    j := SeenThen(n, states, steps, t, id, states[k].threads[t].result, k);
  }

  // All gets of the ID are linearizable, whatever is added and removed.
  ghost predicate AlwaysLinearizable(id: Id) {
    forall n, states, steps, k, t :: IsRun(n, states, steps) && GotAt(states, k, t, id) ==>
      exists j :: HeldAt(states, steps, k, t, id, j)
  }

  /** And exactly the IDs of responses are in danger. */
  lemma {:induction false} LinearizableIff(id: Id)
    ensures AlwaysLinearizable(id) <==> !IsResponse(id)
  {
    if IsResponse(id) {
      var states, steps := StaleGet(id);
      assert GotAt(states, 11, 0, id);
    } else {
      forall n, states, steps, k, t | IsRun(n, states, steps) && GotAt(states, k, t, id)
        ensures exists j :: HeldAt(states, steps, k, t, id, j)
      {
        var j := GetLinearizable(n, states, steps, k, t, id);
      }
    }
  }

  // ---- competing adds ----

  function StartingOf(threads: seq<Pc>, id: Id, k: nat): nat
    requires k <= |threads|
  {
    if k == 0 then 0
    else StartingOf(threads, id, k - 1) + if threads[k - 1].Starting? && threads[k - 1].id == id then 1 else 0
  }

  lemma {:induction false} StartingUpdate(a: seq<Pc>, b: seq<Pc>, t: nat, id: Id, k: nat)
    requires k <= |a| == |b| && t < |a|
    requires forall i :: 0 <= i < |a| && i != t ==>
             (a[i].Starting? && a[i].id == id <==> b[i].Starting? && b[i].id == id)
    ensures k <= t ==> StartingOf(b, id, k) == StartingOf(a, id, k)
    ensures k > t ==> StartingOf(b, id, k) + (if a[t].Starting? && a[t].id == id then 1 else 0)
                      == StartingOf(a, id, k) + (if b[t].Starting? && b[t].id == id then 1 else 0)
    decreases k
  {
    if k > 0 { StartingUpdate(a, b, t, id, k - 1); }
  }

  lemma {:induction false} StartingPositive(threads: seq<Pc>, t: nat, k: nat)
    requires t < k <= |threads| && threads[t].Starting?
    ensures StartingOf(threads, threads[t].id, k) > 0
    decreases k
  {
    if t < k - 1 { StartingPositive(threads, t, k - 1); }
  }

  lemma {:induction false} NoneStarting(threads: seq<Pc>, id: Id, k: nat)
    requires k <= |threads| && forall i :: 0 <= i < |threads| ==> threads[i].Idle?
    ensures StartingOf(threads, id, k) == 0
  {
    if k > 0 { NoneStarting(threads, id, k - 1); }
  }

  // Publishing and starting, as the logs have it.
  lemma {:induction false} StepLogs(s: State, a: Step, v: State)
    requires Next(s, a, v)
    ensures a.t < |s.threads| == |v.threads|
    ensures var was, now := s.threads[a.t], v.threads[a.t];
            && v.installed == (if now.Starting? then s.installed + [now.id] else s.installed)
            && v.started == (if was.Starting? then s.started + [was.id] else s.started)
    ensures forall i :: 0 <= i < |s.threads| && i != a.t ==>
              v.threads[i].Starting? == s.threads[i].Starting? && (s.threads[i].Starting? ==>
                v.threads[i] == s.threads[i])
  {
    assert Follows(Seal, s, a, v);
    ActThreads(s, a);
  }

  // What is installed is started, or about to be.
  ghost predicate StartOk(s: State, id: Id) {
    Count(s.installed, id) == Count(s.started, id) + StartingOf(s.threads, id, |s.threads|)
  }

  lemma {:induction false} StepStarts(s: State, a: Step, v: State, id: Id)
    requires Next(s, a, v) && StartOk(s, id)
    ensures StartOk(v, id) && Count(v.installed, id) >= Count(s.installed, id)
  {
    StepLogs(s, a, v);
    var was, now := s.threads[a.t], v.threads[a.t];
    StartingUpdate(s.threads, v.threads, a.t, id, |s.threads|);
    if now.Starting? { CountSnoc(s.installed, now.id, id); }
    if was.Starting? { CountSnoc(s.started, was.id, id); }
  }

  // An add that is over was installed, or refused by one that was.
  ghost predicate OverOk(s: State, t: nat) {
    t < |s.threads| && (s.threads[t].Refused? || s.threads[t].Started?) ==> Count(s.installed, s.threads[t].id) > 0
  }

  lemma {:induction false} OverThen(s: State, a: Step, v: State, t: nat)
    requires Next(s, a, v) && t < |v.threads| && (v.threads[t].Refused? || v.threads[t].Started?)
    ensures t < |s.threads|
    ensures var was, pc := s.threads[t], v.threads[t];
            was == pc || (was.Starting? && was.id == pc.id) || (was.Adding? && was.id == pc.id && pc.id in s.snap)
  {
    assert Follows(Seal, s, a, v);
    ActThreads(s, a);
  }

  lemma {:induction false} StepOver(s: State, a: Step, v: State, t: nat)
    requires Inv(s) && Next(s, a, v) && (forall id :: StartOk(s, id)) && OverOk(s, t)
    ensures OverOk(v, t)
  {
    if t < |v.threads| && (v.threads[t].Refused? || v.threads[t].Started?) {
      var id := v.threads[t].id;
      OverThen(s, a, v, t);
      assert StartOk(s, id) && CountAt(s, id);
      StepStarts(s, a, v, id);
      if s.threads[t].Starting? { StartingPositive(s.threads, t, |s.threads|); }
    }
  }

  lemma {:induction false} RunAdds(n: nat, states: seq<State>, steps: seq<Step>, k: nat)
    requires IsRun(n, states, steps) && k < |states|
    ensures (forall id :: StartOk(states[k], id)) && forall t: nat :: OverOk(states[k], t)
  {
    if k == 0 {
      forall id ensures StartOk(Init(n), id) {
        NoneStarting(Init(n).threads, id, n);
      }
    } else {
      RunAdds(n, states, steps, k - 1);
      RunInv(n, states, steps, k - 1);
      assert NextAt(states, steps, k - 1);
      forall id ensures StartOk(states[k], id) {
        StepStarts(states[k - 1], steps[k - 1], states[k], id);
      }
      forall t: nat ensures OverOk(states[k], t) {
        StepOver(states[k - 1], steps[k - 1], states[k], t);
      }
    }
  }

  /** Of all adds of one ID that nobody removed, exactly one is installed once any
      of them has returned, and exactly that one is started, or about to be. */
  lemma {:induction false} OneAddWins(n: nat, states: seq<State>, steps: seq<Step>, k: nat, t: nat)
    requires IsRun(n, states, steps) && k < |states| && t < |states[k].threads|
    requires states[k].threads[t].Refused? || states[k].threads[t].Started?
    ensures var s := states[k]; var id := s.threads[t].id;
            && Count(s.installed, id) == Count(s.started, id) + StartingOf(s.threads, id, |s.threads|)
            && Count(s.installed, id) == Count(s.dropped, id) + (if id in s.snap then 1 else 0)
            && (Count(s.dropped, id) == 0 ==> id in s.snap && Count(s.installed, id) == 1)
  {
    RunInv(n, states, steps, k);
    RunAdds(n, states, steps, k);
    var id := states[k].threads[t].id;
    assert CountAt(states[k], id) && StartOk(states[k], id) && OverOk(states[k], t);
  }

  // ---- an actor under the id of a response ----

  // A reader, a writer, and what the writer has logged.
  function Two(snap: map<Id, Proc>, responses: map<Id, Proc>, lock: Option<nat>, reader: Pc, writer: Pc,
               installed: seq<Id>, started: seq<Id>): State
  {
    State(snap, responses, lock, [reader, writer], installed, started, [])
  }

  // The reader after it has missed the id in the snapshot.
  function Late(id: Id, snap: map<Id, Proc>, lock: Option<nat>, seen: set<Option<Proc>>, writer: Pc,
                installed: seq<Id>, started: seq<Id>): State
  {
    Two(snap, map[id := 1], lock, Missed(id, seen), writer, installed, started)
  }

  const BOTH: set<Option<Proc>> := {Some(1), Some(2)}

  // A response is entered, the reader misses it in the snapshot, an actor is added under
  // the same id, the response is removed, and the reader looks among the responses.
  function Stale(id: Id, k: nat): State {
    if k == 0 then Two(map[], map[], None, Idle, Idle, [], [])
    else if k == 1 then Two(map[], map[], None, Idle, Registering(id, 1), [], [])
    else if k == 2 then Two(map[], map[id := 1], None, Idle, Idle, [], [])
    else if k == 3 then Two(map[], map[id := 1], None, Getting(id, {Some(1)}), Idle, [], [])
    else if k == 4 then Late(id, map[], None, {Some(1)}, Idle, [], [])
    else if k == 5 then Late(id, map[], None, {Some(1)}, Adding(id, 2), [], [])
    else if k == 6 then Late(id, map[], Some(1), {Some(1)}, AddCloning(id, 2, map[], map[]), [], [])
    else if k == 7 then Late(id, map[id := 2], None, BOTH, Starting(id, 2), [id], [])
    else if k == 8 then Late(id, map[id := 2], None, BOTH, Started(id, 2), [id], [id])
    else if k == 9 then Late(id, map[id := 2], None, BOTH, Removing(id), [id], [id])
    else if k == 10 then Two(map[id := 2], map[], None, Missed(id, BOTH), Idle, [id], [id])
    else Two(map[id := 2], map[], None, Got(id, None, BOTH), Idle, [id], [id])
  }

  function Move(id: Id, k: nat): Step {
    if k == 0 then Step(1, Call(Register(id, 1)))
    else if k == 2 then Step(0, Call(Get(id)))
    else if k == 4 then Step(1, Call(Add(id, 2)))
    else if k == 8 then Step(1, Call(Remove(id)))
    else Step(if k == 3 || k == 10 then 0 else 1, Go)
  }

  lemma {:induction false} Does(id: Id, k: nat)
    requires Enabled(Stale(id, k), Move(id, k))
    requires var v := Apply(Stale(id, k), Move(id, k));
             v == Stale(id, k + 1).(threads := v.threads) && v.threads == Stale(id, k + 1).threads
    ensures Next(Stale(id, k), Move(id, k), Stale(id, k + 1))
  {
  }

  lemma {:induction false} StaleBegins(id: Id)
    requires IsResponse(id)
    ensures forall k: nat :: k < 4 ==> Next(Stale(id, k), Move(id, k), Stale(id, k + 1))
  {
    assert {} + {Some(1)} == {Some(1)} && {Some(1)} + {Some(1)} == {Some(1)};
    Does(id, 0);
    Does(id, 1);
    Does(id, 2);
    Does(id, 3);
  }

  lemma {:induction false} StaleClones(id: Id)
    requires IsResponse(id)
    ensures forall k: nat :: 4 <= k < 6 ==> Next(Stale(id, k), Move(id, k), Stale(id, k + 1))
  {
    assert {Some(1)} + {Some(1)} == {Some(1)};
    Does(id, 4);
    Does(id, 5);
  }

  lemma {:induction false} StaleAdds(id: Id)
    requires IsResponse(id)
    ensures forall k: nat :: 6 <= k < 8 ==> Next(Stale(id, k), Move(id, k), Stale(id, k + 1))
  {
    assert {Some(1)} + {Some(2)} == BOTH && BOTH + {Some(2)} == BOTH;
    Does(id, 6);
    Does(id, 7);
  }

  lemma {:induction false} StaleEnds(id: Id)
    requires IsResponse(id)
    ensures forall k: nat :: 8 <= k < 11 ==> Next(Stale(id, k), Move(id, k), Stale(id, k + 1))
  {
    assert BOTH + {Some(2)} == BOTH && map[id := 1] - {id} == map[];
    Does(id, 8);
    Does(id, 9);
    Does(id, 10);
  }

  /** Whatever the response: add an actor under its ID, and a get can return nil
      although the plain map held the ID all through the call. */
  lemma {:induction false} StaleGet(id: Id) returns (states: seq<State>, steps: seq<Step>)
    requires IsResponse(id)
    ensures IsRun(2, states, steps) && |steps| == 11 && GotAt(states, 11, 0, id)
    ensures forall j: nat :: SameCall(states, steps, 0, id, j, 11) ==> Lookup(states[j], id).Some?
    ensures forall j: nat :: !HeldAt(states, steps, 11, 0, id, j)
  {
    StaleBegins(id);
    StaleClones(id);
    StaleAdds(id);
    StaleEnds(id);
    states := seq(12, (k: nat) => Stale(id, k));
    steps := seq(11, (k: nat) => Move(id, k));
    assert Stale(id, 0).threads == Init(2).threads;
    forall k: nat ensures NextAt(states, steps, k) {
      assert k < 4 || 4 <= k < 6 || 6 <= k < 8 || 8 <= k;
    }
    forall j: nat | SameCall(states, steps, 0, id, j, 11) ensures Lookup(states[j], id).Some? {
      assert states[j] == Stale(id, j);
    }
  }
}
