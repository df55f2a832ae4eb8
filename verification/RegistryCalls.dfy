/** What each call on the registry answers and achieves, whatever the other goroutines do. */
module RegistryCalls {
  import opened Options
  import opened Registry
  import opened RegistryTheorems

  // Goroutine t calls op in step i, and in state k it is still in that call, or done with it.
  ghost predicate CallAt(states: seq<State>, steps: seq<Step>, i: nat, k: nat, t: nat, op: Op) {
    && i < k < |states| == |steps| + 1 && steps[i] == Step(t, Call(op)) && t < |states[k].threads|
    && forall j :: i < j < k ==> !(steps[j].t == t && steps[j].act.Call?)
  }

  predicate Returned(pc: Pc) { pc.Idle? || pc.Got? || pc.Started? || pc.Refused? }

  // The goroutine is in the call, or back from it.
  predicate Doing(op: Op, pc: Pc) {
    match op
    case Get(id) => (pc.Getting? || pc.Missed? || pc.Got?) && pc.id == id
    case Add(id, proc) =>
      (pc.Adding? || pc.AddCloning? || pc.Starting? || pc.Started? || pc.Refused?) && pc.id == id && pc.proc == proc
    case Remove(id) => pc.Idle? || ((pc.Removing? || pc.RemCloning?) && pc.id == id)
    case Register(id, proc) => pc.Idle? || (pc.Registering? && pc.id == id && pc.proc == proc)
  }

  // The call has had its effect.
  predicate Past(pc: Pc) { Returned(pc) || pc.Starting? }

  /** What a call achieves by the step from s to v. An add puts its process under
      an ID that was free, or is refused because the ID is taken. A removal leaves
      nothing under the ID; only where an actor has the ID of a pending response is
      the response removed alone. */
  predicate Achieves(op: Op, refused: bool, s: State, v: State) {
    match op
    case Get(id) => true
    case Add(id, proc) =>
      if refused then id in v.snap else id !in s.snap && Lookup(v, id) == Some(proc)
    case Remove(id) =>
      Lookup(v, id) == None || (IsResponse(id) && id in v.snap && id in s.responses && id !in v.responses)
    case Register(id, proc) =>
      id in v.responses && v.responses[id] == proc
  }

  lemma {:induction false} Begins(s: State, a: Step, v: State)
    requires Next(s, a, v) && a.act.Call?
    ensures a.t < |v.threads| && Doing(a.act.op, v.threads[a.t]) && !Past(v.threads[a.t])
  {
    assert Follows(Seal, s, a, v);
  }

  lemma {:induction false} OthersStay(s: State, a: Step, v: State, t: nat)
    requires Next(s, a, v) && t < |v.threads| && t != a.t
    ensures t < |s.threads| && Past(v.threads[t]) == Past(s.threads[t])
    ensures forall op :: Doing(op, s.threads[t]) ==> Doing(op, v.threads[t])
    ensures v.threads[t].Refused? == s.threads[t].Refused?
  {
    assert Follows(Seal, s, a, v);
    ActThreads(s, a);
  }

  lemma {:induction false} GoesOn(s: State, a: Step, v: State, op: Op)
    requires Next(s, a, v) && !a.act.Call? && a.t < |s.threads| && Doing(op, s.threads[a.t])
    ensures a.t < |v.threads| && Doing(op, v.threads[a.t])
    ensures Past(s.threads[a.t]) ==> Past(v.threads[a.t]) && v.threads[a.t].Refused? == s.threads[a.t].Refused?
  {
    assert Follows(Seal, s, a, v);
  }

  lemma {:induction false} HasEffect(s: State, a: Step, v: State, op: Op)
    requires Inv(s) && Next(s, a, v) && !a.act.Call? && a.t < |s.threads| == |v.threads| && Doing(op, s.threads[a.t])
    requires !Past(s.threads[a.t]) && Past(v.threads[a.t])
    ensures Achieves(op, v.threads[a.t].Refused?, s, v)
  {
    assert Follows(Seal, s, a, v);
    assert ThreadOk(s, a.t);
  }

  // The call achieved what it is for in the step into state j, which was during the call.
  ghost predicate AchievedAt(states: seq<State>, i: nat, k: nat, t: nat, op: Op, j: nat) {
    && i < j <= k < |states| && t < |states[k].threads|
    && Achieves(op, states[k].threads[t].Refused?, states[j - 1], states[j])
  }

  lemma {:induction false} InCall(
    n: nat, states: seq<State>, steps: seq<Step>, i: nat, k: nat, t: nat, op: Op) returns (j: nat)
    requires IsRun(n, states, steps) && CallAt(states, steps, i, k, t, op)
    ensures Doing(op, states[k].threads[t])
    ensures Past(states[k].threads[t]) ==> AchievedAt(states, i, k, t, op, j)
    decreases k
  {
    assert NextAt(states, steps, k - 1);
    var s, a, v := states[k - 1], steps[k - 1], states[k];
    if k == i + 1 {
      Begins(s, a, v);
      j := k;
    } else {
      if a.t == t { assert Follows(Seal, s, a, v); } else { OthersStay(s, a, v, t); }
      j := InCall(n, states, steps, i, k - 1, t, op);
      if a.t == t {
        RunInv(n, states, steps, k - 1);
        GoesOn(s, a, v, op);
        if !Past(s.threads[t]) && Past(v.threads[t]) {
          HasEffect(s, a, v, op);
          j := k;
        }
      }
    }
  }

  /** A finished get answers what the plain map held under its ID at some moment of
      the call, unless the ID is a response's and an actor has been added under it. */
  lemma {:induction false} GetAnswered(
    n: nat, states: seq<State>, steps: seq<Step>, i: nat, k: nat, t: nat, id: Id) returns (j: nat)
    requires IsRun(n, states, steps) && CallAt(states, steps, i, k, t, Get(id)) && Returned(states[k].threads[t])
    requires IsResponse(id) ==> NoAdd(steps, k, id)
    ensures states[k].threads[t].Got? && i < j <= k && Lookup(states[j], id) == states[k].threads[t].result
  {
    var _ := InCall(n, states, steps, i, k, t, Get(id));
    j := GetLinearizable(n, states, steps, k, t, id);
  }

  /** A finished add has put its process under its ID, where there was none, at some
      moment of the call, and started it; or the ID was taken at some moment. */
  lemma {:induction false} AddAnswered(
    n: nat, states: seq<State>, steps: seq<Step>, i: nat, k: nat, t: nat, id: Id, proc: Proc) returns (j: nat)
    requires IsRun(n, states, steps) && CallAt(states, steps, i, k, t, Add(id, proc)) && Returned(states[k].threads[t])
    ensures i < j <= k && states[k].threads[t] in {Started(id, proc), Refused(id, proc)}
    ensures if states[k].threads[t].Refused? then id in states[j].snap
            else id !in states[j - 1].snap && Lookup(states[j], id) == Some(proc)
  {
    j := InCall(n, states, steps, i, k, t, Add(id, proc));
  }

  /** At some moment of a finished removal there was nothing under its ID; or there
      was an actor and a pending response under it, and the response was removed. */
  lemma {:induction false} RemoveAnswered(
    n: nat, states: seq<State>, steps: seq<Step>, i: nat, k: nat, t: nat, id: Id) returns (j: nat)
    requires IsRun(n, states, steps) && CallAt(states, steps, i, k, t, Remove(id)) && Returned(states[k].threads[t])
    ensures i < j <= k && (IsResponse(id) ==> id !in states[j].responses)
    ensures Lookup(states[j], id) == None || (IsResponse(id) && id in states[j].snap && id in states[j - 1].responses)
    ensures !IsResponse(id) || NoAdd(steps, k, id) ==> Lookup(states[j], id) == None
  {
    j := InCall(n, states, steps, i, k, t, Remove(id));
    if NoAdd(steps, k, id) { RunId(n, states, steps, j, id); }
  }

  /** At some moment of a finished registration its process was the one to be found
      under its ID, if that is a response's and no actor hides it. */
  lemma {:induction false} RegisterAnswered(
    n: nat, states: seq<State>, steps: seq<Step>, i: nat, k: nat, t: nat, id: Id, proc: Proc) returns (j: nat)
    requires IsRun(n, states, steps) && CallAt(states, steps, i, k, t, Register(id, proc))
    requires Returned(states[k].threads[t])
    ensures i < j <= k && id in states[j].responses && states[j].responses[id] == proc
    ensures IsResponse(id) && id !in states[j].snap ==> Lookup(states[j], id) == Some(proc)
  {
    j := InCall(n, states, steps, i, k, t, Register(id, proc));
  }

  // ---- every call returns ----

  // The moves a goroutine has before it, the copying of entries aside.
  function Rank(pc: Pc): nat {
    if Returned(pc) then 0
    else if pc.Missed? || pc.Starting? || pc.RemCloning? || pc.Registering? then 1
    else if pc.Getting? || pc.AddCloning? || pc.Removing? then 2
    else 3
  }

  function Ranks(threads: seq<Pc>, k: nat): nat
    requires k <= |threads|
  {
    if k == 0 then 0 else Ranks(threads, k - 1) + Rank(threads[k - 1])
  }

  // The entries still to be copied.
  function Left(pc: Pc): nat { if Cloning(pc) then |Wanted(pc) - pc.clone.Keys| else 0 }

  function Uncopied(s: State): nat {
    if s.lock.Some? && s.lock.value < |s.threads| then Left(s.threads[s.lock.value]) else 0
  }

  lemma {:induction false} RanksUpdate(a: seq<Pc>, b: seq<Pc>, t: nat, k: nat)
    requires k <= |a| == |b| && t < |a| && forall i :: 0 <= i < |a| && i != t ==> Rank(a[i]) == Rank(b[i])
    ensures Ranks(a, k) + (if t < k then Rank(b[t]) else 0) == Ranks(b, k) + (if t < k then Rank(a[t]) else 0)
    decreases k
  {
    if k > 0 { RanksUpdate(a, b, t, k - 1); }
  }

  lemma {:induction false} ObserveRank(u: State, pc: Pc)
    ensures Rank(Observe(u, pc)) == Rank(pc) && Left(Observe(u, pc)) == Left(pc)
  {
  }

  lemma {:induction false} GoRank(s: State, t: nat)
    requires Enabled(s, Step(t, Go))
    ensures Rank(Effect(s, t, Go).threads[t]) < Rank(s.threads[t])
  {
  }

  lemma {:induction false} CopyRank(s: State, t: nat, key: Id)
    requires Enabled(s, Step(t, Copy(key)))
    ensures var u := Effect(s, t, Copy(key));
            && Rank(u.threads[t]) == Rank(s.threads[t]) && Left(u.threads[t]) < Left(s.threads[t])
            && Cloning(s.threads[t]) && u.lock == s.lock
  {
    var pc := s.threads[t];
    var pc1 := Copied(pc, key);
    assert Wanted(pc) - pc.clone.Keys == (Wanted(pc1) - pc1.clone.Keys) + {key};
  }

  lemma {:induction false} StepRanks(s: State, a: Step, v: State)
    requires Next(s, a, v) && !a.act.Call?
    ensures a.t < |s.threads| == |v.threads|
    ensures forall i :: 0 <= i < |s.threads| && i != a.t ==> Rank(s.threads[i]) == Rank(v.threads[i])
    ensures if a.act.Go? then Rank(v.threads[a.t]) < Rank(s.threads[a.t])
            else Rank(v.threads[a.t]) == Rank(s.threads[a.t]) && Left(v.threads[a.t]) < Left(s.threads[a.t])
    ensures a.act.Copy? ==> Cloning(s.threads[a.t]) && v.lock == s.lock
  {
    assert Follows(Seal, s, a, v);
    ActThreads(s, a);
    var u := Effect(s, a.t, a.act);
    forall i | 0 <= i < |s.threads|
      ensures Rank(v.threads[i]) == Rank(u.threads[i]) && Left(v.threads[i]) == Left(u.threads[i])
    {
      ObserveRank(u, u.threads[i]);
    }
    if a.act.Copy? { CopyRank(s, a.t, a.act.key); } else { GoRank(s, a.t); }
  }

  // A step that is no call brings the end nearer.
  lemma {:induction false} StepShrinks(s: State, a: Step, v: State)
    requires Inv(s) && Next(s, a, v) && !a.act.Call?
    ensures |s.threads| == |v.threads|
    ensures var (was, now) := (Ranks(s.threads, |s.threads|), Ranks(v.threads, |v.threads|));
            now < was || (now == was && Uncopied(v) < Uncopied(s))
  {
    StepRanks(s, a, v);
    RanksUpdate(s.threads, v.threads, a.t, |s.threads|);
    assert ThreadOk(s, a.t);
  }

  // While a call is not over, some goroutine can go on: the one that holds the lock, or any that is not done.
  lemma {:induction false} NeverBlocked(s: State, t: nat) returns (a: Step)
    requires Inv(s) && t < |s.threads| && !Returned(s.threads[t])
    ensures Enabled(s, a) && !a.act.Call?
  {
    var h := if s.lock.Some? then s.lock.value else t;
    var pc := s.threads[h];
    assert ThreadOk(s, t) && ThreadOk(s, h);
    if Cloning(pc) && pc.clone.Keys != Wanted(pc) {
      assert exists key :: key in Wanted(pc) && key !in pc.clone;
      var key :| key in Wanted(pc) && key !in pc.clone;
      a := Step(h, Copy(key));
    } else {
      a := Step(h, Go);
    }
  }

  ghost predicate Calls(a: Step) { a.act.Call? }

  lemma {:induction false} Extend(n: nat, states: seq<State>, steps: seq<Step>, a: Step)
    requires IsRun(n, states, steps) && Enabled(states[|steps|], a)
    ensures IsRun(n, states + [Apply(states[|steps|], a)], steps + [a])
  {
    var states1, steps1 := states + [Apply(states[|steps|], a)], steps + [a];
    forall k: nat ensures NextAt(states1, steps1, k) {
      assert NextAt(states, steps, k);
    }
  }

  lemma {:induction false} Finish(n: nat, states: seq<State>, steps: seq<Step>, a: Step)
    requires IsRun(n, states, steps) && Enabled(states[|steps|], a) && !a.act.Call?
    ensures var s, v := states[|steps|], Apply(states[|steps|], a);
            && IsRun(n, states + [v], steps + [a]) && |v.threads| == |s.threads|
            && var (was, now) := (Ranks(s.threads, |s.threads|), Ranks(v.threads, |v.threads|));
               now < was || (now == was && Uncopied(v) < Uncopied(s))
  {
    var s, v := states[|steps|], Apply(states[|steps|], a);
    RunInv(n, states, steps, |steps|);
    Extend(n, states, steps, a);
    assert Next(s, a, v);
    StepShrinks(s, a, v);
  }

  /** Every call returns: whatever has happened so far, the goroutines can finish
      all their calls without a new one, and by StepShrinks every way of going on
      does so. */
  lemma {:induction false} CallsFinish(n: nat, states: seq<State>, steps: seq<Step>)
    returns (more: seq<State>, moves: seq<Step>)
    requires IsRun(n, states, steps)
    ensures IsRun(n, states + more, steps + moves) && forall a :: a in moves ==> !Calls(a)
    ensures var s := (states + more)[|steps + moves|];
            forall t :: 0 <= t < |s.threads| ==> Returned(s.threads[t])
    decreases Ranks(states[|steps|].threads, |states[|steps|].threads|), Uncopied(states[|steps|])
  {
    var s := states[|steps|];
    RunInv(n, states, steps, |steps|);
    if t: nat :| t < |s.threads| && !Returned(s.threads[t]) {
      var a := NeverBlocked(s, t);
      var v := Apply(s, a);
      Finish(n, states, steps, a);
      more, moves := CallsFinish(n, states + [v], steps + [a]);
      assert states + [v] + more == states + ([v] + more) && steps + [a] + moves == steps + ([a] + moves);
      more, moves := [v] + more, [a] + moves;
    } else {
      more, moves := [], [];
      assert states + [] == states && steps + [] == steps;
    }
  }
}
