/** Which processes may be poisoned from outside at the same time, exactly. */
module ShutdownHang {
  import opened Options
  import opened Shutdown
  import opened ShutdownTheorems

  // ---- runs ----

  lemma {:induction false} RunsThen(f: Forest, a: seq<Step>, s: State, u: State, b: Step)
    requires Runs(f, a, s, u) && Enabled(u, b)
    ensures Runs(f, a + [b], s, Apply(f, u, b))
  {
    assert [b][1..] == [] && Runs(f, [], Apply(f, u, b), Apply(f, u, b));
    RunsAppend(f, a, [b], s, u, Apply(f, u, b));
  }

  lemma {:induction false} RunsAppend(f: Forest, a: seq<Step>, b: seq<Step>, s: State, u: State, t: State)
    requires Runs(f, a, s, u) && Runs(f, b, u, t)
    ensures Runs(f, a + b, s, t)
    decreases |a|
  {
    if a == [] {
      assert a + b == b;
    } else {
      assert (a + b)[0] == a[0] && (a + b)[1..] == a[1..] + b;
      RunsAppend(f, a[1..], b, Apply(f, s, a[0]), u, t);
    }
  }

  // Every run can be carried on until nobody can move.
  lemma {:induction false} RunOn(f: Forest, s: State) returns (steps: seq<Step>, t: State)
    requires Bounded(s)
    ensures Runs(f, steps, s, t) && Stuck(t)
    decreases Total(s.procs, |s.procs|)
  {
    if Stuck(s) {
      steps, t := [], s;
    } else {
      var a :| Enabled(s, a);
      StepDown(f, s, a);
      var rest;
      rest, t := RunOn(f, Apply(f, s, a));
      steps := [a] + rest;
      assert steps[1..] == rest;
    }
  }

  // ---- the path from x down to q ----

  predicate OnPath(f: Forest, x: nat, q: nat, r: nat)
    requires Rooted(f) && q < |f.parent|
  {
    r < |f.parent| && r != q && Under(f, x, r) && Under(f, r, q)
  }

  // r waits for the next process on the way down to q.
  predicate WaitsOn(f: Forest, q: nat, r: nat, pc: Pc)
    requires Rooted(f) && q < |f.parent|
  {
    pc.Waiting? && pc.todo != [] && IsKid(f, r, pc.todo[0]) && Under(f, pc.todo[0], q)
  }

  ghost predicate PathAt(f: Forest, x: nat, q: nat, s: State, r: nat)
    requires Rooted(f) && q < |f.parent|
  {
    r < |s.procs| && OnPath(f, x, q, r) ==> WaitsOn(f, q, r, s.procs[r].pc)
  }

  ghost predicate BelowAt(f: Forest, pilled: set<nat>, q: nat, s: State, r: nat)
    requires Rooted(f)
  {
    r < |s.procs| == |f.parent| && r != q && Under(f, q, r) ==> s.procs[r] == InitProc(f, pilled, r)
  }

  // Everyone above q waits, and below it nothing has happened yet.
  ghost predicate DownTo(f: Forest, pilled: set<nat>, x: nat, q: nat, s: State)
    requires Rooted(f)
  {
    && q < |s.procs| == |f.parent| && Under(f, x, q) && s.registry == Numbers(|f.parent|)
    && (forall r: nat {:trigger PathAt(f, x, q, s, r)} :: PathAt(f, x, q, s, r))
    && (forall r: nat {:trigger BelowAt(f, pilled, q, s, r)} :: BelowAt(f, pilled, q, s, r))
  }

  lemma {:induction false} DownKept(f: Forest, pilled: set<nat>, x: nat, q: nat, s: State, t: State)
    requires Rooted(f) && DownTo(f, pilled, x, q, s)
    requires |t.procs| == |s.procs| && t.registry == s.registry
    requires forall r :: 0 <= r < |s.procs| && r != q ==> t.procs[r].pc == s.procs[r].pc
    requires forall r :: 0 <= r < |s.procs| && r > q ==> t.procs[r] == s.procs[r]
    ensures DownTo(f, pilled, x, q, t)
  {
    forall r: nat ensures PathAt(f, x, q, t, r) {
      assert PathAt(f, x, q, s, r);
    }
    forall r: nat ensures BelowAt(f, pilled, q, t, r) {
      assert BelowAt(f, pilled, q, s, r);
      if r < |s.procs| && Under(f, q, r) { UnderLater(f, q, r); }
    }
  }

  // q is about to take a pill; if it was pilled from outside, that one.
  predicate Pilled(f: Forest, pilled: set<nat>, q: nat, m: Proc) {
    m.pc.Running? && m.inbox != [] && m.children == Kids(f, q) && (q in pilled ==> m.inbox[0] == Pill(None))
  }

  // Ranging over the children with c first.
  lemma {:induction false} OrderWith(xs: set<nat>, c: nat) returns (order: seq<nat>)
    requires c in xs
    ensures Lists(order, xs) && order[0] == c
  {
    var rest := SomeOrder(xs - {c});
    order := [c] + rest;
  }

  // q takes its pill and lists its children, c first.
  lemma {:induction false} TakesAndLists(f: Forest, pilled: set<nat>, x: nat, q: nat, c: nat, s: State)
    returns (steps: seq<Step>, t: State)
    requires Rooted(f) && DownTo(f, pilled, x, q, s) && Pilled(f, pilled, q, s.procs[q]) && IsKid(f, q, c)
    ensures Runs(f, steps, s, t) && DownTo(f, pilled, x, q, t)
    ensures t.procs[q].pc.Cleaning? && t.procs[q].pc.todo != [] && t.procs[q].pc.todo[0] == c
  {
    var s1 := Detach(f, s, q);
    RunsThen(f, [], s, s, Step(q, []));
    DownKept(f, pilled, x, q, s, s1);
    assert s1.procs[q].children == Kids(f, q);
    var order := OrderWith(Kids(f, q), c);
    t := With(s1, q, s1.procs[q].(pc := Cleaning(order)));
    RunsThen(f, [] + [Step(q, [])], s, s1, Step(q, order));
    DownKept(f, pilled, x, q, s1, t);
    steps := [] + [Step(q, [])] + [Step(q, order)];
  }

  // Then it sends the first of them a pill.
  lemma {:induction false} SendsDown(f: Forest, pilled: set<nat>, x: nat, q: nat, c: nat, s: State)
    returns (steps: seq<Step>, t: State)
    requires Rooted(f) && DownTo(f, pilled, x, q, s) && IsKid(f, q, c)
    requires s.procs[q].pc.Cleaning? && s.procs[q].pc.todo != [] && s.procs[q].pc.todo[0] == c
    ensures Runs(f, steps, s, t) && DownTo(f, pilled, x, c, t) && Pilled(f, pilled, c, t.procs[c])
  {
    var todo := s.procs[q].pc.todo;
    var s1 := With(s, q, s.procs[q].(pc := Sending(todo)));
    assert c in s.registry && q < c;
    assert Apply(f, s, Step(q, [])) == s1;
    RunsThen(f, [], s, s, Step(q, []));
    t := SendPill(s1, q, todo);
    assert Apply(f, s1, Step(q, [])) == t;
    RunsThen(f, [] + [Step(q, [])], s, s1, Step(q, []));
    steps := [] + [Step(q, [])] + [Step(q, [])];
    assert Under(f, q, q) && Under(f, q, c) && BelowAt(f, pilled, q, s, c);
    assert s.procs[c] == InitProc(f, pilled, c);
    forall r: nat ensures PathAt(f, x, c, t, r) {
      assert PathAt(f, x, q, s, r);
      if r < |t.procs| && OnPath(f, x, c, r) && r != q { assert WaitsOn(f, q, r, s.procs[r].pc); }
    }
    forall r: nat ensures BelowAt(f, pilled, c, t, r) {
      assert BelowAt(f, pilled, q, s, r);
      if r < |t.procs| && Under(f, c, r) {
        UnderLater(f, c, r);
        UnderKid(f, q, c, r);
      }
    }
  }

  lemma {:induction false} UnderKid(f: Forest, q: nat, c: nat, r: nat)
    requires Rooted(f) && IsKid(f, q, c) && r < |f.parent| && Under(f, c, r)
    ensures Under(f, q, r)
    decreases r
  {
    if r != c { UnderKid(f, q, c, f.parent[r].value); }
  }

  // The pill reaches q, whoever else is pilled.
  lemma {:induction false} GetsDown(f: Forest, pilled: set<nat>, x: nat, q: nat) returns (steps: seq<Step>, t: State)
    requires Rooted(f) && q < |f.parent| && x in pilled && Under(f, x, q)
    ensures Runs(f, steps, Init(f, pilled), t) && DownTo(f, pilled, x, q, t) && Pilled(f, pilled, q, t.procs[q])
    decreases q
  {
    if q == x {
      steps, t := [], Init(f, pilled);
      forall r: nat ensures PathAt(f, x, q, t, r) {
        if r < |t.procs| && OnPath(f, x, q, r) {
          UnderLater(f, x, r);
          UnderLater(f, r, q);
        }
      }
      forall r: nat ensures BelowAt(f, pilled, q, t, r) {}
    } else {
      var p := f.parent[q].value;
      var s0;
      steps, s0 := GetsDown(f, pilled, x, p);
      var steps1, s1 := TakesAndLists(f, pilled, x, p, q, s0);
      var steps2, s2 := SendsDown(f, pilled, x, p, q, s1);
      RunsAppend(f, steps, steps1, Init(f, pilled), s0, s1);
      RunsAppend(f, steps + steps1, steps2, Init(f, pilled), s1, s2);
      steps, t := steps + steps1 + steps2, s2;
    }
  }

  // ---- waiting for ever ----

  // y is dying by its own pill, and everyone from x down to its parent waits.
  ghost predicate Hung(f: Forest, x: nat, y: nat, s: State) {
    && Rooted(f) && y < |s.procs| == |f.parent| && x != y && Under(f, x, y)
    && !s.procs[y].pc.Running? && s.procs[y].taken == Some(Pill(None))
    && forall r: nat {:trigger PathAt(f, x, y, s, r)} :: PathAt(f, x, y, s, r)
  }

  lemma {:induction false} StillWaits(f: Forest, x: nat, y: nat, s: State, r: nat)
    requires Hung(f, x, y, s) && OnPath(f, x, y, r)
    ensures var pc := s.procs[r].pc;
            pc.Waiting? && pc.todo != [] && pc.todo[0] < |s.procs| && !Cancelled(s.procs[pc.todo[0]], r)
  {
    assert PathAt(f, x, y, s, r);
    var c := s.procs[r].pc.todo[0];
    if c != y { assert Under(f, x, c) && PathAt(f, x, y, s, c); }
  }

  lemma {:induction false} HungStep(f: Forest, x: nat, y: nat, s: State, a: Step)
    requires Hung(f, x, y, s) && Enabled(s, a)
    ensures Hung(f, x, y, Apply(f, s, a))
  {
    var t := Apply(f, s, a);
    if OnPath(f, x, y, a.p) { StillWaits(f, x, y, s, a.p); }
    forall r: nat ensures PathAt(f, x, y, t, r) {
      assert PathAt(f, x, y, s, r);
    }
  }

  lemma {:induction false} HungRun(f: Forest, x: nat, y: nat, steps: seq<Step>, s: State, t: State)
    requires Hung(f, x, y, s) && Runs(f, steps, s, t)
    ensures Hung(f, x, y, t)
    decreases |steps|
  {
    if steps != [] {
      HungStep(f, x, y, s, steps[0]);
      HungRun(f, x, y, steps[1..], Apply(f, s, steps[0]), t);
    }
  }

  // The cancel of x's pill has not been called.
  lemma {:induction false} HungUnfinished(f: Forest, x: nat, y: nat, s: State)
    requires Hung(f, x, y, s)
    ensures !Finished({x}, s)
  {
    UnderLater(f, x, y);
    assert PathAt(f, x, y, s, x);
    assert x in {x};
  }

  /** If one pilled process is in the tree of another, there is a run after which
      everyone between them waits for ever: the lower one dies by its own pill and
      never calls the cancel its parent is waiting for. */
  lemma {:induction false} Hangs(f: Forest, pilled: set<nat>, x: nat, y: nat) returns (steps: seq<Step>, t: State)
    requires Rooted(f) && (forall z :: z in pilled ==> z < |f.parent|)
    requires x in pilled && y in pilled && x != y && Under(f, x, y)
    ensures Reached(f, pilled, steps, t) && Hung(f, x, y, t)
    ensures forall more, u :: Runs(f, more, t, u) ==> Hung(f, x, y, u) && !Finished({x}, u)
  {
    var s;
    steps, s := GetsDown(f, pilled, x, y);
    RunsThen(f, steps, Init(f, pilled), s, Step(y, []));
    steps, t := steps + [Step(y, [])], Detach(f, s, y);
    forall r: nat ensures PathAt(f, x, y, t, r) {
      assert PathAt(f, x, y, s, r);
    }
    forall more, u | Runs(f, more, t, u) ensures Hung(f, x, y, u) && !Finished({x}, u) {
      HungRun(f, x, y, more, t, u);
      HungUnfinished(f, x, y, u);
    }
  }

  /** Which processes may be poisoned from outside together: every interleaving
      that goes on until nobody can move ends with all their cancels called, if
      and only if none of them is in the tree of another. */
  lemma {:induction false} PillsSafeIff(f: Forest, pilled: set<nat>)
    requires Rooted(f) && forall x :: x in pilled ==> x < |f.parent|
    ensures Apart(f, pilled)
            <==> forall steps, t :: Reached(f, pilled, steps, t) && Stuck(t) ==> Finished(pilled, t)
  {
    if Apart(f, pilled) {
      forall steps, t | Reached(f, pilled, steps, t) && Stuck(t) ensures Finished(pilled, t) {
        if !Finished(pilled, t) { var a := NeverStuck(f, pilled, steps, t); }
      }
    } else {
      var x, y :| x in pilled && y in pilled && y < |f.parent| && Under(f, x, y) && x != y;
      var steps, s := Hangs(f, pilled, x, y);
      RunsDown(f, steps, Init(f, pilled), s);
      var more, t := RunOn(f, s);
      RunsAppend(f, steps, more, Init(f, pilled), s, t);
      assert !Finished({x}, t);
      assert Reached(f, pilled, steps + more, t) && !Finished(pilled, t);
    }
  }

  /** The smallest case: a parent and its child. */
  lemma {:induction false} TwoPillsHang() returns (steps: seq<Step>, t: State)
    ensures var pair := Forest([None, Some(0)]);
            Reached(pair, {0, 1}, steps, t) && Stuck(t) && |t.procs| == 2 && t.procs[0].pc.Waiting?
  {
    var pair := Forest([None, Some(0)]);
    assert Under(pair, 0, 0) && Under(pair, 0, 1);
    var first, s := Hangs(pair, {0, 1}, 0, 1);
    RunsDown(pair, first, Init(pair, {0, 1}), s);
    var more;
    more, t := RunOn(pair, s);
    RunsAppend(pair, first, more, Init(pair, {0, 1}), s, t);
    steps := first + more;
    assert Hung(pair, 0, 1, t) && PathAt(pair, 0, 1, t, 0);
  }
}
