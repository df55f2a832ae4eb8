/**
 The cluster agent's tables (cluster/agent.go, cluster/member_set.go): who is a
 member, which kinds are available, and which actors are active where. Ranging
 over a Go map visits the keys in any order, so here the next key is any key
 that is left.
 */
module Agent {

  datatype Member = Member(id: string, host: string, kinds: seq<string>)
  datatype ActorId = ActorId(address: string, id: string)

  type MemberSet = map<string, Member>

  function Ids(list: seq<Member>): set<string> { set m <- list :: m.id }

  // Members are filed under their own IDs.
  predicate Filed(s: MemberSet) { forall id :: id in s ==> s[id].id == id }

  // The last member of the list with the ID.
  function LastWith(list: seq<Member>, id: string): Member
    requires id in Ids(list)
    decreases |list|
  {
    var k := |list| - 1;
    if list[k].id == id then list[k] else Earlier(list, id); LastWith(list[..k], id)
  }

  lemma {:induction false} Earlier(list: seq<Member>, id: string)
    requires id in Ids(list) && list[|list| - 1].id != id
    ensures id in Ids(list[..|list| - 1])
  {
    var m :| m in list && m.id == id;
    var i :| 0 <= i < |list| && list[i] == m;
    assert list[..|list| - 1][i] == m;
  }

  lemma {:induction false} IdsSnoc(list: seq<Member>, m: Member)
    ensures Ids(list + [m]) == Ids(list) + {m.id}
  {
    assert forall x :: x in list + [m] <==> x in list || x == m;
  }

  method NewMemberSet(list: seq<Member>) returns (s: MemberSet)
    ensures Filed(s) && s.Keys == Ids(list)
    ensures forall id :: id in s ==> s[id] == LastWith(list, id)
  {
    s := map[];
    for i := 0 to |list|
      invariant Filed(s) && s.Keys == Ids(list[..i])
      invariant forall id :: id in s ==> s[id] == LastWith(list[..i], id)
    {
      IdsSnoc(list[..i], list[i]);
      assert list[..i + 1] == list[..i] + [list[i]];
      assert list[..i + 1][..i] == list[..i];
      s := s[list[i].id := list[i]];
    }
    assert list[..|list|] == list;
  }

  // Slice: the members, in some order.
  method Slice(s: MemberSet) returns (r: seq<Member>)
    requires Filed(s)
    ensures Ids(r) == s.Keys && Distinct(r) && forall m :: m in r ==> m.id in s && s[m.id] == m
  {
    r := [];
    var left := s.Keys;
    while left != {}
      invariant left <= s.Keys && Ids(r) == s.Keys - left && Distinct(r)
      invariant forall m :: m in r ==> m.id in s && s[m.id] == m
      decreases left
    {
      var id :| id in left;
      IdsSnoc(r, s[id]);
      r, left := r + [s[id]], left - {id};
    }
  }

  // Except: the members of s whose IDs are not in the list, each once, in some order.
  method Except(s: MemberSet, list: seq<Member>) returns (r: seq<Member>)
    requires Filed(s)
    ensures Ids(r) == s.Keys - Ids(list) && Distinct(r)
    ensures forall m :: m in r ==> m.id in s && s[m.id] == m
  {
    var m := NewMemberSet(list);
    r := [];
    var left := s.Keys;
    while left != {}
      invariant left <= s.Keys && Ids(r) == s.Keys - left - Ids(list)
      invariant Distinct(r) && forall x :: x in r ==> x.id in s && s[x.id] == x && x.id !in left
      decreases left
    {
      var id :| id in left;
      left := left - {id};
      if id !in m {
        IdsSnoc(r, s[id]);
        r := r + [s[id]];
      }
    }
  }

  // ---- the tables ----

  // Some member offers the kind.
  ghost predicate HasKind(s: MemberSet, kind: string) { exists id :: id in s && kind in s[id].kinds }

  // The kinds are those of the members, and some more.
  ghost predicate KindsAre(kinds: set<string>, s: MemberSet, more: set<string>) {
    forall k :: k in kinds <==> HasKind(s, k) || k in more
  }

  ghost predicate KindsBetween(kinds: set<string>, s: MemberSet, local: set<string>) {
    && (forall k :: HasKind(s, k) ==> k in kinds)
    && (forall k :: k in kinds ==> HasKind(s, k) || k in local)
  }

  lemma {:induction false} JoinKinds(s: MemberSet, m: Member, kinds: set<string>, local: set<string>)
    requires m.id !in s && KindsBetween(kinds, s, local)
    ensures KindsBetween(kinds + (set k | k in m.kinds), s[m.id := m], local)
  {
    var t := s[m.id := m];
    forall k | HasKind(s, k) ensures HasKind(t, k) {
      var id :| id in s && k in s[id].kinds;
      assert id in t && k in t[id].kinds;
    }
    forall k | k in m.kinds ensures HasKind(t, k) {
      assert m.id in t && k in t[m.id].kinds;
    }
  }

  lemma {:induction false} JoinAdds(s: MemberSet, m: Member, kinds: set<string>, more: set<string>)
    requires m.id !in s && KindsAre(kinds, s, more)
    ensures KindsAre(kinds + (set k | k in m.kinds), s[m.id := m], more)
  {
    var t := s[m.id := m];
    forall k | HasKind(s, k) ensures HasKind(t, k) {
      var id :| id in s && k in s[id].kinds;
      assert id in t && k in t[id].kinds;
    }
    forall k | k in m.kinds ensures HasKind(t, k) {
      assert m.id in t && k in t[m.id].kinds;
    }
  }

  // If nobody is missing from the list, what was known stays and the members' kinds come to it;
  // otherwise the kinds are the members' and no others, local ones included.
  ghost predicate KindsUpdated(before: MemberSet, known: set<string>, list: seq<Member>,
                               after: MemberSet, kinds: set<string>) {
    if before.Keys <= Ids(list) then KindsAre(kinds, after, known) else KindsAre(kinds, after, {})
  }

  // The hosts of the members of s that are not in the list.
  function Departed(s: MemberSet, list: seq<Member>): set<string> {
    set id | id in s && id !in Ids(list) :: s[id].host
  }

  // The active actors that are not on one of the hosts.
  function Without(active: map<string, ActorId>, hosts: set<string>): map<string, ActorId> {
    map id | id in active && active[id].address !in hosts :: active[id]
  }

  // What the members are after the list: the known ones as they were known, the new ones as listed last.
  ghost predicate Updated(before: MemberSet, list: seq<Member>, after: MemberSet) {
    && after.Keys == Ids(list)
    && forall id :: id in after ==> after[id] == if id in before then before[id] else LastWith(list, id)
  }

  datatype Message =
    | Members(list: seq<Member>)
    | Topology(actors: seq<ActorId>)
    | Activation(pid: ActorId)
    | Deactivation(pid: ActorId)

  // The active actors after the first k of a series of announcements: the first one for an ID counts.
  function Learned(active: map<string, ActorId>, pids: seq<ActorId>, k: nat): map<string, ActorId>
    requires k <= |pids|
  {
    if k == 0 then active
    else
      var before := Learned(active, pids, k - 1);
      if pids[k - 1].id in before then before else before[pids[k - 1].id := pids[k - 1]]
  }

  class Agent {
    const localKinds: set<string>
    var members: MemberSet
    var kinds: set<string>
    var activated: map<string, ActorId>

    ghost predicate Valid()
      reads this
    {
      && Filed(members) && KindsBetween(kinds, members, localKinds)
      && forall id :: id in activated ==> activated[id].id == id
    }

    constructor (local: set<string>)
      ensures Valid() && members == map[] && activated == map[] && kinds == local && localKinds == local
    {
      members, kinds, activated, localKinds := map[], local, map[], local;
    }

    method MemberJoin(member: Member)
      requires Valid() && member.id !in members
      modifies this
      ensures Valid() && members == old(members)[member.id := member] && activated == old(activated)
      ensures kinds == old(kinds) + (set k | k in member.kinds)
    {
      members := members[member.id := member];
      for i := 0 to |member.kinds|
        invariant members == old(members)[member.id := member] && activated == old(activated)
        invariant kinds == old(kinds) + (set k | k in member.kinds[..i])
      {
        assert member.kinds[..i + 1] == member.kinds[..i] + [member.kinds[i]];
        kinds := kinds + {member.kinds[i]};
      }
      assert member.kinds[..|member.kinds|] == member.kinds;
      JoinKinds(old(members), member, old(kinds), localKinds);
    }

    method RebuildKinds()
      requires Filed(members)
      modifies this`kinds
      ensures forall k :: k in kinds <==> HasKind(members, k)
    {
      kinds := {};
      var left := members.Keys;
      while left != {}
        invariant left <= members.Keys
        invariant forall k :: k in kinds <==> exists id :: id in members && id !in left && k in members[id].kinds
        decreases left
      {
        var id :| id in left;
        kinds := kinds + (set k | k in members[id].kinds);
        left := left - {id};
      }
    }

    method MemberLeave(member: Member)
      requires Valid() && member.id in members
      modifies this
      ensures Valid() && members == old(members) - {member.id} && KindsAre(kinds, members, {})
      ensures activated == Without(old(activated), {member.host})
    {
      members := members - {member.id};
      RebuildKinds();
      var left := activated.Keys;
      while left != {}
        invariant members == old(members) - {member.id} && Filed(members)
        invariant KindsAre(kinds, members, {})
        invariant left <= old(activated).Keys
        invariant forall id :: id in activated <==>
                    id in old(activated) && (id in left || old(activated)[id].address != member.host)
        invariant forall id :: id in activated ==> activated[id] == old(activated)[id]
        decreases left
      {
        var id :| id in left;
        left := left - {id};
        if activated[id].address == member.host {
          RemoveActivated(activated[id]);
        }
      }
    }

    method AddActivated(pid: ActorId)
      modifies this`activated
      ensures activated == if pid.id in old(activated) then old(activated) else old(activated)[pid.id := pid]
    {
      if pid.id !in activated {
        activated := activated[pid.id := pid];
      }
    }

    method RemoveActivated(pid: ActorId)
      modifies this`activated
      ensures activated == old(activated) - {pid.id}
    {
      activated := activated - {pid.id};
    }

    method HandleActorTopology(actors: seq<ActorId>)
      requires Valid()
      modifies this`activated
      ensures Valid() && activated == Learned(old(activated), actors, |actors|)
    {
      for i := 0 to |actors|
        invariant Valid() && activated == Learned(old(activated), actors, i)
      {
        AddActivated(actors[i]);
      }
    }

    // Agent.Receive, for the messages that change the tables.
    method Receive(msg: Message)
      requires Valid()
      modifies this
      ensures Valid()
      ensures if msg.Members? then Updated(old(members), msg.list, members) else members == old(members)
      ensures if msg.Members? then KindsUpdated(old(members), old(kinds), msg.list, members, kinds)
              else kinds == old(kinds)
      ensures activated == match msg
                           case Members(list) => Without(old(activated), Departed(old(members), list))
                           case Topology(actors) => Learned(old(activated), actors, |actors|)
                           case Activation(pid) => Learned(old(activated), [pid], 1)
                           case Deactivation(pid) => old(activated) - {pid.id}
    {
      match msg
      case Members(list) => HandleMembers(list);
      case Topology(actors) => HandleActorTopology(actors);
      case Activation(pid) => AddActivated(pid);
      case Deactivation(pid) => RemoveActivated(pid);
    }

    // Who is new in the list, and who is missing from it.
    method Compare(list: seq<Member>) returns (joined: seq<Member>, gone: seq<Member>)
      requires Valid()
      ensures Distinct(joined) && Ids(joined) == Ids(list) - members.Keys
      ensures forall m :: m in joined ==> m.id in Ids(list) && m == LastWith(list, m.id) && m.id !in members
      ensures Distinct(gone) && Ids(gone) == members.Keys - Ids(list) && (gone == [] <==> members.Keys <= Ids(list))
      ensures forall m :: m in gone ==> m.id in members && members[m.id] == m
    {
      var set0 := NewMemberSet(list);
      var known := Slice(members);
      joined := Except(set0, known);
      gone := Except(members, list);
      if gone == [] {
        forall id | id in members.Keys ensures id in Ids(list) {
          assert id !in Ids(gone);
        }
      } else {
        assert gone[0].id in Ids(gone);
      }
      forall m | m in joined ensures m.id !in members {
        assert m.id in Ids(joined);
      }
    }

    /** handleMembers: the joined ones first, then those that left. */
    method HandleMembers(list: seq<Member>)
      requires Valid()
      modifies this
      ensures Valid() && Updated(old(members), list, members)
      ensures KindsUpdated(old(members), old(kinds), list, members, kinds)
      ensures activated == Without(old(activated), Departed(old(members), list))
    {
      var joined, gone := Compare(list);
      JoinAll(joined);
      ghost var all := members;
      LeaveAll(gone);
      assert gone == [] ==> members == all;
    }

    method JoinAll(joined: seq<Member>)
      requires Valid() && Distinct(joined) && forall m :: m in joined ==> m.id !in members
      modifies this
      ensures Valid() && activated == old(activated)
      ensures members.Keys == old(members).Keys + Ids(joined)
      ensures forall id :: id in old(members) ==> members[id] == old(members)[id]
      ensures forall m :: m in joined ==> members[m.id] == m
      ensures KindsAre(kinds, members, old(kinds))
    {
      for i := 0 to |joined|
        invariant Valid() && activated == old(activated)
        invariant members.Keys == old(members).Keys + Ids(joined[..i])
        invariant forall id :: id in old(members) ==> members[id] == old(members)[id]
        invariant forall m :: m in joined[..i] ==> members[m.id] == m
        invariant KindsAre(kinds, members, old(kinds))
      {
        NotYet(joined, i);
        JoinAdds(members, joined[i], kinds, old(kinds));
        MemberJoin(joined[i]);
      }
      assert joined[..|joined|] == joined;
    }

    method LeaveAll(gone: seq<Member>)
      requires Valid() && Distinct(gone) && forall m :: m in gone ==> m.id in members && members[m.id] == m
      modifies this
      ensures Valid() && members == old(members) - Ids(gone)
      ensures activated == Without(old(activated), Hosts(gone))
      ensures if gone == [] then kinds == old(kinds) else KindsAre(kinds, members, {})
    {
      for i := 0 to |gone|
        invariant if i == 0 then kinds == old(kinds) else KindsAre(kinds, members, {})
        invariant Valid() && members == old(members) - Ids(gone[..i])
        invariant activated == Without(old(activated), Hosts(gone[..i]))
      {
        NotYet(gone, i);
        MemberLeave(gone[i]);
      }
      assert gone[..|gone|] == gone;
    }
  }

  // No ID twice.
  predicate Distinct(list: seq<Member>) { forall i, j :: 0 <= i < j < |list| ==> list[i].id != list[j].id }

  function Hosts(list: seq<Member>): set<string> { set m <- list :: m.host }

  // The i-th member and those before it.
  lemma {:induction false} NotYet(list: seq<Member>, i: nat)
    requires Distinct(list) && i < |list|
    ensures list[i].id !in Ids(list[..i]) && Ids(list[..i + 1]) == Ids(list[..i]) + {list[i].id}
    ensures Hosts(list[..i + 1]) == Hosts(list[..i]) + {list[i].host}
    ensures forall m :: m in list[..i + 1] <==> m in list[..i] || m == list[i]
  {
    assert list[..i + 1] == list[..i] + [list[i]];
    IdsSnoc(list[..i], list[i]);
    assert list[i] in list;
  }

  // ---- whole runs ----

  // The list of the last Members message among the first k, or none yet.
  function LastList(msgs: seq<Message>, k: nat): seq<Member>
    requires k <= |msgs|
  {
    if k == 0 then []
    else if msgs[k - 1].Members? then msgs[k - 1].list
    else LastList(msgs, k - 1)
  }

  // Everything announced by the first k.
  function Announced(msgs: seq<Message>, k: nat): seq<ActorId>
    requires k <= |msgs|
  {
    if k == 0 then []
    else
      Announced(msgs, k - 1) + match msgs[k - 1]
                               case Topology(actors) => actors
                               case Activation(pid) => [pid]
                               case _ => []
  }

  // Nothing is taken out of the table: no actor is deactivated, and nobody is missing from a later list.
  predicate NothingLeaves(msgs: seq<Message>, k: nat)
    requires k <= |msgs|
  {
    forall i :: 0 <= i < k ==>
      !msgs[i].Deactivation? && (msgs[i].Members? ==> Ids(LastList(msgs, i)) <= Ids(msgs[i].list))
  }

  lemma {:induction false} NobodyDeparts(s: MemberSet, list: seq<Member>, active: map<string, ActorId>)
    requires s.Keys <= Ids(list)
    ensures Without(active, Departed(s, list)) == active
  {
    assert Departed(s, list) == {};
  }

  lemma {:induction false} LearnedAppend(active: map<string, ActorId>, a: seq<ActorId>, b: seq<ActorId>, k: nat)
    requires k <= |b|
    ensures Learned(active, a + b, |a| + k) == Learned(Learned(active, a, |a|), b, k)
    decreases k
  {
    if k > 0 {
      LearnedAppend(active, a, b, k - 1);
      assert (a + b)[|a| + k - 1] == b[k - 1];
    } else {
      LearnedPrefix(active, a, b, |a|);
    }
  }

  lemma {:induction false} LearnedPrefix(active: map<string, ActorId>, a: seq<ActorId>, b: seq<ActorId>, k: nat)
    requires k <= |a|
    ensures Learned(active, a + b, k) == Learned(active, a, k)
  {
    if k > 0 { LearnedPrefix(active, a, b, k - 1); }
  }

  // Somebody has been missing from a list.
  predicate SomebodyLeft(msgs: seq<Message>, k: nat)
    requires k <= |msgs|
  {
    exists i :: 0 <= i < k && msgs[i].Members? && !(Ids(LastList(msgs, i)) <= Ids(msgs[i].list))
  }

  lemma {:induction false} LeftSoFar(msgs: seq<Message>, k: nat)
    requires k < |msgs|
    ensures SomebodyLeft(msgs, k + 1) <==>
              SomebodyLeft(msgs, k) || (msgs[k].Members? && !(Ids(LastList(msgs, k)) <= Ids(msgs[k].list)))
  {
  }

  lemma {:induction false} KindsStay(before: MemberSet, known: set<string>, list: seq<Member>,
                                     after: MemberSet, kinds: set<string>, more: set<string>)
    requires Updated(before, list, after) && KindsUpdated(before, known, list, after, kinds)
    requires KindsAre(known, before, more)
    ensures KindsAre(kinds, after, if before.Keys <= Ids(list) then more else {})
  {
    if before.Keys <= Ids(list) {
      forall k | HasKind(before, k) ensures HasKind(after, k) {
        var id :| id in before && k in before[id].kinds;
        assert id in after && after[id] == before[id];
      }
    }
  }

  /** One incarnation of an agent, whatever it is sent: its members are those of
      the last list; the kinds it knows are theirs and the local ones until somebody
      leaves, and only theirs from then on; and as long as no actor is deactivated and no member leaves, its
      active actors are the announced ones, whoever joins in between. */
  method Serve(local: set<string>, msgs: seq<Message>)
    returns (members: MemberSet, kinds: set<string>, activated: map<string, ActorId>)
    ensures members.Keys == Ids(LastList(msgs, |msgs|))
    ensures KindsAre(kinds, members, if SomebodyLeft(msgs, |msgs|) then {} else local)
    ensures NothingLeaves(msgs, |msgs|) ==>
              activated == Learned(map[], Announced(msgs, |msgs|), |Announced(msgs, |msgs|)|)
  {
    var a := new Agent(local);
    for k := 0 to |msgs|
      invariant a.Valid() && fresh(a) && a.localKinds == local
      invariant a.members.Keys == Ids(LastList(msgs, k))
      invariant KindsAre(a.kinds, a.members, if SomebodyLeft(msgs, k) then {} else local)
      invariant NothingLeaves(msgs, k) ==> a.activated == Learned(map[], Announced(msgs, k), |Announced(msgs, k)|)
    {
      if msgs[k].Members? && a.members.Keys <= Ids(msgs[k].list) {
        NobodyDeparts(a.members, msgs[k].list, a.activated);
      }
      ghost var before, known, more := a.members, a.kinds, if SomebodyLeft(msgs, k) then {} else local;
      a.Receive(msgs[k]);
      if msgs[k].Members? { KindsStay(before, known, msgs[k].list, a.members, a.kinds, more); }
      LeftSoFar(msgs, k);
      assert Announced(msgs, k) + [] == Announced(msgs, k);
      if msgs[k].Topology? {
        LearnedAppend(map[], Announced(msgs, k), msgs[k].actors, |msgs[k].actors|);
      } else if msgs[k].Activation? {
        LearnedAppend(map[], Announced(msgs, k), [msgs[k].pid], 1);
      }
    }
    members, kinds, activated := a.members, a.kinds, a.activated;
  }

  // ---- agreement ----

  // Each ID names one actor.
  predicate Consistent(pids: seq<ActorId>) {
    forall i, j :: 0 <= i < |pids| && 0 <= j < |pids| && pids[i].id == pids[j].id ==> pids[i] == pids[j]
  }

  ghost predicate SameAnnouncements(xs: seq<ActorId>, ys: seq<ActorId>) { forall p :: p in xs <==> p in ys }

  function Table(pids: seq<ActorId>): map<string, ActorId> { Learned(map[], pids, |pids|) }

  // What is in the table was announced under its ID, and what was announced is in the table under its ID.
  lemma {:induction false} LearnedFrom(pids: seq<ActorId>, k: nat)
    requires k <= |pids|
    ensures var t := Learned(map[], pids, k);
            && (forall id :: id in t ==> t[id] in pids && t[id].id == id)
            && (forall i :: 0 <= i < k ==> pids[i].id in t)
  {
    if k > 0 { LearnedFrom(pids, k - 1); }
  }

  lemma {:induction false} SameTable(xs: seq<ActorId>, ys: seq<ActorId>)
    requires SameAnnouncements(xs, ys) && Consistent(xs)
    ensures Table(xs) == Table(ys)
  {
    var s, t := Table(xs), Table(ys);
    LearnedFrom(xs, |xs|);
    LearnedFrom(ys, |ys|);
    forall id ensures id in s <==> id in t {
      if id in s { assert s[id] in ys; }
      if id in t { assert t[id] in xs; }
    }
    forall id | id in s ensures s[id] == t[id] {
      assert s[id] in xs && t[id] in xs;
    }
  }

  lemma {:induction false} LearnedKeeps(active: map<string, ActorId>, pids: seq<ActorId>, k: nat, id: string)
    requires k <= |pids| && id in active
    ensures id in Learned(active, pids, k) && Learned(active, pids, k)[id] == active[id]
  {
    if k > 0 { LearnedKeeps(active, pids, k - 1, id); }
  }

  lemma {:induction false} FirstCounts(p: ActorId, xs: seq<ActorId>)
    ensures p.id in Table([p] + xs) && Table([p] + xs)[p.id] == p
  {
    LearnedAppend(map[], [p], xs, |xs|);
    assert Learned(map[], [p], 1) == map[p.id := p] by { assert Learned(map[], [p], 0) == map[]; }
    LearnedKeeps(map[p.id := p], xs, |xs|, p.id);
  }

  /** Agents that see the same announcements, in any order and with any repeats,
      hold equal tables, if and only if each ID names one actor. */
  lemma {:induction false} AgreementIff(xs: seq<ActorId>)
    ensures Consistent(xs) <==> forall ys :: SameAnnouncements(xs, ys) ==> Table(xs) == Table(ys)
  {
    if Consistent(xs) {
      forall ys | SameAnnouncements(xs, ys) ensures Table(xs) == Table(ys) {
        SameTable(xs, ys);
      }
    } else {
      var i, j :| 0 <= i < |xs| && 0 <= j < |xs| && xs[i].id == xs[j].id && xs[i] != xs[j];
      FirstCounts(xs[i], xs);
      FirstCounts(xs[j], xs);
      assert SameAnnouncements(xs, [xs[i]] + xs) && SameAnnouncements(xs, [xs[j]] + xs);
    }
  }

  /** They do disagree: two actors under one ID, announced in two orders. */
  lemma {:induction false} Disagreement()
    ensures var here, there := ActorId("a", "x"), ActorId("b", "x");
            SameAnnouncements([here, there], [there, here]) && Table([here, there]) != Table([there, here])
  {
    var here, there := ActorId("a", "x"), ActorId("b", "x");
    FirstCounts(here, [there]);
    FirstCounts(there, [here]);
    assert [here] + [there] == [here, there] && [there] + [here] == [there, here];
    assert "a"[0] != "b"[0];
  }
}
