/** What arrives at the other end, for every batch. */
module TransportTheorems {
  import opened Options
  import opened Varints
  import opened Wire
  import opened WireTheorems
  import WireRefusals
  import opened Codec
  import opened CodecTheorems
  import opened Transport

  // ---- the tables ----

  const MAX_BATCH: nat := 0x8000_0000

  lemma {:induction false} WrapSmall(n: nat)
    requires n < MAX_BATCH
    ensures Wrap(n) == n
  {
  }

  // Every index is in range and leads back to its key, and every item has its own.
  ghost predicate Dense<T, K>(key: T -> K, t: Table<T, K>) {
    && |t.index| == |t.items|
    && (forall j :: 0 <= j < |t.items| ==> key(t.items[j]) in t.index && t.index[key(t.items[j])] == j)
    && (forall k :: k in t.index ==> 0 <= t.index[k] < |t.items| && key(t.items[t.index[k]]) == k)
  }

  lemma {:induction false} AddDense<T, K>(key: T -> K, t: Table<T, K>, x: Option<T>)
    requires Dense(key, t) && |t.items| < MAX_BATCH
    ensures Dense(key, Add(key, t, x)) && |t.items| <= |Add(key, t, x).items| <= |t.items| + 1
  {
    WrapSmall(|t.index|);
  }

  /** The tables stay dense, duplicate-free and in range throughout the batch. */
  lemma {:induction false} InternedDense<T, K>(key: T -> K, xs: seq<Option<T>>, n: nat)
    requires n <= |xs| && n <= MAX_BATCH
    ensures Dense(key, Interned(key, xs, n)) && |Interned(key, xs, n).items| <= n
    ensures var items := Interned(key, xs, n).items;
            forall i, j :: 0 <= i < j < |items| ==> key(items[i]) != key(items[j])
  {
    if n > 0 {
      InternedDense(key, xs, n - 1);
      AddDense(key, Interned(key, xs, n - 1), xs[n - 1]);
    }
  }

  // t grew into u: every index given out stays.
  ghost predicate Grew<T, K>(t: Table<T, K>, u: Table<T, K>) {
    && |t.items| <= |u.items| && u.items[..|t.items|] == t.items
    && forall k :: k in t.index ==> k in u.index && u.index[k] == t.index[k]
  }

  lemma {:induction false} InternedGrew<T, K>(key: T -> K, xs: seq<Option<T>>, k: nat, n: nat)
    requires k <= n <= |xs|
    ensures Grew(Interned(key, xs, k), Interned(key, xs, n))
    decreases n
  {
    if k < n {
      var t, u := Interned(key, xs, k), Interned(key, xs, n - 1);
      InternedGrew(key, xs, k, n - 1);
      assert Interned(key, xs, n).items[..|t.items|] == u.items[..|t.items|];
    }
  }

  // The earliest of the first n with a key, and the earliest that is set at all.
  function First<T, K(==)>(key: T -> K, xs: seq<Option<T>>, k: K, n: nat): Option<T>
    requires n <= |xs|
  {
    if n == 0 then None
    else
      var r := First(key, xs, k, n - 1);
      if r.Some? then r
      else if xs[n - 1].Some? && key(xs[n - 1].value) == k then xs[n - 1]
      else None
  }

  function Lead<T>(xs: seq<Option<T>>, n: nat): Option<T>
    requires n <= |xs|
  {
    if n == 0 then None
    else
      var r := Lead(xs, n - 1);
      if r.Some? then r else xs[n - 1]
  }

  lemma {:induction false} InternedFirst<T, K>(key: T -> K, xs: seq<Option<T>>, k: K, n: nat)
    requires n <= |xs| && n <= MAX_BATCH
    ensures var t := Interned(key, xs, n);
            && (k in t.index <==> First(key, xs, k, n).Some?)
            && (k in t.index ==> InRange(t.items, t.index[k]) && Some(t.items[t.index[k]]) == First(key, xs, k, n))
  {
    if n > 0 {
      InternedFirst(key, xs, k, n - 1);
      InternedDense(key, xs, n - 1);
      WrapSmall(|Interned(key, xs, n - 1).index|);
    }
  }

  lemma {:induction false} InternedLead<T, K>(key: T -> K, xs: seq<Option<T>>, n: nat)
    requires n <= |xs| && n <= MAX_BATCH
    ensures var t := Interned(key, xs, n);
            Lead(xs, n) == if t.items == [] then None else Some(t.items[0])
  {
    if n > 0 {
      InternedLead(key, xs, n - 1);
      InternedDense(key, xs, n - 1);
      assert Interned(key, xs, n - 1).items == [] ==> Interned(key, xs, n - 1).index == map[];
    }
  }

  // What the index of x leads to: the earliest with its key; for nil, the earliest there is.
  function Resolve<T, K(==)>(key: T -> K, xs: seq<Option<T>>, x: Option<T>): Option<T> {
    if x.None? then Lead(xs, |xs|) else First(key, xs, key(x.value), |xs|)
  }

  function At<T>(xs: seq<T>, i: int): Option<T> { if InRange(xs, i) then Some(xs[i]) else None }

  lemma {:induction false} NilResolved<T, K>(key: T -> K, xs: seq<Option<T>>)
    requires |xs| <= MAX_BATCH
    ensures At(Interned(key, xs, |xs|).items, 0) == Resolve(key, xs, None)
  {
    InternedLead(key, xs, |xs|);
  }

  lemma {:induction false} IndexResolved<T, K>(key: T -> K, xs: seq<Option<T>>, i: nat)
    requires i < |xs| <= MAX_BATCH
    ensures At(Interned(key, xs, |xs|).items, IdOf(key, Interned(key, xs, i + 1), xs[i])) == Resolve(key, xs, xs[i])
  {
    if xs[i].None? {
      NilResolved(key, xs);
    } else {
      var k := key(xs[i].value);
      InternedGrew(key, xs, i + 1, |xs|);
      assert k in Interned(key, xs, i + 1).index;
      InternedFirst(key, xs, k, |xs|);
    }
  }

  // ---- one message ----

  /** What the i-th slot of a batch becomes at the other end. A message that did
      not serialize arrives all the same, as the empty payload of the first
      type, for the first target and from the first sender of the batch. */
  function Arrives<P>(c: Payloads<P>, hash: Hash, msgs: seq<Deliver<P>>, i: nat): Single<P>
    requires i < |msgs|
  {
    var data := c.serialize(msgs[i].msg);
    var ok := data.Some?;
    var payload := if ok then c.deserialize(data.value, c.name(msgs[i].msg))
      else c.deserialize([], c.name(msgs[0].msg));
    var target := Resolve(PidKey(hash), Targets(msgs), if ok then msgs[i].target else None);
    var sender := Resolve(PidKey(hash), Senders(msgs), if ok then msgs[i].sender else None);
    if payload.None? then Stopped(DeserializeFailed)
    else if target.None? then Stopped(Panicked)
    else Sent(Deliver(target, payload.value, sender))
  }

  function ArrivesFrom<P>(c: Payloads<P>, hash: Hash, msgs: seq<Deliver<P>>): nat -> Single<P> {
    (i: nat) => if i < |msgs| then Arrives(c, hash, msgs, i) else Stopped(Panicked)
  }

  function Arrived<P>(c: Payloads<P>, hash: Hash, msgs: seq<Deliver<P>>): Outcome<P> {
    Collect(ArrivesFrom(c, hash, msgs), |msgs|)
  }

  lemma {:induction false} CollectSame<P>(one: nat -> Single<P>, two: nat -> Single<P>, n: nat)
    requires forall i: nat :: i < n ==> one(i) == two(i)
    ensures Collect(one, n) == Collect(two, n)
  {
    if n > 0 { CollectSame(one, two, n - 1); }
  }

  lemma {:induction false} CollectLength<P>(one: nat -> Single<P>, n: nat)
    ensures var r := Collect(one, n); |r.sent| <= n && (r.end.None? ==> |r.sent| == n)
  {
    if n > 0 { CollectLength(one, n - 1); }
  }

  lemma {:induction false} CollectExactly<P>(one: nat -> Single<P>, msgs: seq<Deliver<P>>, n: nat)
    requires n <= |msgs|
    ensures Collect(one, n) == Outcome(msgs[..n], None) <==> forall i: nat :: i < n ==> one(i) == Sent(msgs[i])
  {
    if n > 0 {
      CollectExactly(one, msgs, n - 1);
      CollectLength(one, n - 1);
      assert msgs[..n] == msgs[..n - 1] + [msgs[n - 1]];
    }
  }

  // int32(len(m)) keeps the low 32 bits, as a two's complement number.
  lemma {:induction false} WrapMeans(n: nat)
    ensures Wrap(n) == (n + 0x8000_0000) % 0x1_0000_0000 - 0x8000_0000
  {
    WireRefusals.TruncIsRemainder(n, TWO_32);
  }

  // The outcome of a series: what goes through up to the first that does not, and why that one does not.
  ghost predicate UpTo<P>(one: nat -> Single<P>, n: nat, r: Outcome<P>) {
    var k := |r.sent|;
    && k <= n && (forall i: nat :: i < k ==> one(i) == Sent(r.sent[i]))
    && (if k == n then r.end.None? else r.end.Some? && one(k) == Single.Stopped(r.end.value))
  }

  lemma {:induction false} CollectUpTo<P>(one: nat -> Single<P>, n: nat)
    ensures UpTo(one, n, Collect(one, n))
  {
    if n > 0 { CollectUpTo(one, n - 1); }
  }

  /** Whatever envelope comes in, well-formed or not: the reader delivers its
      messages in order up to the first bad index, nil message or payload that does
      not deserialize, and ends there for that reason. */
  lemma {:induction false} ReadsUpTo<P>(c: Payloads<P>, t: Tables)
    ensures var r := Read(c, t); var k := |r.sent|;
            && k <= |t.messages| && (forall i :: 0 <= i < k ==> ReadOne(c, t, t.messages[i]) == Sent(r.sent[i]))
            && (if k == |t.messages| then r.end.None?
                else r.end.Some? && ReadOne(c, t, t.messages[k]) == Single.Stopped(r.end.value))
  {
    CollectUpTo(ReadFrom(c, t), |t.messages|);
    forall i: nat | i < |t.messages| ensures ReadFrom(c, t)(i) == ReadOne(c, t, t.messages[i]) {}
  }

  // Reading through tables of pointers, in terms of what the indices lead to.
  lemma {:induction false} ReadThrough<P>(
    c: Payloads<P>, t: Tables, names: seq<seq<byte>>, targets: seq<PID>, senders: seq<PID>, m: Message)
    requires t.typeNames == names && t.targets == Pointers(targets) && t.senders == Pointers(senders)
    requires InRange(names, m.fields.typeName)
    requires senders == [] || InRange(senders, m.fields.sender)
    ensures var payload := c.deserialize(m.fields.data, names[m.fields.typeName]);
            ReadOne(c, t, Some(m))
            == if payload.None? then Stopped(DeserializeFailed)
               else if At(targets, m.fields.target).None? then Stopped(Panicked)
               else Sent(Deliver(At(targets, m.fields.target), payload.value, At(senders, m.fields.sender)))
  {
  }

  // A sender that is set has an index as soon as the table is not empty.
  lemma {:induction false} SenderInRange<T, K>(key: T -> K, xs: seq<Option<T>>, x: Option<T>)
    requires |xs| <= MAX_BATCH && (x.Some? ==> x in xs)
    ensures Resolve(key, xs, x).None? <==> Lead(xs, |xs|).None?
  {
    if x.Some? {
      var i :| 0 <= i < |xs| && xs[i] == x;
      FirstSet(key, xs, i, |xs|);
      LeadSet(xs, i, |xs|);
    }
  }

  lemma {:induction false} FirstSet<T, K>(key: T -> K, xs: seq<Option<T>>, i: nat, n: nat)
    requires i < n <= |xs| && xs[i].Some?
    ensures First(key, xs, key(xs[i].value), n).Some?
    decreases n
  {
    if i < n - 1 { FirstSet(key, xs, i, n - 1); }
  }

  lemma {:induction false} LeadSet<T>(xs: seq<Option<T>>, i: nat, n: nat)
    requires i < n <= |xs| && xs[i].Some?
    ensures Lead(xs, n).Some?
    decreases n
  {
    if i < n - 1 { LeadSet(xs, i, n - 1); }
  }

  lemma {:induction false} FirstKey<T, K>(key: T -> K, xs: seq<Option<T>>, k: K, n: nat)
    requires n <= |xs|
    ensures var r := First(key, xs, k, n); r.Some? ==> r in xs && key(r.value) == k
  {
    if n > 0 { FirstKey(key, xs, k, n - 1); }
  }

  lemma {:induction false} LeadFirst<T>(xs: seq<Option<T>>, n: nat)
    requires 0 < n <= |xs| && xs[0].Some?
    ensures Lead(xs, n) == xs[0]
  {
    if n > 1 { LeadFirst(xs, n - 1); }
  }

  lemma {:induction false} NameResolved(names: seq<Option<seq<byte>>>, i: nat)
    requires i < |names| && names[i].Some? && names[0].Some?
    ensures Resolve(Same(), names, names[i]) == names[i] && Resolve(Same(), names, None) == names[0]
  {
    FirstSet(Same(), names, i, |names|);
    FirstKey(Same(), names, Same()(names[i].value), |names|);
    LeadFirst(names, |names|);
  }

  // The message in the i-th slot as the codec delivers it, nil or not.
  ghost function Landed<P>(c: Payloads<P>, hash: Hash, msgs: seq<Deliver<P>>, i: nat): Message
    requires i < |msgs|
  {
    FilledMessage(SlotOf(c, hash, msgs, i)).value
  }

  lemma {:induction false} LandedIndices<P>(c: Payloads<P>, hash: Hash, msgs: seq<Deliver<P>>, i: nat)
    requires i < |msgs| <= MAX_BATCH
    ensures var ok := c.serialize(msgs[i].msg).Some?; var b := Landed(c, hash, msgs, i).fields; var n := |msgs|;
            && At(Interned(Same(), Names(c, msgs), n).items, b.typeName) == Some(c.name(msgs[if ok then i else 0].msg))
            && At(Interned(PidKey(hash), Targets(msgs), n).items, b.target)
               == Resolve(PidKey(hash), Targets(msgs), if ok then msgs[i].target else None)
            && At(Interned(PidKey(hash), Senders(msgs), n).items, b.sender)
               == Resolve(PidKey(hash), Senders(msgs), if ok then msgs[i].sender else None)
  {
    NameResolved(Names(c, msgs), i);
    if c.serialize(msgs[i].msg).Some? {
      IndexResolved(Same(), Names(c, msgs), i);
      IndexResolved(PidKey(hash), Targets(msgs), i);
      IndexResolved(PidKey(hash), Senders(msgs), i);
    } else {
      NilResolved(Same(), Names(c, msgs));
      NilResolved(PidKey(hash), Targets(msgs));
      NilResolved(PidKey(hash), Senders(msgs));
    }
  }

  lemma {:induction false} OneArrives<P>(c: Payloads<P>, hash: Hash, msgs: seq<Deliver<P>>, i: nat, t: Tables)
    requires i < |msgs| <= MAX_BATCH
    requires t.typeNames == Interned(Same(), Names(c, msgs), |msgs|).items
    requires t.targets == Pointers(Interned(PidKey(hash), Targets(msgs), |msgs|).items)
    requires t.senders == Pointers(Interned(PidKey(hash), Senders(msgs), |msgs|).items)
    ensures ReadOne(c, t, Some(Landed(c, hash, msgs, i))) == Arrives(c, hash, msgs, i)
  {
    var m := Landed(c, hash, msgs, i);
    var senders := Interned(PidKey(hash), Senders(msgs), |msgs|).items;
    LandedIndices(c, hash, msgs, i);
    assert senders == [] || InRange(senders, m.fields.sender) by {
      NilResolved(PidKey(hash), Senders(msgs));
      var x := if c.serialize(msgs[i].msg).Some? then msgs[i].sender else None;
      assert x.Some? ==> Senders(msgs)[i] == x;
      SenderInRange(PidKey(hash), Senders(msgs), x);
    }
    ReadThrough(c, t, t.typeNames, Interned(PidKey(hash), Targets(msgs), |msgs|).items, senders, m);
  }

  lemma {:induction false} AllArrive<P>(c: Payloads<P>, hash: Hash, msgs: seq<Deliver<P>>, t: Tables)
    requires |t.messages| == |msgs| <= MAX_BATCH
    requires forall i: nat :: i < |msgs| ==> t.messages[i] == Some(Landed(c, hash, msgs, i))
    requires t.typeNames == Interned(Same(), Names(c, msgs), |msgs|).items
    requires t.targets == Pointers(Interned(PidKey(hash), Targets(msgs), |msgs|).items)
    requires t.senders == Pointers(Interned(PidKey(hash), Senders(msgs), |msgs|).items)
    ensures Read(c, t) == Arrived(c, hash, msgs)
  {
    forall i: nat | i < |msgs| ensures ReadFrom(c, t)(i) == ArrivesFrom(c, hash, msgs)(i) {
      OneArrives(c, hash, msgs, i, t);
    }
    CollectSame(ReadFrom(c, t), ArrivesFrom(c, hash, msgs), |msgs|);
  }

  // ---- through the wire ----

  predicate SoundBatch<P>(msgs: seq<Deliver<P>>) {
    forall i :: 0 <= i < |msgs| ==> SoundPid(msgs[i].target) && SoundPid(msgs[i].sender)
  }

  lemma {:induction false} InternedSound(key: PID -> uint64, xs: seq<Option<PID>>, n: nat)
    requires n <= |xs| && SoundPids(xs)
    ensures SoundPids(Pointers(Interned(key, xs, n).items))
  {
    if n > 0 { InternedSound(key, xs, n - 1); }
  }

  lemma {:induction false} WrittenSound<P>(c: Payloads<P>, hash: Hash, msgs: seq<Deliver<P>>)
    requires SoundBatch(msgs)
    ensures Sound(Written(c, hash, msgs))
  {
    InternedSound(PidKey(hash), Targets(msgs), |msgs|);
    InternedSound(PidKey(hash), Senders(msgs), |msgs|);
  }

  lemma {:induction false} PointersFilled(xs: seq<PID>)
    ensures FilledPids(Pointers(xs)) == Pointers(xs)
  {
  }

  lemma {:induction false} WrittenArrives<P>(c: Payloads<P>, hash: Hash, msgs: seq<Deliver<P>>)
    requires |msgs| <= MAX_BATCH
    ensures Read(c, FilledTables(Written(c, hash, msgs).fields)) == Arrived(c, hash, msgs)
  {
    PointersFilled(Interned(PidKey(hash), Targets(msgs), |msgs|).items);
    PointersFilled(Interned(PidKey(hash), Senders(msgs), |msgs|).items);
    AllArrive(c, hash, msgs, FilledTables(Written(c, hash, msgs).fields));
  }

  /** End to end: a batch is interned, written, parsed and read, and what comes
      out is message by message what Arrives says, up to the first failure. */
  lemma {:induction false} Transported<P>(c: Payloads<P>, hash: Hash, msgs: seq<Deliver<P>>)
    requires |msgs| <= MAX_BATCH && SoundBatch(msgs) && SizeEnvelope(Written(c, hash, msgs)) < TWO_63
    ensures var r := UnmarshalEnvelope(MarshalEnvelope(Written(c, hash, msgs)));
            r.Ok? && Read(c, r.value.fields) == Arrived(c, hash, msgs)
  {
    WrittenSound(c, hash, msgs);
    EnvelopeRoundTrip(Written(c, hash, msgs));
    WrittenArrives(c, hash, msgs);
  }

  // ---- when it is exact ----

  ghost predicate Separate<T, K>(key: T -> K, xs: seq<Option<T>>) {
    forall i, j :: 0 <= i < |xs| && 0 <= j < |xs| && xs[i].Some? && xs[j].Some? && key(xs[i].value) == key(xs[j].value)
      ==> xs[i] == xs[j]
  }

  predicate AllSet<T>(xs: seq<Option<T>>) { forall i :: 0 <= i < |xs| ==> xs[i].Some? }
  predicate NoneSet<T>(xs: seq<Option<T>>) { forall i :: 0 <= i < |xs| ==> xs[i].None? }

  ghost predicate Restored<T, K>(key: T -> K, xs: seq<Option<T>>) {
    forall i :: 0 <= i < |xs| ==> Resolve(key, xs, xs[i]) == xs[i]
  }

  lemma {:induction false} NoLead<T>(xs: seq<Option<T>>, n: nat)
    requires n <= |xs| && NoneSet(xs)
    ensures Lead(xs, n).None?
  {
    if n > 0 { NoLead(xs, n - 1); }
  }

  lemma {:induction false} RestoredIff<T, K>(key: T -> K, xs: seq<Option<T>>)
    ensures Restored(key, xs) <==> NoneSet(xs) || (AllSet(xs) && Separate(key, xs))
  {
    if NoneSet(xs) {
      NoLead(xs, |xs|);
    } else if AllSet(xs) && Separate(key, xs) {
      forall i | 0 <= i < |xs| ensures Resolve(key, xs, xs[i]) == xs[i] {
        FirstSet(key, xs, i, |xs|);
        FirstKey(key, xs, key(xs[i].value), |xs|);
      }
    }
    if Restored(key, xs) && !NoneSet(xs) {
      var s :| 0 <= s < |xs| && xs[s].Some?;
      LeadSet(xs, s, |xs|);
      forall i | 0 <= i < |xs| ensures xs[i].Some? {
        assert Resolve(key, xs, xs[i]) == xs[i];
      }
      forall i, j | 0 <= i < |xs| && 0 <= j < |xs| && key(xs[i].value) == key(xs[j].value) ensures xs[i] == xs[j] {
        assert Resolve(key, xs, xs[i]) == xs[i] && Resolve(key, xs, xs[j]) == xs[j];
      }
    }
  }

  // Payloads come back from their bytes.
  ghost predicate Lossless<P(!new)>(c: Payloads<P>) {
    forall p: P :: c.serialize(p).Some? ==> c.deserialize(c.serialize(p).value, c.name(p)) == Some(p)
  }

  predicate AllSerialize<P>(c: Payloads<P>, msgs: seq<Deliver<P>>) {
    forall i :: 0 <= i < |msgs| ==> c.serialize(msgs[i].msg).Some?
  }

  /** If every payload serializes, the reader delivers exactly the writer's list,
      in order, if and only if every message has a target, the lookup key tells
      the targets apart, and the senders are all nil, or all set and told apart. */
  lemma {:induction false} ExactIff<P(!new)>(c: Payloads<P>, hash: Hash, msgs: seq<Deliver<P>>)
    requires Lossless(c) && AllSerialize(c, msgs)
    ensures Arrived(c, hash, msgs) == Outcome(msgs, None)
            <==> && AllSet(Targets(msgs)) && Separate(PidKey(hash), Targets(msgs))
                 && (NoneSet(Senders(msgs)) || (AllSet(Senders(msgs)) && Separate(PidKey(hash), Senders(msgs))))
  {
    var key := PidKey(hash);
    CollectExactly(ArrivesFrom(c, hash, msgs), msgs, |msgs|);
    assert msgs[..|msgs|] == msgs;
    RestoredIff(key, Targets(msgs));
    RestoredIff(key, Senders(msgs));
    forall i | 0 <= i < |msgs|
      ensures Arrives(c, hash, msgs, i) == Sent(msgs[i])
              <==> && msgs[i].target.Some? && Resolve(key, Targets(msgs), msgs[i].target) == msgs[i].target
                   && Resolve(key, Senders(msgs), msgs[i].sender) == msgs[i].sender
    {
    }
  }

  // ---- in terms of addresses and IDs ----

  // What a PID looks like when its address is followed by its ID.
  function Text(p: PID): seq<byte> { p.fields.address + p.fields.id }

  // The hash tells the PIDs of the list apart as far as their texts do.
  ghost predicate TellsApart(hash: Hash, xs: seq<Option<PID>>) {
    forall i, j :: 0 <= i < |xs| && 0 <= j < |xs| && xs[i].Some? && xs[j].Some? ==>
      (hash(Text(xs[i].value)) == hash(Text(xs[j].value)) ==> Text(xs[i].value) == Text(xs[j].value))
  }

  // PIDs of the list with one text are one PID.
  ghost predicate OneTextOnePid(xs: seq<Option<PID>>) {
    forall i, j :: 0 <= i < |xs| && 0 <= j < |xs| && xs[i].Some? && xs[j].Some? ==>
      (Text(xs[i].value) == Text(xs[j].value) ==> xs[i] == xs[j])
  }

  /** The lookup key: under a hash without collisions, two PIDs have one key if
      and only if address followed by ID is the same. */
  lemma {:induction false} SameKeyIff(hash: Hash, p: PID, q: PID)
    requires hash(Text(p)) == hash(Text(q)) ==> Text(p) == Text(q)
    ensures Key(hash, p) == Key(hash, q) <==> Text(p) == Text(q)
  {
  }

  lemma {:induction false} SeparateIff(hash: Hash, xs: seq<Option<PID>>)
    requires TellsApart(hash, xs)
    ensures Separate(PidKey(hash), xs) <==> OneTextOnePid(xs)
  {
    forall i, j | 0 <= i < |xs| && 0 <= j < |xs| && xs[i].Some? && xs[j].Some?
      ensures PidKey(hash)(xs[i].value) == PidKey(hash)(xs[j].value) <==> Text(xs[i].value) == Text(xs[j].value)
    {
      SameKeyIff(hash, xs[i].value, xs[j].value);
    }
  }

  /** With a hash that does not collide on the batch, and payloads that all
      serialize: the reader delivers exactly the writer's list, in order, if and
      only if every message has a target, no two different targets run together
      to the same text, and the senders are all nil, or all set and the same is
      true of them. */
  lemma {:induction false} ExactIffTexts<P(!new)>(c: Payloads<P>, hash: Hash, msgs: seq<Deliver<P>>)
    requires Lossless(c) && AllSerialize(c, msgs)
    requires TellsApart(hash, Targets(msgs)) && TellsApart(hash, Senders(msgs))
    ensures Arrived(c, hash, msgs) == Outcome(msgs, None)
            <==> && AllSet(Targets(msgs)) && OneTextOnePid(Targets(msgs))
                 && (NoneSet(Senders(msgs)) || (AllSet(Senders(msgs)) && OneTextOnePid(Senders(msgs))))
  {
    ExactIff(c, hash, msgs);
    SeparateIff(hash, Targets(msgs));
    SeparateIff(hash, Senders(msgs));
  }

  /** PIDs of one address are never confused: so the targets of a stream, which
      all live on the node it leads to, arrive as they were sent. */
  lemma {:induction false} OneAddressApart(xs: seq<Option<PID>>, address: seq<byte>)
    requires forall i :: 0 <= i < |xs| && xs[i].Some? ==>
             xs[i].value.fields.address == address && xs[i].value.unknown == []
    ensures OneTextOnePid(xs)
  {
    forall i, j | 0 <= i < |xs| && 0 <= j < |xs| && xs[i].Some? && xs[j].Some? && Text(xs[i].value) == Text(xs[j].value)
      ensures xs[i] == xs[j]
    {
      assert xs[i].value.fields.id == Text(xs[i].value)[|address|..];
      assert xs[j].value.fields.id == Text(xs[j].value)[|address|..];
    }
  }

  // ---- where it is not ----

  /** Whatever the hash: an address and an ID that run together name two PIDs by
      one key, so a message for the second is delivered to the first. */
  lemma {:induction false} RunTogether<P(!new)>(
    c: Payloads<P>, hash: Hash, a: seq<byte>, b: seq<byte>, d: seq<byte>, p: P, q: P)
    requires Lossless(c) && c.serialize(p).Some? && c.serialize(q).Some? && b != []
    ensures var one, two := Msg(Pid(a, b + d), []), Msg(Pid(a + b, d), []);
            && one != two && Key(hash, one) == Key(hash, two)
            && Arrives(c, hash, [Deliver(Some(one), p, None), Deliver(Some(two), q, None)], 1)
               == Sent(Deliver(Some(one), q, None))
  {
    var one, two: PID := Msg(Pid(a, b + d), []), Msg(Pid(a + b, d), []);
    assert a + (b + d) == a + b + d;
    assert |a + b| != |a|;
    var msgs := [Deliver(Some(one), p, None), Deliver(Some(two), q, None)];
    var key := PidKey(hash);
    assert First(key, Targets(msgs), key(two), 0) == None;
    assert First(key, Targets(msgs), key(two), 1) == Some(one);
    assert First(key, Targets(msgs), key(two), 2) == Some(one);
    NoLead(Senders(msgs), 2);
  }

  /** A message that does not serialize still arrives: the first target gets
      whatever the empty payload of the batch's first type decodes to. */
  lemma {:induction false} Phantom<P>(c: Payloads<P>, hash: Hash, msgs: seq<Deliver<P>>, i: nat, p: P)
    requires i < |msgs| && c.serialize(msgs[i].msg).None? && c.deserialize([], c.name(msgs[0].msg)) == Some(p)
    requires msgs[0].target.Some? && Collect(ArrivesFrom(c, hash, msgs), i).end.None?
    ensures var r := Collect(ArrivesFrom(c, hash, msgs), i + 1);
            r.end.None? && |r.sent| == i + 1 && r.sent[i].target == msgs[0].target && r.sent[i].msg == p
  {
    CollectLength(ArrivesFrom(c, hash, msgs), i);
    LeadFirst(Targets(msgs), |msgs|);
  }

  /** A batch that mixes nil and non-nil senders: the nil one arrives as the first. */
  lemma {:induction false} MixedSenders<P(!new)>(c: Payloads<P>, hash: Hash, p: PID, m: P)
    requires Lossless(c) && c.serialize(m).Some?
    ensures Arrives(c, hash, [Deliver(Some(p), m, Some(p)), Deliver(Some(p), m, None)], 1)
            == Sent(Deliver(Some(p), m, Some(p)))
  {
    var msgs := [Deliver(Some(p), m, Some(p)), Deliver(Some(p), m, None)];
    LeadFirst(Senders(msgs), 2);
    FirstSet(PidKey(hash), Targets(msgs), 1, 2);
    FirstKey(PidKey(hash), Targets(msgs), PidKey(hash)(p), 2);
  }

  /** A message without a target goes to the first target there is, or ends the reader. */
  lemma {:induction false} NilTarget<P(!new)>(c: Payloads<P>, hash: Hash, p: PID, m: P)
    requires Lossless(c) && c.serialize(m).Some?
    ensures Arrives(c, hash, [Deliver(Some(p), m, None), Deliver(None, m, None)], 1) == Sent(Deliver(Some(p), m, None))
    ensures Arrives(c, hash, [Deliver(None, m, None)], 0) == Stopped(Panicked)
  {
    var two := [Deliver(Some(p), m, None), Deliver(None, m, None)];
    var one := [Deliver(None, m, None)];
    LeadFirst(Targets(two), 2);
    NoLead(Senders(two), 2);
    NoLead(Targets(one), 1);
  }
}
