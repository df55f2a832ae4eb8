/**
 A batch on its way to another node: streamWriter.Invoke interns type names and
 PIDs into tables and sends one Envelope (remote/stream_writer.go), streamReader.
 Receive looks them up again and delivers (remote/stream_reader.go).

 The payload codec is a pair of functions, and so is the 64-bit hash of a PID;
 Go's int32(len(m)) is Wrap.
 */
module Transport {
  import opened Options
  import opened Varints
  import opened Wire
  import opened Codec

  datatype Deliver<P> = Deliver(target: Option<PID>, msg: P, sender: Option<PID>)

  // The Serializer and the Deserializer; None is an error.
  datatype Payloads<!P> = Payloads(
    name: P -> seq<byte>,
    serialize: P -> Option<seq<byte>>,
    deserialize: (seq<byte>, seq<byte>) -> Option<P>)

  type Hash = seq<byte> -> uint64

  // PID.LookupKey: nothing separates the address from the ID.
  function Key(hash: Hash, p: PID): uint64 { hash(p.fields.address + p.fields.id) }

  function PidKey(hash: Hash): PID -> uint64 { (p: PID) => Key(hash, p) }

  function Wrap(n: nat): int32 { Signed32(Trunc(n, TWO_32)) }

  // ---- interning ----

  // A lookup map and the slice it indexes.
  datatype Table<T, K> = Table(index: map<K, int32>, items: seq<T>)

  function Add<T, K>(key: T -> K, t: Table<T, K>, x: Option<T>): Table<T, K> {
    if x.None? || key(x.value) in t.index then t
    else Table(t.index[key(x.value) := Wrap(|t.index|)], t.items + [x.value])
  }

  // The index the table gives to x; nil gets 0 without being looked up.
  function IdOf<T, K>(key: T -> K, t: Table<T, K>, x: Option<T>): int32 {
    if x.None? || key(x.value) !in t.index then 0 else t.index[key(x.value)]
  }

  // The table after the first n of xs.
  function Interned<T, K>(key: T -> K, xs: seq<Option<T>>, n: nat): Table<T, K>
    requires n <= |xs|
  {
    if n == 0 then Table(map[], []) else Add(key, Interned(key, xs, n - 1), xs[n - 1])
  }

  method LookupPIDs(hash: Hash, m: map<uint64, int32>, pid: Option<PID>, pids: seq<PID>)
    returns (id: int32, m1: map<uint64, int32>, pids1: seq<PID>)
    ensures Table(m1, pids1) == Add(PidKey(hash), Table(m, pids), pid)
    ensures id == IdOf(PidKey(hash), Table(m1, pids1), pid)
  {
    if pid.None? {
      return 0, m, pids;
    }
    var max := Wrap(|m|);
    var key := Key(hash, pid.value);
    m1, pids1 := m, pids;
    if key in m {
      id := m[key];
    } else {
      m1 := m[key := max];
      id := max;
      pids1 := pids + [pid.value];
    }
  }

  function Same<T>(): T -> T { x => x }

  method LookupTypeName(m: map<seq<byte>, int32>, name: seq<byte>, types: seq<seq<byte>>)
    returns (id: int32, m1: map<seq<byte>, int32>, types1: seq<seq<byte>>)
    ensures Table(m1, types1) == Add(Same(), Table(m, types), Some(name))
    ensures id == IdOf(Same(), Table(m1, types1), Some(name))
  {
    var max := Wrap(|m|);
    m1, types1 := m, types;
    if name in m {
      id := m[name];
    } else {
      m1 := m[name := max];
      id := max;
      types1 := types + [name];
    }
  }

  // ---- the writer ----

  function Targets<P>(msgs: seq<Deliver<P>>): (xs: seq<Option<PID>>)
    ensures |xs| == |msgs| && forall i :: 0 <= i < |msgs| ==> xs[i] == msgs[i].target
  {
    seq(|msgs|, i requires 0 <= i < |msgs| => msgs[i].target)
  }

  function Senders<P>(msgs: seq<Deliver<P>>): (xs: seq<Option<PID>>)
    ensures |xs| == |msgs| && forall i :: 0 <= i < |msgs| ==> xs[i] == msgs[i].sender
  {
    seq(|msgs|, i requires 0 <= i < |msgs| => msgs[i].sender)
  }

  function Names<P>(c: Payloads<P>, msgs: seq<Deliver<P>>): (xs: seq<Option<seq<byte>>>)
    ensures |xs| == |msgs| && forall i :: 0 <= i < |msgs| ==> xs[i] == Some(c.name(msgs[i].msg))
  {
    seq(|msgs|, i requires 0 <= i < |msgs| => Some(c.name(msgs[i].msg)))
  }

  // The slot of the i-th message: nil if it does not serialize, else its data and three indices.
  function SlotOf<P>(c: Payloads<P>, hash: Hash, msgs: seq<Deliver<P>>, i: nat): Option<Message>
    requires i < |msgs|
  {
    var data := c.serialize(msgs[i].msg);
    if data.None? then None
    else
      Some(Msg(Body(
        data.value,
        IdOf(PidKey(hash), Interned(PidKey(hash), Targets(msgs), i + 1), msgs[i].target),
        IdOf(PidKey(hash), Interned(PidKey(hash), Senders(msgs), i + 1), msgs[i].sender),
        IdOf(Same(), Interned(Same(), Names(c, msgs), i + 1), Some(c.name(msgs[i].msg)))), []))
  }

  function Slots<P>(c: Payloads<P>, hash: Hash, msgs: seq<Deliver<P>>): (r: seq<Option<Message>>)
    ensures |r| == |msgs| && forall i :: 0 <= i < |msgs| ==> r[i] == SlotOf(c, hash, msgs, i)
  {
    seq(|msgs|, i requires 0 <= i < |msgs| => SlotOf(c, hash, msgs, i))
  }

  function Pointers<T>(xs: seq<T>): (r: seq<Option<T>>)
    ensures |r| == |xs| && forall i :: 0 <= i < |xs| ==> r[i] == Some(xs[i])
  {
    seq(|xs|, i requires 0 <= i < |xs| => Some(xs[i]))
  }

  function Written<P>(c: Payloads<P>, hash: Hash, msgs: seq<Deliver<P>>): Envelope {
    var n := |msgs|;
    Msg(Tables(
      Interned(Same(), Names(c, msgs), n).items,
      Pointers(Interned(PidKey(hash), Targets(msgs), n).items),
      Pointers(Interned(PidKey(hash), Senders(msgs), n).items),
      Slots(c, hash, msgs)), [])
  }

  // The three tables, after n messages.
  datatype Lookups = Lookups(names: Table<seq<byte>, seq<byte>>, senders: Table<PID, uint64>, targets: Table<PID,
    uint64>)

  ghost function LookupsAfter<P>(c: Payloads<P>, hash: Hash, msgs: seq<Deliver<P>>, n: nat): Lookups
    requires n <= |msgs|
  {
    Lookups(Interned(Same(), Names(c, msgs), n), Interned(PidKey(hash), Senders(msgs), n),
            Interned(PidKey(hash), Targets(msgs), n))
  }

  // The body of the loop in Invoke.
  method Enter<P>(c: Payloads<P>, hash: Hash, ghost msgs: seq<Deliver<P>>, ghost i: nat, stream: Deliver<P>, l: Lookups)
    returns (l1: Lookups, slot: Option<Message>)
    requires i < |msgs| && stream == msgs[i] && l == LookupsAfter(c, hash, msgs, i)
    ensures l1 == LookupsAfter(c, hash, msgs, i + 1) && slot == SlotOf(c, hash, msgs, i)
  {
    var typeID, typeLookup, typeNames := LookupTypeName(l.names.index, c.name(stream.msg), l.names.items);
    var senderID, senderLookup, senders := LookupPIDs(hash, l.senders.index, stream.sender, l.senders.items);
    var targetID, targetLookup, targets := LookupPIDs(hash, l.targets.index, stream.target, l.targets.items);
    l1 := Lookups(Table(typeLookup, typeNames), Table(senderLookup, senders), Table(targetLookup, targets));
    var b := c.serialize(stream.msg);
    if b.None? {
      return l1, None;
    }
    slot := Some(Msg(Body(b.value, targetID, senderID, typeID), []));
  }

  // The loop in Invoke; slots is what it must leave in messages.
  method EnterAll<P>(c: Payloads<P>, hash: Hash, msgs: seq<Deliver<P>>, messages: array<Option<Message>>,
                     ghost slots: seq<Option<Message>>) returns (l: Lookups)
    requires messages.Length == |msgs| == |slots|
    requires forall i :: 0 <= i < |msgs| ==> slots[i] == SlotOf(c, hash, msgs, i)
    modifies messages
    ensures l == LookupsAfter(c, hash, msgs, |msgs|)
    ensures messages[..] == slots
  {
    l := Lookups(Table(map[], []), Table(map[], []), Table(map[], []));
    for i := 0 to |msgs|
      invariant l == LookupsAfter(c, hash, msgs, i)
      invariant messages[..i] == slots[..i]
    {
      var slot;
      l, slot := Enter(c, hash, msgs, i, msgs[i], l);
      messages[i] := slot;
      assert messages[..i + 1] == slots[..i] + [slot];
    }
  }

  /** The batching part of streamWriter.Invoke: one pass that fills the maps, the
      slices and the array of messages, where a message that fails leaves nil. */
  method Invoke<P>(c: Payloads<P>, hash: Hash, msgs: seq<Deliver<P>>) returns (env: Envelope)
    ensures env == Written(c, hash, msgs)
  {
    var messages := new Option<Message>[|msgs|](_ => None);
    var l := EnterAll(c, hash, msgs, messages, Slots(c, hash, msgs));
    env := Msg(Tables(l.names.items, Pointers(l.targets.items), Pointers(l.senders.items), messages[..]), []);
  }

  // ---- the reader ----

  // Why the loop ended early.
  datatype Reason = DeserializeFailed | Panicked

  datatype Outcome<P> = Outcome(sent: seq<Deliver<P>>, end: Option<Reason>)

  predicate InRange<T>(xs: seq<T>, i: int) { 0 <= i < |xs| }

  // One message of an envelope: SendLocal, an error return, or a panic on a bad index or a nil message.
  datatype Single<P> = Sent(d: Deliver<P>) | Stopped(why: Reason)

  function ReadOne<P>(c: Payloads<P>, t: Tables, m: Option<Message>): Single<P> {
    if m.None? || !InRange(t.typeNames, m.value.fields.typeName) then Stopped(Panicked)
    else
      var b := m.value.fields;
      var payload := c.deserialize(b.data, t.typeNames[b.typeName]);
      if payload.None? then Stopped(DeserializeFailed)
      else if !InRange(t.targets, b.target) then Stopped(Panicked)
      else if t.senders == [] then Sent(Deliver(t.targets[b.target], payload.value, None))
      else if !InRange(t.senders, b.sender) then Stopped(Panicked)
      else Sent(Deliver(t.targets[b.target], payload.value, t.senders[b.sender]))
  }

  // One more message, unless the loop is over.
  function Then<P>(r: Outcome<P>, s: Single<P>): Outcome<P> {
    if !r.end.None? then r
    else if s.Sent? then Outcome(r.sent + [s.d], None)
    else Outcome(r.sent, Some(s.why))
  }

  // The first n of a series of messages, up to the first that does not go through.
  function Collect<P>(one: nat -> Single<P>, n: nat): Outcome<P> {
    if n == 0 then Outcome([], None) else Then(Collect(one, n - 1), one(n - 1))
  }

  // The messages of an envelope, as such a series.
  function ReadFrom<P>(c: Payloads<P>, t: Tables): nat -> Single<P> {
    (i: nat) => if i < |t.messages| then ReadOne(c, t, t.messages[i]) else Stopped(Panicked)
  }

  function Read<P>(c: Payloads<P>, t: Tables): Outcome<P> { Collect(ReadFrom(c, t), |t.messages|) }

  lemma {:induction false} CollectStops<P>(one: nat -> Single<P>, k: nat, n: nat)
    requires k <= n && !Collect(one, k).end.None?
    ensures Collect(one, n) == Collect(one, k)
    decreases n
  {
    if k < n { CollectStops(one, k, n - 1); }
  }

  /** The inner loop of streamReader.Receive: stops at the first error or panic. */
  method Receive<P>(c: Payloads<P>, t: Tables) returns (r: Outcome<P>)
    ensures r == Read(c, t)
  {
    var sent := [];
    for i := 0 to |t.messages|
      invariant Outcome(sent, None) == Collect(ReadFrom(c, t), i)
    {
      var m := t.messages[i];
      if m.None? || !InRange(t.typeNames, m.value.fields.typeName) {
        CollectStops(ReadFrom(c, t), i + 1, |t.messages|);
        return Outcome(sent, Some(Panicked));
      }
      var b := m.value.fields;
      var payload := c.deserialize(b.data, t.typeNames[b.typeName]);
      if payload.None? {
        CollectStops(ReadFrom(c, t), i + 1, |t.messages|);
        return Outcome(sent, Some(DeserializeFailed));
      }
      if !InRange(t.targets, b.target) || (t.senders != [] && !InRange(t.senders, b.sender)) {
        CollectStops(ReadFrom(c, t), i + 1, |t.messages|);
        return Outcome(sent, Some(Panicked));
      }
      var sender := None;
      if |t.senders| > 0 {
        sender := t.senders[b.sender];
      }
      sent := sent + [Deliver(t.targets[b.target], payload.value, sender)];
    }
    r := Outcome(sent, None);
  }
}
