/**
 The three message types that cross the wire: PID (actor/actor_vtproto.pb.go),
 Message and Envelope (remote/remote_vtproto.pb.go). Strings are the bytes they
 hold; an element of a repeated field may be a nil pointer, here None. A nil
 and an empty byte slice are the same value.
 */
module Codec {
  import opened Options
  import opened Varints
  import opened Wire

  datatype Pid = Pid(address: seq<byte>, id: seq<byte>)
  datatype Body = Body(data: seq<byte>, target: int32, sender: int32, typeName: int32)
  datatype Tables = Tables(
    typeNames: seq<seq<byte>>,
    targets: seq<Option<PID>>,
    senders: seq<Option<PID>>,
    messages: seq<Option<Message>>)

  type PID = Msg<Pid>
  type Message = Msg<Body>
  type Envelope = Msg<Tables>

  const ZERO_PID: PID := Msg(Pid([], []), [])
  const ZERO_MESSAGE: Message := Msg(Body([], 0, 0, 0), [])
  const ZERO_ENVELOPE: Envelope := Msg(Tables([], [], [], []), [])

  // ---- PID ----

  function PidSchema(num: int): Kind { if num == 1 || num == 2 then Delimited else Absent }

  function PidPut(p: Pid, num: int, v: Val): Result<Pid> {
    if v.Int? then Err(WrongWireType)
    else if num == 1 then Ok(p.(address := v.b))
    else Ok(p.(id := v.b))
  }

  // A field that holds its zero value is not written.
  function BytesEntry(num: int, b: seq<byte>): seq<Entry> { if b == [] then [] else [Entry(num, Bytes(b))] }
  function IntEntry(num: int, n: int32): seq<Entry> { if n == 0 then [] else [Entry(num, Int(n))] }

  function PidEntries(p: Pid): (es: seq<Entry>)
    ensures AllFit(PidSchema, es)
  {
    BytesEntry(1, p.address) + BytesEntry(2, p.id)
  }

  function MarshalPid(m: Option<PID>): seq<byte> {
    if m.None? then [] else Encode(PidSchema, PidEntries(m.value.fields)) + m.value.unknown
  }

  function UnmarshalPid(s: seq<byte>): Result<PID> {
    Parse(FieldReader(PidSchema), PidPut, 0, s, ZERO_PID)
  }

  // ---- Message ----

  function MessageSchema(num: int): Kind {
    if num == 1 then Delimited else if 2 <= num <= 4 then Integer else Absent
  }

  function MessagePut(m: Body, num: int, v: Val): Result<Body> {
    if v.Bytes? then (if num == 1 then Ok(m.(data := v.b)) else Err(WrongWireType))
    else if num == 2 then Ok(m.(target := v.n))
    else if num == 3 then Ok(m.(sender := v.n))
    else Ok(m.(typeName := v.n))
  }

  function MessageEntries(m: Body): (es: seq<Entry>)
    ensures AllFit(MessageSchema, es)
  {
    BytesEntry(1, m.data) + IntEntry(2, m.target) + IntEntry(3, m.sender) + IntEntry(4, m.typeName)
  }

  function MarshalMessage(m: Option<Message>): seq<byte> {
    if m.None? then [] else Encode(MessageSchema, MessageEntries(m.value.fields)) + m.value.unknown
  }

  function UnmarshalMessage(s: seq<byte>): Result<Message> {
    Parse(FieldReader(MessageSchema), MessagePut, 0, s, ZERO_MESSAGE)
  }

  // ---- Envelope ----

  function EnvelopeSchema(num: int): Kind { if 1 <= num <= 4 then Delimited else Absent }

  function EnvelopePut(t: Tables, num: int, v: Val): Result<Tables> {
    if v.Int? then Err(WrongWireType)
    else if num == 1 then Ok(t.(typeNames := t.typeNames + [v.b]))
    else if num == 2 then
      var p := UnmarshalPid(v.b);
      if p.Err? then Err(p.error) else Ok(t.(targets := t.targets + [Some(p.value)]))
    else if num == 3 then
      var p := UnmarshalPid(v.b);
      if p.Err? then Err(p.error) else Ok(t.(senders := t.senders + [Some(p.value)]))
    else
      var m := UnmarshalMessage(v.b);
      if m.Err? then Err(m.error) else Ok(t.(messages := t.messages + [Some(m.value)]))
  }

  // A repeated field: one entry per element.
  function Listed(num: int, bs: seq<seq<byte>>): (es: seq<Entry>)
    requires 1 <= num <= 4
    ensures AllFit(EnvelopeSchema, es)
  {
    if bs == [] then [] else Listed(num, bs[..|bs| - 1]) + [Entry(num, Bytes(bs[|bs| - 1]))]
  }

  function PidBytes(pids: seq<Option<PID>>): seq<seq<byte>> {
    if pids == [] then [] else PidBytes(pids[..|pids| - 1]) + [MarshalPid(pids[|pids| - 1])]
  }

  function MessageBytes(ms: seq<Option<Message>>): seq<seq<byte>> {
    if ms == [] then [] else MessageBytes(ms[..|ms| - 1]) + [MarshalMessage(ms[|ms| - 1])]
  }

  function EnvelopeEntries(t: Tables): (es: seq<Entry>)
    ensures AllFit(EnvelopeSchema, es)
  {
    Listed(1, t.typeNames) + Listed(2, PidBytes(t.targets)) + Listed(3, PidBytes(t.senders))
    + Listed(4, MessageBytes(t.messages))
  }

  function MarshalEnvelope(e: Envelope): seq<byte> {
    Encode(EnvelopeSchema, EnvelopeEntries(e.fields)) + e.unknown
  }

  function UnmarshalEnvelope(s: seq<byte>): Result<Envelope> {
    Parse(FieldReader(EnvelopeSchema), EnvelopePut, 0, s, ZERO_ENVELOPE)
  }

  // ---- SizeVT ----

  function DelimitedSize(l: nat): nat { 1 + l + Sov(l) }
  function BytesSize(l: nat): nat { if l > 0 then DelimitedSize(l) else 0 }
  function IntSize(n: int32): nat { if n != 0 then 1 + Sov(Extend(n)) else 0 }

  function SizePid(m: Option<PID>): nat {
    if m.None? then 0
    else BytesSize(|m.value.fields.address|) + BytesSize(|m.value.fields.id|) + |m.value.unknown|
  }

  function SizeMessage(m: Option<Message>): nat {
    if m.None? then 0
    else
      var b := m.value.fields;
      BytesSize(|b.data|) + IntSize(b.target) + IntSize(b.sender) + IntSize(b.typeName) + |m.value.unknown|
  }

  function SizeNames(names: seq<seq<byte>>): nat {
    if names == [] then 0 else SizeNames(names[..|names| - 1]) + DelimitedSize(|names[|names| - 1]|)
  }

  function SizePids(pids: seq<Option<PID>>): nat {
    if pids == [] then 0 else SizePids(pids[..|pids| - 1]) + DelimitedSize(SizePid(pids[|pids| - 1]))
  }

  function SizeMessages(ms: seq<Option<Message>>): nat {
    if ms == [] then 0 else SizeMessages(ms[..|ms| - 1]) + DelimitedSize(SizeMessage(ms[|ms| - 1]))
  }

  function SizeEnvelope(e: Envelope): nat {
    SizeNames(e.fields.typeNames) + SizePids(e.fields.targets) + SizePids(e.fields.senders)
    + SizeMessages(e.fields.messages) + |e.unknown|
  }

  // ---- what survives the trip ----

  // A nil element is written as an empty message, and comes back as one.
  function FilledPid(m: Option<PID>): Option<PID> { if m.None? then Some(ZERO_PID) else m }
  function FilledMessage(m: Option<Message>): Option<Message> { if m.None? then Some(ZERO_MESSAGE) else m }

  function FilledPids(ms: seq<Option<PID>>): (r: seq<Option<PID>>)
    ensures |r| == |ms| && forall i :: 0 <= i < |ms| ==> r[i] == FilledPid(ms[i])
  {
    if ms == [] then [] else FilledPids(ms[..|ms| - 1]) + [FilledPid(ms[|ms| - 1])]
  }

  function FilledMessages(ms: seq<Option<Message>>): (r: seq<Option<Message>>)
    ensures |r| == |ms| && forall i :: 0 <= i < |ms| ==> r[i] == FilledMessage(ms[i])
  {
    if ms == [] then [] else FilledMessages(ms[..|ms| - 1]) + [FilledMessage(ms[|ms| - 1])]
  }

  function FilledTables(t: Tables): Tables {
    Tables(t.typeNames, FilledPids(t.targets), FilledPids(t.senders), FilledMessages(t.messages))
  }

  function Filled(e: Envelope): Envelope { Msg(FilledTables(e.fields), e.unknown) }

  predicate NoNil<T>(xs: seq<Option<T>>) { forall i :: 0 <= i < |xs| ==> xs[i].Some? }

  // The unknown bytes are whole fields with numbers the message does not use.
  predicate SoundPid(m: Option<PID>) { m.None? || Unknowns(FieldReader(PidSchema), m.value.unknown) }
  predicate SoundMessage(m: Option<Message>) { m.None? || Unknowns(FieldReader(MessageSchema), m.value.unknown) }

  predicate SoundPids(ms: seq<Option<PID>>) { forall i :: 0 <= i < |ms| ==> SoundPid(ms[i]) }
  predicate SoundMessages(ms: seq<Option<Message>>) { forall i :: 0 <= i < |ms| ==> SoundMessage(ms[i]) }

  predicate SoundTables(t: Tables) { SoundPids(t.targets) && SoundPids(t.senders) && SoundMessages(t.messages) }

  // The envelope's own unknown bytes, and those of its elements.
  datatype Level = Outer | Inner

  predicate SoundAt(level: Level, e: Envelope) {
    if level.Outer? then Unknowns(FieldReader(EnvelopeSchema), e.unknown) else SoundTables(e.fields)
  }

  predicate Sound(e: Envelope) { forall level: Level :: SoundAt(level, e) }
}
