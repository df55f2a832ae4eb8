/** Sizes, round trips and canonical forms of PIDs, Messages and Envelopes. */
module CodecTheorems {
  import opened Options
  import opened Varints
  import opened Wire
  import opened WireTheorems
  import opened Codec

  // ---- concatenation ----

  lemma {:induction false} EncodeAppend(schema: Schema, a: seq<Entry>, b: seq<Entry>)
    requires AllFit(schema, a) && AllFit(schema, b)
    ensures AllFit(schema, a + b) && Encode(schema, a + b) == Encode(schema, a) + Encode(schema, b)
    decreases |a|
  {
    if a == [] {
      assert a + b == b;
    } else {
      assert (a + b)[0] == a[0] && (a + b)[1..] == a[1..] + b;
      EncodeAppend(schema, a[1..], b);
    }
  }

  lemma {:induction false} EncodeOne(schema: Schema, e: Entry)
    requires Fits(schema, e)
    ensures AllFit(schema, [e]) && Encode(schema, [e]) == FieldBytes(e.num, e.val)
  {
    assert Encode(schema, [e][1..]) == [];
  }

  lemma {:induction false} PutAllAppend<A>(put: Put<A>, a: A, xs: seq<Entry>, ys: seq<Entry>)
    requires PutAll(put, a, xs).Ok?
    ensures PutAll(put, a, xs + ys) == PutAll(put, PutAll(put, a, xs).value, ys)
    decreases |xs|
  {
    if xs == [] {
      assert xs + ys == ys;
    } else {
      assert (xs + ys)[0] == xs[0] && (xs + ys)[1..] == xs[1..] + ys;
      PutAllAppend(put, put(a, xs[0].num, xs[0].val).value, xs[1..], ys);
    }
  }

  lemma {:induction false} PutOne<A>(put: Put<A>, a: A, e: Entry)
    requires put(a, e.num, e.val).Ok?
    ensures PutAll(put, a, [e]) == put(a, e.num, e.val)
  {
    assert PutAll(put, put(a, e.num, e.val).value, [e][1..]) == put(a, e.num, e.val);
  }

  // ---- SizeVT is the length of what is written ----

  lemma {:induction false} BytesEntrySize(schema: Schema, num: int, b: seq<byte>)
    requires Fits(schema, Entry(num, Bytes(b)))
    ensures AllFit(schema, BytesEntry(num, b)) && |Encode(schema, BytesEntry(num, b))| == BytesSize(|b|)
    ensures |FieldBytes(num, Bytes(b))| == DelimitedSize(|b|)
  {
    SovCountsDigits(|b|);
    EncodeOne(schema, Entry(num, Bytes(b)));
  }

  lemma {:induction false} IntEntrySize(schema: Schema, num: int, n: int32)
    requires Fits(schema, Entry(num, Int(n)))
    ensures AllFit(schema, IntEntry(num, n)) && |Encode(schema, IntEntry(num, n))| == IntSize(n)
  {
    SovCountsDigits(Extend(n));
    EncodeOne(schema, Entry(num, Int(n)));
  }

  lemma {:induction false} PidSize(m: Option<PID>)
    ensures |MarshalPid(m)| == SizePid(m)
  {
    if m.Some? {
      var p := m.value.fields;
      BytesEntrySize(PidSchema, 1, p.address);
      BytesEntrySize(PidSchema, 2, p.id);
      EncodeAppend(PidSchema, BytesEntry(1, p.address), BytesEntry(2, p.id));
    }
  }

  lemma {:induction false} MessageSize(m: Option<Message>)
    ensures |MarshalMessage(m)| == SizeMessage(m)
  {
    if m.Some? {
      var b := m.value.fields;
      var d, t, s, n := BytesEntry(1, b.data), IntEntry(2, b.target), IntEntry(3, b.sender), IntEntry(4, b.typeName);
      BytesEntrySize(MessageSchema, 1, b.data);
      IntEntrySize(MessageSchema, 2, b.target);
      IntEntrySize(MessageSchema, 3, b.sender);
      IntEntrySize(MessageSchema, 4, b.typeName);
      EncodeAppend(MessageSchema, d, t);
      EncodeAppend(MessageSchema, d + t, s);
      EncodeAppend(MessageSchema, d + t + s, n);
    }
  }

  lemma {:induction false} EncodeSnoc(es: seq<Entry>, num: int, b: seq<byte>)
    requires 1 <= num <= 4 && AllFit(EnvelopeSchema, es)
    ensures AllFit(EnvelopeSchema, es + [Entry(num, Bytes(b))])
    ensures |Encode(EnvelopeSchema, es + [Entry(num, Bytes(b))])| == |Encode(EnvelopeSchema, es)| + DelimitedSize(|b|)
  {
    BytesEntrySize(EnvelopeSchema, num, b);
    EncodeOne(EnvelopeSchema, Entry(num, Bytes(b)));
    EncodeAppend(EnvelopeSchema, es, [Entry(num, Bytes(b))]);
  }

  lemma {:induction false} ListedSize(num: int, bs: seq<seq<byte>>)
    requires 1 <= num <= 4
    ensures |Encode(EnvelopeSchema, Listed(num, bs))| == SizeNames(bs)
    decreases |bs|
  {
    if bs != [] {
      var k := |bs| - 1;
      ListedSize(num, bs[..k]);
      EncodeSnoc(Listed(num, bs[..k]), num, bs[k]);
    }
  }

  lemma {:induction false} SizeNamesSnoc(bs: seq<seq<byte>>, b: seq<byte>)
    ensures SizeNames(bs + [b]) == SizeNames(bs) + DelimitedSize(|b|)
  {
    assert (bs + [b])[..|bs|] == bs;
  }

  lemma {:induction false} PidsSize(pids: seq<Option<PID>>)
    ensures SizeNames(PidBytes(pids)) == SizePids(pids)
    decreases |pids|
  {
    if pids != [] {
      var k := |pids| - 1;
      PidsSize(pids[..k]);
      PidSize(pids[k]);
      SizeNamesSnoc(PidBytes(pids[..k]), MarshalPid(pids[k]));
    }
  }

  lemma {:induction false} MessagesSize(ms: seq<Option<Message>>)
    ensures SizeNames(MessageBytes(ms)) == SizeMessages(ms)
    decreases |ms|
  {
    if ms != [] {
      var k := |ms| - 1;
      MessagesSize(ms[..k]);
      MessageSize(ms[k]);
      SizeNamesSnoc(MessageBytes(ms[..k]), MarshalMessage(ms[k]));
    }
  }

  lemma {:induction false} EncodeFour(schema: Schema, a: seq<Entry>, b: seq<Entry>, c: seq<Entry>, d: seq<Entry>)
    requires AllFit(schema, a) && AllFit(schema, b) && AllFit(schema, c) && AllFit(schema, d)
    ensures AllFit(schema, a + b + c + d)
    ensures Encode(schema, a + b + c + d)
            == Encode(schema, a) + Encode(schema, b) + Encode(schema, c) + Encode(schema, d)
  {
    EncodeAppend(schema, a, b);
    EncodeAppend(schema, a + b, c);
    EncodeAppend(schema, a + b + c, d);
  }

  /** SizeVT is exactly the number of bytes MarshalVT writes. */
  lemma {:induction false} EnvelopeSize(e: Envelope)
    ensures |MarshalEnvelope(e)| == SizeEnvelope(e)
  {
    var t := e.fields;
    EncodeFour(EnvelopeSchema, Listed(1, t.typeNames), Listed(2, PidBytes(t.targets)),
                 Listed(3, PidBytes(t.senders)), Listed(4, MessageBytes(t.messages)));
    ListedSize(1, t.typeNames);
    ListedSize(2, PidBytes(t.targets));
    ListedSize(3, PidBytes(t.senders));
    ListedSize(4, MessageBytes(t.messages));
    PidsSize(t.targets);
    PidsSize(t.senders);
    MessagesSize(t.messages);
  }

  // ---- round trips ----

  lemma {:induction false} PidRestored(p: Pid)
    ensures PutAll(PidPut, ZERO_PID.fields, PidEntries(p)) == Ok(p)
  {
    var a, b := BytesEntry(1, p.address), BytesEntry(2, p.id);
    var p1 := Pid(p.address, []);
    assert PutAll(PidPut, ZERO_PID.fields, a) == Ok(p1) by {
      if a != [] { PutOne(PidPut, ZERO_PID.fields, a[0]); }
    }
    assert PutAll(PidPut, p1, b) == Ok(p) by {
      if b != [] { PutOne(PidPut, p1, b[0]); }
    }
    PutAllAppend(PidPut, ZERO_PID.fields, a, b);
  }

  lemma {:induction false} PidRead(next: Reader, m: PID)
    requires Good(next, PidSchema) && Unknowns(next, m.unknown) && |MarshalPid(Some(m))| < TWO_63
    ensures Parse(next, PidPut, 0, MarshalPid(Some(m)), ZERO_PID) == Ok(m)
  {
    PidRestored(m.fields);
    ParseEncoded(next, PidSchema, PidPut, 0, PidEntries(m.fields), m.unknown, ZERO_PID);
    assert [] + m.unknown == m.unknown;
  }

  /** A PID survives, with its unknown fields; a nil one comes back empty. */
  lemma {:induction false} PidRoundTrip(m: Option<PID>)
    requires SoundPid(m) && |MarshalPid(m)| < TWO_63
    ensures UnmarshalPid(MarshalPid(m)) == Ok(FilledPid(m).value)
  {
    if m.Some? {
      FieldReaderGood(PidSchema);
      PidRead(FieldReader(PidSchema), m.value);
    }
  }

  lemma {:induction false} PutIntEntry(m: Body, num: int, n: int32, m1: Body)
    requires MessagePut(m, num, Int(n)) == Ok(m1) && (n == 0 ==> m1 == m)
    ensures PutAll(MessagePut, m, IntEntry(num, n)) == Ok(m1)
  {
    if n != 0 { PutOne(MessagePut, m, Entry(num, Int(n))); }
  }

  lemma {:induction false} MessageRestored(m: Body)
    ensures PutAll(MessagePut, ZERO_MESSAGE.fields, MessageEntries(m)) == Ok(m)
  {
    var zero := ZERO_MESSAGE.fields;
    var d, t, s, n := BytesEntry(1, m.data), IntEntry(2, m.target), IntEntry(3, m.sender), IntEntry(4, m.typeName);
    var m1 := zero.(data := m.data);
    var m2 := m1.(target := m.target);
    var m3 := m2.(sender := m.sender);
    assert PutAll(MessagePut, zero, d) == Ok(m1) by {
      if d != [] { PutOne(MessagePut, zero, d[0]); }
    }
    PutIntEntry(m1, 2, m.target, m2);
    PutIntEntry(m2, 3, m.sender, m3);
    PutIntEntry(m3, 4, m.typeName, m);
    PutAllAppend(MessagePut, zero, d, t);
    PutAllAppend(MessagePut, zero, d + t, s);
    PutAllAppend(MessagePut, zero, d + t + s, n);
  }

  lemma {:induction false} MessageRead(next: Reader, m: Message)
    requires Good(next, MessageSchema) && Unknowns(next, m.unknown) && |MarshalMessage(Some(m))| < TWO_63
    ensures Parse(next, MessagePut, 0, MarshalMessage(Some(m)), ZERO_MESSAGE) == Ok(m)
  {
    MessageRestored(m.fields);
    ParseEncoded(next, MessageSchema, MessagePut, 0, MessageEntries(m.fields), m.unknown, ZERO_MESSAGE);
    assert [] + m.unknown == m.unknown;
  }

  /** A Message survives, negative indices included. */
  lemma {:induction false} MessageRoundTrip(m: Option<Message>)
    requires SoundMessage(m) && |MarshalMessage(m)| < TWO_63
    ensures UnmarshalMessage(MarshalMessage(m)) == Ok(FilledMessage(m).value)
  {
    if m.Some? {
      FieldReaderGood(MessageSchema);
      MessageRead(FieldReader(MessageSchema), m.value);
    }
  }

  lemma {:induction false} PutSnoc<A>(put: Put<A>, a: A, es: seq<Entry>, e: Entry)
    requires PutAll(put, a, es).Ok? && put(PutAll(put, a, es).value, e.num, e.val).Ok?
    ensures PutAll(put, a, es + [e]) == put(PutAll(put, a, es).value, e.num, e.val)
  {
    PutOne(put, PutAll(put, a, es).value, e);
    PutAllAppend(put, a, es, [e]);
  }

  // The four tables come back in turn, each element appended in order.
  lemma {:induction false} NamesRestored(t: Tables, names: seq<seq<byte>>)
    ensures PutAll(EnvelopePut, t, Listed(1, names)) == Ok(t.(typeNames := t.typeNames + names))
    decreases |names|
  {
    if names == [] {
      assert t.typeNames + names == t.typeNames;
    } else {
      var k := |names| - 1;
      NamesRestored(t, names[..k]);
      PutSnoc(EnvelopePut, t, Listed(1, names[..k]), Entry(1, Bytes(names[k])));
      assert t.typeNames + names[..k] + [names[k]] == t.typeNames + names;
    }
  }

  lemma {:induction false} ListedSnoc(num: int, bs: seq<seq<byte>>, b: seq<byte>)
    requires 1 <= num <= 4
    ensures Listed(num, bs + [b]) == Listed(num, bs) + [Entry(num, Bytes(b))]
  {
    assert (bs + [b])[..|bs|] == bs;
  }

  // The table of PIDs with the given field number.
  function AddPids(t: Tables, num: int, pids: seq<Option<PID>>): Tables {
    if num == 2 then t.(targets := t.targets + pids) else t.(senders := t.senders + pids)
  }

  lemma {:induction false} PidPutBack(t: Tables, num: int, pid: Option<PID>)
    requires (num == 2 || num == 3) && SoundPid(pid) && SizePid(pid) < TWO_63
    ensures EnvelopePut(t, num, Bytes(MarshalPid(pid))) == Ok(AddPids(t, num, [FilledPid(pid)]))
  {
    PidSize(pid);
    PidRoundTrip(pid);
  }

  lemma {:induction false} AddPidsTwice(t: Tables, num: int, xs: seq<Option<PID>>, ys: seq<Option<PID>>)
    ensures AddPids(AddPids(t, num, xs), num, ys) == AddPids(t, num, xs + ys)
  {
    assert t.targets + xs + ys == t.targets + (xs + ys);
    assert t.senders + xs + ys == t.senders + (xs + ys);
  }

  lemma {:induction false} PidsRestored(t: Tables, num: int, pids: seq<Option<PID>>)
    requires num == 2 || num == 3
    requires SoundPids(pids) && SizePids(pids) < TWO_63
    ensures PutAll(EnvelopePut, t, Listed(num, PidBytes(pids))) == Ok(AddPids(t, num, FilledPids(pids)))
    decreases |pids|
  {
    if pids == [] {
      assert AddPids(t, num, []) == t;
    } else {
      var k := |pids| - 1;
      var t1 := AddPids(t, num, FilledPids(pids[..k]));
      PidsRestored(t, num, pids[..k]);
      PidPutBack(t1, num, pids[k]);
      ListedSnoc(num, PidBytes(pids[..k]), MarshalPid(pids[k]));
      PutSnoc(EnvelopePut, t, Listed(num, PidBytes(pids[..k])), Entry(num, Bytes(MarshalPid(pids[k]))));
      AddPidsTwice(t, num, FilledPids(pids[..k]), [FilledPid(pids[k])]);
    }
  }

  function AddMessages(t: Tables, ms: seq<Option<Message>>): Tables { t.(messages := t.messages + ms) }

  lemma {:induction false} MessagePutBack(t: Tables, m: Option<Message>)
    requires SoundMessage(m) && SizeMessage(m) < TWO_63
    ensures EnvelopePut(t, 4, Bytes(MarshalMessage(m))) == Ok(AddMessages(t, [FilledMessage(m)]))
  {
    MessageSize(m);
    MessageRoundTrip(m);
  }

  lemma {:induction false} AddMessagesTwice(t: Tables, xs: seq<Option<Message>>, ys: seq<Option<Message>>)
    ensures AddMessages(AddMessages(t, xs), ys) == AddMessages(t, xs + ys)
  {
    assert t.messages + xs + ys == t.messages + (xs + ys);
  }

  lemma {:induction false} MessagesRestored(t: Tables, ms: seq<Option<Message>>)
    requires SoundMessages(ms) && SizeMessages(ms) < TWO_63
    ensures PutAll(EnvelopePut, t, Listed(4, MessageBytes(ms))) == Ok(AddMessages(t, FilledMessages(ms)))
    decreases |ms|
  {
    if ms == [] {
      assert AddMessages(t, []) == t;
    } else {
      var k := |ms| - 1;
      var t1 := AddMessages(t, FilledMessages(ms[..k]));
      MessagesRestored(t, ms[..k]);
      MessagePutBack(t1, ms[k]);
      ListedSnoc(4, MessageBytes(ms[..k]), MarshalMessage(ms[k]));
      PutSnoc(EnvelopePut, t, Listed(4, MessageBytes(ms[..k])), Entry(4, Bytes(MarshalMessage(ms[k]))));
      AddMessagesTwice(t, FilledMessages(ms[..k]), [FilledMessage(ms[k])]);
    }
  }

  lemma {:induction false} PutFour<A>(put: Put<A>, a0: A, a1: A, a2: A, a3: A, r: A,
                   a: seq<Entry>, b: seq<Entry>, c: seq<Entry>, d: seq<Entry>)
    requires PutAll(put, a0, a) == Ok(a1) && PutAll(put, a1, b) == Ok(a2)
    requires PutAll(put, a2, c) == Ok(a3) && PutAll(put, a3, d) == Ok(r)
    ensures PutAll(put, a0, a + b + c + d) == Ok(r)
  {
    PutAllAppend(put, a0, a, b);
    PutAllAppend(put, a0, a + b, c);
    PutAllAppend(put, a0, a + b + c, d);
  }

  lemma {:induction false} TablesRestored(t: Tables)
    requires SoundTables(t) && SizePids(t.targets) < TWO_63 && SizePids(t.senders) < TWO_63
    requires SizeMessages(t.messages) < TWO_63
    ensures PutAll(EnvelopePut, ZERO_ENVELOPE.fields, EnvelopeEntries(t)) == Ok(FilledTables(t))
  {
    var t0 := ZERO_ENVELOPE.fields;
    var t1 := t0.(typeNames := t.typeNames);
    var t2 := t1.(targets := FilledPids(t.targets));
    var t3 := t2.(senders := FilledPids(t.senders));
    NamesRestored(t0, t.typeNames);
    PidsRestored(t1, 2, t.targets);
    PidsRestored(t2, 3, t.senders);
    MessagesRestored(t3, t.messages);
    assert [] + t.typeNames == t.typeNames && [] + FilledPids(t.targets) == FilledPids(t.targets);
    assert [] + FilledPids(t.senders) == FilledPids(t.senders)
           && [] + FilledMessages(t.messages) == FilledMessages(t.messages);
    PutFour(EnvelopePut, t0, t1, t2, t3, FilledTables(t),
            Listed(1, t.typeNames), Listed(2, PidBytes(t.targets)),
            Listed(3, PidBytes(t.senders)), Listed(4, MessageBytes(t.messages)));
  }

  lemma {:induction false} EnvelopeRead(next: Reader, e: Envelope)
    requires Good(next, EnvelopeSchema) && Unknowns(next, e.unknown)
    requires SoundTables(e.fields) && SizeEnvelope(e) < TWO_63
    ensures Parse(next, EnvelopePut, 0, MarshalEnvelope(e), ZERO_ENVELOPE) == Ok(Filled(e))
  {
    EnvelopeSize(e);
    TablesRestored(e.fields);
    ParseEncoded(next, EnvelopeSchema, EnvelopePut, 0, EnvelopeEntries(e.fields), e.unknown, ZERO_ENVELOPE);
    assert [] + e.unknown == e.unknown;
  }

  /** The Envelope round trip. */
  lemma {:induction false} EnvelopeRoundTrip(e: Envelope)
    requires Sound(e) && SizeEnvelope(e) < TWO_63
    ensures UnmarshalEnvelope(MarshalEnvelope(e)) == Ok(Filled(e))
  {
    assert SoundAt(Outer, e) && SoundAt(Inner, e);
    FieldReaderGood(EnvelopeSchema);
    EnvelopeRead(FieldReader(EnvelopeSchema), e);
  }

  lemma {:induction false} FilledSame(e: Envelope)
    requires NoNil(e.fields.targets) && NoNil(e.fields.senders) && NoNil(e.fields.messages)
    ensures Filled(e) == e
  {
    var t := e.fields;
    assert FilledPids(t.targets) == t.targets && FilledPids(t.senders) == t.senders;
    assert FilledMessages(t.messages) == t.messages;
  }

  // ---- what is accepted ----

  predicate Short(v: Val) { v.Bytes? ==> |v.b| < TWO_63 }

  ghost predicate PutKeeps<A(!new)>(put: Put<A>, keeps: A -> bool) {
    forall a: A, num: int, v: Val :: keeps(a) && Short(v) && put(a, num, v).Ok? ==> keeps(put(a, num, v).value)
  }

  lemma {:induction false} ParseKeeps<A(!new)>(
    next: Reader, put: Put<A>, keeps: A -> bool, base: nat, s: seq<byte>, m: Msg<A>)
    requires Inside(next) && PutKeeps(put, keeps) && keeps(m.fields) && |s| < TWO_63
    requires Parse(next, put, base, s, m).Ok?
    ensures keeps(Parse(next, put, base, s, m).value.fields)
    decreases |s|
  {
    if s != [] {
      ParseRound(next, put, base, s, m);
      var f := next(base, s).value;
      ParseKeeps(next, put, keeps, base + f.used, s[f.used..], Stored(put, s, m, f).value);
    }
  }

  lemma {:induction false} ParsedSound<A>(schema: Schema, put: Put<A>, s: seq<byte>, zero: Msg<A>)
    requires zero.unknown == [] && |s| < TWO_63
    ensures var r := Parse(FieldReader(schema), put, 0, s, zero);
            r.Ok? ==> Unknowns(FieldReader(schema), r.value.unknown)
  {
    FieldReaderGood(schema);
    ParsedSoundOver(FieldReader(schema), schema, put, s, zero);
  }

  lemma {:induction false} ParsedSoundOver<A>(next: Reader, schema: Schema, put: Put<A>, s: seq<byte>, zero: Msg<A>)
    requires Good(next, schema) && zero.unknown == [] && |s| < TWO_63
    ensures var r := Parse(next, put, 0, s, zero); r.Ok? ==> Unknowns(next, r.value.unknown)
  {
    if Parse(next, put, 0, s, zero).Ok? { ParsedUnknowns(next, schema, put, 0, s, zero); }
  }

  // No nil element, and nothing but unknown fields among the unknown bytes.
  predicate Whole(t: Tables) {
    SoundTables(t) && NoNil(t.targets) && NoNil(t.senders) && NoNil(t.messages)
  }

  lemma {:induction false} PutWhole(t: Tables, num: int, v: Val)
    requires Whole(t) && Short(v) && EnvelopePut(t, num, v).Ok?
    ensures Whole(EnvelopePut(t, num, v).value)
  {
    if num == 2 || num == 3 {
      ParsedSound(PidSchema, PidPut, v.b, ZERO_PID);
    } else if num != 1 {
      ParsedSound(MessageSchema, MessagePut, v.b, ZERO_MESSAGE);
    }
  }

  /** Whatever bytes are accepted, the envelope has no nil element and its
      unknown bytes, at every level, are unknown fields. */
  lemma {:induction false} AcceptedWhole(s: seq<byte>)
    requires |s| < TWO_63 && UnmarshalEnvelope(s).Ok?
    ensures Sound(UnmarshalEnvelope(s).value) && Whole(UnmarshalEnvelope(s).value.fields)
  {
    ParsedSound(EnvelopeSchema, EnvelopePut, s, ZERO_ENVELOPE);
    forall t: Tables, num: int, v: Val | Whole(t) && Short(v) && EnvelopePut(t, num, v).Ok?
      ensures Whole(EnvelopePut(t, num, v).value)
    {
      PutWhole(t, num, v);
    }
    AcceptedFields(FieldReader(EnvelopeSchema), s);
  }

  lemma {:induction false} AcceptedFields(next: Reader, s: seq<byte>)
    requires Inside(next) && PutKeeps(EnvelopePut, Whole) && |s| < TWO_63
    requires Parse(next, EnvelopePut, 0, s, ZERO_ENVELOPE).Ok?
    ensures Whole(Parse(next, EnvelopePut, 0, s, ZERO_ENVELOPE).value.fields)
  {
    ParseKeeps(next, EnvelopePut, Whole, 0, s, ZERO_ENVELOPE);
  }

  // An accepted envelope comes back, if it is not too large to write.
  lemma {:induction false} AcceptedComesBack(s: seq<byte>, e: Envelope)
    requires |s| < TWO_63 && UnmarshalEnvelope(s) == Ok(e) && SizeEnvelope(e) < TWO_63
    ensures UnmarshalEnvelope(MarshalEnvelope(e)) == Ok(e)
  {
    AcceptedWhole(s);
    EnvelopeRoundTrip(e);
    FilledSame(e);
  }

  /** So an envelope round-trips exactly if its unknown bytes are unknown fields,
      and comes back unchanged exactly if it has no nil element either. */
  lemma {:induction false} RoundTripIff(e: Envelope)
    requires SizeEnvelope(e) < TWO_63
    ensures UnmarshalEnvelope(MarshalEnvelope(e)) == Ok(Filled(e)) <==> Sound(e)
    ensures UnmarshalEnvelope(MarshalEnvelope(e)) == Ok(e) <==> Sound(e) && Whole(e.fields)
  {
    if Sound(e) {
      EnvelopeRoundTrip(e);
      if Whole(e.fields) { FilledSame(e); }
    }
    var r := UnmarshalEnvelope(MarshalEnvelope(e));
    if r == Ok(Filled(e)) || r == Ok(e) {
      EnvelopeSize(e);
      CameBack(e, MarshalEnvelope(e), r.value);
    }
  }

  // Whatever was accepted and is e, or e with its nil elements filled in, shows that e was sound.
  lemma {:induction false} CameBack(e: Envelope, s: seq<byte>, back: Envelope)
    requires |s| < TWO_63 && UnmarshalEnvelope(s) == Ok(back) && (back == e || back == Filled(e))
    ensures Sound(e) && (back == e ==> Whole(e.fields))
  {
    AcceptedWhole(s);
    assert SoundAt(Outer, back) && SoundAt(Inner, back);
    if back == Filled(e) { UnfilledSound(e.fields); }
  }

  lemma {:induction false} UnfilledSound(t: Tables)
    requires SoundTables(FilledTables(t))
    ensures SoundTables(t)
  {
    forall i | 0 <= i < |t.targets| ensures SoundPid(t.targets[i]) {
      assert SoundPid(FilledPids(t.targets)[i]);
    }
    forall i | 0 <= i < |t.senders| ensures SoundPid(t.senders[i]) {
      assert SoundPid(FilledPids(t.senders)[i]);
    }
    forall i | 0 <= i < |t.messages| ensures SoundMessage(t.messages[i]) {
      assert SoundMessage(FilledMessages(t.messages)[i]);
    }
  }

  /** A nil element does not come back as one. */
  lemma {:induction false} NilComesBackEmpty()
    ensures var e := Msg(Tables([], [None], [], []), []);
            UnmarshalEnvelope(MarshalEnvelope(e)) == Ok(Msg(Tables([], [Some(ZERO_PID)], [], []), []))
  {
    var e: Envelope := Msg(Tables([], [None], [], []), []);
    assert e.fields.targets[..0] == [];
    SovCountsDigits(0);
    EnvelopeRoundTrip(e);
    assert FilledPids([None]) == [Some(ZERO_PID)];
  }

  /** Unknown bytes that hold a field the message does use do not come back as they were. */
  lemma {:induction false} KnownAmongUnknown()
    ensures var e := Msg(Tables([], [], [], []), [0xa, 1, 0x41]);
            UnmarshalEnvelope(MarshalEnvelope(e)) != Ok(e)
  {
    var e: Envelope := Msg(Tables([], [], [], []), [0xa, 1, 0x41]);
    EntryReads(EnvelopeSchema, Entry(1, Bytes([0x41])), 0, []);
    assert FieldBytes(1, Bytes([0x41])) + [] == e.unknown;
    assert !SoundAt(Outer, e);
    RoundTripIff(e);
  }
}
