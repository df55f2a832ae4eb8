/**
 The codec as it works in place: MarshalToSizedBufferVT fills a buffer from its
 end towards its start, skip and UnmarshalVT advance an index. Each is proved to
 compute what the functions of Wire and Codec say, and to touch nothing else.
 */
module CodecBuffers {
  import opened Options
  import opened Varints
  import opened Wire
  import opened WireTheorems
  import opened Codec
  import opened CodecTheorems

  // ---- writing backwards ----

  // From was to now, the bytes were written to [at, hi) and nothing else changed.
  ghost predicate Wrote(was: seq<byte>, now: seq<byte>, at: nat, hi: nat, bytes: seq<byte>) {
    && at + |bytes| == hi <= |was| == |now|
    && now[..at] == was[..at] && now[at..hi] == bytes && now[hi..] == was[hi..]
  }

  lemma {:induction false} WroteThen(
    a: seq<byte>, b: seq<byte>, c: seq<byte>, lo: nat, mid: nat, hi: nat, x: seq<byte>, y: seq<byte>)
    requires Wrote(a, b, mid, hi, y) && Wrote(b, c, lo, mid, x)
    ensures Wrote(a, c, lo, hi, x + y)
  {
    assert c[..lo] == b[..mid][..lo] == a[..lo];
    assert c[lo..hi] == c[lo..mid] + c[mid..][..hi - mid];
    assert b[mid..][..hi - mid] == y;
    assert c[hi..] == c[mid..][hi - mid..] && b[hi..] == b[mid..][hi - mid..];
  }

  // i -= len(src); copy(dAtA[i:], src)
  method CopyBefore(dAtA: array<byte>, i: nat, src: seq<byte>) returns (at: nat)
    requires |src| <= i <= dAtA.Length
    modifies dAtA
    ensures at == i - |src| && Wrote(old(dAtA[..]), dAtA[..], at, i, src)
  {
    at := i - |src|;
    for k := 0 to |src|
      invariant dAtA[at..at + k] == src[..k]
      invariant dAtA[..at] == old(dAtA[..at]) && dAtA[i..] == old(dAtA[i..])
    {
      dAtA[at + k] := src[k];
      assert dAtA[at..at + k + 1] == dAtA[at..at + k] + [src[k]];
    }
  }

  // i = encodeVarint(dAtA, i, v); i--; dAtA[i] = tag
  method WriteHead(dAtA: array<byte>, i: nat, tag: byte, v: uint64) returns (at: nat)
    requires 1 + Sov(v) <= i <= dAtA.Length
    modifies dAtA
    ensures at == i - 1 - Sov(v) && Wrote(old(dAtA[..]), dAtA[..], at, i, [tag] + Digits(v))
  {
    SovCountsDigits(v);
    at := EncodeVarint(dAtA, i, v);
    at := at - 1;
    dAtA[at] := tag;
    assert dAtA[at + 1..i] == Digits(v);
  }

  // A bytes or string field, unless it is empty.
  method WriteBytes(dAtA: array<byte>, i: nat, num: nat, b: seq<byte>) returns (at: nat)
    requires 1 <= num <= 15 && BytesSize(|b|) <= i <= dAtA.Length < TWO_63
    modifies dAtA
    ensures at == i - BytesSize(|b|)
    ensures Wrote(old(dAtA[..]), dAtA[..], at, i, Optional(num, Bytes(b)))
  {
    at := i;
    if |b| > 0 {
      ghost var was := dAtA[..];
      at := CopyBefore(dAtA, at, b);
      ghost var mid, between := at, dAtA[..];
      at := WriteHead(dAtA, at, 8 * num + 2, |b|);
      WroteThen(was, between, dAtA[..], at, mid, i, [8 * num + 2] + Digits(|b|), b);
    }
  }

  // An int32 field, unless it is zero.
  method WriteInt(dAtA: array<byte>, i: nat, num: nat, n: int32) returns (at: nat)
    requires 1 <= num <= 15 && IntSize(n) <= i <= dAtA.Length
    modifies dAtA
    ensures at == i - IntSize(n)
    ensures Wrote(old(dAtA[..]), dAtA[..], at, i, Optional(num, Int(n)))
  {
    at := i;
    if n != 0 {
      at := WriteHead(dAtA, at, 8 * num, Extend(n));
    }
  }

  // A field that is left out when it holds its zero value.
  function Optional(num: int, v: Val): seq<byte>
    requires 1 <= num <= 15
  {
    if v == Bytes([]) || v == Int(0) then [] else FieldBytes(num, v)
  }

  lemma {:induction false} OptionalBytes(schema: Schema, num: int, b: seq<byte>)
    requires Fits(schema, Entry(num, Bytes(b)))
    ensures AllFit(schema, BytesEntry(num, b)) && Encode(schema, BytesEntry(num, b)) == Optional(num, Bytes(b))
  {
    EncodeOne(schema, Entry(num, Bytes(b)));
  }

  lemma {:induction false} OptionalInt(schema: Schema, num: int, n: int32)
    requires Fits(schema, Entry(num, Int(n)))
    ensures AllFit(schema, IntEntry(num, n)) && Encode(schema, IntEntry(num, n)) == Optional(num, Int(n))
  {
    EncodeOne(schema, Entry(num, Int(n)));
  }

  lemma {:induction false} PidParts(m: PID)
    ensures Optional(1, Bytes(m.fields.address)) + (Optional(2, Bytes(m.fields.id)) + m.unknown) == MarshalPid(Some(m))
  {
    OptionalBytes(PidSchema, 1, m.fields.address);
    OptionalBytes(PidSchema, 2, m.fields.id);
    EncodeAppend(PidSchema, BytesEntry(1, m.fields.address), BytesEntry(2, m.fields.id));
    AppendThrice(Optional(1, Bytes(m.fields.address)), Optional(2, Bytes(m.fields.id)), m.unknown);
  }

  /** PID.MarshalToSizedBufferVT on dAtA[:hi]: exactly SizeVT bytes, just before hi. */
  method MarshalPidTo(dAtA: array<byte>, hi: nat, m: Option<PID>) returns (n: nat)
    requires SizePid(m) <= hi <= dAtA.Length < TWO_63
    modifies dAtA
    ensures n == SizePid(m) && Wrote(old(dAtA[..]), dAtA[..], hi - n, hi, MarshalPid(m))
  {
    if m.None? {
      return 0;
    }
    var p, u := m.value.fields, m.value.unknown;
    ghost var s0 := dAtA[..];
    var i := CopyBefore(dAtA, hi, u);
    ghost var i1, s1 := i, dAtA[..];
    i := WriteBytes(dAtA, i, 2, p.id);
    ghost var i2, s2 := i, dAtA[..];
    WroteThen(s0, s1, s2, i2, i1, hi, Optional(2, Bytes(p.id)), u);
    i := WriteBytes(dAtA, i, 1, p.address);
    WroteThen(s0, s2, dAtA[..], i, i2, hi, Optional(1, Bytes(p.address)), Optional(2, Bytes(p.id)) + u);
    PidParts(m.value);
    n := hi - i;
  }

  lemma {:induction false} MessageParts(m: Message)
    ensures var b := m.fields;
            Optional(1, Bytes(b.data)) + (Optional(2, Int(b.target)) + (Optional(3, Int(b.sender))
            + (Optional(4, Int(b.typeName)) + m.unknown))) == MarshalMessage(Some(m))
  {
    var b := m.fields;
    OptionalBytes(MessageSchema, 1, b.data);
    OptionalInt(MessageSchema, 2, b.target);
    OptionalInt(MessageSchema, 3, b.sender);
    OptionalInt(MessageSchema, 4, b.typeName);
    EncodeFour(MessageSchema, BytesEntry(1, b.data), IntEntry(2, b.target), IntEntry(3, b.sender),
               IntEntry(4, b.typeName));
    RegroupFive(Optional(1, Bytes(b.data)), Optional(2, Int(b.target)), Optional(3, Int(b.sender)),
                Optional(4, Int(b.typeName)), m.unknown);
  }

  lemma {:induction false} RegroupFive(a: seq<byte>, b: seq<byte>, c: seq<byte>, d: seq<byte>, e: seq<byte>)
    ensures a + (b + (c + (d + e))) == (a + b + c + d) + e
  {
    AppendThrice(a + b + c, d, e);
    AppendThrice(a + b, c, d + e);
    AppendThrice(a, b, c + (d + e));
  }

  /** Message.MarshalToSizedBufferVT on dAtA[:hi]. */
  method MarshalMessageTo(dAtA: array<byte>, hi: nat, m: Option<Message>) returns (n: nat)
    requires SizeMessage(m) <= hi <= dAtA.Length < TWO_63
    modifies dAtA
    ensures n == SizeMessage(m) && Wrote(old(dAtA[..]), dAtA[..], hi - n, hi, MarshalMessage(m))
  {
    if m.None? {
      return 0;
    }
    var b := m.value.fields;
    ghost var s0 := dAtA[..];
    var i := CopyBefore(dAtA, hi, m.value.unknown);
    ghost var i1, s1, done := i, dAtA[..], m.value.unknown;
    i := WriteInt(dAtA, i, 4, b.typeName);
    WroteThen(s0, s1, dAtA[..], i, i1, hi, Optional(4, Int(b.typeName)), done);
    i1, s1, done := i, dAtA[..], Optional(4, Int(b.typeName)) + done;
    i := WriteInt(dAtA, i, 3, b.sender);
    WroteThen(s0, s1, dAtA[..], i, i1, hi, Optional(3, Int(b.sender)), done);
    i1, s1, done := i, dAtA[..], Optional(3, Int(b.sender)) + done;
    i := WriteInt(dAtA, i, 2, b.target);
    WroteThen(s0, s1, dAtA[..], i, i1, hi, Optional(2, Int(b.target)), done);
    i1, s1, done := i, dAtA[..], Optional(2, Int(b.target)) + done;
    i := WriteBytes(dAtA, i, 1, b.data);
    WroteThen(s0, s1, dAtA[..], i, i1, hi, Optional(1, Bytes(b.data)), done);
    MessageParts(m.value);
    n := hi - i;
  }

  // ---- repeated fields, last element first ----

  // What the elements up to k take, and what is behind them.
  lemma {:induction false} ListedStep(num: int, bs: seq<seq<byte>>, k: nat, tail: seq<byte>)
    requires 1 <= num <= 4 && k < |bs|
    ensures Encode(EnvelopeSchema, Listed(num, bs[..k + 1])) + tail
            == Encode(EnvelopeSchema, Listed(num, bs[..k])) + (FieldBytes(num, Bytes(bs[k])) + tail)
    ensures SizeNames(bs[..k + 1]) == SizeNames(bs[..k]) + DelimitedSize(|bs[k]|)
  {
    var e := Entry(num, Bytes(bs[k]));
    assert bs[..k + 1] == bs[..k] + [bs[k]];
    ListedSnoc(num, bs[..k], bs[k]);
    SizeNamesSnoc(bs[..k], bs[k]);
    EncodeOne(EnvelopeSchema, e);
    EncodeAppend(EnvelopeSchema, Listed(num, bs[..k]), [e]);
    AppendThrice(Encode(EnvelopeSchema, Listed(num, bs[..k])), FieldBytes(num, Bytes(bs[k])), tail);
  }

  // A repeated field being written: the elements from k on stand in now[i..hi].
  datatype Filling = Filling(was: seq<byte>, now: seq<byte>, i: nat, hi: nat, num: nat, bs: seq<seq<byte>>, k: nat)

  ghost predicate FilledWith(f: Filling, tail: seq<byte>) {
    && 1 <= f.num <= 4 && f.k <= |f.bs|
    && Wrote(f.was, f.now, f.i, f.hi, tail)
    && Encode(EnvelopeSchema, Listed(f.num, f.bs[..f.k])) + tail == Encode(EnvelopeSchema, Listed(f.num, f.bs))
    && f.i + SizeNames(f.bs) == f.hi + SizeNames(f.bs[..f.k])
  }

  // Under a quantifier, so that the loops pass it on without looking inside; Opened does.
  ghost predicate Sealed(seal: Seal, f: Filling) { exists tail :: FilledWith(f, tail) }

  ghost predicate OnTrack(f: Filling) { forall seal: Seal :: Sealed(seal, f) }

  lemma {:induction false} Opened(f: Filling) returns (tail: seq<byte>)
    requires OnTrack(f)
    ensures FilledWith(f, tail)
  {
    assert Sealed(Seal, f);
    tail :| FilledWith(f, tail);
  }

  lemma {:induction false} FillingStarts(was: seq<byte>, hi: nat, num: nat, bs: seq<seq<byte>>)
    requires 1 <= num <= 4 && hi <= |was|
    ensures OnTrack(Filling(was, was, hi, hi, num, bs, |bs|))
  {
    assert bs[..|bs|] == bs;
    assert Encode(EnvelopeSchema, Listed(num, bs)) + [] == Encode(EnvelopeSchema, Listed(num, bs));
    assert FilledWith(Filling(was, was, hi, hi, num, bs, |bs|), []);
  }

  lemma {:induction false} FillingRoom(f: Filling)
    requires OnTrack(f) && f.k > 0 && SizeNames(f.bs) <= f.hi
    ensures 1 <= f.num <= 4 && f.k <= |f.bs| && DelimitedSize(|f.bs[f.k - 1]|) <= f.i <= |f.now|
  {
    var tail := Opened(f);
    ListedStep(f.num, f.bs, f.k - 1, tail);
  }

  lemma {:induction false} FillingEnds(f: Filling)
    requires OnTrack(f) && f.k == 0
    ensures 1 <= f.num <= 4 && f.i + SizeNames(f.bs) == f.hi
    ensures Wrote(f.was, f.now, f.i, f.hi, Encode(EnvelopeSchema, Listed(f.num, f.bs)))
  {
    var tail := Opened(f);
    assert f.bs[..0] == [] && [] + tail == tail;
  }

  // An element is written, then its length, then its tag.
  lemma {:induction false} ElementWritten(
    s0: seq<byte>, s1: seq<byte>, s2: seq<byte>, at: nat, mid: nat, i: nat, num: nat, b: seq<byte>)
    requires 1 <= num <= 15 && Wrote(s0, s1, mid, i, b) && Wrote(s1, s2, at, mid, [8 * num + 2] + Digits(|b|))
    ensures Wrote(s0, s2, at, i, FieldBytes(num, Bytes(b)))
  {
    WroteThen(s0, s1, s2, at, mid, i, [8 * num + 2] + Digits(|b|), b);
  }

  lemma {:induction false} FillingGoesOn(f: Filling, now: seq<byte>, at: nat)
    requires OnTrack(f) && 0 < f.k <= |f.bs| && 1 <= f.num <= 4
    requires Wrote(f.now, now, at, f.i, FieldBytes(f.num, Bytes(f.bs[f.k - 1])))
    requires at + DelimitedSize(|f.bs[f.k - 1]|) == f.i
    ensures OnTrack(Filling(f.was, now, at, f.hi, f.num, f.bs, f.k - 1))
  {
    var tail := Opened(f);
    var e := FieldBytes(f.num, Bytes(f.bs[f.k - 1]));
    ListedStep(f.num, f.bs, f.k - 1, tail);
    WroteThen(f.was, f.now, now, at, f.i, f.hi, e, tail);
    assert FilledWith(Filling(f.was, now, at, f.hi, f.num, f.bs, f.k - 1), e + tail);
  }

  method WriteElement(dAtA: array<byte>, i: nat, num: nat, size: nat, ghost was: seq<byte>, ghost b: seq<byte>)
    returns (at: nat)
    requires 1 <= num <= 15 && |b| == size && DelimitedSize(size) <= i + size <= dAtA.Length < TWO_63
    requires Wrote(was, dAtA[..], i, i + size, b)
    modifies dAtA
    ensures at + DelimitedSize(size) == i + size
    ensures Wrote(was, dAtA[..], at, i + size, FieldBytes(num, Bytes(b)))
  {
    ghost var value := dAtA[..];
    at := WriteHead(dAtA, i, 8 * num + 2, size);
    ElementWritten(was, value, dAtA[..], at, i, i + size, num, b);
  }

  method MarshalNamesTo(dAtA: array<byte>, hi: nat, names: seq<seq<byte>>) returns (i: nat)
    requires SizeNames(names) <= hi <= dAtA.Length < TWO_63
    modifies dAtA
    ensures i == hi - SizeNames(names)
    ensures Wrote(old(dAtA[..]), dAtA[..], i, hi, Encode(EnvelopeSchema, Listed(1, names)))
  {
    i := hi;
    var k: nat := |names|;
    ghost var was := dAtA[..];
    FillingStarts(was, hi, 1, names);
    while k > 0
      invariant k <= |names|
      invariant OnTrack(Filling(was, dAtA[..], i, hi, 1, names, k))
    {
      ghost var f := Filling(was, dAtA[..], i, hi, 1, names, k);
      FillingRoom(f);
      k := k - 1;
      i := CopyBefore(dAtA, i, names[k]);
      i := WriteElement(dAtA, i, 1, |names[k]|, f.now, f.bs[k]);
      FillingGoesOn(f, dAtA[..], i);
    }
    FillingEnds(Filling(was, dAtA[..], i, hi, 1, names, k));
  }

  // The k-th element's bytes; PidsWritten has it for every k, to be asked for by name.
  ghost predicate PidWritten(bs: seq<seq<byte>>, pids: seq<Option<PID>>, k: nat) {
    k < |bs| && k < |pids| && bs[k] == MarshalPid(pids[k])
  }

  ghost predicate PidsWritten(bs: seq<seq<byte>>, pids: seq<Option<PID>>) {
    |bs| == |pids| && forall k: nat {:trigger PidWritten(bs, pids, k)} :: k < |pids| ==> PidWritten(bs, pids, k)
  }

  method WritePid(dAtA: array<byte>, i: nat, num: nat, pids: seq<Option<PID>>, k: nat, ghost bs: seq<seq<byte>>)
    returns (at: nat)
    requires 1 <= num <= 15 && PidsWritten(bs, pids) && k < |pids|
             && DelimitedSize(|bs[k]|) <= i <= dAtA.Length < TWO_63
    modifies dAtA
    ensures at + DelimitedSize(|bs[k]|) == i
    ensures Wrote(old(dAtA[..]), dAtA[..], at, i, FieldBytes(num, Bytes(bs[k])))
  {
    assert PidWritten(bs, pids, k);
    PidSize(pids[k]);
    ghost var was := dAtA[..];
    var size := MarshalPidTo(dAtA, i, pids[k]);
    at := WriteElement(dAtA, i - size, num, size, was, bs[k]);
  }

  lemma {:induction false} PidBytesWritten(pids: seq<Option<PID>>)
    ensures PidsWritten(PidBytes(pids), pids)
    decreases |pids|
  {
    if pids != [] {
      PidBytesWritten(pids[..|pids| - 1]);
      forall k: nat | k < |pids| - 1 ensures PidWritten(PidBytes(pids), pids, k) {
        assert PidWritten(PidBytes(pids[..|pids| - 1]), pids[..|pids| - 1], k);
      }
    }
  }

  method MarshalPidsLoop(dAtA: array<byte>, hi: nat, num: nat, pids: seq<Option<PID>>, ghost bs: seq<seq<byte>>)
    returns (i: nat)
    requires (num == 2 || num == 3) && PidsWritten(bs, pids) && SizeNames(bs) <= hi <= dAtA.Length < TWO_63
    modifies dAtA
    ensures i == hi - SizeNames(bs)
    ensures Wrote(old(dAtA[..]), dAtA[..], i, hi, Encode(EnvelopeSchema, Listed(num, bs)))
  {
    i := hi;
    var k: nat := |pids|;
    ghost var was := dAtA[..];
    FillingStarts(was, hi, num, bs);
    while k > 0
      invariant k <= |pids|
      invariant OnTrack(Filling(was, dAtA[..], i, hi, num, bs, k))
    {
      ghost var f := Filling(was, dAtA[..], i, hi, num, bs, k);
      FillingRoom(f);
      k := k - 1;
      i := WritePid(dAtA, i, num, pids, k, bs);
      FillingGoesOn(f, dAtA[..], i);
    }
    FillingEnds(Filling(was, dAtA[..], i, hi, num, bs, k));
  }

  method MarshalPidsTo(dAtA: array<byte>, hi: nat, num: nat, pids: seq<Option<PID>>) returns (i: nat)
    requires (num == 2 || num == 3) && SizePids(pids) <= hi <= dAtA.Length < TWO_63
    modifies dAtA
    ensures i == hi - SizePids(pids)
    ensures Wrote(old(dAtA[..]), dAtA[..], i, hi, Encode(EnvelopeSchema, Listed(num, PidBytes(pids))))
  {
    PidsSize(pids);
    PidBytesWritten(pids);
    i := MarshalPidsLoop(dAtA, hi, num, pids, PidBytes(pids));
  }

  // The k-th element's bytes; MessagesWritten has it for every k, to be asked for by name.
  ghost predicate MessageWritten(bs: seq<seq<byte>>, ms: seq<Option<Message>>, k: nat) {
    k < |bs| && k < |ms| && bs[k] == MarshalMessage(ms[k])
  }

  ghost predicate MessagesWritten(bs: seq<seq<byte>>, ms: seq<Option<Message>>) {
    |bs| == |ms| && forall k: nat {:trigger MessageWritten(bs, ms, k)} :: k < |ms| ==> MessageWritten(bs, ms, k)
  }

  method WriteMessage(dAtA: array<byte>, i: nat, ms: seq<Option<Message>>, k: nat, ghost bs: seq<seq<byte>>)
    returns (at: nat)
    requires MessagesWritten(bs, ms) && k < |ms| && DelimitedSize(|bs[k]|) <= i <= dAtA.Length < TWO_63
    modifies dAtA
    ensures at + DelimitedSize(|bs[k]|) == i
    ensures Wrote(old(dAtA[..]), dAtA[..], at, i, FieldBytes(4, Bytes(bs[k])))
  {
    assert MessageWritten(bs, ms, k);
    MessageSize(ms[k]);
    ghost var was := dAtA[..];
    var size := MarshalMessageTo(dAtA, i, ms[k]);
    at := WriteElement(dAtA, i - size, 4, size, was, bs[k]);
  }

  lemma {:induction false} MessageBytesWritten(ms: seq<Option<Message>>)
    ensures MessagesWritten(MessageBytes(ms), ms)
    decreases |ms|
  {
    if ms != [] {
      MessageBytesWritten(ms[..|ms| - 1]);
      forall k: nat | k < |ms| - 1 ensures MessageWritten(MessageBytes(ms), ms, k) {
        assert MessageWritten(MessageBytes(ms[..|ms| - 1]), ms[..|ms| - 1], k);
      }
    }
  }

  method MarshalMessagesLoop(dAtA: array<byte>, hi: nat, ms: seq<Option<Message>>, ghost bs: seq<seq<byte>>)
    returns (i: nat)
    requires MessagesWritten(bs, ms) && SizeNames(bs) <= hi <= dAtA.Length < TWO_63
    modifies dAtA
    ensures i == hi - SizeNames(bs)
    ensures Wrote(old(dAtA[..]), dAtA[..], i, hi, Encode(EnvelopeSchema, Listed(4, bs)))
  {
    i := hi;
    var k: nat := |ms|;
    ghost var was := dAtA[..];
    FillingStarts(was, hi, 4, bs);
    while k > 0
      invariant k <= |ms|
      invariant OnTrack(Filling(was, dAtA[..], i, hi, 4, bs, k))
    {
      ghost var f := Filling(was, dAtA[..], i, hi, 4, bs, k);
      FillingRoom(f);
      k := k - 1;
      i := WriteMessage(dAtA, i, ms, k, bs);
      FillingGoesOn(f, dAtA[..], i);
    }
    FillingEnds(Filling(was, dAtA[..], i, hi, 4, bs, k));
  }

  method MarshalMessagesTo(dAtA: array<byte>, hi: nat, ms: seq<Option<Message>>) returns (i: nat)
    requires SizeMessages(ms) <= hi <= dAtA.Length < TWO_63
    modifies dAtA
    ensures i == hi - SizeMessages(ms)
    ensures Wrote(old(dAtA[..]), dAtA[..], i, hi, Encode(EnvelopeSchema, Listed(4, MessageBytes(ms))))
  {
    MessagesSize(ms);
    MessageBytesWritten(ms);
    i := MarshalMessagesLoop(dAtA, hi, ms, MessageBytes(ms));
  }

  lemma {:induction false} EnvelopeParts(e: Envelope)
    ensures var t := e.fields;
            Encode(EnvelopeSchema, Listed(1, t.typeNames)) + (Encode(EnvelopeSchema, Listed(2, PidBytes(t.targets)))
            + (Encode(EnvelopeSchema, Listed(3, PidBytes(t.senders)))
            + (Encode(EnvelopeSchema, Listed(4, MessageBytes(t.messages))) + e.unknown))) == MarshalEnvelope(e)
  {
    var t := e.fields;
    var a, b := Listed(1, t.typeNames), Listed(2, PidBytes(t.targets));
    var c, d := Listed(3, PidBytes(t.senders)), Listed(4, MessageBytes(t.messages));
    EncodeFour(EnvelopeSchema, a, b, c, d);
    RegroupFive(Encode(EnvelopeSchema, a), Encode(EnvelopeSchema, b), Encode(EnvelopeSchema, c),
                Encode(EnvelopeSchema, d), e.unknown);
  }

  /** Envelope.MarshalToSizedBufferVT: exactly SizeVT bytes at the end of the buffer. */
  method MarshalEnvelopeTo(dAtA: array<byte>, e: Envelope) returns (n: nat)
    requires SizeEnvelope(e) <= dAtA.Length < TWO_63
    modifies dAtA
    ensures n == SizeEnvelope(e)
    ensures Wrote(old(dAtA[..]), dAtA[..], dAtA.Length - n, dAtA.Length, MarshalEnvelope(e))
  {
    var t, hi := e.fields, dAtA.Length;
    ghost var s0 := dAtA[..];
    var i := CopyBefore(dAtA, hi, e.unknown);
    ghost var i1, s1, done := i, dAtA[..], e.unknown;
    i := MarshalMessagesTo(dAtA, i, t.messages);
    ghost var part := Encode(EnvelopeSchema, Listed(4, MessageBytes(t.messages)));
    WroteThen(s0, s1, dAtA[..], i, i1, hi, part, done);
    i1, s1, done := i, dAtA[..], part + done;
    i := MarshalPidsTo(dAtA, i, 3, t.senders);
    part := Encode(EnvelopeSchema, Listed(3, PidBytes(t.senders)));
    WroteThen(s0, s1, dAtA[..], i, i1, hi, part, done);
    i1, s1, done := i, dAtA[..], part + done;
    i := MarshalPidsTo(dAtA, i, 2, t.targets);
    part := Encode(EnvelopeSchema, Listed(2, PidBytes(t.targets)));
    WroteThen(s0, s1, dAtA[..], i, i1, hi, part, done);
    i1, s1, done := i, dAtA[..], part + done;
    i := MarshalNamesTo(dAtA, i, t.typeNames);
    part := Encode(EnvelopeSchema, Listed(1, t.typeNames));
    WroteThen(s0, s1, dAtA[..], i, i1, hi, part, done);
    EnvelopeParts(e);
    n := dAtA.Length - i;
  }

  /** Envelope.MarshalVT: a buffer of SizeVT bytes is filled completely. */
  method MarshalEnvelopeVT(e: Envelope) returns (bytes: seq<byte>)
    requires SizeEnvelope(e) < TWO_63
    ensures bytes == MarshalEnvelope(e) && |bytes| == SizeEnvelope(e)
  {
    var dAtA := new byte[SizeEnvelope(e)](_ => 0);
    var n := MarshalEnvelopeTo(dAtA, e);
    assert dAtA[0..dAtA.Length] == dAtA[..];
    bytes := dAtA[..n];
  }
}
