/** Writing an accepted envelope again takes at most twice the bytes it came in. */
module CodecBounds {
  import opened Options
  import opened Varints
  import opened Wire
  import opened WireTheorems
  import opened Codec
  import opened CodecTheorems

  // ---- digits ----

  lemma {:induction false} DigitsGrow(x: nat, y: nat)
    requires x <= y
    ensures |Digits(x)| <= |Digits(y)|
    decreases x
  {
    if x >= 128 { DigitsGrow(x / 128, y / 128); }
  }

  lemma {:induction false} DigitsDouble(x: nat)
    ensures |Digits(2 * x + 1)| <= |Digits(x)| + 1
    decreases x
  {
    if x >= 128 {
      DigitsDouble(x / 128);
      DigitsGrow((2 * x + 1) / 128, 2 * (x / 128) + 1);
    } else {
      DigitsGrow(2 * x + 1, 255);
      assert |Digits(255)| == 2;
    }
  }

  // No varint is shorter than the digits of its number.
  lemma {:induction false} DigitsLeast(s: seq<byte>)
    requires Number(s).Ok?
    ensures |Digits(Number(s).value.value)| <= Number(s).value.used
    decreases |s|
  {
    if s[0] >= 128 {
      DigitsLeast(s[1..]);
      var v := Number(s[1..]).value.value;
      assert (s[0] - 128 + 128 * v) / 128 == v;
    }
  }

  lemma {:induction false} TruncLess(x: nat, m: nat)
    requires m > 0
    ensures Trunc(x, m) <= x
    decreases x
  {
    if x >= m { TruncLess(x - m, m); }
  }

  lemma {:induction false} VarintLeast(w: Width, s: seq<byte>)
    requires Varint(w, s).Ok?
    ensures |Digits(Varint(w, s).value.value)| <= Varint(w, s).value.used
  {
    DigitsLeast(s);
    TruncLess(Number(s).value.value, Modulus(w));
    DigitsGrow(Varint(w, s).value.value, Number(s).value.value);
  }

  // ---- fields ----

  // What a field takes at least on the wire; a negative number takes five digits after its tag.
  function Cost(v: Val): nat {
    if v.Bytes? then DelimitedSize(|v.b|) else if v.n < 0 then 6 else 1 + Sov(v.n)
  }

  lemma {:induction false} NegativeLong(x: nat)
    requires x >= 0x8000_0000
    ensures |Digits(x)| >= 5
  {
    DigitsGrow(0x8000_0000, x);
    assert |Digits(0x8000_0000 / 128 / 128 / 128)| == 2;
    assert |Digits(0x8000_0000 / 128)| == 4;
  }

  lemma {:induction false} FieldCosts(schema: Schema, base: nat, s: seq<byte>)
    requires NextField(schema, base, s).Ok? && NextField(schema, base, s).value.Known?
    ensures Cost(NextField(schema, base, s).value.val) <= NextField(schema, base, s).value.used
  {
    var u := Varint(Wide, s).value.used;
    var f := NextField(schema, base, s).value;
    if f.val.Bytes? {
      VarintLeast(Wide, s[u..]);
      SovCountsDigits(|f.val.b|);
    } else {
      VarintLeast(Narrow, s[u..]);
      var x := Varint(Narrow, s[u..]).value.value;
      if x >= 0x8000_0000 { NegativeLong(x); } else { SovCountsDigits(x); }
    }
  }

  ghost predicate Costs(next: Reader) {
    forall base: nat, s: seq<byte> ::
      next(base, s).Ok? && next(base, s).value.Known? ==> Cost(next(base, s).value.val) <= next(base, s).value.used
  }

  lemma {:induction false} FieldReaderCosts(schema: Schema)
    ensures Costs(FieldReader(schema))
  {
    var next := FieldReader(schema);
    forall base: nat, s: seq<byte> | next(base, s).Ok? && next(base, s).value.Known?
      ensures Cost(next(base, s).value.val) <= next(base, s).value.used
    {
      FieldCosts(schema, base, s);
    }
  }

  // ---- messages ----

  // Storing a field adds at most twice its cost to the weight.
  ghost predicate PutWeighs<A(!new)>(put: Put<A>, weight: A -> nat) {
    forall a: A, num: int, v: Val :: put(a, num, v).Ok? ==> weight(put(a, num, v).value) <= weight(a) + 2 * Cost(v)
  }

  lemma {:induction false} ParseWeighs<A(!new)>(
    next: Reader, put: Put<A>, weight: A -> nat, base: nat, s: seq<byte>, m: Msg<A>)
    requires Inside(next) && Costs(next) && PutWeighs(put, weight) && Parse(next, put, base, s, m).Ok?
    ensures var r := Parse(next, put, base, s, m).value;
            weight(r.fields) + |r.unknown| <= weight(m.fields) + |m.unknown| + 2 * |s|
    decreases |s|
  {
    if s != [] {
      ParseRound(next, put, base, s, m);
      var f := next(base, s).value;
      ParseWeighs(next, put, weight, base + f.used, s[f.used..], Stored(put, s, m, f).value);
    }
  }

  function PidWeight(p: Pid): nat { BytesSize(|p.address|) + BytesSize(|p.id|) }

  function MessageWeight(m: Body): nat {
    BytesSize(|m.data|) + IntSize(m.target) + IntSize(m.sender) + IntSize(m.typeName)
  }

  function TablesWeight(t: Tables): nat {
    SizeNames(t.typeNames) + SizePids(t.targets) + SizePids(t.senders) + SizeMessages(t.messages)
  }

  lemma {:induction false} IntCosts(n: int32)
    ensures IntSize(n) <= 2 * Cost(Int(n))
  {
    if n < 0 {
      SovCountsDigits(Extend(n));
      DigitsRead(Extend(n), []);
    }
  }

  lemma {:induction false} PidWeighs()
    ensures PutWeighs(PidPut, PidWeight)
  {
  }

  lemma {:induction false} MessagePutWeighs(m: Body, num: int, v: Val)
    requires MessagePut(m, num, v).Ok?
    ensures MessageWeight(MessagePut(m, num, v).value) <= MessageWeight(m) + 2 * Cost(v)
  {
    if v.Int? {
      IntCosts(v.n);
      var m1 := MessagePut(m, num, v).value;
      assert MessageWeight(m1) <= MessageWeight(m) + IntSize(v.n);
    }
  }

  lemma {:induction false} MessageWeighs()
    ensures PutWeighs(MessagePut, MessageWeight)
  {
    forall m: Body, num: int, v: Val | MessagePut(m, num, v).Ok?
      ensures MessageWeight(MessagePut(m, num, v).value) <= MessageWeight(m) + 2 * Cost(v)
    {
      MessagePutWeighs(m, num, v);
    }
  }

  lemma {:induction false} PidDoubles(s: seq<byte>)
    requires UnmarshalPid(s).Ok?
    ensures SizePid(Some(UnmarshalPid(s).value)) <= 2 * |s|
  {
    FieldReaderCosts(PidSchema);
    PidWeighs();
    ParseWeighs(FieldReader(PidSchema), PidPut, PidWeight, 0, s, ZERO_PID);
  }

  lemma {:induction false} MessageDoubles(s: seq<byte>)
    requires UnmarshalMessage(s).Ok?
    ensures SizeMessage(Some(UnmarshalMessage(s).value)) <= 2 * |s|
  {
    FieldReaderCosts(MessageSchema);
    MessageWeighs();
    ParseWeighs(FieldReader(MessageSchema), MessagePut, MessageWeight, 0, s, ZERO_MESSAGE);
  }

  lemma {:induction false} DelimitedDoubles(n: nat, l: nat)
    requires n <= 2 * l
    ensures DelimitedSize(n) <= 2 * DelimitedSize(l)
  {
    SovCountsDigits(n);
    SovCountsDigits(l);
    DigitsGrow(n, 2 * l + 1);
    DigitsDouble(l);
  }

  lemma {:induction false} SizePidsSnoc(pids: seq<Option<PID>>, p: Option<PID>)
    ensures SizePids(pids + [p]) == SizePids(pids) + DelimitedSize(SizePid(p))
  {
    assert (pids + [p])[..|pids|] == pids;
  }

  lemma {:induction false} SizeMessagesSnoc(ms: seq<Option<Message>>, m: Option<Message>)
    ensures SizeMessages(ms + [m]) == SizeMessages(ms) + DelimitedSize(SizeMessage(m))
  {
    assert (ms + [m])[..|ms|] == ms;
  }

  lemma {:induction false} TablesPutWeighs(t: Tables, num: int, v: Val)
    requires EnvelopePut(t, num, v).Ok?
    ensures TablesWeight(EnvelopePut(t, num, v).value) <= TablesWeight(t) + 2 * Cost(v)
  {
    if num == 1 {
      SizeNamesSnoc(t.typeNames, v.b);
    } else if num == 2 || num == 3 {
      var p := Some(UnmarshalPid(v.b).value);
      PidDoubles(v.b);
      DelimitedDoubles(SizePid(p), |v.b|);
      SizePidsSnoc(if num == 2 then t.targets else t.senders, p);
    } else {
      var m := Some(UnmarshalMessage(v.b).value);
      MessageDoubles(v.b);
      DelimitedDoubles(SizeMessage(m), |v.b|);
      SizeMessagesSnoc(t.messages, m);
    }
  }

  lemma {:induction false} TablesWeighs()
    ensures PutWeighs(EnvelopePut, TablesWeight)
  {
    forall t: Tables, num: int, v: Val | EnvelopePut(t, num, v).Ok?
      ensures TablesWeight(EnvelopePut(t, num, v).value) <= TablesWeight(t) + 2 * Cost(v)
    {
      TablesPutWeighs(t, num, v);
    }
  }

  /** An accepted envelope takes at most twice as many bytes to write as it had. */
  lemma {:induction false} EnvelopeDoubles(s: seq<byte>)
    requires UnmarshalEnvelope(s).Ok?
    ensures SizeEnvelope(UnmarshalEnvelope(s).value) <= 2 * |s|
  {
    FieldReaderCosts(EnvelopeSchema);
    TablesWeighs();
    ParseWeighs(FieldReader(EnvelopeSchema), EnvelopePut, TablesWeight, 0, s, ZERO_ENVELOPE);
  }

  /** Canonical form: whatever bytes are accepted as an envelope, writing that
      envelope and parsing it again gives the same one, unknown bytes included. */
  lemma {:induction false} Canonical(s: seq<byte>, e: Envelope)
    requires 2 * |s| < TWO_63 && UnmarshalEnvelope(s) == Ok(e)
    ensures UnmarshalEnvelope(MarshalEnvelope(e)) == Ok(e)
  {
    EnvelopeDoubles(s);
    AcceptedComesBack(s, e);
  }
}
