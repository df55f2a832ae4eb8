/** Parsing what was written, and writing what was parsed. */
module WireTheorems {
  import opened Varints
  import opened Wire

  // ---- a field depends only on its own bytes ----

  // s and t agree on their first n bytes.
  predicate Agree(s: seq<byte>, t: seq<byte>, n: nat) { n <= |s| && n <= |t| && s[..n] == t[..n] }

  lemma {:induction false} AgreeTail(s: seq<byte>, t: seq<byte>, n: nat, u: nat)
    requires Agree(s, t, n) && u <= n
    ensures Agree(s[u..], t[u..], n - u) && Agree(s, t, u)
  {
    assert s[u..][..n - u] == s[..n][u..] && t[u..][..n - u] == t[..n][u..];
    assert s[..u] == s[..n][..u] && t[..u] == t[..n][..u];
  }

  lemma {:induction false} VarintAgrees(w: Width, s: seq<byte>, t: seq<byte>, n: nat)
    requires Agree(s, t, n) && Varint(w, s).Ok? && Varint(w, s).value.used <= n
    ensures Varint(w, t) == Varint(w, s)
  {
    AgreeTail(s, t, n, Varint(w, s).value.used);
    VarintSame(w, s, t);
  }

  // A hop moves over its tag, and over a length or a value behind it, before anything else.
  lemma {:induction false} HopAgrees(base: nat, s: seq<byte>, t: seq<byte>, depth: nat, n: nat)
    requires HopOver(base, s, depth).Ok? && HopOver(base, s, depth).value.used <= n && Agree(s, t, n)
    ensures HopOver(base, t, depth) == HopOver(base, s, depth)
  {
    VarintAgrees(Wide, s, t, n);
    var u := Varint(Wide, s).value.used;
    var wire := WireType(Varint(Wide, s).value.value);
    AgreeTail(s, t, n, u);
    if wire == 0 || wire == 2 {
      VarintAgrees(Wide, s[u..], t[u..], n - u);
    }
  }

  ghost predicate HopStable(hop: Hopper) {
    forall base: nat, s: seq<byte>, t: seq<byte>, depth: nat, n: nat ::
      (hop(base, s, depth).Ok? && hop(base, s, depth).value.used <= n && Agree(s, t, n))
      ==> hop(base, t, depth) == hop(base, s, depth)
  }

  lemma {:induction false} HopRoundStable()
    ensures HopStable(HopRound())
  {
    forall base: nat, s: seq<byte>, t: seq<byte>, depth: nat, n: nat
      | HopOver(base, s, depth).Ok? && HopOver(base, s, depth).value.used <= n && Agree(s, t, n)
      ensures HopOver(base, t, depth) == HopOver(base, s, depth)
    {
      HopAgrees(base, s, t, depth, n);
    }
  }

  lemma {:induction false} SkipAgrees(hop: Hopper, base: nat, s: seq<byte>, t: seq<byte>, depth: nat, n: nat)
    requires Forward(hop) && HopStable(hop) && SkipFrom(hop, base, s, depth) == Ok(base + n) && Agree(s, t, n)
    ensures SkipFrom(hop, base, t, depth) == Ok(base + n)
    decreases |s|
  {
    var h := hop(base, s, depth).value;
    if h.depth == 0 {
      assert hop(base, t, depth) == hop(base, s, depth);
    } else {
      assert base + h.used < base + n;
      assert hop(base, t, depth) == hop(base, s, depth);
      AgreeTail(s, t, n, h.used);
      SkipAgrees(hop, base + h.used, s[h.used..], t[h.used..], h.depth, n - h.used);
    }
  }

  lemma {:induction false} SkipSame(s: seq<byte>, t: seq<byte>, n: nat)
    requires Skip(s) == Ok(n) && Agree(s, t, n)
    ensures Skip(t) == Ok(n)
  {
    HopRoundStable();
    SkipAgrees(HopRound(), 0, s, t, 0, n);
  }

  lemma {:induction false} TagWithin(s: seq<byte>, n: nat)
    requires Skip(s) == Ok(n)
    ensures Varint(Wide, s).Ok? && Varint(Wide, s).value.used <= n
  {
    var h := HopRound()(0, s, 0);
    assert h == HopOver(0, s, 0) && h.Ok? && h.value.used <= n;
  }

  // An unknown field stays one, wherever it stands and whatever follows.
  lemma {:induction false} UnknownAgrees(schema: Schema, base: nat, base': nat, s: seq<byte>, t: seq<byte>, n: nat)
    requires NextField(schema, base, s) == Ok(Unknown(n)) && Agree(s, t, n) && base' + n < TWO_63
    ensures NextField(schema, base', t) == Ok(Unknown(n))
  {
    TagWithin(s, n);
    VarintAgrees(Wide, s, t, n);
    SkipSame(s, t, n);
  }

  // ---- one field written is one field read ----

  lemma {:induction false} TagParts(num: nat, wire: nat)
    requires wire < 8
    ensures Trunc(8 * num + wire, 8) == wire && Quot(8 * num + wire, 8) == num
  {
    if num > 0 { TagParts(num - 1, wire); }
  }

  lemma {:induction false} TagReads(num: nat, wire: nat, rest: seq<byte>)
    requires 1 <= num <= 15 && wire < 8
    ensures Varint(Wide, [8 * num + wire] + rest) == Ok(Decoded(8 * num + wire, 1))
    ensures FieldNum(8 * num + wire) == num && WireType(8 * num + wire) == wire
  {
    assert Digits(8 * num + wire) == [8 * num + wire];
    VarintRoundTrip(8 * num + wire, rest);
    TagParts(num, wire);
  }

  lemma {:induction false} BytesRead(schema: Schema, num: int, b: seq<byte>, base: nat, rest: seq<byte>)
    requires Fits(schema, Entry(num, Bytes(b))) && base + |FieldBytes(num, Bytes(b))| + |rest| < TWO_63
    ensures NextField(schema, base, FieldBytes(num, Bytes(b)) + rest)
            == Ok(Known(num, Bytes(b), |FieldBytes(num, Bytes(b))|))
  {
    var tag := 8 * num + 2;
    var s := FieldBytes(num, Bytes(b)) + rest;
    var tail := Digits(|b|) + (b + rest);
    assert s == [tag] + tail;
    TagReads(num, 2, tail);
    assert s[1..] == tail;
    VarintRoundTrip(|b|, b + rest);
    var from := 1 + |Digits(|b|)|;
    assert s[from..from + |b|] == b;
  }

  lemma {:induction false} IntReads(schema: Schema, num: int, n: int32, base: nat, rest: seq<byte>)
    requires Fits(schema, Entry(num, Int(n)))
    ensures NextField(schema, base, FieldBytes(num, Int(n)) + rest)
            == Ok(Known(num, Int(n), |FieldBytes(num, Int(n))|))
  {
    var tag := 8 * num;
    var s := FieldBytes(num, Int(n)) + rest;
    var tail := Digits(Extend(n)) + rest;
    assert s == [tag] + tail;
    TagReads(num, 0, tail);
    assert s[1..] == tail;
    Int32RoundTrip(n, rest);
  }

  lemma {:induction false} EntryReads(schema: Schema, e: Entry, base: nat, rest: seq<byte>)
    requires Fits(schema, e) && base + |FieldBytes(e.num, e.val)| + |rest| < TWO_63
    ensures NextField(schema, base, FieldBytes(e.num, e.val) + rest)
            == Ok(Known(e.num, e.val, |FieldBytes(e.num, e.val)|))
  {
    if e.val.Bytes? {
      BytesRead(schema, e.num, e.val.b, base, rest);
    } else {
      IntReads(schema, e.num, e.val.n, base, rest);
    }
  }

  // ---- what the parser needs to know about its reader ----

  ghost predicate UnknownStable(next: Reader) {
    forall base: nat, base': nat, s: seq<byte>, t: seq<byte>, n: nat ::
      (next(base, s) == Ok(Unknown(n)) && Agree(s, t, n) && base' + n < TWO_63) ==> next(base', t) == Ok(Unknown(n))
  }

  ghost predicate ReadsEntries(next: Reader, schema: Schema) {
    forall e: Entry, base: nat, rest: seq<byte> ::
      (Fits(schema, e) && base + |FieldBytes(e.num, e.val)| + |rest| < TWO_63)
      ==> next(base, FieldBytes(e.num, e.val) + rest) == Ok(Known(e.num, e.val, |FieldBytes(e.num, e.val)|))
  }

  datatype Virtue = Stability | Recognition

  ghost predicate Has(v: Virtue, next: Reader, schema: Schema) {
    if v.Stability? then UnknownStable(next) else ReadsEntries(next, schema)
  }

  ghost predicate Good(next: Reader, schema: Schema) {
    Inside(next) && forall v: Virtue :: Has(v, next, schema)
  }

  lemma {:induction false} StillUnknown(
    next: Reader, schema: Schema, base: nat, base': nat, s: seq<byte>, t: seq<byte>, n: nat)
    requires Good(next, schema) && next(base, s) == Ok(Unknown(n)) && Agree(s, t, n) && base' + n < TWO_63
    ensures next(base', t) == Ok(Unknown(n))
  {
    assert Has(Stability, next, schema);
  }

  lemma {:induction false} FieldReaderGood(schema: Schema)
    ensures Good(FieldReader(schema), schema)
  {
    var next := FieldReader(schema);
    forall base: nat, base': nat, s: seq<byte>, t: seq<byte>, n: nat | next(base, s) == Ok(Unknown(n))
      && Agree(s, t, n) && base' + n < TWO_63
      ensures next(base', t) == Ok(Unknown(n))
    {
      UnknownAgrees(schema, base, base', s, t, n);
    }
    forall e: Entry, base: nat, rest: seq<byte> | Fits(schema, e) && base + |FieldBytes(e.num, e.val)| + |rest| < TWO_63
      ensures next(base, FieldBytes(e.num, e.val) + rest) == Ok(Known(e.num, e.val, |FieldBytes(e.num, e.val)|))
    {
      EntryReads(schema, e, base, rest);
    }
  }

  // ---- whole messages ----

  // A stretch of unknown fields is kept byte for byte.
  lemma {:induction false} UnknownsKept<A>(
    next: Reader, schema: Schema, put: Put<A>, base: nat, u: seq<byte>, m: Msg<A>)
    requires Good(next, schema) && Unknowns(next, u) && base + |u| < TWO_63
    ensures Parse(next, put, base, u, m) == Ok(m.(unknown := m.unknown + u))
    decreases |u|
  {
    if u == [] {
      assert m.unknown + u == m.unknown;
    } else {
      var n := next(0, u).value.used;
      assert Agree(u, u, n);
      StillUnknown(next, schema, 0, base, u, u, n);
      UnknownsKept(next, schema, put, base + n, u[n..], m.(unknown := m.unknown + u[..n]));
      assert m.unknown + u[..n] + u[n..] == m.unknown + u;
    }
  }

  lemma {:induction false} EntryNext(next: Reader, schema: Schema, base: nat, e: Entry, rest: seq<byte>)
    requires Good(next, schema) && Fits(schema, e) && base + |FieldBytes(e.num, e.val)| + |rest| < TWO_63
    ensures next(base, FieldBytes(e.num, e.val) + rest) == Ok(Known(e.num, e.val, |FieldBytes(e.num, e.val)|))
  {
    assert Has(Recognition, next, schema);
  }

  lemma {:induction false} EncodeCons(schema: Schema, es: seq<Entry>, u: seq<byte>)
    requires AllFit(schema, es) && es != []
    ensures var f := FieldBytes(es[0].num, es[0].val);
            AllFit(schema, es[1..]) && f != []
            && Encode(schema, es) + u == f + (Encode(schema, es[1..]) + u)
            && |Encode(schema, es)| == |f| + |Encode(schema, es[1..])|
  {
    AppendThrice(FieldBytes(es[0].num, es[0].val), Encode(schema, es[1..]), u);
  }

  lemma {:induction false} AppendThrice(a: seq<byte>, b: seq<byte>, c: seq<byte>)
    ensures a + b + c == a + (b + c)
  {
  }

  lemma {:induction false} ParseKnown<A>(
    next: Reader, put: Put<A>, base: nat, f: seq<byte>, rest: seq<byte>, m: Msg<A>, e: Entry)
    requires Inside(next) && f != []
    requires next(base, f + rest) == Ok(Known(e.num, e.val, |f|)) && put(m.fields, e.num, e.val).Ok?
    ensures Parse(next, put, base, f + rest, m)
            == Parse(next, put, base + |f|, rest, m.(fields := put(m.fields, e.num, e.val).value))
  {
    assert (f + rest)[|f|..] == rest;
  }

  // One entry in front of others.
  lemma {:induction false} ParseEntry<A>(
    next: Reader, schema: Schema, put: Put<A>, base: nat, es: seq<Entry>, u: seq<byte>, m: Msg<A>)
    requires Good(next, schema) && AllFit(schema, es) && es != [] && base + |Encode(schema, es)| + |u| < TWO_63
    requires put(m.fields, es[0].num, es[0].val).Ok?
    ensures var n := |FieldBytes(es[0].num, es[0].val)|;
            && AllFit(schema, es[1..]) && |Encode(schema, es)| == n + |Encode(schema, es[1..])|
            && Parse(next, put, base, Encode(schema, es) + u, m)
               == Parse(next, put, base + n, Encode(schema, es[1..]) + u,
                        m.(fields := put(m.fields, es[0].num, es[0].val).value))
  {
    var e := es[0];
    var rest := Encode(schema, es[1..]) + u;
    EncodeCons(schema, es, u);
    EntryNext(next, schema, base, e, rest);
    ParseKnown(next, put, base, FieldBytes(e.num, e.val), rest, m, e);
  }

  /** The round trip, for any message type: parsing the encoded entries followed
      by unknown fields stores the entries in order and keeps the rest. */
  lemma {:induction false} ParseEncoded<A>(
    next: Reader, schema: Schema, put: Put<A>, base: nat, es: seq<Entry>, u: seq<byte>, m: Msg<A>)
    requires Good(next, schema) && AllFit(schema, es) && Unknowns(next, u)
    requires base + |Encode(schema, es)| + |u| < TWO_63
    requires PutAll(put, m.fields, es).Ok?
    ensures Parse(next, put, base, Encode(schema, es) + u, m)
            == Ok(Msg(PutAll(put, m.fields, es).value, m.unknown + u))
    decreases |es|
  {
    if es == [] {
      assert Encode(schema, es) + u == u;
      UnknownsKept(next, schema, put, base, u, m);
    } else {
      var a := put(m.fields, es[0].num, es[0].val);
      ParseEntry(next, schema, put, base, es, u, m);
      ParseEncoded(next, schema, put, base + |FieldBytes(es[0].num, es[0].val)|, es[1..], u, m.(fields := a.value));
    }
  }

  // ---- what the parser keeps are unknown fields ----

  lemma {:induction false} UnknownsAppend(next: Reader, schema: Schema, a: seq<byte>, b: seq<byte>)
    requires Good(next, schema) && Unknowns(next, a) && Unknowns(next, b) && |a| + |b| < TWO_63
    ensures Unknowns(next, a + b)
    decreases |a|
  {
    if a == [] {
      assert a + b == b;
    } else {
      var n := next(0, a).value.used;
      assert (a + b)[..n] == a[..n] && (a + b)[n..] == a[n..] + b;
      assert Agree(a, a + b, n);
      StillUnknown(next, schema, 0, 0, a, a + b, n);
      UnknownsAppend(next, schema, a[n..], b);
    }
  }

  lemma {:induction false} OneUnknown(next: Reader, schema: Schema, base: nat, s: seq<byte>, n: nat)
    requires Good(next, schema) && next(base, s) == Ok(Unknown(n)) && n < TWO_63
    ensures Unknowns(next, s[..n])
  {
    var t := s[..n];
    assert t[..n] == t && Agree(s, t, n);
    StillUnknown(next, schema, base, 0, s, t, n);
    assert t[n..] == [];
  }

  lemma {:induction false} UnknownKept(next: Reader, schema: Schema, base: nat, u: seq<byte>, s: seq<byte>, n: nat)
    requires Good(next, schema) && Unknowns(next, u)
    requires next(base, s) == Ok(Unknown(n)) && |u| + |s| < TWO_63
    ensures Unknowns(next, u + s[..n])
  {
    OneUnknown(next, schema, base, s, n);
    UnknownsAppend(next, schema, u, s[..n]);
  }

  // What one round of the parser leaves to the next one.
  function Stored<A>(put: Put<A>, s: seq<byte>, m: Msg<A>, f: Field): Result<Msg<A>>
    requires f.used <= |s|
  {
    if f.Unknown? then Ok(m.(unknown := m.unknown + s[..f.used]))
    else
      var a := put(m.fields, f.num, f.val);
      if a.Err? then Err(a.error) else Ok(m.(fields := a.value))
  }

  lemma {:induction false} ParseRound<A>(next: Reader, put: Put<A>, base: nat, s: seq<byte>, m: Msg<A>)
    requires Inside(next) && s != [] && Parse(next, put, base, s, m).Ok?
    ensures next(base, s).Ok?
    ensures var f := next(base, s).value;
            Stored(put, s, m, f).Ok?
            && Parse(next, put, base, s, m) == Parse(next, put, base + f.used, s[f.used..], Stored(put, s, m, f).value)
  {
  }

  /** Whatever the parser accepts, the unknown bytes it keeps are unknown fields. */
  lemma {:induction false} ParsedUnknowns<A>(
    next: Reader, schema: Schema, put: Put<A>, base: nat, s: seq<byte>, m: Msg<A>)
    requires Good(next, schema) && Unknowns(next, m.unknown) && |m.unknown| + |s| < TWO_63
    requires Parse(next, put, base, s, m).Ok?
    ensures Unknowns(next, Parse(next, put, base, s, m).value.unknown)
    decreases |s|
  {
    if s != [] {
      ParseRound(next, put, base, s, m);
      var f := next(base, s).value;
      var m1 := Stored(put, s, m, f).value;
      if f.Unknown? { UnknownKept(next, schema, base, m.unknown, s, f.used); }
      assert |m1.unknown| + |s[f.used..]| < TWO_63;
      ParsedUnknowns(next, schema, put, base + f.used, s[f.used..], m1);
    }
  }
}
