/**
 The other half of parsing: what a varint and a tag mean byte by byte, which
 input is refused and why, and fields in any order.
 */
module WireRefusals {
  import opened Varints
  import opened Wire
  import opened WireTheorems
  import opened WireFields

  // ---- what the bytes of a varint mean ----

  // The seven low bits of the first k bytes, least significant byte first.
  function SevenBits(s: seq<byte>, k: nat): nat
    requires k <= |s|
  {
    if k == 0 then 0 else SevenBits(s, k - 1) + Shifted(s[k - 1] % 128, k - 1)
  }

  lemma {:induction false} TruncIsRemainder(x: nat, m: nat)
    requires m == 8 || m == TWO_32 || m == TWO_64
    ensures Trunc(x, m) == x % m && Quot(x, m) == x / m
    decreases x
  {
    if x >= m { TruncIsRemainder(x - m, m); }
  }

  lemma {:induction false} NumberFrom(s: seq<byte>, k: nat, i: nat)
    requires i <= k < |s| && s[k] < 128 && forall j :: 0 <= j < k ==> s[j] >= 128
    ensures After(SevenBits(s, i), i, Number(s[i..])) == Ok(Decoded(SevenBits(s, k + 1), k + 1))
    decreases k - i
  {
    OneByte(s[i..], SevenBits(s, i), i);
    assert s[i..][1..] == s[i + 1..];
    if i < k { NumberFrom(s, k, i + 1); }
  }

  lemma {:induction false} NumberOpen(s: seq<byte>)
    requires forall j :: 0 <= j < |s| ==> s[j] >= 128
    ensures Number(s) == Err(UnexpectedEOF)
  {
    if s != [] { NumberOpen(s[1..]); }
  }

  /** A varint ends at its first byte below 128. It stands for the seven low bits
      of each byte, least significant byte first, modulo the width of the
      accumulator; one that goes on for more than ten bytes is an overflow. */
  lemma {:induction false} VarintEnds(w: Width, s: seq<byte>, k: nat)
    requires k < |s| && s[k] < 128 && forall j :: 0 <= j < k ==> s[j] >= 128
    ensures Varint(w, s) == if k < 10 then Ok(Decoded(SevenBits(s, k + 1) % Modulus(w), k + 1)) else Err(IntOverflow)
  {
    NumberFrom(s, k, 0);
    assert s[0..] == s;
    TruncIsRemainder(SevenBits(s, k + 1), Modulus(w));
  }

  /** One without such a byte is cut off, or an overflow after ten bytes. */
  lemma {:induction false} VarintOpen(w: Width, s: seq<byte>)
    requires forall j :: 0 <= j < |s| ==> s[j] >= 128
    ensures Varint(w, s) == Err(if |s| >= 10 then IntOverflow else UnexpectedEOF)
  {
    NumberOpen(s);
  }

  // ---- what a tag decides ----

  // The upper bits of a tag as the int32 the source converts them to.
  function TagNumber(v: nat): int { (v / 8 + 0x8000_0000) % 0x1_0000_0000 - 0x8000_0000 }

  lemma {:induction false} TagMeans(v: nat)
    ensures FieldNum(v) == TagNumber(v) && WireType(v) == v % 8
  {
    TruncIsRemainder(v, 8);
    TruncIsRemainder(v / 8, TWO_32);
  }

  /** Why a tag is refused, for any 64-bit tag and whatever follows it: an end of
      group, a number that is not positive as an int32, a wire type other than the
      field's own, or one that does not exist. */
  lemma {:induction false} TagRefused(schema: Schema, base: nat, v: uint64, rest: seq<byte>)
    ensures var (num, wire, r) := (TagNumber(v), v % 8, NextField(schema, base, Digits(v) + rest));
            && (r == Err(EndGroup) <== wire == 4)
            && (r == Err(IllegalTag) <== wire != 4 && num <= 0)
            && (r == Err(WrongWireType) <== wire != 4 && num > 0 && schema(num) == Delimited && wire != 2)
            && (r == Err(WrongWireType) <== wire != 4 && num > 0 && schema(num) == Integer && wire != 0)
            && (r == Err(IllegalWireType) <== wire >= 6 && num > 0 && schema(num) == Absent)
            && (Skip(Digits(v) + rest) == Err(UnexpectedEndOfGroup) <== wire == 4)
  {
    VarintRoundTrip(v, rest);
    TagMeans(v);
    var s := Digits(v) + rest;
    if v % 8 == 4 {
      var hop := HopRound();
      assert hop(0, s, 0) == HopOver(0, s, 0) == Err(UnexpectedEndOfGroup);
    }
    if v % 8 >= 6 && TagNumber(v) > 0 && schema(TagNumber(v)) == Absent {
      var hop := HopRound();
      assert hop(0, s, 0) == HopOver(0, s, 0) == Err(IllegalWireType);
    }
  }

  // ---- cut off input ----

  lemma {:induction false} BytesAgree(num: int, base: nat, s: seq<byte>, t: seq<byte>, u: nat, f: Field)
    requires 0 < u <= |s| && u <= |t| && ReadBytes(num, base, s, u) == Ok(f) && Agree(s, t, f.used)
    ensures u <= f.used && ReadBytes(num, base, t, u) == Ok(f)
  {
    var n := f.used;
    AgreeTail(s, t, n, u);
    VarintAgrees(Wide, s[u..], t[u..], n - u);
    var from := u + Varint(Wide, s[u..]).value.used;
    assert s[from..n] == s[..n][from..] && t[from..n] == t[..n][from..];
  }

  lemma {:induction false} IntAgrees(num: int, s: seq<byte>, t: seq<byte>, u: nat, f: Field)
    requires 0 < u <= |s| && u <= |t| && ReadInt(num, s, u) == Ok(f) && Agree(s, t, f.used)
    ensures u <= f.used && ReadInt(num, t, u) == Ok(f)
  {
    AgreeTail(s, t, f.used, u);
    VarintAgrees(Narrow, s[u..], t[u..], f.used - u);
  }

  lemma {:induction false} UnknownSame(base: nat, s: seq<byte>, t: seq<byte>, f: Field)
    requires ReadUnknown(base, s) == Ok(f) && Agree(s, t, f.used)
    ensures ReadUnknown(base, t) == Ok(f)
  {
    SkipSame(s, t, f.used);
  }

  lemma {:induction false} TagInside(schema: Schema, base: nat, s: seq<byte>)
    requires NextField(schema, base, s).Ok?
    ensures Varint(Wide, s).Ok? && Varint(Wide, s).value.used <= NextField(schema, base, s).value.used
  {
    var f := NextField(schema, base, s).value;
    if f.Unknown? { TagWithin(s, f.used); }
  }

  /** A field, known or unknown, depends on its own bytes alone. */
  lemma {:induction false} FieldAgrees(schema: Schema, base: nat, s: seq<byte>, t: seq<byte>)
    requires NextField(schema, base, s).Ok? && Agree(s, t, NextField(schema, base, s).value.used)
    ensures NextField(schema, base, t) == NextField(schema, base, s)
  {
    var f := NextField(schema, base, s).value;
    TagInside(schema, base, s);
    VarintAgrees(Wide, s, t, f.used);
    var tag := Varint(Wide, s).value;
    var num := FieldNum(tag.value);
    if schema(num) == Delimited {
      BytesAgree(num, base, s, t, tag.used, f);
    } else if schema(num) == Integer {
      IntAgrees(num, s, t, tag.used, f);
    } else {
      UnknownSame(base, s, t, f);
    }
  }

  /** So no part of a field is taken for a field: cut off anywhere inside, it is refused. */
  lemma {:induction false} CutFieldRefused(schema: Schema, base: nat, s: seq<byte>, k: nat)
    requires NextField(schema, base, s).Ok? && k < NextField(schema, base, s).value.used
    ensures NextField(schema, base, s[..k]).Err?
  {
    var r := NextField(schema, base, s[..k]);
    if r.Ok? {
      var n := r.value.used;
      assert s[..k][..n] == s[..n];
      FieldAgrees(schema, base, s[..k], s);
    }
  }

  // The k-th byte is where a field begins, or the end.
  predicate AtField(next: Reader, base: nat, s: seq<byte>, k: nat)
    requires Inside(next)
    decreases |s|
  {
    k == 0
    || (s != [] && next(base, s).Ok? && var n := next(base, s).value.used;
        k >= n && AtField(next, base + n, s[n..], k - n))
  }

  // A reader that depends on the bytes of its field alone, and refuses a part of it.
  ghost predicate Exact(next: Reader) {
    && (forall base: nat, s: seq<byte>, t: seq<byte> ::
          next(base, s).Ok? && Agree(s, t, next(base, s).value.used) ==> next(base, t) == next(base, s))
    && (forall base: nat, s: seq<byte>, k: nat ::
          next(base, s).Ok? && k < next(base, s).value.used <= |s| ==> next(base, s[..k]).Err?)
  }

  lemma {:induction false} ReaderExact(schema: Schema)
    ensures Exact(FieldReader(schema))
  {
    var next := FieldReader(schema);
    forall base: nat, s: seq<byte>, t: seq<byte> | next(base, s).Ok? && Agree(s, t, next(base, s).value.used)
      ensures next(base, t) == next(base, s)
    {
      FieldAgrees(schema, base, s, t);
    }
    forall base: nat, s: seq<byte>, k: nat | next(base, s).Ok? && k < next(base, s).value.used <= |s|
      ensures next(base, s[..k]).Err?
    {
      CutFieldRefused(schema, base, s, k);
    }
  }

  lemma {:induction false} CutParse<A>(next: Reader, put: Put<A>, base: nat, s: seq<byte>, k: nat, m: Msg<A>)
    requires Inside(next) && Exact(next) && k <= |s| && Parse(next, put, base, s, m).Ok?
    ensures Parse(next, put, base, s[..k], m).Ok? <==> AtField(next, base, s, k)
    decreases |s|
  {
    if k > 0 {
      ParseRound(next, put, base, s, m);
      var f := next(base, s).value;
      if k < f.used {
        assert next(base, s[..k]).Err?;
      } else {
        assert s[..k][..f.used] == s[..f.used] && Agree(s, s[..k], f.used);
        assert s[..k][f.used..] == s[f.used..][..k - f.used];
        CutParse(next, put, base + f.used, s[f.used..], k - f.used, Stored(put, s, m, f).value);
      }
    }
  }

  /** Of an accepted message, cut off after k bytes, the parser accepts what is left
      if and only if the cut is between two fields. */
  lemma {:induction false} CutRefusedIff<A>(schema: Schema, put: Put<A>, s: seq<byte>, k: nat, m: Msg<A>)
    requires k <= |s| && Parse(FieldReader(schema), put, 0, s, m).Ok?
    ensures Parse(FieldReader(schema), put, 0, s[..k], m).Ok? <==> AtField(FieldReader(schema), 0, s, k)
  {
    ReaderExact(schema);
    CutParse(FieldReader(schema), put, 0, s, k, m);
  }

  // ---- fields in any order ----

  // A field of the message, or one with a number it does not use.
  datatype Part = Own(e: Entry) | Foreign(p: Piece)

  predicate PartFits(schema: Schema, part: Part) {
    if part.Own? then Fits(schema, part.e) else Proper(part.p) && schema(part.p.num) == Absent
  }

  predicate PartsFit(schema: Schema, parts: seq<Part>) { forall i :: 0 <= i < |parts| ==> PartFits(schema, parts[i]) }

  function PartBytes(schema: Schema, part: Part): (b: seq<byte>)
    requires PartFits(schema, part)
  {
    if part.Own? then FieldBytes(part.e.num, part.e.val) else PieceBytes(part.p)
  }

  function PartsBytes(schema: Schema, parts: seq<Part>): seq<byte>
    requires PartsFit(schema, parts)
  {
    if parts == [] then [] else PartBytes(schema, parts[0]) + PartsBytes(schema, parts[1..])
  }

  function OwnOf(parts: seq<Part>): seq<Entry> {
    if parts == [] then [] else (if parts[0].Own? then [parts[0].e] else []) + OwnOf(parts[1..])
  }

  function ForeignOf(parts: seq<Part>): seq<byte> {
    if parts == [] then [] else (if parts[0].Own? then [] else PieceBytes(parts[0].p)) + ForeignOf(parts[1..])
  }

  lemma {:induction false} PieceNonempty(p: Piece)
    ensures PieceBytes(p) != []
  {
  }

  lemma {:induction false} ParseForeign<A>(
    next: Reader, put: Put<A>, base: nat, f: seq<byte>, rest: seq<byte>, m: Msg<A>)
    requires Inside(next) && f != [] && next(base, f + rest) == Ok(Unknown(|f|))
    ensures Parse(next, put, base, f + rest, m)
            == Parse(next, put, base + |f|, rest, m.(unknown := m.unknown + f))
  {
    assert (f + rest)[|f|..] == rest && (f + rest)[..|f|] == f;
  }

  // next reads a part in front of anything
  ghost predicate ReadsPart(next: Reader, schema: Schema, part: Part, base: nat, rest: seq<byte>)
    requires PartFits(schema, part)
  {
    var b := PartBytes(schema, part);
    b != [] && next(base, b + rest) == Ok(if part.Own? then Known(part.e.num, part.e.val, |b|) else Unknown(|b|))
  }

  lemma {:induction false} PartReads(schema: Schema, part: Part, base: nat, rest: seq<byte>)
    requires PartFits(schema, part) && base + |PartBytes(schema, part)| + |rest| < TWO_63
    ensures ReadsPart(FieldReader(schema), schema, part, base, rest)
  {
    if part.Own? {
      EntryReads(schema, part.e, base, rest);
    } else {
      PieceNonempty(part.p);
      UnknownPiece(schema, part.p, base, rest);
    }
  }

  // What the parser holds after the part.
  function Kept<A>(put: Put<A>, m: Msg<A>, part: Part): Msg<A> {
    if part.Foreign? then m.(unknown := m.unknown + PieceBytes(part.p))
    else
      var a := put(m.fields, part.e.num, part.e.val);
      if a.Ok? then m.(fields := a.value) else m
  }

  lemma {:induction false} ParsePart<A>(
    next: Reader, schema: Schema, put: Put<A>, base: nat, part: Part, rest: seq<byte>, m: Msg<A>)
    requires Inside(next) && PartFits(schema, part) && ReadsPart(next, schema, part, base, rest)
    requires part.Own? ==> put(m.fields, part.e.num, part.e.val).Ok?
    ensures var b := PartBytes(schema, part);
            Parse(next, put, base, b + rest, m) == Parse(next, put, base + |b|, rest, Kept(put, m, part))
  {
    if part.Own? {
      ParseKnown(next, put, base, PartBytes(schema, part), rest, m, part.e);
    } else {
      ParseForeign(next, put, base, PartBytes(schema, part), rest, m);
    }
  }

  // The first part and the rest.
  lemma {:induction false} PartsCons<A>(put: Put<A>, parts: seq<Part>, m: Msg<A>)
    requires parts != [] && PutAll(put, m.fields, OwnOf(parts)).Ok?
    ensures parts[0].Own? ==> put(m.fields, parts[0].e.num, parts[0].e.val).Ok?
    ensures var m1 := Kept(put, m, parts[0]);
            && PutAll(put, m1.fields, OwnOf(parts[1..])) == PutAll(put, m.fields, OwnOf(parts))
            && m1.unknown + ForeignOf(parts[1..]) == m.unknown + ForeignOf(parts)
  {
    if parts[0].Own? {
      assert OwnOf(parts)[1..] == OwnOf(parts[1..]);
      assert ForeignOf(parts) == ForeignOf(parts[1..]);
    } else {
      assert OwnOf(parts) == OwnOf(parts[1..]);
      AppendThrice(m.unknown, PieceBytes(parts[0].p), ForeignOf(parts[1..]));
    }
  }

  ghost predicate ReadsParts(next: Reader, schema: Schema) {
    forall part: Part, base: nat, rest: seq<byte> ::
      PartFits(schema, part) && base + |PartBytes(schema, part)| + |rest| < TWO_63
      ==> ReadsPart(next, schema, part, base, rest)
  }

  lemma {:induction false} MixedBy<A>(next: Reader, schema: Schema, put: Put<A>, base: nat, parts: seq<Part>, m: Msg<A>)
    requires Inside(next) && ReadsParts(next, schema)
    requires PartsFit(schema, parts) && base + |PartsBytes(schema, parts)| < TWO_63
    requires PutAll(put, m.fields, OwnOf(parts)).Ok?
    ensures Parse(next, put, base, PartsBytes(schema, parts), m)
            == Ok(Msg(PutAll(put, m.fields, OwnOf(parts)).value, m.unknown + ForeignOf(parts)))
    decreases |parts|
  {
    if parts == [] {
      assert m.unknown + [] == m.unknown;
    } else {
      var rest := PartsBytes(schema, parts[1..]);
      assert ReadsPart(next, schema, parts[0], base, rest);
      PartsCons(put, parts, m);
      ParsePart(next, schema, put, base, parts[0], rest, m);
      MixedBy(next, schema, put, base + |PartBytes(schema, parts[0])|, parts[1..], Kept(put, m, parts[0]));
    }
  }

  /** Fields of the message and foreign ones may come in any order: the parser
      stores the former in the order they come in, and keeps the latter. */
  lemma {:induction false} ParseMixed<A>(schema: Schema, put: Put<A>, base: nat, parts: seq<Part>, m: Msg<A>)
    requires PartsFit(schema, parts) && base + |PartsBytes(schema, parts)| < TWO_63
    requires PutAll(put, m.fields, OwnOf(parts)).Ok?
    ensures Parse(FieldReader(schema), put, base, PartsBytes(schema, parts), m)
            == Ok(Msg(PutAll(put, m.fields, OwnOf(parts)).value, m.unknown + ForeignOf(parts)))
  {
    var next := FieldReader(schema);
    forall part: Part, from: nat, rest: seq<byte>
      | PartFits(schema, part) && from + |PartBytes(schema, part)| + |rest| < TWO_63
      ensures ReadsPart(next, schema, part, from, rest)
    {
      PartReads(schema, part, from, rest);
    }
    MixedBy(next, schema, put, base, parts, m);
  }
}
