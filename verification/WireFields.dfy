/**
 Unknown fields as the section "Message Structure" of the Protocol Buffers
 Encoding specification defines them, groups within groups included, and that
 skip, which only counts how deep it is, steps over exactly one of them.
 */
module WireFields {
  import opened Varints
  import opened Wire
  import opened WireTheorems

  datatype Piece =
    | Varying(num: nat, v: uint64)
    | Fixed64(num: nat, b: seq<byte>)
    | Delim(num: nat, b: seq<byte>)
    | Group(num: nat, inner: seq<Piece>)
    | Fixed32(num: nat, b: seq<byte>)

  // Field numbers have 29 bits, and fixed-size values their sizes.
  predicate Proper(p: Piece) {
    1 <= p.num < 0x2000_0000
    && match p
       case Varying(_, _) => true
       case Fixed64(_, b) => |b| == 8
       case Delim(_, b) => |b| < TWO_63
       case Group(_, inner) => AllProper(inner)
       case Fixed32(_, b) => |b| == 4
  }

  predicate AllProper(ps: seq<Piece>) { ps == [] || (Proper(ps[0]) && AllProper(ps[1..])) }

  function Tag(num: nat, wire: nat): seq<byte> { Digits(8 * num + wire) }

  function PieceBytes(p: Piece): seq<byte> {
    match p
    case Varying(num, v) => Tag(num, 0) + Digits(v)
    case Fixed64(num, b) => Tag(num, 1) + b
    case Delim(num, b) => Tag(num, 2) + (Digits(|b|) + b)
    case Group(num, inner) => Tag(num, 3) + (PiecesBytes(inner) + Tag(num, 4))
    case Fixed32(num, b) => Tag(num, 5) + b
  }

  function PiecesBytes(ps: seq<Piece>): seq<byte> {
    if ps == [] then [] else PieceBytes(ps[0]) + PiecesBytes(ps[1..])
  }

  // ---- one round of skip ----

  lemma {:induction false} TagSkips(num: nat, wire: nat, rest: seq<byte>)
    requires num < 0x2000_0000 && wire < 8
    ensures Varint(Wide, Tag(num, wire) + rest) == Ok(Decoded(8 * num + wire, |Tag(num, wire)|))
    ensures WireType(8 * num + wire) == wire && FieldNum(8 * num + wire) == num
    ensures (Tag(num, wire) + rest)[|Tag(num, wire)|..] == rest
  {
    VarintRoundTrip(8 * num + wire, rest);
    TagParts(num, wire);
  }

  // A piece that is not a group takes one round.
  lemma {:induction false} HopFlat(p: Piece, base: nat, rest: seq<byte>, depth: nat)
    requires Proper(p) && !p.Group? && base + |PieceBytes(p)| < TWO_63
    ensures HopOver(base, PieceBytes(p) + rest, depth) == Ok(Hop(|PieceBytes(p)|, depth))
  {
    var wire := if p.Varying? then 0 else if p.Fixed64? then 1 else if p.Delim? then 2 else 5;
    var value := if p.Varying? then Digits(p.v) else if p.Delim? then Digits(|p.b|) + p.b else p.b;
    assert PieceBytes(p) == Tag(p.num, wire) + value;
    AppendThrice(Tag(p.num, wire), value, rest);
    TagSkips(p.num, wire, value + rest);
    if p.Varying? {
      VarintRoundTrip(p.v, rest);
    } else if p.Delim? {
      AppendThrice(Digits(|p.b|), p.b, rest);
      VarintRoundTrip(|p.b|, p.b + rest);
    }
  }

  lemma {:induction false} HopGroup(num: nat, end: bool, base: nat, rest: seq<byte>, depth: nat)
    requires num < 0x2000_0000 && (end ==> depth > 0)
    ensures HopOver(base, Tag(num, if end then 4 else 3) + rest, depth)
            == Ok(Hop(|Tag(num, if end then 4 else 3)|, if end then depth - 1 else depth + 1))
  {
    TagSkips(num, if end then 4 else 3, rest);
  }

  // ---- the whole loop ----

  lemma {:induction false} OneRound(hop: Hopper, base: nat, f: seq<byte>, rest: seq<byte>, depth: nat, after: nat)
    requires Forward(hop) && f != [] && hop(base, f + rest, depth) == Ok(Hop(|f|, after))
    ensures SkipFrom(hop, base, f + rest, depth)
            == if after == 0 then Ok(base + |f|) else SkipFrom(hop, base + |f|, rest, after)
  {
    assert (f + rest)[|f|..] == rest;
  }

  lemma {:induction false} SkipFlat(hop: Hopper, p: Piece, base: nat, rest: seq<byte>, depth: nat)
    requires Forward(hop) && Hops(hop) && Proper(p) && !p.Group? && base + |PieceBytes(p)| < TWO_63
    ensures SkipFrom(hop, base, PieceBytes(p) + rest, depth)
            == if depth == 0 then Ok(base + |PieceBytes(p)|) else SkipFrom(hop, base + |PieceBytes(p)|, rest, depth)
  {
    HopFlat(p, base, rest, depth);
    OneRound(hop, base, PieceBytes(p), rest, depth, depth);
  }

  lemma {:induction false} SkipTag(hop: Hopper, num: nat, end: bool, base: nat, rest: seq<byte>, depth: nat)
    requires Forward(hop) && Hops(hop) && num < 0x2000_0000 && (end ==> depth > 0)
    ensures var tag := Tag(num, if end then 4 else 3); var after := if end then depth - 1 else depth + 1;
            SkipFrom(hop, base, tag + rest, depth)
            == if after == 0 then Ok(base + |tag|) else SkipFrom(hop, base + |tag|, rest, after)
  {
    HopGroup(num, end, base, rest, depth);
    OneRound(hop, base, Tag(num, if end then 4 else 3), rest, depth, if end then depth - 1 else depth + 1);
  }

  // A group, given that the loop passes over what is in it.
  lemma {:induction false} SkipGroup(hop: Hopper, num: nat, inner: seq<byte>, base: nat, rest: seq<byte>, depth: nat)
    requires Forward(hop) && Hops(hop) && num < 0x2000_0000
    requires var close := Tag(num, 4); var from := base + |Tag(num, 3)|;
             SkipFrom(hop, from, inner + (close + rest), depth + 1)
               == SkipFrom(hop, from + |inner|, close + rest, depth + 1)
    ensures var group := Tag(num, 3) + (inner + Tag(num, 4));
            SkipFrom(hop, base, group + rest, depth)
            == if depth == 0 then Ok(base + |group|) else SkipFrom(hop, base + |group|, rest, depth)
  {
    var open, close := Tag(num, 3), Tag(num, 4);
    GroupParts(open, inner, close, rest);
    SkipTag(hop, num, false, base, inner + (close + rest), depth);
    SkipTag(hop, num, true, base + |open| + |inner|, rest, depth + 1);
  }

  // A field, however deep it nests: outside all groups the loop ends behind it, inside it goes on there.
  lemma {:induction false} SkipPiece(hop: Hopper, p: Piece, base: nat, rest: seq<byte>, depth: nat)
    requires Forward(hop) && Hops(hop) && Proper(p) && base + |PieceBytes(p)| < TWO_63
    ensures SkipFrom(hop, base, PieceBytes(p) + rest, depth)
            == if depth == 0 then Ok(base + |PieceBytes(p)|) else SkipFrom(hop, base + |PieceBytes(p)|, rest, depth)
    decreases p
  {
    if p.Group? {
      SkipPieces(hop, p.inner, base + |Tag(p.num, 3)|, Tag(p.num, 4) + rest, depth + 1);
      SkipGroup(hop, p.num, PiecesBytes(p.inner), base, rest, depth);
    } else {
      SkipFlat(hop, p, base, rest, depth);
    }
  }

  lemma {:induction false} GroupParts(open: seq<byte>, inner: seq<byte>, close: seq<byte>, rest: seq<byte>)
    ensures open + (inner + close) + rest == open + (inner + (close + rest))
  {
    AppendThrice(open, inner + close, rest);
    AppendThrice(inner, close, rest);
  }

  lemma {:induction false} SkipPieces(hop: Hopper, ps: seq<Piece>, base: nat, rest: seq<byte>, depth: nat)
    requires Forward(hop) && Hops(hop) && AllProper(ps) && base + |PiecesBytes(ps)| < TWO_63 && depth > 0
    ensures SkipFrom(hop, base, PiecesBytes(ps) + rest, depth) == SkipFrom(hop, base + |PiecesBytes(ps)|, rest, depth)
    decreases ps
  {
    if ps == [] {
      assert PiecesBytes(ps) + rest == rest;
    } else {
      AppendThrice(PieceBytes(ps[0]), PiecesBytes(ps[1..]), rest);
      SkipPiece(hop, ps[0], base, PiecesBytes(ps[1..]) + rest, depth);
      SkipPieces(hop, ps[1..], base + |PieceBytes(ps[0])|, rest, depth);
    }
  }

  /** skip steps over exactly one field of the format, whatever follows it. */
  lemma {:induction false} SkipsOneField(p: Piece, rest: seq<byte>)
    requires Proper(p) && |PieceBytes(p)| < TWO_63
    ensures Skip(PieceBytes(p) + rest) == Ok(|PieceBytes(p)|)
  {
    SkipPiece(HopRound(), p, 0, rest, 0);
  }

  /** So a field with a number the message does not use is read as unknown, byte for byte. */
  lemma {:induction false} UnknownPiece(schema: Schema, p: Piece, base: nat, rest: seq<byte>)
    requires Proper(p) && base + |PieceBytes(p)| < TWO_63 && schema(p.num) == Absent
    ensures NextField(schema, base, PieceBytes(p) + rest) == Ok(Unknown(|PieceBytes(p)|))
  {
    SkipsOneField(p, rest);
    PieceTag(p, rest);
  }

  lemma {:induction false} PieceTag(p: Piece, rest: seq<byte>)
    requires Proper(p)
    ensures var tag := Varint(Wide, PieceBytes(p) + rest);
            tag.Ok? && FieldNum(tag.value.value) == p.num && WireType(tag.value.value) != 4
  {
    var wire := if p.Varying? then 0 else if p.Fixed64? then 1 else if p.Delim? then 2 else if p.Group? then 3 else 5;
    var value := PieceBytes(p)[|Tag(p.num, wire)|..];
    assert PieceBytes(p) == Tag(p.num, wire) + value;
    AppendThrice(Tag(p.num, wire), value, rest);
    TagSkips(p.num, wire, value + rest);
  }

  predicate AllAbsent(schema: Schema, ps: seq<Piece>) { forall i :: 0 <= i < |ps| ==> schema(ps[i].num) == Absent }

  lemma {:induction false} UnknownFirst(next: Reader, f: seq<byte>, rest: seq<byte>)
    requires Inside(next) && f != [] && next(0, f + rest) == Ok(Unknown(|f|)) && Unknowns(next, rest)
    ensures Unknowns(next, f + rest)
  {
    assert (f + rest)[|f|..] == rest;
  }

  /** Any series of such fields is what the codec theorems call unknown fields. */
  lemma {:induction false} PiecesUnknown(schema: Schema, ps: seq<Piece>)
    requires AllProper(ps) && AllAbsent(schema, ps) && |PiecesBytes(ps)| < TWO_63
    ensures Unknowns(FieldReader(schema), PiecesBytes(ps))
    decreases |ps|
  {
    if ps != [] {
      UnknownPiece(schema, ps[0], 0, PiecesBytes(ps[1..]));
      PiecesUnknown(schema, ps[1..]);
      UnknownFirst(FieldReader(schema), PieceBytes(ps[0]), PiecesBytes(ps[1..]));
    }
  }
}
