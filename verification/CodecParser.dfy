/**
 skip and UnmarshalVT as the loops they are: an index that advances over the
 input, a group depth, and a message that is filled in as fields are found.
 */
module CodecParser {
  import opened Varints
  import opened Wire
  import opened Codec

  // The body of the loop in skip, from the tag at index i on.
  method HopAt(dAtA: seq<byte>, i: nat, depth: nat) returns (r: Result<Hop>)
    requires i <= |dAtA|
    ensures r == HopOver(i, dAtA[i..], depth)
  {
    var tag := DecodeVarint(Wide, dAtA, i);
    if tag.Err? {
      return Err(tag.error);
    }
    var u, wire := tag.value.used, WireType(tag.value.value);
    assert dAtA[i..][u..] == dAtA[i + u..];
    if wire == 0 {
      var v := DecodeVarint(Wide, dAtA, i + u);
      if v.Err? {
        return Err(v.error);
      }
      return Ok(Hop(u + v.value.used, depth));
    } else if wire == 1 {
      return Ok(Hop(u + 8, depth));
    } else if wire == 2 {
      var n := DecodeVarint(Wide, dAtA, i + u);
      if n.Err? {
        return Err(n.error);
      }
      if n.value.value >= TWO_63 || i + u + n.value.used + n.value.value >= TWO_63 {
        return Err(InvalidLength);
      }
      return Ok(Hop(u + n.value.used + n.value.value, depth));
    } else if wire == 3 {
      return Ok(Hop(u, depth + 1));
    } else if wire == 4 {
      if depth == 0 {
        return Err(UnexpectedEndOfGroup);
      }
      return Ok(Hop(u, depth - 1));
    } else if wire == 5 {
      return Ok(Hop(u + 4, depth));
    } else {
      return Err(IllegalWireType);
    }
  }

  /** skip: how far the field at the start of the input reaches, groups included. */
  method SkipField(dAtA: seq<byte>) returns (r: Result<nat>)
    ensures r == Skip(dAtA)
    ensures r.Ok? ==> r.value > 0
  {
    r := SkipLoop(HopRound(), dAtA);
  }

  method HopBy(ghost hop: Hopper, dAtA: seq<byte>, i: nat, depth: nat) returns (r: Result<Hop>)
    requires i <= |dAtA| && Hops(hop)
    ensures r == hop(i, dAtA[i..], depth)
  {
    r := HopAt(dAtA, i, depth);
  }

  method SkipLoop(ghost hop: Hopper, dAtA: seq<byte>) returns (r: Result<nat>)
    requires Forward(hop) && Hops(hop)
    ensures r == SkipFrom(hop, 0, dAtA, 0)
  {
    var i: nat, depth: nat := 0, 0;
    assert dAtA[0..] == dAtA;
    while i < |dAtA|
      invariant i <= |dAtA| ==> SkipFrom(hop, 0, dAtA, 0) == SkipFrom(hop, i, dAtA[i..], depth)
      invariant i > |dAtA| ==> SkipFrom(hop, 0, dAtA, 0) == Err(UnexpectedEOF)
      decreases |dAtA| - i
    {
      var h := HopBy(hop, dAtA, i, depth);
      if h.Err? {
        return Err(h.error);
      }
      if i + h.value.used <= |dAtA| { assert dAtA[i..][h.value.used..] == dAtA[i + h.value.used..]; }
      i, depth := i + h.value.used, h.value.depth;
      if depth == 0 {
        return Ok(i);
      }
    }
    r := Err(UnexpectedEOF);
  }

  // The body of the loop in UnmarshalVT up to the point where the value is stored.
  method FieldAt(schema: Schema, dAtA: seq<byte>, i: nat) returns (r: Result<Field>)
    requires i <= |dAtA|
    ensures r == NextField(schema, i, dAtA[i..])
  {
    var tag := DecodeVarint(Wide, dAtA, i);
    if tag.Err? {
      return Err(tag.error);
    }
    var num, wire := FieldNum(tag.value.value), WireType(tag.value.value);
    if wire == 4 {
      return Err(EndGroup);
    }
    if num <= 0 {
      return Err(IllegalTag);
    }
    var kind := schema(num);
    if kind == Delimited {
      if wire != 2 {
        return Err(WrongWireType);
      }
      r := BytesAt(num, dAtA, i, tag.value.used);
    } else if kind == Integer {
      if wire != 0 {
        return Err(WrongWireType);
      }
      r := IntAt(num, dAtA, i, tag.value.used);
    } else {
      r := UnknownAt(dAtA, i);
    }
  }

  method BytesAt(num: int, dAtA: seq<byte>, i: nat, u: nat) returns (r: Result<Field>)
    requires 0 < u <= |dAtA| - i
    ensures r == ReadBytes(num, i, dAtA[i..], u)
  {
    assert dAtA[i..][u..] == dAtA[i + u..];
    var n := DecodeVarint(Wide, dAtA, i + u);
    if n.Err? {
      return Err(n.error);
    }
    var from := i + u + n.value.used;
    var post := from + n.value.value;
    if n.value.value >= TWO_63 || post >= TWO_63 {
      return Err(InvalidLength);
    }
    if post > |dAtA| {
      return Err(UnexpectedEOF);
    }
    assert dAtA[i..][u + n.value.used..post - i] == dAtA[from..post];
    r := Ok(Known(num, Bytes(dAtA[from..post]), post - i));
  }

  method IntAt(num: int, dAtA: seq<byte>, i: nat, u: nat) returns (r: Result<Field>)
    requires 0 < u <= |dAtA| - i
    ensures r == ReadInt(num, dAtA[i..], u)
  {
    assert dAtA[i..][u..] == dAtA[i + u..];
    var v := DecodeVarint(Narrow, dAtA, i + u);
    if v.Err? {
      return Err(v.error);
    }
    r := Ok(Known(num, Int(Signed32(v.value.value)), u + v.value.used));
  }

  method UnknownAt(dAtA: seq<byte>, i: nat) returns (r: Result<Field>)
    requires i <= |dAtA|
    ensures r == ReadUnknown(i, dAtA[i..])
  {
    var skippy := SkipField(dAtA[i..]);
    if skippy.Err? {
      return Err(skippy.error);
    }
    if i + skippy.value >= TWO_63 {
      return Err(InvalidLength);
    }
    if i + skippy.value > |dAtA| {
      return Err(UnexpectedEOF);
    }
    r := Ok(Unknown(skippy.value));
  }

  /** UnmarshalVT into a message that may already hold something. */
  method UnmarshalVT<A>(schema: Schema, put: Put<A>, dAtA: seq<byte>, into: Msg<A>) returns (r: Result<Msg<A>>)
    ensures r == Parse(FieldReader(schema), put, 0, dAtA, into)
  {
    r := UnmarshalLoop(FieldReader(schema), schema, put, dAtA, into);
  }

  // next reads the fields of the schema
  ghost predicate Reads(next: Reader, schema: Schema) {
    forall base: nat, s: seq<byte> {:trigger NextField(schema, base, s)} :: next(base, s) == NextField(schema, base, s)
  }

  method FieldBy(ghost next: Reader, schema: Schema, dAtA: seq<byte>, i: nat) returns (r: Result<Field>)
    requires i <= |dAtA| && Reads(next, schema)
    ensures r == next(i, dAtA[i..])
  {
    r := FieldAt(schema, dAtA, i);
  }

  method UnmarshalLoop<A>(ghost next: Reader, schema: Schema, put: Put<A>, dAtA: seq<byte>, into: Msg<A>)
    returns (r: Result<Msg<A>>)
    requires Inside(next) && Reads(next, schema)
    ensures r == Parse(next, put, 0, dAtA, into)
  {
    var i: nat, m := 0, into;
    assert dAtA[0..] == dAtA;
    while i < |dAtA|
      invariant i <= |dAtA|
      invariant Parse(next, put, 0, dAtA, into) == Parse(next, put, i, dAtA[i..], m)
      decreases |dAtA| - i
    {
      var f := FieldBy(next, schema, dAtA, i);
      if f.Err? {
        return Err(f.error);
      }
      var post := i + f.value.used;
      assert dAtA[i..][f.value.used..] == dAtA[post..] && dAtA[i..][..f.value.used] == dAtA[i..post];
      if f.value.Unknown? {
        m := m.(unknown := m.unknown + dAtA[i..post]);
      } else {
        var a := put(m.fields, f.value.num, f.value.val);
        if a.Err? {
          return Err(a.error);
        }
        m := m.(fields := a.value);
      }
      i := post;
    }
    r := Ok(m);
  }
}
