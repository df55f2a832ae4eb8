/**
 The message structure of the Protocol Buffers encoding, as the generated
 UnmarshalVT methods parse it and the MarshalToSizedBufferVT methods write it:
 a message is a series of fields, each a tag and a value; fields the message
 does not know are skipped over and kept as they are.

 Positions: s is what is left of the input and base its index in the buffer,
 which matters only to the tests for an overflowing int.
 */
module Wire {
  import opened Varints

  // A field's value, and what a message expects under a field number.
  datatype Val = Bytes(b: seq<byte>) | Int(n: int32)
  datatype Kind = Absent | Delimited | Integer

  type Schema = int -> Kind

  // Every generated struct: its fields, and the bytes of the unknown ones.
  datatype Msg<A> = Msg(fields: A, unknown: seq<byte>)

  // int(wire & 0x7)
  function WireType(tag: nat): nat { Trunc(tag, 8) }

  // int32(wire >> 3)
  function FieldNum(tag: nat): int32 { Signed32(Trunc(Quot(tag, 8), TWO_32)) }

  // ---- skip ----

  // One round of the loop in skip: how far it went and the group depth after it.
  datatype Hop = Hop(used: nat, depth: nat)

  function HopOver(base: nat, s: seq<byte>, depth: nat): (r: Result<Hop>)
    ensures r.Ok? ==> r.value.used > 0
  {
    var tag := Varint(Wide, s);
    if tag.Err? then Err(tag.error)
    else
      var u := tag.value.used;
      var wire := WireType(tag.value.value);
      if wire == 0 then
        var v := Varint(Wide, s[u..]);
        if v.Err? then Err(v.error) else Ok(Hop(u + v.value.used, depth))
      else if wire == 1 then Ok(Hop(u + 8, depth))
      else if wire == 2 then
        var n := Varint(Wide, s[u..]);
        if n.Err? then Err(n.error)
        else if n.value.value >= TWO_63 then Err(InvalidLength)
        else
          var used := u + n.value.used + n.value.value;
          if base + used >= TWO_63 then Err(InvalidLength) else Ok(Hop(used, depth))
      else if wire == 3 then Ok(Hop(u, depth + 1))
      else if wire == 4 then
        if depth == 0 then Err(UnexpectedEndOfGroup) else Ok(Hop(u, depth - 1))
      else if wire == 5 then Ok(Hop(u + 4, depth))
      else Err(IllegalWireType)
  }

  // A round of the loop, as a value; the loop itself is written over any that moves forward.
  type Hopper = (nat, seq<byte>, nat) -> Result<Hop>

  ghost predicate Forward(hop: Hopper) {
    forall base: nat, s: seq<byte>, depth: nat :: hop(base, s, depth).Ok? ==> hop(base, s, depth).value.used > 0
  }

  // hop is a round of the loop
  ghost predicate Hops(hop: Hopper) {
    forall base: nat, s: seq<byte>, depth: nat {:trigger HopOver(base, s, depth)} ::
      hop(base, s, depth) == HopOver(base, s, depth)
  }

  function HopRound(): (hop: Hopper)
    ensures Forward(hop) && Hops(hop)
  {
    (base: nat, s: seq<byte>, depth: nat) => HopOver(base, s, depth)
  }

  // skip from index base on; the result is the index after the field, which may lie beyond the input
  function SkipFrom(hop: Hopper, base: nat, s: seq<byte>, depth: nat): (r: Result<nat>)
    requires Forward(hop)
    ensures r.Ok? ==> r.value > base
    decreases |s|
  {
    if s == [] then Err(UnexpectedEOF)
    else
      var h := hop(base, s, depth);
      if h.Err? then Err(h.error)
      else if h.value.depth == 0 then Ok(base + h.value.used)
      else if h.value.used >= |s| then Err(UnexpectedEOF)
      else SkipFrom(hop, base + h.value.used, s[h.value.used..], h.value.depth)
  }

  function Skip(s: seq<byte>): (r: Result<nat>)
    ensures r.Ok? ==> r.value > 0
  {
    SkipFrom(HopRound(), 0, s, 0)
  }

  // ---- one field ----

  datatype Field = Known(num: int, val: Val, used: nat) | Unknown(used: nat)

  // The field is not empty and lies in s.
  predicate Spans(f: Field, s: seq<byte>) {
    0 < f.used <= |s| && (f.Known? && f.val.Bytes? ==> |f.val.b| < |s|)
  }

  function NextField(schema: Schema, base: nat, s: seq<byte>): (r: Result<Field>)
    ensures r.Ok? ==> Spans(r.value, s)
  {
    var tag := Varint(Wide, s);
    if tag.Err? then Err(tag.error)
    else
      var num := FieldNum(tag.value.value);
      var wire := WireType(tag.value.value);
      if wire == 4 then Err(EndGroup)
      else if num <= 0 then Err(IllegalTag)
      else
        var u := tag.value.used;
        match schema(num)
        case Delimited => if wire != 2 then Err(WrongWireType) else ReadBytes(num, base, s, u)
        case Integer => if wire != 0 then Err(WrongWireType) else ReadInt(num, s, u)
        case Absent => ReadUnknown(base, s)
  }

  function ReadBytes(num: int, base: nat, s: seq<byte>, u: nat): (r: Result<Field>)
    requires 0 < u <= |s|
    ensures r.Ok? ==> Spans(r.value, s)
  {
    var n := Varint(Wide, s[u..]);
    if n.Err? then Err(n.error)
    else if n.value.value >= TWO_63 then Err(InvalidLength)
    else
      var from := u + n.value.used;
      var post := from + n.value.value;
      if base + post >= TWO_63 then Err(InvalidLength)
      else if post > |s| then Err(UnexpectedEOF)
      else Ok(Known(num, Bytes(s[from..post]), post))
  }

  function ReadInt(num: int, s: seq<byte>, u: nat): (r: Result<Field>)
    requires 0 < u <= |s|
    ensures r.Ok? ==> Spans(r.value, s)
  {
    var v := Varint(Narrow, s[u..]);
    if v.Err? then Err(v.error) else Ok(Known(num, Int(Signed32(v.value.value)), u + v.value.used))
  }

  function ReadUnknown(base: nat, s: seq<byte>): (r: Result<Field>)
    ensures r.Ok? ==> Spans(r.value, s)
  {
    var n := Skip(s);
    if n.Err? then Err(n.error)
    else if base + n.value >= TWO_63 then Err(InvalidLength)
    else if n.value > |s| then Err(UnexpectedEOF)
    else Ok(Unknown(n.value))
  }

  // ---- a whole message ----

  // Storing a field: the assignment or append in the field's case of UnmarshalVT.
  type Put<!A> = (A, int, Val) -> Result<A>

  // Reading the next field, as a value; the parser is written over any that stays in the input.
  type Reader = (nat, seq<byte>) -> Result<Field>

  ghost predicate Inside(next: Reader) {
    forall base: nat, s: seq<byte> :: next(base, s).Ok? ==> Spans(next(base, s).value, s)
  }

  function FieldReader(schema: Schema): (next: Reader)
    ensures Inside(next)
  {
    (base: nat, s: seq<byte>) => NextField(schema, base, s)
  }

  /** UnmarshalVT: terminates on every input and stays inside it. */
  function Parse<A>(next: Reader, put: Put<A>, base: nat, s: seq<byte>, m: Msg<A>): Result<Msg<A>>
    requires Inside(next)
    decreases |s|
  {
    if s == [] then Ok(m)
    else
      var f := next(base, s);
      if f.Err? then Err(f.error)
      else
        var used := f.value.used;
        if f.value.Unknown? then
          Parse(next, put, base + used, s[used..], m.(unknown := m.unknown + s[..used]))
        else
          var a := put(m.fields, f.value.num, f.value.val);
          if a.Err? then Err(a.error) else Parse(next, put, base + used, s[used..], m.(fields := a.value))
  }

  // ---- writing ----

  // A field as MarshalToSizedBufferVT lays it out: tag, length if any, value.
  function FieldBytes(num: int, v: Val): (s: seq<byte>)
    requires 1 <= num <= 15
    ensures |s| > 0
  {
    match v
    case Bytes(b) => [8 * num + 2] + Digits(|b|) + b
    case Int(n) => [8 * num] + Digits(Extend(n))
  }

  datatype Entry = Entry(num: int, val: Val)

  predicate Fits(schema: Schema, e: Entry) {
    1 <= e.num <= 15 && (if e.val.Bytes? then schema(e.num) == Delimited else schema(e.num) == Integer)
  }

  predicate AllFit(schema: Schema, es: seq<Entry>) { forall i :: 0 <= i < |es| ==> Fits(schema, es[i]) }

  function Encode(schema: Schema, es: seq<Entry>): seq<byte>
    requires AllFit(schema, es)
  {
    if es == [] then [] else FieldBytes(es[0].num, es[0].val) + Encode(schema, es[1..])
  }

  function PutAll<A>(put: Put<A>, a: A, es: seq<Entry>): Result<A> {
    if es == [] then Ok(a)
    else
      var r := put(a, es[0].num, es[0].val);
      if r.Err? then r else PutAll(put, r.value, es[1..])
  }

  // Bytes that consist of fields the message does not know.
  predicate Unknowns(next: Reader, u: seq<byte>)
    requires Inside(next)
    decreases |u|
  {
    u == []
    || var f := next(0, u);
       f.Ok? && f.value.Unknown? && Unknowns(next, u[f.value.used..])
  }
}
