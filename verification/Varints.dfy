/**
 Base 128 varints, as the generated codecs write and read them
 (remote/remote_vtproto.pb.go, actor/actor_vtproto.pb.go): sov, encodeVarint and
 the shift-and-or loop that every integer, length and tag is decoded with.
 */
module Varints {

  type byte = x: int | 0 <= x < 256

  const TWO_32: int := 0x1_0000_0000
  const TWO_63: int := 0x8000_0000_0000_0000
  const TWO_64: int := 0x1_0000_0000_0000_0000

  type uint64 = x: int | 0 <= x < TWO_64
  type int32 = x: int | -0x8000_0000 <= x < 0x8000_0000

  datatype Error =
    | IntOverflow
    | UnexpectedEOF
    | InvalidLength
    | EndGroup
    | IllegalTag
    | WrongWireType
    | UnexpectedEndOfGroup
    | IllegalWireType

  datatype Result<+T> = Ok(value: T) | Err(error: Error)

  // ---- writing ----

  // The base-128 digits, least significant first, all but the last marked with the high bit.
  function Digits(v: nat): (s: seq<byte>)
    ensures |s| >= 1
    decreases v
  {
    if v < 128 then [v] else [v % 128 + 128] + Digits(v / 128)
  }

  // bits.Len64
  function BitLen(x: nat): nat {
    if x == 0 then 0 else 1 + BitLen(x / 2)
  }

  // x | 1
  function OrOne(x: nat): nat { Or(x, 1) }

  // sov
  function Sov(x: nat): nat { (BitLen(OrOne(x)) + 6) / 7 }

  lemma {:induction false} BitLenOrOne(x: nat)
    ensures BitLen(OrOne(x)) == if x == 0 then 1 else BitLen(x)
  {
    OrNothing(x / 2);
    assert OrOne(x) / 2 == x / 2;
    assert x == 0 ==> BitLen(OrOne(x)) == 1 + BitLen(0);
  }

  lemma {:induction false} BitLenShift(x: nat)
    requires x >= 128
    ensures BitLen(x) == 7 + BitLen(x / 128)
  {
    var x3 := x / 2 / 2 / 2;
    assert BitLen(x / 2) == 1 + BitLen(x / 2 / 2) && BitLen(x / 2 / 2) == 1 + BitLen(x3);
    assert x3 == x / 8 && x3 >= 16;
    var x5 := x3 / 2 / 2;
    assert BitLen(x3) == 2 + BitLen(x5);
    assert x5 == x / 32 && x5 >= 4;
    assert BitLen(x5) == 2 + BitLen(x5 / 2 / 2);
    assert x5 / 2 / 2 == x / 128;
  }

  function Pow2(n: nat): nat { if n == 0 then 1 else 2 * Pow2(n - 1) }

  lemma {:induction false} BitLenAtMost(x: nat, n: nat)
    requires x < Pow2(n)
    ensures BitLen(x) <= n
  {
    if x > 0 { BitLenAtMost(x / 2, n - 1); }
  }

  /** sov is the number of base-128 digits. */
  lemma {:induction false} SovCountsDigits(x: nat)
    ensures Sov(x) == |Digits(x)|
    decreases x
  {
    BitLenOrOne(x);
    if x >= 128 {
      BitLenOrOne(x / 128);
      BitLenShift(x);
      SovCountsDigits(x / 128);
    } else {
      assert Pow2(7) == 128;
      BitLenAtMost(x, 7);
    }
  }

  lemma {:induction false} NextDigit(done: seq<byte>, w: nat, all: seq<byte>)
    requires w >= 128 && done + Digits(w) == all
    ensures done + [w % 128 + 128] + Digits(w / 128) == all && |Digits(w)| == 1 + |Digits(w / 128)|
  {
    assert done + [w % 128 + 128] + Digits(w / 128) == done + ([w % 128 + 128] + Digits(w / 128));
  }

  /** encodeVarint: the digits go into the sov(v) bytes before offset. */
  method EncodeVarint(dAtA: array<byte>, offset: nat, v: uint64) returns (base: nat)
    requires Sov(v) <= offset <= dAtA.Length
    modifies dAtA
    ensures base == offset - Sov(v) == offset - |Digits(v)|
    ensures dAtA[base..offset] == Digits(v)
    ensures forall j :: 0 <= j < dAtA.Length && !(base <= j < offset) ==> dAtA[j] == old(dAtA[j])
  {
    SovCountsDigits(v);
    base := offset - Sov(v);
    var at, w := base, v as int;
    while w >= 128
      invariant base <= at < offset && 0 <= w
      invariant at + |Digits(w)| == offset
      invariant dAtA[base..at] + Digits(w) == Digits(v)
      invariant forall j :: 0 <= j < dAtA.Length && !(base <= j < offset) ==> dAtA[j] == old(dAtA[j])
      decreases w
    {
      ghost var done := dAtA[base..at];
      NextDigit(done, w, Digits(v));
      dAtA[at] := w % 128 + 128;
      assert dAtA[base..at + 1] == done + [w % 128 + 128];
      w := w / 128;
      at := at + 1;
    }
    ghost var done := dAtA[base..at];
    dAtA[at] := w;
    assert dAtA[base..offset] == done + [w];
  }

  // ---- reading ----

  // A decoded number and how many bytes it took.
  datatype Decoded = Decoded(value: nat, used: nat)

  /** The number a varint stands for: seven bits per byte, least significant
      first, up to the first byte below 128. */
  function Number(s: seq<byte>): (r: Result<Decoded>)
    ensures r.Ok? ==> 0 < r.value.used <= |s|
    ensures r.Err? ==> r.error == UnexpectedEOF
    decreases |s|
  {
    if s == [] then Err(UnexpectedEOF)
    else if s[0] < 128 then Ok(Decoded(s[0], 1))
    else
      var r := Number(s[1..]);
      if r.Ok? then Ok(Decoded(s[0] - 128 + 128 * r.value.value, r.value.used + 1)) else r
  }

  // The loop gives up at shift 70, after ten bytes.
  const LIMIT: nat := 10

  // The width of the accumulator: 64 bits, or 32 for an int32 field. Bits beyond it fall off.
  datatype Width = Wide | Narrow

  function Modulus(w: Width): (m: nat)
    ensures m > 0
  {
    if w.Wide? then TWO_64 else TWO_32
  }

  // x modulo m, by repeated subtraction
  function Trunc(x: nat, m: nat): (r: nat)
    requires m > 0
    ensures r < m
    decreases x
  {
    if x < m then x else Trunc(x - m, m)
  }

  // x divided by m
  function Quot(x: nat, m: nat): nat
    requires m > 0
    decreases x
  {
    if x < m then 0 else 1 + Quot(x - m, m)
  }

  // Trunc is the remainder and Quot the quotient: they differ from x by a multiple of m.
  lemma {:induction false} TruncIsMod(x: nat, m: nat) returns (q: nat)
    requires m > 0
    ensures x == q * m + Trunc(x, m) && q == Quot(x, m)
    decreases x
  {
    if x < m {
      q := 0;
    } else {
      q := TruncIsMod(x - m, m);
      assert q * m + m == (q + 1) * m;
      q := q + 1;
    }
  }

  function Low(w: Width, x: nat): nat { Trunc(x, Modulus(w)) }

  // Reading a bit pattern as a two's complement number.
  function Signed32(x: nat): int32
    requires x < TWO_32
  {
    if x < 0x8000_0000 then x else x - TWO_32
  }

  // uint64(v) of an int32 sign-extends.
  function Extend(v: int32): uint64 { if v < 0 then v + TWO_64 else v }

  // What the loop returns with an accumulator of the given width.
  function Varint(w: Width, s: seq<byte>): (r: Result<Decoded>)
    ensures r.Ok? ==> 0 < r.value.used <= |s| && r.value.value < Modulus(w)
  {
    var r := Number(s);
    if (if r.Ok? then r.value.used > LIMIT else |s| >= LIMIT) then Err(IntOverflow)
    else if r.Ok? then Ok(Decoded(Low(w, r.value.value), r.value.used))
    else r
  }

  // 2^7k * v
  function Shifted(v: nat, k: nat): nat {
    if k == 0 then v else 128 * Shifted(v, k - 1)
  }

  lemma {:induction false} DigitsNumber(v: nat, rest: seq<byte>)
    ensures Number(Digits(v) + rest) == Ok(Decoded(v, |Digits(v)|))
    decreases v
  {
    assert (Digits(v) + rest)[0] == Digits(v)[0];
    if v >= 128 {
      assert (Digits(v) + rest)[1..] == Digits(v / 128) + rest;
      DigitsNumber(v / 128, rest);
    }
  }

  lemma {:induction false} DigitsFew(v: nat, n: nat)
    requires n >= 1 && v < Shifted(1, n)
    ensures |Digits(v)| <= n
    decreases v
  {
    if v >= 128 { DigitsFew(v / 128, n - 1); }
  }

  lemma {:induction false} LimitFits()
    ensures Shifted(1, LIMIT) > TWO_64
  {
    assert Shifted(1, 2) == 0x4000;
    assert Shifted(1, 4) == 0x1000_0000;
    assert Shifted(1, 6) == 0x400_0000_0000;
    assert Shifted(1, 8) == 0x100_0000_0000_0000;
  }

  lemma {:induction false} DigitsRead(v: uint64, rest: seq<byte>)
    ensures Number(Digits(v) + rest) == Ok(Decoded(v, |Digits(v)|)) && |Digits(v)| <= LIMIT
  {
    LimitFits();
    DigitsNumber(v, rest);
    DigitsFew(v, LIMIT);
  }

  /** Reading back what encodeVarint wrote: the same number, using exactly the
      bytes written, whatever follows. */
  lemma {:induction false} VarintRoundTrip(v: uint64, rest: seq<byte>)
    ensures Varint(Wide, Digits(v) + rest) == Ok(Decoded(v, |Digits(v)|))
  {
    DigitsRead(v, rest);
  }

  /** The same for an int32, negative ones included, through its sign-extended form. */
  lemma {:induction false} Int32RoundTrip(v: int32, rest: seq<byte>)
    ensures var r := Varint(Narrow, Digits(Extend(v)) + rest);
            r.Ok? && Signed32(r.value.value) == v && r.value.used == |Digits(Extend(v))|
  {
    DigitsRead(Extend(v), rest);
    ExtendLow(v);
  }

  lemma {:induction false} ExtendLow(v: int32)
    ensures Signed32(Low(Narrow, Extend(v))) == v
  {
    if v < 0 {
      TruncMinus(v + TWO_64, TWO_32 - 1);
    }
  }

  // Multiples of 2^32 do not matter to the low half.
  lemma {:induction false} TruncMinus(x: nat, q: nat)
    requires q * TWO_32 <= x
    ensures Trunc(x, TWO_32) == Trunc(x - q * TWO_32, TWO_32)
    decreases q
  {
    if q > 0 { TruncMinus(x - TWO_32, q - 1); }
  }

  /** Every int32 field that is accepted is the low half of the varint on the wire. */
  lemma {:induction false} Int32Truncates(s: seq<byte>)
    ensures Varint(Wide, s).Ok? <==> Varint(Narrow, s).Ok?
    ensures Varint(Wide, s).Ok? ==>
              Varint(Narrow, s).value == Decoded(Low(Narrow, Varint(Wide, s).value.value), Varint(Wide, s).value.used)
  {
    if Number(s).Ok? { LowTwice(Number(s).value.value); }
  }

  lemma {:induction false} LowTwice(x: nat)
    ensures Low(Narrow, Low(Wide, x)) == Low(Narrow, x)
    decreases x
  {
    if x >= TWO_64 {
      LowTwice(x - TWO_64);
      TruncMinus(x, TWO_32);
    }
  }

  // The result depends only on the bytes it reports as used.
  lemma {:induction false} NumberSame(s: seq<byte>, t: seq<byte>)
    requires Number(s).Ok?
    requires var u := Number(s).value.used; u <= |t| && s[..u] == t[..u]
    ensures Number(t) == Number(s)
    decreases |s|
  {
    var u := Number(s).value.used;
    assert s[..u][0] == t[..u][0];
    if s[0] >= 128 {
      assert s[1..][..u - 1] == s[..u][1..] && t[1..][..u - 1] == t[..u][1..];
      NumberSame(s[1..], t[1..]);
    }
  }

  lemma {:induction false} VarintSame(w: Width, s: seq<byte>, t: seq<byte>)
    requires Varint(w, s).Ok?
    requires var u := Varint(w, s).value.used; u <= |t| && s[..u] == t[..u]
    ensures Varint(w, t) == Varint(w, s)
  {
    NumberSame(s, t);
  }

  // ---- the loop itself ----

  lemma {:induction false} ShiftedSum(a: nat, b: nat, k: nat)
    ensures Shifted(a + b, k) == Shifted(a, k) + Shifted(b, k)
  {
    if k > 0 { ShiftedSum(a, b, k - 1); }
  }

  lemma {:induction false} ShiftedDigit(a: nat, k: nat)
    ensures Shifted(128 * a, k) == Shifted(a, k + 1)
  {
    if k > 0 { ShiftedDigit(a, k - 1); }
  }

  // The result, given the sum and the count of the bytes before.
  function After(sum: nat, k: nat, r: Result<Decoded>): Result<Decoded> {
    if r.Ok? then Ok(Decoded(sum + Shifted(r.value.value, k), k + r.value.used)) else r
  }

  lemma {:induction false} OneByte(t: seq<byte>, sum: nat, k: nat)
    requires t != []
    ensures After(sum, k, Number(t))
            == if t[0] < 128 then Ok(Decoded(sum + Shifted(t[0], k), k + 1))
               else After(sum + Shifted(t[0] - 128, k), k + 1, Number(t[1..]))
  {
    var r := Number(t[1..]);
    if t[0] >= 128 && r.Ok? {
      ShiftedSum(t[0] - 128, 128 * r.value.value, k);
      ShiftedDigit(r.value.value, k);
    }
  }

  // b & 0x7F
  function Seven(b: byte): byte { if b < 128 then b else b - 128 }

  lemma {:induction false} ShiftedMore(a: nat, b: nat, k: nat)
    requires a <= b
    ensures Shifted(a, k) <= Shifted(b, k)
  {
    ShiftedSum(a, b - a, k);
  }

  // k digits stay below 2^7k.
  lemma {:induction false} BelowNext(sum: nat, d: nat, k: nat)
    requires sum < Shifted(1, k) && d < 128
    ensures sum + Shifted(d, k) < Shifted(1, k + 1)
  {
    ShiftedSum(1, d, k);
    ShiftedMore(d + 1, 128, k);
    ShiftedDigit(1, k);
  }

  // ---- the or of machine words, bit by bit ----

  // a | b
  function Or(a: nat, b: nat): nat {
    if a == 0 && b == 0 then 0
    else (if a % 2 == 1 || b % 2 == 1 then 1 else 0) + 2 * Or(a / 2, b / 2)
  }

  // v << n, without a limit
  function Shl(v: nat, n: nat): nat { if n == 0 then v else 2 * Shl(v, n - 1) }

  // The lowest n bits.
  function LowBits(x: nat, n: nat): nat { if n == 0 then 0 else x % 2 + 2 * LowBits(x / 2, n - 1) }

  lemma {:induction false} OrNothing(x: nat)
    ensures Or(x, 0) == x
    decreases x
  {
    if x > 0 { OrNothing(x / 2); }
  }

  lemma {:induction false} OrZero(x: nat)
    ensures Or(0, x) == x
    decreases x
  {
    if x > 0 { OrZero(x / 2); }
  }

  /** Or-ing bits that start at n into a word whose bits end below n adds them,
      and dropping the bits beyond the width before or after makes no difference. */
  lemma {:induction false} OrAdds(a: nat, d: nat, n: nat, width: nat)
    requires a < Shl(1, n)
    ensures Or(LowBits(a, width), LowBits(Shl(d, n), width)) == LowBits(a + Shl(d, n), width)
    decreases n
  {
    if n == 0 {
      LowZero(width);
      OrZero(LowBits(d, width));
    } else if width > 0 {
      var high := Shl(d, n - 1);
      LowOfSum(a, high, width);
      OrAdds(a / 2, d, n - 1, width - 1);
      OrOfDigits(a % 2, LowBits(a / 2, width - 1), LowBits(high, width - 1));
    }
  }

  lemma {:induction false} LowOfSum(a: nat, high: nat, width: nat)
    requires width > 0
    ensures LowBits(a + 2 * high, width) == a % 2 + 2 * LowBits(a / 2 + high, width - 1)
    ensures LowBits(2 * high, width) == 2 * LowBits(high, width - 1)
  {
    assert (a + 2 * high) % 2 == a % 2 && (a + 2 * high) / 2 == a / 2 + high;
    assert (2 * high) % 2 == 0 && (2 * high) / 2 == high;
  }

  lemma {:induction false} LowZero(n: nat)
    ensures LowBits(0, n) == 0
  {
    if n > 0 { LowZero(n - 1); }
  }

  lemma {:induction false} OrOfDigits(bit: nat, x: nat, y: nat)
    requires bit < 2
    ensures Or(bit + 2 * x, 2 * y) == bit + 2 * Or(x, y)
  {
  }

  lemma {:induction false} TruncHalves(x: nat, m: nat)
    requires m > 0
    ensures Trunc(x, 2 * m) == x % 2 + 2 * Trunc(x / 2, m)
    decreases x
  {
    if x >= 2 * m {
      TruncHalves(x - 2 * m, m);
      assert (x - 2 * m) % 2 == x % 2 && (x - 2 * m) / 2 == x / 2 - m;
    }
  }

  lemma {:induction false} TruncIsLowBits(x: nat, n: nat)
    ensures Pow2(n) > 0 && Trunc(x, Pow2(n)) == LowBits(x, n)
    decreases n
  {
    if n > 0 {
      TruncIsLowBits(x / 2, n - 1);
      TruncHalves(x, Pow2(n - 1));
    } else {
      TruncToNothing(x);
    }
  }

  lemma {:induction false} TruncToNothing(x: nat)
    ensures Trunc(x, 1) == 0
  {
    if x > 0 { TruncToNothing(x - 1); }
  }

  function Bits(w: Width): nat { if w.Wide? then 64 else 32 }

  lemma {:induction false} Pow2Byte(n: nat)
    ensures Pow2(n + 8) == 256 * Pow2(n)
  {
    assert Pow2(n + 2) == 4 * Pow2(n);
    assert Pow2(n + 4) == 16 * Pow2(n);
    assert Pow2(n + 6) == 64 * Pow2(n);
  }

  lemma {:induction false} PowersOfTwo()
    ensures Pow2(32) == TWO_32 && Pow2(64) == TWO_64
  {
    Pow2Byte(0);
    Pow2Byte(8);
    Pow2Byte(16);
    Pow2Byte(24);
    Pow2Byte(32);
    Pow2Byte(40);
    Pow2Byte(48);
    Pow2Byte(56);
  }

  lemma {:induction false} LowIsLowBits(w: Width, x: nat)
    ensures Low(w, x) == LowBits(x, Bits(w))
  {
    PowersOfTwo();
    TruncIsLowBits(x, Bits(w));
  }

  lemma {:induction false} ShiftedIsShl(v: nat, k: nat)
    ensures Shifted(v, k) == Shl(v, 7 * k)
  {
    if k > 0 {
      ShiftedIsShl(v, k - 1);
      var n := 7 * (k - 1);
      assert Shl(v, n + 2) == 4 * Shl(v, n);
      assert Shl(v, n + 4) == 16 * Shl(v, n);
      assert Shl(v, n + 6) == 64 * Shl(v, n);
    }
  }

  lemma {:induction false} OrInAdds(w: Width, sum: nat, d: nat, k: nat)
    requires sum < Shifted(1, k)
    ensures Or(Low(w, sum), Low(w, Shifted(d, k))) == Low(w, sum + Shifted(d, k))
  {
    ShiftedIsShl(1, k);
    ShiftedIsShl(d, k);
    LowIsLowBits(w, sum);
    LowIsLowBits(w, Shifted(d, k));
    LowIsLowBits(w, sum + Shifted(d, k));
    OrAdds(sum, d, 7 * k, Bits(w));
  }

  // acc |= (b & 0x7F) << 7k, in words of the given width
  method OrIn(w: Width, acc: nat, b: byte, k: nat, ghost sum: nat) returns (acc1: nat)
    requires acc == Low(w, sum) && sum < Shifted(1, k)
    ensures acc1 == Low(w, sum + Shifted(Seven(b), k)) && sum + Shifted(Seven(b), k) < Shifted(1, k + 1)
  {
    OrInAdds(w, sum, Seven(b), k);
    BelowNext(sum, Seven(b), k);
    acc1 := Or(acc, Low(w, Shifted(Seven(b), k)));
  }

  /** The decode loop of the source, which truncates its accumulator at every step. */
  method DecodeVarint(w: Width, dAtA: seq<byte>, start: nat) returns (r: Result<Decoded>)
    requires start <= |dAtA|
    ensures r == Varint(w, dAtA[start..])
  {
    var k, acc := 0, 0;
    ghost var sum := 0;
    ghost var t := dAtA[start..];
    ghost var all := Number(t);
    while 7 * k < 64
      invariant k <= LIMIT && start + k <= |dAtA| && t == dAtA[start + k..] && sum >= 0
      invariant acc == Low(w, sum) && sum < Shifted(1, k)
      invariant all == After(sum, k, Number(t))
      decreases LIMIT - k
    {
      if start + k >= |dAtA| {
        return Err(UnexpectedEOF);
      }
      var b := dAtA[start + k];
      OneByte(t, sum, k);
      acc := OrIn(w, acc, b, k, sum);
      if b < 128 {
        return Ok(Decoded(acc, k + 1));
      }
      sum, k, t := sum + Shifted(b - 128, k), k + 1, t[1..];
    }
    return Err(IntOverflow);
  }
}
