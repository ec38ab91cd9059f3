// The protobuf wire format: varints, the four wire types, building and
// parsing messages, and the zigzag mapping.
module Protobuf {
  import opened Common

  const U64_LIMIT: int := 0x1_0000_0000_0000_0000

  type U64 = x: int | 0 <= x < U64_LIMIT

  // A byte slice: its length fits 64 bits.
  type Slice = b: Bytes | |b| < U64_LIMIT

  // Wire types.
  const VARINT := 0
  const FIXED64 := 1
  const LENGTH := 2
  const FIXED32 := 5

  datatype Payload = Varint(v: U64) | Fixed64(v64: U64) | Length(b: Slice) | Fixed32(v32: U32)

  datatype Field = Field(num: U32, payload: Payload)

  datatype Error =
    | BadKey
    | BadVarint(num: U32)
    | BadLength(num: U32)
    | TruncatedBytes(num: U32)
    | TruncatedFixed32(num: U32)
    | TruncatedFixed64(num: U32)
    | UnsupportedType(kind: nat)

  // ---------------------------------------------------------------------
  // Varints

  const MAX_VARINT := 10

  function VarintBytes(v: nat): (b: Bytes)
    ensures b != []
  {
    if v < 0x80 then [v] else [v % 0x80 + 0x80] + VarintBytes(v / 0x80)
  }

  // What still fits in 64 bits after i bytes.
  function Room(i: nat): (room: nat)
    requires i <= MAX_VARINT
    ensures room >= 1
    decreases MAX_VARINT - i
  {
    if i == MAX_VARINT then 1 else if i == MAX_VARINT - 1 then 2 else 0x80 * Room(i + 1)
  }

  lemma RoomAtStart()
    ensures Room(0) == U64_LIMIT
  {
  }

  // The value and the rest of the input after a varint of which i bytes are
  // already read: at most ten bytes, and the tenth no more than 1.
  function ReadVarint(s: Bytes, i: nat): (r: Option<(nat, Bytes)>)
    ensures r.Some? ==> |r.value.1| < |s| && i < MAX_VARINT && r.value.0 < Room(i)
  {
    if s == [] || i >= MAX_VARINT then None
    else if s[0] < 0x80 then
      if i == MAX_VARINT - 1 && s[0] > 1 then None else Some((s[0], s[1..]))
    else match ReadVarint(s[1..], i + 1)
      case None => None
      case Some((v, rest)) => Some((s[0] - 0x80 + 0x80 * v, rest))
  }

  lemma {:induction false} VarintReads(v: nat, i: nat, rest: Bytes)
    requires i < MAX_VARINT && v < Room(i)
    ensures ReadVarint(VarintBytes(v) + rest, i) == Some((v, rest))
    ensures |VarintBytes(v)| + i <= MAX_VARINT
    decreases v
  {
    var s := VarintBytes(v) + rest;
    if v < 0x80 {
      assert s[1..] == rest;
    } else {
      assert s[1..] == VarintBytes(v / 0x80) + rest;
      VarintReads(v / 0x80, i + 1, rest);
    }
  }

  // Every 64-bit value reads back, with whatever follows it untouched, from at
  // most ten bytes.
  lemma VarintInverts(v: U64, rest: Bytes)
    ensures ReadVarint(VarintBytes(v) + rest, 0) == Some((v as nat, rest))
    ensures |VarintBytes(v)| <= MAX_VARINT
  {
    RoomAtStart();
    VarintReads(v, 0, rest);
  }

  // Reading is not affected by what comes after.
  lemma {:induction false} VarintExtends(s: Bytes, i: nat, more: Bytes)
    requires ReadVarint(s, i).Some?
    ensures ReadVarint(s + more, i) == Some((ReadVarint(s, i).value.0, ReadVarint(s, i).value.1 + more))
    decreases |s|
  {
    assert (s + more)[1..] == s[1..] + more;
    if s[0] >= 0x80 {
      VarintExtends(s[1..], i + 1, more);
    }
  }

  // ---------------------------------------------------------------------
  // Little-endian integers

  function LittleEndian(n: nat, size: nat): (b: Bytes)
    ensures |b| == size
  {
    if size == 0 then [] else [n % 256] + LittleEndian(n / 256, size - 1)
  }

  function FromLittleEndian(b: Bytes): (n: nat)
    ensures n < Pow256(|b|)
  {
    if b == [] then 0 else b[0] + 256 * FromLittleEndian(b[1..])
  }

  lemma {:induction false} LittleEndianInverts(n: nat, size: nat)
    requires n < Pow256(size)
    ensures FromLittleEndian(LittleEndian(n, size)) == n
  {
    if size > 0 {
      LittleEndianInverts(n / 256, size - 1);
      assert LittleEndian(n, size)[1..] == LittleEndian(n / 256, size - 1);
    }
  }

  // ---------------------------------------------------------------------
  // Fields and messages

  function WireType(p: Payload): nat {
    match p
    case Varint(_) => VARINT
    case Fixed64(_) => FIXED64
    case Length(_) => LENGTH
    case Fixed32(_) => FIXED32
  }

  // The key is computed in 32 bits: the top three bits of the number are lost.
  function Key(f: Field): nat {
    f.num as int * 8 % U32_LIMIT + WireType(f.payload)
  }

  function PayloadBytes(p: Payload): Bytes {
    match p
    case Varint(v) => VarintBytes(v)
    case Fixed64(v) => LittleEndian(v, 8)
    case Length(b) => VarintBytes(|b|) + b
    case Fixed32(v) => LittleEndian(v, 4)
  }

  function FieldBytes(f: Field): Bytes {
    VarintBytes(Key(f)) + PayloadBytes(f.payload)
  }

  function MessageBytes(fs: seq<Field>): Bytes {
    if fs == [] then [] else MessageBytes(fs[..|fs| - 1]) + FieldBytes(fs[|fs| - 1])
  }

  function ReadPayload(kind: nat, num: U32, s: Bytes): (r: Result<(Payload, Bytes), Error>)
    ensures r.Ok? ==> |r.value.1| <= |s|
  {
    if kind == VARINT then
      match ReadVarint(s, 0)
      case None => Err(BadVarint(num))
      case Some((v, rest)) => RoomAtStart(); Ok((Varint(v), rest))
    else if kind == LENGTH then
      match ReadVarint(s, 0)
      case None => Err(BadLength(num))
      case Some((n, rest)) =>
        RoomAtStart();
        if n > |rest| then Err(TruncatedBytes(num)) else Ok((Length(rest[..n]), rest[n..]))
    else if kind == FIXED32 then
      if |s| < 4 then Err(TruncatedFixed32(num)) else PowValues(); Ok((Fixed32(FromLittleEndian(s[..4])), s[4..]))
    else if kind == FIXED64 then
      if |s| < 8 then Err(TruncatedFixed64(num)) else PowValues(); Ok((Fixed64(FromLittleEndian(s[..8])), s[8..]))
    else Err(UnsupportedType(kind))
  }

  function ReadField(s: Bytes): (r: Result<(Field, Bytes), Error>)
    ensures r.Ok? ==> |r.value.1| < |s|
  {
    match ReadVarint(s, 0)
    case None => Err(BadKey)
    case Some((key, rest)) =>
      var num: U32 := key / 8 % U32_LIMIT;
      match ReadPayload(key % 8, num, rest)
      case Err(e) => Err(e)
      case Ok((p, after)) => Ok((Field(num, p), after))
  }

  function Parse(s: Bytes): Result<seq<Field>, Error>
    decreases |s|
  {
    if s == [] then Ok([])
    else match ReadField(s)
      case Err(e) => Err(e)
      case Ok((f, rest)) =>
        match Parse(rest)
        case Err(e) => Err(e)
        case Ok(fs) => Ok([f] + fs)
  }

  // ---------------------------------------------------------------------
  // Round trips

  // What a field reads back as: its number modulo 2^29.
  function Wrapped(f: Field): Field {
    f.(num := f.num % 0x2000_0000)
  }

  lemma FixedInverts(v: nat, size: nat, rest: Bytes)
    requires v < Pow256(size)
    ensures var s := LittleEndian(v, size) + rest;
            FromLittleEndian(s[..size]) == v && s[size..] == rest
  {
  }

  lemma LengthInverts(b: Slice, num: U32, rest: Bytes)
    ensures ReadPayload(LENGTH, num, VarintBytes(|b|) + b + rest) == Ok((Length(b), rest))
  {
    hide ReadVarint, VarintBytes;
    VarintInverts(|b|, b + rest);
    assert VarintBytes(|b|) + b + rest == VarintBytes(|b|) + (b + rest);
    assert (b + rest)[..|b|] == b && (b + rest)[|b|..] == rest;
  }

  lemma PayloadInverts(p: Payload, num: U32, rest: Bytes)
    ensures ReadPayload(WireType(p), num, PayloadBytes(p) + rest) == Ok((p, rest))
  {
    hide ReadVarint, VarintBytes, LittleEndian, FromLittleEndian, Pow256, Room;
    PowValues();
    match p
    case Varint(v) => VarintInverts(v, rest);
    case Fixed64(v) => FixedInverts(v, 8, rest);
    case Fixed32(v) => FixedInverts(v, 4, rest);
    case Length(b) => LengthInverts(b, num, rest);
  }

  lemma FieldInverts(f: Field, rest: Bytes)
    ensures FieldBytes(f) + rest != []
    ensures ReadField(FieldBytes(f) + rest) == Ok((Wrapped(f), rest))
  {
    hide ReadPayload, PayloadBytes, ReadVarint, VarintBytes;
    var body := PayloadBytes(f.payload) + rest;
    assert FieldBytes(f) + rest == VarintBytes(Key(f)) + body;
    VarintInverts(Key(f), body);
    KeySplits(f);
    PayloadInverts(f.payload, f.num % 0x2000_0000, rest);
  }

  lemma KeySplits(f: Field)
    ensures Key(f) / 8 % U32_LIMIT == f.num % 0x2000_0000 && Key(f) % 8 == WireType(f.payload)
  {
    assert f.num as int * 8 % U32_LIMIT == 8 * (f.num % 0x2000_0000);
  }

  function WrappedAll(fs: seq<Field>): (ws: seq<Field>)
    ensures |ws| == |fs| && forall i :: 0 <= i < |fs| ==> ws[i] == Wrapped(fs[i])
  {
    seq(|fs|, i requires 0 <= i < |fs| => Wrapped(fs[i]))
  }

  // Reading one field is not affected by what comes after.
  lemma PayloadExtends(kind: nat, num: U32, s: Bytes, more: Bytes)
    requires ReadPayload(kind, num, s).Ok?
    ensures var (p, rest) := ReadPayload(kind, num, s).value;
            ReadPayload(kind, num, s + more) == Ok((p, rest + more))
  {
    if kind == VARINT || kind == LENGTH {
      VarintExtends(s, 0, more);
      var (n, rest) := ReadVarint(s, 0).value;
      if kind == LENGTH {
        assert (rest + more)[..n] == rest[..n] && (rest + more)[n..] == rest[n..] + more;
      }
    } else {
      var n := if kind == FIXED32 then 4 else 8;
      assert (s + more)[..n] == s[..n] && (s + more)[n..] == s[n..] + more;
    }
  }

  lemma FieldExtends(s: Bytes, more: Bytes)
    requires ReadField(s).Ok?
    ensures var (f, rest) := ReadField(s).value;
            ReadField(s + more) == Ok((f, rest + more))
  {
    hide ReadPayload;
    VarintExtends(s, 0, more);
    var (key, rest) := ReadVarint(s, 0).value;
    hide ReadVarint;
    PayloadExtends(key % 8, key / 8 % U32_LIMIT, rest, more);
  }

  // Concatenating two messages that parse concatenates their fields.
  lemma {:induction false} ParseConcatenates(a: Bytes, b: Bytes)
    requires Parse(a).Ok? && Parse(b).Ok?
    ensures Parse(a + b) == Ok(Parse(a).value + Parse(b).value)
    decreases |a|
  {
    hide ReadField;
    if a == [] {
      assert a + b == b;
      assert [] + Parse(b).value == Parse(b).value;
    } else {
      FieldExtends(a, b);
      var (f, rest) := ReadField(a).value;
      ParseConcatenates(rest, b);
      assert [f] + (Parse(rest).value + Parse(b).value) == [f] + Parse(rest).value + Parse(b).value;
      assert a + b != [];
    }
  }

  lemma ParseOne(f: Field)
    ensures Parse(FieldBytes(f)) == Ok([Wrapped(f)])
  {
    hide ReadField, FieldBytes;
    FieldInverts(f, []);
    assert FieldBytes(f) + [] == FieldBytes(f);
    assert Parse([]) == Ok([]);
    assert [Wrapped(f)] + [] == [Wrapped(f)];
  }

  // Every message parses, to its own fields with numbers modulo 2^29.
  lemma {:induction false} ParseReads(fs: seq<Field>)
    ensures Parse(MessageBytes(fs)) == Ok(WrappedAll(fs))
  {
    hide ReadField, FieldBytes;
    if fs == [] {
      assert Parse([]) == Ok([]);
    } else {
      hide Parse;
      var n := |fs| - 1;
      ParseReads(fs[..n]);
      ParseOne(fs[n]);
      ParseConcatenates(MessageBytes(fs[..n]), FieldBytes(fs[n]));
      assert WrappedAll(fs) == WrappedAll(fs[..n]) + [Wrapped(fs[n])];
    }
  }

  // Parse inverts Build exactly when every field number is below 2^29.
  lemma ParseInvertsBuild(fs: seq<Field>)
    ensures Parse(MessageBytes(fs)) == Ok(fs) <==> forall i :: 0 <= i < |fs| ==> fs[i].num < 0x2000_0000
  {
    ParseReads(fs);
    hide Parse, MessageBytes;
    if forall i :: 0 <= i < |fs| ==> fs[i].num < 0x2000_0000 {
      assert WrappedAll(fs) == fs;
    } else {
      var i :| 0 <= i < |fs| && fs[i].num >= 0x2000_0000;
      assert WrappedAll(fs)[i].num != fs[i].num;
    }
  }

  // ---------------------------------------------------------------------
  // The loops

  method AppendVarint(dst: Bytes, value: U64) returns (out: Bytes)
    ensures out == dst + VarintBytes(value)
  {
    out := dst;
    var v: int := value;
    while v >= 0x80
      invariant v >= 0 && out + VarintBytes(v) == dst + VarintBytes(value)
    {
      ghost var was, tail := out, VarintBytes(v / 0x80);
      out := out + [v % 0x80 + 0x80];
      assert out + tail == was + ([v % 0x80 + 0x80] + tail);
      v := v / 0x80;
    }
    out := out + [v];
  }

  method AppendField(dst: Bytes, f: Field) returns (out: Bytes)
    ensures out == dst + FieldBytes(f)
  {
    out := AppendVarint(dst, Key(f));
    match f.payload
    case Varint(v) => out := AppendVarint(out, v);
    case Length(b) =>
      out := AppendVarint(out, |b|);
      out := out + b;
    case Fixed32(v) => out := out + LittleEndian(v, 4);
    case Fixed64(v) => out := out + LittleEndian(v, 8);
  }

  class Builder {
    var fields: seq<Field>

    constructor ()
      ensures fields == []
    {
      fields := [];
    }

    method Add(f: Field)
      modifies this
      ensures fields == old(fields) + [f]
    {
      fields := fields + [f];
    }

    method Build() returns (out: Bytes)
      ensures out == MessageBytes(fields)
    {
      out := [];
      for i := 0 to |fields|
        invariant out == MessageBytes(fields[..i])
      {
        out := AppendField(out, fields[i]);
        assert fields[..i + 1][..i] == fields[..i];
      }
      assert fields[..|fields|] == fields;
    }
  }

  method ParseMessage(input: Bytes) returns (r: Result<seq<Field>, Error>)
    ensures r == Parse(input)
  {
    hide ReadField;
    var data, msg := input, [];
    assert Parse(input).Ok? ==> [] + Parse(input).value == Parse(input).value;
    while |data| > 0
      invariant match Parse(data)
                case Err(e) => Parse(input) == Err(e)
                case Ok(fs) => Parse(input) == Ok(msg + fs)
      decreases |data|
    {
      match ReadField(data)
      case Err(e) => return Err(e);
      case Ok((f, rest)) =>
        assert Parse(rest).Ok? ==> msg + ([f] + Parse(rest).value) == (msg + [f]) + Parse(rest).value;
        data, msg := rest, msg + [f];
    }
    assert msg + [] == msg;
    return Ok(msg);
  }

  // ---------------------------------------------------------------------
  // Lookup

  // The first field with the given number.
  function Get(fs: seq<Field>, num: U32): Option<Field> {
    if fs == [] then None else if fs[0].num == num then Some(fs[0]) else Get(fs[1..], num)
  }

  method Lookup(fs: seq<Field>, num: U32) returns (r: Option<Field>)
    ensures r == Get(fs, num)
  {
    assert fs[0..] == fs;
    for i := 0 to |fs|
      invariant Get(fs, num) == Get(fs[i..], num)
    {
      if fs[i].num == num {
        return Some(fs[i]);
      }
      assert fs[i..][1..] == fs[i + 1..];
    }
    return None;
  }

  function GetUint(fs: seq<Field>, num: U32): Option<U64> {
    match Get(fs, num)
    case None => None
    case Some(f) => if f.payload.Varint? then Some(f.payload.v) else None
  }

  function GetBytes(fs: seq<Field>, num: U32): Option<Slice> {
    match Get(fs, num)
    case None => None
    case Some(f) => if f.payload.Length? then Some(f.payload.b) else None
  }

  // ---------------------------------------------------------------------
  // Zigzag over integers of 2 * half values

  // A number between -2*half and 2*half as an unsigned machine integer.
  function Unsigned(x: int, half: int): int {
    if x < 0 then x + 2 * half else x
  }

  // An unsigned machine integer as a two's complement number.
  function Signed(x: int, half: int): int {
    if x >= half then x - 2 * half else x
  }

  // x ^ mask for a mask of all zeros or all ones.
  function Flip(x: int, ones: bool, half: int): int {
    if ones then 2 * half - 1 - x else x
  }

  // uint(v)<<1 ^ uint(v>>(bits-1))
  function ZigEncode(v: int, half: int): int {
    Flip(Unsigned(2 * v, half), v < 0, half)
  }

  // int(u>>1) ^ -int(u&1)
  function ZigDecode(u: int, half: int): int {
    Signed(Flip(u / 2, u % 2 == 1, half), half)
  }

  // Each direction inverts the other, and codes grow with magnitude: zero, one
  // and two for 0, -1 and 1, and so on.
  lemma ZigzagBijection(v: int, u: int, half: int)
    requires -half <= v < half && 0 <= u < 2 * half
    ensures 0 <= ZigEncode(v, half) < 2 * half && ZigDecode(ZigEncode(v, half), half) == v
    ensures -half <= ZigDecode(u, half) < half && ZigEncode(ZigDecode(u, half), half) == u
    ensures ZigEncode(v, half) == if v >= 0 then 2 * v else -2 * v - 1
  {
  }
}
