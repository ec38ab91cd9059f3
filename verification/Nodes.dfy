// Protocol nodes, addresses (JIDs) and the scalar encodings of the node stream.
module Nodes {
  import opened Common
  import opened Tokens

  type U16 = x: int | 0 <= x < 0x1_0000

  // A Go string is a sequence of bytes.
  function Ascii(s: string): Bytes {
    seq(|s|, i requires 0 <= i < |s| => s[i] as int % 256)
  }

  // ---------------------------------------------------------------------
  // Addresses

  datatype Jid = Jid(user: Bytes, rawAgent: Byte, device: U16, integrator: U16, server: Bytes)

  const SERVER_USER: Bytes := Ascii("s.whatsapp.net")
  const SERVER_LID: Bytes := Ascii("lid")
  const SERVER_MSGR: Bytes := Ascii("msgr")
  const SERVER_INTEROP: Bytes := Ascii("interop")
  const SERVER_HOSTED: Bytes := Ascii("hosted")
  const SERVER_HOSTED_LID: Bytes := Ascii("hosted.lid")

  function NewADJID(user: Bytes, agent: Byte, device: Byte): Jid {
    match agent
    case 1 => Jid(user, 0, device, 0, SERVER_LID)
    case 128 => Jid(user, 0, device, 0, SERVER_HOSTED)
    case 129 => Jid(user, 0, device, 0, SERVER_HOSTED_LID)
    case 0 => Jid(user, 0, device, 0, SERVER_USER)
    case _ => Jid(user, agent, device, 0, SERVER_USER)
  }

  function ActualAgent(j: Jid): Byte {
    if j.server == SERVER_USER then 0
    else if j.server == SERVER_LID then 1
    else if j.server == SERVER_HOSTED then 128
    else if j.server == SERVER_HOSTED_LID then 129
    else j.rawAgent
  }

  predicate IsADServer(server: Bytes) {
    server == SERVER_USER || server == SERVER_LID || server == SERVER_HOSTED || server == SERVER_HOSTED_LID
  }

  predicate IsADJIDEncodable(j: Jid) {
    IsADServer(j.server) && (j.device > 0 || j.rawAgent != 0)
  }

  function Itoa(n: nat): Bytes {
    if n < 10 then [48 + n] else Itoa(n / 10) + [48 + n % 10]
  }

  function JidString(j: Jid): Bytes {
    if j.server == [] then []
    else if j.rawAgent > 0 then
      j.user + Ascii(".") + Itoa(j.rawAgent) + Ascii(":") + Itoa(j.device) + Ascii("@") + j.server
    else if j.device > 0 && (j.server == SERVER_USER || j.server == SERVER_LID) then
      j.user + Ascii(":") + Itoa(j.device) + Ascii("@") + j.server
    else if j.user != [] then j.user + Ascii("@") + j.server
    else j.server
  }

  // The address a device-carrying wire form stands for is the one it was made
  // from, exactly when the form stores every field the address uses.
  lemma ADJIDInverts(j: Jid)
    requires IsADJIDEncodable(j)
    ensures NewADJID(j.user, ActualAgent(j), j.device % 256) == j <==>
            j.rawAgent == 0 && j.device < 256 && j.integrator == 0
  {
  }

  // ---------------------------------------------------------------------
  // Nodes

  datatype Value =
    | Nil
    | Text(s: Bytes)
    | Blob(b: Bytes)
    | Address(j: Jid)
    | Children(nodes: seq<Node>)
    | Single(node: Node)
    | Flag(on: bool)
    | Number(n: int)
    | Unsupported

  datatype Node = Node(tag: Bytes, attrs: map<Bytes, Value>, content: Value)

  const NULL_TAG: Bytes := Ascii("0")

  // Library code the codec calls: UTF-8 validation, the default rendering of a
  // value, and zlib inflation.
  datatype Library = Library(utf8Valid: Bytes -> bool, sprint: Value -> Bytes, inflate: Bytes -> Option<Bytes>)

  datatype Context = Context(dict: Dictionary, lib: Library)

  // ---------------------------------------------------------------------
  // Big-endian integers

  lemma BigEndian1(a: Byte)
    ensures FromBigEndian([a]) == a
  {
  }

  lemma BigEndian2(a: Byte, b: Byte)
    ensures FromBigEndian([a, b]) == a * 256 + b
  {
    assert [a, b][..1] == [a];
    BigEndian1(a);
  }

  lemma BigEndian4(a: Byte, b: Byte, c: Byte, d: Byte)
    ensures FromBigEndian([a, b, c, d]) == a * 0x100_0000 + b * 0x1_0000 + c * 256 + d
  {
    assert [a, b, c, d][..3] == [a, b, c] && [a, b, c][..2] == [a, b];
    BigEndian2(a, b);
  }

  // ---------------------------------------------------------------------
  // Packed strings

  predicate NibbleChar(c: Byte) {
    48 <= c <= 57 || c == 45 || c == 46
  }

  predicate HexChar(c: Byte) {
    48 <= c <= 57 || 65 <= c <= 70
  }

  predicate PackChar(tag: Byte, c: Byte) {
    if tag == NIBBLE_8 then NibbleChar(c) else HexChar(c)
  }

  // packNibble and packHex
  function Pack(tag: Byte, c: Byte): (v: Byte)
    ensures v < 16
  {
    if 48 <= c <= 57 then c - 48
    else if tag == NIBBLE_8 then (if c == 45 then 10 else if c == 46 then 11 else 15)
    else (if 65 <= c <= 70 then c - 55 else 15)
  }

  function UnpackByte(tag: Byte, v: Byte): Option<Byte> {
    if tag == NIBBLE_8 then
      if v < 10 then Some(48 + v)
      else if v == 10 then Some(45)
      else if v == 11 then Some(46)
      else if v == 15 then Some(0)
      else None
    else
      if v < 10 then Some(48 + v)
      else if v < 16 then Some(55 + v)
      else None
  }

  predicate Packable(tag: Byte, s: Bytes) {
    0 < |s| <= PACKED_MAX && forall i :: 0 <= i < |s| ==> PackChar(tag, s[i])
  }

  function PackPairs(tag: Byte, s: Bytes): (r: Bytes)
    ensures |r| == (|s| + 1) / 2
  {
    if s == [] then []
    else if |s| == 1 then [Pack(tag, s[0]) * 16]
    else [Pack(tag, s[0]) * 16 + Pack(tag, s[1])] + PackPairs(tag, s[2..])
  }

  function UnpackPairs(tag: Byte, raw: Bytes): Option<Bytes> {
    if raw == [] then Some([])
    else
      var a, b, tail := UnpackByte(tag, raw[0] / 16), UnpackByte(tag, raw[0] % 16), UnpackPairs(tag, raw[1..]);
      if a.None? || b.None? || tail.None? then None else Some([a.value, b.value] + tail.value)
  }

  lemma UnpackPackChar(tag: Byte, c: Byte)
    requires PackChar(tag, c)
    ensures UnpackByte(tag, Pack(tag, c)) == Some(c)
  {
  }

  lemma Halves(hi: Byte, lo: Byte)
    requires hi < 16 && lo < 16
    ensures (hi * 16 + lo) / 16 == hi && (hi * 16 + lo) % 16 == lo
  {
  }

  // A packed string unpacks to itself, with one padding character more when
  // its length is odd.
  lemma {:induction false} UnpackPack(tag: Byte, s: Bytes)
    requires forall i :: 0 <= i < |s| ==> PackChar(tag, s[i])
    ensures UnpackPairs(tag, PackPairs(tag, s)) == Some(if |s| % 2 == 0 then s else s + [48])
  {
    hide UnpackByte, Pack, PackChar;
    if |s| == 1 {
      UnpackPackChar(tag, s[0]);
      PadUnpacks(tag);
      Halves(Pack(tag, s[0]), 0);
      var packed := PackPairs(tag, s);
      assert packed[1..] == [];
      assert s + [48] == [s[0], 48] + [];
    } else if |s| > 1 {
      UnpackPackChar(tag, s[0]);
      UnpackPackChar(tag, s[1]);
      Halves(Pack(tag, s[0]), Pack(tag, s[1]));
      UnpackPack(tag, s[2..]);
      var packed := PackPairs(tag, s);
      assert packed[1..] == PackPairs(tag, s[2..]);
      assert s == [s[0], s[1]] + s[2..];
      assert |s| % 2 == 1 ==> s + [48] == [s[0], s[1]] + (s[2..] + [48]);
    }
  }

  lemma PadUnpacks(tag: Byte)
    ensures UnpackByte(tag, 0) == Some(48)
  {
  }
}
