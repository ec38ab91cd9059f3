// What the decoder computes: readers that take the remaining bytes and give
// back a value with the bytes left over, or an error.
module NodeDecoding {
  import opened Common
  import opened Tokens
  import opened Nodes

  datatype Error =
    | Truncated | InvalidToken | InvalidNode | NonStringKey | TrailingData | InvalidPacked | UnsupportedData

  datatype Read<+T> = Got(value: T, rest: Bytes) | Fail(error: Error) {
    predicate IsFailure() {
      Fail?
    }

    function PropagateFailure<U>(): Read<U>
      requires Fail?
    {
      Fail(error)
    }

    function Extract(): (T, Bytes)
      requires Got?
    {
      (value, rest)
    }
  }

  // ---------------------------------------------------------------------
  // Scalars

  function ReadByte(s: Bytes): Read<Byte> {
    if |s| < 1 then Fail(Truncated) else Got(s[0], s[1..])
  }

  function ReadRaw(s: Bytes, n: nat): Read<Bytes> {
    if |s| < n then Fail(Truncated) else Got(s[..n], s[n..])
  }

  function ReadInt(s: Bytes, n: nat): Read<nat> {
    var (raw, rest) :- ReadRaw(s, n);
    Got(FromBigEndian(raw), rest)
  }

  function ListSize(tag: Byte, s: Bytes): (r: Read<nat>)
    ensures r.Got? ==> |r.rest| <= |s|
  {
    if tag == LIST_EMPTY then Got(0, s)
    else if tag == LIST_8 then ReadInt(s, 1)
    else if tag == LIST_16 then ReadInt(s, 2)
    else Fail(InvalidToken)
  }

  function BytesOrString(c: Context, s: Bytes, n: nat, asString: bool): (r: Read<Value>)
    ensures r.Got? ==> |r.rest| <= |s|
  {
    var (raw, rest) :- ReadRaw(s, n);
    Got(if asString && c.lib.utf8Valid(raw) then Text(raw) else Blob(raw), rest)
  }

  // The length forms of a binary chunk.
  function ChunkLength(tag: Byte, s: Bytes): (r: Read<nat>)
    ensures r.Got? ==> |r.rest| <= |s|
  {
    if tag == BINARY_8 then ReadInt(s, 1)
    else if tag == BINARY_20 then
      var (raw, rest) :- ReadRaw(s, 3);
      Got((raw[0] as int % 16) * 0x1_0000 + (raw[1] as int) * 256 + raw[2], rest)
    else ReadInt(s, 4)
  }

  function ReadPacked(tag: Byte, s: Bytes): (r: Read<Bytes>)
    ensures r.Got? ==> |r.rest| <= |s|
  {
    var (head, s1) :- ReadByte(s);
    var (raw, rest) :- ReadRaw(s1, head % 128);
    match UnpackPairs(tag, raw)
    case None => Fail(InvalidPacked)
    case Some(text) =>
      if head < 128 then Got(text, rest)
      else if text == [] then Fail(InvalidPacked)
      else Got(text[..|text| - 1], rest)
  }

  // Keys and tags: binary chunks become strings, addresses are rendered.
  function Stringlike(v: Value): Value {
    match v
    case Blob(b) => Text(b)
    case Address(j) => Text(JidString(j))
    case _ => v
  }

  function TextOr(c: Context, v: Value): Bytes {
    match v
    case Text(t) => t
    case Blob(b) => b
    case _ => c.lib.sprint(v)
  }

  function TextOrEmpty(v: Value): Bytes {
    if v.Text? then v.s else []
  }

  // ---------------------------------------------------------------------
  // The mutually recursive readers

  function ReadNode(c: Context, s: Bytes): (r: Read<Node>)
    ensures r.Got? ==> |r.rest| < |s|
    decreases |s|, 0
  {
    var (tag, s1) :- ReadByte(s);
    if tag == LIST_EMPTY then Fail(InvalidNode)
    else
      var (size, s2) :- ListSize(tag, s1);
      if size == 0 then
        if tag == LIST_8 then Got(Node(NULL_TAG, map[], Nil), s2) else Fail(InvalidNode)
      else
        var (name, s3) :- ReadStringlike(c, s2);
        if !name.Text? then Fail(InvalidNode)
        else
          var (attrs, s4) :- ReadAttrs(c, s3, (size - 1) / 2, map[]);
          if size % 2 == 0 then
            var (content, s5) :- ReadContent(c, s4, true);
            Got(Node(name.s, attrs, content), s5)
          else Got(Node(name.s, attrs, Nil), s4)
  }

  function ReadAttrs(c: Context, s: Bytes, count: nat, attrs: map<Bytes, Value>): (r: Read<map<Bytes, Value>>)
    ensures r.Got? ==> |r.rest| <= |s|
    decreases |s|, 4
  {
    if count == 0 then Got(attrs, s)
    else
      var (key, s1) :- ReadStringlike(c, s);
      if !key.Text? then Fail(NonStringKey)
      else
        var (val, s2) :- ReadContent(c, s1, true);
        ReadAttrs(c, s2, count - 1, attrs[key.s := val])
  }

  function ReadStringlike(c: Context, s: Bytes): (r: Read<Value>)
    ensures r.Got? ==> |r.rest| < |s|
    decreases |s|, 3
  {
    var (v, rest) :- ReadContent(c, s, false);
    Got(Stringlike(v), rest)
  }

  function ReadContent(c: Context, s: Bytes, asString: bool): (r: Read<Value>)
    ensures r.Got? ==> |r.rest| < |s|
    decreases |s|, 2
  {
    var (tag, s1) :- ReadByte(s);
    if tag == LIST_EMPTY then Got(Nil, s1)
    else if tag == LIST_8 || tag == LIST_16 then
      var (nodes, rest) :- ReadList(c, s);
      Got(Children(nodes), rest)
    else if tag == BINARY_8 || tag == BINARY_20 || tag == BINARY_32 then
      var (n, s2) :- ChunkLength(tag, s1);
      BytesOrString(c, s2, n, asString)
    else if DICTIONARY_0 <= tag <= DICTIONARY_3 then
      var (i, s2) :- ReadByte(s1);
      var t := c.dict.DoubleToken(tag - DICTIONARY_0, i);
      if t.None? then Fail(InvalidToken) else Got(Text(t.value), s2)
    else if tag == FB_JID || tag == INTEROP_JID || tag == JID_PAIR || tag == AD_JID then
      var (j, rest) :- ReadJid(c, tag, s1);
      Got(Address(j), rest)
    else if tag == NIBBLE_8 || tag == HEX_8 then
      var (text, rest) :- ReadPacked(tag, s1);
      Got(Text(text), rest)
    else
      var t := c.dict.SingleToken(tag);
      if t.None? then Fail(InvalidToken) else Got(Text(t.value), s1)
  }

  function ReadList(c: Context, s: Bytes): (r: Read<seq<Node>>)
    ensures r.Got? ==> |r.rest| < |s|
    decreases |s|, 1
  {
    var (tag, s1) :- ReadByte(s);
    var (size, s2) :- ListSize(tag, s1);
    ReadNodes(c, s2, size)
  }

  function ReadNodes(c: Context, s: Bytes, count: nat): (r: Read<seq<Node>>)
    ensures r.Got? ==> |r.rest| <= |s|
    decreases |s|, 1
  {
    if count == 0 then Got([], s)
    else
      var (n, s1) :- ReadNode(c, s);
      var (tail, rest) :- ReadNodes(c, s1, count - 1);
      Got([n] + tail, rest)
  }

  // The four address forms, after their tag byte.
  function ReadJid(c: Context, tag: Byte, s: Bytes): (r: Read<Jid>)
    ensures r.Got? ==> |r.rest| < |s|
    decreases |s|, 4
  {
    if tag == JID_PAIR then
      var (user, s1) :- ReadStringlike(c, s);
      var (server, s2) :- ReadStringlike(c, s1);
      if !server.Text? || server.s == [] then Fail(InvalidNode)
      else Got(Jid(TextOrEmpty(user), 0, 0, 0, server.s), s2)
    else if tag == AD_JID then
      var (agent, s1) :- ReadByte(s);
      var (device, s2) :- ReadByte(s1);
      var (user, s3) :- ReadStringlike(c, s2);
      Got(NewADJID(TextOrEmpty(user), agent, device), s3)
    else
      var (user, s1) :- ReadStringlike(c, s);
      ReadForeignJid(c, tag, user, s1)
  }

  // The rest of the two forms that carry a 16-bit device.
  function ReadForeignJid(c: Context, tag: Byte, user: Value, s: Bytes): (r: Read<Jid>)
    ensures r.Got? ==> |r.rest| < |s|
    decreases |s|, 4
  {
    var (device, s1) :- ReadInt(s, 2);
    var (integrator, s2) :- if tag == INTEROP_JID then ReadInt(s1, 2) else Got(0, s1);
    var (server, s3) :- ReadStringlike(c, s2);
    Got(Jid(TextOr(c, user), 0, device % 0x1_0000, integrator % 0x1_0000, TextOr(c, server)), s3)
  }

  // ---------------------------------------------------------------------
  // Streams and payloads

  function ReadStream(c: Context, s: Bytes): Result<seq<Node>, Error>
    decreases |s|
  {
    if s == [] then Ok([])
    else
      match ReadNode(c, s)
      case Fail(e) => Err(e)
      case Got(n, rest) =>
        match ReadStream(c, rest)
        case Err(e) => Err(e)
        case Ok(tail) => Ok([n] + tail)
  }

  // Unpack: the flag byte in front of a stream.
  function Unpack(c: Context, payload: Bytes): Result<Bytes, Error> {
    if payload == [] then Err(Truncated)
    else if payload[0] / 2 % 2 == 1 then
      match c.lib.inflate(payload[1..])
      case None => Err(UnsupportedData)
      case Some(stream) => Ok(stream)
    else if payload[0] == 0 then Ok(payload[1..])
    else Err(UnsupportedData)
  }

  function Decode(c: Context, payload: Bytes): Result<Node, Error> {
    match Unpack(c, payload)
    case Err(e) => Err(e)
    case Ok(stream) =>
      match ReadNode(c, stream)
      case Fail(e) => Err(e)
      case Got(n, rest) => if rest == [] then Ok(n) else Err(TrailingData)
  }
}
