// The decoder object: a cursor over a byte stream, proved against the readers
// of NodeDecoding.
module NodeDecoder {
  import opened Common
  import opened Tokens
  import opened Nodes
  import opened NodeDecoding

  // `more` read after the values in `done`.
  function Prepend<T>(done: seq<T>, more: Read<seq<T>>): Read<seq<T>> {
    if more.Fail? then more else Got(done + more.value, more.rest)
  }

  function PrependText(done: Bytes, more: Option<Bytes>): Option<Bytes> {
    if more.None? then None else Some(done + more.value)
  }

  // unpackByte over every half of a packed string.
  method Unpacked(tag: Byte, raw: Bytes) returns (text: Option<Bytes>)
    ensures text == UnpackPairs(tag, raw)
  {
    var sb: Bytes := [];
    assert raw[0..] == raw && forall tail: Bytes :: [] + tail == tail;
    for i := 0 to |raw|
      invariant UnpackPairs(tag, raw) == PrependText(sb, UnpackPairs(tag, raw[i..]))
    {
      assert raw[i..][1..] == raw[i + 1..];
      var a := UnpackByte(tag, raw[i] / 16);
      if a.None? {
        return None;
      }
      var b := UnpackByte(tag, raw[i] % 16);
      if b.None? {
        return None;
      }
      ghost var before := sb;
      sb := sb + [a.value];
      sb := sb + [b.value];
      assert forall tail: Bytes :: before + ([a.value, b.value] + tail) == sb + tail;
    }
    assert raw[|raw|..] == [] && sb + [] == sb;
    return Some(sb);
  }

  class Decoder {
    const ctx: Context
    const data: Bytes
    var index: nat

    ghost predicate Valid()
      reads this
    {
      index <= |data|
    }

    // The bytes not yet read.
    function Rest(): Bytes
      requires Valid()
      reads this
    {
      data[index..]
    }

    // The call did what the reader does: same value and cursor, same error.
    ghost predicate Did<T>(outcome: Result<T, Error>, spec: Read<T>)
      reads this
    {
      && Valid()
      && match spec
         case Got(v, rest) => outcome == Ok(v) && Rest() == rest
         case Fail(e) => outcome == Err(e)
    }

    constructor (c: Context, stream: Bytes)
      ensures Valid() && ctx == c && data == stream && index == 0
    {
      ctx, data, index := c, stream, 0;
    }

    method Byte1() returns (r: Result<Byte, Error>)
      requires Valid()
      modifies this
      ensures Did(r, ReadByte(old(Rest())))
    {
      if index + 1 > |data| {
        return Err(Truncated);
      }
      r := Ok(data[index]);
      index := index + 1;
    }

    method Int(n: nat) returns (r: Result<nat, Error>)
      requires Valid()
      modifies this
      ensures Did(r, ReadInt(old(Rest()), n))
    {
      if index + n > |data| {
        return Err(Truncated);
      }
      var v: nat := 0;
      ghost var s := Rest();
      for i := 0 to n
        invariant v == FromBigEndian(s[..i])
      {
        assert s[..i + 1][..i] == s[..i];
        v := v * 256 + data[index + i] as int;
      }
      index := index + n;
      return Ok(v);
    }

    method Raw(n: nat) returns (r: Result<Bytes, Error>)
      requires Valid()
      modifies this
      ensures Did(r, ReadRaw(old(Rest()), n))
    {
      if index + n > |data| {
        return Err(Truncated);
      }
      assert Rest()[..n] == data[index..index + n];
      r := Ok(data[index..index + n]);
      index := index + n;
    }

    method Size(tag: Byte) returns (r: Result<nat, Error>)
      requires Valid()
      modifies this
      ensures Did(r, ListSize(tag, old(Rest())))
    {
      if tag == LIST_EMPTY {
        return Ok(0);
      } else if tag == LIST_8 {
        r := Int(1);
      } else if tag == LIST_16 {
        r := Int(2);
      } else {
        return Err(InvalidToken);
      }
    }

    method Chunk(tag: Byte, asString: bool) returns (r: Result<Value, Error>)
      requires Valid()
      modifies this
      ensures var spec := ChunkLength(tag, old(Rest()));
              Did(r, if spec.Fail? then Fail(spec.error) else BytesOrString(ctx, spec.rest, spec.value, asString))
    {
      var n: Result<nat, Error>;
      if tag == BINARY_8 {
        n := Int(1);
      } else if tag == BINARY_20 {
        var raw := Raw(3);
        if raw.Err? {
          return Err(raw.error);
        }
        n := Ok((raw.value[0] as int % 16) * 0x1_0000 + (raw.value[1] as int) * 256 + raw.value[2]);
      } else {
        n := Int(4);
      }
      if n.Err? {
        return Err(n.error);
      }
      var raw := Raw(n.value);
      if raw.Err? {
        return Err(raw.error);
      }
      return Ok(if asString && ctx.lib.utf8Valid(raw.value) then Text(raw.value) else Blob(raw.value));
    }

    method Packed(tag: Byte) returns (r: Result<Bytes, Error>)
      requires Valid()
      modifies this
      ensures Did(r, ReadPacked(tag, old(Rest())))
    {
      var head := Byte1();
      if head.Err? {
        return Err(head.error);
      }
      var raw := Raw(head.value % 128);
      if raw.Err? {
        return Err(raw.error);
      }
      var text := Unpacked(tag, raw.value);
      if text.None? {
        return Err(InvalidPacked);
      }
      if head.value >= 128 {
        if text.value == [] {
          return Err(InvalidPacked);
        }
        return Ok(text.value[..|text.value| - 1]);
      }
      return Ok(text.value);
    }

    method NodeAt() returns (r: Result<Node, Error>)
      requires Valid()
      modifies this
      ensures Did(r, ReadNode(ctx, old(Rest())))
      decreases |data| - index, 0
    {
      hide ReadContent, ReadStringlike;
      var tag := Byte1();
      if tag.Err? {
        return Err(tag.error);
      }
      if tag.value == LIST_EMPTY {
        return Err(InvalidNode);
      }
      var size := Size(tag.value);
      if size.Err? {
        return Err(size.error);
      }
      if tag.value == LIST_8 && size.value == 0 {
        return Ok(Node(NULL_TAG, map[], Nil));
      }
      if size.value == 0 {
        return Err(InvalidNode);
      }
      var name := StringlikeAt();
      if name.Err? {
        return Err(name.error);
      }
      if !name.value.Text? {
        return Err(InvalidNode);
      }
      var attrs := AttrsAt((size.value - 1) / 2);
      if attrs.Err? {
        return Err(attrs.error);
      }
      var content := Nil;
      if size.value % 2 == 0 {
        var read := ContentAt(true);
        if read.Err? {
          return Err(read.error);
        }
        content := read.value;
      }
      return Ok(Node(name.value.s, attrs.value, content));
    }

    // The attribute loop.
    method AttrsAt(count: nat) returns (r: Result<map<Bytes, Value>, Error>)
      requires Valid()
      modifies this
      ensures Did(r, ReadAttrs(ctx, old(Rest()), count, map[]))
      decreases |data| - index, 4
    {
      hide ReadContent, ReadStringlike;
      var attrs: map<Bytes, Value> := map[];
      for i := 0 to count
        invariant Valid() && old(index) <= index
        invariant ReadAttrs(ctx, old(Rest()), count, map[]) == ReadAttrs(ctx, Rest(), count - i, attrs)
      {
        var key := StringlikeAt();
        if key.Err? {
          return Err(key.error);
        }
        if !key.value.Text? {
          return Err(NonStringKey);
        }
        var val := ContentAt(true);
        if val.Err? {
          return Err(val.error);
        }
        attrs := attrs[key.value.s := val.value];
      }
      return Ok(attrs);
    }

    method StringlikeAt() returns (r: Result<Value, Error>)
      requires Valid()
      modifies this
      ensures Did(r, ReadStringlike(ctx, old(Rest())))
      decreases |data| - index, 3
    {
      hide ReadContent;
      var v := ContentAt(false);
      if v.Err? {
        return Err(v.error);
      }
      return Ok(Stringlike(v.value));
    }

    method ContentAt(asString: bool) returns (r: Result<Value, Error>)
      requires Valid()
      modifies this
      ensures Did(r, ReadContent(ctx, old(Rest()), asString))
      decreases |data| - index, 2
    {
      hide ReadList, ReadPacked, ReadJid, ChunkLength, BytesOrString;
      var tag := Byte1();
      if tag.Err? {
        return Err(tag.error);
      }
      if tag.value == LIST_EMPTY {
        return Ok(Nil);
      } else if tag.value == LIST_8 || tag.value == LIST_16 {
        index := index - 1;
        var nodes := ListAt();
        if nodes.Err? {
          return Err(nodes.error);
        }
        return Ok(Children(nodes.value));
      } else if tag.value == BINARY_8 || tag.value == BINARY_20 || tag.value == BINARY_32 {
        r := Chunk(tag.value, asString);
      } else if DICTIONARY_0 <= tag.value <= DICTIONARY_3 {
        var i := Byte1();
        if i.Err? {
          return Err(i.error);
        }
        var t := ctx.dict.DoubleToken(tag.value - DICTIONARY_0, i.value);
        return if t.None? then Err(InvalidToken) else Ok(Text(t.value));
      } else if tag.value == FB_JID || tag.value == INTEROP_JID || tag.value == JID_PAIR || tag.value == AD_JID {
        var j := JidAt(tag.value);
        return if j.Err? then Err(j.error) else Ok(Address(j.value));
      } else if tag.value == NIBBLE_8 || tag.value == HEX_8 {
        var text := Packed(tag.value);
        return if text.Err? then Err(text.error) else Ok(Text(text.value));
      } else {
        var t := ctx.dict.SingleToken(tag.value);
        return if t.None? then Err(InvalidToken) else Ok(Text(t.value));
      }
    }

    method ListAt() returns (r: Result<seq<Node>, Error>)
      requires Valid()
      modifies this
      ensures Did(r, ReadList(ctx, old(Rest())))
      decreases |data| - index, 1
    {
      hide ReadNode;
      var tag := Byte1();
      if tag.Err? {
        return Err(tag.error);
      }
      var size := Size(tag.value);
      if size.Err? {
        return Err(size.error);
      }
      ghost var start := Rest();
      var out: seq<Node> := [];
      assert forall tail: seq<Node> :: [] + tail == tail;
      for i := 0 to size.value
        invariant Valid() && old(index) < index
        invariant ReadNodes(ctx, start, size.value) == Prepend(out, ReadNodes(ctx, Rest(), size.value - i))
      {
        var n := NodeAt();
        if n.Err? {
          return Err(n.error);
        }
        ghost var before := out;
        out := out + [n.value];
        assert forall tail: seq<Node> :: before + ([n.value] + tail) == out + tail;
      }
      assert out + [] == out;
      return Ok(out);
    }

    method JidAt(tag: Byte) returns (r: Result<Jid, Error>)
      requires Valid()
      modifies this
      ensures Did(r, ReadJid(ctx, tag, old(Rest())))
      decreases |data| - index, 4
    {
      hide ReadStringlike, ReadInt, NewADJID;
      if tag == AD_JID {
        var agent := Byte1();
        if agent.Err? {
          return Err(agent.error);
        }
        var device := Byte1();
        if device.Err? {
          return Err(device.error);
        }
        var user := StringlikeAt();
        if user.Err? {
          return Err(user.error);
        }
        return Ok(NewADJID(TextOrEmpty(user.value), agent.value, device.value));
      }
      var user := StringlikeAt();
      if user.Err? {
        return Err(user.error);
      }
      if tag == JID_PAIR {
        var server := StringlikeAt();
        if server.Err? {
          return Err(server.error);
        }
        if !server.value.Text? || server.value.s == [] {
          return Err(InvalidNode);
        }
        return Ok(Jid(TextOrEmpty(user.value), 0, 0, 0, server.value.s));
      }
      r := ForeignJidAt(tag, user.value);
    }

    // The tail of the two forms with a 16-bit device.
    method ForeignJidAt(tag: Byte, user: Value) returns (r: Result<Jid, Error>)
      requires Valid()
      modifies this
      ensures Did(r, ReadForeignJid(ctx, tag, user, old(Rest())))
      decreases |data| - index, 4
    {
      hide ReadStringlike;
      var device := Int(2);
      if device.Err? {
        return Err(device.error);
      }
      var integrator := 0;
      if tag == INTEROP_JID {
        var read := Int(2);
        if read.Err? {
          return Err(read.error);
        }
        integrator := read.value;
      }
      var server := StringlikeAt();
      if server.Err? {
        return Err(server.error);
      }
      return Ok(Jid(TextOr(ctx, user), 0, device.value % 0x1_0000, integrator % 0x1_0000, TextOr(ctx, server.value)));
    }
  }

  // The nodes read so far, followed by what the rest of the stream gives.
  function Following(nodes: seq<Node>, rest: Result<seq<Node>, Error>): Result<seq<Node>, Error> {
    if rest.Err? then rest else Ok(nodes + rest.value)
  }

  lemma StreamStep(c: Context, nodes: seq<Node>, s: Bytes)
    ensures s == [] ==> Following(nodes, ReadStream(c, s)) == Ok(nodes)
    ensures s != [] && ReadNode(c, s).Fail? ==> Following(nodes, ReadStream(c, s)) == Err(ReadNode(c, s).error)
    ensures s != [] && ReadNode(c, s).Got? ==>
              Following(nodes, ReadStream(c, s)) == Following(nodes + [ReadNode(c, s).value], ReadStream(c, ReadNode(c, s).rest))
  {
    hide ReadNode;
    assert nodes + [] == nodes;
    if s != [] && ReadNode(c, s).Got? && ReadStream(c, ReadNode(c, s).rest).Ok? {
      var n, tail := ReadNode(c, s).value, ReadStream(c, ReadNode(c, s).rest).value;
      assert nodes + ([n] + tail) == nodes + [n] + tail;
    }
  }

  method DecodeStream(c: Context, stream: Bytes) returns (r: Result<seq<Node>, Error>)
    ensures r == ReadStream(c, stream)
  {
    hide ReadNode, ReadStream;
    var dec := new Decoder(c, stream);
    var nodes: seq<Node> := [];
    assert dec.Rest() == stream;
    assert ReadStream(c, stream).Ok? ==> [] + ReadStream(c, stream).value == ReadStream(c, stream).value;
    while dec.index < |dec.data|
      invariant dec.Valid() && dec.data == stream && dec.ctx == c
      invariant ReadStream(c, stream) == Following(nodes, ReadStream(c, dec.Rest()))
      decreases |dec.data| - dec.index
    {
      StreamStep(c, nodes, dec.Rest());
      var n := dec.NodeAt();
      if n.Err? {
        return Err(n.error);
      }
      nodes := nodes + [n.value];
    }
    StreamStep(c, nodes, dec.Rest());
    return Ok(nodes);
  }

  method DecodePayload(c: Context, payload: Bytes) returns (r: Result<Node, Error>)
    ensures r == Decode(c, payload)
  {
    hide ReadNode;
    var stream := Unpack(c, payload);
    if stream.Err? {
      return Err(stream.error);
    }
    var dec := new Decoder(c, stream.value);
    var n := dec.NodeAt();
    if n.Err? {
      return Err(n.error);
    }
    if dec.index != |stream.value| {
      return Err(TrailingData);
    }
    return Ok(n.value);
  }
}
