// Readers never look past what they consume: a successful read is not changed
// by bytes appended to the input, so no payload is a proper prefix of another.
module NodePrefix {
  import opened Common
  import opened Tokens
  import opened Nodes
  import opened NodeDecoding

  // A reader's result with bytes appended to what it left over.
  function Extend<T>(r: Read<T>, x: Bytes): Read<T>
    requires r.Got?
  {
    Got(r.value, r.rest + x)
  }

  lemma ByteExtends(s: Bytes, x: Bytes)
    requires ReadByte(s).Got?
    ensures ReadByte(s + x) == Extend(ReadByte(s), x)
  {
  }

  lemma RawExtends(s: Bytes, n: nat, x: Bytes)
    requires ReadRaw(s, n).Got?
    ensures ReadRaw(s + x, n) == Extend(ReadRaw(s, n), x)
    ensures ReadInt(s + x, n) == Extend(ReadInt(s, n), x)
  {
    assert (s + x)[n..] == s[n..] + x;
    assert (s + x)[..n] == s[..n];
  }

  lemma ListSizeExtends(tag: Byte, s: Bytes, x: Bytes)
    requires ListSize(tag, s).Got?
    ensures ListSize(tag, s + x) == Extend(ListSize(tag, s), x)
  {
    if tag != LIST_EMPTY {
      RawExtends(s, if tag == LIST_8 then 1 else 2, x);
    }
  }

  lemma ChunkExtends(tag: Byte, s: Bytes, x: Bytes)
    requires ChunkLength(tag, s).Got?
    ensures ChunkLength(tag, s + x) == Extend(ChunkLength(tag, s), x)
  {
    RawExtends(s, if tag == BINARY_8 then 1 else if tag == BINARY_20 then 3 else 4, x);
  }

  lemma PackedExtends(tag: Byte, s: Bytes, x: Bytes)
    requires ReadPacked(tag, s).Got?
    ensures ReadPacked(tag, s + x) == Extend(ReadPacked(tag, s), x)
  {
    ByteExtends(s, x);
    RawExtends(s[1..], s[0] % 128, x);
  }

  // ---------------------------------------------------------------------

  lemma {:induction false} NodeExtends(c: Context, s: Bytes, x: Bytes)
    requires ReadNode(c, s).Got?
    ensures ReadNode(c, s + x) == Extend(ReadNode(c, s), x)
    decreases |s|, 0
  {
    hide ReadContent, ReadStringlike, ReadAttrs, ListSize;
    ByteExtends(s, x);
    var tag, s1 := s[0], s[1..];
    ListSizeExtends(tag, s1, x);
    var size, s2 := ListSize(tag, s1).value, ListSize(tag, s1).rest;
    if size > 0 {
      StringlikeExtends(c, s2, x);
      var s3 := ReadStringlike(c, s2).rest;
      AttrsExtend(c, s3, (size - 1) / 2, map[], x);
      if size % 2 == 0 {
        ContentExtends(c, ReadAttrs(c, s3, (size - 1) / 2, map[]).rest, true, x);
      }
    }
  }

  lemma {:induction false} AttrsExtend(c: Context, s: Bytes, count: nat, attrs: map<Bytes, Value>, x: Bytes)
    requires ReadAttrs(c, s, count, attrs).Got?
    ensures ReadAttrs(c, s + x, count, attrs) == Extend(ReadAttrs(c, s, count, attrs), x)
    decreases |s|, 4
  {
    hide ReadContent, ReadStringlike;
    if count > 0 {
      StringlikeExtends(c, s, x);
      var key, s1 := ReadStringlike(c, s).value, ReadStringlike(c, s).rest;
      ContentExtends(c, s1, true, x);
      var val, s2 := ReadContent(c, s1, true).value, ReadContent(c, s1, true).rest;
      AttrsExtend(c, s2, count - 1, attrs[key.s := val], x);
    }
  }

  lemma {:induction false} StringlikeExtends(c: Context, s: Bytes, x: Bytes)
    requires ReadStringlike(c, s).Got?
    ensures ReadStringlike(c, s + x) == Extend(ReadStringlike(c, s), x)
    decreases |s|, 3
  {
    ContentExtends(c, s, false, x);
  }

  lemma {:induction false} ContentExtends(c: Context, s: Bytes, asString: bool, x: Bytes)
    requires ReadContent(c, s, asString).Got?
    ensures ReadContent(c, s + x, asString) == Extend(ReadContent(c, s, asString), x)
    decreases |s|, 2
  {
    ByteExtends(s, x);
    var tag, s1 := s[0], s[1..];
    if tag == LIST_8 || tag == LIST_16 {
      ListExtends(c, s, x);
    } else if tag == BINARY_8 || tag == BINARY_20 || tag == BINARY_32 {
      ChunkExtends(tag, s1, x);
      RawExtends(ChunkLength(tag, s1).rest, ChunkLength(tag, s1).value, x);
    } else if DICTIONARY_0 <= tag <= DICTIONARY_3 {
      ByteExtends(s1, x);
    } else if tag == FB_JID || tag == INTEROP_JID || tag == JID_PAIR || tag == AD_JID {
      JidExtends(c, tag, s1, x);
    } else if tag == NIBBLE_8 || tag == HEX_8 {
      PackedExtends(tag, s1, x);
    }
  }

  lemma {:induction false} ListExtends(c: Context, s: Bytes, x: Bytes)
    requires ReadList(c, s).Got?
    ensures ReadList(c, s + x) == Extend(ReadList(c, s), x)
    decreases |s|, 1
  {
    ByteExtends(s, x);
    ListSizeExtends(s[0], s[1..], x);
    var header := ListSize(s[0], s[1..]);
    NodesExtend(c, header.rest, header.value, x);
  }

  lemma {:induction false} NodesExtend(c: Context, s: Bytes, count: nat, x: Bytes)
    requires ReadNodes(c, s, count).Got?
    ensures ReadNodes(c, s + x, count) == Extend(ReadNodes(c, s, count), x)
    decreases |s|, 1
  {
    hide ReadNode;
    if count > 0 {
      NodeExtends(c, s, x);
      NodesExtend(c, ReadNode(c, s).rest, count - 1, x);
    }
  }

  lemma {:induction false} JidExtends(c: Context, tag: Byte, s: Bytes, x: Bytes)
    requires ReadJid(c, tag, s).Got?
    ensures ReadJid(c, tag, s + x) == Extend(ReadJid(c, tag, s), x)
    decreases |s|, 4
  {
    if tag == JID_PAIR {
      StringlikeExtends(c, s, x);
      StringlikeExtends(c, ReadStringlike(c, s).rest, x);
    } else if tag == AD_JID {
      ByteExtends(s, x);
      ByteExtends(s[1..], x);
      StringlikeExtends(c, s[1..][1..], x);
    } else {
      StringlikeExtends(c, s, x);
      var s1 := ReadStringlike(c, s).rest;
      RawExtends(s1, 2, x);
      var s2 := ReadInt(s1, 2).rest;
      if tag == INTEROP_JID {
        RawExtends(s2, 2, x);
        StringlikeExtends(c, ReadInt(s2, 2).rest, x);
      } else {
        StringlikeExtends(c, s2, x);
      }
    }
  }

  // ---------------------------------------------------------------------
  // No payload is a proper prefix of another

  // Cutting bytes off an uncompressed payload that decodes leaves one that
  // does not, and so does adding bytes.
  lemma PrefixRejected(c: Context, p: Bytes, x: Bytes)
    requires |p| > 0 && p[0] == 0 && x != []
    ensures Decode(c, p).Ok? ==> Decode(c, p + x) == Err(TrailingData)
    ensures Decode(c, p + x).Ok? ==> Decode(c, p).Err?
  {
    assert (p + x)[1..] == p[1..] + x;
    if ReadNode(c, p[1..]).Got? {
      NodeExtends(c, p[1..], x);
    }
  }
}
