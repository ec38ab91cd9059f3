// The encoder object: a growing buffer with a sticky error, proved against the
// byte functions of NodeEncoding.
module NodeEncoder {
  import opened Common
  import opened Tokens
  import opened Nodes
  import opened NodeEncoding

  // What a write does to a buffer and its sticky error: nothing after an
  // error; otherwise it appends the bytes, or records an error if there are none.
  predicate Effect(buf0: Bytes, failed0: bool, bytes: Option<Bytes>, buf: Bytes, failed: bool) {
    if failed0 then failed && buf == buf0
    else if bytes.Some? then !failed && buf == buf0 + bytes.value
    else failed
  }

  lemma EffectThen(buf0: Bytes, failed0: bool, a: Option<Bytes>, buf1: Bytes, failed1: bool, b: Option<Bytes>, buf2: Bytes, failed2: bool)
    requires Effect(buf0, failed0, a, buf1, failed1) && Effect(buf1, failed1, b, buf2, failed2)
    ensures Effect(buf0, failed0, Join(a, b), buf2, failed2)
  {
  }

  lemma JoinAssociates(a: Option<Bytes>, b: Option<Bytes>, d: Option<Bytes>)
    ensures Join(Join(a, b), d) == Join(a, Join(b, d))
  {
    if a.Some? && b.Some? && d.Some? {
      assert (a.value + b.value) + d.value == a.value + (b.value + d.value);
    }
  }

  lemma JoinNothing(a: Option<Bytes>)
    ensures Join(Some([]), a) == a == Join(a, Some([]))
  {
    if a.Some? {
      assert [] + a.value == a.value == a.value + [];
    }
  }

  // isNibblePackable and isHexPackable
  method IsPackable(tag: Byte, s: Bytes) returns (ok: bool)
    ensures ok == Packable(tag, s)
  {
    if |s| == 0 || |s| > PACKED_MAX {
      return false;
    }
    for i := 0 to |s|
      invariant forall j :: 0 <= j < i ==> PackChar(tag, s[j])
    {
      if !PackChar(tag, s[i]) {
        return false;
      }
    }
    return true;
  }

  // countableAttrs: the written keys, sorted, however the map is traversed.
  method CountableAttrs(n: Node) returns (keys: seq<Bytes>)
    ensures keys == SortedKeys(CountableKeys(n))
  {
    keys := [];
    var rest := n.attrs.Keys;
    while rest != {}
      invariant rest <= n.attrs.Keys
      invariant Ascending(keys)
      invariant forall k :: k in keys <==> k in CountableKeys(n) && k !in rest
      decreases rest
    {
      var k :| k in rest;
      rest := rest - {k};
      if Countable(n.attrs[k]) {
        InsertAscending(k, keys);
        keys := Insert(k, keys);
      }
    }
    SortedUnique(keys, SortedKeys(CountableKeys(n)));
  }

  class Encoder {
    const ctx: Context
    var buf: Bytes
    var failed: bool

    constructor (c: Context)
      ensures ctx == c && buf == [] && !failed
    {
      ctx, buf, failed := c, [], false;
    }

    method Push(b: Bytes)
      modifies this
      ensures Effect(old(buf), old(failed), Some(b), buf, failed)
    {
      if !failed {
        buf := buf + b;
      }
    }

    method ListStart(size: nat)
      modifies this
      ensures Effect(old(buf), old(failed), EncListStart(size), buf, failed)
    {
      if size == 0 {
        Push([LIST_EMPTY]);
      } else if size < 256 {
        Push([LIST_8, size]);
      } else if size < 0xFFFF {
        Push([LIST_16, size / 256, size % 256]);
      } else {
        failed := true;
      }
    }

    method Length(n: nat)
      modifies this
      ensures Effect(old(buf), old(failed), EncLength(n), buf, failed)
    {
      if n < 256 {
        Push([BINARY_8, n]);
      } else if n < 0x10_0000 {
        Push([BINARY_20, n / 0x1_0000 % 16, n / 256 % 256, n % 256]);
      } else if n < 0x7FFF_FFFF {
        Push([BINARY_32, n / 0x100_0000, n / 0x1_0000 % 256, n / 256 % 256, n % 256]);
      } else {
        failed := true;
      }
    }

    method BlobBytes(b: Bytes)
      modifies this
      ensures Effect(old(buf), old(failed), EncBlob(b), buf, failed)
    {
      hide EncLength;
      Length(|b|);
      ghost var buf1, failed1 := buf, failed;
      Push(b);
      EffectThen(old(buf), old(failed), EncLength(|b|), buf1, failed1, Some(b), buf, failed);
    }

    method Packed(tag: Byte, s: Bytes)
      requires |s| <= PACKED_MAX
      modifies this
      ensures Effect(old(buf), old(failed), Some(EncPacked(tag, s)), buf, failed)
    {
      hide PackPairs, Pack;
      Push([tag]);
      ghost var buf1, failed1 := buf, failed;
      var round := (|s| + 1) / 2;
      if |s| % 2 != 0 {
        round := round + 128;
      }
      Push([round]);
      EffectThen(old(buf), old(failed), Some([tag]), buf1, failed1, Some([round]), buf, failed);
      ghost var buf2, failed2 := buf, failed;
      Pairs(tag, s);
      EffectThen(old(buf), old(failed), Some([tag, round]), buf2, failed2, Some(PackPairs(tag, s)), buf, failed);
    }

    // The pair loop and the odd last character.
    method Pairs(tag: Byte, s: Bytes)
      modifies this
      ensures Effect(old(buf), old(failed), Some(PackPairs(tag, s)), buf, failed)
    {
      hide Pack, PackPairs, Effect;
      var i := 0;
      ghost var done: Bytes, half := [], 0;
      EffectNothing(buf, failed);
      assert s[0..] == s;
      while i + 1 < |s|
        invariant 0 <= i <= |s| && i == 2 * half
        invariant Effect(old(buf), old(failed), Some(done), buf, failed)
        invariant done + PackPairs(tag, s[i..]) == PackPairs(tag, s)
      {
        ghost var buf1, failed1 := buf, failed;
        var b: Byte := Pack(tag, s[i]) * 16 + Pack(tag, s[i + 1]);
        Push([b]);
        EffectThen(old(buf), old(failed), Some(done), buf1, failed1, Some([b]), buf, failed);
        PackPairsMore(tag, s, i, done);
        done, half := done + [b], half + 1;
        i := i + 2;
      }
      PackPairsEnd(tag, s, i, done);
      if |s| % 2 != 0 {
        ghost var buf1, failed1 := buf, failed;
        var b: Byte := Pack(tag, s[|s| - 1]) * 16;
        Push([b]);
        EffectThen(old(buf), old(failed), Some(done), buf1, failed1, Some([b]), buf, failed);
      }
    }

    method StringBytes(s: Bytes)
      modifies this
      ensures Effect(old(buf), old(failed), EncString(ctx, s), buf, failed)
    {
      hide Packable, EncPacked, EncBlob;
      var single := ctx.dict.IndexOfSingle(s);
      if single.Some? {
        Push([single.value]);
        return;
      }
      var double := ctx.dict.IndexOfDouble(s);
      if double.Some? {
        Push([(DICTIONARY_0 as int + double.value.0) % 256, double.value.1]);
        return;
      }
      var nibble := IsPackable(NIBBLE_8, s);
      if nibble {
        assert |s| <= PACKED_MAX by { PackableFits(NIBBLE_8, s); }
        Packed(NIBBLE_8, s);
        return;
      }
      var hex := IsPackable(HEX_8, s);
      if hex {
        assert |s| <= PACKED_MAX by { PackableFits(HEX_8, s); }
        Packed(HEX_8, s);
        return;
      }
      BlobBytes(s);
    }

    method JidBytes(j: Jid)
      modifies this
      ensures Effect(old(buf), old(failed), EncJid(ctx, j), buf, failed)
    {
      hide EncString, Effect;
      if IsADJIDEncodable(j) {
        Push([AD_JID, ActualAgent(j), j.device % 256]);
        ghost var buf1, failed1 := buf, failed;
        StringBytes(j.user);
        EffectThen(old(buf), old(failed), Some([AD_JID, ActualAgent(j), j.device % 256]), buf1, failed1,
                   EncString(ctx, j.user), buf, failed);
      } else if j.server == SERVER_MSGR || j.server == SERVER_INTEROP {
        ForeignJid(j);
      } else {
        Push([JID_PAIR]);
        ghost var buf1, failed1 := buf, failed;
        ghost var user := if j.user == [] then Some([LIST_EMPTY]) else EncString(ctx, j.user);
        if j.user == [] {
          Push([LIST_EMPTY]);
        } else {
          StringBytes(j.user);
        }
        ghost var buf2, failed2 := buf, failed;
        StringBytes(j.server);
        EffectThen(buf1, failed1, user, buf2, failed2, EncString(ctx, j.server), buf, failed);
        EffectThen(old(buf), old(failed), Some([JID_PAIR]), buf1, failed1, Join(user, EncString(ctx, j.server)), buf, failed);
      }
    }

    method ForeignJid(j: Jid)
      requires !IsADJIDEncodable(j) && (j.server == SERVER_MSGR || j.server == SERVER_INTEROP)
      modifies this
      ensures Effect(old(buf), old(failed), EncJid(ctx, j), buf, failed)
    {
      hide EncString, Effect, U16Bytes;
      var tag := if j.server == SERVER_MSGR then FB_JID else INTEROP_JID;
      Push([tag]);
      ghost var buf1, failed1 := buf, failed;
      StringBytes(j.user);
      ghost var buf2, failed2 := buf, failed;
      Push(U16Bytes(j.device));
      ghost var buf3, failed3 := buf, failed;
      ghost var tail := EncString(ctx, j.server);
      if j.server == SERVER_INTEROP && j.server != SERVER_MSGR {
        Push(U16Bytes(j.integrator));
        ghost var buf4, failed4 := buf, failed;
        StringBytes(j.server);
        EffectThen(buf3, failed3, Some(U16Bytes(j.integrator)), buf4, failed4, tail, buf, failed);
        tail := Join(Some(U16Bytes(j.integrator)), tail);
      } else {
        StringBytes(j.server);
      }
      EffectThen(buf2, failed2, Some(U16Bytes(j.device)), buf3, failed3, tail, buf, failed);
      tail := Join(Some(U16Bytes(j.device)), tail);
      EffectThen(buf1, failed1, EncString(ctx, j.user), buf2, failed2, tail, buf, failed);
      tail := Join(EncString(ctx, j.user), tail);
      EffectThen(old(buf), old(failed), Some([tag]), buf1, failed1, tail, buf, failed);
    }

    method WriteNode(n: Node)
      modifies this
      ensures Effect(old(buf), old(failed), EncNode(ctx, n), buf, failed)
      decreases n, 1
    {
      hide EncString, EncAttrs, EncValue, EncListStart, SortedKeys;
      if failed {
        return;
      }
      if n.tag == NULL_TAG {
        Push([LIST_8, LIST_EMPTY]);
        return;
      }
      var hasContent := if n.content == Nil then 0 else 1;
      var keys := CountableAttrs(n);
      var size := 2 * |keys| + 1 + hasContent;
      KeysAreAttrs(n);
      hide Effect;
      ListStart(size);
      ghost var buf1, failed1 := buf, failed;
      StringBytes(n.tag);
      ghost var buf2, failed2 := buf, failed;
      WriteAttrs(n, keys);
      ghost var buf3, failed3 := buf, failed;
      ghost var content := if n.content == Nil then Some([]) else EncValue(ctx, n.content);
      if hasContent == 1 {
        WriteValue(n.content);
      } else {
        EffectNothing(buf, failed);
      }
      EffectThen(buf2, failed2, EncAttrs(ctx, n, keys), buf3, failed3, content, buf, failed);
      ghost var tail := Join(EncAttrs(ctx, n, keys), content);
      EffectThen(buf1, failed1, EncString(ctx, n.tag), buf2, failed2, tail, buf, failed);
      EffectThen(old(buf), old(failed), EncListStart(size), buf1, failed1, Join(EncString(ctx, n.tag), tail), buf, failed);
    }

    // The attribute loop.
    method WriteAttrs(n: Node, keys: seq<Bytes>)
      requires forall k :: k in keys ==> k in n.attrs
      modifies this
      ensures Effect(old(buf), old(failed), EncAttrs(ctx, n, keys), buf, failed)
      decreases n, 0
    {
      hide EncString, EncValue, Effect;
      ghost var done: Option<Bytes> := Some([]);
      EffectNothing(buf, failed);
      JoinNothing(EncAttrs(ctx, n, keys));
      assert keys[0..] == keys;
      for i := 0 to |keys|
        invariant Effect(old(buf), old(failed), done, buf, failed)
        invariant Join(done, EncAttrs(ctx, n, keys[i..])) == EncAttrs(ctx, n, keys)
      {
        var k := keys[i];
        assert k in keys && keys[i..][0] == k && keys[i..][1..] == keys[i + 1..];
        ghost var buf1, failed1 := buf, failed;
        StringBytes(k);
        ghost var buf2, failed2 := buf, failed;
        WriteValue(n.attrs[k]);
        EffectThen(buf1, failed1, EncString(ctx, k), buf2, failed2, EncValue(ctx, n.attrs[k]), buf, failed);
        ghost var pair := Join(EncString(ctx, k), EncValue(ctx, n.attrs[k]));
        EffectThen(old(buf), old(failed), done, buf1, failed1, pair, buf, failed);
        JoinAssociates(done, pair, EncAttrs(ctx, n, keys[i + 1..]));
        done := Join(done, pair);
      }
      assert keys[|keys|..] == [];
      JoinNothing(done);
    }

    method WriteValue(v: Value)
      modifies this
      ensures Effect(old(buf), old(failed), EncValue(ctx, v), buf, failed)
      decreases v, 0
    {
      hide EncString, EncBlob, EncJid, EncNode, EncListStart;
      match v
      case Nil => Push([LIST_EMPTY]);
      case Text(s) => StringBytes(s);
      case Blob(b) => BlobBytes(b);
      case Address(j) => JidBytes(j);
      case Single(n) => WriteNode(n);
      case Flag(on) => StringBytes(FlagText(on));
      case Number(k) => StringBytes(Decimal(k));
      case Unsupported => failed := true;
      case Children(nodes) =>
        ListStart(|nodes|);
        ghost var buf1, failed1 := buf, failed;
        WriteNodes(nodes);
        EffectThen(old(buf), old(failed), EncListStart(|nodes|), buf1, failed1, EncNodes(ctx, nodes), buf, failed);
    }

    // The child loop.
    method WriteNodes(nodes: seq<Node>)
      modifies this
      ensures Effect(old(buf), old(failed), EncNodes(ctx, nodes), buf, failed)
      decreases nodes, 0
    {
      hide EncNode, Effect;
      ghost var done: Option<Bytes> := Some([]);
      EffectNothing(buf, failed);
      JoinNothing(EncNodes(ctx, nodes));
      assert nodes[0..] == nodes;
      for i := 0 to |nodes|
        invariant Effect(old(buf), old(failed), done, buf, failed)
        invariant Join(done, EncNodes(ctx, nodes[i..])) == EncNodes(ctx, nodes)
      {
        assert nodes[i..][0] == nodes[i] && nodes[i..][1..] == nodes[i + 1..];
        ghost var buf1, failed1 := buf, failed;
        WriteNode(nodes[i]);
        EffectThen(old(buf), old(failed), done, buf1, failed1, EncNode(ctx, nodes[i]), buf, failed);
        JoinAssociates(done, EncNode(ctx, nodes[i]), EncNodes(ctx, nodes[i + 1..]));
        done := Join(done, EncNode(ctx, nodes[i]));
      }
      assert nodes[|nodes|..] == [];
      JoinNothing(done);
    }
  }

  lemma PackableFits(tag: Byte, s: Bytes)
    requires Packable(tag, s)
    ensures |s| <= PACKED_MAX
  {
  }

  lemma PackPairsMore(tag: Byte, s: Bytes, i: nat, done: Bytes)
    requires i + 1 < |s|
    ensures done + PackPairs(tag, s[i..]) == (done + [Pack(tag, s[i]) * 16 + Pack(tag, s[i + 1])]) + PackPairs(tag, s[i + 2..])
  {
  }

  lemma PackPairsEnd(tag: Byte, s: Bytes, i: nat, done: Bytes)
    requires i <= |s| <= i + 1
    ensures done + PackPairs(tag, s[i..]) == if i == |s| then done else done + [Pack(tag, s[|s| - 1]) * 16]
  {
  }

  lemma EffectNothing(buf: Bytes, failed: bool)
    ensures Effect(buf, failed, Some([]), buf, failed)
  {
  }

  lemma KeysAreAttrs(n: Node)
    ensures forall k :: k in SortedKeys(CountableKeys(n)) ==> k in n.attrs
  {
  }

  // Encode and MarshalDict
  method MarshalDict(c: Context, n: Node) returns (payload: Bytes)
    ensures match EncNode(c, n)
            case None => payload == []
            case Some(stream) => payload == [0] + stream
  {
    hide EncNode;
    var enc := new Encoder(c);
    enc.WriteNode(n);
    if enc.failed {
      return [];
    }
    assert EncNode(c, n).Some? ==> [] + EncNode(c, n).value == EncNode(c, n).value;
    return [0] + enc.buf;
  }
}
