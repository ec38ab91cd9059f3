// Decoding what was encoded.
//
// Every node that can be encoded reads back as its normal form, leaving
// exactly the bytes that followed it; the nodes that read back unchanged are
// the canonical ones.
module NodeRoundTrip {
  import opened Common
  import opened Tokens
  import opened Nodes
  import opened NodeDecoding
  import opened NodeEncoding

  ghost predicate GoodDictionary(c: Context) {
    c.dict.WireSafe() && c.dict.Indexed()
  }

  // ---------------------------------------------------------------------
  // Normal forms: what comes back, or nothing when reading must fail

  // A string written as a token or packed stays a string; one written as a
  // chunk does only if it is UTF-8.
  predicate Compressed(c: Context, s: Bytes) {
    c.dict.IndexOfSingle(s).Some? || c.dict.IndexOfDouble(s).Some? || Packable(NIBBLE_8, s) || Packable(HEX_8, s)
  }

  function NormText(c: Context, s: Bytes): Value {
    if Compressed(c, s) || c.lib.utf8Valid(s) then Text(s) else Blob(s)
  }

  function NormJid(j: Jid): Option<Jid> {
    if IsADJIDEncodable(j) then Some(NewADJID(j.user, ActualAgent(j), j.device % 256))
    else if j.server == SERVER_MSGR then Some(j.(rawAgent := 0, integrator := 0))
    else if j.server == SERVER_INTEROP then Some(j.(rawAgent := 0))
    else if j.server == [] then None
    else Some(Jid(j.user, 0, 0, 0, j.server))
  }

  ghost function NormNode(c: Context, n: Node): Option<Node>
    decreases n, 1
  {
    if n.tag == NULL_TAG then Some(Node(NULL_TAG, map[], Nil))
    else
      var content := if n.content == Nil then Some(Nil) else NormValue(c, n.content);
      if content.None? || exists k :: k in CountableKeys(n) && NormValue(c, n.attrs[k]).None? then None
      else Some(Node(n.tag, map k | k in CountableKeys(n) :: NormValue(c, n.attrs[k]).value, content.value))
  }

  ghost function NormValue(c: Context, v: Value): Option<Value>
    decreases v, 0
  {
    match v
    case Nil => Some(Nil)
    case Text(s) => Some(NormText(c, s))
    case Blob(b) => Some(if c.lib.utf8Valid(b) then Text(b) else Blob(b))
    case Address(j) => (match NormJid(j) case None => None case Some(k) => Some(Address(k)))
    case Children(nodes) =>
      if nodes == [] then Some(Nil)
      else (match NormNodes(c, nodes) case None => None case Some(ns) => Some(Children(ns)))
    case Single(n) => if n.tag == NULL_TAG then Some(Children([])) else None
    case Flag(on) => Some(NormText(c, FlagText(on)))
    case Number(k) => Some(NormText(c, Decimal(k)))
    case Unsupported => None
  }

  ghost function NormNodes(c: Context, nodes: seq<Node>): Option<seq<Node>>
    decreases nodes, 0
  {
    if nodes == [] then Some([])
    else
      match (NormNode(c, nodes[0]), NormNodes(c, nodes[1..]))
      case (Some(n), Some(ns)) => Some([n] + ns)
      case _ => None
  }

  // Reading gave the normal form and stopped at r, or failed if there is none.
  ghost predicate Reads<T>(norm: Option<T>, got: Read<T>, r: Bytes) {
    match norm
    case None => got.Fail?
    case Some(v) => got == Got(v, r)
  }

  // ---------------------------------------------------------------------
  // Scalars

  lemma ListStartReads(size: nat, r: Bytes)
    requires EncListStart(size).Some? && size > 0
    ensures var s := EncListStart(size).value + r;
            && ReadByte(s) == Got(s[0], s[1..])
            && (s[0] == LIST_8 || s[0] == LIST_16)
            && ListSize(s[0], s[1..]) == Got(size, r)
  {
    var s := EncListStart(size).value + r;
    if size < 256 {
      assert s[1..][..1] == [size] && s[1..][1..] == r;
      BigEndian1(size);
    } else {
      assert s[1..][..2] == [size / 256, size % 256] && s[1..][2..] == r;
      BigEndian2(size / 256, size % 256);
    }
  }

  lemma Digits4(n: nat)
    requires n < 0x8000_0000
    ensures n / 0x100_0000 < 256
    ensures n / 0x100_0000 * 0x100_0000 + n / 0x1_0000 % 256 * 0x1_0000 + n / 256 % 256 * 256 + n % 256 == n
  {
  }

  lemma LengthReads(n: nat, r: Bytes)
    requires EncLength(n).Some?
    ensures var s := EncLength(n).value + r;
            && (s[0] == BINARY_8 || s[0] == BINARY_20 || s[0] == BINARY_32)
            && ChunkLength(s[0], s[1..]) == Got(n, r)
  {
    if n < 256 {
      Length8Reads(n, r);
    } else if n < 0x10_0000 {
      Length20Reads(n, r);
    } else {
      Length32Reads(n, r);
    }
  }

  lemma Length8Reads(n: Byte, r: Bytes)
    ensures ChunkLength(BINARY_8, ([BINARY_8, n] + r)[1..]) == Got(n, r)
  {
    var s := ([BINARY_8, n] + r)[1..];
    assert s[..1] == [n] && s[1..] == r;
    BigEndian1(n);
  }

  lemma Length20Reads(n: nat, r: Bytes)
    requires n < 0x10_0000
    ensures ChunkLength(BINARY_20, ([BINARY_20, n / 0x1_0000 % 16, n / 256 % 256, n % 256] + r)[1..]) == Got(n, r)
  {
  }

  lemma Length32Reads(n: nat, r: Bytes)
    requires n < 0x7FFF_FFFF
    ensures ChunkLength(BINARY_32, ([BINARY_32, n / 0x100_0000, n / 0x1_0000 % 256, n / 256 % 256, n % 256] + r)[1..]) == Got(n, r)
  {
    var s := ([BINARY_32, n / 0x100_0000, n / 0x1_0000 % 256, n / 256 % 256, n % 256] + r)[1..];
    assert s[..4] == [n / 0x100_0000, n / 0x1_0000 % 256, n / 256 % 256, n % 256] && s[4..] == r;
    BigEndian4(n / 0x100_0000, n / 0x1_0000 % 256, n / 256 % 256, n % 256);
    Digits4(n);
  }

  lemma BlobReads(c: Context, b: Bytes, r: Bytes, asString: bool)
    requires EncBlob(b).Some?
    ensures ReadContent(c, EncBlob(b).value + r, asString)
         == Got(if asString && c.lib.utf8Valid(b) then Text(b) else Blob(b), r)
  {
    LengthReads(|b|, b + r);
    assert EncBlob(b).value + r == EncLength(|b|).value + (b + r);
    assert (b + r)[..|b|] == b && (b + r)[|b|..] == r;
  }

  lemma PackedReads(tag: Byte, s: Bytes, r: Bytes)
    requires Packable(tag, s)
    ensures ReadPacked(tag, EncPacked(tag, s)[1..] + r) == Got(s, r)
  {
    hide PackPairs, UnpackPairs;
    var packed := PackPairs(tag, s);
    var e := EncPacked(tag, s)[1..] + r;
    assert e[1..] == packed + r;
    assert (packed + r)[..|packed|] == packed && (packed + r)[|packed|..] == r;
    UnpackPack(tag, s);
    assert e[0] % 128 == |packed|;
    assert (s + [48])[..|s|] == s;
  }

  lemma PackedContentReads(c: Context, tag: Byte, s: Bytes, r: Bytes, asString: bool)
    requires tag == NIBBLE_8 || tag == HEX_8
    requires Packable(tag, s)
    ensures ReadContent(c, EncPacked(tag, s) + r, asString) == Got(Text(s), r)
  {
    hide PackPairs, ReadPacked;
    PackedReads(tag, s, r);
    assert (EncPacked(tag, s) + r)[1..] == EncPacked(tag, s)[1..] + r;
  }

  lemma SingleReads(c: Context, i: Byte, t: Bytes, r: Bytes, asString: bool)
    requires !IsTag(i) && c.dict.SingleToken(i) == Some(t)
    ensures ReadContent(c, [i] + r, asString) == Got(Text(t), r)
  {
  }

  lemma DoubleReads(c: Context, d: Byte, i: Byte, t: Bytes, r: Bytes, asString: bool)
    requires d < 4 && c.dict.DoubleToken(d, i) == Some(t)
    ensures ReadContent(c, [DICTIONARY_0 + d, i] + r, asString) == Got(Text(t), r)
  {
  }

  lemma SingleTokenReads(c: Context, s: Bytes, r: Bytes, asString: bool)
    requires GoodDictionary(c) && c.dict.IndexOfSingle(s).Some?
    ensures EncString(c, s) == Some([c.dict.IndexOfSingle(s).value])
    ensures ReadContent(c, EncString(c, s).value + r, asString) == Got(Text(s), r)
    ensures !StartsList(EncString(c, s).value[0])
  {
    hide ReadContent, Packable, EncPacked, EncBlob;
    SingleInverts(c.dict, s);
    SingleReads(c, c.dict.IndexOfSingle(s).value, s, r, asString);
  }

  lemma DoubleTokenReads(c: Context, s: Bytes, r: Bytes, asString: bool)
    requires GoodDictionary(c) && c.dict.IndexOfSingle(s).None? && c.dict.IndexOfDouble(s).Some?
    ensures EncString(c, s).Some? && |EncString(c, s).value| == 2
    ensures ReadContent(c, EncString(c, s).value + r, asString) == Got(Text(s), r)
    ensures !StartsList(EncString(c, s).value[0])
  {
    hide ReadContent, Packable, EncPacked, EncBlob;
    DoubleInverts(c.dict, s);
    DoubleReads(c, c.dict.IndexOfDouble(s).value.0, c.dict.IndexOfDouble(s).value.1, s, r, asString);
  }

  lemma TokenReads(c: Context, s: Bytes, r: Bytes, asString: bool)
    requires GoodDictionary(c) && (c.dict.IndexOfSingle(s).Some? || c.dict.IndexOfDouble(s).Some?)
    ensures EncString(c, s).Some?
    ensures ReadContent(c, EncString(c, s).value + r, asString) == Got(Text(s), r)
    ensures EncString(c, s).value != [] && !StartsList(EncString(c, s).value[0])
  {
    hide ReadContent, EncString, GoodDictionary;
    if c.dict.IndexOfSingle(s).Some? {
      SingleTokenReads(c, s, r, asString);
    } else {
      DoubleTokenReads(c, s, r, asString);
    }
  }

  predicate StartsList(b: Byte) {
    b == LIST_EMPTY || b == LIST_8 || b == LIST_16
  }

  // What a value position holding this string reads as.
  lemma StringReads(c: Context, s: Bytes, r: Bytes, asString: bool)
    requires GoodDictionary(c) && EncString(c, s).Some?
    ensures ReadContent(c, EncString(c, s).value + r, asString)
         == Got(if Compressed(c, s) || (asString && c.lib.utf8Valid(s)) then Text(s) else Blob(s), r)
    ensures EncString(c, s).value != [] && !StartsList(EncString(c, s).value[0])
  {
    hide ReadContent, Packable, GoodDictionary;
    if c.dict.IndexOfSingle(s).Some? || c.dict.IndexOfDouble(s).Some? {
      TokenReads(c, s, r, asString);
    } else if Packable(NIBBLE_8, s) {
      PackedContentReads(c, NIBBLE_8, s, r, asString);
    } else if Packable(HEX_8, s) {
      PackedContentReads(c, HEX_8, s, r, asString);
    } else {
      BlobReads(c, s, r, asString);
    }
  }

  // Tags, keys and address parts read back as the very same string.
  lemma StringlikeReads(c: Context, s: Bytes, r: Bytes)
    requires GoodDictionary(c) && EncString(c, s).Some?
    ensures ReadStringlike(c, EncString(c, s).value + r) == Got(Text(s), r)
  {
    StringReads(c, s, r, false);
  }

  // ---------------------------------------------------------------------
  // Addresses

  lemma U16Reads(n: U16, r: Bytes)
    ensures ReadInt(U16Bytes(n) + r, 2) == Got(n, r)
  {
    assert (U16Bytes(n) + r)[..2] == [n / 256, n % 256] && (U16Bytes(n) + r)[2..] == r;
    BigEndian2(n / 256, n % 256);
  }

  lemma ADJidReads(c: Context, j: Jid, r: Bytes)
    requires GoodDictionary(c) && EncString(c, j.user).Some?
    ensures ReadJid(c, AD_JID, [ActualAgent(j), j.device % 256] + (EncString(c, j.user).value + r))
         == Got(NewADJID(j.user, ActualAgent(j), j.device % 256), r)
  {
    hide EncString, ReadStringlike, GoodDictionary, NewADJID, ActualAgent;
    var tail := EncString(c, j.user).value + r;
    var s := [ActualAgent(j), j.device % 256] + tail;
    assert s[1..] == [j.device % 256] + tail;
    assert s[1..][1..] == tail;
    StringlikeReads(c, j.user, r);
  }

  lemma NilReads(c: Context, r: Bytes, asString: bool)
    ensures ReadContent(c, [LIST_EMPTY] + r, asString) == Got(Nil, r)
  {
  }

  lemma PairReads(c: Context, j: Jid, r: Bytes)
    requires GoodDictionary(c) && EncString(c, j.server).Some?
    requires j.user != [] ==> EncString(c, j.user).Some?
    ensures var user := if j.user == [] then [LIST_EMPTY] else EncString(c, j.user).value;
            Reads(if j.server == [] then None else Some(Jid(j.user, 0, 0, 0, j.server)),
                  ReadJid(c, JID_PAIR, user + (EncString(c, j.server).value + r)), r)
  {
    hide EncString, GoodDictionary;
    var tail := EncString(c, j.server).value + r;
    StringlikeReads(c, j.server, r);
    if j.user == [] {
      NilReads(c, tail, false);
    } else {
      StringlikeReads(c, j.user, tail);
    }
  }

  lemma ForeignJidReads(c: Context, tag: Byte, j: Jid, r: Bytes)
    requires GoodDictionary(c) && (tag == FB_JID || tag == INTEROP_JID)
    requires EncString(c, j.user).Some? && EncString(c, j.server).Some?
    ensures var server := EncString(c, j.server).value + r;
            var tail := if tag == FB_JID then server else U16Bytes(j.integrator) + server;
            ReadJid(c, tag, EncString(c, j.user).value + (U16Bytes(j.device) + tail))
            == Got(Jid(j.user, 0, j.device, if tag == FB_JID then 0 else j.integrator, j.server), r)
  {
    hide EncString, GoodDictionary, U16Bytes, ReadInt, ReadStringlike;
    var server := EncString(c, j.server).value + r;
    var tail := if tag == FB_JID then server else U16Bytes(j.integrator) + server;
    StringlikeReads(c, j.user, U16Bytes(j.device) + tail);
    U16Reads(j.device, tail);
    U16Reads(j.integrator, server);
    StringlikeReads(c, j.server, r);
  }

  lemma Regroup2(tag: Byte, a: Bytes, b: Bytes, r: Bytes)
    ensures (([tag] + (a + b)) + r)[1..] == a + (b + r)
  {
  }

  lemma Regroup3(tag: Byte, a: Bytes, b: Bytes, d: Bytes, r: Bytes)
    ensures (([tag] + (a + (b + d))) + r)[1..] == a + (b + (d + r))
  {
  }

  lemma Regroup4(tag: Byte, a: Bytes, b: Bytes, d: Bytes, e: Bytes, r: Bytes)
    ensures (([tag] + (a + (b + (d + e)))) + r)[1..] == a + (b + (d + (e + r)))
  {
  }

  lemma JidReads(c: Context, j: Jid, r: Bytes)
    requires GoodDictionary(c) && EncJid(c, j).Some?
    ensures EncJid(c, j).value != []
    ensures var s := EncJid(c, j).value + r;
            && (s[0] == FB_JID || s[0] == INTEROP_JID || s[0] == JID_PAIR || s[0] == AD_JID)
            && Reads(NormJid(j), ReadJid(c, s[0], s[1..]), r)
  {
    hide EncString, GoodDictionary, U16Bytes, ReadJid, NewADJID, ActualAgent, IsADJIDEncodable;
    if IsADJIDEncodable(j) {
      ADJidReads(c, j, r);
      assert [AD_JID, ActualAgent(j), j.device % 256] == [AD_JID] + [ActualAgent(j), j.device % 256];
      Regroup2(AD_JID, [ActualAgent(j), j.device % 256], EncString(c, j.user).value, r);
      assert EncJid(c, j).value == [AD_JID] + ([ActualAgent(j), j.device % 256] + EncString(c, j.user).value);
    } else if j.server == SERVER_MSGR {
      ForeignJidReads(c, FB_JID, j, r);
      Regroup3(FB_JID, EncString(c, j.user).value, U16Bytes(j.device), EncString(c, j.server).value, r);
    } else if j.server == SERVER_INTEROP {
      ForeignJidReads(c, INTEROP_JID, j, r);
      Regroup4(INTEROP_JID, EncString(c, j.user).value, U16Bytes(j.device), U16Bytes(j.integrator),
               EncString(c, j.server).value, r);
    } else {
      PairReads(c, j, r);
      Regroup2(JID_PAIR, if j.user == [] then [LIST_EMPTY] else EncString(c, j.user).value,
               EncString(c, j.server).value, r);
    }
  }

  // ---------------------------------------------------------------------
  // Attributes

  // The attribute map after the given keys have been read on top of `attrs`.
  ghost function NormAttrs(c: Context, n: Node, keys: seq<Bytes>, attrs: map<Bytes, Value>): Option<map<Bytes, Value>>
    requires forall k :: k in keys ==> k in n.attrs
    decreases |keys|
  {
    if keys == [] then Some(attrs)
    else
      assert keys[0] in keys;
      match NormValue(c, n.attrs[keys[0]])
      case None => None
      case Some(v) => NormAttrs(c, n, keys[1..], attrs[keys[0] := v])
  }

  // All keys normalised, on top of what was there.
  ghost predicate Normalised(c: Context, n: Node, keys: seq<Bytes>, attrs: map<Bytes, Value>, m: map<Bytes, Value>)
    requires forall k :: k in keys ==> k in n.attrs
  {
    && (forall k :: k in m <==> k in attrs || k in keys)
    && (forall k :: k in keys ==> NormValue(c, n.attrs[k]) == Some(m[k]))
    && (forall k :: k in attrs && k !in keys ==> m[k] == attrs[k])
  }

  lemma {:induction false} NormAttrsAll(c: Context, n: Node, keys: seq<Bytes>, attrs: map<Bytes, Value>)
    requires Ascending(keys) && forall k :: k in keys ==> k in n.attrs
    ensures match NormAttrs(c, n, keys, attrs)
            case None => exists k :: k in keys && NormValue(c, n.attrs[k]).None?
            case Some(m) => Normalised(c, n, keys, attrs, m)
    decreases |keys|
  {
    hide NormValue, Less;
    if keys != [] {
      var k0 := keys[0];
      assert k0 in keys && forall k :: k in keys <==> k == k0 || k in keys[1..];
      HeadIsLeast(keys);
      var v := NormValue(c, n.attrs[k0]);
      if v.Some? {
        NormAttrsAll(c, n, keys[1..], attrs[k0 := v.value]);
      }
    }
  }

  // ---------------------------------------------------------------------
  // Nodes

  lemma {:induction false} ValueReads(c: Context, v: Value, r: Bytes)
    requires GoodDictionary(c) && EncValue(c, v).Some?
    ensures Reads(NormValue(c, v), ReadContent(c, EncValue(c, v).value + r, true), r)
    decreases v, 0
  {
    match v
    case Nil => NilReads(c, r, true);
    case Text(s) => StringReads(c, s, r, true);
    case Blob(b) => BlobReads(c, b, r, true);
    case Address(j) => AddressReads(c, j, r);
    case Flag(on) => StringReads(c, FlagText(on), r, true);
    case Number(k) => StringReads(c, Decimal(k), r, true);
    case Single(n) => BareNodeReads(c, n, r);
    case Children(nodes) =>
      if nodes == [] {
        NilReads(c, r, true);
        assert EncValue(c, v).value == [LIST_EMPTY];
      } else {
        NodesRead(c, nodes, r);
        ChildrenRead(c, nodes, r);
      }
  }

  lemma AddressReads(c: Context, j: Jid, r: Bytes)
    requires GoodDictionary(c) && EncJid(c, j).Some?
    ensures Reads(NormValue(c, Address(j)), ReadContent(c, EncJid(c, j).value + r, true), r)
  {
    hide EncJid, GoodDictionary, ReadJid, NormJid;
    JidReads(c, j, r);
  }

  // The children of a node, given that they read back one by one.
  lemma ChildrenRead(c: Context, nodes: seq<Node>, r: Bytes)
    requires nodes != [] && EncListStart(|nodes|).Some? && EncNodes(c, nodes).Some?
    requires Reads(NormNodes(c, nodes), ReadNodes(c, EncNodes(c, nodes).value + r, |nodes|), r)
    ensures Reads(NormValue(c, Children(nodes)),
                  ReadContent(c, EncListStart(|nodes|).value + EncNodes(c, nodes).value + r, true), r)
  {
    hide EncListStart, EncNodes, NormNodes, ReadNodes, ListSize;
    var tail := EncNodes(c, nodes).value + r;
    ListStartReads(|nodes|, tail);
    assert EncListStart(|nodes|).value + EncNodes(c, nodes).value + r == EncListStart(|nodes|).value + tail;
  }

  // A bare node in a value position reads as a list of nodes: an empty one for
  // the null node, otherwise a failure at the node's own tag.
  lemma BareNodeReads(c: Context, n: Node, r: Bytes)
    requires GoodDictionary(c) && EncNode(c, n).Some?
    ensures Reads(NormValue(c, Single(n)), ReadContent(c, EncNode(c, n).value + r, true), r)
  {
    hide GoodDictionary, ReadContent, SortedKeys;
    if n.tag == NULL_TAG {
      EmptyListReads(c, r);
    } else {
      hide EncNode;
      BareNodeFails(c, n, r);
    }
  }

  lemma BareNodeFails(c: Context, n: Node, r: Bytes)
    requires GoodDictionary(c) && EncNode(c, n).Some? && n.tag != NULL_TAG
    ensures ReadContent(c, EncNode(c, n).value + r, true).Fail?
  {
    hide GoodDictionary, EncNode, EncString, EncAttrs, EncValue, EncListStart, ReadNodes, ListSize, ReadContent, SortedKeys;
    var keys := SortedKeys(CountableKeys(n));
    EncNodeParts(c, n, keys, r);
    var after := EncAttrs(c, n, keys).value + (ContentBytes(c, n) + r);
    var tail := EncString(c, n.tag).value + after;
    hide ContentBytes, CountableKeys;
    ListStartReads(NodeSize(n, keys), tail);
    StringReads(c, n.tag, after, false);
    NotANode(c, tail, NodeSize(n, keys));
    FailingList(c, EncNode(c, n).value + r, NodeSize(n, keys), tail);
  }

  lemma FailingList(c: Context, s: Bytes, size: nat, tail: Bytes)
    requires s != [] && (s[0] == LIST_8 || s[0] == LIST_16) && ListSize(s[0], s[1..]) == Got(size, tail)
    requires ReadNodes(c, tail, size).Fail?
    ensures ReadContent(c, s, true).Fail?
  {
    hide ListSize, ReadNodes;
  }

  lemma EmptyListReads(c: Context, r: Bytes)
    ensures ReadContent(c, [LIST_8, LIST_EMPTY] + r, true) == Got(Children([]), r)
  {
    var s := [LIST_8, LIST_EMPTY] + r;
    EmptySize(r);
    assert ReadNodes(c, r, 0) == Got([], r);
    assert ReadList(c, s) == Got([], r);
  }

  lemma EmptySize(r: Bytes)
    ensures ListSize(LIST_8, ([LIST_8, LIST_EMPTY] + r)[1..]) == Got(0, r)
  {
    var s := ([LIST_8, LIST_EMPTY] + r)[1..];
    assert s[..1] == [0] && s[1..] == r;
    BigEndian1(0);
  }

  lemma NotANode(c: Context, s: Bytes, count: nat)
    requires s != [] && !StartsList(s[0]) && count > 0
    ensures ReadNodes(c, s, count).Fail?
  {
  }

  lemma {:induction false} NodesRead(c: Context, nodes: seq<Node>, r: Bytes)
    requires GoodDictionary(c) && EncNodes(c, nodes).Some?
    ensures Reads(NormNodes(c, nodes), ReadNodes(c, EncNodes(c, nodes).value + r, |nodes|), r)
    decreases nodes, 0
  {
    if nodes == [] {
      assert EncNodes(c, nodes).value + r == r;
    } else {
      var tail := EncNodes(c, nodes[1..]).value + r;
      assert EncNodes(c, nodes).value + r == EncNode(c, nodes[0]).value + tail;
      NodeReads(c, nodes[0], tail);
      NodesRead(c, nodes[1..], r);
    }
  }

  lemma {:induction false} AttrsRead(c: Context, n: Node, keys: seq<Bytes>, attrs: map<Bytes, Value>, r: Bytes)
    requires GoodDictionary(c) && (forall k :: k in keys ==> k in n.attrs) && EncAttrs(c, n, keys).Some?
    ensures Reads(NormAttrs(c, n, keys, attrs), ReadAttrs(c, EncAttrs(c, n, keys).value + r, |keys|, attrs), r)
    decreases n, 0, |keys|
  {
    hide GoodDictionary, EncString, EncValue, ReadContent, ReadStringlike, NormValue;
    if keys == [] {
      assert EncAttrs(c, n, keys).value + r == r;
    } else {
      var k := keys[0];
      assert k in keys;
      var tail := EncAttrs(c, n, keys[1..]).value + r;
      var val := EncValue(c, n.attrs[k]).value + tail;
      assert EncAttrs(c, n, keys).value + r == EncString(c, k).value + val;
      StringlikeReads(c, k, val);
      ValueReads(c, n.attrs[k], tail);
      if NormValue(c, n.attrs[k]).Some? {
        AttrsRead(c, n, keys[1..], attrs[k := NormValue(c, n.attrs[k]).value], r);
      }
    }
  }

  // Every encodable node reads back as its normal form and the reader stops
  // exactly where the node's encoding ends.
  lemma {:induction false} NodeReads(c: Context, n: Node, r: Bytes)
    requires GoodDictionary(c) && EncNode(c, n).Some?
    ensures Reads(NormNode(c, n), ReadNode(c, EncNode(c, n).value + r), r)
    decreases n, 1
  {
    if n.tag == NULL_TAG {
      NullNodeReads(c, r);
    } else {
      var keys := SortedKeys(CountableKeys(n));
      EncNodeParts(c, n, keys, r);
      AttrsRead(c, n, keys, map[], ContentBytes(c, n) + r);
      if n.content != Nil {
        ValueReads(c, n.content, r);
      }
      AssembledNodeReads(c, n, keys, r);
    }
  }

  lemma NullNodeReads(c: Context, r: Bytes)
    ensures ReadNode(c, [LIST_8, LIST_EMPTY] + r) == Got(Node(NULL_TAG, map[], Nil), r)
  {
    EmptySize(r);
  }

  // How the reader puts a node together from its parts.
  ghost function Assemble(size: nat, name: Bytes, attrs: Read<map<Bytes, Value>>, content: Read<Value>): Read<Node> {
    if attrs.Fail? then Fail(attrs.error)
    else if size % 2 == 1 then Got(Node(name, attrs.value, Nil), attrs.rest)
    else if content.Fail? then Fail(content.error)
    else Got(Node(name, attrs.value, content.value), content.rest)
  }

  lemma NodeFromParts(c: Context, s: Bytes, size: nat, tail: Bytes, name: Bytes, s3: Bytes, attrs: Read<map<Bytes, Value>>, content: Read<Value>)
    requires s != [] && (s[0] == LIST_8 || s[0] == LIST_16) && size > 0 && ListSize(s[0], s[1..]) == Got(size, tail)
    requires ReadStringlike(c, tail) == Got(Text(name), s3)
    requires attrs == ReadAttrs(c, s3, (size - 1) / 2, map[])
    requires attrs.Got? && size % 2 == 0 ==> content == ReadContent(c, attrs.rest, true)
    ensures ReadNode(c, s) == Assemble(size, name, attrs, content)
  {
    hide ReadStringlike, ReadAttrs, ReadContent, ListSize;
  }

  lemma EncNodeParts(c: Context, n: Node, keys: seq<Bytes>, r: Bytes)
    requires n.tag != NULL_TAG && EncNode(c, n).Some? && keys == SortedKeys(CountableKeys(n))
    ensures EncListStart(NodeSize(n, keys)).Some? && EncString(c, n.tag).Some? && EncAttrs(c, n, keys).Some?
    ensures n.content != Nil ==> EncValue(c, n.content).Some?
    ensures EncNode(c, n).value + r
         == EncListStart(NodeSize(n, keys)).value
            + (EncString(c, n.tag).value + (EncAttrs(c, n, keys).value + (ContentBytes(c, n) + r)))
  {
    hide EncString, EncAttrs, EncValue, EncListStart, SortedKeys;
  }

  function NodeSize(n: Node, keys: seq<Bytes>): nat {
    2 * |keys| + 1 + if n.content == Nil then 0 else 1
  }

  ghost function ContentBytes(c: Context, n: Node): Bytes
    requires n.content != Nil ==> EncValue(c, n.content).Some?
  {
    if n.content == Nil then [] else EncValue(c, n.content).value
  }

  // A node, given that its attributes and content read back.
  lemma AssembledNodeReads(c: Context, n: Node, keys: seq<Bytes>, r: Bytes)
    requires GoodDictionary(c) && n.tag != NULL_TAG && EncNode(c, n).Some?
    requires keys == SortedKeys(CountableKeys(n))
    requires EncAttrs(c, n, keys).Some? && (n.content != Nil ==> EncValue(c, n.content).Some?)
    requires Reads(NormAttrs(c, n, keys, map[]),
                   ReadAttrs(c, EncAttrs(c, n, keys).value + (ContentBytes(c, n) + r), |keys|, map[]),
                   ContentBytes(c, n) + r)
    requires n.content != Nil ==> Reads(NormValue(c, n.content), ReadContent(c, ContentBytes(c, n) + r, true), r)
    ensures Reads(NormNode(c, n), ReadNode(c, EncNode(c, n).value + r), r)
  {
    hide GoodDictionary, EncNode, EncString, EncAttrs, EncValue, NormValue, ReadNode, ReadAttrs, ReadContent, ReadStringlike,
      EncListStart, ListSize, SortedKeys, NormNode, NormAttrs;
    var attrs := EncAttrs(c, n, keys).value + (ContentBytes(c, n) + r);
    EncNodeParts(c, n, keys, r);
    var tail := EncString(c, n.tag).value + attrs;
    ListStartReads(NodeSize(n, keys), tail);
    StringlikeReads(c, n.tag, attrs);
    NodeFromParts(c, EncNode(c, n).value + r, NodeSize(n, keys), tail, n.tag, attrs,
                  ReadAttrs(c, attrs, |keys|, map[]), ReadContent(c, ContentBytes(c, n) + r, true));
    NormFromParts(c, n, keys);
    assert [] + r == r;
  }

  // The normal form from its parts.
  lemma NormFromParts(c: Context, n: Node, keys: seq<Bytes>)
    requires n.tag != NULL_TAG && keys == SortedKeys(CountableKeys(n))
    ensures NormNode(c, n) ==
            match (NormAttrs(c, n, keys, map[]), if n.content == Nil then Some(Nil) else NormValue(c, n.content))
            case (Some(m), Some(v)) => Some(Node(n.tag, m, v))
            case _ => None
  {
    hide NormValue, SortedKeys, NormAttrs;
    NormAttrsAll(c, n, keys, map[]);
    var m := NormAttrs(c, n, keys, map[]);
    if m.Some? {
      assert forall k :: k in CountableKeys(n) ==> k in keys && NormValue(c, n.attrs[k]).Some?;
      assert m.value == map k | k in CountableKeys(n) :: NormValue(c, n.attrs[k]).value;
    }
  }
}
