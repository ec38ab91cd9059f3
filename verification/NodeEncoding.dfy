// What the encoder computes: the bytes of a node, or nothing when some part of
// it cannot be encoded.
module NodeEncoding {
  import opened Common
  import opened Tokens
  import opened Nodes

  // ---------------------------------------------------------------------
  // Attribute order

  // Byte-wise string order.
  predicate Less(a: Bytes, b: Bytes) {
    b != [] && (a == [] || a[0] < b[0] || (a[0] == b[0] && Less(a[1..], b[1..])))
  }

  lemma {:induction false} LessTotal(a: Bytes, b: Bytes)
    ensures !(Less(a, b) && Less(b, a))
    ensures Less(a, b) || Less(b, a) || a == b
    ensures !Less(a, a)
  {
    if a != [] {
      LessTotal(a[1..], if b == [] then [] else b[1..]);
      if b != [] && a[0] == b[0] && a[1..] == b[1..] {
        assert a == [a[0]] + a[1..] == b;
      }
    }
  }

  lemma {:induction false} LessTransitive(a: Bytes, b: Bytes, c: Bytes)
    requires Less(a, b) && Less(b, c)
    ensures Less(a, c)
  {
    if a != [] && a[0] == b[0] == c[0] {
      LessTransitive(a[1..], b[1..], c[1..]);
    }
  }

  ghost predicate Ascending(keys: seq<Bytes>) {
    forall i, j :: 0 <= i < j < |keys| ==> Less(keys[i], keys[j])
  }

  function Insert(k: Bytes, keys: seq<Bytes>): seq<Bytes> {
    if keys == [] || Less(k, keys[0]) then [k] + keys else [keys[0]] + Insert(k, keys[1..])
  }

  lemma {:induction false} InsertAscending(k: Bytes, keys: seq<Bytes>)
    requires Ascending(keys) && k !in keys
    ensures Ascending(Insert(k, keys))
    ensures forall x :: x in Insert(k, keys) <==> x == k || x in keys
  {
    if keys != [] {
      var head, tail := keys[0], keys[1..];
      assert keys == [head] + tail;
      LessTotal(k, head);
      if Less(k, head) {
        forall i | 0 <= i < |keys|
          ensures Less(k, keys[i])
        {
          if i > 0 {
            LessTransitive(k, head, keys[i]);
          }
        }
      } else {
        InsertAscending(k, tail);
        var r := Insert(k, tail);
        forall i | 0 <= i < |r|
          ensures Less(head, r[i])
        {
          assert r[i] == k || r[i] in tail;
        }
      }
    }
  }

  // The keys of a set in ascending order.
  ghost function SortedKeys(ks: set<Bytes>): (keys: seq<Bytes>)
    ensures Ascending(keys)
    ensures forall k :: k in keys <==> k in ks
  {
    if ks == {} then []
    else
      var k :| k in ks;
      var rest := SortedKeys(ks - {k});
      InsertAscending(k, rest);
      Insert(k, rest)
  }

  lemma HeadIsLeast(a: seq<Bytes>)
    requires Ascending(a) && a != []
    ensures forall k :: k in a[1..] ==> Less(a[0], k) && k != a[0]
  {
    forall k | k in a[1..]
      ensures Less(a[0], k) && k != a[0]
    {
      var i :| 1 <= i < |a| && a[i] == k;
      LessTotal(a[0], k);
    }
  }

  // There is only one such order, so the stream does not depend on the order
  // in which a map is traversed.
  lemma {:induction false} SortedUnique(a: seq<Bytes>, b: seq<Bytes>)
    requires Ascending(a) && Ascending(b)
    requires forall k :: k in a <==> k in b
    ensures a == b
  {
    if b != [] {
      assert b[0] in a;
    }
    if a != [] {
      assert a[0] in b && b[0] in a;
      HeadIsLeast(a);
      HeadIsLeast(b);
      LessTotal(a[0], b[0]);
      assert a == [a[0]] + a[1..] && b == [b[0]] + b[1..];
      assert a[0] == b[0];
      forall k
        ensures k in a[1..] <==> k in b[1..]
      {
        assert k in a <==> k == a[0] || k in a[1..];
        assert k in b <==> k == b[0] || k in b[1..];
      }
      SortedUnique(a[1..], b[1..]);
    }
  }

  // Attributes that are written: not nil and not the empty string.
  predicate Countable(v: Value) {
    v != Nil && v != Text([])
  }

  function CountableKeys(n: Node): set<Bytes> {
    set k | k in n.attrs && Countable(n.attrs[k])
  }

  // ---------------------------------------------------------------------
  // Bytes

  function Join(a: Option<Bytes>, b: Option<Bytes>): Option<Bytes> {
    if a.Some? && b.Some? then Some(a.value + b.value) else None
  }

  function EncListStart(size: nat): Option<Bytes> {
    if size == 0 then Some([LIST_EMPTY])
    else if size < 256 then Some([LIST_8, size])
    else if size < 0xFFFF then Some([LIST_16, size / 256, size % 256])
    else None
  }

  function EncLength(n: nat): Option<Bytes> {
    if n < 256 then Some([BINARY_8, n])
    else if n < 0x10_0000 then Some([BINARY_20, n / 0x1_0000 % 16, n / 256 % 256, n % 256])
    else if n < 0x7FFF_FFFF then Some([BINARY_32, n / 0x100_0000, n / 0x1_0000 % 256, n / 256 % 256, n % 256])
    else None
  }

  function EncBlob(b: Bytes): Option<Bytes> {
    Join(EncLength(|b|), Some(b))
  }

  function EncPacked(tag: Byte, s: Bytes): Bytes
    requires |s| <= PACKED_MAX
  {
    [tag, (|s| + 1) / 2 + if |s| % 2 == 1 then 128 else 0] + PackPairs(tag, s)
  }

  function EncString(c: Context, s: Bytes): Option<Bytes>
  {
    if c.dict.IndexOfSingle(s).Some? then Some([c.dict.IndexOfSingle(s).value])
    else if c.dict.IndexOfDouble(s).Some? then
      Some([(DICTIONARY_0 as int + c.dict.IndexOfDouble(s).value.0) % 256, c.dict.IndexOfDouble(s).value.1])
    else if Packable(NIBBLE_8, s) then Some(EncPacked(NIBBLE_8, s))
    else if Packable(HEX_8, s) then Some(EncPacked(HEX_8, s))
    else EncBlob(s)
  }

  function U16Bytes(n: U16): Bytes {
    [n / 256, n % 256]
  }

  function EncJid(c: Context, j: Jid): Option<Bytes>
  {
    if IsADJIDEncodable(j) then
      Join(Some([AD_JID, ActualAgent(j), j.device % 256]), EncString(c, j.user))
    else if j.server == SERVER_MSGR then
      Join(Some([FB_JID]), Join(EncString(c, j.user), Join(Some(U16Bytes(j.device)), EncString(c, j.server))))
    else if j.server == SERVER_INTEROP then
      Join(Some([INTEROP_JID]),
           Join(EncString(c, j.user),
                Join(Some(U16Bytes(j.device)), Join(Some(U16Bytes(j.integrator)), EncString(c, j.server)))))
    else
      Join(Some([JID_PAIR]),
           Join(if j.user == [] then Some([LIST_EMPTY]) else EncString(c, j.user), EncString(c, j.server)))
  }

  // Decimal text of a number.
  function Decimal(n: int): Bytes {
    if n < 0 then [45] + Itoa(-n) else Itoa(n)
  }

  function FlagText(on: bool): Bytes {
    if on then Ascii("true") else Ascii("false")
  }

  ghost function EncNode(c: Context, n: Node): Option<Bytes>
    decreases n, 1
  {
    if n.tag == NULL_TAG then Some([LIST_8, LIST_EMPTY])
    else
      var keys := SortedKeys(CountableKeys(n));
      Join(EncListStart(2 * |keys| + 1 + if n.content == Nil then 0 else 1),
           Join(EncString(c, n.tag),
                Join(EncAttrs(c, n, keys), if n.content == Nil then Some([]) else EncValue(c, n.content))))
  }

  ghost function EncAttrs(c: Context, n: Node, keys: seq<Bytes>): Option<Bytes>
    requires forall k :: k in keys ==> k in n.attrs
    decreases n, 0, |keys|
  {
    if keys == [] then Some([])
    else
      assert keys[0] in keys;
      Join(Join(EncString(c, keys[0]), EncValue(c, n.attrs[keys[0]])), EncAttrs(c, n, keys[1..]))
  }

  ghost function EncValue(c: Context, v: Value): Option<Bytes>
    decreases v
  {
    match v
    case Nil => Some([LIST_EMPTY])
    case Text(s) => EncString(c, s)
    case Blob(b) => EncBlob(b)
    case Address(j) => EncJid(c, j)
    case Children(nodes) => Join(EncListStart(|nodes|), EncNodes(c, nodes))
    case Single(n) => EncNode(c, n)
    case Flag(on) => EncString(c, FlagText(on))
    case Number(k) => EncString(c, Decimal(k))
    case Unsupported => None
  }

  ghost function EncNodes(c: Context, nodes: seq<Node>): Option<Bytes>
    decreases nodes
  {
    if nodes == [] then Some([]) else Join(EncNode(c, nodes[0]), EncNodes(c, nodes[1..]))
  }
}
