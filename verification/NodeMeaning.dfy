// What arrives of a node, in the sender's own terms.
module NodeMeaning {
  import opened Common
  import opened Tokens
  import opened Nodes
  import opened NodeDecoding
  import opened NodeEncoding
  import opened NodeRoundTrip
  import opened NodeCanonical

  // ---------------------------------------------------------------------
  // Texts of flags and numbers

  // The number a decimal text stands for.
  function FromDigits(s: Bytes): int {
    if s == [] then 0 else 10 * FromDigits(s[..|s| - 1]) + s[|s| - 1] - 48
  }

  function FromDecimal(s: Bytes): int {
    if s != [] && s[0] == 45 then -FromDigits(s[1..]) else FromDigits(s)
  }

  lemma {:induction false} DigitsInvert(n: nat)
    ensures Itoa(n) != [] && FromDigits(Itoa(n)) == n && forall i :: 0 <= i < |Itoa(n)| ==> 48 <= Itoa(n)[i] <= 57
  {
    if n >= 10 {
      DigitsInvert(n / 10);
      var s := Itoa(n);
      assert s[..|s| - 1] == Itoa(n / 10);
    } else {
      assert Itoa(n)[..0] == [];
    }
  }

  // The decimal text of a number stands for that number.
  lemma DecimalInverts(n: int)
    ensures FromDecimal(Decimal(n)) == n
  {
    DigitsInvert(if n < 0 then -n else n);
    if n < 0 {
      assert Decimal(n)[1..] == Itoa(-n);
    }
  }

  // The bytes of a value that came back as text or as a blob.
  function Spelled(v: Value): Option<Bytes> {
    match v
    case Text(s) => Some(s)
    case Blob(b) => Some(b)
    case _ => None
  }

  // ---------------------------------------------------------------------
  // One node

  lemma NormAttributes(c: Context, n: Node, m: Node)
    requires n.tag != NULL_TAG && NormNode(c, n) == Some(m)
    ensures m.tag == n.tag
    ensures forall k :: k in m.attrs <==> k in n.attrs && n.attrs[k] != Nil && n.attrs[k] != Text([])
    ensures forall k :: k in m.attrs ==> NormValue(c, n.attrs[k]) == Some(m.attrs[k])
  {
    hide NormValue;
  }

  // How a flag and a number are spelled.
  ghost predicate SpelledOut(v: Value, w: Value) {
    && (v == Flag(true) ==> Spelled(w) == Some([116, 114, 117, 101]))
    && (v == Flag(false) ==> Spelled(w) == Some([102, 97, 108, 115, 101]))
    && (v.Number? ==> Spelled(w).Some? && FromDecimal(Spelled(w).value) == v.n)
  }

  lemma NormSpells(c: Context, v: Value, w: Value)
    requires NormValue(c, v) == Some(w)
    ensures SpelledOut(v, w)
  {
    hide Decimal, FromDecimal, Compressed;
    if v.Number? {
      DecimalInverts(v.n);
    } else if v.Flag? {
      assert Ascii("true") == [116, 114, 117, 101] && Ascii("false") == [102, 97, 108, 115, 101];
    }
  }

  // A node that is marshalled and decoded keeps its tag and exactly those
  // attributes that are neither missing nor the empty text; a flag comes back as
  // "true" or "false" and a number as its decimal text.
  lemma AttributesArrive(c: Context, n: Node, m: Node)
    requires GoodDictionary(c) && EncNode(c, n).Some? && n.tag != NULL_TAG && Decode(c, Marshal(c, n)) == Ok(m)
    ensures m.tag == n.tag
    ensures forall k :: k in m.attrs <==> k in n.attrs && n.attrs[k] != Nil && n.attrs[k] != Text([])
    ensures forall k :: k in m.attrs ==> SpelledOut(n.attrs[k], m.attrs[k])
  {
    hide ReadNode, EncNode, Decode, Marshal, CanonicalNode, NormNode, NormValue, SpelledOut, GoodDictionary;
    DecodeInvertsMarshal(c, n);
    NormAttributes(c, n, m);
    forall k | k in m.attrs
      ensures SpelledOut(n.attrs[k], m.attrs[k])
    {
      NormSpells(c, n.attrs[k], m.attrs[k]);
    }
  }

  lemma {:induction false} NormNodesAt(c: Context, nodes: seq<Node>, i: nat)
    requires NormNodes(c, nodes).Some? && i < |nodes|
    ensures |NormNodes(c, nodes).value| == |nodes| && NormNode(c, nodes[i]) == Some(NormNodes(c, nodes).value[i])
    decreases i
  {
    hide NormNode;
    NormNodesLength(c, nodes);
    if i > 0 {
      NormNodesAt(c, nodes[1..], i - 1);
    }
  }

  lemma {:induction false} NormNodesLength(c: Context, nodes: seq<Node>)
    requires NormNodes(c, nodes).Some?
    ensures |NormNodes(c, nodes).value| == |nodes|
    decreases |nodes|
  {
    hide NormNode;
    if nodes != [] {
      NormNodesLength(c, nodes[1..]);
    }
  }

  // Its children come back in number and order, each as what it becomes by itself.
  lemma ChildrenArrive(c: Context, n: Node, m: Node)
    requires GoodDictionary(c) && EncNode(c, n).Some? && n.tag != NULL_TAG && Decode(c, Marshal(c, n)) == Ok(m)
    requires n.content.Children? && n.content.nodes != []
    ensures m.content.Children? && |m.content.nodes| == |n.content.nodes|
    ensures forall i :: 0 <= i < |n.content.nodes| ==> NormNode(c, n.content.nodes[i]) == Some(m.content.nodes[i])
  {
    hide ReadNode, EncNode, Decode, Marshal, CanonicalNode;
    DecodeInvertsMarshal(c, n);
    assert NormNode(c, n) == Some(m);
    NormNodesLength(c, n.content.nodes);
    forall i | 0 <= i < |n.content.nodes|
      ensures NormNode(c, n.content.nodes[i]) == Some(m.content.nodes[i])
    {
      NormNodesAt(c, n.content.nodes, i);
    }
  }

  // ---------------------------------------------------------------------
  // Packed characters and device addresses

  // The characters a packed form takes are exactly those that come back, but for
  // the zero byte, which the nibble form uses to fill up.
  lemma PackedCharacters(tag: Byte, ch: Byte)
    requires tag == NIBBLE_8 || tag == HEX_8
    ensures UnpackByte(tag, Pack(tag, ch)) == Some(ch) <==> PackChar(tag, ch) || (tag == NIBBLE_8 && ch == 0)
  {
  }

  // A device address read from the wire determines the three fields it was read
  // from.
  lemma DeviceAddressInjective(user: Bytes, agent: Byte, device: Byte, user': Bytes, agent': Byte, device': Byte)
    ensures NewADJID(user, agent, device) == NewADJID(user', agent', device') <==>
            user == user' && agent == agent' && device == device'
    ensures NewADJID(user, agent, device).integrator == 0
  {
    assert |SERVER_USER| == 14 && |SERVER_LID| == 3 && |SERVER_HOSTED| == 6 && |SERVER_HOSTED_LID| == 10;
  }

  // ---------------------------------------------------------------------
  // The flag byte

  // A payload is taken as it is if its flag is zero, inflated if the flag leaves 2
  // or 3 modulo 4, and refused otherwise.
  lemma UnpackByFlag(c: Context, flag: Byte, body: Bytes)
    ensures var r := Unpack(c, [flag] + body);
            if flag == 0 then r == Ok(body)
            else if flag % 4 >= 2 then r == (if c.lib.inflate(body).Some? then Ok(c.lib.inflate(body).value) else Err(UnsupportedData))
            else r == Err(UnsupportedData)
    ensures Unpack(c, []) == Err(Truncated)
  {
    assert ([flag] + body)[1..] == body;
    assert flag % 4 >= 2 <==> flag / 2 % 2 == 1;
  }
}
