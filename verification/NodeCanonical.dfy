// Which nodes survive the wire, and the codec's top-level laws.
module NodeCanonical {
  import opened Common
  import opened Tokens
  import opened Nodes
  import opened NodeDecoding
  import opened NodeEncoding
  import opened NodeRoundTrip

  // ---------------------------------------------------------------------
  // Canonical nodes

  // An address that carries only the fields its wire form stores.
  predicate CanonicalJid(j: Jid) {
    && j.server != []
    && j.rawAgent == 0
    && if IsADServer(j.server) then j.device < 256 && j.integrator == 0
       else if j.server == SERVER_MSGR then j.integrator == 0
       else if j.server == SERVER_INTEROP then true
       else j.device == 0 && j.integrator == 0
  }

  ghost predicate CanonicalValue(c: Context, v: Value)
    decreases v, 0
  {
    match v
    case Nil => true
    case Text(s) => Compressed(c, s) || c.lib.utf8Valid(s)
    case Blob(b) => !c.lib.utf8Valid(b)
    case Address(j) => CanonicalJid(j)
    case Children(nodes) => nodes != [] && CanonicalNodes(c, nodes)
    case _ => false
  }

  ghost predicate CanonicalNodes(c: Context, nodes: seq<Node>)
    decreases nodes, 0
  {
    nodes == [] || (CanonicalNode(c, nodes[0]) && CanonicalNodes(c, nodes[1..]))
  }

  // No dropped attribute, no empty child list, no bare node; strings UTF-8 (or
  // written in compressed form), byte values not; the null tag only alone.
  ghost predicate CanonicalNode(c: Context, n: Node)
    decreases n, 1
  {
    && (n.tag == NULL_TAG ==> n.attrs == map[] && n.content == Nil)
    && (forall k :: k in n.attrs ==> Countable(n.attrs[k]) && CanonicalValue(c, n.attrs[k]))
    && CanonicalValue(c, n.content)
  }

  lemma CanonicalJidFixed(j: Jid)
    ensures NormJid(j) == Some(j) <==> CanonicalJid(j)
  {
  }

  lemma {:induction false} CanonicalValueFixed(c: Context, v: Value)
    ensures NormValue(c, v) == Some(v) <==> CanonicalValue(c, v)
    decreases v, 0
  {
    match v
    case Address(j) => CanonicalJidFixed(j);
    case Children(nodes) => CanonicalNodesFixed(c, nodes);
    case _ =>
  }

  lemma {:induction false} CanonicalNodesFixed(c: Context, nodes: seq<Node>)
    ensures NormNodes(c, nodes) == Some(nodes) <==> CanonicalNodes(c, nodes)
    decreases nodes, 0
  {
    if nodes != [] {
      CanonicalNodeFixed(c, nodes[0]);
      CanonicalNodesFixed(c, nodes[1..]);
      assert nodes == [nodes[0]] + nodes[1..];
      match (NormNode(c, nodes[0]), NormNodes(c, nodes[1..]))
      case (Some(n), Some(ns)) =>
        assert ([n] + ns)[0] == n && ([n] + ns)[1..] == ns;
      case _ =>
    }
  }

  // The canonical nodes are exactly those that are their own normal form.
  lemma {:induction false} CanonicalNodeFixed(c: Context, n: Node)
    ensures NormNode(c, n) == Some(n) <==> CanonicalNode(c, n)
    decreases n, 1
  {
    forall k | k in n.attrs
      ensures NormValue(c, n.attrs[k]) == Some(n.attrs[k]) <==> CanonicalValue(c, n.attrs[k])
    {
      CanonicalValueFixed(c, n.attrs[k]);
    }
    CanonicalValueFixed(c, n.content);
    AttrsFixed(c, n);
  }

  // A node is its own normal form exactly when its parts are.
  lemma AttrsFixed(c: Context, n: Node)
    ensures NormNode(c, n) == Some(n) <==>
            if n.tag == NULL_TAG then n.attrs == map[] && n.content == Nil
            else
              && (forall k :: k in n.attrs ==> Countable(n.attrs[k]) && NormValue(c, n.attrs[k]) == Some(n.attrs[k]))
              && NormValue(c, n.content) == Some(n.content)
  {
    assert NormValue(c, Nil) == Some(Nil);
    hide NormValue;
    if n.tag != NULL_TAG && NormNode(c, n).Some? {
      var m := NormNode(c, n).value;
      if m == n {
        forall k | k in n.attrs
          ensures Countable(n.attrs[k]) && NormValue(c, n.attrs[k]) == Some(n.attrs[k])
        {
          assert k in m.attrs;
        }
      }
      if (forall k :: k in n.attrs ==> Countable(n.attrs[k]) && NormValue(c, n.attrs[k]) == Some(n.attrs[k])) {
        assert m.attrs == n.attrs;
      }
    }
  }

  // ---------------------------------------------------------------------
  // The laws

  // MarshalDict: the flag of an uncompressed stream, then the node; nothing
  // when it cannot be encoded.
  ghost function Marshal(c: Context, n: Node): Bytes {
    match EncNode(c, n)
    case None => []
    case Some(stream) => [0] + stream
  }

  // Reading an encoded node, whatever follows it, gives the node back and
  // stops at what follows, if and only if the node is canonical.
  lemma ReadInvertsEncode(c: Context, n: Node, r: Bytes)
    requires GoodDictionary(c) && EncNode(c, n).Some?
    ensures ReadNode(c, EncNode(c, n).value + r) == Got(n, r) <==> CanonicalNode(c, n)
  {
    hide ReadNode, EncNode, NormNode, CanonicalNode;
    NodeReads(c, n, r);
    CanonicalNodeFixed(c, n);
  }

  // Decode inverts Marshal exactly on canonical nodes, and on the others gives
  // the normal form or an error.
  lemma DecodeInvertsMarshal(c: Context, n: Node)
    requires GoodDictionary(c) && EncNode(c, n).Some?
    ensures Decode(c, Marshal(c, n)) == Ok(n) <==> CanonicalNode(c, n)
    ensures match NormNode(c, n)
            case Some(m) => Decode(c, Marshal(c, n)) == Ok(m)
            case None => Decode(c, Marshal(c, n)).Err?
  {
    hide ReadNode, EncNode, NormNode, CanonicalNode;
    var stream := EncNode(c, n).value;
    NodeReads(c, n, []);
    CanonicalNodeFixed(c, n);
    assert stream + [] == stream;
    assert ([0] + stream)[1..] == stream;
  }

  // DecodeStream inverts the concatenation of any number of encodings.
  lemma {:induction false} StreamInvertsConcatenation(c: Context, nodes: seq<Node>)
    requires GoodDictionary(c) && EncNodes(c, nodes).Some? && CanonicalNodes(c, nodes)
    ensures ReadStream(c, EncNodes(c, nodes).value) == Ok(nodes)
    decreases |nodes|
  {
    hide ReadNode, EncNode, CanonicalNode;
    if nodes != [] {
      var rest := EncNodes(c, nodes[1..]).value;
      ReadInvertsEncode(c, nodes[0], rest);
      assert EncNodes(c, nodes).value == EncNode(c, nodes[0]).value + rest;
      StreamInvertsConcatenation(c, nodes[1..]);
      assert nodes == [nodes[0]] + nodes[1..];
      NonEmpty(c, EncNodes(c, nodes).value);
    }
  }

  lemma NonEmpty(c: Context, s: Bytes)
    requires ReadNode(c, s).Got?
    ensures s != []
  {
  }

  // Different canonical nodes have different encodings, none a prefix of
  // another's.
  lemma EncodingIsPrefixFree(c: Context, n: Node, m: Node, x: Bytes)
    requires GoodDictionary(c) && EncNode(c, n).Some? && EncNode(c, m).Some?
    requires CanonicalNode(c, n) && CanonicalNode(c, m)
    requires EncNode(c, m).value == EncNode(c, n).value + x
    ensures n == m && x == []
  {
    hide ReadNode, EncNode, CanonicalNode;
    ReadInvertsEncode(c, n, x);
    ReadInvertsEncode(c, m, []);
    assert EncNode(c, m).value + [] == EncNode(c, m).value;
  }
}
