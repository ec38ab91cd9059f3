// How much the decoder can be made to build: a read that consumed k bytes holds
// at most k/2 nodes, counting nested ones.
module NodeSize {
  import opened Common
  import opened Tokens
  import opened Nodes
  import opened NodeDecoding

  ghost function CountNode(n: Node): nat
    decreases n, 1
  {
    1 + CountValue(n.content) + CountAttrs(n, n.attrs.Keys)
  }

  ghost function CountValue(v: Value): nat
    decreases v, 0
  {
    match v
    case Children(nodes) => CountNodes(nodes)
    case Single(n) => CountNode(n)
    case _ => 0
  }

  ghost function CountNodes(nodes: seq<Node>): nat
    decreases nodes, 0
  {
    if nodes == [] then 0 else CountNode(nodes[0]) + CountNodes(nodes[1..])
  }

  // Nodes nested in the attributes with the given keys.
  ghost function CountAttrs(n: Node, ks: set<Bytes>): nat
    requires ks <= n.attrs.Keys
    decreases n, 0, ks
  {
    if ks == {} then 0
    else
      var k :| k in ks;
      CountValue(n.attrs[k]) + CountAttrs(n, ks - {k})
  }

  // The order in which attributes are counted does not matter.
  lemma {:induction false} CountAttrsAny(n: Node, ks: set<Bytes>, x: Bytes)
    requires ks <= n.attrs.Keys && x in ks
    ensures CountAttrs(n, ks) == CountValue(n.attrs[x]) + CountAttrs(n, ks - {x})
    decreases ks
  {
    var k :| k in ks && CountAttrs(n, ks) == CountValue(n.attrs[k]) + CountAttrs(n, ks - {k});
    if k != x {
      CountAttrsAny(n, ks - {k}, x);
      CountAttrsAny(n, ks - {x}, k);
      assert ks - {k} - {x} == ks - {x} - {k};
    }
  }

  lemma {:induction false} CountAttrsAgree(n: Node, m: Node, ks: set<Bytes>)
    requires ks <= n.attrs.Keys && ks <= m.attrs.Keys
    requires forall k :: k in ks ==> n.attrs[k] == m.attrs[k]
    ensures CountAttrs(n, ks) == CountAttrs(m, ks)
    decreases ks
  {
    if ks != {} {
      var k :| k in ks;
      CountAttrsAny(n, ks, k);
      CountAttrsAny(m, ks, k);
      CountAttrsAgree(n, m, ks - {k});
    }
  }

  // An attribute map on its own.
  ghost function CountMap(attrs: map<Bytes, Value>): nat {
    CountAttrs(Node([], attrs, Nil), attrs.Keys)
  }

  lemma CountMapOf(n: Node)
    ensures CountAttrs(n, n.attrs.Keys) == CountMap(n.attrs)
  {
    CountAttrsAgree(n, Node([], n.attrs, Nil), n.attrs.Keys);
  }

  // A repeated key replaces its value, so the count can only drop.
  lemma CountMapUpdate(attrs: map<Bytes, Value>, k: Bytes, v: Value)
    ensures CountMap(attrs[k := v]) <= CountMap(attrs) + CountValue(v)
  {
    var before, after := Node([], attrs, Nil), Node([], attrs[k := v], Nil);
    var others := attrs.Keys - {k};
    assert after.attrs.Keys == others + {k};
    CountAttrsAny(after, others + {k}, k);
    assert others + {k} - {k} == others;
    CountAttrsAgree(before, after, others);
    if k in attrs {
      CountAttrsAny(before, attrs.Keys, k);
    } else {
      assert others == attrs.Keys;
    }
  }

  // ---------------------------------------------------------------------

  lemma {:induction false} NodeBound(c: Context, s: Bytes)
    requires ReadNode(c, s).Got?
    ensures 2 * CountNode(ReadNode(c, s).value) <= |s| - |ReadNode(c, s).rest|
    decreases |s|, 0
  {
    hide ReadContent, ReadStringlike, ReadAttrs;
    var size, s2 := ListSize(s[0], s[1..]).value, ListSize(s[0], s[1..]).rest;
    var n := ReadNode(c, s).value;
    CountMapOf(n);
    assert CountMap(map[]) == 0;
    assert |s2| <= |s| - 2;
    if size > 0 {
      var s3 := ReadStringlike(c, s2).rest;
      AttrsBound(c, s3, (size - 1) / 2, map[]);
      var s4 := ReadAttrs(c, s3, (size - 1) / 2, map[]).rest;
      if size % 2 == 0 {
        ContentBound(c, s4, true);
      }
    }
  }

  lemma {:induction false} AttrsBound(c: Context, s: Bytes, count: nat, attrs: map<Bytes, Value>)
    requires ReadAttrs(c, s, count, attrs).Got?
    ensures 2 * CountMap(ReadAttrs(c, s, count, attrs).value) <=
            2 * CountMap(attrs) + |s| - |ReadAttrs(c, s, count, attrs).rest|
    decreases |s|, 4
  {
    hide ReadContent, ReadStringlike, CountMap;
    if count > 0 {
      var key, s1 := ReadStringlike(c, s).value, ReadStringlike(c, s).rest;
      ContentBound(c, s1, true);
      var val, s2 := ReadContent(c, s1, true).value, ReadContent(c, s1, true).rest;
      CountMapUpdate(attrs, key.s, val);
      AttrsBound(c, s2, count - 1, attrs[key.s := val]);
    }
  }

  lemma {:induction false} ContentBound(c: Context, s: Bytes, asString: bool)
    requires ReadContent(c, s, asString).Got?
    ensures 2 * CountValue(ReadContent(c, s, asString).value) <= |s| - |ReadContent(c, s, asString).rest|
    decreases |s|, 2
  {
    if s[0] == LIST_8 || s[0] == LIST_16 {
      var header := ListSize(s[0], s[1..]);
      NodesBound(c, header.rest, header.value);
    }
  }

  lemma {:induction false} NodesBound(c: Context, s: Bytes, count: nat)
    requires ReadNodes(c, s, count).Got?
    ensures 2 * CountNodes(ReadNodes(c, s, count).value) <= |s| - |ReadNodes(c, s, count).rest|
    decreases |s|, 1
  {
    if count > 0 {
      hide ReadNode;
      NodeBound(c, s);
      NodesBound(c, ReadNode(c, s).rest, count - 1);
      var all := ReadNodes(c, s, count).value;
      assert all[1..] == ReadNodes(c, ReadNode(c, s).rest, count - 1).value;
    }
  }
}
