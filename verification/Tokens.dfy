// The token dictionary: two tables of strings and the indexes built over them.
module Tokens {
  import opened Common

  // Type tags of the node stream.
  const LIST_EMPTY: Byte := 0
  const DICTIONARY_0: Byte := 236
  const DICTIONARY_3: Byte := 239
  const INTEROP_JID: Byte := 245
  const FB_JID: Byte := 246
  const AD_JID: Byte := 247
  const LIST_8: Byte := 248
  const LIST_16: Byte := 249
  const JID_PAIR: Byte := 250
  const HEX_8: Byte := 251
  const BINARY_8: Byte := 252
  const BINARY_20: Byte := 253
  const BINARY_32: Byte := 254
  const NIBBLE_8: Byte := 255

  const PACKED_MAX: nat := 127
  const SINGLE_BYTE_MAX: nat := 256

  datatype TableError = TooManySingle | TooManyDouble

  datatype Dictionary = Dictionary(
    single: seq<Bytes>, double: seq<seq<Bytes>>,
    singleIndex: map<Bytes, Byte>, doubleIndex: map<Bytes, (Byte, Byte)>)
  {
    function SingleToken(index: int): Option<Bytes> {
      if index < 1 || index >= |single| || single[index] == [] then None else Some(single[index])
    }

    function DoubleToken(dict: int, index: int): Option<Bytes> {
      if dict < 0 || dict >= |double| || index < 0 || index >= |double[dict]| then None else Some(double[dict][index])
    }

    function IndexOfSingle(t: Bytes): Option<Byte> {
      if t in singleIndex then Some(singleIndex[t]) else None
    }

    function IndexOfDouble(t: Bytes): Option<(Byte, Byte)> {
      if t in doubleIndex then Some(doubleIndex[t]) else None
    }

    // The single index points at the last place of each non-empty token.
    ghost predicate SingleIndexed(n: nat)
      requires n <= |single|
    {
      && (forall t :: t in singleIndex ==>
           t != [] && singleIndex[t] < n && single[singleIndex[t]] == t)
      && (forall i :: 0 <= i < n && single[i] != [] ==> single[i] in singleIndex && i <= singleIndex[single[i]])
    }

    // Place p of the double table comes before place q.
    static predicate Before(p: (int, int), q: (int, int)) {
      p.0 < q.0 || (p.0 == q.0 && p.1 < q.1)
    }

    predicate InDouble(p: (int, int)) {
      0 <= p.0 < |double| && 0 <= p.1 < |double[p.0]|
    }

    // Entry t of the double index is the first place of t, its position within
    // the list cut to one byte.
    ghost predicate FirstPlace(t: Bytes, p: (int, int)) {
      && InDouble(p)
      && double[p.0][p.1] == t
      && (forall q: (int, int) {:trigger InDouble(q)} :: InDouble(q) && Before(q, p) ==> double[q.0][q.1] != t)
    }

    // The double index covers exactly the places before `limit`.
    ghost predicate DoubleIndexed(limit: (int, int)) {
      && (forall t :: t in doubleIndex ==>
           exists p: (int, int) :: FirstPlace(t, p) && Before(p, limit) && doubleIndex[t].0 == p.0 && doubleIndex[t].1 == p.1 % 256)
      && (forall p: (int, int) {:trigger InDouble(p)} ::
           InDouble(p) && Before(p, limit) ==> double[p.0][p.1] in doubleIndex)
    }

    ghost predicate Indexed() {
      SingleIndexed(|single|) && DoubleIndexed((|double|, 0))
    }

    // No token sits at the position of a type tag, and positions in the double
    // lists fit one byte.
    ghost predicate WireSafe() {
      && (forall i :: 0 <= i < |single| && single[i] != [] ==> !IsTag(i))
      && |double| <= 4
      && forall d :: 0 <= d < |double| ==> |double[d]| <= 256
    }
  }

  predicate IsTag(b: int) {
    b == 0 || 236 <= b <= 239 || 245 <= b
  }

  // A token written as its index reads back as the same token.
  lemma SingleInverts(d: Dictionary, t: Bytes)
    requires d.Indexed() && d.WireSafe() && d.IndexOfSingle(t).Some?
    ensures !IsTag(d.IndexOfSingle(t).value)
    ensures d.SingleToken(d.IndexOfSingle(t).value) == Some(t)
  {
  }

  lemma DoubleInverts(d: Dictionary, t: Bytes)
    requires d.Indexed() && d.WireSafe() && d.IndexOfDouble(t).Some?
    ensures d.IndexOfDouble(t).value.0 < 4
    ensures d.DoubleToken(d.IndexOfDouble(t).value.0, d.IndexOfDouble(t).value.1) == Some(t)
  {
    var p: (int, int) :| d.FirstPlace(t, p) && d.doubleIndex[t].0 == p.0 && d.doubleIndex[t].1 == p.1 % 256;
    assert d.InDouble(p);
  }

  // FromJSON, after the JSON text has been decoded into the two tables.
  method Build(single: seq<Bytes>, double: seq<seq<Bytes>>) returns (r: Result<Dictionary, TableError>)
    ensures r.Ok? <==> |single| <= SINGLE_BYTE_MAX && |double| <= 4
    ensures r.Ok? ==> r.value.single == single && r.value.double == double && r.value.Indexed()
  {
    if |single| > SINGLE_BYTE_MAX {
      return Err(TooManySingle);
    }
    if |double| > 4 {
      return Err(TooManyDouble);
    }
    var d := Dictionary(single, double, map[], map[]);
    d := IndexSingles(d);
    d := IndexDoubles(d);
    return Ok(d);
  }

  method IndexSingles(start: Dictionary) returns (d: Dictionary)
    requires |start.single| <= 256 && start.singleIndex == map[]
    ensures d == start.(singleIndex := d.singleIndex) && d.SingleIndexed(|d.single|)
  {
    d := start;
    for i := 0 to |start.single|
      invariant d == start.(singleIndex := d.singleIndex)
      invariant d.SingleIndexed(i)
    {
      if d.single[i] != [] {
        d := d.(singleIndex := d.singleIndex[d.single[i] := i]);
      }
    }
  }

  method IndexDoubles(start: Dictionary) returns (d: Dictionary)
    requires |start.double| <= 4 && start.doubleIndex == map[]
    ensures d == start.(doubleIndex := d.doubleIndex) && d.DoubleIndexed((|d.double|, 0))
  {
    d := start;
    for di := 0 to |start.double|
      invariant d == start.(doubleIndex := d.doubleIndex)
      invariant d.DoubleIndexed((di, 0))
    {
      for i := 0 to |start.double[di]|
        invariant d == start.(doubleIndex := d.doubleIndex)
        invariant d.DoubleIndexed((di, i))
      {
        ghost var before := d;
        var t := d.double[di][i];
        if t !in d.doubleIndex {
          d := d.(doubleIndex := d.doubleIndex[t := (di, i % 256)]);
        }
        IndexOneMore(before, d, di, i);
      }
      NextList(d, di);
    }
  }

  // The index after one more place was looked at.
  predicate OneMore(d: Dictionary, d': Dictionary, di: int, i: int) {
    && d.InDouble((di, i)) && di < 4
    && var t := d.double[di][i];
    d' == if t in d.doubleIndex then d else d.(doubleIndex := d.doubleIndex[t := (di, i % 256)])
  }

  lemma StillListed(d: Dictionary, d': Dictionary, di: int, i: int, u: Bytes)
    requires OneMore(d, d', di, i) && d.DoubleIndexed((di, i)) && u in d'.doubleIndex
    ensures exists p: (int, int) :: d'.FirstPlace(u, p) && Dictionary.Before(p, (di, i + 1))
                                    && d'.doubleIndex[u].0 == p.0 && d'.doubleIndex[u].1 == p.1 % 256
  {
    assert forall p: (int, int) :: d'.InDouble(p) <==> d.InDouble(p);
    if u in d.doubleIndex {
      var p: (int, int) :| d.FirstPlace(u, p) && Dictionary.Before(p, (di, i))
                           && d.doubleIndex[u].0 == p.0 && d.doubleIndex[u].1 == p.1 % 256;
      assert d'.FirstPlace(u, p);
    } else {
      assert d'.FirstPlace(u, (di, i));
    }
  }

  lemma StillCovered(d: Dictionary, d': Dictionary, di: int, i: int, p: (int, int))
    requires OneMore(d, d', di, i) && d.DoubleIndexed((di, i)) && d'.InDouble(p) && Dictionary.Before(p, (di, i + 1))
    ensures d'.double[p.0][p.1] in d'.doubleIndex
  {
    assert d.InDouble(p);
    assert p != (di, i) ==> Dictionary.Before(p, (di, i));
  }

  lemma IndexOneMore(d: Dictionary, d': Dictionary, di: int, i: int)
    requires OneMore(d, d', di, i) && d.DoubleIndexed((di, i))
    ensures d'.DoubleIndexed((di, i + 1))
  {
    forall u | u in d'.doubleIndex
      ensures exists p: (int, int) :: d'.FirstPlace(u, p) && Dictionary.Before(p, (di, i + 1))
                                      && d'.doubleIndex[u].0 == p.0 && d'.doubleIndex[u].1 == p.1 % 256
    {
      StillListed(d, d', di, i, u);
    }
    forall p: (int, int) | d'.InDouble(p) && Dictionary.Before(p, (di, i + 1))
      ensures d'.double[p.0][p.1] in d'.doubleIndex
    {
      StillCovered(d, d', di, i, p);
    }
  }

  lemma NextList(d: Dictionary, di: int)
    requires 0 <= di < |d.double| && d.DoubleIndexed((di, |d.double[di]|))
    ensures d.DoubleIndexed((di + 1, 0))
  {
  }
}
