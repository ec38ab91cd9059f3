// The wire form of a message envelope.
module EnvelopeWire {
  import opened Common
  import opened Protobuf

  const ENV_INIT := 1
  const ENV_RATCHET := 2

  const VERSION_FIELD := 1
  const TYPE_FIELD := 2
  const RATCHET_FIELD := 3
  const PREV_FIELD := 4
  const COUNTER_FIELD := 5
  const HEADER_FIELD := 6
  const BODY_FIELD := 7
  const ID_PUB_FIELD := 8
  const REG_ID_FIELD := 9
  const OPK_ID_FIELD := 10
  const SIG_PUB_FIELD := 11
  const ID_CERT_FIELD := 12

  datatype Handshake = Handshake(identityPub: Slice, identitySigPub: Slice, identityCert: Slice, regID: U32, opkID: U32)

  datatype Envelope = Envelope(
    version: Byte, typ: Byte, ratchetPub: Slice, prevCount: U32, counter: U32, header: Slice, body: Slice,
    init: Handshake)

  datatype WireError = Malformed(error: Protobuf.Error) | BadEnvelope(version: Byte, typ: Byte) | BadRatchetKey

  const NO_HANDSHAKE := Handshake([], [], [], 0, 0)

  function CommonFields(e: Envelope): seq<Field> {
    [ Field(VERSION_FIELD, Varint(e.version)),
      Field(TYPE_FIELD, Varint(e.typ)),
      Field(RATCHET_FIELD, Length(e.ratchetPub)),
      Field(PREV_FIELD, Varint(e.prevCount)),
      Field(COUNTER_FIELD, Varint(e.counter)),
      Field(HEADER_FIELD, Length(e.header)),
      Field(BODY_FIELD, Length(e.body)) ]
  }

  function InitFields(i: Handshake): seq<Field> {
    [ Field(ID_PUB_FIELD, Length(i.identityPub)),
      Field(SIG_PUB_FIELD, Length(i.identitySigPub)),
      Field(ID_CERT_FIELD, Length(i.identityCert)),
      Field(REG_ID_FIELD, Varint(i.regID)),
      Field(OPK_ID_FIELD, Varint(i.opkID)) ]
  }

  function Fields(e: Envelope): seq<Field> {
    CommonFields(e) + if e.typ == ENV_INIT then InitFields(e.init) else []
  }

  function Serialize(e: Envelope): Bytes {
    MessageBytes(Fields(e))
  }

  function Uint(fs: seq<Field>, num: U32, limit: int): (n: int)
    requires 0 < limit
    ensures 0 <= n < limit
  {
    match GetUint(fs, num)
    case None => 0
    case Some(v) => v % limit
  }

  function Blob(fs: seq<Field>, num: U32): Slice {
    match GetBytes(fs, num)
    case None => []
    case Some(b) => b
  }

  function Extract(fs: seq<Field>): Envelope {
    Envelope(
      Uint(fs, VERSION_FIELD, 256), Uint(fs, TYPE_FIELD, 256), Blob(fs, RATCHET_FIELD),
      Uint(fs, PREV_FIELD, U32_LIMIT), Uint(fs, COUNTER_FIELD, U32_LIMIT),
      Blob(fs, HEADER_FIELD), Blob(fs, BODY_FIELD),
      Handshake(Blob(fs, ID_PUB_FIELD), Blob(fs, SIG_PUB_FIELD), Blob(fs, ID_CERT_FIELD),
                Uint(fs, REG_ID_FIELD, U32_LIMIT), Uint(fs, OPK_ID_FIELD, U32_LIMIT)))
  }

  function ParseEnvelope(data: Bytes): Result<Envelope, WireError> {
    match Parse(data)
    case Err(e) => Err(Malformed(e))
    case Ok(fs) =>
      var e := Extract(fs);
      if e.version != 1 || (e.typ != ENV_INIT && e.typ != ENV_RATCHET) then Err(BadEnvelope(e.version, e.typ))
      else if |e.ratchetPub| != 32 then Err(BadRatchetKey)
      else Ok(e)
  }

  // What an envelope must satisfy to survive the wire: version 1, a known type,
  // a 32-byte ratchet key, and handshake fields only on an init envelope.
  predicate WellFormed(e: Envelope) {
    && e.version == 1 && (e.typ == ENV_INIT || e.typ == ENV_RATCHET)
    && |e.ratchetPub| == 32
    && (e.typ == ENV_RATCHET ==> e.init == NO_HANDSHAKE)
  }

  // The lookup of a number skips the fields before it.
  lemma {:induction false} GetAt(fs: seq<Field>, i: nat)
    requires i < |fs| && forall j :: 0 <= j < i ==> fs[j].num != fs[i].num
    ensures Get(fs, fs[i].num) == Some(fs[i])
    decreases i
  {
    if i > 0 {
      GetAt(fs[1..], i - 1);
    }
  }

  lemma {:induction false} GetNone(fs: seq<Field>, num: U32)
    requires forall j :: 0 <= j < |fs| ==> fs[j].num != num
    ensures Get(fs, num) == None
  {
    if fs != [] {
      GetNone(fs[1..], num);
    }
  }

  lemma CommonSurvives(e: Envelope)
    ensures var r := Extract(Fields(e));
            r.version == e.version && r.typ == e.typ && r.ratchetPub == e.ratchetPub && r.prevCount == e.prevCount
            && r.counter == e.counter && r.header == e.header && r.body == e.body
  {
    hide Get;
    var fs := Fields(e);
    GetAt(fs, 0);
    GetAt(fs, 1);
    GetAt(fs, 2);
    GetAt(fs, 3);
    GetAt(fs, 4);
    GetAt(fs, 5);
    GetAt(fs, 6);
  }

  lemma InitSurvives(e: Envelope)
    ensures Extract(Fields(e)).init == if e.typ == ENV_INIT then e.init else NO_HANDSHAKE
  {
    hide Get;
    var fs := Fields(e);
    if e.typ == ENV_INIT {
      GetAt(fs, 7);
      GetAt(fs, 8);
      GetAt(fs, 9);
      GetAt(fs, 10);
      GetAt(fs, 11);
    } else {
      assert fs == CommonFields(e);
      GetNone(fs, ID_PUB_FIELD);
      GetNone(fs, SIG_PUB_FIELD);
      GetNone(fs, ID_CERT_FIELD);
      GetNone(fs, REG_ID_FIELD);
      GetNone(fs, OPK_ID_FIELD);
    }
  }

  // ParseEnvelope inverts Serialize exactly on the well-formed envelopes.
  lemma ParseInvertsSerialize(e: Envelope)
    ensures ParseEnvelope(Serialize(e)) == Ok(e) <==> WellFormed(e)
  {
    ParseInvertsBuild(Fields(e));
    CommonSurvives(e);
    InitSurvives(e);
    hide Parse, MessageBytes, Extract;
    assert forall i :: 0 <= i < |Fields(e)| ==> Fields(e)[i].num < 0x2000_0000;
  }

  // Two well-formed envelopes with the same bytes are the same envelope.
  lemma SerializeInjective(d: Envelope, e: Envelope)
    requires WellFormed(d) && WellFormed(e) && Serialize(d) == Serialize(e)
    ensures d == e
  {
    hide Serialize, ParseEnvelope;
    ParseInvertsSerialize(d);
    ParseInvertsSerialize(e);
  }
}
