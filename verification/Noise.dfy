// The Noise XX handshake and the transport ciphers it produces, with symbolic
// cryptography: SHA-256 over a fixed-size prefix and HKDF are free
// constructors, AES-GCM is an ideal seal.
module Noise {
  import opened Common
  import opened Symbolic

  // Byte strings on the wire: application bytes, public keys and AES-GCM boxes.
  datatype Data =
    | Plain(bytes: Bytes)
    | PublicKey(pub: PubKey)
    | Box(key: Key, nonce: U32, ad: Option<Hash>, content: Data)

  // The handshake hash: a 32-byte protocol name or the SHA-256 of another one,
  // then SHA-256(h | data).
  datatype Hash = Name(pattern: string) | Digest(pattern: string) | Mixed(prev: Hash, data: Data)

  // The initial hash used as a key, and the two halves of an HKDF output.
  datatype Key =
    | NameKey(name: Hash)
    | FirstHalf(ck: Key, secret: Option<Term>)
    | SecondHalf(ck: Key, secret: Option<Term>)

  datatype Error =
    | HandshakeState
    | BadPeerKey
    | EcdhFailed
    | ServerStatic
    | ServerPayload
    | ClientStatic
    | ClientPayload

  function OpenBox(key: Key, nonce: U32, ad: Option<Hash>, ct: Data): Option<Data> {
    if ct.Box? && ct.key == key && ct.nonce == nonce && ct.ad == ad then Some(ct.content) else None
  }

  // ---------------------------------------------------------------------
  // Symmetric state

  datatype Symmetric = Symmetric(h: Hash, ck: Key, k: Key, counter: U32) {
    function Absorb(data: Data): Symmetric {
      this.(h := Mixed(h, data))
    }

    function Seal(plain: Data): Data {
      Box(k, counter, Some(h), plain)
    }

    function AfterSeal(plain: Data): Symmetric {
      this.(counter := Inc32(counter)).Absorb(Seal(plain))
    }

    function Open(ct: Data): Option<Data> {
      OpenBox(k, counter, Some(h), ct)
    }

    // A failed open still uses up a counter value.
    function AfterOpen(ct: Data): Symmetric {
      var s := this.(counter := Inc32(counter));
      if Open(ct).Some? then s.Absorb(ct) else s
    }

    function Mix(secret: Term): Symmetric {
      Symmetric(h, FirstHalf(ck, Some(secret)), SecondHalf(ck, Some(secret)), 0)
    }

    function SendKey(initiator: bool): Key {
      if initiator then FirstHalf(ck, None) else SecondHalf(ck, None)
    }

    function RecvKey(initiator: bool): Key {
      if initiator then SecondHalf(ck, None) else FirstHalf(ck, None)
    }
  }

  // The 32-byte protocol name of the control socket.
  const START_PATTERN := "Noise_XX_25519_AESGCM_SHA256\0\0\0\0"

  function NameHash(pattern: string): Hash {
    if |pattern| == 32 then Name(pattern) else Digest(pattern)
  }

  function Start(pattern: string, header: Data): Symmetric {
    var h := NameHash(pattern);
    Symmetric(h, NameKey(h), NameKey(h), 0).Absorb(header)
  }

  function SharedSecret(priv: nat, peer: Data): Result<Term, Error> {
    if !peer.PublicKey? then Err(BadPeerKey)
    else match DH(priv, peer.pub)
      case None => Err(EcdhFailed)
      case Some(secret) => Ok(secret)
  }

  // ---------------------------------------------------------------------
  // The XX message functions

  datatype Party = Party(
    sym: Symmetric,
    initiator: bool,
    ownStatic: nat,
    remoteStatic: Option<Data>,
    remoteEph: Option<Data>,
    eph: Option<nat>,
    done: bool)

  function NewParty(initiator: bool, ownStatic: nat, header: Data): Party {
    Party(Start(START_PATTERN, header), initiator, ownStatic, None, None, None, false)
  }

  function ClientHello(p: Party, eph: nat): (Party, Result<Data, Error>) {
    if !p.initiator then (p, Err(HandshakeState))
    else (p.(eph := Some(eph), sym := p.sym.Absorb(PublicKey(Pub(eph)))), Ok(PublicKey(Pub(eph))))
  }

  datatype Hello = Hello(eph: Data, staticBox: Data, payloadBox: Data)

  // The responder has the first message.
  function TakeHello(p: Party, peerEph: Data): Party {
    p.(remoteEph := Some(peerEph), sym := p.sym.Absorb(peerEph))
  }

  function ServerHello(p: Party, peerEph: Data, payload: Data, eph: nat): (Party, Result<Hello, Error>) {
    if p.initiator then (p, Err(HandshakeState))
    else
      var own := PublicKey(Pub(eph));
      var taken := TakeHello(p, peerEph);
      var q := taken.(eph := Some(eph), sym := taken.sym.Absorb(own));
      match SharedSecret(eph, peerEph)
      case Err(e) => (q, Err(e))
      case Ok(ee) =>
        var s1 := q.sym.Mix(ee);
        var key := PublicKey(Pub(p.ownStatic));
        var s2 := s1.AfterSeal(key);
        match SharedSecret(p.ownStatic, peerEph)
        case Err(e) => (q.(sym := s2), Err(e))
        case Ok(es) =>
          var s3 := s2.Mix(es);
          (q.(sym := s3.AfterSeal(payload)), Ok(Hello(own, s1.Seal(key), s3.Seal(payload))))
  }

  datatype Peer = Peer(key: Data, payload: Data)

  function ReadServerHello(p: Party, m: Hello): (Party, Result<Peer, Error>)
    requires p.initiator ==> p.eph.Some?
  {
    if !p.initiator then (p, Err(HandshakeState))
    else
      var q := p.(remoteEph := Some(m.eph), sym := p.sym.Absorb(m.eph));
      match SharedSecret(p.eph.value, m.eph)
      case Err(e) => (q, Err(e))
      case Ok(ee) =>
        var s1 := q.sym.Mix(ee);
        var s2 := s1.AfterOpen(m.staticBox);
        match s1.Open(m.staticBox)
        case None => (q.(sym := s2), Err(ServerStatic))
        case Some(key) => ReadServerPayload(q.(sym := s2, remoteStatic := Some(key)), key, m)
  }

  function ReadServerPayload(p: Party, key: Data, m: Hello): (Party, Result<Peer, Error>)
    requires p.eph.Some?
  {
    match SharedSecret(p.eph.value, key)
    case Err(e) => (p, Err(e))
    case Ok(es) =>
      var s := p.sym.Mix(es);
      var q := p.(sym := s.AfterOpen(m.payloadBox));
      match s.Open(m.payloadBox)
      case None => (q, Err(ServerPayload))
      case Some(payload) => (q, Ok(Peer(key, payload)))
  }

  datatype Finish = Finish(staticBox: Data, payloadBox: Data)

  function WriteClientFinish(p: Party, payload: Data): (Party, Result<Finish, Error>) {
    if !p.initiator then (p, Err(HandshakeState))
    else
      var key := PublicKey(Pub(p.ownStatic));
      var q := p.(sym := p.sym.AfterSeal(key));
      var secret := if p.remoteEph.None? then Err(BadPeerKey) else SharedSecret(p.ownStatic, p.remoteEph.value);
      match secret
      case Err(e) => (q, Err(e))
      case Ok(se) =>
        var s := q.sym.Mix(se);
        (q.(sym := s.AfterSeal(payload), done := true), Ok(Finish(p.sym.Seal(key), s.Seal(payload))))
  }

  function AcceptFinish(p: Party, m: Finish): (Party, Result<Peer, Error>)
    requires !p.initiator ==> p.eph.Some?
  {
    if p.initiator then (p, Err(HandshakeState))
    else
      var s1 := p.sym.AfterOpen(m.staticBox);
      match p.sym.Open(m.staticBox)
      case None => (p.(sym := s1), Err(ClientStatic))
      case Some(key) =>
        var q := p.(sym := s1, remoteStatic := Some(key));
        match SharedSecret(p.eph.value, key)
        case Err(e) => (q, Err(e))
        case Ok(se) =>
          var s2 := s1.Mix(se);
          var r := q.(sym := s2.AfterOpen(m.payloadBox));
          match s2.Open(m.payloadBox)
          case None => (r, Err(ClientPayload))
          case Some(payload) => (r.(done := true), Ok(Peer(key, payload)))
  }

  // ---------------------------------------------------------------------
  // Transport ciphers

  datatype Stream = Stream(key: Key, counter: U32) {
    function Seal(plain: Data): Data {
      Box(key, counter, None, plain)
    }

    function Open(ct: Data): Option<Data> {
      OpenBox(key, counter, None, ct)
    }

    function Next(): Stream {
      this.(counter := Inc32(counter))
    }
  }

  function SendStream(p: Party): Stream {
    Stream(p.sym.SendKey(p.initiator), 0)
  }

  function RecvStream(p: Party): Stream {
    Stream(p.sym.RecvKey(p.initiator), 0)
  }

  function SealAll(c: Stream, plains: seq<Data>): (boxes: seq<Data>)
    ensures |boxes| == |plains|
    decreases |plains|
  {
    if plains == [] then [] else [c.Seal(plains[0])] + SealAll(c.Next(), plains[1..])
  }

  // ---------------------------------------------------------------------
  // The objects

  class Handshake {
    var h: Hash
    var ck: Key
    var k: Key
    var counter: U32

    function State(): Symmetric
      reads this
    {
      Symmetric(h, ck, k, counter)
    }

    constructor (pattern: string, header: Data)
      ensures State() == Start(pattern, header)
    {
      var start := if |pattern| == 32 then Name(pattern) else Digest(pattern);
      h, ck, k, counter := start, NameKey(start), NameKey(start), 0;
      new;
      Authenticate(header);
    }

    method Authenticate(data: Data)
      modifies this
      ensures State() == old(State()).Absorb(data)
    {
      h := Mixed(h, data);
    }

    method Encrypt(plain: Data) returns (ct: Data)
      modifies this
      ensures ct == old(State()).Seal(plain) && State() == old(State()).AfterSeal(plain)
    {
      ct := Box(k, counter, Some(h), plain);
      counter := Inc32(counter);
      Authenticate(ct);
    }

    method Decrypt(ct: Data) returns (plain: Option<Data>)
      modifies this
      ensures plain == old(State()).Open(ct) && State() == old(State()).AfterOpen(ct)
    {
      plain := OpenBox(k, counter, Some(h), ct);
      counter := Inc32(counter);
      if plain.Some? {
        Authenticate(ct);
      }
    }

    method MixKey(secret: Term)
      modifies this
      ensures State() == old(State()).Mix(secret)
    {
      counter := 0;
      var write, read := FirstHalf(ck, Some(secret)), SecondHalf(ck, Some(secret));
      ck := write;
      k := read;
    }

    method SendKeys(initiator: bool) returns (send: Key, recv: Key)
      ensures send == State().SendKey(initiator) && recv == State().RecvKey(initiator)
    {
      send, recv := FirstHalf(ck, None), SecondHalf(ck, None);
      if !initiator {
        send, recv := recv, send;
      }
    }
  }

  class Cipher {
    const key: Key
    var counter: U32

    function State(): Stream
      reads this
    {
      Stream(key, counter)
    }

    constructor (key: Key)
      ensures State() == Stream(key, 0)
    {
      this.key, counter := key, 0;
    }

    method Seal(plain: Data) returns (ct: Data)
      modifies this
      ensures ct == old(State()).Seal(plain) && State() == old(State()).Next()
    {
      ct := Box(key, counter, None, plain);
      counter := Inc32(counter);
    }

    method Open(ct: Data) returns (plain: Option<Data>)
      modifies this
      ensures plain == old(State()).Open(ct) && State() == old(State()).Next()
    {
      plain := OpenBox(key, counter, None, ct);
      counter := Inc32(counter);
    }
  }

  class XX {
    const nh: Handshake
    const initiator: bool
    const ownStatic: nat
    var remoteStatic: Option<Data>
    var remoteEph: Option<Data>
    var eph: Option<nat>
    var done: bool

    function State(): Party
      reads this, nh
    {
      Party(nh.State(), initiator, ownStatic, remoteStatic, remoteEph, eph, done)
    }

    constructor (initiator: bool, ownStatic: nat, header: Data)
      ensures fresh(nh) && State() == NewParty(initiator, ownStatic, header)
    {
      this.initiator, this.ownStatic := initiator, ownStatic;
      remoteStatic, remoteEph, eph, done := None, None, None, false;
      nh := new Handshake(START_PATTERN, header);
    }

    method MixShared(priv: nat, peer: Data) returns (e: Option<Error>)
      modifies nh
      ensures match SharedSecret(priv, peer)
              case Err(err) => e == Some(err) && nh.State() == old(nh.State())
              case Ok(secret) => e == None && nh.State() == old(nh.State()).Mix(secret)
    {
      if !peer.PublicKey? {
        return Some(BadPeerKey);
      }
      match DH(priv, peer.pub)
      case None => e := Some(EcdhFailed);
      case Some(secret) =>
        nh.MixKey(secret);
        e := None;
    }

    method ClientHello1(newEph: nat) returns (r: Result<Data, Error>)
      modifies this, nh
      ensures (State(), r) == ClientHello(old(State()), newEph)
    {
      if !initiator {
        return Err(HandshakeState);
      }
      eph := Some(newEph);
      nh.Authenticate(PublicKey(Pub(newEph)));
      return Ok(PublicKey(Pub(newEph)));
    }

    method ServerHello1(peerEph: Data, payload: Data, newEph: nat) returns (r: Result<Hello, Error>)
      modifies this, nh
      ensures (State(), r) == ServerHello(old(State()), peerEph, payload, newEph)
    {
      hide DH;
      if initiator {
        return Err(HandshakeState);
      }
      remoteEph := Some(peerEph);
      nh.Authenticate(peerEph);
      eph := Some(newEph);
      nh.Authenticate(PublicKey(Pub(newEph)));
      var e := MixShared(newEph, peerEph);
      if e.Some? {
        return Err(e.value);
      }
      var staticBox := nh.Encrypt(PublicKey(Pub(ownStatic)));
      e := MixShared(ownStatic, peerEph);
      if e.Some? {
        return Err(e.value);
      }
      var payloadBox := nh.Encrypt(payload);
      return Ok(Hello(PublicKey(Pub(newEph)), staticBox, payloadBox));
    }

    method ConsumeServerHello(m: Hello) returns (r: Result<Peer, Error>)
      requires initiator ==> eph.Some?
      modifies this, nh
      ensures (State(), r) == ReadServerHello(old(State()), m)
    {
      if !initiator {
        return Err(HandshakeState);
      }
      remoteEph := Some(m.eph);
      nh.Authenticate(m.eph);
      var e := MixShared(eph.value, m.eph);
      if e.Some? {
        return Err(e.value);
      }
      var key := nh.Decrypt(m.staticBox);
      if key.None? {
        return Err(ServerStatic);
      }
      remoteStatic := key;
      e := MixShared(eph.value, key.value);
      if e.Some? {
        return Err(e.value);
      }
      var payload := nh.Decrypt(m.payloadBox);
      if payload.None? {
        return Err(ServerPayload);
      }
      return Ok(Peer(key.value, payload.value));
    }

    method WriteFinish(payload: Data) returns (r: Result<Finish, Error>)
      modifies this, nh
      ensures (State(), r) == WriteClientFinish(old(State()), payload)
    {
      if !initiator {
        return Err(HandshakeState);
      }
      var staticBox := nh.Encrypt(PublicKey(Pub(ownStatic)));
      if remoteEph.None? {
        return Err(BadPeerKey);
      }
      var e := MixShared(ownStatic, remoteEph.value);
      if e.Some? {
        return Err(e.value);
      }
      var payloadBox := nh.Encrypt(payload);
      done := true;
      return Ok(Finish(staticBox, payloadBox));
    }

    method Accept(m: Finish) returns (r: Result<Peer, Error>)
      requires !initiator ==> eph.Some?
      modifies this, nh
      ensures (State(), r) == AcceptFinish(old(State()), m)
    {
      if initiator {
        return Err(HandshakeState);
      }
      var key := nh.Decrypt(m.staticBox);
      if key.None? {
        return Err(ClientStatic);
      }
      remoteStatic := key;
      var e := MixShared(eph.value, key.value);
      if e.Some? {
        return Err(e.value);
      }
      var payload := nh.Decrypt(m.payloadBox);
      if payload.None? {
        return Err(ClientPayload);
      }
      done := true;
      return Ok(Peer(key.value, payload.value));
    }

    method SendCipher() returns (r: Result<(Cipher, Cipher), Error>)
      ensures r.Err? <==> !done
      ensures r.Err? ==> r.error == HandshakeState
      ensures r.Ok? ==> fresh(r.value.0) && fresh(r.value.1) && r.value.0 != r.value.1
      ensures r.Ok? ==> r.value.0.State() == SendStream(State()) && r.value.1.State() == RecvStream(State())
    {
      if !done {
        return Err(HandshakeState);
      }
      var send, recv := nh.SendKeys(initiator);
      var s := new Cipher(send);
      var c := new Cipher(recv);
      return Ok((s, c));
    }
  }
}
