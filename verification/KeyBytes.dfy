// What the symbolic secrets are as bytes: each is read as the HMAC and HKDF
// computation it stands for, over an arbitrary MAC, arbitrary Diffie-Hellman
// outputs and arbitrary handshake digests.
module KeyBytes {
  import opened Common
  import opened Symbolic
  import Hkdf
  import N = Noise
  import X3DH

  datatype World = World(mac: Hkdf.Mac, shared: (nat, nat) -> Hkdf.Digest, digest: N.Hash -> Hkdf.Digest)

  const ZEROS: Bytes := seq(32, _ => 0)

  function TextBytes(s: string): Bytes {
    seq(|s|, i requires 0 <= i < |s| => s[i] as int % 256)
  }

  // The 32 bytes at `offset` of HKDF's output.
  function HkdfPart(w: World, secret: Bytes, salt: Bytes, info: Bytes, offset: nat): Bytes {
    var r := Hkdf.Output(w.mac, w.mac(salt, secret), info, offset + 32);
    if r.Err? then [] else r.value[offset..]
  }

  function Value(w: World, t: Term): Bytes
    decreases t
  {
    match t
    case Zero32 => ZEROS
    case Dh(lo, hi) => w.shared(lo, hi)
    case Hkdf(ikm, salt, info, offset) => HkdfPart(w, Values(w, ikm), TextBytes(salt), TextBytes(info), offset)
    case Hmac(key, tweak, data) => w.mac(Value(w, key), [tweak % 256] + Values(w, data))
  }

  function Values(w: World, ts: seq<Term>): Bytes
    decreases ts
  {
    if ts == [] then [] else Value(w, ts[0]) + Values(w, ts[1..])
  }

  function KeyValue(w: World, k: N.Key): Bytes {
    match k
    case NameKey(name) => w.digest(name)
    case FirstHalf(ck, secret) => HkdfPart(w, SecretValue(w, secret), KeyValue(w, ck), [], 0)
    case SecondHalf(ck, secret) => HkdfPart(w, SecretValue(w, secret), KeyValue(w, ck), [], 32)
  }

  function SecretValue(w: World, secret: Option<Term>): Bytes {
    if secret.None? then [] else Value(w, secret.value)
  }

  // ---------------------------------------------------------------------
  // HKDF in halves

  lemma Halves(w: World, secret: Bytes, salt: Bytes, info: Bytes)
    ensures |HkdfPart(w, secret, salt, info, 0)| == |HkdfPart(w, secret, salt, info, 32)| == 32
    ensures Hkdf.Output(w.mac, w.mac(salt, secret), info, 64)
            == Ok(HkdfPart(w, secret, salt, info, 0) + HkdfPart(w, secret, salt, info, 32))
  {
    var prk := w.mac(salt, secret);
    Hkdf.OutputPrefix(w.mac, prk, info, 32, 64);
    var all := Hkdf.Output(w.mac, prk, info, 64).value;
    hide Hkdf.Output;
    assert all == all[..32] + all[32..];
  }

  lemma FourValues(w: World, a: Term, b: Term, c: Term, d: Term)
    ensures Values(w, [a, b, c, d]) == Value(w, a) + Value(w, b) + Value(w, c) + Value(w, d)
  {
    MoreValues(w, a, [b, c, d]);
    MoreValues(w, b, [c, d]);
    MoreValues(w, c, [d]);
    OneValue(w, d);
    hide Value, Values;
    assert [a] + [b, c, d] == [a, b, c, d] && [b] + [c, d] == [b, c, d] && [c] + [d] == [c, d];
    var x, y, u, v := Value(w, a), Value(w, b), Value(w, c), Value(w, d);
    assert x + (y + (u + v)) == x + y + u + v;
  }

  lemma MoreValues(w: World, a: Term, rest: seq<Term>)
    ensures Values(w, [a] + rest) == Value(w, a) + Values(w, rest)
  {
    assert ([a] + rest)[1..] == rest;
  }

  lemma OneValue(w: World, a: Term)
    ensures Values(w, [a]) == Value(w, a)
  {
    assert [a][1..] == [];
    assert Value(w, a) + [] == Value(w, a);
  }

  // ---------------------------------------------------------------------
  // X3DH

  // The bytes of a Diffie-Hellman result that succeeded.
  function Shared(w: World, priv: nat, peer: PubKey): Bytes {
    match DH(priv, peer)
    case None => []
    case Some(t) => Value(w, t)
  }

  // Root key and chain key are the first and the second 32 bytes of HKDF with a
  // zero salt over identity-identity, ephemeral-prekey and identity-prekey
  // secrets, in this order, and the one-time secret or 32 zero bytes.
  lemma InitiatorBytes(w: World, a: nat, eph: nat, bundle: X3DH.PreKeyBundle, info: string, pick: Option<U32>)
    requires X3DH.MayPick(bundle.oneTime, pick) && X3DH.Initiator(a, eph, bundle, info, pick).Ok?
    ensures var (root, chain) := X3DH.Initiator(a, eph, bundle, info, pick).value;
            var fourth := if pick.None? then ZEROS else Shared(w, eph, bundle.oneTime[pick.value]);
            var secret := Shared(w, a, bundle.identityPub) + Shared(w, eph, bundle.spkPub) + Shared(w, a, bundle.spkPub) + fourth;
            && |Value(w, root)| == |Value(w, chain)| == 32
            && Hkdf.Output(w.mac, w.mac(ZEROS, secret), TextBytes(info), 64) == Ok(Value(w, root) + Value(w, chain))
  {
    hide Hkdf.Output, HkdfPart;
    var (root, chain) := X3DH.Initiator(a, eph, bundle, info, pick).value;
    var d1, d2, d3 := DH(a, bundle.identityPub).value, DH(eph, bundle.spkPub).value, DH(a, bundle.spkPub).value;
    var d4 := if pick.None? then Zero32 else DH(eph, bundle.oneTime[pick.value]).value;
    assert (root, chain) == X3DH.Derive([d1, d2, d3, d4], info);
    hide DH, X3DH.Initiator;
    DeriveBytes(w, d1, d2, d3, d4, info);
  }

  lemma DeriveBytes(w: World, d1: Term, d2: Term, d3: Term, d4: Term, info: string)
    ensures var (root, chain) := X3DH.Derive([d1, d2, d3, d4], info);
            && |Value(w, root)| == |Value(w, chain)| == 32
            && Hkdf.Output(w.mac, w.mac(ZEROS, Value(w, d1) + Value(w, d2) + Value(w, d3) + Value(w, d4)), TextBytes(info), 64)
               == Ok(Value(w, root) + Value(w, chain))
  {
    hide Hkdf.Output, HkdfPart, TextBytes;
    FourValues(w, d1, d2, d3, d4);
    SaltIsZero();
    var (root, chain) := X3DH.Derive([d1, d2, d3, d4], info);
    var secret := Values(w, [d1, d2, d3, d4]);
    assert Value(w, root) == HkdfPart(w, secret, ZEROS, TextBytes(info), 0);
    assert Value(w, chain) == HkdfPart(w, secret, ZEROS, TextBytes(info), 32);
    hide Value, Values;
    Halves(w, secret, ZEROS, TextBytes(info));
  }

  lemma SaltIsZero()
    ensures TextBytes(X3DH.ZERO_SALT) == ZEROS
  {
  }

  // The responder's is the same computation from the other halves of the keys.
  lemma RecipientBytes(w: World, me: nat, spk: nat, sender: PubKey, eph: PubKey, key: Option<nat>, info: string)
    requires X3DH.Recipient(me, spk, sender, eph, key, info).Ok?
    ensures var (root, chain) := X3DH.Recipient(me, spk, sender, eph, key, info).value;
            var fourth := if key.None? then ZEROS else Shared(w, key.value, eph);
            var secret := Shared(w, me, sender) + Shared(w, spk, eph) + Shared(w, spk, sender) + fourth;
            && |Value(w, root)| == |Value(w, chain)| == 32
            && Hkdf.Output(w.mac, w.mac(ZEROS, secret), TextBytes(info), 64) == Ok(Value(w, root) + Value(w, chain))
  {
    hide Hkdf.Output, HkdfPart;
    var (root, chain) := X3DH.Recipient(me, spk, sender, eph, key, info).value;
    var d1, d2, d3 := DH(me, sender).value, DH(spk, eph).value, DH(spk, sender).value;
    var d4 := if key.None? then Zero32 else DH(key.value, eph).value;
    assert (root, chain) == X3DH.Derive([d1, d2, d3, d4], info);
    hide DH, X3DH.Recipient;
    DeriveBytes(w, d1, d2, d3, d4, info);
  }

  // ---------------------------------------------------------------------
  // The ratchet

  // kdfRoot and kdfChain: HMAC under the old key with the four one-byte labels.
  lemma RatchetBytes(w: World, root: Term, secret: Term, chain: Term)
    ensures Value(w, NextRoot(root, secret)) == w.mac(Value(w, root), [0x80] + Value(w, secret))
    ensures Value(w, NewChain(root, secret)) == w.mac(Value(w, root), [0x07] + Value(w, secret))
    ensures Value(w, MessageKey(chain)) == w.mac(Value(w, chain), [0x01])
    ensures Value(w, NextChain(chain)) == w.mac(Value(w, chain), [0x02])
  {
    OneValue(w, secret);
    assert [0x01] + [] == [0x01] && [0x02] + [] == [0x02];
  }

  // expandMessageKey: the AES key is the first 32 of HKDF's 44 bytes.
  lemma MessageKeyBytes(w: World, messageKey: Term)
    ensures var out := Hkdf.Output(w.mac, w.mac(TextBytes("batur-e2e-keys"), Value(w, messageKey)), TextBytes("msg"), 44);
            out.Ok? && Value(w, ExpandMessageKey(messageKey)) == out.value[..32]
  {
    OneValue(w, messageKey);
    Hkdf.OutputPrefix(w.mac, w.mac(TextBytes("batur-e2e-keys"), Value(w, messageKey)), TextBytes("msg"), 32, 44);
    hide Hkdf.Output;
  }

  // ---------------------------------------------------------------------
  // Noise

  // MixKey: the new chaining key and the new cipher key are the first and the
  // second 32 bytes of HKDF under the old chaining key over the secret.
  lemma MixKeyBytes(w: World, s: N.Symmetric, secret: Term)
    ensures var t := s.Mix(secret);
            && |KeyValue(w, t.ck)| == |KeyValue(w, t.k)| == 32
            && Hkdf.Output(w.mac, w.mac(KeyValue(w, s.ck), Value(w, secret)), [], 64) == Ok(KeyValue(w, t.ck) + KeyValue(w, t.k))
            && t.h == s.h && t.counter == 0
  {
    Halves(w, Value(w, secret), KeyValue(w, s.ck), []);
    hide Hkdf.Output, HkdfPart;
  }

  // SendKeys: the initiator sends with the first 32 bytes of HKDF over nothing
  // and receives with the second; the responder the other way round.
  lemma SendKeysBytes(w: World, s: N.Symmetric)
    ensures Hkdf.Output(w.mac, w.mac(KeyValue(w, s.ck), []), [], 64)
            == Ok(KeyValue(w, s.SendKey(true)) + KeyValue(w, s.RecvKey(true)))
    ensures s.SendKey(false) == s.RecvKey(true) && s.RecvKey(false) == s.SendKey(true)
    ensures |KeyValue(w, s.SendKey(true))| == |KeyValue(w, s.RecvKey(true))| == 32
  {
    Halves(w, [], KeyValue(w, s.ck), []);
    hide Hkdf.Output, HkdfPart;
  }
}
