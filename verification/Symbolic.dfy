// Symbolic cryptography for the end-to-end layer.
//
// A key pair is named by its private seed; a Diffie-Hellman secret is the
// unordered pair of the two seeds; HMAC and HKDF outputs are free
// constructors (hence injective); AES-GCM is an ideal seal.
module Symbolic {
  import opened Common

  // A 32-byte X25519 public key. `LowOrder` stands for the encodings on which
  // ECDH reports an error; the all-zero array is `LowOrder(0)`.
  datatype PubKey = Pub(id: nat) | LowOrder(n: nat)

  const ZERO_PUB: PubKey := LowOrder(0)

  datatype Term =
    | Zero32
    | Dh(lo: nat, hi: nat)
    | Hkdf(ikm: seq<Term>, salt: string, info: string, offset: nat)
    | Hmac(key: Term, tweak: nat, data: seq<Term>)

  // Ed25519 signatures over the two certificate statements.
  datatype Signature =
    | NoSignature
    | SignedIdentity(signer: nat, dhPub: PubKey)
    | SignedPreKey(signer: nat, cert: Signature, spkPub: PubKey, spkID: U32)

  function DH(priv: nat, peer: PubKey): Option<Term> {
    match peer
    case LowOrder(_) => None
    case Pub(id) => Some(if priv <= id then Dh(priv, id) else Dh(id, priv))
  }

  // Both holders of a pair of keys derive the same secret, and no other key
  // in place of the peer's gives it.
  lemma DHAgreement(a: nat, b: nat, c: nat)
    ensures DH(a, Pub(b)) == DH(b, Pub(a))
    ensures DH(a, Pub(b)) == DH(a, Pub(c)) <==> b == c
  {
  }

  // kdfRoot
  function NextRoot(root: Term, secret: Term): Term {
    Hmac(root, 0x80, [secret])
  }

  function NewChain(root: Term, secret: Term): Term {
    Hmac(root, 0x07, [secret])
  }

  // kdfChain
  function MessageKey(chain: Term): Term {
    Hmac(chain, 0x01, [])
  }

  function NextChain(chain: Term): Term {
    Hmac(chain, 0x02, [])
  }

  // expandMessageKey: the AES key and nonce derived from a message key.
  function ExpandMessageKey(messageKey: Term): Term {
    Hkdf([messageKey], "batur-e2e-keys", "msg", 0)
  }

  datatype Header =
    | NoHeader
    | HeaderBox(key: Term, tag: string, spkID: U32)
    | ForeignHeader(id: nat)

  datatype Body =
    | Sealed(key: Term, aadPub: PubKey, aadHeader: Header, plain: Bytes)
    | ForeignBody(id: nat)

  function OpenBody(key: Term, aadPub: PubKey, aadHeader: Header, body: Body): Option<Bytes> {
    match body
    case Sealed(k, p, h, plain) =>
      if k == key && p == aadPub && h == aadHeader then Some(plain) else None
    case ForeignBody(_) => None
  }
}
