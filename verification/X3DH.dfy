// X3DH key agreement: bundle verification and the two derivations.
module X3DH {
  import opened Common
  import opened Symbolic

  datatype Error = BundleInvalid | BadKey

  datatype Identity = Identity(dh: nat, sign: nat, regID: U32)

  datatype PreKeyBundle = PreKeyBundle(
    identityPub: PubKey, identitySigPub: nat, identityCert: Signature, regID: U32,
    spkPub: PubKey, spkID: U32, spkSig: Signature,
    oneTime: map<U32, PubKey>)

  // BuildBundle
  function BuildBundle(id: Identity, spk: nat, spkID: U32, oneTime: map<U32, PubKey>): PreKeyBundle {
    var cert := SignedIdentity(id.sign, Pub(id.dh));
    PreKeyBundle(Pub(id.dh), id.sign, cert, id.regID, Pub(spk), spkID,
                 SignedPreKey(id.sign, cert, Pub(spk), spkID), oneTime)
  }

  // VerifyBundle
  predicate VerifyBundle(b: PreKeyBundle) {
    && b.identityCert == SignedIdentity(b.identitySigPub, b.identityPub)
    && b.spkSig == SignedPreKey(b.identitySigPub, b.identityCert, b.spkPub, b.spkID)
  }

  // Which entry a `for range ... break` over the one-time prekeys may select:
  // any entry of a non-empty map, nothing for an empty one.
  predicate MayPick(oneTime: map<U32, PubKey>, pick: Option<U32>) {
    match pick
    case None => oneTime == map[]
    case Some(id) => id in oneTime
  }

  // 32 zero bytes.
  const ZERO_SALT: string :=
    "\0\0\0\0\0\0\0\0\0\0\0\0\0\0\0\0\0\0\0\0\0\0\0\0\0\0\0\0\0\0\0\0"

  // x3dhDerive: 64 bytes split into root and chain.
  function Derive(ikm: seq<Term>, info: string): (Term, Term) {
    (Hkdf(ikm, ZERO_SALT, info, 0), Hkdf(ikm, ZERO_SALT, info, 32))
  }

  function Initiator(identity: nat, ephemeral: nat, bundle: PreKeyBundle, info: string, pick: Option<U32>)
    : Result<(Term, Term), Error>
    requires MayPick(bundle.oneTime, pick)
  {
    var d1 := DH(identity, bundle.identityPub);
    var d2 := DH(ephemeral, bundle.spkPub);
    var d3 := DH(identity, bundle.spkPub);
    if d1.None? || d2.None? || d3.None? then Err(BadKey)
    else if pick.None? then Ok(Derive([d1.value, d2.value, d3.value, Zero32], info))
    else
      var d4 := DH(ephemeral, bundle.oneTime[pick.value]);
      if d4.None? then Err(BadKey) else Ok(Derive([d1.value, d2.value, d3.value, d4.value], info))
  }

  function Recipient(identity: nat, spk: nat, senderIdentity: PubKey, senderEphemeral: PubKey,
                     oneTime: Option<nat>, info: string): Result<(Term, Term), Error>
  {
    var d1 := DH(identity, senderIdentity);
    var d2 := DH(spk, senderEphemeral);
    var d3 := DH(spk, senderIdentity);
    if d1.None? || d2.None? || d3.None? then Err(BadKey)
    else if oneTime.None? then Ok(Derive([d1.value, d2.value, d3.value, Zero32], info))
    else
      var d4 := DH(oneTime.value, senderEphemeral);
      if d4.None? then Err(BadKey) else Ok(Derive([d1.value, d2.value, d3.value, d4.value], info))
  }

  // The responder's one-time key is the one the initiator mixed in.
  predicate OneTimeKeysMatch(bundle: PreKeyBundle, pick: Option<U32>, oneTime: Option<nat>)
    requires MayPick(bundle.oneTime, pick)
  {
    match (pick, oneTime)
    case (None, None) => true
    case (Some(id), Some(key)) => bundle.oneTime[id] == Pub(key)
    case _ => false
  }

  // Against a bundle the responder published, the two sides succeed and agree
  // exactly when the one-time prekey mixed in is the responder's, or neither
  // side used one.
  lemma Agreement(a: nat, eph: nat, bob: Identity, spk: nat, spkID: U32,
                  oneTime: map<U32, PubKey>, pick: Option<U32>, key: Option<nat>, info: string)
    requires MayPick(oneTime, pick)
    ensures var bundle := BuildBundle(bob, spk, spkID, oneTime);
            var left := Initiator(a, eph, bundle, info, pick);
            var right := Recipient(bob.dh, spk, Pub(a), Pub(eph), key, info);
            && VerifyBundle(bundle)
            && right.Ok?
            && (left == right <==> OneTimeKeysMatch(bundle, pick, key))
  {
  }

  // The secrets depend on every key that goes in. Whoever plays the responder
  // agrees with the initiator exactly when it holds the private halves of the
  // identity key, the signed prekey and the one-time key of the bundle.
  lemma OnlyTheRecipientAgrees(a: nat, eph: nat, bob: Identity, spk: nat, spkID: U32, oneTime: map<U32, PubKey>,
                               pick: Option<U32>, me: nat, mySpk: nat, myKey: Option<nat>, info: string)
    requires MayPick(oneTime, pick)
    ensures var bundle := BuildBundle(bob, spk, spkID, oneTime);
            Initiator(a, eph, bundle, info, pick) == Recipient(me, mySpk, Pub(a), Pub(eph), myKey, info) <==>
            me == bob.dh && mySpk == spk && OneTimeKeysMatch(bundle, pick, myKey)
  {
  }

  // The responder agrees with the sender it is told of exactly when that sender's
  // identity key and ephemeral key are the initiator's, and the context is the same.
  lemma OnlyTheSenderAgrees(a: nat, eph: nat, bob: Identity, spk: nat, spkID: U32, oneTime: map<U32, PubKey>,
                            pick: Option<U32>, key: Option<nat>, a': PubKey, eph': PubKey, info: string, info': string)
    requires MayPick(oneTime, pick) && OneTimeKeysMatch(BuildBundle(bob, spk, spkID, oneTime), pick, key)
    ensures var bundle := BuildBundle(bob, spk, spkID, oneTime);
            Initiator(a, eph, bundle, info, pick) == Recipient(bob.dh, spk, a', eph', key, info') <==>
            a' == Pub(a) && eph' == Pub(eph) && info' == info
  {
  }

  // The root and the first chain key are different secrets.
  lemma RootIsNotChain(identity: nat, ephemeral: nat, bundle: PreKeyBundle, info: string, pick: Option<U32>)
    requires MayPick(bundle.oneTime, pick) && Initiator(identity, ephemeral, bundle, info, pick).Ok?
    ensures var (root, chain) := Initiator(identity, ephemeral, bundle, info, pick).value; root != chain
  {
  }

  // With the certificates an identity made for its bundle, a bundle verifies
  // exactly if it names that identity's signing key and carries exactly the
  // identity key, the signed prekey and the prekey id that were signed.
  lemma TamperedBundleRefused(id: Identity, spk: nat, spkID: U32, oneTime: map<U32, PubKey>, b: PreKeyBundle)
    requires b.identityCert == BuildBundle(id, spk, spkID, oneTime).identityCert
    requires b.spkSig == BuildBundle(id, spk, spkID, oneTime).spkSig
    ensures VerifyBundle(b) <==>
            b.identitySigPub == id.sign && b.identityPub == Pub(id.dh) && b.spkPub == Pub(spk) && b.spkID == spkID
  {
  }
}
