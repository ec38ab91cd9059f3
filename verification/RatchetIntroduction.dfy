// Who accepts an introduction, and what the two parties know of each other.
module RatchetIntroduction {
  import opened Common
  import opened Symbolic
  import opened Ratchet
  import opened Chains
  import opened TwoParty
  import opened RatchetInvariant
  import opened RatchetDelivery
  import X3DH

  // ---------------------------------------------------------------------
  // Certificates

  // An init envelope with a certificate that `signer` made over `pub` is refused
  // for it exactly if it names another signing key or another identity key.
  lemma ForeignCertificateRefused(keys: BobKeys, env: Envelope, info: string, signer: nat, pub: PubKey)
    requires env.typ == EnvInit && env.intro.Some? && env.intro.value.identityCert == SignedIdentity(signer, pub)
    ensures BobSession(keys, env, info) == Err(BadCertificate) <==>
            env.intro.value.identitySigPub != signer || env.intro.value.identityPub != pub
  {
    hide OpenMessage;
    OpeningErrors(BobInitialState(keys, env, info, Zero32, Zero32), env);
    var r := X3DH.Recipient(keys.identity.dh, keys.signedPreKey, env.intro.value.identityPub, env.ratchetPub,
                            keys.oneTimeKey, info);
    if r.Ok? {
      OpeningErrors(BobInitialState(keys, env, info, r.value.0, r.value.1), env);
    }
  }

  // An init envelope without a certificate is refused.
  lemma UncertifiedRefused(keys: BobKeys, env: Envelope, info: string)
    requires env.intro.Some? ==> !env.intro.value.identityCert.SignedIdentity?
    ensures BobSession(keys, env, info).Err?
  {
  }

  lemma OpeningErrors(s: State, env: Envelope)
    requires s.inbound.chain.Some? && s.inbound.pub == env.ratchetPub
    ensures OpenMessage(s, env).1 != Err(BadCertificate)
  {
    hide SkipTo;
  }

  // A bundle that does not verify starts no session.
  lemma UnverifiedBundleRefused(bundle: X3DH.PreKeyBundle, identity: X3DH.Identity, info: string,
                                newKey: Option<nat>, pickKey: Option<U32>, pickID: Option<U32>)
    requires X3DH.MayPick(bundle.oneTime, pickKey) && X3DH.MayPick(bundle.oneTime, pickID)
    ensures AliceSession(bundle, identity, info, newKey, pickKey, pickID) == Err(BundleInvalid) <==> !X3DH.VerifyBundle(bundle)
  {
  }

  // ---------------------------------------------------------------------
  // The addressee

  // The first envelope of a session toward a bundle opens, and to its plaintext,
  // for exactly the responder that holds the private keys of the bundle, under
  // the same context: any other identity key, signed prekey, prekey id, one-time
  // key or context refuses it.
  lemma OnlyTheAddresseeAccepts(alice: X3DH.Identity, eph: nat, bob: X3DH.Identity, spk: nat, spkID: U32,
                                oneTime: map<U32, PubKey>, pick: Option<U32>, info: string, plain: Bytes,
                                keys: BobKeys, info': string)
    requires X3DH.MayPick(oneTime, pick)
    requires var bundle := X3DH.BuildBundle(bob, spk, spkID, oneTime);
             AliceSession(bundle, alice, info, Some(eph), pick, pick).Ok?
    ensures var bundle := X3DH.BuildBundle(bob, spk, spkID, oneTime);
            var s := AliceSession(bundle, alice, info, Some(eph), pick, pick).value;
            var r := BobSession(keys, NextEnvelope(s, plain), info');
            && (r.Ok? <==> && keys.identity.dh == bob.dh && keys.signedPreKey == spk && keys.signedPreID == spkID
                           && X3DH.OneTimeKeysMatch(bundle, pick, keys.oneTimeKey) && info' == info)
            && (r.Ok? ==> r.value.1 == plain)
  {
    var bundle := X3DH.BuildBundle(bob, spk, spkID, oneTime);
    var s := AliceSession(bundle, alice, info, Some(eph), pick, pick).value;
    var env := NextEnvelope(s, plain);
    var left := X3DH.Initiator(alice.dh, eph, bundle, info, pick);
    var right := X3DH.Recipient(keys.identity.dh, keys.signedPreKey, Pub(alice.dh), Pub(eph), keys.oneTimeKey, info');
    SameRootSameSecrets(alice.dh, eph, bob, spk, spkID, oneTime, pick, keys, info, info');
    assert right.Ok?;
    hide X3DH.Initiator, X3DH.Recipient, X3DH.OneTimeKeysMatch, X3DH.MayPick, X3DH.BuildBundle, X3DH.VerifyBundle;
    var (root, chain) := right.value;
    FirstOpens(BobInitialState(keys, env, info', root, chain), env, left.value.1, plain);
    hide OpenMessage;
  }

  // The header is under the responder's root exactly when all keys match.
  lemma SameRootSameSecrets(a: nat, eph: nat, bob: X3DH.Identity, spk: nat, spkID: U32, oneTime: map<U32, PubKey>,
                            pick: Option<U32>, keys: BobKeys, info: string, info': string)
    requires X3DH.MayPick(oneTime, pick)
    requires X3DH.Initiator(a, eph, X3DH.BuildBundle(bob, spk, spkID, oneTime), info, pick).Ok?
    ensures var bundle := X3DH.BuildBundle(bob, spk, spkID, oneTime);
            var left := X3DH.Initiator(a, eph, bundle, info, pick);
            var right := X3DH.Recipient(keys.identity.dh, keys.signedPreKey, Pub(a), Pub(eph), keys.oneTimeKey, info');
            && right.Ok?
            && (left.value.0 == right.value.0 <==>
                  && keys.identity.dh == bob.dh && keys.signedPreKey == spk
                  && X3DH.OneTimeKeysMatch(bundle, pick, keys.oneTimeKey) && info' == info)
            && (left.value.0 == right.value.0 ==> left == right)
  {
    var bundle := X3DH.BuildBundle(bob, spk, spkID, oneTime);
    var left := X3DH.Initiator(a, eph, bundle, info, pick);
    var right := X3DH.Recipient(keys.identity.dh, keys.signedPreKey, Pub(a), Pub(eph), keys.oneTimeKey, info');
    var same := X3DH.Recipient(keys.identity.dh, keys.signedPreKey, Pub(a), Pub(eph), keys.oneTimeKey, info);
    X3DH.OnlyTheRecipientAgrees(a, eph, bob, spk, spkID, oneTime, pick, keys.identity.dh, keys.signedPreKey, keys.oneTimeKey, info);
    assert left.value.0 == right.value.0 <==> left == right;
    assert info == info' ==> same == right;
    assert left.value.0.info == info && right.value.0.info == info';
  }

  lemma FirstOpens(s: State, env: Envelope, chain: Term, plain: Bytes)
    requires s.inbound == Inbound(s.inbound.chain, env.ratchetPub, true, 0, map[]) && s.inbound.chain.Some?
    requires env.counter == 0 && env.body == Sealed(ExpandMessageKey(MessageKey(chain)), env.ratchetPub, env.header, plain)
    ensures s.inbound.chain == Some(chain) ==> OpenMessage(s, env).1 == Ok(plain)
  {
  }

  // ---------------------------------------------------------------------
  // What the parties know of each other

  ghost predicate KnowsBob(c: Setup, p: Profile) {
    && p.selfDH == Pub(c.alice.dh) && p.selfSig == c.alice.sign && p.selfID == c.alice.regID
    && p.peerIdentityPub == Pub(c.bob.identity.dh) && p.peerSigPub == c.bob.identity.sign
    && p.peerRegID == c.bob.identity.regID && p.spkID == c.bob.signedPreID
    && p.opkID == PickedID(c) && p.initInfo == c.info && p.isInitiator && p.signer == Some(c.alice.sign)
  }

  ghost predicate KnowsAlice(c: Setup, p: Profile) {
    && p.selfDH == Pub(c.bob.identity.dh) && p.selfSig == c.bob.identity.sign && p.selfID == c.bob.identity.regID
    && p.peerIdentityPub == Pub(c.alice.dh) && p.peerSigPub == c.alice.sign
    && p.peerRegID == c.alice.regID && p.spkID == c.bob.signedPreID
    && p.opkID == PickedID(c) && p.initInfo == c.info && !p.isInitiator
  }

  // The id of the one-time prekey the initiator picked, 0 if there was none.
  function PickedID(c: Setup): U32 {
    if c.pickID.Some? then c.pickID.value else 0
  }

  ghost predicate Known(w: System) {
    && w.alice.session.Some? && KnowsBob(w.setup, w.alice.session.value.profile)
    && (|w.alice.sent| > 0 ==> w.alice.sent[0].env.intro == Some(Introduced(w.setup)))
    && (w.bob.session.Some? ==> KnowsAlice(w.setup, w.bob.session.value.profile))
  }

  function Introduced(c: Setup): Introduction {
    Introduction(Pub(c.alice.dh), c.alice.sign, SignedIdentity(c.alice.sign, Pub(c.alice.dh)), c.alice.regID, PickedID(c))
  }

  lemma ProfileStays(s: State, env: Envelope)
    ensures Decrypt(s, env).0.profile == s.profile
  {
    hide SkipTo, PutAway, OpenInbound;
  }

  lemma SendKnown(w: System, p: Party, plain: Bytes, newKey: nat)
    requires Known(w) && Enabled(w, Send(p, plain, newKey))
    requires w.alice.session.value.outbound.initSent <==> |w.alice.sent| > 0
    ensures Known(Next(w, Send(p, plain, newKey)))
  {
    hide DH;
    var s := w.Get(p).session.value;
    assert Encrypt(s, plain, Some(newKey)).0.profile == s.profile;
  }

  lemma FirstDeliveryKnown(w: System, index: nat)
    requires Known(w) && Enabled(w, Deliver(Bob, index)) && w.bob.session.None?
    ensures Known(Next(w, Deliver(Bob, index)))
  {
    var env := w.alice.sent[0].env;
    var r := BobSession(w.setup.bob, env, w.setup.info);
    if r.Ok? {
      hide X3DH.Recipient, OpenInbound;
      assert KnowsAlice(w.setup, r.value.0.profile);
    }
  }

  lemma DeliverKnown(w: System, p: Party, index: nat)
    requires Known(w) && Enabled(w, Deliver(p, index)) && w.Get(p).session.Some?
    ensures Known(Next(w, Deliver(p, index)))
  {
    hide Decrypt, KnowsAlice, KnowsBob;
    ProfileStays(w.Get(p).session.value, w.Get(Peer(p)).sent[index].env);
  }

  lemma StepKnown(w: System, a: Action)
    requires Known(w) && Enabled(w, a)
    requires w.alice.session.value.outbound.initSent <==> |w.alice.sent| > 0
    ensures Known(Next(w, a))
  {
    hide Known, Next, Enabled;
    match a
    case Send(p, plain, newKey) => SendKnown(w, p, plain, newKey);
    case Deliver(p, index) =>
      if w.Get(p).session.Some? {
        DeliverKnown(w, p, index);
      } else {
        OnlyBobIsNew(w, p, index);
        FirstDeliveryKnown(w, index);
      }
  }

  lemma OnlyBobIsNew(w: System, p: Party, index: nat)
    requires Known(w) && Enabled(w, Deliver(p, index)) && w.Get(p).session.None?
    ensures p == Bob
  {
  }

  lemma InitialKnown(w: System)
    requires IsInitial(w)
    ensures Known(w)
  {
    hide X3DH.Initiator, X3DH.OneTimeKeysMatch;
  }

  lemma {:induction false} RunKnown(ws: seq<System>, actions: seq<Action>, i: nat)
    requires IsRun(ws, actions) && i < |ws|
    ensures Known(ws[i])
  {
    hide Known, Next, Enabled, SystemInv, IsInitial;
    if i == 0 {
      InitialKnown(ws[0]);
    } else {
      RunKnown(ws, actions, i - 1);
      var h, la, lb := RunKeepsSystem(ws, actions, i - 1);
      InitSentIsKnown(ws[i - 1], h, la, lb);
      assert Enabled(ws[i - 1], actions[i - 1]) && ws[i] == Next(ws[i - 1], actions[i - 1]);
      StepKnown(ws[i - 1], actions[i - 1]);
    }
  }

  lemma InitSentIsKnown(w: System, h: History, la: int, lb: int)
    requires SystemInv(w, h, la, lb)
    ensures w.alice.session.Some? && (w.alice.session.value.outbound.initSent <==> |w.alice.sent| > 0)
  {
    hide SideInv, Grounded;
  }

  // In every state of every run, the initiator's session holds its own and the
  // bundle's identity, registration id and prekey id; and once there is a
  // responder's session, it holds the initiator's identity key, signing key and
  // registration id and the id of the one-time prekey that was picked.
  lemma PartiesKnowEachOther(ws: seq<System>, actions: seq<Action>, i: nat)
    requires IsRun(ws, actions) && i < |ws|
    ensures ws[i].alice.session.Some? && KnowsBob(ws[i].setup, ws[i].alice.session.value.profile)
    ensures ws[i].bob.session.Some? ==> KnowsAlice(ws[i].setup, ws[i].bob.session.value.profile)
  {
    RunKnown(ws, actions, i);
    hide IsRun;
  }
}
