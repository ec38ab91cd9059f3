// The Double Ratchet session: its state, the meaning of every operation as a
// function on states, and the mutable object that implements them.
module Ratchet {
  import opened Common
  import opened Symbolic
  import X3DH

  const MAX_SKIPPED_MESSAGE_KEYS: nat := 1000
  const INIT_TAG: string := "batur-e2e-init-v1"

  datatype EnvelopeType = EnvInit | EnvRatchet

  // Handshake fields carried in clear by an init envelope.
  datatype Introduction = Introduction(
    identityPub: PubKey, identitySigPub: nat, identityCert: Signature, regID: U32, opkID: U32)

  datatype Envelope = Envelope(
    typ: EnvelopeType, ratchetPub: PubKey, prevCount: U32, counter: U32,
    header: Header, body: Body, intro: Option<Introduction>)

  // Key of a buffered message key.
  datatype ChainIndex = ChainIndex(ratchet: PubKey, pn: U32, n: U32)

  datatype Error =
    | NoRemoteKey | RandomFailed | BufferExhausted | NoSendingIdentity | BadKey
    | TooOld | DecryptFailed | NotInit | BadCertificate | BadHeaderTag | SpkMismatch
    | BundleInvalid | BadVersion

  // Fields that no operation changes after creation.
  datatype Profile = Profile(
    isInitiator: bool, selfDH: PubKey, selfSig: nat, selfID: U32, signer: Option<nat>,
    peerIdentityPub: PubKey, peerSigPub: nat, peerRegID: U32,
    opkID: U32, spkID: U32, initInfo: string, maxSkip: nat)

  // Everything the sending side reads and writes, apart from the root.
  datatype Outbound = Outbound(
    chain: Option<Term>, dh: Option<nat>, counter: U32, previousCounter: U32, retiredCount: U32, initSent: bool)

  // Everything the receiving side reads and writes, apart from the root.
  datatype Inbound = Inbound(
    chain: Option<Term>, pub: PubKey, havePub: bool, counter: U32, skipped: map<ChainIndex, Term>)

  datatype State = State(rootKey: Term, outbound: Outbound, inbound: Inbound, profile: Profile)

  // ---------------------------------------------------------------------
  // Session creation

  function AliceSession(bundle: X3DH.PreKeyBundle, identity: X3DH.Identity, info: string,
                        newKey: Option<nat>, pickKey: Option<U32>, pickID: Option<U32>)
    : Result<State, Error>
    requires X3DH.MayPick(bundle.oneTime, pickKey) && X3DH.MayPick(bundle.oneTime, pickID)
  {
    if !X3DH.VerifyBundle(bundle) then Err(BundleInvalid)
    else if newKey.None? then Err(RandomFailed)
    else
      match X3DH.Initiator(identity.dh, newKey.value, bundle, info, pickKey)
      case Err(_) => Err(BadKey)
      case Ok((root, chain)) =>
        Ok(State(root, Outbound(Some(chain), newKey, 0, 0, 0, false), Inbound(None, ZERO_PUB, false, 0, map[]),
                 Profile(true, Pub(identity.dh), identity.sign, identity.regID, Some(identity.sign),
                         bundle.identityPub, bundle.identitySigPub, bundle.regID,
                         if pickID.Some? then pickID.value else 0, bundle.spkID, info,
                         MAX_SKIPPED_MESSAGE_KEYS)))
  }

  datatype BobKeys = BobKeys(identity: X3DH.Identity, signedPreKey: nat, signedPreID: U32, oneTimeKey: Option<nat>)

  // The freshly built responder, before its first message is opened.
  function BobInitialState(keys: BobKeys, env: Envelope, info: string, root: Term, chain: Term): State
    requires env.intro.Some?
  {
    State(root, Outbound(None, None, 0, 0, 0, false), Inbound(Some(chain), env.ratchetPub, true, 0, map[]),
          Profile(false, Pub(keys.identity.dh), keys.identity.sign, keys.identity.regID, Some(keys.identity.sign),
                  env.intro.value.identityPub, env.intro.value.identitySigPub, env.intro.value.regID,
                  env.intro.value.opkID, keys.signedPreID, info, MAX_SKIPPED_MESSAGE_KEYS))
  }

  function BobSession(keys: BobKeys, env: Envelope, info: string): Result<(State, Bytes), Error>
  {
    if env.typ != EnvInit then Err(NotInit)
    else if env.intro.None? then Err(BadKey)
    else if env.intro.value.identityCert != SignedIdentity(env.intro.value.identitySigPub, env.intro.value.identityPub)
    then Err(BadCertificate)
    else
      match X3DH.Recipient(keys.identity.dh, keys.signedPreKey, env.intro.value.identityPub, env.ratchetPub,
                           keys.oneTimeKey, info)
      case Err(_) => Err(BadKey)
      case Ok((root, chain)) =>
        if !env.header.HeaderBox? || env.header.key != root then Err(DecryptFailed)
        else if env.header.tag != INIT_TAG then Err(BadHeaderTag)
        else if env.header.spkID != keys.signedPreID then Err(SpkMismatch)
        else
          var (s, outcome) := OpenMessage(BobInitialState(keys, env, info, root, chain), env);
          match outcome
          case Err(e) => Err(e)
          case Ok(plain) => Ok((s, plain))
  }

  // ---------------------------------------------------------------------
  // Sending

  function EnsureSendingChain(s: State, newKey: Option<nat>): Result<State, Error> {
    if s.outbound.chain.Some? then Ok(s)
    else if !s.inbound.havePub then Err(NoRemoteKey)
    else if newKey.None? then Err(RandomFailed)
    else
      match DH(newKey.value, s.inbound.pub)
      case None => Err(BadKey)
      case Some(secret) =>
        Ok(s.(rootKey := NextRoot(s.rootKey, secret),
              outbound := s.outbound.(chain := Some(NewChain(s.rootKey, secret)), dh := newKey, counter := 0,
                                      previousCounter := s.outbound.retiredCount)))
  }

  function SelfCert(p: Profile): Signature {
    if p.signer.None? then NoSignature else SignedIdentity(p.signer.value, p.selfDH)
  }

  predicate SendsInit(s: State) {
    s.profile.isInitiator && !s.outbound.initSent
  }

  // The envelope a state with a live sending chain emits next.
  function NextEnvelope(s: State, plain: Bytes): Envelope
    requires s.outbound.chain.Some? && s.outbound.dh.Some?
  {
    var pub := Pub(s.outbound.dh.value);
    var header := if SendsInit(s) then HeaderBox(s.rootKey, INIT_TAG, s.profile.spkID) else NoHeader;
    Envelope(if SendsInit(s) then EnvInit else EnvRatchet, pub, s.outbound.previousCounter, s.outbound.counter, header,
             Sealed(ExpandMessageKey(MessageKey(s.outbound.chain.value)), pub, header, plain),
             if SendsInit(s)
             then Some(Introduction(s.profile.selfDH, s.profile.selfSig, SelfCert(s.profile), s.profile.selfID, s.profile.opkID))
             else None)
  }

  // The sending side after that envelope.
  function AfterEnvelope(s: State): State
    requires s.outbound.chain.Some?
  {
    s.(outbound := s.outbound.(chain := Some(NextChain(s.outbound.chain.value)), counter := Inc32(s.outbound.counter),
                               initSent := s.outbound.initSent || SendsInit(s)))
  }

  // A live sending chain always comes with the key pair that opened it.
  predicate WellFormed(s: State) {
    s.outbound.chain.Some? ==> s.outbound.dh.Some?
  }

  function Encrypt(s: State, plain: Bytes, newKey: Option<nat>): (State, Result<Envelope, Error>)
    requires WellFormed(s)
  {
    match EnsureSendingChain(s, newKey)
    case Err(e) => (s, Err(e))
    case Ok(t) => (AfterEnvelope(t), Ok(NextEnvelope(t, plain)))
  }

  // ---------------------------------------------------------------------
  // Receiving

  // Buffer the keys of the receiving chain up to `target`; stops short, and
  // says so, when the buffer is full.
  function SkipTo(s: Inbound, pn: U32, target: U32, maxSkip: nat): (Inbound, bool)
    requires s.chain.Some?
    decreases target - s.counter
  {
    if s.counter >= target then (s, true)
    else if |s.skipped| >= maxSkip then (s, false)
    else SkipTo(SkipOne(s, pn), pn, target, maxSkip)
  }

  function SkipOne(s: Inbound, pn: U32): Inbound
    requires s.chain.Some?
  {
    s.(skipped := s.skipped[ChainIndex(s.pub, pn, s.counter) := MessageKey(s.chain.value)],
       chain := Some(NextChain(s.chain.value)), counter := Inc32(s.counter))
  }

  // The sending chain retires; its message count is remembered.
  function Retire(o: Outbound): Outbound {
    o.(retiredCount := if o.chain.Some? then o.counter else o.retiredCount, chain := None)
  }

  // Put away the rest of the receiving chain before leaving it.
  function PutAway(s: State, pn: U32): (Inbound, bool) {
    if s.inbound.chain.Some? then SkipTo(s.inbound, s.outbound.previousCounter, pn, s.profile.maxSkip)
    else (s.inbound, true)
  }

  function RecvRatchetStep(s: State, pub: PubKey, pn: U32): (State, Option<Error>) {
    var (inbound, ok) := PutAway(s, pn);
    if !ok then (s.(inbound := inbound), Some(BufferExhausted))
    else
      var t := s.(inbound := inbound, outbound := Retire(s.outbound));
      if s.outbound.dh.None? then (t, Some(NoSendingIdentity))
      else
        match DH(s.outbound.dh.value, pub)
        case None => (t, Some(BadKey))
        case Some(secret) =>
          (t.(rootKey := NextRoot(s.rootKey, secret),
              inbound := Inbound(Some(NewChain(s.rootKey, secret)), pub, true, 0, inbound.skipped)), None)
  }

  function OpenWithKey(key: Term, env: Envelope): Result<Bytes, Error> {
    match OpenBody(ExpandMessageKey(key), env.ratchetPub, env.header, env.body)
    case None => Err(DecryptFailed)
    case Some(plain) => Ok(plain)
  }

  function IndexOf(env: Envelope): ChainIndex {
    ChainIndex(env.ratchetPub, env.prevCount, env.counter)
  }

  // Open an envelope of the current receiving chain.
  function OpenInbound(s: Inbound, env: Envelope, maxSkip: nat): (Inbound, Result<Bytes, Error>)
    requires s.chain.Some? && s.pub == env.ratchetPub
  {
    var idx := IndexOf(env);
    if idx in s.skipped then (s.(skipped := s.skipped - {idx}), OpenWithKey(s.skipped[idx], env))
    else if env.counter < s.counter then (s, Err(TooOld))
    else
      SkipToKeepsChain(s, env.prevCount, env.counter, maxSkip);
      var (t, ok) := SkipTo(s, env.prevCount, env.counter, maxSkip);
      if !ok then (t, Err(BufferExhausted))
      else
        (t.(chain := Some(NextChain(t.chain.value)), counter := Inc32(t.counter)),
         OpenWithKey(MessageKey(t.chain.value), env))
  }

  function OpenMessage(s: State, env: Envelope): (State, Result<Bytes, Error>)
    requires s.inbound.chain.Some? && s.inbound.pub == env.ratchetPub
  {
    var (inbound, outcome) := OpenInbound(s.inbound, env, s.profile.maxSkip);
    (s.(inbound := inbound), outcome)
  }

  // Does this envelope make the receiver turn its ratchet first?
  predicate NeedsStep(s: State, env: Envelope) {
    s.inbound.chain.None? || env.ratchetPub != s.inbound.pub
  }

  function Decrypt(s: State, env: Envelope): (State, Result<Bytes, Error>) {
    if NeedsStep(s, env) then
      var (t, failure) := RecvRatchetStep(s, env.ratchetPub, env.prevCount);
      if failure.Some? then (t, Err(failure.value)) else OpenMessage(t, env)
    else OpenMessage(s, env)
  }

  // Skipping only moves along the receiving chain.
  lemma SkipToKeepsChain(s: Inbound, pn: U32, target: U32, maxSkip: nat)
    requires s.chain.Some?
    ensures var t := SkipTo(s, pn, target, maxSkip).0;
            && t.chain.Some?
            && t == s.(skipped := t.skipped, chain := t.chain, counter := t.counter)
            && (s.counter <= target ==> s.counter <= t.counter <= target)
    decreases target - s.counter
  {
  }

  // ---------------------------------------------------------------------
  // The session object

  class Session {
    var rootKey: Term
    var sendingChain: Option<Term>
    var recvChain: Option<Term>
    var sendingDH: Option<nat>
    var recvPub: PubKey
    var haveRecvPub: bool
    var initSent: bool
    var sendingCounter: U32
    var receivingCounter: U32
    var previousCounter: U32
    var retiredSendCount: U32
    var skipped: map<ChainIndex, Term>
    const profile: Profile

    function Abs(): State
      reads this
    {
      State(rootKey, Outbound(sendingChain, sendingDH, sendingCounter, previousCounter, retiredSendCount, initSent),
            Inbound(recvChain, recvPub, haveRecvPub, receivingCounter, skipped), profile)
    }

    // An object holding exactly the given state.
    constructor (s: State)
      ensures Abs() == s
    {
      rootKey, profile := s.rootKey, s.profile;
      sendingChain, sendingDH, initSent := s.outbound.chain, s.outbound.dh, s.outbound.initSent;
      sendingCounter, previousCounter, retiredSendCount :=
        s.outbound.counter, s.outbound.previousCounter, s.outbound.retiredCount;
      recvChain, recvPub, haveRecvPub := s.inbound.chain, s.inbound.pub, s.inbound.havePub;
      receivingCounter, skipped := s.inbound.counter, s.inbound.skipped;
    }

    method EnsureChain(newKey: Option<nat>) returns (failure: Option<Error>)
      modifies this
      ensures match EnsureSendingChain(old(Abs()), newKey)
              case Ok(t) => failure == None && Abs() == t
              case Err(e) => failure == Some(e) && Abs() == old(Abs())
    {
      if sendingChain.Some? {
        return None;
      }
      if !haveRecvPub {
        return Some(NoRemoteKey);
      }
      if newKey.None? {
        return Some(RandomFailed);
      }
      var out := DH(newKey.value, recvPub);
      if out.None? {
        return Some(BadKey);
      }
      rootKey, sendingChain := NextRoot(rootKey, out.value), Some(NewChain(rootKey, out.value));
      sendingDH := newKey;
      sendingCounter := 0;
      previousCounter := retiredSendCount;
      return None;
    }

    method Seal(plain: Bytes, newKey: Option<nat>) returns (outcome: Result<Envelope, Error>)
      requires WellFormed(Abs())
      modifies this
      ensures (Abs(), outcome) == Encrypt(old(Abs()), plain, newKey)
    {
      var failure := EnsureChain(newKey);
      if failure.Some? {
        return Err(failure.value);
      }
      var env := Envelope(EnvRatchet, Pub(sendingDH.value), previousCounter, sendingCounter, NoHeader, ForeignBody(0), None);
      if profile.isInitiator && !initSent {
        env := env.(typ := EnvInit,
                    intro := Some(Introduction(profile.selfDH, profile.selfSig, SelfCert(profile), profile.selfID, profile.opkID)),
                    header := HeaderBox(rootKey, INIT_TAG, profile.spkID));
        initSent := true;
      }
      var messageKey := MessageKey(sendingChain.value);
      sendingChain := Some(NextChain(sendingChain.value));
      env := env.(body := Sealed(ExpandMessageKey(messageKey), env.ratchetPub, env.header, plain));
      sendingCounter := Inc32(sendingCounter);
      return Ok(env);
    }

    // The loop shared by a ratchet step and an out-of-order open.
    method Skip(pn: U32, target: U32) returns (ok: bool)
      requires recvChain.Some?
      modifies this
      ensures (Abs().inbound, ok) == SkipTo(old(Abs().inbound), pn, target, profile.maxSkip)
      ensures Abs() == old(Abs()).(inbound := Abs().inbound)
      ensures recvChain.Some?
    {
      while receivingCounter < target
        invariant recvChain.Some?
        invariant SkipTo(Abs().inbound, pn, target, profile.maxSkip) == SkipTo(old(Abs().inbound), pn, target, profile.maxSkip)
        invariant Abs() == old(Abs()).(inbound := Abs().inbound)
        decreases target - receivingCounter
      {
        if |skipped| >= profile.maxSkip {
          return false;
        }
        var mk := MessageKey(recvChain.value);
        skipped := skipped[ChainIndex(recvPub, pn, receivingCounter) := mk];
        recvChain := Some(NextChain(recvChain.value));
        receivingCounter := Inc32(receivingCounter);
      }
      return true;
    }

    method Step(pub: PubKey, pn: U32) returns (failure: Option<Error>)
      modifies this
      ensures (Abs(), failure) == RecvRatchetStep(old(Abs()), pub, pn)
    {
      if recvChain.Some? {
        var ok := Skip(previousCounter, pn);
        if !ok {
          return Some(BufferExhausted);
        }
      }
      if sendingChain.Some? {
        retiredSendCount := sendingCounter;
      }
      sendingChain := None;
      if sendingDH.None? {
        return Some(NoSendingIdentity);
      }
      var out := DH(sendingDH.value, pub);
      if out.None? {
        return Some(BadKey);
      }
      rootKey, recvChain := NextRoot(rootKey, out.value), Some(NewChain(rootKey, out.value));
      receivingCounter := 0;
      recvPub := pub;
      haveRecvPub := true;
      return None;
    }

    method OpenCurrent(env: Envelope) returns (outcome: Result<Bytes, Error>)
      requires recvChain.Some? && recvPub == env.ratchetPub
      modifies this
      ensures (Abs(), outcome) == OpenMessage(old(Abs()), env)
    {
      var idx := IndexOf(env);
      if idx in skipped {
        var key := skipped[idx];
        skipped := skipped - {idx};
        return OpenWithKey(key, env);
      }
      if env.counter < receivingCounter {
        return Err(TooOld);
      }
      var ok := Skip(env.prevCount, env.counter);
      if !ok {
        return Err(BufferExhausted);
      }
      var mk := MessageKey(recvChain.value);
      recvChain := Some(NextChain(recvChain.value));
      receivingCounter := Inc32(receivingCounter);
      return OpenWithKey(mk, env);
    }

    method Open(env: Envelope) returns (outcome: Result<Bytes, Error>)
      modifies this
      ensures (Abs(), outcome) == Decrypt(old(Abs()), env)
    {
      if recvChain.None? || env.ratchetPub != recvPub {
        var failure := Step(env.ratchetPub, env.prevCount);
        if failure.Some? {
          return Err(failure.value);
        }
      }
      outcome := OpenCurrent(env);
    }
  }

  // AliceSession as a constructor of the object.
  method StartSession(bundle: X3DH.PreKeyBundle, identity: X3DH.Identity, info: string,
                      newKey: Option<nat>, pickKey: Option<U32>, pickID: Option<U32>)
    returns (r: Result<Session, Error>)
    requires X3DH.MayPick(bundle.oneTime, pickKey) && X3DH.MayPick(bundle.oneTime, pickID)
    ensures var spec := AliceSession(bundle, identity, info, newKey, pickKey, pickID);
            if spec.Err? then r == Err(spec.error) else r.Ok? && fresh(r.value) && r.value.Abs() == spec.value
  {
    if !X3DH.VerifyBundle(bundle) {
      return Err(BundleInvalid);
    }
    if newKey.None? {
      return Err(RandomFailed);
    }
    var secrets := X3DH.Initiator(identity.dh, newKey.value, bundle, info, pickKey);
    if secrets.Err? {
      return Err(BadKey);
    }
    var opkID := if pickID.Some? then pickID.value else 0;
    var s := new Session(State(
      secrets.value.0,
      Outbound(Some(secrets.value.1), newKey, 0, 0, 0, false),
      Inbound(None, ZERO_PUB, false, 0, map[]),
      Profile(true, Pub(identity.dh), identity.sign, identity.regID, Some(identity.sign), bundle.identityPub,
              bundle.identitySigPub, bundle.regID, opkID, bundle.spkID, info, MAX_SKIPPED_MESSAGE_KEYS)));
    return Ok(s);
  }

  // BobSession: the object exists once its first message has opened.
  method AcceptSession(keys: BobKeys, env: Envelope, info: string) returns (r: Result<(Session, Bytes), Error>)
    ensures var spec := BobSession(keys, env, info);
            if spec.Err? then r == Err(spec.error)
            else r.Ok? && fresh(r.value.0) && (r.value.0.Abs(), r.value.1) == spec.value
  {
    if env.typ != EnvInit {
      return Err(NotInit);
    }
    if env.intro.None? {
      return Err(BadKey);
    }
    var intro := env.intro.value;
    if intro.identityCert != SignedIdentity(intro.identitySigPub, intro.identityPub) {
      return Err(BadCertificate);
    }
    var secrets := X3DH.Recipient(keys.identity.dh, keys.signedPreKey, intro.identityPub, env.ratchetPub, keys.oneTimeKey, info);
    if secrets.Err? {
      return Err(BadKey);
    }
    var s := new Session(BobInitialState(keys, env, info, secrets.value.0, secrets.value.1));
    if !env.header.HeaderBox? || env.header.key != s.rootKey {
      return Err(DecryptFailed);
    }
    if env.header.tag != INIT_TAG {
      return Err(BadHeaderTag);
    }
    if env.header.spkID != keys.signedPreID {
      return Err(SpkMismatch);
    }
    var outcome := s.OpenCurrent(env);
    if outcome.Err? {
      return Err(outcome.error);
    }
    return Ok((s, outcome.value));
  }
}
