// Saving a session and loading it again.
module RatchetRestore {
  import opened Common
  import opened Symbolic
  import opened Ratchet
  import opened RatchetReplay

  // One buffered key as the saved record lists it.
  datatype SavedKey = SavedKey(idx: ChainIndex, key: Term)

  // The saved record. A `None` chain or seed is a key omitted from the record;
  // the identity signer is not saved.
  datatype Saved = Saved(
    version: int, rootKey: Term, sendChain: Option<Term>, recvChain: Option<Term>, sendSeed: Option<nat>,
    recvPub: PubKey, havePub: bool, initSent: bool, isInitiator: bool,
    sendCounter: U32, recvCounter: U32, prevCounter: U32, retiredCount: U32,
    peerIdentity: PubKey, peerSig: nat, peerRegID: U32, opkID: U32, spkID: U32, initInfo: string,
    selfDH: PubKey, selfSig: nat, selfRegID: U32, skipped: seq<SavedKey>)

  // The record of a state, with its buffered keys listed as given.
  function Record(s: State, skipped: seq<SavedKey>): Saved {
    Saved(1, s.rootKey, s.outbound.chain, s.inbound.chain, s.outbound.dh,
          s.inbound.pub, s.inbound.havePub, s.outbound.initSent, s.profile.isInitiator,
          s.outbound.counter, s.inbound.counter, s.outbound.previousCounter, s.outbound.retiredCount,
          s.profile.peerIdentityPub, s.profile.peerSigPub, s.profile.peerRegID, s.profile.opkID, s.profile.spkID,
          s.profile.initInfo, s.profile.selfDH, s.profile.selfSig, s.profile.selfID, skipped)
  }

  // The list is some enumeration of the buffer: ranging over a map gives its
  // entries once each, in an order that is not determined.
  ghost predicate Enumerates(list: seq<SavedKey>, m: map<ChainIndex, Term>) {
    && (forall i, j :: 0 <= i < j < |list| ==> list[i].idx != list[j].idx)
    && (forall i :: 0 <= i < |list| ==> list[i].idx in m && m[list[i].idx] == list[i].key)
    && (forall idx :: idx in m ==> exists i :: 0 <= i < |list| && list[i].idx == idx)
  }

  // The buffer a list loads into; a later entry replaces an earlier one.
  function Load(list: seq<SavedKey>): map<ChainIndex, Term> {
    if list == [] then map[]
    else Load(list[..|list| - 1])[list[|list| - 1].idx := list[|list| - 1].key]
  }

  function Restore(p: Saved): Result<State, Error> {
    if p.version != 1 then Err(BadVersion)
    else
      Ok(State(p.rootKey,
               Outbound(p.sendChain, p.sendSeed, p.sendCounter, p.prevCounter, p.retiredCount, p.initSent),
               Inbound(p.recvChain, p.recvPub, p.havePub, p.recvCounter, Load(p.skipped)),
               Profile(p.isInitiator, p.selfDH, p.selfSig, p.selfRegID, None, p.peerIdentity, p.peerSig, p.peerRegID,
                       p.opkID, p.spkID, p.initInfo, MAX_SKIPPED_MESSAGE_KEYS)))
  }

  lemma {:induction false} LoadListed(list: seq<SavedKey>, idx: ChainIndex)
    requires forall i, j :: 0 <= i < j < |list| ==> list[i].idx != list[j].idx
    ensures idx in Load(list) <==> exists i :: 0 <= i < |list| && list[i].idx == idx
    ensures forall i :: 0 <= i < |list| && list[i].idx == idx ==> Load(list)[idx] == list[i].key
  {
    if list != [] {
      var n := |list| - 1;
      LoadListed(list[..n], idx);
      forall i | 0 <= i < |list| && list[i].idx == idx
        ensures idx in Load(list) && Load(list)[idx] == list[i].key
      {
        if i < n {
          assert list[..n][i] == list[i];
        }
      }
      if idx in Load(list) && idx != list[n].idx {
        var i :| 0 <= i < n && list[..n][i].idx == idx;
        assert list[i].idx == idx;
      }
    }
  }

  // Whatever the order, the list loads back into the buffer it came from.
  lemma LoadInvertsEnumeration(list: seq<SavedKey>, m: map<ChainIndex, Term>)
    requires Enumerates(list, m)
    ensures Load(list) == m
  {
    forall idx
      ensures idx in Load(list) <==> idx in m
      ensures idx in m ==> Load(list)[idx] == m[idx]
    {
      LoadListed(list, idx);
    }
  }

  // Saving and loading gives the same session without its signer.
  lemma RestoreOfRecord(s: State, list: seq<SavedKey>)
    requires Enumerates(list, s.inbound.skipped) && s.profile.maxSkip == MAX_SKIPPED_MESSAGE_KEYS
    ensures Restore(Record(s, list)) == Ok(s.(profile := s.profile.(signer := None)))
  {
    LoadInvertsEnumeration(list, s.inbound.skipped);
  }

  // ---------------------------------------------------------------------
  // Indistinguishability

  function Replies(s: State, calls: seq<Call>): seq<Reply>
    requires WellFormed(s)
    decreases |calls|
  {
    if calls == [] then []
    else
      ApplyKeepsWellFormed(s, calls[0]);
      [Apply(s, calls[0]).1] + Replies(Apply(s, calls[0]).0, calls[1..])
  }

  function WithoutSigner(s: State): State {
    s.(profile := s.profile.(signer := None))
  }

  // The signer is no longer needed.
  predicate SignerUnused(s: State) {
    !SendsInit(s) || s.profile.signer.None?
  }

  lemma ApplyWithoutSigner(s: State, c: Call)
    requires WellFormed(s) && SignerUnused(s)
    ensures Apply(WithoutSigner(s), c) == (WithoutSigner(Apply(s, c).0), Apply(s, c).1)
    ensures SignerUnused(Apply(s, c).0)
  {
    match c
    case Encrypts(plain, newKey) => EncryptWithoutSigner(s, plain, newKey);
    case Decrypts(env) =>
      hide Decrypt;
      DecryptWithoutSigner(s, env);
  }

  lemma EncryptWithoutSigner(s: State, plain: Bytes, newKey: Option<nat>)
    requires WellFormed(s) && SignerUnused(s)
    ensures Encrypt(WithoutSigner(s), plain, newKey)
            == (WithoutSigner(Encrypt(s, plain, newKey).0), Encrypt(s, plain, newKey).1)
    ensures SignerUnused(Encrypt(s, plain, newKey).0)
  {
  }

  lemma DecryptWithoutSigner(s: State, env: Envelope)
    requires SignerUnused(s)
    ensures Decrypt(WithoutSigner(s), env) == (WithoutSigner(Decrypt(s, env).0), Decrypt(s, env).1)
    ensures SignerUnused(Decrypt(s, env).0)
  {
    hide OpenInbound, SkipTo, PutAway;
    assert PutAway(WithoutSigner(s), env.prevCount) == PutAway(s, env.prevCount) by { PutAwayWithoutSigner(s, env.prevCount); }
  }

  lemma PutAwayWithoutSigner(s: State, pn: U32)
    ensures PutAway(WithoutSigner(s), pn) == PutAway(s, pn)
  {
    hide SkipTo;
  }

  lemma {:induction false} RepliesWithoutSigner(s: State, calls: seq<Call>)
    requires WellFormed(s) && SignerUnused(s)
    ensures Replies(WithoutSigner(s), calls) == Replies(s, calls)
    decreases |calls|
  {
    if calls != [] {
      ApplyKeepsWellFormed(s, calls[0]);
      ApplyWithoutSigner(s, calls[0]);
      RepliesWithoutSigner(Apply(s, calls[0]).0, calls[1..]);
    }
  }

  // No sequence of calls tells the two sessions apart.
  ghost predicate Indistinguishable(s: State, t: State)
    requires WellFormed(s) && WellFormed(t)
  {
    forall calls :: Replies(s, calls) == Replies(t, calls)
  }

  // What every session keeps from its creation on.
  ghost predicate Sound(s: State) {
    WellFormed(s) && s.profile.maxSkip == MAX_SKIPPED_MESSAGE_KEYS && (s.profile.isInitiator ==> s.outbound.dh.Some?)
  }

  lemma CreatedSound(s: State)
    requires Created(s)
    ensures Sound(s)
  {
    CreatedBounded(s);
  }

  lemma ApplySound(s: State, c: Call)
    requires Sound(s)
    ensures Sound(Apply(s, c).0)
  {
    hide SkipTo;
  }

  lemma {:induction false} AfterSound(s: State, calls: seq<Call>)
    requires Sound(s)
    ensures Sound(After(s, calls))
    decreases |calls|
  {
    if calls != [] {
      hide Apply;
      ApplyKeepsWellFormed(s, calls[0]);
      ApplySound(s, calls[0]);
      AfterSound(Apply(s, calls[0]).0, calls[1..]);
    }
  }

  lemma RepliesUnfold(s: State, calls: seq<Call>)
    requires WellFormed(s) && calls != []
    ensures WellFormed(Apply(s, calls[0]).0)
    ensures Replies(s, calls) == [Apply(s, calls[0]).1] + Replies(Apply(s, calls[0]).0, calls[1..])
  {
    ApplyKeepsWellFormed(s, calls[0]);
  }

  // A session that still has to introduce itself, and can send, shows in its
  // next envelope whether it has its signer.
  lemma IntroductionShows(s: State, key: nat)
    requires WellFormed(s) && !SignerUnused(s) && EnsureSendingChain(s, Some(key)).Ok?
    ensures Apply(WithoutSigner(s), Encrypts([], Some(key))).1 != Apply(s, Encrypts([], Some(key))).1
  {
    var left, right := Encrypt(WithoutSigner(s), [], Some(key)).1, Encrypt(s, [], Some(key)).1;
    assert left.value.intro.value.identityCert == NoSignature != right.value.intro.value.identityCert;
  }

  // Any envelope with a new key, well made or not, gives such a session a peer
  // key to send to.
  lemma AnyKeyOpensTheWay(s: State, x: nat)
    requires Sound(s) && !SignerUnused(s) && s.inbound.pub != Pub(x)
    ensures var c := Decrypts(Envelope(EnvRatchet, Pub(x), 0, 0, NoHeader, ForeignBody(0), None));
            var t := Apply(s, c).0;
            && WellFormed(t) && !SignerUnused(t) && EnsureSendingChain(t, Some(0)).Ok?
            && Apply(WithoutSigner(s), c).0 == WithoutSigner(t)
  {
  }

  // So it cannot do without its signer.
  lemma IntroductionDiffers(s: State)
    requires Sound(s) && !SignerUnused(s)
    ensures !Indistinguishable(WithoutSigner(s), s)
  {
    var sends := Encrypts([], Some(0));
    if s.outbound.chain.Some? {
      IntroductionShows(s, 0);
      hide Apply;
      RepliesUnfold(s, [sends]);
      RepliesUnfold(WithoutSigner(s), [sends]);
      assert Replies(WithoutSigner(s), [sends])[0] != Replies(s, [sends])[0];
    } else {
      var x := if s.inbound.pub == Pub(0) then 1 else 0;
      var takes := Decrypts(Envelope(EnvRatchet, Pub(x), 0, 0, NoHeader, ForeignBody(0), None));
      AnyKeyOpensTheWay(s, x);
      hide Apply;
      var t := Apply(s, takes).0;
      IntroductionShows(t, 0);
      var calls := [takes, sends];
      assert calls[1..] == [sends];
      RepliesUnfold(s, calls);
      RepliesUnfold(WithoutSigner(s), calls);
      RepliesUnfold(t, [sends]);
      RepliesUnfold(WithoutSigner(t), [sends]);
      assert Replies(WithoutSigner(s), calls)[1] != Replies(s, calls)[1];
    }
  }

  lemma RecordIsInvisible(s: State, list: seq<SavedKey>)
    requires Sound(s) && Enumerates(list, s.inbound.skipped)
    ensures Restore(Record(s, list)).Ok? && WellFormed(Restore(Record(s, list)).value)
    ensures Indistinguishable(Restore(Record(s, list)).value, s) <==> SignerUnused(s)
  {
    RestoreOfRecord(s, list);
    assert Restore(Record(s, list)).value == WithoutSigner(s);
    if SignerUnused(s) {
      forall calls
        ensures Replies(WithoutSigner(s), calls) == Replies(s, calls)
      {
        RepliesWithoutSigner(s, calls);
      }
    } else {
      IntroductionDiffers(s);
    }
  }

  // In every state a session can reach, saving and loading it, with the buffer
  // listed in any order, gives a session that returns the same envelopes,
  // plaintexts and errors on every later sequence of calls with the same new
  // keys, if and only if it does not still owe its signed introduction.
  lemma RestoreIsInvisible(created: State, calls: seq<Call>, list: seq<SavedKey>)
    requires Created(created) && WellFormed(created)
    requires Enumerates(list, After(created, calls).inbound.skipped)
    ensures var s := After(created, calls);
            && Restore(Record(s, list)).Ok? && WellFormed(s) && WellFormed(Restore(Record(s, list)).value)
            && (Indistinguishable(Restore(Record(s, list)).value, s) <==> SignerUnused(s))
  {
    CreatedSound(created);
    AfterSound(created, calls);
    hide Created, After, Indistinguishable;
    RecordIsInvisible(After(created, calls), list);
  }

  // ---------------------------------------------------------------------
  // The two operations on the session object

  method MarshalState(r: Session) returns (p: Saved)
    ensures exists list :: Enumerates(list, r.skipped) && p == Record(r.Abs(), list)
  {
    hide Enumerates;
    var list := ListSkipped(r.skipped);
    p := Record(r.Abs(), list);
  }

  method ListSkipped(skipped: map<ChainIndex, Term>) returns (list: seq<SavedKey>)
    ensures Enumerates(list, skipped)
  {
    list := [];
    ghost var done: map<ChainIndex, Term> := map[];
    var rest := skipped.Keys;
    assert Enumerates(list, done);
    hide Enumerates;
    while rest != {}
      invariant rest <= skipped.Keys && done == skipped - rest
      invariant Enumerates(list, done)
      decreases rest
    {
      var idx :| idx in rest;
      EnumeratesMore(list, done, idx, skipped[idx], done[idx := skipped[idx]]);
      list := list + [SavedKey(idx, skipped[idx])];
      rest := rest - {idx};
      done := done[idx := skipped[idx]];
    }
    assert done == skipped;
  }

  lemma EnumeratesMore(list: seq<SavedKey>, m: map<ChainIndex, Term>, idx: ChainIndex, key: Term, m': map<ChainIndex, Term>)
    requires Enumerates(list, m) && idx !in m && m' == m[idx := key]
    ensures Enumerates(list + [SavedKey(idx, key)], m')
  {
    var more := list + [SavedKey(idx, key)];
    forall k | k in m'
      ensures exists i :: 0 <= i < |more| && more[i].idx == k
    {
      if k == idx {
        assert more[|list|].idx == k;
      } else {
        var i :| 0 <= i < |list| && list[i].idx == k;
        assert more[i].idx == k;
      }
    }
  }

  method RestoreRatchet(p: Saved) returns (r: Result<Session, Error>)
    ensures match Restore(p)
            case Err(e) => r == Err(e)
            case Ok(s) => r.Ok? && r.value.Abs() == s
  {
    if p.version != 1 {
      return Err(BadVersion);
    }
    var skipped: map<ChainIndex, Term> := map[];
    for i := 0 to |p.skipped|
      invariant skipped == Load(p.skipped[..i])
    {
      assert p.skipped[..i + 1][..i] == p.skipped[..i];
      skipped := skipped[p.skipped[i].idx := p.skipped[i].key];
    }
    assert p.skipped[..|p.skipped|] == p.skipped;
    var profile := Profile(p.isInitiator, p.selfDH, p.selfSig, p.selfRegID, None, p.peerIdentity, p.peerSig,
                           p.peerRegID, p.opkID, p.spkID, p.initInfo, MAX_SKIPPED_MESSAGE_KEYS);
    var s := new Session(State(p.rootKey,
      Outbound(p.sendChain, p.sendSeed, p.sendCounter, p.prevCounter, p.retiredCount, p.initSent),
      Inbound(p.recvChain, p.recvPub, p.havePub, p.recvCounter, skipped), profile));
    return Ok(s);
  }
}
