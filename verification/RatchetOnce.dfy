// Single acceptance over the whole life of a session: a ciphertext that was
// accepted once is never accepted again, whatever the session is fed, however
// the counters around it are changed, and whichever ratchet keys come and go.
module RatchetOnce {
  import opened Common
  import opened Symbolic
  import opened Ratchet
  import opened Chains
  import opened RatchetReplay
  import X3DH

  // ---------------------------------------------------------------------
  // The position of a chain key: the key its chain began with, and how many
  // messages on it is.

  function Base(chain: Term): Term {
    if chain.Hmac? && chain == NextChain(chain.key) then Base(chain.key) else chain
  }

  function Place(chain: Term): nat {
    if chain.Hmac? && chain == NextChain(chain.key) then Place(chain.key) + 1 else 0
  }

  lemma NextPlace(chain: Term)
    ensures Base(NextChain(chain)) == Base(chain) && Place(NextChain(chain)) == Place(chain) + 1
  {
  }

  // A new chain begins with a key deeper than the root it comes from.
  lemma NewBase(root: Term, secret: Term)
    ensures Base(NewChain(root, secret)) == NewChain(root, secret)
    ensures Steps(NewChain(root, secret)) == Steps(NextRoot(root, secret)) == Steps(root) + 1
  {
  }

  // ---------------------------------------------------------------------
  // Keys the receiver has passed

  // The chain key was passed: it is on no chain that can still come from a root
  // of this depth, and behind the present position of the present chain.
  ghost predicate Passed(chain: Term, s: Inbound, depth: nat) {
    && Steps(Base(chain)) <= depth
    && (s.chain.Some? ==> Base(chain) != Base(s.chain.value) || Place(chain) < Place(s.chain.value))
  }

  ghost predicate Issued(key: Term, s: Inbound, depth: nat) {
    key.Hmac? && key == MessageKey(key.key) && Passed(key.key, s, depth)
  }

  // Every buffered key was passed and is buffered once.
  ghost predicate Tidy(s: Inbound, depth: nat) {
    && (s.chain.Some? ==> Steps(Base(s.chain.value)) <= depth)
    && (forall idx :: idx in s.skipped ==> Issued(s.skipped[idx], s, depth))
    && (forall i, j :: i in s.skipped && j in s.skipped && i != j ==> s.skipped[i] != s.skipped[j])
  }

  // The key was passed and is not buffered: it can never be used again.
  ghost predicate Gone(key: Term, s: Inbound, depth: nat) {
    Issued(key, s, depth) && forall idx :: idx in s.skipped ==> s.skipped[idx] != key
  }

  ghost predicate BodyGone(body: Body, s: Inbound, depth: nat) {
    && body.Sealed? && body.key.Hkdf? && |body.key.ikm| == 1
    && body.key == ExpandMessageKey(body.key.ikm[0])
    && Gone(body.key.ikm[0], s, depth)
  }

  // ---------------------------------------------------------------------
  // Moving along a chain

  // What was passed stays passed when the chain moves on by one.
  lemma IssuedMovesOn(key: Term, s: Inbound, t: Inbound, depth: nat)
    requires s.chain.Some? && t.chain == Some(NextChain(s.chain.value)) && Issued(key, s, depth)
    ensures Issued(key, t, depth) && key != MessageKey(s.chain.value)
  {
    NextPlace(s.chain.value);
  }

  lemma HeadIssued(s: Inbound, t: Inbound, depth: nat)
    requires s.chain.Some? && t.chain == Some(NextChain(s.chain.value)) && Steps(Base(s.chain.value)) <= depth
    ensures Issued(MessageKey(s.chain.value), t, depth) && Steps(Base(t.chain.value)) <= depth
  {
    NextPlace(s.chain.value);
  }

  lemma SkipOneTidy(s: Inbound, pn: U32, depth: nat, key: Term)
    requires s.chain.Some? && Tidy(s, depth)
    ensures Tidy(SkipOne(s, pn), depth)
    ensures Gone(key, s, depth) ==> Gone(key, SkipOne(s, pn), depth)
  {
    var t := SkipOne(s, pn);
    HeadIssued(s, t, depth);
    forall idx | idx in s.skipped
      ensures Issued(s.skipped[idx], t, depth) && s.skipped[idx] != MessageKey(s.chain.value)
    {
      IssuedMovesOn(s.skipped[idx], s, t, depth);
    }
    if Gone(key, s, depth) {
      IssuedMovesOn(key, s, t, depth);
    }
    hide Issued;
  }

  lemma {:induction false} SkipToTidy(s: Inbound, pn: U32, target: U32, maxSkip: nat, depth: nat, key: Term)
    requires s.chain.Some? && Tidy(s, depth)
    ensures SkipTo(s, pn, target, maxSkip).0.chain.Some?
    ensures Tidy(SkipTo(s, pn, target, maxSkip).0, depth)
    ensures Gone(key, s, depth) ==> Gone(key, SkipTo(s, pn, target, maxSkip).0, depth)
    decreases target - s.counter
  {
    hide Tidy, Gone;
    if s.counter < target && |s.skipped| < maxSkip {
      SkipOneTidy(s, pn, depth, key);
      SkipToTidy(SkipOne(s, pn), pn, target, maxSkip, depth, key);
    }
  }

  // Taking a key out of the buffer.
  lemma TakeTidy(s: Inbound, idx: ChainIndex, depth: nat, key: Term)
    requires Tidy(s, depth) && idx in s.skipped
    ensures var t := s.(skipped := s.skipped - {idx});
            && Tidy(t, depth) && Gone(s.skipped[idx], t, depth) && !Gone(s.skipped[idx], s, depth)
            && (Gone(key, s, depth) ==> Gone(key, t, depth))
  {
    hide Base, Place, Steps;
  }

  // Using the key at the head of the chain.
  lemma HeadTidy(s: Inbound, depth: nat, key: Term)
    requires s.chain.Some? && Tidy(s, depth)
    ensures var t := s.(chain := Some(NextChain(s.chain.value)), counter := Inc32(s.counter));
            && Tidy(t, depth) && Gone(MessageKey(s.chain.value), t, depth) && !Gone(MessageKey(s.chain.value), s, depth)
            && (Gone(key, s, depth) ==> Gone(key, t, depth))
  {
    var t := s.(chain := Some(NextChain(s.chain.value)), counter := Inc32(s.counter));
    HeadIssued(s, t, depth);
    forall idx | idx in s.skipped
      ensures Issued(s.skipped[idx], t, depth) && s.skipped[idx] != MessageKey(s.chain.value)
    {
      IssuedMovesOn(s.skipped[idx], s, t, depth);
    }
    if Gone(key, s, depth) {
      IssuedMovesOn(key, s, t, depth);
    }
    assert !Issued(MessageKey(s.chain.value), s, depth);
    hide Issued;
  }

  // A ciphertext opens with one key only.
  lemma OneKey(key: Term, env: Envelope)
    requires OpenWithKey(key, env).Ok?
    ensures env.body.Sealed? && env.body.key == ExpandMessageKey(key) && env.body.key.ikm == [key]
  {
  }

  // Opening an envelope of the present chain: what was gone stays gone, and an
  // accepted ciphertext was not gone before and is gone after.
  ghost predicate Once(s: Inbound, t: Inbound, depth: nat, depth': nat, env: Envelope, ok: bool, body: Body) {
    && Tidy(t, depth')
    && (BodyGone(body, s, depth) ==> BodyGone(body, t, depth'))
    && (ok ==> !BodyGone(env.body, s, depth) && BodyGone(env.body, t, depth'))
  }

  lemma OpenOnce(s: Inbound, env: Envelope, maxSkip: nat, depth: nat, body: Body)
    requires s.chain.Some? && s.pub == env.ratchetPub && Tidy(s, depth)
    ensures Once(s, OpenInbound(s, env, maxSkip).0, depth, depth, env, OpenInbound(s, env, maxSkip).1.Ok?, body)
  {
    var idx := IndexOf(env);
    if idx in s.skipped {
      OpenBuffered(s, env, maxSkip, depth, body);
    } else if env.counter >= s.counter {
      OpenAhead(s, env, maxSkip, depth, body);
    } else {
      assert OpenInbound(s, env, maxSkip) == (s, Err(TooOld));
    }
  }

  function KeyOf(body: Body): Term {
    if body.Sealed? && body.key.Hkdf? && |body.key.ikm| == 1 then body.key.ikm[0] else Zero32
  }

  lemma OpenBuffered(s: Inbound, env: Envelope, maxSkip: nat, depth: nat, body: Body)
    requires s.chain.Some? && s.pub == env.ratchetPub && Tidy(s, depth) && IndexOf(env) in s.skipped
    ensures Once(s, OpenInbound(s, env, maxSkip).0, depth, depth, env, OpenInbound(s, env, maxSkip).1.Ok?, body)
  {
    var idx := IndexOf(env);
    var key := s.skipped[idx];
    TakeTidy(s, idx, depth, KeyOf(body));
    if OpenWithKey(key, env).Ok? {
      OneKey(key, env);
    }
    hide Tidy, Gone, OpenWithKey;
  }

  lemma OpenAhead(s: Inbound, env: Envelope, maxSkip: nat, depth: nat, body: Body)
    requires s.chain.Some? && s.pub == env.ratchetPub && Tidy(s, depth)
    requires IndexOf(env) !in s.skipped && env.counter >= s.counter
    ensures Once(s, OpenInbound(s, env, maxSkip).0, depth, depth, env, OpenInbound(s, env, maxSkip).1.Ok?, body)
  {
    hide Tidy, Gone, SkipTo, OpenWithKey;
    SkipToTidy(s, env.prevCount, env.counter, maxSkip, depth, KeyOf(body));
    SkipToTidy(s, env.prevCount, env.counter, maxSkip, depth, KeyOf(env.body));
    var (t, reached) := SkipTo(s, env.prevCount, env.counter, maxSkip);
    if reached {
      HeadTidy(t, depth, KeyOf(body));
      if OpenWithKey(MessageKey(t.chain.value), env).Ok? {
        OneKey(MessageKey(t.chain.value), env);
      }
    }
  }

  // ---------------------------------------------------------------------
  // Whole calls

  function DepthOf(s: State): nat {
    Steps(s.rootKey)
  }

  lemma DeeperRoot(key: Term, s: Inbound, depth: nat, deeper: nat)
    requires depth <= deeper && Tidy(s, depth)
    ensures Tidy(s, deeper) && (Gone(key, s, depth) ==> Gone(key, s, deeper))
  {
    hide Base, Place;
  }

  // Moving to a new chain: nothing passed before is on it.
  lemma NewChainTidy(s: Inbound, t: Inbound, depth: nat, root: Term, secret: Term, key: Term)
    requires Tidy(s, depth) && Steps(root) == depth
    requires t.chain == Some(NewChain(root, secret)) && t.skipped == s.skipped
    ensures Tidy(t, depth + 1) && (Gone(key, s, depth) ==> Gone(key, t, depth + 1))
  {
    NewBase(root, secret);
    forall k | Issued(k, s, depth)
      ensures Issued(k, t, depth + 1)
    {
    }
    hide Issued;
  }

  lemma PutAwayTidy(s: State, pn: U32, key: Term)
    requires Tidy(s.inbound, DepthOf(s))
    ensures Tidy(PutAway(s, pn).0, DepthOf(s))
    ensures Gone(key, s.inbound, DepthOf(s)) ==> Gone(key, PutAway(s, pn).0, DepthOf(s))
  {
    hide Tidy, Gone, SkipTo;
    if s.inbound.chain.Some? {
      SkipToTidy(s.inbound, s.outbound.previousCounter, pn, s.profile.maxSkip, DepthOf(s), key);
    }
  }

  lemma StepTidy(s: State, pub: PubKey, pn: U32, key: Term)
    requires Tidy(s.inbound, DepthOf(s))
    ensures var t := RecvRatchetStep(s, pub, pn).0;
            Tidy(t.inbound, DepthOf(t)) && (Gone(key, s.inbound, DepthOf(s)) ==> Gone(key, t.inbound, DepthOf(t)))
  {
    hide Tidy, Gone, PutAway, Steps;
    PutAwayTidy(s, pn, key);
    var (inbound, ok) := PutAway(s, pn);
    if ok && s.outbound.dh.Some? && DH(s.outbound.dh.value, pub).Some? {
      var secret := DH(s.outbound.dh.value, pub).value;
      NewBase(s.rootKey, secret);
      NewChainTidy(inbound, RecvRatchetStep(s, pub, pn).0.inbound, DepthOf(s), s.rootKey, secret, key);
    }
  }

  lemma DecryptOnce(s: State, env: Envelope, body: Body)
    requires Tidy(s.inbound, DepthOf(s))
    ensures var (t, outcome) := Decrypt(s, env);
            Once(s.inbound, t.inbound, DepthOf(s), DepthOf(t), env, outcome.Ok?, body)
  {
    hide Tidy, Gone, RecvRatchetStep, OpenInbound, Steps;
    if NeedsStep(s, env) {
      StepTidy(s, env.ratchetPub, env.prevCount, KeyOf(body));
      StepTidy(s, env.ratchetPub, env.prevCount, KeyOf(env.body));
      var (t, failure) := RecvRatchetStep(s, env.ratchetPub, env.prevCount);
      if failure.None? {
        StepLeads(s, env.ratchetPub, env.prevCount);
        OpenOnce(t.inbound, env, t.profile.maxSkip, DepthOf(t), body);
      }
    } else {
      OpenOnce(s.inbound, env, s.profile.maxSkip, DepthOf(s), body);
    }
  }

  lemma StepLeads(s: State, pub: PubKey, pn: U32)
    requires RecvRatchetStep(s, pub, pn).1.None?
    ensures var t := RecvRatchetStep(s, pub, pn).0; t.inbound.chain.Some? && t.inbound.pub == pub
  {
  }

  lemma EncryptKeeps(s: State, plain: Bytes, newKey: Option<nat>, body: Body)
    requires WellFormed(s) && Tidy(s.inbound, DepthOf(s))
    ensures var t := Encrypt(s, plain, newKey).0;
            && Tidy(t.inbound, DepthOf(t))
            && (BodyGone(body, s.inbound, DepthOf(s)) ==> BodyGone(body, t.inbound, DepthOf(t)))
  {
    hide Tidy, Gone;
    DeeperRoot(KeyOf(body), s.inbound, DepthOf(s), DepthOf(Encrypt(s, plain, newKey).0));
  }

  // What one call keeps.
  lemma ApplyOnce(s: State, c: Call, body: Body)
    requires WellFormed(s) && Tidy(s.inbound, DepthOf(s))
    ensures var t := Apply(s, c).0;
            && Tidy(t.inbound, DepthOf(t))
            && (BodyGone(body, s.inbound, DepthOf(s)) ==> BodyGone(body, t.inbound, DepthOf(t)))
  {
    hide Tidy, BodyGone, Decrypt, Encrypt;
    match c
    case Encrypts(plain, newKey) => EncryptKeeps(s, plain, newKey, body);
    case Decrypts(env) => DecryptOnce(s, env, body);
  }

  lemma {:induction false} AfterOnce(s: State, calls: seq<Call>, body: Body)
    requires WellFormed(s) && Tidy(s.inbound, DepthOf(s))
    ensures var t := After(s, calls);
            && WellFormed(t) && Tidy(t.inbound, DepthOf(t))
            && (BodyGone(body, s.inbound, DepthOf(s)) ==> BodyGone(body, t.inbound, DepthOf(t)))
    decreases |calls|
  {
    hide Tidy, BodyGone, Apply;
    if calls != [] {
      ApplyKeepsWellFormed(s, calls[0]);
      ApplyOnce(s, calls[0], body);
      AfterOnce(Apply(s, calls[0]).0, calls[1..], body);
    }
  }

  // ---------------------------------------------------------------------
  // Main theorems

  // The session accepts the envelope of call i.
  ghost predicate Accepts(s: State, calls: seq<Call>, i: nat)
    requires WellFormed(s)
  {
    i < |calls| && calls[i].Decrypts? && Decrypt(After(s, calls[..i]), calls[i].env).1.Ok?
  }

  lemma {:induction false} AfterJoins(s: State, a: seq<Call>, b: seq<Call>)
    requires WellFormed(s)
    ensures WellFormed(After(s, a)) && After(s, a + b) == After(After(s, a), b)
    decreases |a|
  {
    hide Apply;
    if a == [] {
      assert a + b == b;
    } else {
      ApplyKeepsWellFormed(s, a[0]);
      assert (a + b)[1..] == a[1..] + b;
      AfterJoins(Apply(s, a[0]).0, a[1..], b);
    }
  }

  // Once gone, never accepted again.
  lemma GoneIsRefused(s: State, calls: seq<Call>, j: nat, body: Body)
    requires WellFormed(s) && Tidy(s.inbound, DepthOf(s)) && BodyGone(body, s.inbound, DepthOf(s)) && Accepts(s, calls, j)
    ensures calls[j].env.body != body
  {
    hide Tidy, BodyGone, After, Decrypt;
    AfterOnce(s, calls[..j], body);
    DecryptOnce(After(s, calls[..j]), calls[j].env, body);
  }

  // An accepted envelope's ciphertext is gone.
  lemma AcceptedIsGone(s: State, calls: seq<Call>, i: nat)
    requires WellFormed(s) && Tidy(s.inbound, DepthOf(s)) && Accepts(s, calls, i)
    ensures var t := After(s, calls[..i + 1]);
            WellFormed(t) && Tidy(t.inbound, DepthOf(t)) && BodyGone(calls[i].env.body, t.inbound, DepthOf(t))
  {
    hide Tidy, BodyGone, Decrypt;
    var body := calls[i].env.body;
    AfterOnce(s, calls[..i], body);
    var u := After(s, calls[..i]);
    DecryptOnce(u, calls[i].env, body);
    AfterJoins(s, calls[..i], [calls[i]]);
    assert calls[..i + 1] == calls[..i] + [calls[i]];
    ApplyKeepsWellFormed(u, calls[i]);
    assert After(u, [calls[i]]) == Apply(u, calls[i]).0;
  }

  lemma CreatedTidy(s: State)
    requires Created(s)
    ensures WellFormed(s) && Tidy(s.inbound, DepthOf(s))
  {
    CreatedBounded(s);
    if keys, env, info, plain :| BobSession(keys, env, info) == Ok((s, plain)) {
      InitIsGone(keys, env, info);
    }
  }

  // The responder's first envelope is gone once its session exists.
  lemma InitIsGone(keys: BobKeys, env: Envelope, info: string)
    requires BobSession(keys, env, info).Ok?
    ensures var s := BobSession(keys, env, info).value.0;
            Tidy(s.inbound, DepthOf(s)) && BodyGone(env.body, s.inbound, DepthOf(s))
  {
    var secrets := X3DH.Recipient(keys.identity.dh, keys.signedPreKey, env.intro.value.identityPub, env.ratchetPub,
                                  keys.oneTimeKey, info).value;
    var s := BobInitialState(keys, env, info, secrets.0, secrets.1);
    assert Tidy(s.inbound, DepthOf(s));
    hide Tidy, BodyGone, OpenInbound;
    OpenOnce(s.inbound, env, s.profile.maxSkip, DepthOf(s), env.body);
  }

  // In every run of a session, from its creation on and whatever it is fed, no
  // two accepted envelopes have the same ciphertext. So an accepted envelope is
  // never accepted again, with its own counters or any others, whether or not
  // its ratchet key stays current.
  lemma AcceptedOnce(s: State, calls: seq<Call>, i: nat, j: nat)
    requires Created(s) && WellFormed(s) && i < j && Accepts(s, calls, i) && Accepts(s, calls, j)
    ensures calls[i].env.body != calls[j].env.body
  {
    hide Tidy, BodyGone, Created, Decrypt, After;
    CreatedTidy(s);
    AcceptedIsGone(s, calls, i);
    var k := j - i - 1;
    AfterJoins(s, calls[..i + 1], calls[i + 1..][..k]);
    assert calls[..i + 1] + calls[i + 1..][..k] == calls[..j];
    assert calls[i + 1..][k] == calls[j];
    GoneIsRefused(After(s, calls[..i + 1]), calls[i + 1..], k, calls[i].env.body);
  }

  // The envelope that created a responder's session is never accepted by it again.
  lemma InitAcceptedOnce(keys: BobKeys, env: Envelope, info: string, calls: seq<Call>, j: nat)
    requires BobSession(keys, env, info).Ok? && WellFormed(BobSession(keys, env, info).value.0)
    requires Accepts(BobSession(keys, env, info).value.0, calls, j)
    ensures calls[j].env.body != env.body
  {
    hide Tidy, BodyGone, BobSession;
    InitIsGone(keys, env, info);
    GoneIsRefused(BobSession(keys, env, info).value.0, calls, j, env.body);
  }
}
