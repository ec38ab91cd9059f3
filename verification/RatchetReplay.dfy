// One session facing arbitrary envelopes: the buffer bound, and how a replay on
// a chain that is still current is refused.
module RatchetReplay {
  import opened Common
  import opened Symbolic
  import opened Ratchet
  import opened Chains
  import X3DH

  // The calls a session can receive; any envelope, honest or not.
  datatype Call = Encrypts(plain: Bytes, newKey: Option<nat>) | Decrypts(env: Envelope)

  datatype Reply = Emitted(sent: Result<Envelope, Error>) | Opened(got: Result<Bytes, Error>)

  function Apply(s: State, c: Call): (State, Reply)
    requires WellFormed(s)
  {
    match c
    case Encrypts(plain, newKey) =>
      var (t, r) := Encrypt(s, plain, newKey);
      (t, Emitted(r))
    case Decrypts(env) =>
      var (t, r) := Decrypt(s, env);
      (t, Opened(r))
  }

  lemma ApplyKeepsWellFormed(s: State, c: Call)
    requires WellFormed(s)
    ensures WellFormed(Apply(s, c).0)
  {
  }

  function After(s: State, calls: seq<Call>): State
    requires WellFormed(s)
    decreases |calls|
  {
    if calls == [] then s
    else
      ApplyKeepsWellFormed(s, calls[0]);
      After(Apply(s, calls[0]).0, calls[1..])
  }

  // ---------------------------------------------------------------------
  // The buffer never exceeds its bound

  lemma {:induction false} SkipToBounded(s: Inbound, pn: U32, target: U32, maxSkip: nat)
    requires s.chain.Some? && |s.skipped| <= maxSkip
    ensures |SkipTo(s, pn, target, maxSkip).0.skipped| <= maxSkip
    decreases target - s.counter
  {
    if s.counter < target && |s.skipped| < maxSkip {
      var one := SkipOne(s, pn);
      assert one.skipped.Keys == s.skipped.Keys + {ChainIndex(s.pub, pn, s.counter)};
      SkipToBounded(one, pn, target, maxSkip);
    }
  }

  ghost predicate Bounded(s: State) {
    |s.inbound.skipped| <= s.profile.maxSkip == MAX_SKIPPED_MESSAGE_KEYS
  }

  lemma OpenBounded(s: Inbound, env: Envelope, maxSkip: nat)
    requires s.chain.Some? && s.pub == env.ratchetPub && |s.skipped| <= maxSkip
    ensures |OpenInbound(s, env, maxSkip).0.skipped| <= maxSkip
  {
    SkipToBounded(s, env.prevCount, env.counter, maxSkip);
    SubsetSize((s.skipped - {IndexOf(env)}).Keys, s.skipped.Keys);
  }

  lemma ApplyBounded(s: State, c: Call)
    requires WellFormed(s) && Bounded(s)
    ensures Bounded(Apply(s, c).0)
  {
    if c.Decrypts? {
      if s.inbound.chain.Some? {
        SkipToBounded(s.inbound, s.outbound.previousCounter, c.env.prevCount, s.profile.maxSkip);
      }
      var (t, failure) := RecvRatchetStep(s, c.env.ratchetPub, c.env.prevCount);
      if !NeedsStep(s, c.env) {
        OpenBounded(s.inbound, c.env, s.profile.maxSkip);
      } else if failure.None? {
        OpenBounded(t.inbound, c.env, s.profile.maxSkip);
      }
    }
  }

  // A session as its constructors make it.
  ghost predicate Created(s: State) {
    || (exists bundle: X3DH.PreKeyBundle, identity, info, newKey, pickKey, pickID ::
         && X3DH.MayPick(bundle.oneTime, pickKey) && X3DH.MayPick(bundle.oneTime, pickID)
         && AliceSession(bundle, identity, info, newKey, pickKey, pickID) == Ok(s))
    || (exists keys, env, info, plain :: BobSession(keys, env, info) == Ok((s, plain)))
  }

  lemma CreatedBounded(s: State)
    requires Created(s)
    ensures WellFormed(s) && Bounded(s)
  {
    if keys, env, info, plain :| BobSession(keys, env, info) == Ok((s, plain)) {
      var root, chain := X3DH.Recipient(keys.identity.dh, keys.signedPreKey, env.intro.value.identityPub,
                                        env.ratchetPub, keys.oneTimeKey, info).value.0,
                         X3DH.Recipient(keys.identity.dh, keys.signedPreKey, env.intro.value.identityPub,
                                        env.ratchetPub, keys.oneTimeKey, info).value.1;
      OpenBounded(BobInitialState(keys, env, info, root, chain).inbound, env, MAX_SKIPPED_MESSAGE_KEYS);
    }
  }

  // In every state a session can reach, whatever it is fed and whether or not
  // the calls failed, at most 1000 skipped keys are held.
  lemma BufferNeverOverflows(s: State, calls: seq<Call>)
    requires Created(s)
    ensures WellFormed(s)
    ensures |After(s, calls).inbound.skipped| <= 1000
  {
    CreatedBounded(s);
    StaysBounded(s, calls);
  }

  lemma {:induction false} StaysBounded(s: State, calls: seq<Call>)
    requires WellFormed(s) && Bounded(s)
    ensures Bounded(After(s, calls))
    decreases |calls|
  {
    if calls != [] {
      ApplyKeepsWellFormed(s, calls[0]);
      ApplyBounded(s, calls[0]);
      StaysBounded(Apply(s, calls[0]).0, calls[1..]);
    }
  }

  // ---------------------------------------------------------------------
  // Replays on a chain that is still current

  predicate Current(s: Inbound, pub: PubKey) {
    s.chain.Some? && s.pub == pub
  }

  // Every key buffered under `pub` is for a position the receiver has passed
  // on the current chain; in particular none is buffered under a key that is
  // not current.
  ghost predicate Clean(s: Inbound, pub: PubKey) {
    forall idx :: idx in s.skipped && idx.ratchet == pub ==> Current(s, pub) && idx.n < s.counter
  }

  // The envelope's position is behind the receiver and its key is gone.
  ghost predicate Spent(s: Inbound, env: Envelope) {
    && Current(s, env.ratchetPub)
    && Clean(s, env.ratchetPub)
    && env.counter < s.counter
    && IndexOf(env) !in s.skipped
  }

  // Skipping keeps both: it buffers only positions it passes.
  lemma {:induction false} SkipToKeeps(s: Inbound, pn: U32, target: U32, maxSkip: nat, env: Envelope)
    requires Current(s, env.ratchetPub) && Clean(s, env.ratchetPub)
    ensures var t := SkipTo(s, pn, target, maxSkip).0;
            && Current(t, env.ratchetPub) && Clean(t, env.ratchetPub)
            && s.counter <= t.counter
            && (s.counter <= target ==> t.counter <= target)
            && (SkipTo(s, pn, target, maxSkip).1 ==> target <= t.counter)
            && (IndexOf(env) !in s.skipped && (env.counter < s.counter || env.counter >= target) ==> IndexOf(env) !in t.skipped)
    decreases target - s.counter
  {
    if s.counter < target && |s.skipped| < maxSkip {
      SkipToKeeps(SkipOne(s, pn), pn, target, maxSkip, env);
    }
  }

  // Opening an envelope of the current chain spends it.
  lemma OpeningSpends(s: Inbound, env: Envelope, maxSkip: nat)
    requires Current(s, env.ratchetPub) && Clean(s, env.ratchetPub) && env.counter < U32_LIMIT - 1
    ensures OpenInbound(s, env, maxSkip).1.Ok? ==> Spent(OpenInbound(s, env, maxSkip).0, env)
  {
    SkipToKeeps(s, env.prevCount, env.counter, maxSkip, env);
  }

  lemma AcceptanceSpends(s: State, env: Envelope)
    requires Clean(s.inbound, env.ratchetPub) && env.counter < U32_LIMIT - 1
    requires Decrypt(s, env).1.Ok?
    ensures Spent(Decrypt(s, env).0.inbound, env)
  {
    if NeedsStep(s, env) {
      var (t, failure) := RecvRatchetStep(s, env.ratchetPub, env.prevCount);
      PutAwayElsewhere(s, env.prevCount, env.ratchetPub);
      OpeningSpends(t.inbound, env, s.profile.maxSkip);
    } else {
      OpeningSpends(s.inbound, env, s.profile.maxSkip);
    }
  }

  // Leaving a chain buffers nothing under the key that comes next.
  lemma PutAwayElsewhere(s: State, pn: U32, pub: PubKey)
    requires !Current(s.inbound, pub) && Clean(s.inbound, pub)
    ensures forall idx :: idx in PutAway(s, pn).0.skipped ==> idx.ratchet != pub
  {
    if s.inbound.chain.Some? {
      SkipToElsewhere(s.inbound, s.outbound.previousCounter, pn, s.profile.maxSkip, pub);
    }
  }

  lemma {:induction false} SkipToElsewhere(s: Inbound, pn: U32, target: U32, maxSkip: nat, pub: PubKey)
    requires s.chain.Some? && s.pub != pub && forall idx :: idx in s.skipped ==> idx.ratchet != pub
    ensures forall idx :: idx in SkipTo(s, pn, target, maxSkip).0.skipped ==> idx.ratchet != pub
    decreases target - s.counter
  {
    if s.counter < target && |s.skipped| < maxSkip {
      SkipToElsewhere(SkipOne(s, pn), pn, target, maxSkip, pub);
    }
  }

  // Opening anything else on the same chain leaves a spent envelope spent.
  lemma OpeningKeepsSpent(s: Inbound, other: Envelope, maxSkip: nat, env: Envelope)
    requires Spent(s, env) && other.ratchetPub == env.ratchetPub && other.counter < U32_LIMIT - 1
    ensures Spent(OpenInbound(s, other, maxSkip).0, env)
  {
    SkipToKeeps(s, other.prevCount, other.counter, maxSkip, env);
  }

  // Calls during which `pub`, once it is the current ratchet key, stays so, and
  // whose envelopes under `pub` stay below the last counter value.
  ghost predicate NeverLeaves(s: State, calls: seq<Call>, pub: PubKey)
    requires WellFormed(s)
    decreases |calls|
  {
    calls != [] ==>
      && (calls[0].Decrypts? && calls[0].env.ratchetPub == pub ==> calls[0].env.counter < U32_LIMIT - 1)
      && WellFormed(Apply(s, calls[0]).0)
      && (Current(s.inbound, pub) ==> Current(Apply(s, calls[0]).0.inbound, pub))
      && NeverLeaves(Apply(s, calls[0]).0, calls[1..], pub)
  }

  lemma {:induction false} NeverLeavesSplits(s: State, a: seq<Call>, b: seq<Call>, pub: PubKey)
    requires WellFormed(s) && NeverLeaves(s, a + b, pub)
    ensures NeverLeaves(s, a, pub) && WellFormed(After(s, a)) && NeverLeaves(After(s, a), b, pub)
    ensures After(s, a + b) == After(After(s, a), b)
    decreases |a|
  {
    hide Apply;
    if a == [] {
      assert a + b == b;
    } else {
      assert (a + b)[1..] == a[1..] + b;
      NeverLeavesSplits(Apply(s, a[0]).0, a[1..], b, pub);
    }
  }

  lemma ApplyKeepsSpent(s: State, c: Call, env: Envelope)
    requires WellFormed(s) && Spent(s.inbound, env)
    requires c.Decrypts? && c.env.ratchetPub == env.ratchetPub ==> c.env.counter < U32_LIMIT - 1
    requires Current(Apply(s, c).0.inbound, env.ratchetPub)
    ensures Spent(Apply(s, c).0.inbound, env)
  {
    if c.Decrypts? {
      if NeedsStep(s, c.env) {
        SkipToKeeps(s.inbound, s.outbound.previousCounter, c.env.prevCount, s.profile.maxSkip, env);
        var (t, failure) := RecvRatchetStep(s, c.env.ratchetPub, c.env.prevCount);
        if failure.None? {
          SkipToKeepsChain(t.inbound, c.env.prevCount, c.env.counter, s.profile.maxSkip);
        }
      } else {
        OpeningKeepsSpent(s.inbound, c.env, s.profile.maxSkip, env);
      }
    }
  }

  lemma {:induction false} SpentIsRefused(s: State, env: Envelope, calls: seq<Call>)
    requires WellFormed(s) && Spent(s.inbound, env) && NeverLeaves(s, calls, env.ratchetPub)
    ensures Decrypt(After(s, calls), env).1 == Err(TooOld)
    decreases |calls|
  {
    if calls != [] {
      var t := Apply(s, calls[0]).0;
      assert Current(t.inbound, env.ratchetPub);
      ApplyKeepsSpent(s, calls[0], env);
      SpentIsRefused(t, env, calls[1..]);
    }
  }

  // Opening on the current chain keeps its buffer clean.
  lemma OpeningKeepsClean(s: Inbound, env: Envelope, maxSkip: nat)
    requires Current(s, env.ratchetPub) && Clean(s, env.ratchetPub) && env.counter < U32_LIMIT - 1
    ensures Clean(OpenInbound(s, env, maxSkip).0, env.ratchetPub)
  {
    SkipToKeeps(s, env.prevCount, env.counter, maxSkip, env);
  }

  // Opening on another chain leaves the buffer of `pub` empty.
  lemma OpeningElsewhere(s: Inbound, env: Envelope, maxSkip: nat, pub: PubKey)
    requires s.chain.Some? && s.pub == env.ratchetPub != pub && forall idx :: idx in s.skipped ==> idx.ratchet != pub
    ensures Clean(OpenInbound(s, env, maxSkip).0, pub)
  {
    SkipToElsewhere(s, env.prevCount, env.counter, maxSkip, pub);
  }

  lemma StepKeepsClean(s: State, env: Envelope, pub: PubKey)
    requires Clean(s.inbound, pub) && NeedsStep(s, env)
    requires env.ratchetPub == pub ==> env.counter < U32_LIMIT - 1
    requires Current(s.inbound, pub) ==> Current(Decrypt(s, env).0.inbound, pub)
    ensures Clean(Decrypt(s, env).0.inbound, pub)
  {
    var (t, failure) := RecvRatchetStep(s, env.ratchetPub, env.prevCount);
    if Current(s.inbound, pub) {
      SkipToKeeps(s.inbound, s.outbound.previousCounter, env.prevCount, s.profile.maxSkip, env.(ratchetPub := pub));
      if failure.None? {
        SkipToKeepsChain(t.inbound, env.prevCount, env.counter, s.profile.maxSkip);
      }
    } else {
      PutAwayElsewhere(s, env.prevCount, pub);
      if failure.None? && env.ratchetPub == pub {
        OpeningKeepsClean(t.inbound, env, s.profile.maxSkip);
      } else if failure.None? {
        OpeningElsewhere(t.inbound, env, s.profile.maxSkip, pub);
      }
    }
  }

  lemma ApplyKeepsClean(s: State, c: Call, pub: PubKey)
    requires WellFormed(s) && Clean(s.inbound, pub)
    requires c.Decrypts? && c.env.ratchetPub == pub ==> c.env.counter < U32_LIMIT - 1
    requires Current(s.inbound, pub) ==> Current(Apply(s, c).0.inbound, pub)
    ensures Clean(Apply(s, c).0.inbound, pub)
  {
    if c.Decrypts? {
      if NeedsStep(s, c.env) {
        StepKeepsClean(s, c.env, pub);
      } else if c.env.ratchetPub == pub {
        OpeningKeepsClean(s.inbound, c.env, s.profile.maxSkip);
      } else {
        OpeningElsewhere(s.inbound, c.env, s.profile.maxSkip, pub);
      }
    }
  }

  lemma {:induction false} AfterKeepsClean(s: State, calls: seq<Call>, pub: PubKey)
    requires WellFormed(s) && Clean(s.inbound, pub) && NeverLeaves(s, calls, pub)
    ensures Clean(After(s, calls).inbound, pub)
    decreases |calls|
  {
    hide Apply, Clean;
    if calls != [] {
      ApplyKeepsClean(s, calls[0], pub);
      AfterKeepsClean(Apply(s, calls[0]).0, calls[1..], pub);
    }
  }

  // A session starts with a clean buffer under every key.
  lemma CreatedClean(s: State, pub: PubKey)
    requires Created(s)
    ensures Clean(s.inbound, pub)
  {
    if keys, env, info, plain :| BobSession(keys, env, info) == Ok((s, plain)) {
      InitialClean(keys, env, info, pub);
    }
  }

  lemma InitialClean(keys: BobKeys, env: Envelope, info: string, pub: PubKey)
    requires BobSession(keys, env, info).Ok?
    ensures Clean(BobSession(keys, env, info).value.0.inbound, pub)
  {
    var secrets := X3DH.Recipient(keys.identity.dh, keys.signedPreKey, env.intro.value.identityPub, env.ratchetPub,
                                  keys.oneTimeKey, info).value;
    var s := BobInitialState(keys, env, info, secrets.0, secrets.1);
    SkipToSize(s.inbound, env.prevCount, env.counter, s.profile.maxSkip);
    assert env.counter <= MAX_SKIPPED_MESSAGE_KEYS;
    if pub == env.ratchetPub {
      OpeningKeepsClean(s.inbound, env, s.profile.maxSkip);
    } else {
      OpeningElsewhere(s.inbound, env, s.profile.maxSkip, pub);
    }
  }

  // In every run of a session, from its creation on, in which the ratchet key of
  // an accepted envelope is never left for another, a replay of that envelope is
  // refused as too old, whatever else the session was fed before and after.
  lemma ReplayIsTooOld(s: State, before: seq<Call>, env: Envelope, calls: seq<Call>)
    requires Created(s) && WellFormed(s)
    requires NeverLeaves(s, before + [Decrypts(env)] + calls, env.ratchetPub)
    requires Decrypt(After(s, before), env).1.Ok?
    ensures Decrypt(After(s, before + [Decrypts(env)] + calls), env).1 == Err(TooOld)
  {
    hide Created, Clean;
    CreatedClean(s, env.ratchetPub);
    NeverLeavesSplits(s, before + [Decrypts(env)], calls, env.ratchetPub);
    NeverLeavesSplits(s, before, [Decrypts(env)], env.ratchetPub);
    AfterKeepsClean(s, before, env.ratchetPub);
    var t := After(s, before);
    AcceptanceSpends(t, env);
    assert After(t, [Decrypts(env)]) == Decrypt(t, env).0;
    SpentIsRefused(Decrypt(t, env).0, env, calls);
  }

  // The envelope that created a responder's session, fed to it again.
  lemma InitReplayIsTooOld(keys: BobKeys, env: Envelope, info: string, calls: seq<Call>)
    requires BobSession(keys, env, info).Ok? && WellFormed(BobSession(keys, env, info).value.0)
    requires NeverLeaves(BobSession(keys, env, info).value.0, calls, env.ratchetPub)
    ensures Decrypt(After(BobSession(keys, env, info).value.0, calls), env).1 == Err(TooOld)
  {
    var secrets := X3DH.Recipient(keys.identity.dh, keys.signedPreKey, env.intro.value.identityPub, env.ratchetPub,
                                  keys.oneTimeKey, info).value;
    var s := BobInitialState(keys, env, info, secrets.0, secrets.1);
    SkipToSize(s.inbound, env.prevCount, env.counter, s.profile.maxSkip);
    OpeningSpends(s.inbound, env, s.profile.maxSkip);
    SpentIsRefused(BobSession(keys, env, info).value.0, env, calls);
  }
}
