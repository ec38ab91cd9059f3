// The invariant of the two-party system: one history of ratchet keys that
// both parties walk along, and why sending keeps it.
module RatchetInvariant {
  import opened Common
  import opened Symbolic
  import opened Ratchet
  import opened Chains
  import opened TwoParty
  import X3DH

  // ---------------------------------------------------------------------
  // The one history both parties walk along

  // The ratchet keys in the order their chains were opened, Alice's X3DH
  // ephemeral first, with the number of messages sent on each chain.
  datatype History = History(root0: Term, chain0: Term, keys: seq<nat>, counts: seq<U32>) {
    ghost predicate Valid() {
      && |keys| == |counts| >= 1
      && forall i, j :: 0 <= i < j < |keys| ==> keys[i] != keys[j]
    }

    function Top(): int {
      |keys| - 1
    }

    function Root(k: nat): Term
      requires k < |keys|
    {
      RootAt(root0, keys, k)
    }

    function Chain(k: nat): Term
      requires k < |keys|
    {
      if k == 0 then chain0 else NewChain(RootAt(root0, keys, k - 1), Secret(keys, k))
    }

    // The count an envelope of chain k reports for its sender's previous chain.
    function PrevCount(k: nat): U32
      requires k < |counts|
    {
      if k >= 2 then counts[k - 2] else 0
    }
  }

  function Secret(keys: seq<nat>, k: nat): Term
    requires 1 <= k < |keys|
  {
    DH(keys[k], Pub(keys[k - 1])).value
  }

  function RootAt(root0: Term, keys: seq<nat>, k: nat): Term
    requires k < |keys|
  {
    if k == 0 then root0 else NextRoot(RootAt(root0, keys, k - 1), Secret(keys, k))
  }

  lemma {:induction false} RootAtExtends(root0: Term, keys: seq<nat>, key: nat, k: nat)
    requires k < |keys|
    ensures RootAt(root0, keys + [key], k) == RootAt(root0, keys, k)
  {
    if k > 0 {
      RootAtExtends(root0, keys, key, k - 1);
    }
  }

  // Chains alternate: even ones are Alice's, odd ones Bob's.
  function Owner(k: int): Party {
    if k % 2 == 0 then Alice else Bob
  }

  predicate Owns(p: Party, k: int) {
    Owner(k) == p
  }

  lemma Alternates(k: int)
    ensures Owner(k + 1) == Owner(k - 1) == Peer(Owner(k))
  {
  }

  // The place in the history of a party's c-th chain.
  function Global(p: Party, c: nat): nat {
    2 * c + if p == Alice then 0 else 1
  }

  // The place of the next chain a party will open.
  function NextOwn(p: Party, top: int): int {
    if Owns(p, top) then top + 2 else top + 1
  }

  // A party whose root is the k-th one receives on chain k, or on the chain
  // before it when chain k is its own.
  function RecvLevel(p: Party, level: int): int {
    if Owns(p, level) then level - 1 else level
  }

  // ---------------------------------------------------------------------
  // What a session holds at a given level

  ghost predicate SendPart(h: History, p: Party, o: Outbound, level: nat) {
    && h.Valid() && level < |h.keys|
    && if Owns(p, level) then
         && o.chain == Some(Advance(h.Chain(level), h.counts[level]))
         && o.counter == h.counts[level]
         && o.dh == Some(h.keys[level])
         && o.previousCounter == h.PrevCount(level)
       else
         && o.chain == None
         && o.dh == (if level >= 1 then Some(h.keys[level - 1]) else None)
         && o.retiredCount == if level >= 1 then h.counts[level - 1] else 0
  }

  ghost predicate RecvPart(h: History, s: Inbound, r: int, got: set<int>) {
    && h.Valid() && r < |h.keys|
    && |s.skipped| <= MAX_SKIPPED_MESSAGE_KEYS
    && if r < 0 then s == Inbound(None, ZERO_PUB, false, 0, map[])
       else
         && s.havePub
         && s.counter <= h.counts[r]
         && OnChain(s, h.Chain(r), Pub(h.keys[r]), h.PrevCount(r), got)
         && BuffersOnly(s, h.keys[..r + 1])
  }

  // Every buffered key belongs to one of the given ratchet keys.
  ghost predicate BuffersOnly(s: Inbound, keys: seq<nat>) {
    forall idx :: idx in s.skipped ==> idx.ratchet.Pub? && idx.ratchet.id in keys
  }

  ghost predicate ProfileInv(p: Party, profile: Profile) {
    profile.maxSkip == MAX_SKIPPED_MESSAGE_KEYS && profile.isInitiator == (p == Alice)
  }

  ghost predicate SessionInv(h: History, p: Party, s: State, level: int, got: set<int>) {
    && h.Valid()
    && 0 <= level < |h.keys|
    && s.rootKey == h.Root(level)
    && ProfileInv(p, s.profile)
    && SendPart(h, p, s.outbound, level)
    && RecvPart(h, s.inbound, RecvLevel(p, level), got)
  }

  // ---------------------------------------------------------------------
  // What is on the wire

  ghost predicate SentInv(h: History, p: Party, m: Sent) {
    var k := Global(p, m.chain);
    && h.Valid()
    && k < |h.keys|
    && m.env.ratchetPub == Pub(h.keys[k])
    && m.env.prevCount == h.PrevCount(k)
    && m.env.counter < h.counts[k]
    && SealedOn(m.env, h.Chain(k), m.plain)
  }

  ghost predicate LogInv(h: History, p: Party, sent: seq<Sent>) {
    && h.Valid()
    && (forall i :: 0 <= i < |sent| ==> SentInv(h, p, sent[i]))
    && (forall i, j :: 0 <= i < j < |sent| ==>
         sent[i].chain != sent[j].chain || sent[i].env.counter != sent[j].env.counter)
  }

  ghost predicate InitInv(c: Setup, h: History, alice: Side) {
    && h.Valid() && alice.session.Some?
    && var s := alice.session.value;
    && (s.outbound.initSent <==> |alice.sent| > 0)
    && s.profile.selfDH == Pub(c.alice.dh)
    && s.profile.selfSig == c.alice.sign
    && s.profile.signer == Some(c.alice.sign)
    && s.profile.spkID == c.bob.signedPreID
    && (|alice.sent| == 0 ==> |h.keys| == 1 && h.counts[0] == 0)
    && (|alice.sent| > 0 ==> IsIntroduction(c, h, alice.sent[0]))
  }

  ghost predicate IsIntroduction(c: Setup, h: History, m: Sent) {
    && m.chain == 0
    && m.env.typ == EnvInit
    && m.env.counter == 0
    && m.env.header == HeaderBox(h.root0, INIT_TAG, c.bob.signedPreID)
    && m.env.intro.Some?
    && m.env.intro.value.identityPub == Pub(c.alice.dh)
    && m.env.intro.value.identitySigPub == c.alice.sign
    && m.env.intro.value.identityCert == SignedIdentity(c.alice.sign, Pub(c.alice.dh))
  }

  // ---------------------------------------------------------------------
  // What has been received

  ghost predicate ReceiptOk(p: Party, theirs: seq<Sent>, recv: int, r: Receipt) {
    && r.index < |theirs|
    && Global(Peer(p), theirs[r.index].chain) <= recv
    && r.outcome == Ok(theirs[r.index].plain)
  }

  ghost predicate OnLevel(p: Party, theirs: seq<Sent>, recv: int, r: Receipt) {
    r.index < |theirs| && Global(Peer(p), theirs[r.index].chain) == recv
  }

  // Positions of chain `recv` already opened.
  ghost function Got(p: Party, received: seq<Receipt>, theirs: seq<Sent>, recv: int): set<int> {
    set i | 0 <= i < |received| && OnLevel(p, theirs, recv, received[i]) :: theirs[received[i].index].env.counter
  }

  ghost predicate ReceivedInv(p: Party, received: seq<Receipt>, theirs: seq<Sent>, recv: int) {
    && (forall i :: 0 <= i < |received| ==> ReceiptOk(p, theirs, recv, received[i]))
    && (recv >= 0 ==> exists i :: 0 <= i < |received| && OnLevel(p, theirs, recv, received[i]))
  }

  ghost predicate SideInv(h: History, p: Party, mine: Side, theirs: Side, level: int) {
    && LogInv(h, p, mine.sent)
    && Global(p, mine.chains) == NextOwn(p, h.Top())
    && if level < 0 then mine.session == None && mine.received == []
       else
         && mine.session.Some?
         && SessionInv(h, p, mine.session.value, level, Got(p, mine.received, theirs.sent, RecvLevel(p, level)))
         && ReceivedInv(p, mine.received, theirs.sent, RecvLevel(p, level))
  }

  // The owner of the newest chain is at the top of the history; the other
  // party is there too or exactly one step behind.
  ghost predicate LevelsInv(h: History, la: int, lb: int) {
    var top := h.Top();
    if Owner(top) == Alice then la == top && top - 1 <= lb <= top
    else lb == top && top - 1 <= la <= top
  }

  // The history starts where X3DH put both parties.
  ghost predicate Grounded(c: Setup, h: History) {
    && h.Valid()
    && h.keys[0] == c.ephemeral
    && X3DH.Recipient(c.bob.identity.dh, c.bob.signedPreKey, Pub(c.alice.dh), Pub(c.ephemeral),
                      c.bob.oneTimeKey, c.info) == Ok((h.root0, h.chain0))
  }

  ghost predicate SystemInv(w: System, h: History, la: int, lb: int) {
    && h.Valid()
    && Grounded(w.setup, h)
    && (forall k :: 0 <= k < |h.keys| ==> h.keys[k] in w.used)
    && LevelsInv(h, la, lb)
    && 0 <= la
    && SideInv(h, Alice, w.alice, w.bob, la)
    && SideInv(h, Bob, w.bob, w.alice, lb)
    && InitInv(w.setup, h, w.alice)
  }

  // ---------------------------------------------------------------------
  // The invariant holds initially

  lemma InitialInv(w: System) returns (h: History)
    requires IsInitial(w)
    ensures SystemInv(w, h, 0, -1)
  {
    var c := w.setup;
    X3DH.Agreement(c.alice.dh, c.ephemeral, c.bob.identity, c.bob.signedPreKey, c.bob.signedPreID, c.oneTime,
                   c.pickKey, c.bob.oneTimeKey, c.info);
    var s := w.alice.session.value;
    h := History(s.rootKey, s.outbound.chain.value, [c.ephemeral], [0]);
    assert h.Root(0) == s.rootKey;
    assert Advance(h.Chain(0), 0) == h.chain0;
  }

  // ---------------------------------------------------------------------
  // Sending on a live chain

  // One more message counted on chain k.
  function Counted(h: History, k: nat): History
    requires k < |h.counts| && h.counts[k] < U32_LIMIT - 1
  {
    h.(counts := h.counts[k := h.counts[k] + 1])
  }

  lemma CountedLog(h: History, k: nat, p: Party, sent: seq<Sent>)
    requires h.Valid() && h.Top() - 1 <= k < |h.keys| && h.counts[k] < U32_LIMIT - 1
    requires LogInv(h, p, sent)
    ensures LogInv(Counted(h, k), p, sent)
  {
  }

  // The chain's receiver notices nothing.
  lemma CountedPeer(h: History, k: nat, q: Party, s: State, level: int, got: set<int>)
    requires h.Valid() && h.Top() - 1 <= k < |h.keys| && h.counts[k] < U32_LIMIT - 1
    requires !Owns(q, k) && SessionInv(h, q, s, level, got)
    ensures SessionInv(Counted(h, k), q, s, level, got)
  {
    hide Owner, OnChain, BuffersOnly, RootAt, Secret, Advance;
    Alternates(level);
  }

  // The next envelope of the party's live chain.
  lemma LiveEnvelope(h: History, p: Party, s: State, level: nat, chains: nat, plain: Bytes, got: set<int>)
    requires h.Valid() && level < |h.keys| && h.Top() - 1 <= level && Owns(p, level)
    requires h.counts[level] < U32_LIMIT - 1
    requires SessionInv(h, p, s, level, got)
    requires Global(p, chains) == NextOwn(p, h.Top())
    ensures chains > 0 && Global(p, chains - 1) == level
    ensures s.outbound.chain.Some? && s.outbound.dh.Some?
    ensures SessionInv(Counted(h, level), p, AfterEnvelope(s), level, got)
    ensures SentInv(Counted(h, level), p, Sent(chains - 1, NextEnvelope(s, plain), plain))
    ensures NextEnvelope(s, plain).counter == h.counts[level]
  {
    hide Owner, OnChain, BuffersOnly, RootAt, Secret;
    Alternates(level);
    assert Advance(h.Chain(level), h.counts[level] + 1) == NextChain(Advance(h.Chain(level), h.counts[level]));
  }

  lemma LogGrows(h: History, p: Party, sent: seq<Sent>, m: Sent)
    requires h.Valid() && LogInv(h, p, sent) && SentInv(h, p, m)
    requires forall i :: 0 <= i < |sent| && sent[i].chain == m.chain ==> sent[i].env.counter < m.env.counter
    ensures LogInv(h, p, sent + [m])
  {
  }

  lemma NothingOnNewChain(h: History, p: Party, sent: seq<Sent>, c: nat)
    requires h.Valid() && LogInv(h, p, sent) && Global(p, c) >= |h.keys|
    ensures forall i :: 0 <= i < |sent| ==> sent[i].chain != c
  {
  }

  lemma CountersBelow(h: History, p: Party, sent: seq<Sent>, c: nat)
    requires h.Valid() && LogInv(h, p, sent) && Global(p, c) < |h.keys|
    ensures forall i :: 0 <= i < |sent| && sent[i].chain == c ==> sent[i].env.counter < h.counts[Global(p, c)]
  {
  }

  // Messages sent later do not disturb what was received before.
  lemma ReceivedGrows(q: Party, received: seq<Receipt>, theirs: seq<Sent>, m: Sent, recv: int)
    requires ReceivedInv(q, received, theirs, recv)
    ensures ReceivedInv(q, received, theirs + [m], recv)
    ensures Got(q, received, theirs + [m], recv) == Got(q, received, theirs, recv)
  {
  }

  lemma SideAfterPeerSends(h: History, h': History, q: Party, mine: Side, theirs: Side, theirs': Side, m: Sent, level: int)
    requires h.Valid() && h'.Valid() && SideInv(h, q, mine, theirs, level)
    requires theirs'.sent == theirs.sent + [m]
    requires LogInv(h', q, mine.sent)
    requires Global(q, mine.chains) == NextOwn(q, h'.Top())
    requires level >= 0 ==>
               SessionInv(h', q, mine.session.value, level, Got(q, mine.received, theirs.sent, RecvLevel(q, level)))
    ensures SideInv(h', q, mine, theirs', level)
  {
    hide SessionInv, LogInv, ReceivedInv, Got;
    if level >= 0 {
      ReceivedGrows(q, mine.received, theirs.sent, m, RecvLevel(q, level));
    }
  }

  function LevelOf(p: Party, la: int, lb: int): int {
    if p == Alice then la else lb
  }

  // A live Bob has heard from Alice.
  lemma BobHeardAlice(w: System, h: History, la: int, lb: int)
    requires SystemInv(w, h, la, lb) && w.bob.session.Some?
    ensures |w.alice.sent| > 0
  {
    assert RecvLevel(Bob, lb) >= 0;
  }

  lemma SenderAfterLiveSend(h: History, p: Party, mine: Side, theirs: Side, level: int, plain: Bytes)
    requires h.Valid() && SideInv(h, p, mine, theirs, level) && h.Top() - 1 <= level
    requires level >= 0 && mine.session.value.outbound.chain.Some?
    requires mine.session.value.outbound.counter < U32_LIMIT - 1
    ensures level < |h.keys| && h.counts[level] < U32_LIMIT - 1
    ensures WellFormed(mine.session.value)
    ensures mine.chains > 0 && Global(p, mine.chains - 1) == level && Owns(p, level)
    ensures SideInv(Counted(h, level), p,
                    mine.(session := Some(AfterEnvelope(mine.session.value)),
                          sent := mine.sent + [Sent(mine.chains - 1, NextEnvelope(mine.session.value, plain), plain)]),
                    theirs, level)
  {
    hide Owner, SessionInv, SentInv, LogInv, Got, ReceivedInv, NextEnvelope, AfterEnvelope;
    var got := Got(p, mine.received, theirs.sent, RecvLevel(p, level));
    LiveCount(h, p, mine.session.value, level, got);
    LiveEnvelope(h, p, mine.session.value, level, mine.chains, plain, got);
    CountedLog(h, level, p, mine.sent);
    CountersBelow(h, p, mine.sent, mine.chains - 1);
    LogGrows(Counted(h, level), p, mine.sent, Sent(mine.chains - 1, NextEnvelope(mine.session.value, plain), plain));
  }

  lemma LiveCount(h: History, p: Party, s: State, level: int, got: set<int>)
    requires h.Valid() && SessionInv(h, p, s, level, got) && s.outbound.chain.Some?
    ensures 0 <= level < |h.keys| && Owns(p, level) && h.counts[level] == s.outbound.counter && s.outbound.dh.Some?
  {
  }

  lemma ReceiverAfterLiveSend(h: History, k: nat, q: Party, mine: Side, theirs: Side, theirs': Side, m: Sent, level: int)
    requires h.Valid() && h.Top() - 1 <= k < |h.keys| && h.counts[k] < U32_LIMIT - 1
    requires !Owns(q, k) && SideInv(h, q, mine, theirs, level)
    requires theirs'.sent == theirs.sent + [m]
    ensures SideInv(Counted(h, k), q, mine, theirs', level)
  {
    hide Owner, SessionInv, LogInv, ReceivedInv, Got;
    CountedLog(h, k, q, mine.sent);
    if level >= 0 {
      CountedPeer(h, k, q, mine.session.value, level, Got(q, mine.received, theirs.sent, RecvLevel(q, level)));
    }
    SideAfterPeerSends(h, Counted(h, k), q, mine, theirs, theirs', m, level);
  }

  lemma InitAfterLiveSend(c: Setup, h: History, alice: Side, theirs: Side, level: int, plain: Bytes, m: Sent)
    requires h.Valid() && SideInv(h, Alice, alice, theirs, level) && level >= 0 && InitInv(c, h, alice)
    requires alice.session.value.outbound.chain.Some? && h.counts[level] < U32_LIMIT - 1
    requires alice.chains > 0 && Global(Alice, alice.chains - 1) == level
    requires m == Sent(alice.chains - 1, NextEnvelope(alice.session.value, plain), plain)
    ensures InitInv(c, Counted(h, level),
                    alice.(session := Some(AfterEnvelope(alice.session.value)), sent := alice.sent + [m]))
  {
  }

  // Replacing the two sides and the history under a sender keeps the system
  // whole.
  lemma SendKeepsSystem(w: System, w': System, h: History, h': History, la: int, lb: int, la': int, lb': int)
    requires SystemInv(w, h, la, lb) && h'.Valid() && LevelsInv(h', la', lb') && 0 <= la'
    requires w'.setup == w.setup && w.used <= w'.used && Grounded(w.setup, h')
    requires forall k :: 0 <= k < |h'.keys| ==> h'.keys[k] in w'.used
    requires SideInv(h', Alice, w'.alice, w'.bob, la') && SideInv(h', Bob, w'.bob, w'.alice, lb')
    requires InitInv(w.setup, h', w'.alice)
    ensures SystemInv(w', h', la', lb')
  {
  }

  lemma CountedGrounded(c: Setup, h: History, k: nat)
    requires h.Valid() && k < |h.counts| && h.counts[k] < U32_LIMIT - 1 && Grounded(c, h)
    ensures Grounded(c, Counted(h, k))
  {
  }

  lemma SendOnLiveChain(w: System, p: Party, plain: Bytes, newKey: nat, h: History, la: int, lb: int)
    requires SystemInv(w, h, la, lb) && Enabled(w, Send(p, plain, newKey))
    requires w.Get(p).session.value.outbound.chain.Some?
    ensures var level := LevelOf(p, la, lb);
            && 0 <= level < |h.keys| == |h.counts| && h.counts[level] < U32_LIMIT - 1
            && SystemInv(AfterSend(w, p, plain, newKey), Counted(h, level), la, lb)
  {
    hide Owner, SessionInv, LogInv, ReceivedInv, Got, NextEnvelope, AfterEnvelope, InitInv, Grounded;
    var level := LevelOf(p, la, lb);
    var q := Peer(p);
    Alternates(h.Top());
    SenderAfterLiveSend(h, p, w.Get(p), w.Get(q), level, plain);
    var w' := AfterSend(w, p, plain, newKey);
    var m := Sent(w.Get(p).chains - 1, NextEnvelope(w.Get(p).session.value, plain), plain);
    ReceiverAfterLiveSend(h, level, q, w.Get(q), w.Get(p), w'.Get(p), m, LevelOf(q, la, lb));
    if p == Bob {
      BobHeardAlice(w, h, la, lb);
      InitAfterOpening(w.setup, h, Counted(h, level), w.alice, w.alice);
    } else {
      InitAfterLiveSend(w.setup, h, w.alice, w.bob, level, plain, m);
    }
    CountedGrounded(w.setup, h, level);
    SendKeepsSystem(w, w', h, Counted(h, level), la, lb, la, lb);
  }

  // ---------------------------------------------------------------------
  // Opening a new chain

  function Opened(h: History, key: nat): History {
    h.(keys := h.keys + [key], counts := h.counts + [1])
  }

  lemma OpenedSame(h: History, key: nat, k: nat)
    requires h.Valid() && k < |h.keys| && key !in h.keys
    ensures Opened(h, key).Valid()
    ensures Opened(h, key).Root(k) == h.Root(k) && Opened(h, key).Chain(k) == h.Chain(k)
    ensures Opened(h, key).PrevCount(k) == h.PrevCount(k)
  {
    RootAtExtends(h.root0, h.keys, key, k);
    if k > 0 {
      RootAtExtends(h.root0, h.keys, key, k - 1);
    }
  }

  lemma OpenedLog(h: History, key: nat, p: Party, sent: seq<Sent>)
    requires h.Valid() && key !in h.keys && LogInv(h, p, sent)
    ensures Opened(h, key).Valid() && LogInv(Opened(h, key), p, sent)
  {
    OpenedSame(h, key, 0);
    forall i | 0 <= i < |sent|
      ensures SentInv(Opened(h, key), p, sent[i])
    {
      assert SentInv(h, p, sent[i]);
      OpenedSame(h, key, Global(p, sent[i].chain));
    }
  }

  lemma OpenedPeer(h: History, key: nat, q: Party, s: State, level: int, got: set<int>)
    requires h.Valid() && key !in h.keys && SessionInv(h, q, s, level, got)
    ensures Opened(h, key).Valid() && SessionInv(Opened(h, key), q, s, level, got)
  {
    hide Owner, OnChain, BuffersOnly, RootAt, Secret, Advance;
    OpenedSame(h, key, level);
    var r := RecvLevel(q, level);
    if r >= 0 {
      OpenedSame(h, key, r);
      assert Opened(h, key).keys[..r + 1] == h.keys[..r + 1];
    }
  }

  // The new root and chain of the party that opens the next chain.
  lemma NextInHistory(h: History, key: nat)
    requires h.Valid() && key !in h.keys
    ensures Opened(h, key).Valid()
    ensures var h', n := Opened(h, key), |h.keys|;
            && DH(key, Pub(h.keys[n - 1])) == Some(Secret(h'.keys, n))
            && h'.Root(n) == NextRoot(h.Root(n - 1), Secret(h'.keys, n))
            && h'.Chain(n) == NewChain(h.Root(n - 1), Secret(h'.keys, n))
            && Advance(h'.Chain(n), 0) == h'.Chain(n)
            && Advance(h'.Chain(n), 1) == NextChain(h'.Chain(n))
            && h'.PrevCount(n) == if n >= 2 then h.counts[n - 2] else 0
  {
    OpenedSame(h, key, |h.keys| - 1);
    var c := Opened(h, key).Chain(|h.keys|);
    assert Advance(c, 1) == NextChain(Advance(c, 0));
  }

  // What Encrypt makes of a session without a sending chain: the outbound side
  // one message into a new chain under the new key.
  lemma OpensChain(s: State, plain: Bytes, key: nat, secret: Term)
    requires s.outbound.chain.None? && s.inbound.havePub && DH(key, s.inbound.pub) == Some(secret)
    ensures WellFormed(s)
    ensures var (t, outcome) := Encrypt(s, plain, Some(key));
            && outcome.Ok? && t.profile == s.profile && t.inbound == s.inbound
            && (s.outbound.initSent ==> t.outbound.initSent)
            && t.rootKey == NextRoot(s.rootKey, secret)
            && t.outbound.chain == Some(NextChain(NewChain(s.rootKey, secret)))
            && t.outbound.dh == Some(key) && t.outbound.counter == 1
            && t.outbound.previousCounter == s.outbound.retiredCount
            && outcome.value.ratchetPub == Pub(key) && outcome.value.counter == 0
            && outcome.value.prevCount == s.outbound.retiredCount
            && outcome.value.body == Sealed(ExpandMessageKey(MessageKey(NewChain(s.rootKey, secret))), Pub(key),
                                            outcome.value.header, plain)
  {
  }

  // What was received stays as it was when the next chain opens.
  lemma RecvPartOpened(h: History, key: nat, s: Inbound, r: int, got: set<int>)
    requires h.Valid() && key !in h.keys && RecvPart(h, s, r, got)
    ensures RecvPart(Opened(h, key), s, r, got)
  {
    hide OnChain, BuffersOnly, RootAt;
    if r >= 0 {
      OpenedSame(h, key, r);
      assert Opened(h, key).keys[..r + 1] == h.keys[..r + 1];
    } else {
      OpenedSame(h, key, 0);
    }
  }

  // The new state and envelope fit the history with the new key.
  lemma FirstFits(h: History, p: Party, s: State, t: State, sent: Sent, key: nat, got: set<int>)
    requires h.Valid() && !Owns(p, h.Top()) && Owns(p, h.Top() + 1) && key !in h.keys
    requires Opened(h, key).Valid() && SessionInv(h, p, s, h.Top(), got) && RecvPart(Opened(h, key), s.inbound, h.Top(), got)
    requires RecvLevel(p, h.Top() + 1) == h.Top() && Global(p, sent.chain) == |h.keys|
    requires var h', n := Opened(h, key), |h.keys|;
             && t.rootKey == h'.Root(n) && t.profile == s.profile && t.inbound == s.inbound
             && t.outbound.chain == Some(Advance(h'.Chain(n), 1)) && t.outbound.counter == 1
             && t.outbound.dh == Some(key) && t.outbound.previousCounter == h'.PrevCount(n)
             && sent.env.ratchetPub == Pub(key) && sent.env.counter == 0 && sent.env.prevCount == h'.PrevCount(n)
             && SealedOn(sent.env, h'.Chain(n), sent.plain)
    ensures SessionInv(Opened(h, key), p, t, h.Top() + 1, got) && SentInv(Opened(h, key), p, sent)
  {
    hide Owner, RecvPart, RootAt, SealedOn, Advance, Secret;
  }

  // The party at the top of the history, on the peer's chain, opens the next.
  lemma FirstEnvelope(h: History, p: Party, s: State, chains: nat, plain: Bytes, key: nat, got: set<int>)
    requires h.Valid() && !Owns(p, h.Top()) && key !in h.keys
    requires SessionInv(h, p, s, h.Top(), got)
    requires Global(p, chains) == NextOwn(p, h.Top())
    ensures Opened(h, key).Valid() && Global(p, chains) == |h.keys|
    ensures var (t, outcome) := Encrypt(s, plain, Some(key));
            && outcome.Ok?
            && (s.outbound.initSent ==> t.outbound.initSent)
            && t.profile == s.profile
            && SessionInv(Opened(h, key), p, t, h.Top() + 1, got)
            && SentInv(Opened(h, key), p, Sent(chains, outcome.value, plain))
  {
    TopReceives(h, p, s, got);
    hide Owner, RootAt, Encrypt, RecvPart, SentInv, SessionInv;
    Alternates(h.Top());
    NextInHistory(h, key);
    RecvPartOpened(h, key, s.inbound, h.Top(), got);
    var secret := Secret(Opened(h, key).keys, |h.keys|);
    hide Secret;
    OpensChain(s, plain, key, secret);
    var (t, outcome) := Encrypt(s, plain, Some(key));
    FirstFits(h, p, s, t, Sent(chains, outcome.value, plain), key, got);
  }

  lemma TopReceives(h: History, p: Party, s: State, got: set<int>)
    requires h.Valid() && !Owns(p, h.Top()) && SessionInv(h, p, s, h.Top(), got)
    ensures RecvLevel(p, h.Top()) == h.Top() && s.inbound.havePub && s.inbound.pub == Pub(h.keys[h.Top()])
    ensures s.outbound.chain.None? && RecvPart(h, s.inbound, h.Top(), got)
    ensures s.rootKey == h.Root(h.Top()) && s.outbound.retiredCount == if h.Top() >= 1 then h.counts[h.Top() - 1] else 0
  {
    hide BuffersOnly, RootAt;
  }

  lemma SenderAfterOpening(h: History, p: Party, mine: Side, theirs: Side, plain: Bytes, key: nat)
    requires h.Valid() && SideInv(h, p, mine, theirs, h.Top())
    requires mine.session.value.outbound.chain.None? && key !in h.keys
    ensures var (t, outcome) := Encrypt(mine.session.value, plain, Some(key));
            && outcome.Ok?
            && (mine.session.value.outbound.initSent ==> t.outbound.initSent)
            && t.profile == mine.session.value.profile
            && Opened(h, key).Valid()
            && SideInv(Opened(h, key), p,
                       mine.(session := Some(t), chains := mine.chains + 1,
                             sent := mine.sent + [Sent(mine.chains, outcome.value, plain)]),
                       theirs, h.Top() + 1)
  {
    hide Owner, SessionInv, SentInv, LogInv, Got, ReceivedInv, Encrypt;
    var got := Got(p, mine.received, theirs.sent, RecvLevel(p, h.Top()));
    IdleNotOwner(h, p, mine.session.value, h.Top(), got);
    Alternates(h.Top());
    FirstEnvelope(h, p, mine.session.value, mine.chains, plain, key, got);
    OpenedLog(h, key, p, mine.sent);
    NothingOnNewChain(h, p, mine.sent, mine.chains);
    LogGrows(Opened(h, key), p, mine.sent, Sent(mine.chains, Encrypt(mine.session.value, plain, Some(key)).1.value, plain));
  }

  lemma IdleNotOwner(h: History, p: Party, s: State, level: int, got: set<int>)
    requires h.Valid() && SessionInv(h, p, s, level, got) && s.outbound.chain.None?
    ensures !Owns(p, level)
  {
  }

  lemma ReceiverAfterOpening(h: History, key: nat, q: Party, mine: Side, theirs: Side, theirs': Side, m: Sent, level: int)
    requires h.Valid() && key !in h.keys && SideInv(h, q, mine, theirs, level) && Owns(q, h.Top())
    requires theirs'.sent == theirs.sent + [m]
    ensures Opened(h, key).Valid() && SideInv(Opened(h, key), q, mine, theirs', level)
  {
    hide Owner, SessionInv, LogInv, ReceivedInv, Got;
    Alternates(h.Top());
    OpenedLog(h, key, q, mine.sent);
    if level >= 0 {
      OpenedPeer(h, key, q, mine.session.value, level, Got(q, mine.received, theirs.sent, RecvLevel(q, level)));
    }
    SideAfterPeerSends(h, Opened(h, key), q, mine, theirs, theirs', m, level);
  }

  // Only a party at the top of the history, on the peer's chain, has no
  // sending chain.
  lemma IdleAtTop(h: History, p: Party, s: State, la: int, lb: int, got: set<int>)
    requires h.Valid() && LevelsInv(h, la, lb)
    requires SessionInv(h, p, s, LevelOf(p, la, lb), got) && s.outbound.chain.None?
    ensures LevelOf(p, la, lb) == h.Top() && Owner(h.Top()) == Peer(p)
  {
  }

  lemma InitAfterOpening(c: Setup, h: History, h': History, alice: Side, alice': Side)
    requires h.Valid() && h'.Valid() && alice.session.Some? && InitInv(c, h, alice) && |alice.sent| > 0
    requires h'.root0 == h.root0
    requires alice'.session.Some? && alice'.session.value.profile == alice.session.value.profile
    requires alice.session.value.outbound.initSent ==> alice'.session.value.outbound.initSent
    requires |alice'.sent| > 0 && alice'.sent[0] == alice.sent[0]
    ensures InitInv(c, h', alice')
  {
  }

  lemma SendOnNewChain(w: System, p: Party, plain: Bytes, newKey: nat, h: History, la: int, lb: int)
    requires SystemInv(w, h, la, lb) && Enabled(w, Send(p, plain, newKey))
    requires w.Get(p).session.value.outbound.chain.None?
    ensures SystemInv(AfterSend(w, p, plain, newKey), Opened(h, newKey),
                      if p == Alice then h.Top() + 1 else la, if p == Bob then h.Top() + 1 else lb)
  {
    hide Owner, SessionInv, LogInv, ReceivedInv, InitInv, Encrypt, Grounded;
    var q := Peer(p);
    IdleAtTop(h, p, w.Get(p).session.value, la, lb,
              Got(p, w.Get(p).received, w.Get(q).sent, RecvLevel(p, LevelOf(p, la, lb))));
    assert newKey !in h.keys;
    assert |w.alice.sent| > 0 by {
      if p == Bob {
        BobHeardAlice(w, h, la, lb);
      } else {
        AliceHasSent(w, h);
      }
    }
    SenderAfterOpening(h, p, w.Get(p), w.Get(q), plain, newKey);
    var w' := AfterSend(w, p, plain, newKey);
    var m := w'.Get(p).sent[|w.Get(p).sent|];
    ReceiverAfterOpening(h, newKey, q, w.Get(q), w.Get(p), w'.Get(p), m, LevelOf(q, la, lb));
    InitAfterOpening(w.setup, h, Opened(h, newKey), w.alice, w'.alice);
    StillGrounded(w.setup, h, newKey);
    Alternates(h.Top());
    SendKeepsSystem(w, w', h, Opened(h, newKey), la, lb,
                    if p == Alice then h.Top() + 1 else la, if p == Bob then h.Top() + 1 else lb);
  }

  // Alice is past her first chain only after sending on it.
  lemma AliceHasSent(w: System, h: History)
    requires h.Valid() && w.alice.session.Some? && InitInv(w.setup, h, w.alice) && h.Top() >= 1
    ensures |w.alice.sent| > 0
  {
  }

  lemma StillGrounded(c: Setup, h: History, key: nat)
    requires h.Valid() && key !in h.keys && Grounded(c, h)
    ensures Opened(h, key).Valid() && Grounded(c, Opened(h, key))
  {
  }
}
