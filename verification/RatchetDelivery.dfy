// Receiving in the two-party system, and the main theorems: every delivery of
// a run opens to its plaintext, and the parties never drift apart.
module RatchetDelivery {
  import opened Common
  import opened Symbolic
  import opened Ratchet
  import opened Chains
  import opened TwoParty
  import opened RatchetInvariant
  import X3DH

  // ---------------------------------------------------------------------
  // One more receipt

  lemma GotGrows(p: Party, received: seq<Receipt>, theirs: seq<Sent>, recv: int, index: nat, outcome: Result<Bytes, Error>)
    requires index < |theirs|
    ensures Got(p, received + [Receipt(index, outcome)], theirs, recv)
         == Got(p, received, theirs, recv)
            + (if OnLevel(p, theirs, recv, Receipt(index, outcome)) then {theirs[index].env.counter} else {})
  {
    var more := received + [Receipt(index, outcome)];
    var left, right := Got(p, more, theirs, recv), Got(p, received, theirs, recv);
    forall x | x in right
      ensures x in left
    {
      var i :| 0 <= i < |received| && OnLevel(p, theirs, recv, received[i]) && x == theirs[received[i].index].env.counter;
      assert more[i] == received[i];
    }
    if OnLevel(p, theirs, recv, Receipt(index, outcome)) {
      assert more[|received|] == Receipt(index, outcome);
      assert theirs[index].env.counter in left;
    }
  }

  lemma ReceivedMore(p: Party, received: seq<Receipt>, theirs: seq<Sent>, recv: int, recv': int, index: nat)
    requires index < |theirs| && recv <= recv' == Global(Peer(p), theirs[index].chain)
    requires forall i :: 0 <= i < |received| ==> ReceiptOk(p, theirs, recv, received[i])
    ensures ReceivedInv(p, received + [Receipt(index, Ok(theirs[index].plain))], theirs, recv')
  {
    var more := received + [Receipt(index, Ok(theirs[index].plain))];
    forall i | 0 <= i < |more|
      ensures ReceiptOk(p, theirs, recv', more[i])
    {
      if i < |received| {
        assert ReceiptOk(p, theirs, recv, received[i]);
      }
    }
    assert OnLevel(p, theirs, recv', more[|received|]);
  }

  // Nothing of a chain above `recv` has been received.
  lemma NothingAbove(p: Party, received: seq<Receipt>, theirs: seq<Sent>, recv: int, k: int)
    requires forall i :: 0 <= i < |received| ==> ReceiptOk(p, theirs, recv, received[i])
    requires recv < k
    ensures Got(p, received, theirs, k) == {}
  {
  }

  // A message not received before is at a position not opened before.
  lemma NewPosition(h: History, p: Party, received: seq<Receipt>, theirs: seq<Sent>, index: nat)
    requires h.Valid() && LogInv(h, Peer(p), theirs) && index < |theirs|
    requires forall i :: 0 <= i < |received| ==> received[i].index != index
    ensures theirs[index].env.counter !in Got(p, received, theirs, Global(Peer(p), theirs[index].chain))
  {
  }

  // ---------------------------------------------------------------------
  // An envelope of the chain the receiver is on

  lemma OpenOnCurrentChain(h: History, p: Party, s: State, level: int, got: set<int>, m: Sent)
    requires h.Valid() && SessionInv(h, p, s, level, got) && SentInv(h, Peer(p), m)
    requires Global(Peer(p), m.chain) == RecvLevel(p, level)
    requires m.env.counter !in got
    ensures !NeedsStep(s, m.env)
    ensures var (t, outcome) := Decrypt(s, m.env);
            && (outcome == Ok(m.plain) <==> Fits(s, m.env))
            && (Fits(s, m.env) ==> SessionInv(h, p, t, level, got + {m.env.counter}))
            && t == s.(inbound := t.inbound)
  {
    var r := RecvLevel(p, level);
    OpensOnChain(s.inbound, m.env, h.Chain(r), got, m.plain, s.profile.maxSkip);
    assert RoomToOpen(s.inbound, m.env, s.profile.maxSkip) <==> Fits(s, m.env);
    if Fits(s, m.env) {
      StillBuffersOnly(h, s.inbound, OpenInbound(s.inbound, m.env, s.profile.maxSkip).0, m.env, r);
    }
  }

  lemma StillBuffersOnly(h: History, s: Inbound, t: Inbound, env: Envelope, r: nat)
    requires r < |h.keys| && BuffersOnly(s, h.keys[..r + 1]) && env.ratchetPub == Pub(h.keys[r])
    requires forall idx: ChainIndex :: idx.ratchet != env.ratchetPub && idx in t.skipped ==> idx in s.skipped
    ensures BuffersOnly(t, h.keys[..r + 1])
  {
  }

  // ---------------------------------------------------------------------
  // The first envelope to arrive from the peer's next chain

  // Putting away the old chain: the rest of it is buffered, under keys of
  // chains up to the old one, exactly when there is room.
  lemma PutAwayExact(h: History, s: State, r: nat, got: set<int>, pn: U32)
    requires h.Valid() && r < |h.keys| && RecvPart(h, s.inbound, r, got) && pn == h.counts[r]
    requires s.profile.maxSkip == MAX_SKIPPED_MESSAGE_KEYS
    ensures s.inbound.chain.Some?
    ensures var (t, ok) := PutAway(s, pn);
            && (ok <==> |s.inbound.skipped| + (pn - s.inbound.counter) <= s.profile.maxSkip)
            && (ok ==>
                 && |t.skipped| == |s.inbound.skipped| + (pn - s.inbound.counter)
                 && BuffersOnly(t, h.keys[..r + 1]))
  {
    SkipToSize(s.inbound, s.outbound.previousCounter, pn, s.profile.maxSkip);
    SkipToMoves(s.inbound, s.outbound.previousCounter, pn, s.profile.maxSkip);
    assert h.keys[..r + 1][r] == h.keys[r];
  }

  // Nothing is buffered under a key that is about to become current.
  lemma OntoNewChain(h: History, k: nat, root: Term, skipped: map<ChainIndex, Term>)
    requires h.Valid() && 1 <= k < |h.keys| && root == h.Root(k - 1)
    requires |skipped| <= MAX_SKIPPED_MESSAGE_KEYS
    requires forall idx :: idx in skipped ==> idx.ratchet.Pub? && idx.ratchet.id in h.keys[..k - 1]
    ensures NextRoot(root, Secret(h.keys, k)) == h.Root(k)
    ensures RecvPart(h, Inbound(Some(NewChain(root, Secret(h.keys, k))), Pub(h.keys[k]), true, 0, skipped), k, {})
  {
  }

  lemma NewKeyTurnsRatchet(h: History, p: Party, s: State, level: int, got: set<int>, m: Sent)
    requires h.Valid() && SessionInv(h, p, s, level, got) && SentInv(h, Peer(p), m)
    requires Owns(p, level) && Global(Peer(p), m.chain) == level + 1
    ensures NeedsStep(s, m.env) && |s.inbound.skipped| <= s.profile.maxSkip
    ensures s.outbound.dh.Some? && DH(s.outbound.dh.value, m.env.ratchetPub) == Some(Secret(h.keys, level + 1))
    ensures SendPart(h, p, Retire(s.outbound), level + 1)
  {
    Alternates(level);
    DHAgreement(h.keys[level + 1], h.keys[level], 0);
  }

  lemma OldChainPutAway(h: History, p: Party, s: State, level: int, got: set<int>, m: Sent)
    requires h.Valid() && SessionInv(h, p, s, level, got) && SentInv(h, Peer(p), m)
    requires Owns(p, level) && Global(Peer(p), m.chain) == level + 1
    ensures var (u, ok) := PutAway(s, m.env.prevCount);
            && (ok <==> |s.inbound.skipped| + LeftBehind(s.inbound, m.env) <= s.profile.maxSkip)
            && (ok ==>
                 && |u.skipped| == |s.inbound.skipped| + LeftBehind(s.inbound, m.env)
                 && BuffersOnly(u, h.keys[..level]))
  {
    if level >= 1 {
      PutAwayExact(h, s, level - 1, got, m.env.prevCount);
    }
  }

  // The ratchet step in terms of what was put away.
  lemma StepResult(s: State, pub: PubKey, pn: U32, secret: Term)
    requires s.outbound.dh.Some? && DH(s.outbound.dh.value, pub) == Some(secret)
    ensures var (u, ok) := PutAway(s, pn);
            var (t, failure) := RecvRatchetStep(s, pub, pn);
            && (failure == None <==> ok)
            && (ok ==> t == State(NextRoot(s.rootKey, secret), Retire(s.outbound),
                                  Inbound(Some(NewChain(s.rootKey, secret)), pub, true, 0, u.skipped), s.profile))
  {
    hide PutAway, Retire;
  }

  // Nothing is buffered under the new key yet.
  lemma NewKeyNotBuffered(h: History, s: Inbound, level: nat, env: Envelope)
    requires h.Valid() && level + 1 < |h.keys| && BuffersOnly(s, h.keys[..level]) && env.ratchetPub == Pub(h.keys[level + 1])
    ensures IndexOf(env) !in s.skipped
  {
  }

  // The ratchet step succeeds exactly when the rest of the old chain fits.
  lemma StepOntoNewChain(h: History, p: Party, s: State, level: int, got: set<int>, m: Sent)
    requires h.Valid() && SessionInv(h, p, s, level, got) && SentInv(h, Peer(p), m)
    requires Owns(p, level) && Global(Peer(p), m.chain) == level + 1
    ensures var (t, failure) := RecvRatchetStep(s, m.env.ratchetPub, m.env.prevCount);
            && (failure == None <==> |s.inbound.skipped| + LeftBehind(s.inbound, m.env) <= s.profile.maxSkip)
            && (failure == None ==>
                 && SessionInv(h, p, t, level + 1, {})
                 && t.inbound.counter == 0
                 && |t.inbound.skipped| == |s.inbound.skipped| + LeftBehind(s.inbound, m.env)
                 && IndexOf(m.env) !in t.inbound.skipped
                 && t.outbound == Retire(s.outbound) && t.profile == s.profile)
  {
    hide PutAway, RecvRatchetStep, Retire, Owner, SendPart, RecvPart, LeftBehind;
    NewKeyTurnsRatchet(h, p, s, level, got, m);
    OldChainPutAway(h, p, s, level, got, m);
    ReceivesOnNext(p, level);
    StepResult(s, m.env.ratchetPub, m.env.prevCount, Secret(h.keys, level + 1));
    hide Secret;
    var (u, ok) := PutAway(s, m.env.prevCount);
    if ok {
      NewKeyNotBuffered(h, u, level, m.env);
      OntoNewChain(h, level + 1, s.rootKey, u.skipped);
    }
  }

  lemma ReceivesOnNext(p: Party, level: int)
    requires Owns(p, level)
    ensures RecvLevel(p, level) == level - 1 && RecvLevel(p, level + 1) == level + 1
  {
  }

  lemma OpenOnNewChain(h: History, p: Party, s: State, level: int, got: set<int>, m: Sent)
    requires h.Valid() && SessionInv(h, p, s, level, got) && SentInv(h, Peer(p), m)
    requires Owns(p, level) && Global(Peer(p), m.chain) == level + 1
    ensures var (t, outcome) := Decrypt(s, m.env);
            && (outcome == Ok(m.plain) <==> Fits(s, m.env))
            && (Fits(s, m.env) ==>
                 && SessionInv(h, p, t, level + 1, {m.env.counter})
                 && t.outbound.initSent == s.outbound.initSent && t.profile == s.profile)
  {
    hide Owner, SessionInv, SentInv, RecvRatchetStep;
    NewKeyTurnsRatchet(h, p, s, level, got, m);
    StepOntoNewChain(h, p, s, level, got, m);
    var (v, failure) := RecvRatchetStep(s, m.env.ratchetPub, m.env.prevCount);
    if failure == None {
      ReceivesOnNext(p, level);
      OpenOnCurrentChain(h, p, v, level + 1, {}, m);
      assert {} + {m.env.counter} == {m.env.counter};
      assert KeysToSkip(v, m.env) == m.env.counter;
    }
  }

  // ---------------------------------------------------------------------
  // Delivery to a live session

  // An in-order envelope is of the chain the receiver is on, or of the very
  // next one: no chain is ever skipped whole.
  lemma NoChainSkipped(h: History, p: Party, mine: Side, theirs: Side, level: int, index: nat)
    requires h.Valid() && SideInv(h, p, mine, theirs, level) && LogInv(h, Peer(p), theirs.sent)
    requires 0 <= level && h.Top() - 1 <= level <= h.Top()
    requires index < |theirs.sent|
    requires forall i :: 0 <= i < |mine.received| ==>
               && mine.received[i].index < |theirs.sent|
               && theirs.sent[mine.received[i].index].chain <= theirs.sent[index].chain
    ensures var k := Global(Peer(p), theirs.sent[index].chain);
            k == RecvLevel(p, level) || (Owns(p, level) && k == level + 1)
  {
  }

  // The side after the envelope at `index` was received with outcome and new
  // session state of Decrypt.
  function Delivered(mine: Side, theirs: Side, index: nat): Side
    requires mine.session.Some? && index < |theirs.sent|
  {
    var (t, outcome) := Decrypt(mine.session.value, theirs.sent[index].env);
    mine.(session := Some(t), received := mine.received + [Receipt(index, outcome)])
  }

  // A side is whole again once its session and its receipts are.
  lemma DeliveredSide(h: History, p: Party, mine: Side, theirs: Side, level: int, level': int, index: nat, got: set<int>)
    requires h.Valid() && SideInv(h, p, mine, theirs, level) && 0 <= level && 0 <= level'
    requires index < |theirs.sent| && RecvLevel(p, level) <= RecvLevel(p, level') == Global(Peer(p), theirs.sent[index].chain)
    requires got == Got(p, mine.received, theirs.sent, RecvLevel(p, level'))
    requires var (t, outcome) := Decrypt(mine.session.value, theirs.sent[index].env);
             && outcome == Ok(theirs.sent[index].plain)
             && SessionInv(h, p, t, level', got + {theirs.sent[index].env.counter})
    ensures SideInv(h, p, Delivered(mine, theirs, index), theirs, level')
  {
    hide Owner, SessionInv, Got, Decrypt, LogInv;
    var m := theirs.sent[index];
    var recv, k := RecvLevel(p, level), RecvLevel(p, level');
    ReceivedMore(p, mine.received, theirs.sent, recv, k, index);
    GotGrows(p, mine.received, theirs.sent, k, index, Ok(m.plain));
    assert OnLevel(p, theirs.sent, k, Receipt(index, Ok(m.plain)));
  }

  // The outcome of a delivery, and the side it leaves.
  ghost predicate DeliveryOutcome(h: History, p: Party, mine: Side, theirs: Side, index: nat, level': int)
    requires h.Valid() && mine.session.Some? && index < |theirs.sent|
  {
    var (t, outcome) := Decrypt(mine.session.value, theirs.sent[index].env);
    var fits := Fits(mine.session.value, theirs.sent[index].env);
    && (outcome == Ok(theirs.sent[index].plain) <==> fits)
    && (fits ==> SideInv(h, p, Delivered(mine, theirs, index), theirs, level'))
    && (fits ==> t.outbound.initSent == mine.session.value.outbound.initSent && t.profile == mine.session.value.profile)
  }

  lemma DeliveryOnCurrentChain(h: History, p: Party, mine: Side, theirs: Side, level: int, index: nat)
    requires h.Valid() && SideInv(h, p, mine, theirs, level) && LogInv(h, Peer(p), theirs.sent) && 0 <= level
    requires index < |theirs.sent|
    requires forall i :: 0 <= i < |mine.received| ==> mine.received[i].index != index
    requires Global(Peer(p), theirs.sent[index].chain) == RecvLevel(p, level)
    ensures DeliveryOutcome(h, p, mine, theirs, index, level)
  {
    var m := theirs.sent[index];
    hide Owner, SessionInv, Got, Decrypt, Fits;
    var got := Got(p, mine.received, theirs.sent, RecvLevel(p, level));
    assert SentInv(h, Peer(p), m);
    NewPosition(h, p, mine.received, theirs.sent, index);
    OpenOnCurrentChain(h, p, mine.session.value, level, got, m);
    if Fits(mine.session.value, m.env) {
      DeliveredSide(h, p, mine, theirs, level, level, index, got);
    }
  }

  lemma DeliveryOnNewChain(h: History, p: Party, mine: Side, theirs: Side, level: int, index: nat)
    requires h.Valid() && SideInv(h, p, mine, theirs, level) && LogInv(h, Peer(p), theirs.sent) && 0 <= level
    requires index < |theirs.sent|
    requires Owns(p, level) && Global(Peer(p), theirs.sent[index].chain) == level + 1
    ensures DeliveryOutcome(h, p, mine, theirs, index, level + 1)
  {
    hide Owner, SessionInv, Got, Decrypt, Fits;
    var m := theirs.sent[index];
    assert SentInv(h, Peer(p), m);
    ReceivesOnNext(p, level);
    NothingAbove(p, mine.received, theirs.sent, level - 1, level + 1);
    OpenOnNewChain(h, p, mine.session.value, level, Got(p, mine.received, theirs.sent, RecvLevel(p, level)), m);
    assert {} + {m.env.counter} == {m.env.counter};
    if Fits(mine.session.value, m.env) {
      DeliveredSide(h, p, mine, theirs, level, level + 1, index, {});
    }
  }

  // ---------------------------------------------------------------------
  // First contact

  lemma FirstContact(c: Setup, h: History, m: Sent)
    requires h.Valid() && Grounded(c, h) && IsIntroduction(c, h, m) && SentInv(h, Alice, m)
    ensures var r := BobSession(c.bob, m.env, c.info);
            && r.Ok?
            && r.value.1 == m.plain
            && SessionInv(h, Bob, r.value.0, 0, {0})
  {
    var s := BobInitialState(c.bob, m.env, c.info, h.root0, h.chain0);
    assert Advance(h.Chain(0), 0) == h.chain0;
    assert OnChain(s.inbound, h.Chain(0), m.env.ratchetPub, m.env.prevCount, {});
    OpensOnChain(s.inbound, m.env, h.Chain(0), {}, m.plain, s.profile.maxSkip);
    assert {} + {0} == {0};
    var t := OpenMessage(s, m.env).0;
    assert t.inbound.skipped == map[];
  }

  lemma FirstContactSide(c: Setup, h: History, mine: Side, theirs: Side)
    requires h.Valid() && Grounded(c, h) && SideInv(h, Bob, mine, theirs, -1)
    requires |theirs.sent| > 0 && LogInv(h, Alice, theirs.sent) && IsIntroduction(c, h, theirs.sent[0])
    ensures var r := BobSession(c.bob, theirs.sent[0].env, c.info);
            && r.Ok?
            && r.value.1 == theirs.sent[0].plain
            && SideInv(h, Bob, mine.(session := Some(r.value.0), received := [Receipt(0, Ok(theirs.sent[0].plain))]), theirs, 0)
  {
    var m := theirs.sent[0];
    assert SentInv(h, Alice, m);
    FirstContact(c, h, m);
    ReceivedMore(Bob, [], theirs.sent, -1, 0, 0);
    GotGrows(Bob, [], theirs.sent, 0, 0, Ok(m.plain));
    assert [] + [Receipt(0, Ok(m.plain))] == [Receipt(0, Ok(m.plain))];
    assert OnLevel(Bob, theirs.sent, 0, Receipt(0, Ok(m.plain)));
    assert Got(Bob, [], theirs.sent, 0) + {0} == {0};
  }

  // ---------------------------------------------------------------------
  // Delivery in the system

  // Replacing one side by its state after a delivery keeps the system whole.
  lemma DeliveryKeepsSystem(w: System, w': System, p: Party, h: History, la: int, lb: int, level': int)
    requires SystemInv(w, h, la, lb)
    requires w'.setup == w.setup && w'.used == w.used && w'.Get(Peer(p)) == w.Get(Peer(p))
    requires w'.Get(p).sent == w.Get(p).sent
    requires LevelOf(p, la, lb) <= level' <= h.Top()
    requires SideInv(h, p, w'.Get(p), w'.Get(Peer(p)), level')
    requires p == Alice ==>
               && w'.alice.session.Some?
               && w'.alice.session.value.outbound.initSent == w.alice.session.value.outbound.initSent
               && w'.alice.session.value.profile == w.alice.session.value.profile
    ensures SystemInv(w', h, if p == Alice then level' else la, if p == Bob then level' else lb)
  {
  }

  lemma DeliverToLiveSession(w: System, p: Party, index: nat, h: History, la: int, lb: int) returns (level': int)
    requires SystemInv(w, h, la, lb) && InOrder(w, p, index) && w.Get(p).session.Some?
    ensures var env := w.Get(Peer(p)).sent[index].env;
            && (Receive(w, p, env).1 == Ok(w.Get(Peer(p)).sent[index].plain) <==> Fits(w.Get(p).session.value, env))
            && (Fits(w.Get(p).session.value, env) ==>
                 SystemInv(AfterDelivery(w, p, index), h, if p == Alice then level' else la, if p == Bob then level' else lb))
  {
    hide SessionInv, ReceivedInv, InitInv, Grounded, Decrypt, Fits;
    var level := LevelOf(p, la, lb);
    var mine, theirs := w.Get(p), w.Get(Peer(p));
    assert SideInv(h, p, mine, theirs, level);
    assert LogInv(h, Peer(p), theirs.sent);
    NoChainSkipped(h, p, mine, theirs, level, index);
    assert SentInv(h, Peer(p), theirs.sent[index]);
    if Global(Peer(p), theirs.sent[index].chain) == RecvLevel(p, level) {
      level' := level;
      DeliveryOnCurrentChain(h, p, mine, theirs, level, index);
    } else {
      level' := level + 1;
      DeliveryOnNewChain(h, p, mine, theirs, level, index);
    }
    if Fits(mine.session.value, theirs.sent[index].env) {
      DeliveryKeepsSystem(w, AfterDelivery(w, p, index), p, h, la, lb, level');
    }
  }

  lemma DeliverFirstContact(w: System, index: nat, h: History, la: int, lb: int)
    requires SystemInv(w, h, la, lb) && InOrder(w, Bob, index) && w.bob.session.None?
    ensures Receive(w, Bob, w.alice.sent[index].env).1 == Ok(w.alice.sent[index].plain)
    ensures SystemInv(AfterDelivery(w, Bob, index), h, la, 0)
  {
    assert lb == -1;
    FirstContactSide(w.setup, h, w.bob, w.alice);
    assert w.bob.received + [Receipt(0, Ok(w.alice.sent[0].plain))] == [Receipt(0, Ok(w.alice.sent[0].plain))];
    DeliveryKeepsSystem(w, AfterDelivery(w, Bob, index), Bob, h, la, lb, 0);
  }

  lemma StepKeepsSystem(w: System, a: Action, h: History, la: int, lb: int) returns (h': History, la': int, lb': int)
    requires SystemInv(w, h, la, lb) && Enabled(w, a)
    ensures SystemInv(Next(w, a), h', la', lb')
  {
    hide SystemInv, Fits, Receive;
    match a
    case Send(p, plain, newKey) =>
      if w.Get(p).session.value.outbound.chain.Some? {
        SendOnLiveChain(w, p, plain, newKey, h, la, lb);
        h', la', lb' := Counted(h, LevelOf(p, la, lb)), la, lb;
      } else {
        SendOnNewChain(w, p, plain, newKey, h, la, lb);
        h', la', lb' := Opened(h, newKey), if p == Alice then h.Top() + 1 else la, if p == Bob then h.Top() + 1 else lb;
      }
    case Deliver(p, index) =>
      if w.Get(p).session.Some? {
        var level' := DeliverToLiveSession(w, p, index, h, la, lb);
        h', la', lb' := h, if p == Alice then level' else la, if p == Bob then level' else lb;
      } else {
        DeliverFirstContact(w, index, h, la, lb);
        h', la', lb' := h, la, 0;
      }
  }

  lemma {:induction false} RunKeepsSystem(ws: seq<System>, actions: seq<Action>, i: nat) returns (h: History, la: int, lb: int)
    requires IsRun(ws, actions) && i < |ws|
    ensures SystemInv(ws[i], h, la, lb)
  {
    hide SystemInv, Enabled, Next;
    if i == 0 {
      h := InitialInv(ws[0]);
      la, lb := 0, -1;
    } else {
      h, la, lb := RunKeepsSystem(ws, actions, i - 1);
      assert Enabled(ws[i - 1], actions[i - 1]) && ws[i] == Next(ws[i - 1], actions[i - 1]);
      h, la, lb := StepKeepsSystem(ws[i - 1], actions[i - 1], h, la, lb);
    }
  }

  // ---------------------------------------------------------------------
  // Main theorems

  // In every run, everything ever delivered opened to what was sent.
  lemma EveryDeliveryOpens(ws: seq<System>, actions: seq<Action>, i: nat, p: Party, j: nat)
    requires IsRun(ws, actions) && i < |ws| && j < |ws[i].Get(p).received|
    ensures var r := ws[i].Get(p).received[j];
            && r.index < |ws[i].Get(Peer(p)).sent|
            && r.outcome == Ok(ws[i].Get(Peer(p)).sent[r.index].plain)
  {
    var h, la, lb := RunKeepsSystem(ws, actions, i);
    var w := ws[i];
    assert SideInv(h, p, w.Get(p), w.Get(Peer(p)), LevelOf(p, la, lb));
    assert ReceiptOk(p, w.Get(Peer(p)).sent, RecvLevel(p, LevelOf(p, la, lb)), w.Get(p).received[j]);
  }

  // The next in-order envelope opens to its plaintext if and only if the keys
  // it makes the receiver skip fit the buffer.
  lemma OpensExactlyWhenItFits(ws: seq<System>, actions: seq<Action>, i: nat, p: Party, index: nat)
    requires IsRun(ws, actions) && i < |ws| && InOrder(ws[i], p, index)
    ensures var m := ws[i].Get(Peer(p)).sent[index];
            Receive(ws[i], p, m.env).1 == Ok(m.plain) <==>
            (ws[i].Get(p).session.None? || Fits(ws[i].Get(p).session.value, m.env))
  {
    var h, la, lb := RunKeepsSystem(ws, actions, i);
    if ws[i].Get(p).session.Some? {
      var _ := DeliverToLiveSession(ws[i], p, index, h, la, lb);
    } else {
      DeliverFirstContact(ws[i], index, h, la, lb);
    }
  }

  // Same root; the owner of the newest chain sends on it and the other
  // receives on it.
  ghost predicate InStep(sender: State, receiver: State) {
    && sender.rootKey == receiver.rootKey
    && sender.outbound.dh.Some?
    && receiver.inbound.pub == Pub(sender.outbound.dh.value)
    && exists chain :: && sender.outbound.chain == Some(Advance(chain, sender.outbound.counter))
                       && receiver.inbound.chain == Some(Advance(chain, receiver.inbound.counter))
  }

  // `ahead` has taken one root step of its own, with a key the peer has not
  // received, and the peer holds what it needs to follow.
  ghost predicate OneAhead(ahead: State, behind: State) {
    && ahead.outbound.dh.Some? && ahead.outbound.chain.Some? && behind.outbound.dh.Some?
    && ahead.inbound.pub == Pub(behind.outbound.dh.value)
    && ahead.rootKey == NextRoot(behind.rootKey, DH(behind.outbound.dh.value, Pub(ahead.outbound.dh.value)).value)
    && behind.inbound.pub != Pub(ahead.outbound.dh.value)
  }

  lemma SameLevel(h: History, p: Party, s: State, t: State, got: set<int>, got': set<int>)
    requires h.Valid() && Owner(h.Top()) == p
    requires SessionInv(h, p, s, h.Top(), got) && SessionInv(h, Peer(p), t, h.Top(), got')
    ensures InStep(s, t)
  {
    assert Owns(p, h.Top());
    assert t.inbound.chain == Some(Advance(h.Chain(h.Top()), t.inbound.counter));
  }

  lemma OneIsAhead(h: History, p: Party, s: State, t: State, got: set<int>, got': set<int>)
    requires h.Valid() && Owner(h.Top()) == p && h.Top() >= 1
    requires SessionInv(h, p, s, h.Top(), got) && SessionInv(h, Peer(p), t, h.Top() - 1, got')
    ensures OneAhead(s, t)
  {
    hide Owner, Advance, RootAt, BuffersOnly;
    var top := h.Top();
    Alternates(top);
    Alternates(top - 1);
    assert s.inbound.pub == Pub(h.keys[top - 1]);
    assert t.inbound.pub == if top >= 2 then Pub(h.keys[top - 2]) else ZERO_PUB;
    hide RecvPart;
    DHAgreement(h.keys[top], h.keys[top - 1], 0);
    RootsApart(h, top);
  }

  // Whoever is ahead has a root one step deeper.
  lemma AheadIsDeeper(s: State, t: State)
    requires OneAhead(s, t)
    ensures Steps(s.rootKey) == Steps(t.rootKey) + 1 && s.rootKey != t.rootKey && !OneAhead(t, s)
  {
    assert OneAhead(t, s) ==> Steps(t.rootKey) == Steps(s.rootKey) + 1;
  }

  lemma OneLevelApart(h: History, p: Party, s: State, t: State, got: set<int>, got': set<int>)
    requires h.Valid() && Owner(h.Top()) == p && h.Top() >= 1
    requires SessionInv(h, p, s, h.Top(), got) && SessionInv(h, Peer(p), t, h.Top() - 1, got')
    ensures OneAhead(s, t) && !OneAhead(t, s) && s.rootKey != t.rootKey
  {
    hide Owner, SessionInv, OneAhead;
    OneIsAhead(h, p, s, t, got, got');
    AheadIsDeeper(s, t);
  }

  lemma RootsApart(h: History, k: nat)
    requires 1 <= k < |h.keys|
    ensures h.Root(k) == NextRoot(h.Root(k - 1), Secret(h.keys, k))
    ensures Steps(h.Root(k)) == Steps(h.Root(k - 1)) + 1
  {
  }

  // The two ways in which live sessions relate.
  ghost predicate InStepOrOneAhead(a: State, b: State) {
    if a.rootKey == b.rootKey then InStep(a, b) || InStep(b, a) else OneAhead(a, b) != OneAhead(b, a)
  }

  lemma LiveSessions(w: System, h: History, la: int, lb: int)
    requires SystemInv(w, h, la, lb) && w.bob.session.Some?
    ensures w.alice.session.Some? && 0 <= lb && LevelsInv(h, la, lb)
    ensures SessionInv(h, Alice, w.alice.session.value, la, Got(Alice, w.alice.received, w.bob.sent, RecvLevel(Alice, la)))
    ensures SessionInv(h, Bob, w.bob.session.value, lb, Got(Bob, w.bob.received, w.alice.sent, RecvLevel(Bob, lb)))
  {
    hide SessionInv, Got, ReceivedInv, LogInv, Grounded, InitInv, LevelsInv;
  }

  lemma SessionsInStep(h: History, a: State, b: State, la: int, lb: int, ga: set<int>, gb: set<int>)
    requires h.Valid() && 0 <= la && 0 <= lb && LevelsInv(h, la, lb)
    requires SessionInv(h, Alice, a, la, ga) && SessionInv(h, Bob, b, lb, gb)
    ensures InStepOrOneAhead(a, b)
  {
    hide Owner, SessionInv, InStep, OneAhead;
    if la == lb && Owner(h.Top()) == Alice {
      SameLevel(h, Alice, a, b, ga, gb);
      SameRoot(h, a, b, la, ga, gb);
    } else if la == lb {
      SameLevel(h, Bob, b, a, gb, ga);
      SameRoot(h, a, b, la, ga, gb);
    } else if la > lb {
      OneLevelApart(h, Alice, a, b, ga, gb);
    } else {
      OneLevelApart(h, Bob, b, a, gb, ga);
    }
  }

  lemma SameRoot(h: History, a: State, b: State, level: int, ga: set<int>, gb: set<int>)
    requires SessionInv(h, Alice, a, level, ga) && SessionInv(h, Bob, b, level, gb)
    ensures a.rootKey == b.rootKey
  {
  }

  // While a session is live on both ends the roots are equal or exactly one
  // party is exactly one sending step ahead.
  lemma PartiesStayInStep(ws: seq<System>, actions: seq<Action>, i: nat)
    requires IsRun(ws, actions) && i < |ws|
    ensures ws[i].alice.session.Some?
    ensures ws[i].bob.session.Some? ==> InStepOrOneAhead(ws[i].alice.session.value, ws[i].bob.session.value)
  {
    hide SessionInv, Got, ReceivedInv, LogInv, InStepOrOneAhead, IsRun;
    var h, la, lb := RunKeepsSystem(ws, actions, i);
    var w := ws[i];
    if w.bob.session.Some? {
      LiveSessions(w, h, la, lb);
      hide SideInv, SystemInv;
      SessionsInStep(h, w.alice.session.value, w.bob.session.value, la, lb,
                     Got(Alice, w.alice.received, w.bob.sent, RecvLevel(Alice, la)),
                     Got(Bob, w.bob.received, w.alice.sent, RecvLevel(Bob, lb)));
    }
  }
}
