// Two honest parties talking over a channel that loses and reorders.
//
// Alice starts from X3DH, Bob comes to life with the init envelope. Messages
// of one sending chain may be lost or overtake each other; what a run does not
// contain is an envelope of an older sending chain delivered after one of a
// newer chain, a second delivery of the same envelope, or a delivery that
// would overflow the receiver's buffer of skipped keys.
module TwoParty {
  import opened Common
  import opened Symbolic
  import opened Ratchet
  import X3DH

  datatype Party = Alice | Bob

  function Peer(p: Party): Party {
    if p == Alice then Bob else Alice
  }

  // One transmitted envelope: the ordinal of the sender's chain, and the
  // plaintext it was made from.
  datatype Sent = Sent(chain: nat, env: Envelope, plain: Bytes)

  // One delivery: which envelope of the peer, and what Decrypt returned.
  datatype Receipt = Receipt(index: nat, outcome: Result<Bytes, Error>)

  datatype Side = Side(session: Option<State>, sent: seq<Sent>, received: seq<Receipt>, chains: nat)

  // Long-term material of both parties.
  datatype Setup = Setup(
    alice: X3DH.Identity, ephemeral: nat, bob: BobKeys, oneTime: map<U32, PubKey>,
    pickKey: Option<U32>, pickID: Option<U32>, info: string)

  datatype System = System(setup: Setup, alice: Side, bob: Side, used: set<nat>) {
    function Get(p: Party): Side {
      if p == Alice then alice else bob
    }

    function Put(p: Party, side: Side): System {
      if p == Alice then this.(alice := side) else this.(bob := side)
    }
  }

  datatype Action = Send(who: Party, plain: Bytes, newKey: nat) | Deliver(to: Party, index: nat)

  function Bundle(c: Setup): X3DH.PreKeyBundle {
    X3DH.BuildBundle(c.bob.identity, c.bob.signedPreKey, c.bob.signedPreID, c.oneTime)
  }

  // Bob's published material offers at most the one-time key he holds.
  ghost predicate GoodSetup(c: Setup) {
    && X3DH.MayPick(c.oneTime, c.pickKey)
    && X3DH.MayPick(c.oneTime, c.pickID)
    && X3DH.OneTimeKeysMatch(Bundle(c), c.pickKey, c.bob.oneTimeKey)
  }

  ghost predicate IsInitial(w: System) {
    && GoodSetup(w.setup)
    && w.setup.ephemeral in w.used
    && AliceSession(Bundle(w.setup), w.setup.alice, w.setup.info, Some(w.setup.ephemeral),
                    w.setup.pickKey, w.setup.pickID).Ok?
    && w.alice == Side(Some(AliceSession(Bundle(w.setup), w.setup.alice, w.setup.info, Some(w.setup.ephemeral),
                                         w.setup.pickKey, w.setup.pickID).value), [], [], 1)
    && w.bob == Side(None, [], [], 0)
  }

  // How many keys the receiver must buffer to open this envelope.
  function KeysToSkip(s: State, env: Envelope): nat {
    if NeedsStep(s, env) then
      LeftBehind(s.inbound, env) + env.counter
    else if IndexOf(env) in s.inbound.skipped || env.counter < s.inbound.counter then 0
    else env.counter - s.inbound.counter
  }

  // What is left of the old chain when the receiver moves to a new one.
  function LeftBehind(s: Inbound, env: Envelope): nat {
    if s.chain.Some? && s.counter < env.prevCount then env.prevCount - s.counter else 0
  }

  predicate Fits(s: State, env: Envelope) {
    KeysToSkip(s, env) == 0 || |s.inbound.skipped| + KeysToSkip(s, env) <= s.profile.maxSkip
  }

  // A delivery that respects the order of the sender's chains.
  ghost predicate InOrder(w: System, to: Party, index: nat) {
    var mine, theirs := w.Get(to), w.Get(Peer(to));
    && index < |theirs.sent|
    && (forall i :: 0 <= i < |mine.received| ==>
         && mine.received[i].index != index
         && mine.received[i].index < |theirs.sent|
         && theirs.sent[mine.received[i].index].chain <= theirs.sent[index].chain)
    && (mine.session.None? ==> to == Bob && index == 0)
  }

  ghost predicate Enabled(w: System, a: Action) {
    match a
    case Send(who, _, newKey) =>
      && w.Get(who).session.Some?
      && newKey !in w.used
      && WellFormed(w.Get(who).session.value)
      && (w.Get(who).session.value.outbound.chain.Some? ==>
           w.Get(who).session.value.outbound.counter < U32_LIMIT - 1)
    case Deliver(to, index) =>
      && InOrder(w, to, index)
      && (w.Get(to).session.Some? ==> Fits(w.Get(to).session.value, w.Get(Peer(to)).sent[index].env))
  }

  function AfterSend(w: System, who: Party, plain: Bytes, newKey: nat): System
    requires w.Get(who).session.Some? && WellFormed(w.Get(who).session.value)
  {
    var side := w.Get(who);
    var s := side.session.value;
    var (t, outcome) := Encrypt(s, plain, Some(newKey));
    match outcome
    case Err(_) => w.Put(who, side.(session := Some(t)))
    case Ok(env) =>
      var chains := if s.outbound.chain.Some? then side.chains else side.chains + 1;
      var sent := Sent(if chains > 0 then chains - 1 else 0, env, plain);
      w.Put(who, side.(session := Some(t), chains := chains, sent := side.sent + [sent]))
        .(used := w.used + {newKey})
  }

  // What the receiving API call does: Decrypt on a live session, BobSession on
  // the first contact.
  function Receive(w: System, to: Party, env: Envelope): (Option<State>, Result<Bytes, Error>) {
    match w.Get(to).session
    case Some(s) =>
      var (t, outcome) := Decrypt(s, env);
      (Some(t), outcome)
    case None =>
      match BobSession(w.setup.bob, env, w.setup.info)
      case Err(e) => (None, Err(e))
      case Ok((t, plain)) => (Some(t), Ok(plain))
  }

  function AfterDelivery(w: System, to: Party, index: nat): System
    requires index < |w.Get(Peer(to)).sent|
  {
    var side := w.Get(to);
    var (session, outcome) := Receive(w, to, w.Get(Peer(to)).sent[index].env);
    w.Put(to, side.(session := session, received := side.received + [Receipt(index, outcome)]))
  }

  ghost function Next(w: System, a: Action): System
    requires Enabled(w, a)
  {
    match a
    case Send(who, plain, newKey) => AfterSend(w, who, plain, newKey)
    case Deliver(to, index) => AfterDelivery(w, to, index)
  }

  ghost predicate IsRun(ws: seq<System>, actions: seq<Action>) {
    && |ws| == |actions| + 1
    && IsInitial(ws[0])
    && forall i :: 0 <= i < |actions| ==> Enabled(ws[i], actions[i]) && ws[i + 1] == Next(ws[i], actions[i])
  }
}
