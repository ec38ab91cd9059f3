// Receiving along one chain: which keys are buffered, and when an envelope of
// the chain opens.
module Chains {
  import opened Common
  import opened Symbolic
  import opened Ratchet

  // A chain key after n messages.
  function Advance(chain: Term, n: nat): Term {
    if n == 0 then chain else NextChain(Advance(chain, n - 1))
  }

  lemma {:induction false} AdvanceFrom(chain: Term, a: nat, b: nat)
    requires a <= b
    ensures Advance(Advance(chain, a), b - a) == Advance(chain, b)
  {
    if a < b {
      AdvanceFrom(chain, a, b - 1);
    }
  }

  // How many times a key was ratcheted.
  function Steps(t: Term): nat {
    if t.Hmac? then Steps(t.key) + 1 else 0
  }

  predicate InWindow(idx: ChainIndex, pub: PubKey, pn: U32, lo: int, hi: int) {
    idx.ratchet == pub && idx.pn == pn && lo <= idx.n < hi
  }

  predicate CanSkip(s: Inbound, target: U32, maxSkip: nat) {
    target <= s.counter || |s.skipped| + (target - s.counter) <= maxSkip
  }

  // Skipping fails exactly when the buffer has no room for every key passed
  // over.
  lemma {:induction false} SkipToSize(s: Inbound, pn: U32, target: U32, maxSkip: nat)
    requires s.chain.Some? && |s.skipped| <= maxSkip
    requires forall idx :: InWindow(idx, s.pub, pn, s.counter, target) ==> idx !in s.skipped
    ensures var (t, ok) := SkipTo(s, pn, target, maxSkip);
            && |t.skipped| <= maxSkip
            && (ok <==> CanSkip(s, target, maxSkip))
            && (ok && s.counter <= target ==> |t.skipped| == |s.skipped| + (target - s.counter))
    decreases target - s.counter
  {
    if s.counter < target && |s.skipped| < maxSkip {
      var here := ChainIndex(s.pub, pn, s.counter);
      assert InWindow(here, s.pub, pn, s.counter, target);
      var one := SkipOne(s, pn);
      assert one.skipped.Keys == s.skipped.Keys + {here};
      SkipToSize(one, pn, target, maxSkip);
    }
  }

  // From s to t the receiver moved up to `target` and buffered exactly the
  // keys it passed over.
  ghost predicate Moved(s: Inbound, t: Inbound, pn: U32, target: U32)
    requires s.chain.Some? && s.counter <= target
  {
    && t.counter == target
    && t.chain == Some(Advance(s.chain.value, target - s.counter))
    && t.pub == s.pub
    && (forall idx :: idx in t.skipped <==>
         idx in s.skipped || InWindow(idx, s.pub, pn, s.counter, target))
    && (forall idx :: idx in t.skipped && !InWindow(idx, s.pub, pn, s.counter, target) ==>
         t.skipped[idx] == s.skipped[idx])
    && (forall idx :: InWindow(idx, s.pub, pn, s.counter, target) ==>
         t.skipped[idx] == MessageKey(Advance(s.chain.value, idx.n - s.counter)))
  }

  lemma MovedByOne(s: Inbound, t: Inbound, pn: U32, target: U32)
    requires s.chain.Some? && s.counter < target
    requires Moved(SkipOne(s, pn), t, pn, target)
    ensures Moved(s, t, pn, target)
  {
    var one := SkipOne(s, pn);
    assert Advance(s.chain.value, 1) == one.chain.value by {
      assert Advance(s.chain.value, 0) == s.chain.value;
    }
    hide Advance;
    AdvanceFrom(s.chain.value, 1, target - s.counter);
    forall idx | InWindow(idx, s.pub, pn, one.counter, target)
      ensures Advance(one.chain.value, idx.n - one.counter) == Advance(s.chain.value, idx.n - s.counter)
    {
      AdvanceFrom(s.chain.value, 1, idx.n - s.counter);
    }
  }

  lemma {:induction false} SkipToMoves(s: Inbound, pn: U32, target: U32, maxSkip: nat)
    requires s.chain.Some? && s.counter <= target
    ensures var (t, ok) := SkipTo(s, pn, target, maxSkip);
            ok ==> Moved(s, t, pn, target)
    decreases target - s.counter
  {
    if s.counter < target && |s.skipped| < maxSkip {
      SkipToMoves(SkipOne(s, pn), pn, target, maxSkip);
      if SkipTo(s, pn, target, maxSkip).1 {
        MovedByOne(s, SkipTo(s, pn, target, maxSkip).0, pn, target);
      }
    }
  }

  // The receiver is `counter` messages into the chain starting at `chain`;
  // `got` are the positions already opened, every other position passed over
  // is buffered with its key, and nothing else is buffered under this ratchet
  // key.
  ghost predicate OnChain(s: Inbound, chain: Term, pub: PubKey, pn: U32, got: set<int>) {
    && s.chain == Some(Advance(chain, s.counter))
    && s.pub == pub
    && (forall n :: n in got ==> 0 <= n < s.counter)
    && (forall idx: ChainIndex :: idx.ratchet == pub ==>
         (idx in s.skipped <==> idx.pn == pn && idx.n < s.counter && idx.n !in got))
    && (forall idx: ChainIndex :: idx.ratchet == pub && idx in s.skipped ==>
         s.skipped[idx] == MessageKey(Advance(chain, idx.n)))
  }

  // The body was sealed with the key at position `counter` of the chain.
  ghost predicate SealedOn(env: Envelope, chain: Term, plain: Bytes) {
    env.body == Sealed(ExpandMessageKey(MessageKey(Advance(chain, env.counter))), env.ratchetPub, env.header, plain)
  }

  predicate RoomToOpen(s: Inbound, env: Envelope, maxSkip: nat) {
    IndexOf(env) in s.skipped || CanSkip(s, env.counter, maxSkip)
  }

  // What one successful open on a chain leaves behind.
  ghost predicate OpenedOnChain(s: Inbound, t: Inbound, env: Envelope, chain: Term, got: set<int>, maxSkip: nat) {
    && OnChain(t, chain, env.ratchetPub, env.prevCount, got + {env.counter})
    && |t.skipped| <= maxSkip
    && (forall idx: ChainIndex :: idx.ratchet != env.ratchetPub && idx in t.skipped ==> idx in s.skipped)
    && t.havePub == s.havePub
    && t.counter == if env.counter < s.counter then s.counter else env.counter + 1
  }

  // A buffered position: its key is taken out of the buffer.
  lemma OpensFromBuffer(s: Inbound, env: Envelope, chain: Term, got: set<int>, plain: Bytes, maxSkip: nat)
    requires OnChain(s, chain, env.ratchetPub, env.prevCount, got) && |s.skipped| <= maxSkip
    requires SealedOn(env, chain, plain)
    requires IndexOf(env) in s.skipped
    ensures var (t, outcome) := OpenInbound(s, env, maxSkip);
            outcome == Ok(plain) && OpenedOnChain(s, t, env, chain, got, maxSkip)
  {
  }

  // Which positions are buffered after moving up to `hi` and opening it.
  lemma BufferedAfterMove(s: Inbound, t: Inbound, chain: Term, pub: PubKey, pn: U32, got: set<int>, hi: U32)
    requires OnChain(s, chain, pub, pn, got) && s.counter <= hi
    requires Moved(s, t, pn, hi)
    ensures forall idx: ChainIndex :: idx.ratchet == pub ==>
              (idx in t.skipped <==> idx.pn == pn && idx.n < hi + 1 && idx.n !in got + {hi})
  {
  }

  lemma KeysAfterMove(s: Inbound, t: Inbound, chain: Term, pub: PubKey, pn: U32, got: set<int>, hi: U32)
    requires OnChain(s, chain, pub, pn, got) && s.counter <= hi
    requires Moved(s, t, pn, hi)
    ensures t.chain.value == Advance(chain, hi)
    ensures forall idx: ChainIndex :: idx.ratchet == pub && idx in t.skipped ==>
              t.skipped[idx] == MessageKey(Advance(chain, idx.n))
  {
    var lo := s.counter;
    AdvanceFrom(chain, lo, hi);
    forall idx: ChainIndex | idx.ratchet == pub && idx in t.skipped
      ensures t.skipped[idx] == MessageKey(Advance(chain, idx.n))
    {
      if InWindow(idx, pub, pn, lo, hi) {
        AdvanceFrom(chain, lo, idx.n);
      }
    }
  }

  // A position not yet reached: everything before it is buffered.
  lemma OpensAhead(s: Inbound, t: Inbound, env: Envelope, chain: Term, got: set<int>, maxSkip: nat)
    requires OnChain(s, chain, env.ratchetPub, env.prevCount, got)
    requires s.counter <= env.counter < U32_LIMIT - 1
    requires Moved(s, t, env.prevCount, env.counter)
    requires t.havePub == s.havePub && |t.skipped| <= maxSkip
    ensures var u := t.(chain := Some(NextChain(t.chain.value)), counter := Inc32(t.counter));
            OpenedOnChain(s, u, env, chain, got, maxSkip)
    ensures t.chain.value == Advance(chain, env.counter)
  {
    BufferedAfterMove(s, t, chain, env.ratchetPub, env.prevCount, got, env.counter);
    KeysAfterMove(s, t, chain, env.ratchetPub, env.prevCount, got, env.counter);
  }

  // An envelope of the current chain, not opened before, opens to its
  // plaintext exactly when the buffer has room, and the receiver stays on the
  // chain with that position marked.
  lemma OpensOnChain(s: Inbound, env: Envelope, chain: Term, got: set<int>, plain: Bytes, maxSkip: nat)
    requires OnChain(s, chain, env.ratchetPub, env.prevCount, got) && |s.skipped| <= maxSkip
    requires env.counter !in got && env.counter < U32_LIMIT - 1
    requires SealedOn(env, chain, plain)
    ensures var (t, outcome) := OpenInbound(s, env, maxSkip);
            && (outcome == Ok(plain) <==> RoomToOpen(s, env, maxSkip))
            && (RoomToOpen(s, env, maxSkip) ==> OpenedOnChain(s, t, env, chain, got, maxSkip))
  {
    if IndexOf(env) in s.skipped {
      OpensFromBuffer(s, env, chain, got, plain, maxSkip);
    } else {
      SkipToSize(s, env.prevCount, env.counter, maxSkip);
      SkipToMoves(s, env.prevCount, env.counter, maxSkip);
      SkipToKeepsChain(s, env.prevCount, env.counter, maxSkip);
      var (t, ok) := SkipTo(s, env.prevCount, env.counter, maxSkip);
      if ok {
        OpensAhead(s, t, env, chain, got, maxSkip);
      }
    }
  }

  lemma SubsetSize<T>(a: set<T>, b: set<T>)
    requires a <= b
    ensures |a| <= |b|
  {
    assert b == a + (b - a);
  }
}
