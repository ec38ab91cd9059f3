# BaturWhatsApi in Dafny

A model of the protocol engine of BaturWhatsApi, a Go client for the WhatsApp
Web protocol, with machine-checked proofs of what its layers promise together.
`dafny verify dfyconfig.toml` checks the whole project.

Code that only computes is a function. Code that updates an object is a class
whose methods are proved against functions of the old state, and the laws are
lemmas about those functions. Goroutines that share state are a state machine
whose steps are the critical sections of the source, and the laws hold for
every interleaving of steps. Cryptography is symbolic: Diffie-Hellman is an
unordered pair of keys, hashes and key derivations are free constructors,
authenticated encryption opens only with the key, nonce and associated data it
was sealed with. Fresh keys, mask keys, timeouts, failures and losses are
arguments or nondeterministic steps.

| layer | modules | main results |
|---|---|---|
| X3DH and Double Ratchet | `Symbolic`, `X3DH`, `KeyBytes`, `Ratchet`, `Chains`, `TwoParty`, `RatchetInvariant`, `RatchetIntroduction`, `RatchetDelivery`, `RatchetReplay`, `RatchetOnce`, `RatchetRestore` | exactly the two parties meant agree on a key, whose bytes are those of the key schedule; every delivered envelope opens to its plaintext despite loss and reordering; the parties are in step or one is one step ahead; the skip buffer is bounded; no ciphertext is accepted twice in the life of a session; saving and loading is invisible |
| Binary nodes | `Tokens`, `Nodes`, `NodeDecoding`, `NodeDecoder`, `NodeEncoding`, `NodeEncoder`, `NodeRoundTrip`, `NodeCanonical`, `NodeMeaning`, `NodePrefix`, `NodeSize` | every node reads back as its normal form, and as itself exactly if canonical; encodings are prefix-free; decoding is total and yields at most half as many nodes as bytes |
| Noise XX | `Noise`, `NoiseAgreement` | agreement, transcript binding as an equivalence, no nonce reuse |
| Session | `SecureChannel`, `ChannelDelivery`, `SessionDelivery`, `StateMachine`, `Lifecycle`, `LifecycleSafety`, `LifecycleShutdown`, `LifecycleStarts`, `LifecycleFailure`, `LifecycleEndings`, `LifecycleOnline`, `Requests`, `RequestDelivery` | what is opened is a prefix of what was sealed, and a frame is lost exactly if it was destroyed on the way; shutdown is absorbing, with the exact exception; a failed session is down until it is started again; each channel is closed at most once, with the exact condition; a request returns the first reply with its id, and every arrival is accounted for |
| Wire formats | `Protobuf`, `EnvelopeWire`, `WebSocket`, `WebSocketConn`, `Hkdf` | round trips with exact domains, fragment reassembly, output prefixes |
| Runtime | `EventBus`, `EventBusOrder`, `EventBusDelivery`, `EventBusSequence`, `SyncRunner` | an event reaches exactly the subscriptions collected for it; per-publisher order and conservation of events, and exactly when order holds across publishers; every page fetched exactly once over interrupted runs |

## Where the code and its comments differ

The model follows the code.

- events/bus.go:4 promises that a subscriber sees events in publish order. An
  event is numbered and enqueued in two steps, so two concurrent publishers can
  be seen in the opposite order (`EventBusSequence.PublishOrderCanInvert`). The
  promise holds per publisher. Across publishers it is certain for a
  subscription exactly as long as no event is numbered for it while another is
  still to be delivered to it (`EventBusSequence.OrderCertainExactlyWhenSerial`).
- session/session.go:742-743 says that a stopped session cannot be restarted. A
  Stop that runs between a Start's check of `stopped` and its Move leaves the
  machine in STARTING (`LifecycleShutdown.LateStartRun`). In every other case
  shutdown is absorbing.
- session/session.go:137 says that connReady is closed when the dial succeeds or
  fails; the code closes it on success only. A Start whose Move finds the machine
  already in STARTING, or in ERROR, is accepted and starts another connection
  task, which closes connReady and online again
  (`LifecycleStarts.TwoStartsCloseOnlineTwice`). With one accepted Start each is
  closed at most once, and `LifecycleStarts.ClosedOnceExactly` gives the exact
  condition in general.
- session/session.go:716-721 reads `stopping`, which is never set; the reader
  therefore reports a transport failure also during Stop, and that can be the
  recorded cause. It is still the first cause, and the final state is not
  affected (`LifecycleShutdown.FirstCauseStays`,
  `LifecycleShutdown.ShutdownAbsorbs`).
- A message whose first WebSocket fragment is empty is refused at its first
  continuation, which section 5.4 of RFC 6455 does not ask for
  (`WebSocket.MessageDelivers`).
- The initiator's signer is not part of the saved ratchet, so a session saved
  before its first envelope introduces itself without a certificate
  (`RatchetRestore.RestoreIsInvisible`).

## Model

| member | source | states |
|---|---|---|
| `X3DH.Agreement` | security/e2e/e2e.go:169-282 | a published bundle verifies, the recipient derives, and both sides derive the same root and chain key if and only if the one-time prekey mixed in is the responder's, or neither side used one |
| `X3DH.OnlyTheRecipientAgrees` | security/e2e/e2e.go:246-284 | whoever derives from the initiator's public keys agrees with it if and only if they hold the identity key and the signed prekey of the bundle, and the one-time prekey matches |
| `X3DH.OnlyTheSenderAgrees` | security/e2e/e2e.go:246-284 | the recipient agrees if and only if the identity key and the ephemeral key it was told of are the initiator's own and the info string is the same |
| `X3DH.RootIsNotChain` | security/e2e/e2e.go:276-284 | the root and the first chain key are never equal |
| `X3DH.TamperedBundleRefused` | security/e2e/e2e.go:188-208 | under the certificates an identity made, a bundle verifies if and only if it names that identity's signing key and carries exactly the identity key, the signed prekey and the prekey id that were signed |
| `KeyBytes.InitiatorBytes` | security/e2e/e2e.go:210-284 | root and chain key are the first and the second 32 bytes of HKDF with a zero salt over the identity-identity, ephemeral-prekey and identity-prekey secrets, in this order, and then the one-time secret or 32 zero bytes |
| `KeyBytes.RecipientBytes` | security/e2e/e2e.go:246-284 | the recipient's keys are the same bytes from the other halves of the keys |
| `KeyBytes.RatchetBytes` | security/e2e/e2e.go:293-303 | next root, new chain, message key and next chain are the HMACs under the old key with the labels 0x80, 0x07, 0x01 and 0x02, the first two over the new secret as well |
| `KeyBytes.MessageKeyBytes` | security/e2e/e2e.go:305-313 | the encryption key is the first 32 of the 44 bytes that HKDF gives under the fixed salt and info |
| `KeyBytes.MixKeyBytes` | security/noise/noise.go:148-157 | chaining key and cipher key are the first and the second half of the HKDF output under the old chaining key |
| `KeyBytes.SendKeysBytes` | security/noise/noise.go:174-183 | the transport keys are the two halves of the output for an empty secret, crossed by role |
| `Symbolic.DHAgreement` | security/e2e/e2e.go:79-88 | both holders of a key pair derive the same secret, and no other peer key gives it |
| `RatchetDelivery.EveryDeliveryOpens` | security/e2e/ratchet.go:232-348 | in every two-party run with loss and reordering inside chains, every delivery ever made returned the plaintext that was sent |
| `RatchetDelivery.OpensExactlyWhenItFits` | security/e2e/ratchet.go:276-348 | in every reachable state the next in-order envelope opens to its plaintext if and only if the keys it skips fit the buffer |
| `RatchetDelivery.PartiesStayInStep` | security/e2e/ratchet.go:209-229 | in every reachable state with two live sessions the roots are equal and one side receives on the other's sending chain, or exactly one side is exactly one root step ahead with a key the peer has not received |
| `RatchetDelivery.NoChainSkipped` | security/e2e/ratchet.go:293-323 | an in-order envelope is on the receiver's present chain or on the very next one, so no chain is passed over whole |
| `RatchetDelivery.RunKeepsSystem` | security/e2e/ratchet.go:171-348 | every state of every run satisfies the joint invariant of both sessions, the logs and the shared key history |
| `RatchetDelivery.OpenOnCurrentChain` | security/e2e/ratchet.go:326-348 | an envelope of the present chain opens if and only if it fits, and the buffer then holds exactly the keys passed over and not yet used |
| `RatchetDelivery.StepOntoNewChain` | security/e2e/ratchet.go:293-323 | a receiving step to the peer's next key reaches the peer's root and chain, with the rest of the old chain put away |
| `RatchetInvariant.SendOnLiveChain` | security/e2e/ratchet.go:232-265 | sending on a live chain keeps the joint invariant |
| `RatchetInvariant.SendOnNewChain` | security/e2e/ratchet.go:209-265 | sending that opens a chain adds one key to the shared history and keeps the joint invariant |
| `RatchetDelivery.DeliverFirstContact` | security/e2e/ratchet.go:381-435 | the first init envelope creates a session that agrees with the initiator and opens it |
| `RatchetIntroduction.ForeignCertificateRefused` | security/e2e/ratchet.go:381-408 | an init envelope is refused for its certificate if and only if it names another signing key or another identity key than the certificate was made with |
| `RatchetIntroduction.UncertifiedRefused` | security/e2e/ratchet.go:381-408 | an init envelope without a certificate is refused |
| `RatchetIntroduction.UnverifiedBundleRefused` | security/e2e/ratchet.go:171-186 | a session toward a bundle is refused as invalid if and only if the bundle does not verify |
| `RatchetIntroduction.OnlyTheAddresseeAccepts` | security/e2e/ratchet.go:381-436 | the first envelope of a session opens, and to its plaintext, for exactly the responder that holds the bundle's private keys, prekey id and one-time key, under the same context |
| `RatchetIntroduction.PartiesKnowEachOther` | security/e2e/ratchet.go:171-205 | in every state of every run the initiator's session holds its own and the bundle's identity, registration id and prekey id, and the responder's the initiator's keys and registration id and the one-time prekey that was picked |
| `Chains.OpensOnChain` | security/e2e/ratchet.go:326-348 | on a matching chain any envelope not yet used opens exactly if the keys before it fit, whichever order they arrive in |
| `Chains.SkipToMoves` | security/e2e/ratchet.go:335-343 | skipping moves the chain to the counter asked for and buffers the key of every counter passed |
| `Chains.SkipToSize` | security/e2e/ratchet.go:335-343 | skipping succeeds if and only if the buffer has room, and adds as many keys as counters passed |
| `RatchetReplay.BufferNeverOverflows` | security/e2e/ratchet.go:276-348 | after any sequence of calls, failed ones included, at most 1000 skipped keys are held |
| `RatchetOnce.AcceptedOnce` | security/e2e/ratchet.go:276-358 | in every run of a session, from its creation on and whatever it is fed, no two accepted envelopes have the same ciphertext; so an accepted envelope is never accepted again, with its own counters or any others, whether or not its ratchet key stays current |
| `RatchetOnce.InitAcceptedOnce` | security/e2e/ratchet.go:381-436 | the envelope that created a responder's session is never accepted by it again, with any counters |
| `RatchetOnce.DecryptOnce` | security/e2e/ratchet.go:276-348 | one Decrypt keeps every used or passed message key out of reach, and what it accepts was within reach before and is out of reach after |
| `RatchetReplay.ReplayIsTooOld` | security/e2e/ratchet.go:326-334 | in every run in which the envelope's ratchet key is never left for another, a replay is refused as too old, whatever came before and after |
| `RatchetReplay.InitReplayIsTooOld` | security/e2e/ratchet.go:326-334 | the same for the envelope that created a responder's session |
| `RatchetRestore.RestoreIsInvisible` | security/e2e/ratchet.go:440-554 | in every state a session can reach, saving and loading it gives a session with the same envelopes, plaintexts and errors on every later sequence of calls, if and only if it does not still owe its signed introduction |
| `RatchetRestore.LoadInvertsEnumeration` | security/e2e/ratchet.go:500-548 | in whatever order the skip map is listed, the list loads back into the same map |
| `RatchetRestore.IntroductionDiffers` | security/e2e/ratchet.go:246-274 | a session that still owes its introduction can always be told apart from one without its signer, also when it has no sending chain |
| `RatchetRestore.MarshalState` | security/e2e/ratchet.go:491-513 | the saved record holds every field of the session and some enumeration of its skip map |
| `RatchetRestore.RestoreRatchet` | security/e2e/ratchet.go:516-554 | the loaded session is the one the record describes, and other versions are refused |
| `Ratchet.StartSession` | security/e2e/ratchet.go:171-205 | a fresh object holding the initiator's state, or the error of the first check that fails |
| `Ratchet.AcceptSession` | security/e2e/ratchet.go:381-436 | a fresh object holding the responder's state after its first message has opened, with the plaintext, or the error of the first check that fails |
| `Ratchet.Session.EnsureChain` | security/e2e/ratchet.go:209-229 | the new state and the error are those of the sending-step function the laws are about |
| `Ratchet.Session.Seal` | security/e2e/ratchet.go:232-265 | the new state and the envelope are those of the encryption function the laws are about |
| `Ratchet.Session.Skip` | security/e2e/ratchet.go:335-343 | the skip loop computes the skipping function, whether it ends or runs out of room |
| `Ratchet.Session.Step` | security/e2e/ratchet.go:293-323 | the new state and the error are those of the receiving-step function the laws are about |
| `Ratchet.Session.OpenCurrent` | security/e2e/ratchet.go:326-348 | the new state and the plaintext are those of the opening function the laws are about |
| `Ratchet.Session.Open` | security/e2e/ratchet.go:276-290 | the new state and the plaintext are those of the decryption function the laws are about |
| `NodeRoundTrip.NodeReads` | protocol/binary/decoder.go:96-405 | reading any encodable node's bytes, whatever follows, gives its normal form and stops exactly at what follows, or fails if it has none |
| `NodeCanonical.ReadInvertsEncode` | protocol/binary/decoder.go:96-151 | reading a node's encoding followed by anything gives the node itself and stops there if and only if the node is canonical |
| `NodeCanonical.CanonicalNodeFixed` | protocol/binary/encoder.go:45-92 | the canonical nodes are exactly those equal to their normal form |
| `NodeCanonical.DecodeInvertsMarshal` | protocol/binary/decoder.go:447-461 | Decode inverts MarshalDict exactly on canonical nodes, and on any other encodable node gives its normal form |
| `NodeMeaning.AttributesArrive` | protocol/binary/encoder.go:78-141 | a node keeps its tag and exactly the attributes that are neither missing nor the empty text; a flag arrives as true or false and a number as a text that stands for it |
| `NodeMeaning.ChildrenArrive` | protocol/binary/encoder.go:112-116 | its children arrive in number and order, each as what it becomes by itself |
| `NodeMeaning.UnpackByFlag` | protocol/binary/decoder.go:422-444 | a payload is taken as it is if its flag is zero, inflated if the flag leaves 2 or 3 modulo 4, and refused otherwise |
| `NodeCanonical.StreamInvertsConcatenation` | protocol/binary/decoder.go:408-419 | DecodeStream gives back any sequence of canonical nodes from their concatenated encodings |
| `NodeCanonical.EncodingIsPrefixFree` | protocol/binary/encoder.go:45-68 | no canonical node's encoding is a proper prefix of another's, and equal encodings are of equal nodes |
| `NodePrefix.NodeExtends` | protocol/binary/decoder.go:96-151 | a successful read gives the same node and stops at the same place when bytes are appended |
| `NodePrefix.PrefixRejected` | protocol/binary/decoder.go:447-461 | every proper prefix and every proper extension of an accepted uncompressed payload is rejected |
| `NodeSize.NodeBound` | protocol/binary/decoder.go:96-262 | a read that consumed k bytes holds at most k/2 nodes, nested ones included |
| `NodeRoundTrip.StringReads` | protocol/binary/encoder.go:143-180 | a string comes back through whichever of single token, double token, nibble, hex or the three blob forms was chosen |
| `NodeRoundTrip.JidReads` | protocol/binary/encoder.go:182-207 | an address comes back with the fields its wire form stores, through all four forms |
| `Nodes.UnpackPack` | protocol/binary/decoder.go:264-324 | unpacking inverts packing for every packable string, odd lengths included |
| `NodeMeaning.PackedCharacters` | protocol/binary/encoder.go:224-261 | the characters a packed form takes are exactly those that come back, but for the filling byte of the nibble form |
| `NodeMeaning.DeviceAddressInjective` | protocol/binary/jid.go:44-60 | a device address determines the user, agent and device it was read from |
| `Nodes.ADJIDInverts` | protocol/binary/jid.go:44-86 | the device form keeps an address if and only if agent and integrator are zero and the device fits a byte |
| `Tokens.Build` | protocol/token/token.go:70-102 | the built indexes are exactly the last single slot and the first double slot of each token, and oversized tables are refused |
| `Tokens.SingleInverts` | protocol/token/token.go:114-134 | an indexed single token is found back at its index |
| `Tokens.DoubleInverts` | protocol/token/token.go:122-143 | an indexed double token is found back at its index |
| `NodeDecoder.Decoder.NodeAt` | protocol/binary/decoder.go:96-151 | from any position the reader returns what the reading function gives on the remaining bytes and moves the index to its rest; it terminates on every input |
| `NodeDecoder.Decoder.AttrsAt` | protocol/binary/decoder.go:124-142 | the attribute loop computes the attribute-reading function |
| `NodeDecoder.Decoder.StringlikeAt` | protocol/binary/decoder.go:155-170 | a string-like value is read as the function says |
| `NodeDecoder.Decoder.ContentAt` | protocol/binary/decoder.go:172-228 | every tag is dispatched as the function says, the step back of the index included |
| `NodeDecoder.Decoder.ListAt` | protocol/binary/decoder.go:245-262 | the child loop computes the list-reading function |
| `NodeDecoder.Decoder.JidAt` | protocol/binary/decoder.go:326-394 | the address readers compute the address-reading function |
| `NodeDecoder.Decoder.Packed` | protocol/binary/decoder.go:264-296 | its loop computes the unpacking function, with its errors |
| `NodeDecoder.DecodeStream` | protocol/binary/decoder.go:408-419 | the stream loop computes the stream-reading function |
| `NodeDecoder.DecodePayload` | protocol/binary/decoder.go:422-461 | the flag byte, the single node and trailing data are handled as the function says |
| `NodeEncoder.Encoder.WriteNode` | protocol/binary/encoder.go:45-68 | writing a node appends exactly its encoding, or records an error if it has none, and does nothing after an error |
| `NodeEncoder.Encoder.WriteAttrs` | protocol/binary/encoder.go:61-64 | the attribute loop appends the encodings of the keys and values in the order given |
| `NodeEncoder.Encoder.WriteValue` | protocol/binary/encoder.go:107-141 | a value of any dynamic type appends its encoding or records an error |
| `NodeEncoder.Encoder.WriteNodes` | protocol/binary/encoder.go:112-116 | the child loop appends the encodings of the children in order |
| `NodeEncoder.Encoder.StringBytes` | protocol/binary/encoder.go:143-162 | a string appends its shortest applicable form |
| `NodeEncoder.Encoder.JidBytes` | protocol/binary/encoder.go:182-207 | an address appends the form its server and device call for |
| `NodeEncoder.Encoder.Packed` | protocol/binary/encoder.go:209-222 | its loops append the packed form, with the odd flag and the padded last half |
| `NodeEncoder.CountableAttrs` | protocol/binary/encoder.go:78-91 | whatever the traversal order of the map, the result is the one sorted list of keys with a value to write |
| `NodeEncoder.IsPackable` | protocol/binary/encoder.go:224-261 | the loops decide which strings can be packed |
| `NodeEncoder.MarshalDict` | protocol/binary/encoder.go:275-297 | the payload is the flag byte and the node's encoding, or empty if it has none |
| `NodeEncoding.SortedUnique` | protocol/binary/encoder.go:90-91 | a sorted list of distinct keys is determined by its set, so encodings are deterministic |
| `NoiseAgreement.HonestRunAgrees` | security/noise/noise.go:254-406 | every message of an honest run is accepted; hash, chaining key, cipher key and counter are equal after the first, the second and the third message; each side learns the other's static key and payload; the transport keys are crossed and distinct |
| `NoiseAgreement.ClientAcceptsSameTranscript` | security/noise/noise.go:282-339 | whatever header and keys each side saw, the client accepts the server's message if and only if the transcripts are equal; otherwise its first decryption fails, unless the key it saw was unusable |
| `NoiseAgreement.ServerAcceptsSameTranscript` | security/noise/noise.go:343-375 | the server accepts a client's finish if and only if the symmetric states are equal and the client answered this server's key |
| `NoiseAgreement.NonceNeverRepeats` | security/noise/noise.go:129-156 | after any handshake operations, a party's boxes all have distinct key and counter if and only if it sealed at most 2^32 transport messages |
| `NoiseAgreement.HonestRunNonces` | security/noise/noise.go:70-76 | over both parties of an honest run, handshake and transport together, no key and counter are used twice, exactly as long as neither direction sealed more than 2^32 messages |
| `Noise.Handshake.constructor` | security/noise/noise.go:109-120 | the state starts from the protocol name, hashed unless it is 32 bytes long, with the header mixed in |
| `Noise.Handshake.Authenticate` | security/noise/noise.go:123-125 | data is mixed into the hash and nothing else changes |
| `Noise.Handshake.Encrypt` | security/noise/noise.go:129-134 | the box is sealed with the present key, counter and hash, then absorbed |
| `Noise.Handshake.Decrypt` | security/noise/noise.go:136-144 | only the matching box opens; the counter moves on also on failure, the hash only on success |
| `Noise.Handshake.MixKey` | security/noise/noise.go:148-157 | chaining key and cipher key become the two halves for the secret, and the counter starts again |
| `Noise.Handshake.SendKeys` | security/noise/noise.go:174-183 | the halves are oriented by role and the state is unchanged |
| `Noise.Cipher.Seal` | security/noise/noise.go:70-76 | the box carries the present counter, which moves on |
| `Noise.Cipher.Open` | security/noise/noise.go:79-88 | only the box for the present counter opens; the counter moves on either way |
| `Noise.XX.ClientHello1` | security/noise/noise.go:254-264 | state and result are those of the message function the laws are about |
| `Noise.XX.ServerHello1` | security/noise/noise.go:282-303 | state and result are those of the message function, also when a key is unusable half way |
| `Noise.XX.ConsumeServerHello` | security/noise/noise.go:317-339 | state and result are those of the message function, for each point of failure |
| `Noise.XX.WriteFinish` | security/noise/noise.go:343-354 | state and result are those of the message function |
| `Noise.XX.Accept` | security/noise/noise.go:357-375 | state and result are those of the message function, for each point of failure |
| `Noise.XX.SendCipher` | security/noise/noise.go:397-406 | two fresh ciphers at counter zero with the party's send and receive keys, only after the handshake is done |
| `SecureChannel.OpenedIsPrefixOfSealed` | session/session.go:538-553 | for every interleaving of senders, failed sends, lost frames and queue overflow with at most 2^32 frames: what the peer opens is a prefix of what was sealed and never passes a lost frame; sealed = opened + in flight + lost + refused; with nothing lost the reader never fails and opened followed by in flight is exactly what was sealed |
| `SessionDelivery.NodesArriveInOrder` | session/session.go:538-553 | handshake, codec and channel together, in either direction and for any nodes: over every interleaving of Send calls, losses and overflows the peer dispatches what the first nodes sent become, in seal order; and what all of them become, once everything is read, exactly if nothing was lost |
| `SessionDelivery.BecomesItself` | session/session.go:673-685 | a node arrives as itself if and only if it can be encoded and is canonical |
| `SessionDelivery.HandshakeConnects` | session/session.go:486-492 | after an honest handshake both directions are fresh channels whose ends agree, under different keys |
| `SecureChannel.DrainedRunOpensEverything` | session/session.go:369-389 | once nothing is in flight, the peer has opened exactly what was sealed if and only if nothing was lost |
| `SecureChannel.OpensWhenDue` | session/session.go:658-687 | the oldest frame in flight opens if and only if its counter is the next one due |
| `ChannelDelivery.LostExactlyWhenDestroyed` | session/session.go:369-389 | in every run a frame is lost if and only if the wire lost it, its send failed, or it arrived while 64 frames were queued |
| `ChannelDelivery.LosslessRunOpensEverything` | session/session.go:658-687 | in a run that destroys no frame nothing is lost and the peer never fails, and once nothing is in flight it has opened exactly what was sealed |
| `ChannelDelivery.EverySendCanArrive` | session/session.go:538-553 | from every reachable state in which nothing was lost, a waiting Send can go on, without any loss, to be sealed last and opened by the peer |
| `ChannelDelivery.SealedIsWhatWasSent` | session/session.go:538-553 | what each sender has sealed is exactly what it was called with, in order and once each, but for a call that has not sealed yet |
| `SecureChannel.StepKeeps` | session/session.go:538-553 | every step keeps mutual exclusion, frame order, conservation and counter agreement |
| `LifecycleShutdown.ShutdownAbsorbs` | session/session.go:744-768 | for any number of Start and Stop calls: if the first Stop sets stopped while no Start is between its check and its Move, then in every interleaving the machine is STOPPING or STOPPED once Stop has moved it, and STOPPED once Stop has returned |
| `LifecycleShutdown.WindowEscapes` | session/session.go:265-278 | if some Start is in that window, some interleaving has the machine STARTING after Stop has returned, so the condition is exact |
| `LifecycleShutdown.LateStartRun` | session/session.go:265-278 | such a run exists from the initial state |
| `LifecycleShutdown.ClosedAtMostOnce` | session/session.go:694-740 | in every interleaving of any number of Start and Stop calls broken and stopC are each closed at most once |
| `LifecycleStarts.OneStartClosesOnce` | session/session.go:297-350 | in every interleaving in which at most one Start gets past its Move, connReady and online are each closed at most once |
| `LifecycleStarts.ClosedOnceExactly` | session/session.go:297-350 | in every reachable state, however the session goes on without another accepted Start: connReady will be closed at most once if and only if at most one close is made or pending; the same of online if the machine can still come to ONLINE, and with only the tasks at the point of announcing pending if it cannot |
| `LifecycleStarts.TwoStartsCloseOnlineTwice` | statemachine/statemachine.go:93-103 | two overlapping Start calls on a fresh session can close online twice |
| `LifecycleShutdown.FirstCauseStays` | session/session.go:694-714 | once broken is closed the recorded cause never changes |
| `LifecycleFailure.FirstFailureIsRecorded` | session/session.go:694-714 | the goroutine that finds broken open records its own cause, ErrStopped in a shutdown, and this is the cause from then on |
| `LifecycleFailure.FailedIsDown` | session/session.go:694-704 | in every interleaving a goroutine that records a failure leaves the machine in ERROR, or in STOPPING or STOPPED if it was there; and it stays in these three until a Start is accepted, so that a failed session is never reported ONLINE or DEGRADED |
| `LifecycleFailure.FailureShows` | session/session.go:694-704 | with at most one accepted Start, once a cause other than a shutdown is recorded the machine is in these three or a goroutine is about to move it there |
| `LifecycleFailure.ReportedMeansEnded` | session/session.go:299-307 | a connection task reports only after broken was closed and the stop was requested |
| `LifecycleFailure.StartIsNeverStuck` | session/session.go:282-295 | with at most one accepted Start, a waiting Start can return or its connection task can take a step |
| `LifecycleEndings.ReaderEnds` | session/session.go:369-389 | a frame reader that has ended has closed broken, and the machine is down unless its context is done |
| `LifecycleEndings.ConsumerEnds` | session/session.go:658-687 | a frame consumer ends when its context is done or the stop was requested, or after recording a failure |
| `LifecycleEndings.SilenceEnds` | session/session.go:408-413 | a keepalive loop that has found silence ends with broken closed and the machine down |
| `LifecycleEndings.BreakdownEnds` | session/session.go:299-307 | a connection task that exits with a failure under a live context has closed broken and left the machine down when it aborts and reports |
| `LifecycleEndings.ShutdownIsNoFailure` | session/session.go:353-365 | a task that watches a connection ended by a shutdown never gets to fail |
| `LifecycleEndings.StartReturns` | session/session.go:282-295 | a Start that waits returns when online is closed or the stop was requested |
| `LifecycleEndings.RefusedNeverAnnounces` | session/session.go:309-352 | a task whose dial, handshake or connect request failed never announces the session, and has closed broken when it ends |
| `LifecycleOnline.OnlineOnlyByTask` | session/session.go:343-350 | with one accepted Start the session comes to be ONLINE or DEGRADED only by the connection task's own Move, after its connect request |
| `LifecycleOnline.ConnectionIsRead` | session/session.go:335-342 | while a connection is in use, broken is closed, a frame reader is at work, or some goroutine is about to close broken |
| `LifecycleOnline.FramesAreConsumed` | session/session.go:335-342 | while a connection is in use its frames are consumed, until it breaks, the stop is requested or a context is cancelled |
| `LifecycleOnline.CancelReachesConnection` | session/session.go:280-365 | every goroutine of a connection runs under the context of some Start call, and cancelling that one reaches it |
| `LifecycleOnline.StopRequestIsCarriedOut` | session/session.go:724-740 | once the stop is requested, stopC is closed or the goroutine that requested it is about to close it |
| `LifecycleOnline.SilenceIsNoticed` | session/session.go:391-424 | a silent online session can come to be DEGRADED by its keepalive loop, and then ERROR with the loop's cause |
| `LifecycleOnline.AckRestores` | session/session.go:640-649 | an inband acknowledgement can bring a degraded session back to ONLINE |
| `LifecycleSafety.StepKeeps` | session/session.go:265-424 | every step of every goroutine keeps the invariant that says what has been closed, by whom, and what Stop has done |
| `LifecycleSafety.StoppingIsLegal` | statemachine/statemachine.go:43-54 | STOPPING is reachable from every state, so Stop never needs the forced move |
| `StateMachine.HistoryLeadsToState` | statemachine/statemachine.go:106-138 | after any moves and forces, the kept history has at most 64 entries and is a connected path of legal or forced transitions ending in the present state |
| `StateMachine.HistoryIsRecentJournal` | statemachine/statemachine.go:134-136 | trimming at every step keeps exactly the last 64 of all transitions ever made |
| `StateMachine.ShutdownExits` | statemachine/statemachine.go:43-54 | the only way out of STOPPING and STOPPED together is STOPPED to STARTING |
| `StateMachine.Machine.CanMove` | statemachine/statemachine.go:93-103 | the table scan decides legality |
| `StateMachine.Machine.Move` | statemachine/statemachine.go:106-120 | exactly the illegal moves are refused and change nothing; others are recorded unless they stay |
| `StateMachine.Machine.Force` | statemachine/statemachine.go:151-159 | any state is reached and the entry is marked as forced |
| `Requests.PendingIsExactlyInFlight` | session/session.go:556-595 | in every interleaving the pending map holds exactly one channel for each id in flight, that of the call with this id |
| `Requests.OnlyTheOwnerRemoves` | session/session.go:573-577 | an entry leaves the map exactly when the call that made it leaves, and is never replaced |
| `Requests.ReturnsItsOwnReply` | session/session.go:609-626 | a call that returns a node returns an iq result or error with its own id that arrived after it registered |
| `RequestDelivery.ReturnsTheFirstReply` | session/session.go:609-626 | in every interleaving a request that returns a node returns the first reply with its id since it registered |
| `RequestDelivery.ReceivesExactlyWhenReplied` | session/session.go:583-595 | a waiting request can receive at once if and only if a reply with its id has arrived since it registered and is no longer in the dispatcher's hands |
| `RequestDelivery.ReplyIsHandedOver` | session/session.go:615-626 | a reply that arrives while its request's channel is empty is put into that channel, and a further one changes no channel |
| `RequestDelivery.WaitingCanReturn` | session/session.go:583-595 | once a reply has arrived, a waiting request can always go on to return it |
| `RequestDelivery.EveryArrivalAccounted` | session/session.go:609-626 | each node that arrived was passed on as an event, is in the dispatcher's hands, is in the channel of a request, was returned or was discarded: exactly one of these |
| `RequestDelivery.PassedOnExactly` | session/session.go:609-626 | the nodes passed on as events are exactly those that are not replies to a request in flight, in the order they arrived |
| `RequestDelivery.DiscardedIsSuperseded` | session/session.go:620-624 | a node is discarded only if an earlier reply with the same id had arrived |
| `RequestDelivery.RegistersUnlessInFlight` | session/session.go:566-572 | a request registers if and only if no request in flight has its id, and otherwise returns at once |
| `RequestDelivery.OutcomeIsWhatHappened` | session/session.go:556-595 | a request returns a node exactly if it received one, and each failure exactly if that is what happened to it |
| `EventBusOrder.EverySubscription` | events/bus.go:185-274 | over all interleavings: queues stay within capacity, only matching events are enqueued, each publisher's events reach the handler in increasing order, enqueued = handled + in hand + queued + dropped, and a blocking subscription drops nothing |
| `EventBusDelivery.PublishReachesExactly` | events/bus.go:219-274 | the event a publisher numbers is put on the queue of every subscription it collected, or is still to be, unless the publisher gives up; and on no other queue, ever |
| `EventBusDelivery.RegisteredExactly` | events/bus.go:128-217 | a subscription is registered if and only if it was made and neither it was removed nor the bus closed; it has the pattern, the policy and the room asked for, at least one; its worker runs until it stops |
| `EventBusSequence.OrderCertainExactlyWhenSerial` | events/bus.go:219-274 | in every run during which no worker has stopped: it is certain at every point that the handler of a subscription sees events in the order of their numbers if and only if no event was numbered for it while another was still to be delivered to it |
| `EventBusSequence.SerialKeepsOrder` | events/bus.go:219-274 | such numbering is enough in every run, stopped workers or not |
| `EventBusSequence.OverlapCanInvert` | events/bus.go:239-272 | from every reachable state in which two publishers are still to deliver to one subscription, wherever they are and however full the queues, its handler can come to see either event first, unless a worker on their way has stopped |
| `EventBusSequence.PublishOrderCanInvert` | events/bus.go:4 | a run of two publishers in which a handler sees event 2 before event 1 |
| `EventBusOrder.StepKeeps` | events/bus.go:219-274 | every step keeps capacity, order, fate accounting and the aim of every publisher |
| `EventBus.MatchesMeans` | events/bus.go:153-183 | a family pattern takes exactly the names below its prefix, the star every name, any other pattern only its own name, and the bare family pattern only the empty name |
| `Protobuf.ParseInvertsBuild` | protocol/pb/pb.go:131-208 | Parse inverts Build if and only if every field number is below 2^29 |
| `Protobuf.ParseReads` | protocol/pb/pb.go:140-208 | every built message parses, to its fields with numbers modulo 2^29 |
| `Protobuf.ParseConcatenates` | protocol/pb/pb.go:162-208 | the parse of two concatenated messages that parse is the concatenation of their parses |
| `Protobuf.VarintInverts` | protocol/pb/pb.go:288-299 | every 64-bit value reads back from at most ten bytes, whatever follows |
| `Protobuf.ZigzagBijection` | protocol/pb/pb.go:302-311 | encoding and decoding invert each other at any width, and codes grow with magnitude |
| `Protobuf.AppendVarint` | protocol/pb/pb.go:288-294 | the loop appends the varint of the value |
| `Protobuf.AppendField` | protocol/pb/pb.go:140-159 | a field appends its key and payload bytes |
| `Protobuf.Builder.Add` | protocol/pb/pb.go:52-55 | the field is appended to the fields collected |
| `Protobuf.Builder.Build` | protocol/pb/pb.go:131-137 | the loop computes the message bytes |
| `Protobuf.ParseMessage` | protocol/pb/pb.go:162-208 | the loop computes the parse, with the error of the first bad field |
| `Protobuf.Lookup` | protocol/pb/pb.go:211-218 | the loop finds the first field with the number |
| `EnvelopeWire.ParseInvertsSerialize` | security/e2e/ratchet.go:58-115 | ParseEnvelope inverts Serialize if and only if the envelope is well formed |
| `EnvelopeWire.SerializeInjective` | security/e2e/ratchet.go:58-75 | well-formed envelopes with the same bytes are equal |
| `WebSocket.FrameReads` | transport/ws/ws.go:236-496 | a written frame reads back as itself through all three length forms, with any mask key and anything after it, exactly if it is at most 16 MiB, and is refused otherwise |
| `WebSocket.FrameLayout` | transport/ws/ws.go:236-278 | the bytes of a frame are laid out as section 5.2 of RFC 6455 says: final bit, zero bits and opcode; mask bit and length or the code of its form; the length in network order; mask key and payload |
| `WebSocket.StreamReads` | transport/ws/ws.go:442-496 | any sequence of frames up to 16 MiB reads back as the same sequence |
| `WebSocket.MessageDelivers` | transport/ws/ws.go:377-433 | a message, whole or fragmented with pings and pongs between, is delivered once as the concatenation of its fragments with every ping answered, exactly if its first fragment is not empty; otherwise the connection fails and nothing is delivered |
| `WebSocket.StreamDelivers` | transport/ws/ws.go:377-433 | a stream of messages is delivered in order, each once, if and only if every one of them is continuable |
| `WebSocket.WireDelivers` | transport/ws/ws.go:236-496 | from written bytes to delivered messages: the reader keeps running if and only if every message is continuable, and has then delivered them all in order |
| `WebSocket.MaskTwice` | transport/ws/ws.go:264-268 | masking twice with one key is the identity |
| `WebSocket.XorAt` | transport/ws/ws.go:264-268 | bit by bit, a byte masked differs from the byte exactly where the mask byte has a one |
| `WebSocket.XorIsUnique` | transport/ws/ws.go:264-268 | no other byte has these bits |
| `WebSocket.MaskAt` | transport/ws/ws.go:490-494 | byte i of a payload is masked with byte i modulo 4 of the key |
| `WebSocketConn.Conn.WriteFrame` | transport/ws/ws.go:236-278 | the bytes written are those of the finished frame, and a payload over 16 MiB is refused |
| `WebSocketConn.Conn.Read` | transport/ws/ws.go:442-496 | the frame or error is that of the reading function, and the input left is its rest |
| `WebSocketConn.Conn.AccumulateFrame` | transport/ws/ws.go:415-433 | the new partial message and the message to deliver are those of the merge function |
| `WebSocketConn.Conn.ReadLoop` | transport/ws/ws.go:377-412 | the loop ends in the state that routing every readable frame leads to |
| `Hkdf.Expand` | security/hkdf/hkdf.go:31-48 | for every length the output is the first bytes of T(1) to T(N) for the least sufficient N, or an error above 255 blocks; the byte counter is never used after wrapping |
| `Hkdf.OutputPrefix` | security/hkdf/hkdf.go:31-48 | a shorter output, made of fewer blocks, is a prefix of a longer one |
| `Hkdf.Derive` | security/hkdf/hkdf.go:51-53 | the output is that of expanding the extracted key |
| `Hkdf.FirstBlock` | security/hkdf/hkdf.go:20-53 | the first 32 bytes are the MAC of the info and the byte 1 under the MAC of the secret under the salt |
| `Hkdf.Keys` | security/hkdf/hkdf.go:57-63 | the two keys are the halves of one output of twice the size, refused exactly above the limit |
| `SyncRunner.ResumedRunsFetchOnce` | sync/sync.go:90-131 | for any sequence of runs on a fresh store, each cut short at any fetch: the last succeeds exactly if as many fetches succeeded in all as there are pages; then every page of every stage was fetched exactly once, in order, and each stage is complete with the total of its items; and every call of Fetch, failed ones included, asked for the first page not yet fetched |
| `SyncRunner.EndNeedsAllPages` | sync/sync.go:104-125 | the end of all stages is reached by exactly as many successful fetches as there are pages |
| `SyncRunner.RunsAddUp` | sync/sync.go:90-131 | where a sequence of runs leads depends only on how many fetches succeeded in all |
| `SyncRunner.CursorsDistinct` | sync/sync.go:104-125 | a finite deterministic source is never asked for the same cursor twice |
| `SyncRunner.Runner.Run` | sync/sync.go:90-131 | a run resumes at the stored position, ends where its successful fetches lead, succeeds exactly if that is the end, and calls no stage that was complete |
| `SyncRunner.Runner.RunStage` | sync/sync.go:103-126 | the page loop advances one page per successful fetch with the checkpoint saved, until the stage is complete or a fetch fails |
| `SyncRunner.Runner.LoadCheckpoint` | sync/sync.go:65-101 | an incomplete stage resumes at its stored cursor and item count, or fresh |

## Left out

- Real cryptography, randomness, JSON, base64, zlib and UTF-8 tables: library code, symbolic or abstract here; inflation is a parameter.
- `Noise`: the wrappers WriteHello, ReadHello and ClientFinish, which only combine modelled operations.
- Deliveries of an envelope of a retired chain after one of a newer chain: outside the runs of `TwoParty`; the code steps the ratchet on any key that is not current.
- `RatchetDelivery.EveryDeliveryOpens`: a sending chain holds fewer than 2^32 - 1 messages; the wrap of its counter is not modelled further.
- `RatchetReplay.ReplayIsTooOld`: a replay after counter 2^32 - 1 or after the ratchet key was left is refused too, but not always as too old; that it is refused is `RatchetOnce.AcceptedOnce`.
- `SecureChannel.OpenedIsPrefixOfSealed`: at most 2^32 frames; beyond that the counters repeat.
- `Lifecycle`: timers, emitted events and the socket are nondeterministic choices or omitted; what a second close of a channel does to the process is not modelled, only that it happens.
- `StateMachine.Machine.Move`: does not model the notification of watchers, which drops what does not fit.
- `StateMachine.Machine.Force`: does not model the notification of watchers either.
- `Requests`: the text rendering of attributes is taken as given; the node's own content is a number; which event a node passed on becomes, by its tag, is not modelled.
- `EventBus`: event times, the drop and panic callbacks, the counters of Stats and the 64-bit wrap of sequence numbers.
- `Protobuf`: fields with a wire type other than the four the builder produces, and the typed getters beyond unsigned numbers and bytes.
- `WebSocketConn.Conn.ReadLoop`: does not model write errors of a pong, close frames sent on shutdown, or the blocking of delivery.
- `SyncRunner.Runner.Run`: does not model ForceRestart, store errors or the 64-bit wrap of the item count; after a failed second save of the last page the code counts the stage again.
- `SyncRunner.Runner.RunStage`: does not model save errors, for the same reason.
- `SyncRunner.Runner.LoadCheckpoint`: does not model store and decoding errors, which end the run before any fetch.
- The text form of addresses: printing and parsing order agent and device differently, so there is no round trip.
- PKCS#7 padding, the encrypted header's bytes, certificates of security/wacert, storage adapters, the supervisor, history, HTTP API and command line: straight-line or easy members.
