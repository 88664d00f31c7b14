# Palagos: a verified model of the messaging core and its relay

Palagos is a two-party encrypted messaging core (signed handshake, Double Ratchet, replay window)
with a store-and-forward relay in between. This project models that core in Dafny and proves what
it promises over every run: two ratchets that stay in lockstep while sends cross, deliveries that
open to exactly what was sent, a bitmap that agrees with the set it stands for, a mailbox that keeps
order and loses nothing but where stated, byte formats that round-trip, and the parts put together.

`dafny verify dfyconfig.toml` checks everything.

## How it is built

| file | what it models |
|---|---|
| `Keys.dfy`, `Schedule.dfy` | symbolic keys, what can be derived from what; the common key schedule of a conversation |
| `Ratchet.dfy`, `RatchetCalls.dfy` | `pkg/crypto/ratchet.go` as class `Ratchet`, specified by functions on its fields; what single calls do, on every branch |
| `Lockstep.dfy`, `RatchetTheorems.dfy`, `SkippedCache.dfy` | two ratchets and two lossy ordered channels as a step system, and what follows from its invariant |
| `Deliveries.dfy`, `Secrecy.dfy` | exactly which deliveries find the right key; exactly what a stolen ratchet gives away |
| `Replay.dfy` | `pkg/protocol/replay.go`: the 64-bit bitmap and the set it stands for |
| `BigEndian.dfy`, `Packet.dfy`, `Framing.dfy`, `Pairing.dfy` | the byte formats |
| `Session.dfy`, `SessionCalls.dfy`, `Conversation.dfy`, `SessionTheorems.dfy` | `pkg/protocol/session.go`; what single calls do, on every branch and whatever arrives; two sessions talking |
| `Relay.dfy` | the mailbox operations of `pkg/server/server.go` and class `Server`, among other calls |
| `RelayRuns.dfy`, `RelayLoss.dfy`, `RelayIds.dfy`, `RelayOrder.dfy`, `RelayDeletes.dfy`, `RelayRetention.dfy` | the relay at lock granularity: any number of route and flush calls interleaved, with clock and sweep |
| `EndToEnd.dfy` | mailbox plus replay filter; packets over a stream; two sessions whose packets travel through the mailbox |

Where Go updates fields in place there is a class, and each method's postcondition equates the whole
new state and the result with a function of the old state; the theorems are about those functions.

## Idealisations

- HKDF is a free algebra of keys (`Master`, `Root`, `Chain`, `Next`, `Msg`): equal keys were derived
  the same way and nothing is read back out of a derived key (sections 2.2 and 2.3 of RFC 5869).
- A key pair is named by its 32-byte public key; a Diffie-Hellman secret is the set of the two public
  keys, hence symmetric (section 6.1 of RFC 7748). Generated keys are unlike all earlier ones.
- AEAD, signatures and fingerprints are arbitrary functions on bytes. Assumed are only that opening
  undoes sealing (section 2.8 of RFC 8439) and that verification accepts what was signed (sections
  5.1.6 and 5.1.7 of RFC 8032). That a wrong pairing PIN fails needs the converse for the AEAD, which
  `Pairing.OpensExactlyUnderThePin` names as its precondition.
- Random keys and nonces, the clock and the outcome of each network send are parameters.
- `int` is 64 bits wide; uint16, uint32 and uint64 wrap-around is written out wherever it occurs.

## Where the code does not keep a promise

Each has a concrete witness or an exact condition among the theorems.

- The final delete of `DeliverMailbox` also removes what was enqueued while it was sending. It keeps
  every packet accounted for if and only if whatever was enqueued since the snapshot has been sent by
  other flushes (`RelayDeletes.DeleteKeepsAllIffClean`); without overlapping flushes, if and only if
  nothing was enqueued (`RelayDeletes.DeleteKeepsAllIff`). `RelayLoss.DirtyDeleteLoses` is a lossy run,
  and its last state but one is reached under the conditions of both (`RelayDeletes.SomethingIsLate`).
- A packet sent directly overtakes what waits in the mailbox: the order is kept if and only if nothing
  there is unsent at that moment (`RelayOrder.DirectSendKeepsOrderIff`, and `RelayOrder.DirectSendOvertakes`
  where it is not).
- A failed flush can put packets into an entry younger than they are, and then they outlive the 72
  hours: if and only if one of them is older than the entry and the entry has not expired itself
  (`RelayRetention.RequeueBreaksBoundIff`). `RelayRetention.OrphanedRequeueOverstays` is such a run.
- `Unmarshal` adds in uint32: on a well-formed buffer of 4 GiB or more, and on no other, its slice
  expressions panic (`Packets.UnmarshalPanics`). Neither `Marshal` nor the framing produces one.
- `skippedKeys` is written and never read. A message that comes late finds another key tried, whatever
  sequence number comes with it, although its own may be cached (`Deliveries.LateThoughCached`, with
  the run `Deliveries.OneMessageComesLate`). `RatchetDecrypt` tries the right key if and only if the
  message was not passed yet and the skip loop stops at its place (`Deliveries.RightKeyExactly`). A
  late message of the current chain moves that chain on by at least one place; which pending messages
  still find their key is `Deliveries.LateMessageTakesAPlace`. One of an older chain takes the ratchet
  off the common key schedule for good (`Deliveries.LateMessageDerails`).
- The ratchet's message counter is a uint32. Given the counter of a message beyond its wrap, the skip
  loop finds the right key if and only if nothing was lost just before it or the wrap does not lie in
  between (`Lockstep.CounterReachesExactly`).
- The packet after sequence number 2^64 - 1 carries number 0, which every session rejects
  (`Conversation.SequenceExhaustion`).
- A refused send consumes a sequence number (`Conversation.RefusedSay`).
- A badly signed packet is refused, but its number moves the window if and only if it would have been
  admitted; it then shuts out exactly that number and those 64 or more behind it
  (`SessionCalls.BadlySignedPacket`).
- `Marshal` accepts payloads of 10 MB, the connection only packets of 10 MB: a packet passes if and
  only if its payload and 203 bytes fit (`EndToEnd.FramableExactly`); `EndToEnd.MarshalledButRefused`
  is one that is marshalled and then refused.
- `docs/threat-model.md:25` has a session healed as soon as the peer's next DH step is received. The
  peer's next generation is still within reach of the stolen state; what comes two generations later
  is not (`Schedules.MessageExposure`, `Secrecy.StolenStateHeals`).
- `docs/math.md:211` speaks of sequence numbers as a ring modulo 2^64; the window does not wrap.
- The comment at `pkg/crypto/ratchet.go:141` derives the nonce from the sequence number as well; the
  code draws all 24 bytes at random, and the model takes any nonce.

## Model

| member | source | states |
|---|---|---|
| Keys.DerivableIffTranscript | pkg/crypto/hkdf.go:51-96 | the structural notion of derivability is exactly what some finite transcript of HKDF runs reaches |
| Schedules.MessageKeyInjective | pkg/crypto/hkdf.go:63-96 | one message key belongs to one position of one generation of the key schedule |
| Schedules.MessageExposure | pkg/crypto/hkdf.go:59-62 | a state at generation g gives away exactly the unused rest of its two chains and the peer's next generation |
| Ratchets.Ratchet.Initiator | pkg/crypto/ratchet.go:48-76 | the initiator starts one root step ahead, with a sending chain and no receiving chain |
| Ratchets.Ratchet.Responder | pkg/crypto/ratchet.go:78-86 | the responder starts at the master secret with no peer key |
| Ratchets.Ratchet.NewRatchet | pkg/crypto/ratchet.go:43-87 | each refusal with its error, in the order of the checks; otherwise a new object in the specified start state |
| Ratchets.Ratchet.RatchetEncrypt | pkg/crypto/ratchet.go:90-158 | new state and result are those of the specification that Lockstep proves to stay on the schedule, on the refusal path too |
| Ratchets.Ratchet.FollowPeer | pkg/crypto/ratchet.go:177-214 | a known peer key changes nothing, a new one makes the two root steps of the specification |
| Ratchets.Ratchet.SkipMessageKeys | pkg/crypto/ratchet.go:216-227 | the loop ends and equals the recursive specification: chain advanced to the sequence, every key passed over cached |
| Ratchets.Ratchet.RatchetDecrypt | pkg/crypto/ratchet.go:161-245 | new state and result are those of the specification, with the state each failure leaves behind |
| RatchetCalls.NewStateExactly | pkg/crypto/ratchet.go:43-87 | in every case the first missing thing is refused, or every field of the start state |
| RatchetCalls.EncryptExactly | pkg/crypto/ratchet.go:90-158 | in every state: refused exactly without chain and peer key; otherwise the plaintext is sealed under the next key of the sending chain, or of a new one, with the caller's static or computed AAD |
| RatchetCalls.DecryptExactly | pkg/crypto/ratchet.go:161-245 | in every state: each refusal changes nothing; otherwise which key is tried, what opens under it, and every field afterwards |
| RatchetCalls.DecryptCaches | pkg/crypto/ratchet.go:216-227 | in every state: the cache gains exactly the places passed over, each under its label |
| RatchetCalls.SentComesOut | pkg/crypto/ratchet.go:90-245 | what a caller sends, with the AAD that caller passed, comes out at any later moment at which the message may be received |
| Lockstep.StartOk | pkg/crypto/ratchet.go:43-87 | two ratchets made from one master secret satisfy the lockstep invariant |
| Lockstep.CounterReachesExactly | pkg/crypto/ratchet.go:138-139 | the skip loop lands on the sender's position if and only if nothing was lost just before or the uint32 counter did not wrap in between |
| Lockstep.DhStepInStep | pkg/crypto/ratchet.go:178-214 | on a key one generation ahead, the two root steps land on the sender's chain and then one generation ahead of the sender |
| Lockstep.DoSendKeeps | pkg/crypto/ratchet.go:90-158 | a send at any moment keeps the lockstep invariant of both parties and both channels |
| Lockstep.DoReceiveKeeps | pkg/crypto/ratchet.go:161-245 | an in-order, possibly lossy delivery keeps the invariant and yields the plaintext that was sent |
| Lockstep.EveryRunStaysInLockstep | pkg/crypto/ratchet.go:56-245 | the invariant holds after every admissible run with crossing sends |
| RatchetTheorems.RootKeysInLockstep | pkg/crypto/ratchet.go:56-86 | in every reachable state generations differ by one, both root keys lie on one chain, a receiving chain is the peer's sending chain at a position the peer reached, and CKs is empty exactly when the peer key is nil |
| RatchetTheorems.EveryDeliveryOpens | pkg/crypto/ratchet.go:178-244 | over lossy order-preserving channels, every delivered message opens to its plaintext, across any number of DH steps |
| RatchetTheorems.RefusedSends | pkg/crypto/ratchet.go:94-97 | a send is refused exactly when a responder has received nothing, and changes nothing |
| RatchetTheorems.MessageKeysAreUnique | pkg/crypto/ratchet.go:128-139 | no two encryptions of a run, by one party or both, share a message key |
| Deliveries.RightKeyExactly | pkg/crypto/ratchet.go:177-239 | in every reachable state, for every message ever sent and every sequence number: the right key is tried if and only if the message was not passed and the skip loop stops at its place |
| Deliveries.OwnCounterFindsPending | pkg/crypto/ratchet.go:216-230 | with the counter RatchetEncrypt returned, below its wrap: if and only if the message was not passed |
| Deliveries.ZeroFindsNext | pkg/crypto/ratchet.go:216-230 | with sequence 0: if and only if it is the next of its chain or the first of a new one |
| Deliveries.LateThoughCached | pkg/crypto/ratchet.go:224-225 | a message passed over has its key in the cache, and RatchetDecrypt tries another whatever sequence number it is given |
| Deliveries.OneMessageComesLate | pkg/crypto/ratchet.go:216-227 | a run that passes a message over |
| Deliveries.LateMessageMovesChain | pkg/crypto/ratchet.go:229-236 | after a late message of the current chain, the root key is as it was and the chain stands one place beyond where the skip loop stopped |
| Deliveries.LateMessageTakesAPlace | pkg/crypto/ratchet.go:216-239 | after that, for every pending message and every sequence number: if and only if the skip loop, from the moved place on that chain or from the start of a new one, stops at its place |
| Deliveries.LateMessageDerails | pkg/crypto/ratchet.go:178-214 | after a late message of an older chain, root key and receiving chain lie on no continuation of the common schedule |
| Secrecy.StolenStateExposes | pkg/crypto/ratchet.go:128-136 | a stolen ratchet, its cache included, yields the key of no message its owner sent, and of an incoming one if and only if the owner has not passed it or passed over it within a chain |
| Secrecy.StolenStateHeals | pkg/crypto/ratchet.go:16-20 | two generations later, under any continuation, a stolen ratchet with its cache yields no message key |
| SkippedCache.SkipCaches | pkg/crypto/ratchet.go:216-227 | the skip loop adds exactly the slots it passes, each with its chain's key, and keeps all others |
| SkippedCache.CacheHoldsPassedOver | pkg/crypto/ratchet.go:216-236 | in every lossy in-order run the cache holds exactly the messages passed over within a chain, each under the key its sender used |
| Replay.ReplayWindow.CheckAndAdd | pkg/protocol/replay.go:43-79 | fields and verdict are those of the function that CheckBitsRefines ties to the plain set; a rejection changes nothing |
| Replay.CheckBitsRefines | pkg/protocol/replay.go:18-29 | one call admits a number if and only if it is nonzero, new and less than 64 behind the newest, and the new bitmap pictures the new set |
| Replay.EveryRunRefinesTheSet | pkg/protocol/replay.go:43-79 | after every run the bitmap pictures exactly the numbers accepted, maxSeq is their maximum, and no number was accepted twice |
| Replay.VerdictAfterAnyRun | pkg/protocol/replay.go:97-102 | the next verdict, from the history alone |
| Packets.Marshal | pkg/protocol/packet.go:39-62 | buffer filled at offsets equals the format; payloads above 10 MB are refused |
| Packets.SignedBytes | pkg/protocol/packet.go:113-126 | equals the encoding without its last 64 bytes |
| Packets.ComputeAAD | pkg/protocol/packet.go:100-110 | equals the first 111 bytes of the encoding |
| Packets.Layout | pkg/protocol/packet.go:44-59 | where each field lies in the encoding; AAD and signed bytes are its prefixes |
| BigEndian.BytesOfTwo | pkg/protocol/packet.go:45 | two-byte numbers are written and read most significant byte first |
| BigEndian.BytesOfFour | pkg/transport/transport.go:53-71 | so are four-byte numbers |
| BigEndian.HalvesOfEight | pkg/protocol/packet.go:48 | and eight-byte numbers |
| Packets.LayoutOfNumbers | pkg/protocol/packet.go:39-56 | the bytes of version, type and payload length in an encoding, and its total size |
| Packets.PacketVar.Unmarshal | pkg/protocol/packet.go:65-97 | fields and outcome for every buffer that does not panic, including the fields a rejected buffer has already overwritten |
| Packets.UnmarshalPanics | pkg/protocol/packet.go:84-94 | out-of-range slices occur if and only if the buffer is well-formed and has 4 GiB or more |
| Packets.UnmarshalRejects | pkg/protocol/packet.go:66-88 | for every rejected buffer, which check failed and which fields the receiver has taken by then |
| Packets.UnmarshalAccepts | pkg/protocol/packet.go:65-97 | below 4 GiB exactly the well-formed buffers are accepted |
| Packets.UnmarshalUndoesMarshal | pkg/protocol/packet.go:39-97 | decoding an encoded packet gives it back, whatever the receiver held before |
| Packets.MarshalUndoesUnmarshal | pkg/protocol/packet.go:65-97 | an accepted buffer re-encodes to itself |
| Packets.AadBindsHeader | pkg/protocol/packet.go:99-110 | equal AAD means equal header fields |
| Packets.SignatureBindsPacket | pkg/protocol/packet.go:112-126 | equal signed bytes mean packets equal but for the signature |
| Sessions.Session.constructor | pkg/protocol/session.go:24-32 | a new session is unestablished, in epoch 1, with an empty window |
| Sessions.Session.CreateHandshakeInit | pkg/protocol/session.go:40-78 | the init packet carries the new key, signed, inside a signed packet |
| Sessions.Session.ProcessHandshakeInit | pkg/protocol/session.go:81-170 | new state and answer for every packet, each refusal leaving the session as it was |
| Sessions.Session.CompleteInitiatorHandshake | pkg/protocol/session.go:173-221 | likewise for the response |
| Sessions.Session.EncryptMessage | pkg/protocol/session.go:224-262 | new state and packet are those of the specification, the counter spent even when the ratchet refuses |
| Sessions.Session.DecryptMessage | pkg/protocol/session.go:265-299 | new state and result are those of the specification, with what each failure leaves behind |
| SessionCalls.NewSessionRefuses | pkg/protocol/session.go:24-32 | a new session neither encrypts nor decrypts, and a refusal leaves it as it was |
| SessionCalls.HandshakeCarriesKey | pkg/protocol/session.go:49-75 | every field of a handshake packet: the new key in header and payload, signed, sequence 1, from the session to its peer |
| SessionCalls.RespondExactly | pkg/protocol/session.go:81-170 | answered exactly when both signatures verify; every field of answer and session, or the first failed check with nothing changed |
| SessionCalls.CompleteExactly | pkg/protocol/session.go:173-221 | likewise for the response |
| SessionCalls.EncryptMsgExactly | pkg/protocol/session.go:224-262 | an unestablished session is refused untouched, one that cannot send yet at the cost of a number; otherwise every field of the packet, its payload sealed under the next key with its own header as AAD, and the session afterwards |
| SessionCalls.DecryptMsgOpensIff | pkg/protocol/session.go:265-299 | a plaintext is returned if and only if the session is established, the number new, the signature good, and the packet opens to it under the key tried |
| SessionCalls.DecryptMsgRefuses | pkg/protocol/session.go:269-296 | the refusals in order, and what each leaves in window and ratchet |
| Conversation.HandshakeAgreement | pkg/protocol/session.go:40-221 | sessions naming each other complete, both derive one master secret, and their ratchets are a start of the lockstep system |
| Conversation.StartTalkIsHandshake | pkg/protocol/session.go:24-221 | the conversations studied are those of two new sessions after their handshake |
| Conversation.SayKeeps | pkg/protocol/session.go:224-262 | sending keeps the invariant of the conversation: ratchets in lockstep, packets carrying their messages, numbers rising, windows picturing what was heard |
| Conversation.FirstHearKeeps | pkg/protocol/session.go:265-299 | a first delivery keeps the invariant and returns the plaintext sent |
| Conversation.RepeatedHearRejected | pkg/protocol/session.go:273-276 | a repeat is rejected with session, ratchet and window unchanged |
| Conversation.EveryTalkStaysOk | pkg/protocol/session.go:224-299 | the invariant holds after every admissible interleaving |
| Conversation.NextMayBeHeard | pkg/protocol/session.go:283-293 | the first packet beyond those delivered can always be heard, so lossless order asks nothing else |
| Conversation.EveryDeliveryIsExact | pkg/protocol/session.go:224-299 | after an honest handshake, in every interleaving, with repeats at will and the rest of chains lost, each first delivery returns exactly the plaintext sent and each repeat changes nothing |
| Conversation.RefusedSay | pkg/protocol/session.go:232-249 | a send fails exactly when a responder has heard nothing, at the cost of one sequence number and nothing else |
| Conversation.SequenceExhaustion | pkg/protocol/session.go:232-238 | the packet after number 2^64 - 1 carries 0 and is rejected by every session |
| SessionTheorems.EveryTalkIsARatchetRun | pkg/protocol/session.go:224-299 | refinement: the two ratchets inside any conversation are in a state the ratchet system reaches, so all its theorems hold of sessions |
| SessionTheorems.EveryTalkCachesNothing | pkg/protocol/session.go:283-293 | because sessions pass sequence 0, a session that starts without skipped keys never gets any |
| SessionTheorems.HearsExactly | pkg/protocol/session.go:283-293 | of the packets not given to it yet, a session's ratchet tries the right key for the next of its chain and the first of a new one, and for no other |
| SessionTheorems.StolenSessionExposes | docs/threat-model.md:24-25 | in every conversation each packet is sealed under a key of its own; a stolen session yields the key of no packet it sent, and of one sent to it if and only if not yet passed |
| SessionTheorems.EveryPacketIsAddressed | pkg/protocol/session.go:234-241 | in every conversation each packet is a data packet from its sender's to its receiver's fingerprint |
| SessionCalls.AcceptsOnlySignedAndOnce | pkg/protocol/session.go:265-299 | whatever arrives in whatever order, what a session accepts is signed by its peer, no number is accepted twice, and each plaintext is what the packet opens to under the key tried and the packet's own header |
| SessionCalls.BadlySignedPacket | pkg/protocol/session.go:273-281 | a badly signed packet is refused; the window moves if and only if its number would have been admitted, and then shuts out exactly that number and those 64 or more behind |
| SessionCalls.EstablishedBySignedKey | pkg/protocol/session.go:81-221 | whatever handshake packet arrives, a session that becomes established took a key doubly signed by its peer and roots its keys in it; otherwise nothing changed |
| Relays.Server.EnqueueMailbox | pkg/server/server.go:167-174 | appends at the end, keeping an existing entry's timestamp |
| Relays.Server.RoutePacket | pkg/server/server.go:136-163 | the whole new state and what went out in each of the four cases: malformed, offline, sent, send failed; whatever other calls do while the lock is free |
| Relays.Server.PutBack | pkg/server/server.go:193-202 | the unsent tail goes before what the mailbox holds now |
| Relays.Server.DeliverMailbox | pkg/server/server.go:177-214 | what went out, in order, up to the failing index, and what becomes of the mailbox, whatever other calls do to it meanwhile |
| Relays.Server.EvictExpiredMailboxes | pkg/server/server.go:79-88 | whatever the iteration order, exactly the entries older than the cutoff are gone |
| RelayRuns.RoutingExactly | pkg/server/server.go:136-163 | a malformed packet changes nothing; any other goes out or, once, to the end of its recipient's mailbox, and no one else is concerned |
| RelayRuns.DeliveryExactly | pkg/server/server.go:177-214 | what was sent, what is back in the mailbox, and that no other mailbox or registration is concerned |
| RelayRuns.RouteCallIsItsStep | pkg/server/server.go:136-162 | a RoutePacket call that sends nothing is one step of the interleaved system |
| RelayRuns.RouteCallIsItsSteps | pkg/server/server.go:144-156 | one that sends directly is two, whatever other calls do between them |
| RelayRuns.DeliverCallIsItsStep | pkg/server/server.go:177-183 | a DeliverMailbox call that finds no mail is one step |
| RelayRuns.DeliverCallIsItsSteps | pkg/server/server.go:184-214 | one that finds mail is its steps, whatever other calls do between them, up to the failing send or the final delete |
| RelayRuns.OtherCallsAreTheirSteps | pkg/server/server.go:79-130 | registration and the sweep are one step each, and a send within a flush leaves the server's maps alone |
| RelayRuns.EveryRunIsIsolated | pkg/server/server.go:121-214 | in every interleaving each mailbox holds only packets addressed to it, and each packet leaves unmodified on a connection registered under its recipient |
| RelayLoss.EveryRunConserves | pkg/server/server.go:136-214 | in every interleaving each routed packet is sent, pending, evicted, held by a route call, or thrown away by a final delete |
| RelayLoss.CleanRunsLoseNothing | pkg/server/server.go:136-214 | when what was enqueued between a flush's snapshot and its final delete has been sent, above all when nothing was, no routed packet is lost |
| RelayLoss.FinalDeleteLoses | pkg/server/server.go:208-211 | in every interleaving, which pending packets a final delete loses: the late ones nobody has sent, evicted or in hand |
| RelayLoss.DirtyDeleteLoses | pkg/server/server.go:208-211 | a concrete run in which a packet is lost |
| RelayLoss.OfflineUntilRegistered | pkg/server/server.go:148-161 | after a failed direct send, until the recipient registers again, every packet for it goes to the end of its mailbox and none is sent directly |
| RelayIds.EveryRunIsPlaced | pkg/server/server.go:136-174 | in every interleaving a packet in the hands of a route call was neither sent nor enqueued, and whatever is in a mailbox or snapshot was enqueued at a known time |
| RelayDeletes.DeleteKeepsAllIffClean | pkg/server/server.go:208-211 | with overlapping flushes and failing direct sends, a final delete keeps every packet accounted for if and only if what was enqueued since the snapshot has all been sent |
| RelayDeletes.DeleteKeepsAllIff | pkg/server/server.go:208-211 | without overlapping flushes, if and only if nothing was enqueued since the snapshot |
| RelayDeletes.SomethingIsLate | pkg/server/server.go:148-154 | a run under both conditions in which a failed direct send enqueues a packet during the flush |
| FirstOccurrences.SendOne | pkg/server/server.go:189-206 | when two sources each bring what is new in order, an element sent by one leaves the other in order and complete |
| FirstOccurrences.SendMany | pkg/server/server.go:192-195 | an unsent tail put before a mailbox that still holds everything keeps the first occurrences in order and complete |
| RelayOrder.FirstOccurrencesInOrder | pkg/server/server.go:136-214 | whatever flushes overlap or fail at whatever index, and whatever is enqueued meanwhile or sent directly in its turn, first occurrences among sent then pending packets are the packets taken on, in order, and those among the sent are a prefix |
| RelayOrder.DirectSendKeepsOrderIff | pkg/server/server.go:144-148 | a direct send keeps that order if and only if nothing in the mailbox is unsent |
| RelayOrder.DirectSendOvertakes | pkg/server/server.go:144-148 | a run that comes to a direct send while the mailbox holds an unsent packet |
| RelayRetention.EveryRunIsDated | pkg/server/server.go:167-206 | an entry is no younger than any packet in it or falls to the next sweep, as long as no failed flush puts a packet into a younger entry that has not expired |
| RelayRetention.RequeueDatedIff | pkg/server/server.go:192-202 | a failed flush keeps that so if and only if nothing it puts back is older than the entry, or the entry has expired |
| RelayRetention.StillThereIsDated | pkg/server/server.go:194-195 | it does whenever the packets are still in the mailbox, as they are without interference |
| RelayRetention.RetentionBound | pkg/server/server.go:79-88 | after every sweep no packet enqueued more than 72 hours earlier remains, under the same condition |
| RelayRetention.StepKeepsMail | pkg/server/server.go:165-206 | an entry keeps its time of creation, a new one gets the clock, and no step but a final delete removes mail from an entry of at most 72 hours |
| RelayRetention.KeptFor72Hours | pkg/server/server.go:15-17 | in every run without a final delete of that mailbox, mail is there as long as its entry is at most 72 hours old |
| RelayRetention.RequeueBreaksBoundIff | pkg/server/server.go:192-202 | after a run that kept the bound, some sweep after a failed flush leaves an overdue packet if and only if one of the packets put back is older than the entry and the entry has not expired |
| RelayRetention.OrphanedRequeueOverstays | pkg/server/server.go:196-201 | a run in which a packet survives the sweep 73 hours on |
| Framing.FramedConn.SendPacket | pkg/transport/transport.go:48-63 | refuses more than 10 MB and writes nothing then; otherwise writes one frame, or as much of it as the connection takes before it fails |
| Framing.FramedConn.ReceivePacket | pkg/transport/transport.go:65-81 | the outcome and the rest of the stream for every stream, cut ones included |
| Framing.ReceiveExactly | pkg/transport/transport.go:65-81 | each outcome and the unread rest, from the bytes of the stream |
| Framing.ReceiveAllSound | pkg/transport/transport.go:65-81 | any stream is the frames of what is received from it, then bytes that begin no whole frame |
| Framing.FramingRoundTrip | pkg/transport/transport.go:49-81 | the frames of a list of packets parse to that list with nothing left over |
| Framing.CutStream | pkg/transport/transport.go:66-81 | a stream cut anywhere yields the packets wholly before the cut; the rest is the beginning of the next frame |
| Pairing.Marshal | pkg/identity/pairing.go:158-165 | salt, nonce and ciphertext in this order |
| Pairing.UnmarshalPairingPayload | pkg/identity/pairing.go:167-180 | splits every buffer of 28 bytes or more, refuses every shorter one |
| Pairing.UnpackUndoesPack | pkg/identity/pairing.go:158-180 | unmarshalling undoes marshalling |
| Pairing.PackUndoesUnpack | pkg/identity/pairing.go:158-180 | exactly the buffers of 28 bytes and more are taken, and marshalling gives them back |
| Pairing.SasSymmetric | pkg/identity/pairing.go:135-145 | both devices compute one code, whichever key sorts first |
| Pairing.LessAtFirstDifference | pkg/identity/pairing.go:139 | keys are ordered by the first byte that differs, then by length |
| Pairing.SasOfSortedKeys | pkg/identity/pairing.go:135-145 | the code is that of the pairing key followed by the smaller and then the larger public key |
| Pairing.SasBindsKeys | pkg/identity/pairing.go:135-145 | under one pairing key, two devices feed the digest the same bytes if and only if they name the same two public keys |
| Pairing.CodeShape | pkg/identity/pairing.go:152-155 | the code reads `ddd-ddd` and its digits spell the four digest bytes, big-endian, modulo a million |
| Pairing.PairingEndToEnd | pkg/identity/pairing.go:33-180 | create, marshal, unmarshal and open with the same PIN recovers key and alias, and both sides show one code |
| Pairing.CreateExactly | pkg/identity/pairing.go:33-73 | a PIN is refused if and only if it has fewer than 4 bytes; otherwise key and alias are sealed under PIN and salt, bound to the salt |
| Pairing.OpensWhatIsSealed | pkg/identity/pairing.go:76-112 | whatever was sealed that way opens; contents shorter than a key are refused |
| Pairing.OpenRefuses | pkg/identity/pairing.go:87-92 | authentication fails if and only if the ciphertext does not open under PIN and salt |
| EndToEnd.FilterKeepsFirstOccurrences | pkg/protocol/replay.go:43-79 | on a stream whose first occurrences rise, the window lets through exactly the first occurrences |
| EndToEnd.FilteredDeliveryIsExact | pkg/server/server.go:136-214 | with rising sequence numbers, through the mailbox or directly in turn, the recipient's window lets through each delivered packet once, in order, as a prefix of what the relay took on |
| EndToEnd.FramableExactly | pkg/transport/transport.go:50-52 | the connection takes a marshalled packet if and only if payload and 203 bytes are at most 10 MB |
| EndToEnd.MarshalledButRefused | pkg/protocol/packet.go:40-42 | a packet that Marshal accepts and the connection refuses |
| EndToEnd.PacketsOverAStream | pkg/transport/transport.go:48-81 | packets marshalled and framed are read back as a prefix from any prefix of the stream, and in full from all of it |
| EndToEnd.GivenIsHeard | pkg/protocol/session.go:265-299 | the packets a session was given in a run are precisely those it has heard |
| EndToEnd.RoutedToThePeer | pkg/server/server.go:136-142 | a session's data packet, marshalled, is routable and goes to its peer's fingerprint |
| EndToEnd.HandshakeRoutedToThePeer | pkg/protocol/session.go:59-68 | so are the handshake packets |
| EndToEnd.DeliveriesOpenInOrder | pkg/protocol/session.go:224-299 | two sessions over the relay: at every moment the next delivery is the next packet not yet heard and opens to its plaintext, or one heard before and is rejected |
| EndToEnd.NothingIsMissed | pkg/server/server.go:136-214 | once the mailbox is empty and all deliveries were given, precisely the packets the relay took on have been heard |

## Left out

- Adversarial networks: beyond `SessionCalls.AcceptsOnlySignedAndOnce` and `SessionCalls.EstablishedBySignedKey`, which hold for any input, the theorems are about honest runs under the stated channel conditions.
- Sessions.Session.CreateHandshakeInit: does not model the nil-pointer panic when the peer identity is missing; likewise `EncryptMessage`, `DecryptMessage` and `CompleteInitiatorHandshake`, which demand a peer identity of their callers.
- Packets.PacketVar.Unmarshal: is stated for calls that return; `Packets.UnmarshalPanics` says exactly which do not.
- RelayOrder.FirstOccurrencesInOrder: counts a packet as taken on when it is enqueued or directly sent, not when its route call begins; it is about runs in which the recipient's mailbox does not expire, no final delete loses a packet and direct sends overtake nothing.
- EndToEnd.DeliveriesOpenInOrder: takes packets that `Marshal` accepts, under the conditions of `RelayOrder.FirstOccurrencesInOrder`, with one sender for the recipient.
- Lockstep.EveryRunStaysInLockstep: leaves out deliveries with a counter at or beyond its wrap, because cached keys are labelled with the counter and labels recur; `Deliveries.RightKeyExactly` covers them for a single delivery.
- What a receiver makes of a stream that goes on after a half-written frame.
- X25519 results that are all zero and the errors they cause; failures of the random generator.
- Memory: `Zeroize` is modelled as fields being overwritten, slices by value, not by backing array (`append` may write behind `localId.PublicKey` in `CreatePairingPayload`).
- Mutexes inside `Ratchet`, `Session` and `ReplayWindow`: their methods are atomic here.
- `Ratchet.PN`, `ReplayWindow.Reset`, changes of `Session.Epoch` and a second handshake on one session: not exercised by the code that calls them.
- `AuthenticateClient` before the registration of the client, `VerifyServerIdentity`, the hourly ticker.
- `pkg/client`, `pkg/daemon`, `pkg/bridge`, `cmd`, the onion and Bluetooth transports: plumbing around the core.
