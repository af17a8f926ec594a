# Distin's signing engine, modelled and proved in Dafny

Distin signs transactions with keys that never exist in one place: operators hold shares, run FROST or
GG20 over an authenticated mesh, accuse a cheater by quorum, spend Bitcoin with the result, and a daemon
records signatures on Solana. This project models the parts of that engine where ordering, failure and
byte layout decide whether it is right, and proves what they promise. FROST, GG20, Ed25519, SHA-256 and
the curve are arbitrary functions throughout; nothing here is about secrecy.

`dafny verify dfyconfig.toml` checks everything.

## How it is organised

| files | part of the engine |
|---|---|
| `Bytes`, `Varint`, `Wire` | fixed-width integers, CompactSize and ULEB128, parsers as partial inverses |
| `Framing` | the item list that crosses between Go and Rust, in both implementations |
| `Transport`, `Network` | signed envelopes, frames on a stream, one operator's endpoint as a class |
| `FrostNet` | all operators together as a step system: n drivers, n endpoints, one FIFO link per ordered pair |
| `FrostInvariant` | what every step keeps, for any number of operators, any interleaving and any failures |
| `FrostTheorems`, `FrostEarly`, `FrostLive`, `FrostOutcome` | barrier, round skew, when a run can abort, termination, completion |
| `FrostSchemes` | signing and key generation as instances: same verdict everywhere, transposed delivery |
| `FrostDriver`, `FrostSigner`, `FrostDealer` | `collectRound`, the signing driver and the key-generation driver as loops and methods |
| `FrostRuns`, `FrostTraces` | both directions between methods and step system: a driver as one operator's part of a run, and every run as such a driver |
| `Fault`, `QuorumIndex` | fault reports, their quorum, and local party indices |
| `CoinSelect`, `Btc`, `BtcTx`, `LowS` | choosing coins, BIP-143 sighash, segwit serialization, low-S |
| `KeySet` | persistence of the key set |
| `Chain`, `Signerd` | the on-chain rules the daemon meets, and its poll loop with a failure possible at every call |

In the step system a step is one send on one link, one frame read off a link, one event taken by a driver
or one advance of a driver; deadlines, failed sends, crashes and failed FROST calls are further steps that
the environment may take at any time. The imperative modules carry the same rules as the Go and Rust code
does: `Network`'s methods are proved equal to the step system's endpoint functions, `CollectRound` to its
acceptance function, and the two drivers to `DriverEnd`, two collections each followed by one advance with
every collected map listed in full. What a method computes is also said without the functions it is compared
with: results, frames and log entries field by field in its `ensures`, byte layouts by independent readers.

`FrostTraces.RunsAreDriven` reads any run back: what an honest operator took in it, as events, leads the driver
to the operator's own lists and verdict, or to its own reason for giving up. `FrostTraces.GenuineDriverEnds` says
that on frames peers really send, whenever they arrive and whatever outsiders add, a driver that gets to its
barrier holds the verdict of the step system's theorems, and `FrostSigner.SigningReturnsTheVerdict` and
`FrostDealer.KeygenReturnsTheKey` say so of what the drivers return. In the other direction `FrostRuns.FirstHalfRuns`, `SecondHalfRuns` and
`BarrierRuns` make each part of a driver one operator's part of a run, with readers and other operators acting in
any way before each of its events.

## Where the code does not do what it is meant to

* Keygen and signing with three or more honest operators can abort: `collectRound` refuses the frame of a
  fast peer that is one round ahead. `FrostEarly.AbortFreeIff` shows that a configuration is free of such
  aborts exactly when it has at most two operators, with an explicit run for every larger one.
* `btc-send` adds in 64 bits. Inputs are amount, fee and change exactly when the total of the coins picked
  wraps as often as amount plus fee (`CoinSelect.ConservesIff`). For coins worth less than 2^64 together that
  is when amount plus fee does not wrap (`CoinSelect.BoundedConservesIff`), and for amount and fee that do not
  wrap it is when the first coins that cover them are worth less than 2^64 (`CoinSelect.CoverFitsIff`).
  `CoinSelect.WrappingIsAccepted` pays out more than it takes in, `CoinSelect.WrappingCoinsAreSpent` takes in
  2^64 more than it pays out. With nothing to pay the loop still takes one coin (`CoinSelect.MinimalIff`).
* The session is not length-prefixed in the bytes an envelope's signature covers. Two sessions can share
  signed bytes exactly when one extends the other by bytes that can pass for routing fields
  (`Transport.SessionsConfusableIff`). The four sessions that operators open are apart
  (`Transport.SessionsAreApart`); the name "frost-sign-bad" in a test extends one of them that way.
* `CollectFault` is documented to need `need` distinct honest operators, so that a minority cannot produce a
  bundle. It counts attester numbers, which are neither signed nor compared with registered keys, and
  `fault-verify` adds no such comparison: one key with one signature makes a quorum of any size
  (`Fault.OneKeyIsAQuorum`). Quorums of numbers are quorums of keys exactly on the lists in which no key signs
  under two numbers (`Fault.QuorumsAreKeysIff`). Where the caller first selects the attestations under the
  registered key of their number, the promise holds (`Fault.PinnedQuorum`, `Fault.FalseAccusation`).
* A fault report's numbers are reduced to 32 bits, so its digest says which statement is made only up to
  that (`Fault.PreimageDetermines`).
* `KeySet::from_bytes` refuses every truncated buffer, as documented, but ignores bytes behind a complete
  one (`KeySets.ReadsBack`).
* `id_to_u16` is documented to search a candidate range; it reads the low two bytes of the scalar
  (`Framing.IdReadBack`).
* Receipts outlive a cancelled request. If the requester uses its nonce again, the daemon takes the old
  receipts for the new request's and submits none (`Signerd.RecreatedIsStuck`). With nobody else sending, no
  number of passes changes that request (`Signerd.Run`, clause `Carries`); it becomes ready exactly when
  receipts of other operators bring its counters to the thresholds (`Signerd.StaleReceiptsIff`).
* A corrupt signer never takes the shares out of its inbox. With more than 256 peers some share, and the FIN
  behind it, never gets in, so that signer can only leave its barrier by the deadline
  (`FrostLive.CorruptNeverCloses`); with up to 256 it closes like the others (`FrostOutcome.FinalMeansDone`).

## Model

| member | source | states |
|---|---|---|
| FrostInvariant.StepPreserves | engine/kobe-ecdsa/net/network.go:379-503 | every step of every kind keeps the invariant: per ordered pair, what is on the link, in the inbox and already taken is one script in order; FINs seen match FINs sent; a reported disconnect has an operator that quit behind it |
| FrostInvariant.ReachableInv | engine/kobe-ecdsa/net/frost.go:96-267 | the invariant holds in every reachable state of every configuration, failures included |
| FrostInvariant.HeadFrame | engine/kobe-ecdsa/net/frost.go:58-70 | the envelope a collection looks at next is its sender's next unread round frame, unaltered |
| FrostInvariant.ClosedAfterFinished | engine/kobe-ecdsa/net/network.go:478-503 | whoever closed through the barrier had been told by every peer that it finished, so they all had |
| FrostInvariant.FinChannelHasRoom | engine/kobe-ecdsa/net/network.go:84-84 | the FIN channel never holds as many entries as its capacity |
| FrostInvariant.ListedIsView | engine/kobe-ecdsa/net/frost.go:217-249 | a collected map, listed in any order, numbered and framed, reaches FROST as the view it stands for |
| FrostInvariant.AdvancedOk | engine/kobe-ecdsa/net/frost.go:111-147 | a driver leaving a collection hands FROST exactly the round's packages, whatever order Go ranges over its map in |
| FrostTheorems.FinBarrier | engine/kobe-ecdsa/net/network.go:471-503 | once an operator has closed through the barrier, every peer has set `finished`, every honest peer has taken all its round frames, and only FINs may still be on its links |
| FrostTheorems.NoSpuriousDisconnect | engine/kobe-ecdsa/net/network.go:383-397 | while nobody failed or left the barrier early, no reader reports a disconnect |
| FrostTheorems.FinNeverDropped | engine/kobe-ecdsa/net/network.go:412-421 | the non-blocking send into the FIN channel always succeeds, even when peers fail |
| FrostTheorems.RoundSkew | engine/kobe-ecdsa/net/frost.go:49-78 | an honest operator is at most one round ahead of any other, for any number of operators |
| FrostTheorems.FramesAreCurrentOrNext | engine/kobe-ecdsa/net/frost.go:49-78 | every undelivered or queued round frame is of its honest receiver's round or the next |
| FrostTheorems.OnlyEarlyFramesRejected | engine/kobe-ecdsa/net/frost.go:61-69 | the only frame `collectRound` can refuse is a second-round frame in the first collection, from a peer already collected, while another peer is missing; the error is then a wrong tag |
| FrostTheorems.TwoNeverReject | engine/kobe-ecdsa/net/frost.go:61-69 | with two participants no frame is ever refused |
| FrostEarly.AbortFreeIff | engine/kobe-ecdsa/net/frost.go:49-69 | no run has a frame refused, if and only if there are at most two participants |
| FrostEarly.ThreeCanAbort | engine/kobe-ecdsa/net/frost.go:61-66 | for any three participants there is a run without deadlines or failures in which one of them aborts on a wrong tag |
| FrostLive.StepLowers | engine/kobe-ecdsa/net/frost.go:58-76 | every step lowers an explicit measure |
| FrostLive.RunsAreBounded | engine/kobe-ecdsa/net/frost.go:96-267 | no run is longer than the measure of its first state |
| FrostLive.Progress | engine/kobe-ecdsa/net/network.go:379-503 | no deadlock for any number of operators: while nobody quit and somebody is not done, some step other than a deadline or failure is enabled; a corrupt signer already in the barrier counts as not done only with up to 256 peers |
| FrostLive.CorruptNeverCloses | engine/kobe-ecdsa/net/network.go:412-433 | with more than 256 peers a corrupt signer, which leaves its peers' shares in its inbox, never passes its barrier |
| FrostOutcome.FirstFailure | engine/kobe-ecdsa/net/frost.go:55-78 | without deadlines and injected failures, the first thing to go wrong can only be an early frame |
| FrostOutcome.TwoNeverFail | engine/kobe-ecdsa/net/frost.go:186-267 | two participants whose FROST calls succeed: no run without injected failures has anybody abort |
| FrostOutcome.FinalMeansDone | engine/kobe-ecdsa/net/frost.go:251-266 | any number of operators: a run that stops with nobody having quit has closed every honest operator through the barrier, with the verdict on both complete views, and has a corrupt signer closed if and only if it has at most 256 peers |
| FrostOutcome.CalmRunsEnd | engine/kobe-ecdsa/net/frost.go:96-267 | every run without deadlines and injected failures can be continued to one that stops |
| FrostOutcome.TwoAlwaysFinish | engine/kobe-ecdsa/net/frost.go:186-267 | two participants: every such run is bounded in length and, where it stops, both have closed on their verdicts |
| FrostSchemes.SameVerdict | engine/kobe-ecdsa/net/frost.go:216-258 | every honest signer past both collections holds the verdict on one and the same pair of maps, all commitments and all broadcast shares, tampered ones included |
| FrostSchemes.SignersAgree | engine/kobe-ecdsa/net/frost.go:232-240 | any two honest signers that finish hold the same verdict and name the same culprit, if any |
| FrostSchemes.EveryoneNamesTheCulprit | engine/kobe-ecdsa/net/frost.go:251-256 | one tampered share among genuine ones: every honest signer that finishes names its sender by global index, given that the aggregation names the signer of a single bad share in this session |
| FrostSchemes.TamperedFlips | engine/kobe-ecdsa/net/frost.go:309-309 | the corrupt signer's share differs from the genuine one in the lowest bit of its first byte and nowhere else |
| FrostSchemes.CulpritIsNamedSomewhere | engine/kobe/src/ffi.rs:505-540 | that can be had from an aggregation that refuses undecodable packages and shares without a name: a session run to its end in which the honest signer names the other |
| FrostSchemes.TwoSignersFinish | engine/kobe-ecdsa/net/frost.go:260-266 | two honest signers: where an undisturbed run stops, exactly the aggregator holds the signature |
| FrostSchemes.RoutedDelivers | engine/kobe-ecdsa/net/frost.go:125-135 | through Rust's framing, Go's decoding and the shift from identifier to index, each package reaches the operator it names |
| FrostSchemes.Transpose | engine/kobe-ecdsa/net/frost.go:96-150 | in every run in which operator j completes, its third part received exactly the package every other operator dealt to j, under that operator's number |
| FrostSchemes.TwoDealersFinish | engine/kobe-ecdsa/net/frost.go:96-155 | two operators: an undisturbed key generation that stops has delivered both shares |
| FrostDriver.CollectRound | engine/kobe-ecdsa/net/frost.go:55-78 | returns everybody's payload if and only if the first events are one frame of each wanted peer with the round's tag; otherwise gives up at the first bad event, saying wrong sender, wrong tag, duplicate or transport error in that order of checks, or at the deadline |
| FrostDriver.ItemsOf | engine/kobe-ecdsa/net/frost.go:115-118 | one item for every entry of a map, in whatever order the map was ranged over |
| FrostSigner.RunFrostSign | engine/kobe-ecdsa/net/frost.go:186-267 | the whole driver, with FROST calls and sends that may fail: undisturbed, the signature of the one aggregation comes out at the aggregator, nothing at the others, and a named culprit at everybody by its index; anything but an abort needs both calls, both broadcasts and two rounds complete from the peers alone, and then exactly commitment, share and FIN are on every connection; in general it returns what two collections and two advances of the step system's driver end with on the same frames, every collected package listed once |
| FrostSigner.SameFrames | engine/kobe-ecdsa/net/frost.go:203-229 | the envelopes the signing endpoint seals for commitment, share and FIN are the ones the step system's driver writes |
| FrostDealer.SendPackages | engine/kobe-ecdsa/net/frost.go:129-135 | sends item by item and fails exactly when some destination cannot be reached |
| FrostDealer.DispatchAddresses | engine/kobe-ecdsa/net/frost.go:129-135 | items with different identifiers put one frame on each connection they name and nothing elsewhere |
| FrostDealer.PackagesCross | engine/kobe/src/ffi.rs:275-285 | the packages Rust frames in ascending order decode to themselves, each identifier once |
| FrostDealer.RunFrostKeygen | engine/kobe-ecdsa/net/frost.go:96-156 | the whole driver, with FROST calls and sends that may fail: undisturbed, part three's key package on the packages dealt to this operator comes out; a key package needs part one, the broadcast and two rounds complete from the peers alone, and then one first-round frame to everybody, each package to the one operator it was dealt to, and the FIN are on the connections; in general it returns what the step system's driver ends with, every collected package listed once |
| FrostDealer.RoutedToPeers | engine/kobe-ecdsa/net/frost.go:125-135 | what FROST deals goes to every peer and to nobody else |
| FrostDealer.SameKeygenFrames | engine/kobe-ecdsa/net/frost.go:98-135 | the envelopes the key-generation endpoint seals for first round, each package and FIN are the ones the step system's driver writes |
| FrostRuns.CollectRuns | engine/kobe-ecdsa/net/frost.go:55-78 | however its frames arrive, a collection is a run of `Take`, `TakeErr` and `Timeout` steps between the arrivals, with the same outcome |
| FrostRuns.FirstHalfRuns | engine/kobe-ecdsa/net/frost.go:186-229 | up to its second send a driver is its operator's part of a run, with anything happening before each event: it fails there with the same reason, or stands where the driver stands |
| FrostRuns.SecondHalfRuns | engine/kobe-ecdsa/net/frost.go:229-258 | the same from the second send to the barrier |
| FrostRuns.BarrierRuns | engine/kobe-ecdsa/net/network.go:478-503 | the barrier on the FINs in the channel is such a run too, full exactly when they come from as many operators as there are peers |
| FrostTraces.RunsAreDriven | engine/kobe-ecdsa/net/frost.go:96-267 | in every run, the frames an honest operator took are its peers' round frames and lead the driver to exactly that operator's lists and verdict if it reached the barrier, and to its reason if it gave up otherwise than by a failed call or send |
| FrostTraces.GenuineDriverEnds | engine/kobe-ecdsa/net/frost.go:186-267 | on frames that peers send, in any order and mixed with anything from outsiders, an honest driver that reaches its barrier holds the verdict on both complete views |
| FrostTraces.UndisturbedEnd | engine/kobe-ecdsa/net/frost.go:186-267 | a driver whose calls and sends work and whose rounds bring every peer's frame reaches the barrier with the verdict on both complete views, unless that is a refusal |
| FrostSigner.SigningReturnsTheVerdict | engine/kobe-ecdsa/net/frost.go:186-267 | on such frames, whatever is listed in whatever order and whichever calls and sends fail, the signing driver returns an abort or the verdict on everyone's commitments and everyone's broadcast shares; it aborts only if it gave up before the barrier |
| FrostDealer.KeygenReturnsTheKey | engine/kobe-ecdsa/net/frost.go:96-156 | and a key package the key-generation driver returns is part three's on the packages every other operator dealt to this one |
| Network.Network.constructor | engine/kobe-ecdsa/net/network.go:63-87 | a new endpoint has every listed operator but itself as peer and nothing queued |
| Network.Network.Register | engine/kobe-ecdsa/net/network.go:366-373 | a verified connection replaces any other to that peer and gets its own read loop |
| Network.Network.RaiseError | engine/kobe-ecdsa/net/network.go:119-124 | a full error channel of eight drops the error, the step system's `Raise` |
| Network.Network.ReadLoopOnce | engine/kobe-ecdsa/net/network.go:379-433 | a frame from this peer, of this session and with a valid signature joins the inbox, which blocks at 256, or the FIN channel, and changes nothing else; any failed check or a disconnect ends the loop, with an error unless this operator has finished; all as the step system says |
| Network.Network.Broadcast | engine/kobe-ecdsa/net/network.go:438-454 | succeeds exactly when no connection is down, and then every connection carries one more frame; otherwise none carries more than one and the failed one none |
| Network.Network.SendTo | engine/kobe-ecdsa/net/network.go:458-469 | one more frame on exactly the named connection, or an error and no change |
| Network.Network.Fin | engine/kobe-ecdsa/net/network.go:478-503 | sets `finished`, announces it on every connection that takes it, and is full exactly when enough different peers announced themselves, which is every connected one |
| Framing.EncodeFrostItems | engine/kobe-ecdsa/net/frost_ffi.go:85-98 | the Go encoder computes the one encoding |
| Framing.DecodeFrostItems | engine/kobe-ecdsa/net/frost_ffi.go:100-121 | the Go decoder computes the one decoding, refusals included |
| Framing.EncodeItems | engine/kobe/src/ffi.rs:143-152 | the Rust encoder computes the same encoding |
| Framing.DecodeItems | engine/kobe/src/ffi.rs:154-175 | the Rust decoder computes the same decoding on every buffer |
| Framing.RoundTripIff | engine/kobe-ecdsa/net/frost_ffi.go:85-121 | decoding inverts encoding if and only if count and lengths fit their fields |
| Framing.Layout | engine/kobe-ecdsa/net/frost_ffi.go:85-98 | where count, identifier, length and body of every item lie, big-endian, two, two and four bytes wide |
| Framing.AcceptedStartsWithEncoding | engine/kobe-ecdsa/net/frost_ffi.go:100-121 | whatever is accepted starts with the one encoding of its result |
| Framing.OverflowKeepsFirst | engine/kobe-ecdsa/net/frost_ffi.go:88-88 | with too many items the count wraps and only the first ones come back |
| Framing.ToMapEntries | engine/kobe/src/ffi.rs:419-424 | the map built from items with different identifiers has exactly their entries |
| Framing.OrderDoesNotMatter | engine/kobe/src/ffi.rs:414-426 | permuting such items leaves the map unchanged |
| Framing.ReceivedIsSent | engine/kobe/src/ffi.rs:414-426 | a map arrives unchanged across the boundary in whatever order it was listed |
| Framing.IdReadBack | engine/kobe/src/ffi.rs:572-583 | an identifier made from a participant number is read back as that number modulo 2^16 |
| Transport.WriteSigningBytes | engine/kobe-ecdsa/net/transport.go:71-91 | the buffer grown field by field is the signed byte string |
| Transport.SigningLayout | engine/kobe-ecdsa/net/transport.go:67-91 | session first, then from and to in four bytes each, one byte per flag, and the payload behind them |
| Transport.SigningBytesDetermine | engine/kobe-ecdsa/net/transport.go:67-91 | within sessions of one length the signed bytes determine session, from, to (-1 included), both flags and payload |
| Transport.SessionsConfusableIff | engine/kobe-ecdsa/net/transport.go:67-91 | two different sessions have messages with the same signed bytes if and only if one extends the other by bytes that can be read as routing fields |
| Transport.AcceptedIsSigned | engine/kobe-ecdsa/net/transport.go:93-102 | a frame that verifies with another envelope's signature is that envelope, or the signature is valid for two messages |
| Transport.SessionsAreApart | engine/kobe-ecdsa/cmd/frost-operator/main.go:86-166 | the sessions operators open cannot be confused pairwise, one with "-bad" behind it could |
| Transport.WriteFrame | engine/kobe-ecdsa/net/transport.go:106-118 | appends the length in four bytes, big-endian, and the message |
| Transport.ReadFrame | engine/kobe-ecdsa/net/transport.go:124-142 | reads the message behind a big-endian length of 1 to 2^24, or fails the way the code does: clean end, short read, bad length, malformed |
| Transport.ReadAll | engine/kobe-ecdsa/net/network.go:379-400 | frame after frame until the first that fails, the sequence `Transport.CutStream` is about |
| Transport.FrameRoundTripIff | engine/kobe-ecdsa/net/transport.go:106-142 | a written frame is read back, with the stream right behind it, if and only if its size is allowed |
| Transport.CutStream | engine/kobe-ecdsa/net/transport.go:124-142 | a stream cut at any byte delivers exactly the frames that arrived whole, in order, and says how it ended |
| Fault.Digest32 | engine/kobe-ecdsa/net/fault.go:89-115 | the digest is the hash of the specified preimage |
| Fault.ReportReadsBack | engine/kobe-ecdsa/net/fault.go:83-103 | an independent reader takes session, message hash, round, culprit and key back out of the preimage in this order, numbers modulo 2^32 |
| Fault.FrostReportReadsBack | engine/kobe-ecdsa/net/fault.go:117-132 | a FROST report reads back with the FROST session, round 1001, and its own message, culprit and key |
| Fault.PreimageDetermines | engine/kobe-ecdsa/net/fault.go:83-103 | two reports are hashed from the same bytes if and only if they make the same statement |
| Fault.DigestDetermines | engine/kobe-ecdsa/net/fault.go:83-103 | equal digests mean the same statement, or a hash collision is exhibited |
| Fault.SchemesNeverShare | engine/kobe-ecdsa/net/fault.go:36-51 | a FROST report and one of a GG20 session or of another round are never hashed from the same bytes |
| Fault.BySignerKeys | engine/kobe-ecdsa/net/fault.go:194-199 | a group holds one valid attestation per distinct non-self signer of its digest |
| Fault.CollectFault | engine/kobe-ecdsa/net/fault.go:175-211 | succeeds if and only if some digest has enough distinct attesters; every attestation it then returns has a 32-byte key, a 64-byte signature that verifies over that one digest, and an attester that is not the culprit, and of every attester with such an attestation the last one is returned, once |
| Fault.ValidOnesSucceed | engine/kobe-ecdsa/net/fault.go:175-211 | as many attestations as needed that verify over one digest, under different numbers and none by the culprit, are enough for success |
| Fault.SuccessIsMonotone | engine/kobe-ecdsa/net/fault.go:170-211 | only which attestations there are matters, not their order, and more of them never hurt |
| Fault.WinnerIsUnique | engine/kobe-ecdsa/net/fault.go:201-209 | with a majority threshold and nobody signing twice, only one digest can win, whatever order the map is ranged over in |
| Fault.SameAccused | engine/kobe-ecdsa/net/fault.go:170-211 | two collectors of the same attestations in different orders accuse the same operator, or a collision is exhibited |
| Fault.OneKeyIsAQuorum | engine/kobe-ecdsa/net/fault.go:185-199 | one key with one signature, filed under any number of attester numbers, makes a quorum of that size |
| Fault.QuorumsAreKeysIff | engine/kobe-ecdsa/net/fault.go:170-211 | every quorum drawn from a list has as many different keys, if and only if no key signs under two numbers in it |
| Fault.PinnedQuorum | engine/kobe-ecdsa/net/fault.go:153-168 | selected by registered keys, a list has a quorum if and only if as many registered operators' keys signed, and then that many different keys did |
| Fault.FalseAccusation | engine/kobe-ecdsa/net/fault.go:20-27 | selected by registered keys, an accusation no honest operator's key has signed gets no quorum out of fewer dishonest operators than the threshold, whatever else is on the list |
| QuorumIndex.QuorumPartyIds | engine/kobe-ecdsa/net/share.go:341-355 | the parties are those of the quorum members, each with its moniker and its index plus one as key, in ascending order of keys; every local index maps to the operator whose key it has; with the directory in order the map is the sorted quorum |
| QuorumIndex.StrictIff | engine/kobe-ecdsa/net/share.go:337-355 | the local order enumerates the quorum, strictly increasing if and only if nobody is listed twice |
| QuorumIndex.SameEverywhere | engine/kobe-ecdsa/net/operator.go:107-124 | listing the quorum in another order gives the same local indices |
| QuorumIndex.FaultFromTssError | engine/kobe-ecdsa/net/protocol.go:193-222 | reports a fault exactly when some culprit is named, each once, the first named first |
| QuorumIndex.ExactlyTheBlamed | engine/kobe-ecdsa/cmd/operator/main.go:176-228 | the de-duplicated local culprits stand for exactly the blamed operators, each once |
| CoinSelect.SortLargestFirst | engine/kobe-ecdsa/cmd/btc-send/main.go:71-71 | in place, a permutation in descending order |
| CoinSelect.PickUntil | engine/kobe-ecdsa/cmd/btc-send/main.go:72-85 | stops at the first coin after which the wrapped total reaches the need |
| CoinSelect.SelectCoins | engine/kobe-ecdsa/cmd/btc-send/main.go:57-94 | refuses exactly when the wrapped total is below the wrapped need; otherwise spends the first coins of the sorted list, txids byte-reversed and sequence final, pays the amount to the destination first and then a positive change to the payer, and nothing else; wrap-around included |
| CoinSelect.LargestAreBest | engine/kobe-ecdsa/cmd/btc-send/main.go:70-71 | no choice of coins is worth more than as many of the largest |
| CoinSelect.ConservesIff | engine/kobe-ecdsa/cmd/btc-send/main.go:91-94 | inputs equal amount, fee and change if and only if the picked total wraps as often as amount plus fee |
| CoinSelect.BoundedConservesIff | engine/kobe-ecdsa/cmd/btc-send/main.go:57-94 | for coins worth less than 2^64 together: if and only if amount plus fee does not wrap |
| CoinSelect.CoverFitsIff | engine/kobe-ecdsa/cmd/btc-send/main.go:57-94 | for amount and fee that do not wrap: if and only if the first coins that cover them are worth less than 2^64 |
| CoinSelect.MinimalIff | engine/kobe-ecdsa/cmd/btc-send/main.go:70-85 | for coins worth less than 2^64 together: no choice of fewer coins covers the need, if and only if there is something to cover or nothing to pick |
| CoinSelect.ChangeIsSmall | engine/kobe-ecdsa/cmd/btc-send/main.go:82-94 | for such coins and funds that cover amount and fee: the change is smaller than the last coin picked if and only if there is something to cover |
| CoinSelect.ExactAndMinimal | engine/kobe-ecdsa/cmd/btc-send/main.go:57-94 | for such coins as listed: exact sum, no coin too many, no choice of fewer |
| CoinSelect.WrappingIsAccepted | engine/kobe-ecdsa/cmd/btc-send/main.go:63-92 | an amount near 2^64 with the default fee is accepted and paid out of nothing |
| CoinSelect.WrappingCoinsAreSpent | engine/kobe-ecdsa/cmd/btc-send/main.go:57-92 | five coins whose total wraps, all spent on less than 2^64, with no change |
| Varint.CompactRoundTrip | engine/kobe-ecdsa/btc.go:203-223 | every 64-bit value is read back from its CompactSize, whatever follows |
| Varint.CompactShortest | engine/kobe-ecdsa/btc.go:203-223 | no other bytes a value can be read from are as short |
| Varint.Uleb128 | engine/coordinator/src/aptos_tx.rs:18-30 | the shifting loop ends and appends the ULEB128 code |
| Varint.BcsBytes | engine/coordinator/src/aptos_tx.rs:32-35 | appends length and bytes |
| Varint.UlebRoundTrip | engine/coordinator/src/aptos_tx.rs:18-30 | every value is read back, whatever follows |
| Varint.UlebShortest | engine/coordinator/src/aptos_tx.rs:18-30 | no other bytes a value can be read from are as short |
| Varint.UlebLength | engine/coordinator/src/aptos_tx.rs:18-30 | at most k bytes if and only if the value has at most k groups of seven bits |
| Varint.TenBytesSuffice | engine/coordinator/src/aptos_tx.rs:18-30 | one to ten bytes for a 64-bit value |
| Varint.StringsDecodeUniquely | engine/coordinator/src/aptos_tx.rs:32-35 | a list of strings is determined by its bytes under either length prefix |
| Btc.BtcSegwitSighash | engine/kobe-ecdsa/btc.go:128-199 | the three loops and the preimage buffer compute the double SHA-256 of the preimage that `BtcTx.SighashReadsBack` reads; an index out of range is refused |
| BtcTx.SighashReadsBack | engine/kobe-ecdsa/btc.go:117-199 | the 182 bytes taken apart at fixed offsets: version, double hashes of outpoints and sequences, the signed outpoint, 0x1976a914 key hash 0x88ac, value, sequence, double hash of the outputs, locktime, and 1, 0, 0, 0 |
| BtcTx.ListsReadBack | engine/kobe-ecdsa/btc.go:151-173 | the hashed strings read back entry by entry as the inputs' outpoints and sequences and as the outputs |
| Btc.SighashCommits | engine/kobe-ecdsa/btc.go:113-199 | equal digests: version, all outpoints, all sequences, all outputs, the signed input with its value, key hash and locktime agree, or a HASH256 collision among four named pairs of strings is exhibited |
| Btc.ListsDetermined | engine/kobe-ecdsa/btc.go:151-173 | the three concatenations determine outpoints, sequences and outputs, however many |
| BtcTx.SerializeSignedP2WPKHTx | engine/kobe-ecdsa/btc.go:304-355 | a wrong number of signatures is refused; otherwise an independent parser reads version, inputs with empty scripts, outputs, one signature and the key per witness, and locktime back, and the txid is the double SHA-256 of the bytes without marker, flag and witness |
| BtcTx.SegwitReadsBack | engine/kobe-ecdsa/btc.go:341-354 | an independent parser reads every serialized transaction back as it was |
| BtcTx.LegacyReadsBack | engine/kobe-ecdsa/btc.go:334-339 | with at least one input, the legacy bytes are told apart from segwit and read back |
| BtcTx.StripGivesLegacy | engine/kobe-ecdsa/btc.go:334-354 | deleting marker, flag and witness leaves exactly the bytes the txid is the hash of |
| BtcTx.BroadcastIsFaithful | engine/kobe-ecdsa/btc.go:304-355 | both, for the transaction the program broadcasts, any inputs, outputs and signatures |
| LowS.EncodeBtcDERSignature | engine/kobe-ecdsa/btc.go:233-247 | refuses what overflows the order, r first, and otherwise encodes r with the low form of s and the byte 1 |
| LowS.LowIsCanonical | engine/kobe-ecdsa/btc.go:229-244 | of a scalar and its negative exactly one is low; two scalars are encoded alike if and only if they are equal or negatives |
| LowS.Secp256k1IsCanonical | engine/kobe-ecdsa/btc.go:229-244 | the same at the order of secp256k1, and the low form is not zero |
| LowS.LowVerifiesTheSame | engine/kobe-ecdsa/btc.go:241-268 | ECDSA verification accepts the low form if and only if it accepts the original |
| KeySets.ToBytes | engine/kobe/src/lib.rs:213-229 | the growing buffer is the specified encoding; a package that cannot be serialized is an error |
| KeySets.Layout | engine/kobe/src/lib.rs:213-229 | maximum and minimum in two bytes each, little-endian, then the public package and the key packages from 1 upwards, each behind its length in four bytes |
| KeySets.FromBytes | engine/kobe/src/lib.rs:234-259 | the cursor and the loop compute the specified parser |
| KeySets.ReadsBack | engine/kobe/src/lib.rs:208-259 | every key set with identifiers 1..max is read back, with anything behind it left over |
| KeySets.KeySetExtends | engine/kobe/src/lib.rs:231-259 | what is accepted stays accepted, with the same result, when bytes are added |
| KeySets.TruncatedIsRefused | engine/kobe/src/lib.rs:231-233 | every strict prefix of a valid serialization is refused, at any cut and for any number of signers |
| Chain.SubmitIsLater | engine/programs/distin/src/lib.rs:450-516 | a receipt is added once, counted once, and nothing recorded changes |
| Chain.ExecuteIsLater | engine/programs/distin/src/lib.rs:450-600 | no transaction changes a recorded request, takes back or replaces a receipt, or breaks the accounting |
| Chain.HistoryIsLater | engine/programs/distin/src/lib.rs:450-600 | the same over any history of anybody's transactions |
| Chain.CountedByReceipt | engine/programs/distin/src/lib.rs:450-516 | a request's counters move only with a new receipt, by one and by the stake of the operator whose receipt it is, and the receipt holds share, slot and that stake |
| Chain.ReceiptsWereEarned | engine/programs/distin/src/lib.rs:450-516 | behind every receipt a history added is that operator's own submission, at that slot and stake, unjailed and not unbonding, while the program was not paused and the request pending and unexpired, of a share well-formed for its scheme |
| Chain.SignaturesWereEarned | engine/programs/distin/src/lib.rs:531-575 | behind every signature a history recorded is a submission of it to the pending, unexpired request after its receipts and their stake had met both thresholds, and nothing of it changed since |
| Chain.GoneOnlyBy | engine/programs/distin/src/lib.rs:577-603 | a request goes only while pending, by its own cancellation or once it has expired |
| Chain.RecordedHasQuorum | engine/programs/distin/src/lib.rs:531-561 | behind every recorded signature there are at least as many different receipt holders as its threshold |
| Signerd.Rpc.Send | engine/coordinator/src/signerd.rs:560-567 | a send works, is lost, or takes effect and reports an error; success means the receipt is there, or the request aggregated with this signature |
| Signerd.Fulfill | engine/coordinator/src/signerd.rs:456-515 | signs with nonces drawn for this attempt; all it sends are the two quorum operators' receipts, each with what that operator's own key gives, and the signature, and that never before both receipts are on chain, whatever failed and whoever interfered; success means both receipts and the request recorded with this attempt's signature; when only the daemon sends, every recorded signature keeps both receipts behind it, and a request as it was read stays ready until it is finished or expired; without failures a new receipt holds the operator's own share, its stake and the current slot |
| Signerd.NewReceipts | engine/coordinator/src/signerd.rs:476-496 | a receipt that a failure-free fulfilment adds holds the operator's own participation, the current slot and its stake |
| Signerd.FinishesIff | engine/coordinator/src/signerd.rs:456-515 | a failure-free fulfilment finishes a pending request if and only if its attempt at signing works and the request is ready: unpaused, unexpired, the operators without receipts able to submit, and the thresholds met by what then is there |
| Signerd.Poll | engine/coordinator/src/signerd.rs:409-453 | a failure-free pass records a signature for exactly the pending FROST requests that were ready and whose attempt at signing worked, however the others end, and changes no other request; any pass keeps recorded requests, receipts and the order of sends, and when only the daemon sends takes no request's readiness away |
| Signerd.Run | engine/coordinator/src/signerd.rs:392-454 | over any number of passes with failures at any call: recorded requests and receipts stay, no signature is sent early; when only the daemon sends, none is recorded without both receipts, no blocked request changes, and with more passes than calls that may fail every ready FROST request that can always be signed is recorded with a signature made for its hash, unless it expired first |
| Signerd.StaleReceiptsIff | engine/coordinator/src/signerd.rs:478-482 | with both receipts in place a request is ready if and only if it is pending, unpaused, unexpired and meets its thresholds as it stands |
| Signerd.RecreatedIsStuck | engine/programs/distin/src/lib.rs:904-917 | create, two receipts, cancel and create again leads to a blocked request with no receipt counted |

## Left out

- FrostNet.Valid: operator indices below 65535 and packages below 2^32 bytes are assumed, since identifiers and lengths travel in 16 and 32 bits; `Framing.RoundTripIff` and `Framing.OverflowKeepsFirst` say what happens beyond.
- FrostNet.Read: frames on the links of the step system carry valid signatures; the failing checks are in `Network.Network.ReadLoopOnce`.
- FrostNet.Kill: an error of a FROST call is a step the environment may take at any point, or a verdict `Refused`; which error it was is not kept.
- FrostSigner.RunFrostSign: the two collections receive their events as given sequences; how frames come to be such events is in `FrostRuns` and `FrostTraces`, where a whole broadcast is one stretch of sends.
- FrostSchemes.EveryoneNamesTheCulprit: one corrupt signer; with several, bad shares can cancel out and the aggregation names nobody.
- Fault.FalseAccusation: the program on chain that compares keys with registered operators is not part of this model.
- Network.Network.ReadLoopOnce: one round of the loop per call; goroutines, mutexes and the `closed` channel are not modelled.
- Chain.Execute: fees, bonds, slashing, the operator count and the validity window of a request, and the rent of closed accounts.
- Signerd.Fulfill: the in-process FROST path only; the networked and GG20 paths run subprocesses.
- Signerd.Poll: confirmed transactions are final, there are no rollbacks.
- KeySets.ToBytes: key sets whose identifiers are not 1..max, on which the code panics.
- CoinSelect.SelectCoins: coins are given with 32-byte txids; fetching them and decoding the destination address are not modelled.
- LowS.EncodeBtcDERSignature: the DER bytes come from a library and are an arbitrary function of r and s.
- QuorumIndex.QuorumPartyIds: the library's sort is an insertion sort by key here.
- Dialing, the handshake, mutual TLS, certificates and wall-clock time; deadlines are steps that may happen at any moment.
- A connection reset that discards unread data: links lose nothing but what an operator that went down had not written.
- GG20's message rounds (`feed`, `dispatch`, the `runSign` loop): they only pass messages to and from tss-lib.
- Bech32, base58 and Ethereum addresses, and key encryption at rest: library calls with thin wrappers.
- The web application, the demo programs and the on-chain administration instructions.
