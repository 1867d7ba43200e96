# CMP: verified models of the messenger's cores

CMP is an end-to-end encrypted messenger with a store-and-forward relay. This
project models its four protocol cores and two small computational ones, and
proves what every run of them keeps.

**Double Ratchet sessions** (`Wire`, `KeyAlgebra`, `X3dh`, `Ratchet`,
`SkippedKeysCodec`, `RatchetTranscript`, `RatchetParty`, `RatchetProtocol`,
`RatchetRuns`). Cryptography is a free term algebra: Diffie-Hellman outputs are
unordered pairs, key derivation is a constructor, a ciphertext opens only under
its key and associated data. `Ratchet.Session` is the session object with its
in-place updates and snapshot; it is proved against value functions. Two parties
and a network that drops, reorders, repeats and forges are a state machine; an
invariant ties both session states to the transcript of everything ever sent.
The key agreement follows sections 3.3 and 3.4 of "The X3DH Key Agreement
Protocol", the ratchet sections 3.3 to 3.5 of "The Double Ratchet Algorithm".

**Crash-safe client** (`Outbox`, `PrekeyStores`, `ClientSpec`, `ClientManager`,
`ClientInvariant`, `ClientKeys`, `ClientRuns`, `ClientItems`, `ClientPrekeys`,
`ClientSessions`, `SignedPrekeys`, `OutboxOrder`, `OutboxBytes`, `FirstMessages`,
`LedgerLifetime`, `ClientAnswers`, `PrekeyAnswers`, `ClientWitnesses`). `ClientSpec`
says what each operation means, all or nothing. `ClientAnswers` and `PrekeyAnswers` say
when each answer is given and what exactly goes, over the items, sessions and keys a
caller sees; `LedgerLifetime` how long the client remembers what it opened. `ClientManager` holds the
imperative form: `CryptoStore` with its transactions and `CryptoManager`, whose
methods change fields, try the store and undo by hand; each method is proved equal
to its specification. Runs mix operations, store failures, arbitrary server answers
and crashes. A crash between two store calls leaves the tables as if the later calls
had failed, so it is that failing operation followed by `Crash`.

**Two clients in one session** (`FirstExchange`, `Introductions`, `SessionRuns`). Both
full clients, with failing stores, crashes, other peers and key rotation, over a network
that drops, reorders, repeats and forges: the session they share is a run of the ratchet
machine, so the ratchet's theorems hold for the texts the clients hand on.

**Prekey lifecycle** (`ServerSpec`, `ServerDb`, `ServerRuns`, `UploadProtocol`,
`RelayAnswers`, `RotationProtocol`, `RotationTightness`, `RotationRefinement`, `PrekeyWorld`,
`PrekeyLifetime`, `PrekeyTightness`, `SignedLifetime`). `ServerDb.RelayDb` is the
relay's database; its transactions are proved against `ServerSpec`. `ServerRuns` has
every run of the relay, `RelayAnswers` when each answer is given in terms of the tables,
and `UploadProtocol` joins it with the client's runs.
`RotationProtocol` is the rotation of the signed prekey between client and relay over a
network that loses, delays and repeats messages. `PrekeyWorld` is the full client and
the full relay together, uploads and rotations late or repeated, everyone else using
the relay at will, one clock for both sides. It records when each one-time prekey was
made and published, and why its private half went. `PrekeyLifetime` and
`PrekeyTightness` say how long that half is there; `SignedLifetime` shows that the
same runs are runs of the rotation protocol.

**Relay delivery** (`DeliverySpec`, `ClientInbox`, `DeliveryNode`, `DeliveryRuns`,
`DeliveryCauses`, `Redelivery`, `Paging`, `Connections`). The system is any number of clients, each with its
crypto tables and its separate history database, and the relay. Clients open both
messages and read receipts, which share one replay ledger. The history holds received
and sent messages and notes under one index of IDs. `Paging` is the queued-delivery loop, `Connections` the registry of online connections.

**Calendar** (`Calendar`) is the relay's timestamp arithmetic.

Every operation takes as parameters what the program gets from outside: the
outcome of each store call (`ok`), the clock (`now`), and the random keys and IDs
it draws. User names and UUIDs are numbers; drawn message and receipt IDs are new,
envelope digests injective. Prekey pairs stand for secret, public and signature bytes.

Where the repository's comments and its code differ, the code is modelled. Some
properties one would expect are false of the code. Each has a run that shows it and the
exact condition under which it holds:

- *A failed operation changes nothing.* Decryption and upload confirmation can leave a
  change behind: `ClientRuns.ErrorsOfDecrypt` and `ErrorsOfUpload` say exactly when and
  which, `FirstExchange.DecryptErrorReached` and `ClientWitnesses.UploadErrorReached`
  reach it.
- *The outbox stays within its cap.* `ClientRuns.CapHolds` says exactly when it holds one
  item more, `OutboxBytes.BytesCapped` exactly when it holds more bytes;
  `ClientWitnesses.CapExceededOnce` fills it and gets there.
- *Memory and disk hold the same sequence.* Reconciling a rotation replaces the item in
  place in memory and moves it to the end on disk. `OutboxOrder.StaysAligned` is the
  exact condition, `ClientWitnesses.OrdersDiffer` the run. The items, and the order of
  messages and receipts, always agree.
- *Every published one-time prekey has its private half.* A refused upload may be
  accepted later from a delayed copy (`PrekeyTightness.RefusedCopyPublished`).
  `PrekeyLifetime.PublishedKeysAccounted` says exactly which published keys are held,
  `PrekeyTightness.SafeExactly` for how long.
- *A retry is a duplicate.* Only until its sender has confirmed it:
  `ServerRuns.DuplicateExactly`, and `ConfirmedCopyAdmitted` for the run. Each message ID
  still enters a history once.
- *Whatever is acknowledged is stored.* Not if its sender used the ID for a receipt
  before, nor if a row of another peer, a sent message or a note has the ID:
  `DeliveryNode.AcknowledgedUnstoredExactly` is the exact condition,
  `FirstExchange.SharedIdLosesMessage` and `TakenIdLosesMessage` the runs. IDs are drawn
  at random, and the delivery theorems take them to be new.

## Model

| member | source | states |
|---|---|---|
| Wire.FullAssociatedDataInjective | crates/protocol/src/aad.rs:11-46 | equal associated data means the same version, envelope kind, identity and ephemeral keys, prekey IDs (absent differs from zero) and ratchet header |
| Wire.HeaderBytesInjective | crates/crypto/src/ratchet.rs:28-35 | the 40-byte ratchet header encoding is injective |
| Wire.AuthenticatedDataInjective | crates/crypto/src/ratchet.rs:37-43 | context followed by header splits in one way only |
| X3dh.AgreementExactly | crates/crypto/src/x3dh.rs:42-132 | both sides derive the same secret if and only if the bundle's signature is genuine and they agree on both identities, the ephemeral key, the signed prekey and the one-time prekey or its absence |
| X3dh.SecretUnknownToOthers | crates/crypto/src/x3dh.rs:113-132 | without the ephemeral and signed-prekey secrets the agreed secret cannot be computed |
| Ratchet.Session.EncryptMessage | crates/crypto/src/ratchet.rs:138-178 | in-place encryption equals its value form, including the exhausted counter and the missing chain |
| Ratchet.Session.SkipKeys | crates/crypto/src/ratchet.rs:273-308 | the loop stores exactly the window of message keys and advances the chain, or refuses when more than MAX_SKIP would be stored |
| Ratchet.Session.StepTo | crates/crypto/src/ratchet.rs:223-246 | the Diffie-Hellman step in place |
| Ratchet.Session.TryDecryptInner | crates/crypto/src/ratchet.rs:215-270 | the fallible part of decryption, ending in the state its value form names |
| Ratchet.Session.DecryptMessage | crates/crypto/src/ratchet.rs:181-212 | decryption with snapshot: on failure the whole session is as before |
| Ratchet.StoreWindowLookup | crates/crypto/src/ratchet.rs:300-305 | entry i of the stored window is the i-th message key of the chain, other entries are unchanged |
| SkippedKeysCodec.CollectInvertsListing | crates/crypto/src/ratchet.rs:325-355 | reading back any listing of a skipped-key map, in any order, yields the map |
| SkippedKeysCodec.RoundTrip | crates/crypto/src/ratchet.rs:310-355 | saving then loading is the identity on maps of at most MAX_SKIP keys and refuses larger ones |
| RatchetTranscript.OpensExactlyItsFrame | crates/crypto/src/ratchet.rs:248-258 | of everything the network can deliver, a message key opens exactly the honest frame sealed with it |
| RatchetTranscript.SpuriousChainOpensNothing | crates/crypto/src/ratchet.rs:223-258 | a chain entered on a foreign or superseded ratchet key opens nothing deliverable |
| RatchetTranscript.KeyAtInjective | crates/crypto/src/ratchet.rs:138-178 | different messages of a session have different keys |
| RatchetParty.SteppedDelivery | crates/crypto/src/ratchet.rs:181-270 | any delivery that forces a Diffie-Hellman step: when it opens and what it leaves |
| RatchetParty.AcceptedOpens | crates/crypto/src/ratchet.rs:181-308 | an acceptable message, from an earlier, the current or the next chain, opens to its plaintext and keeps the session in step with the transcript |
| RatchetParty.OpenedIsAccepted | crates/crypto/src/ratchet.rs:181-308 | whatever opens was an acceptable message |
| RatchetProtocol.ReceiveEffect | crates/crypto/src/ratchet.rs:181-270 | an accepted delivery keeps the invariant of both parties and marks one message as opened |
| RatchetRuns.DeliveredExactlyOnce | crates/crypto/src/ratchet.rs:93-308 | over every run with drops, reordering, repeats and forgeries, everything opened is an honest message addressed to its opener with its own plaintext, and nobody opens the same message twice |
| RatchetRuns.NextDeliveryExactly | crates/crypto/src/ratchet.rs:181-308 | after every run, a delivery opens if and only if it is an honest message not opened before that needs at most MAX_SKIP stored keys, and then yields its plaintext; every other delivery fails and changes nothing |
| RatchetRuns.ReachableSession | crates/crypto/src/ratchet.rs:215-308 | in every reachable session the receiving key is the recvCount-fold step of its chain root, every skipped entry is the right message key, and there are at most MAX_SKIP |
| ClientManager.CryptoStore.SaveCoreAndEnqueue | crates/client/src/crypto_store.rs:90-106 | commits core state and new outbox row together, or neither (also on a repeated ID) |
| ClientManager.CryptoStore.SaveCoreAndProcessed | crates/client/src/crypto_store.rs:108-129 | commits core state and ledger row together, or neither |
| ClientManager.CryptoStore.SaveCoreAndReplace | crates/client/src/crypto_store.rs:168-194 | core state, deletion and re-insertion at the end, or nothing |
| ClientManager.CryptoStore.ConfirmAck | crates/client/src/crypto_store.rs:200-211 | deletes the ack row and every ledger row it names, whichever peer |
| ClientManager.CryptoManager.InitSessionFromBundle | crates/client/src/crypto_mgr.rs:239-302 | installs the session or restores the previous entry |
| ClientManager.CryptoManager.ExpireStale | crates/client/src/crypto_mgr_prekeys.rs:15-36 | drops a session whose reservation ran out, or puts it back |
| ClientManager.CryptoManager.AdvanceSession | crates/client/src/crypto_mgr.rs:451-506 | seals one message in place and hands back the original for undoing |
| ClientManager.CryptoManager.EncryptMessage | crates/client/src/crypto_mgr.rs:317-351 | queues the sealed message durably or undoes session and outbox |
| ClientManager.CryptoManager.EncryptReadReceipt | crates/client/src/crypto_mgr.rs:580-612 | the same for read receipts |
| ClientManager.CryptoManager.QueueAck | crates/client/src/crypto_mgr.rs:417-432 | queues an ack durably or not at all |
| ClientManager.CryptoManager.QueueReceiptAck | crates/client/src/crypto_mgr.rs:434-449 | queues a receipt ack durably or not at all |
| ClientManager.CryptoManager.ConfirmMessageSent | crates/client/src/crypto_mgr_outbound.rs:11-27 | removes the message from memory and disk, or re-inserts it at its place |
| ClientManager.CryptoManager.ConfirmReceiptSent | crates/client/src/crypto_mgr.rs:353-372 | the same for read receipts |
| ClientManager.CryptoManager.RejectMessage | crates/client/src/crypto_mgr_outbound.rs:29-59 | forgets the message and its session, or restores both |
| ClientManager.CryptoManager.ConfirmAcked | crates/client/src/crypto_mgr.rs:374-415 | settles an ack whose IDs match, or restores outbox and ledger |
| ClientManager.CryptoManager.ConfirmInboundStored | crates/client/src/crypto_mgr.rs:508-533 | clears the pending text on both sides, or keeps it on both |
| ClientManager.CryptoManager.PersistRegistrationKeys | crates/client/src/crypto_mgr_prekeys.rs:60-114 | from every valid state: installs the registered keys and an ID counter above them, or restores everything; the state is valid afterwards exactly if nothing was saved, or no rotation was waiting and the key's ID is not the last one |
| ClientInvariant.RegistrationKeeps | crates/client/src/crypto_mgr_prekeys.rs:60-114 | registration keeps the client's invariant if and only if it failed, or no rotation is waiting and the key's ID is not the last one |
| ClientManager.CryptoManager.QueueSignedPrekeyRotation | crates/client/src/crypto_mgr_prekeys.rs:116-172 | starts a due rotation or takes it back |
| ClientManager.CryptoManager.ConfirmSignedPrekeyRotated | crates/client/src/crypto_mgr_prekeys.rs:174-205 | settles the rotation or reconciles it |
| ClientManager.CryptoManager.ConfirmAcceptedRotation | crates/client/src/crypto_mgr_prekeys.rs:207-227 | truncates the history and drops the item, or extends the history back |
| ClientManager.CryptoManager.ReconcileRejectedRotation | crates/client/src/crypto_mgr_prekeys.rs:229-303 | swaps the candidate, keeping it only if the server once accepted it, or restores ring and outbox |
| ClientManager.CryptoManager.ConfirmPrekeysUploaded | crates/client/src/crypto_mgr_prekeys.rs:305-370 | the three answers to an upload, each with its undo |
| ClientManager.CryptoManager.QueueReplenishment | crates/client/src/crypto_mgr_prekeys.rs:372-445 | drops stale keys and adds a batch, or removes the batch and restores the stale keys |
| ClientManager.CryptoManager.DecryptMessageToText | crates/client/src/crypto_mgr_decrypt.rs:218-247 | pending text, duplicate, or one decryption after pruning the ledger |
| ClientManager.CryptoManager.DecryptExisting | crates/client/src/crypto_mgr_decrypt.rs:184-216 | session and ledger row together, or both as before |
| ClientManager.CryptoManager.DecryptFirst | crates/client/src/crypto_mgr_decrypt.rs:74-153 | a first message: session, consumed prekey and ledger row together, or all as before |
| ClientManager.CryptoManager.Restart | crates/client/src/crypto_mgr.rs:136-216 | rebuilds every field from the tables |
| ClientInvariant.ReloadReproduces | crates/client/src/crypto_mgr_persistence.rs:57-151 | loading is the inverse of saving on every state the invariant allows |
| ClientRuns.ErrorsChangeNothing | crates/client/src/crypto_mgr.rs:239-612 | an operation that reports an error changed nothing, decryption and upload confirmation aside |
| ClientRuns.ErrorsOfDecrypt | crates/client/src/crypto_mgr_decrypt.rs:27-72 | a failed decryption changed something if and only if the version was right, pruning worked and there was a row to prune; and then it pruned both ledgers and nothing else |
| FirstExchange.DecryptErrorReached | crates/client/src/crypto_mgr_decrypt.rs:27-72 | a run of two installations in which a failed decryption leaves that change |
| ClientRuns.ErrorsOfUpload | crates/client/src/crypto_mgr_prekeys.rs:305-370 | an upload confirmation reports an error and changed something if and only if it replaced an accepted upload that ran low and then could not delete it; and then it queued exactly the replacement |
| ClientWitnesses.UploadErrorReached | crates/client/src/crypto_mgr_prekeys.rs:305-370 | a run from a fresh installation in which that happens |
| ClientRuns.CapHolds | crates/client/src/crypto_outbox.rs:121-134 | the outbox holds at most one item beyond its cap, and that one exactly when a full outbox replaces an accepted upload whose deletion then fails |
| ClientWitnesses.CapExceededOnce | crates/client/src/crypto_mgr_prekeys.rs:305-370 | a run from a fresh installation that fills the outbox to its cap and then exceeds it by one |
| OutboxBytes.BytesCapped | crates/client/src/crypto_outbox.rs:94-134 | over every run the outbox holds at most one upload's bytes more than its cap, and an event takes it past the cap exactly when an accepted upload is replaced with no room for both and its own deletion then fails |
| OutboxOrder.StaysAligned | crates/client/src/crypto_store.rs:168-194 | an event keeps the outbox in memory and on disk equal as sequences if and only if it does not replace a rotation that has items behind it |
| ClientWitnesses.OrdersDiffer | crates/client/src/crypto_mgr_prekeys.rs:229-303 | a run from a fresh installation after which the two sequences differ |
| ClientRuns.RestartReproducesMemory | crates/client/src/crypto_mgr.rs:136-216 | after every run a restart yields the same core state, the unexpired ledger, the same outbox items, and messages and receipts in the same order |
| ClientRuns.NoMessageKeyReused | crates/client/src/crypto_mgr.rs:451-506 | over every run with failures and crashes, no two different envelopes ever durable were sealed under the same key |
| ClientRuns.ReleasedIsDurable | crates/client/src/crypto_mgr.rs:317-351 | an envelope handed out is already in the durable outbox |
| SignedPrekeys.SignedPrekeysOrdered | crates/client/src/crypto_mgr_prekeys.rs:60-303 | over every run under arbitrary server answers IDs strictly decrease through the ring and lie below the next, a pending rotation has a predecessor, the history is at most 3, or 4 while pending, and no ID that a registration or a rotation released ever names two keys |
| ClientRuns.UploadsDisjoint | crates/client/src/crypto_mgr_prekeys.rs:372-445 | over every run, uploads are disjoint intervals of 100 IDs above the legacy floor and below the next ID |
| ClientItems.StepFlow | crates/client/src/crypto_mgr_outbound.rs:11-59 | for every event, what the outbox may gain and lose |
| ClientItems.OthersShortenLedger | crates/client/src/crypto_replay.rs:17-27 | only receiving writes the replay ledger |
| ClientAnswers.ItemLeavesExactly | crates/client/src/crypto_mgr_outbound.rs:11-59 | for every event and every item of the outbox, the item goes if and only if it is the one confirmed, refused or acknowledged with its own IDs, or the rotation or upload that the answer settles or can replace |
| ClientAnswers.SessionLeavesExactly | crates/client/src/crypto_mgr_prekeys.rs:15-36 | for every event and every session, the session goes if and only if its first message was never sealed and its day is over, or a message to that peer is refused while it waits |
| ClientAnswers.RefusalAnswers | crates/client/src/crypto_mgr_outbound.rs:29-59 | a refusal names the peer of the waiting message and takes that session and no other; without such a message, or when the store fails, nothing changes |
| ClientAnswers.BeginningAnswers | crates/client/src/crypto_mgr.rs:239-302 | a session begins if and only if the bundle verifies and the store accepts it; it carries the bundle's key IDs and lapses a day later; other sessions stay |
| ClientAnswers.ExpiryAnswers | crates/client/src/crypto_mgr_prekeys.rs:15-36 | the caller hears `true` exactly when the session was given up |
| ClientAnswers.SealingAnswers | crates/client/src/crypto_mgr.rs:317-351 | which condition each refusal reports, over the items of the outbox: a first message to the same peer waits, no room, no session, a spent ratchet, a failed save; otherwise the message is at the end of both outboxes |
| ClientAnswers.SealingRefused | crates/client/src/crypto_mgr.rs:451-506 | sealing fails exactly without a session, without a sending chain or with a spent counter; otherwise the header is a first-message header exactly if the session's was not spent, and is then spent |
| ClientAnswers.ReceiptAnswers | crates/client/src/crypto_mgr.rs:580-612 | the same for read receipts, which are refused first for their length and are not held back by a first message |
| ClientAnswers.AckAnswers | crates/client/src/crypto_mgr.rs:417-449 | an acknowledgement is queued if and only if there is room, its ID is unused and the store accepts it |
| ClientAnswers.ConfirmationAnswers | crates/client/src/crypto_mgr.rs:353-415 | a confirmation fails if and only if the item waits and the store fails |
| ClientAnswers.SettlingAnswers | crates/client/src/crypto_mgr.rs:508-533 | settling clears the text of one row on both sides and keeps its time and every other row |
| ClientAnswers.OpeningAnswers | crates/client/src/crypto_mgr_decrypt.rs:27-72 | which condition each failure to open reports: version, pruning, ten thousand rows of the last 31 days, the envelope, the save; otherwise session and ledger row are saved together |
| ClientAnswers.FirstOpeningAnswers | crates/client/src/crypto_mgr_decrypt.rs:74-182 | without a session, an envelope is refused as malformed if and only if a private half it names is not held; opened, it uses up exactly the one-time prekey it names |
| ClientAnswers.LaterOpeningAnswers | crates/client/src/crypto_mgr_decrypt.rs:184-216 | with a session, only its ratchet moves, and exactly if the envelope opens |
| FirstMessages.FirstMessageHoldsBack | crates/client/src/crypto_mgr.rs:317-351 | over every run with failures and crashes, in memory and on disk, no message to a peer stands behind a first message to the same peer |
| LedgerLifetime.RowLeavesExactly | crates/client/src/crypto_replay.rs:17-29 | for every event and every ledger row, the row goes if and only if an acknowledgement of its ID is confirmed or rows older than 31 days are pruned, and changes if and only if it is settled |
| LedgerLifetime.RedeliveryAnswered | crates/client/src/crypto_mgr_decrypt.rs:218-247 | over every run, for 31 days after an envelope was opened and until an acknowledgement of it is confirmed, its redelivery is answered with the text or as known, never as a failure |
| LedgerLifetime.AckedAnswers | crates/client/src/crypto_mgr.rs:374-415 | a confirmed acknowledgement leaves no row it names on either side, and every other known delivery is answered as before |
| LedgerLifetime.OtherAcksIgnored | crates/client/src/crypto_mgr.rs:374-415 | one that does not match a waiting item with its IDs, or is not saved, changes nothing |
| ClientPrekeys.OpksFlow | crates/client/src/crypto_mgr_prekeys.rs:305-445 | every event leaves the one-time prekeys alone, or uses up the one an opened message names, or drops stale ones and adds a batch, or drops those of a refused upload; a new upload names only keys the client holds |
| PrekeyAnswers.RegistrationAnswers | crates/client/src/crypto_mgr_prekeys.rs:60-114 | registration takes effect exactly when saved: the keys with their time, no predecessor, and a counter that is the old one or just above the largest ID |
| PrekeyAnswers.RotationAnswers | crates/client/src/crypto_mgr_prekeys.rs:116-172 | a rotation starts if and only if none waits, thirty days are over, and there is an ID, room and a working store; the old key becomes the first predecessor |
| PrekeyAnswers.AcceptedRotationAnswers | crates/client/src/crypto_mgr_prekeys.rs:174-227 | an accepted candidate stays with at most three predecessors |
| PrekeyAnswers.RefusedRotationAnswers | crates/client/src/crypto_mgr_prekeys.rs:229-303 | any other answer replaces the candidate by a key above the server's and all own IDs, if there is one, and keeps the candidate exactly if the server once had it |
| PrekeyAnswers.StrayRotationAnswers | crates/client/src/crypto_mgr_prekeys.rs:174-205 | an answer to no waiting rotation is ignored |
| PrekeyAnswers.ReplenishedExactly | crates/client/src/crypto_mgr_prekeys.rs:372-445 | a replenishment leaves exactly the keys made in the last 61 days and the next hundred, each with its time |
| PrekeyAnswers.ReplenishmentAnswers | crates/client/src/crypto_mgr_prekeys.rs:372-445 | a batch is made if and only if no upload waits and there are IDs, room and a working store; a waiting upload is handed out again |
| PrekeyAnswers.RefusedUploadAnswers | crates/client/src/crypto_mgr_prekeys.rs:305-370 | a refused upload takes exactly its own keys with it |
| PrekeyAnswers.AcceptedUploadAnswers | crates/client/src/crypto_mgr_prekeys.rs:305-370 | an accepted one with a hundred or more left changes no key |
| PrekeyAnswers.LowUploadAnswers | crates/client/src/crypto_mgr_prekeys.rs:305-370 | with fewer left it is answered with the upload that waits or a new batch, exactly when one can be queued and the old one deleted |
| PrekeyAnswers.StrayUploadAnswers | crates/client/src/crypto_mgr_prekeys.rs:305-370 | an answer to no waiting upload is ignored |
| ClientSessions.SessionsFlow | crates/client/src/crypto_mgr.rs:239-612 | every event, failed or not, leaves the session with a peer as it was, unless it seals to, opens from, starts or gives up that session |
| FirstExchange.FirstOpens | crates/client/src/crypto_mgr_decrypt.rs:74-153 | for every two clients, the first envelope sealed in a session started from a bundle opens to its text at the client that holds the bundle's private halves |
| Introductions.ForeignHeaderOpensNothing | crates/client/src/crypto_mgr_decrypt.rs:74-153 | of all first-message headers with the initiator's identity key, only the initiator's own opens, for an adversary without that key and the responder's signed prekeys |
| SessionRuns.MeetingBegins | crates/client/src/crypto_mgr.rs:239-302 | starting a session from the bundle of a client that holds its private halves is a start of the joint runs below |
| SessionRuns.PairRunsRatchet | crates/client/src/crypto_mgr.rs:451-506 | over every joint run of two clients with store failures, crashes, reloads, other peers and rotations, the session each holds is the state of one permitted run of the ratchet machine |
| SessionRuns.OpensEndToEnd | crates/client/src/crypto_mgr_decrypt.rs:218-247 | after every such run, an envelope under an unknown ID yields a text if and only if the version, the store and the ledger allow it, there is a session or the envelope starts one from keys still held, and it is an unopened message of the peer that fits the skipped-key limit; the text is the one sealed |
| ServerDb.RelayDb.RegisterAtomic | crates/server/src/db/users.rs:17-74 | the first registration wins and sets the high-water mark |
| ServerDb.RelayDb.UploadPrekeys | crates/server/src/db/prekeys.rs:7-75 | expiry, repeat, sequence and capacity checks, then the insert loop; refusals roll back |
| ServerDb.RelayDb.RotateSignedPrekey | crates/server/src/db/prekeys.rs:93-164 | idempotent rotation that keeps the two newest keys |
| ServerDb.RelayDb.FetchForRequester | crates/server/src/db/prekeys.rs:166-241 | pruning, both limits, and handing out one prekey with its reservation; limits roll back |
| ServerDb.RelayDb.Enqueue | crates/server/src/db/queue.rs:9-80 | classification, checks in order, claim and insertion, or rollback |
| ServerDb.RelayDb.ClaimPrekeyReservation | crates/server/src/db/queue.rs:82-135 | quotas, published signed prekey and consumed reservation |
| ServerDb.RelayDb.ConfirmAcceptances | crates/server/src/db/queue.rs:213-239 | the delete loop removes exactly the sender's confirmed rows and lowers the count by as many |
| ServerDb.RelayDb.DeleteMessages | crates/server/src/db/queue.rs:279-306 | the delete loop removes exactly the recipient's rows with those IDs |
| ServerRuns.PrekeysUsedAtMostOnce | crates/server/src/db/prekeys.rs:16-241 | over every run of the relay each user's one-time prekey is handed out at most once, and at most one admitted message ever names it |
| ServerRuns.FetchKeeps | crates/server/src/db/prekeys.rs:166-241 | a fetch keeps the bound by the high-water mark, and its plain insert of a reservation never collides |
| ServerRuns.LedgerHolds | crates/server/src/db/queue.rs:9-135 | over every run the stored count equals the acceptance rows, and the per-sender, global and per-recipient caps hold |
| ServerRuns.ConfirmingKeeps | crates/server/src/db/queue.rs:213-239 | clamping the count at zero never takes effect |
| ServerRuns.RefusalChangesNothing | crates/server/src/db/queue.rs:9-80 | a refused message changes no table |
| ServerRuns.RetryIsDuplicate | crates/server/src/db/queue.rs:148-177 | once accepted, an identical retry is a duplicate that changes nothing at any later time before its sender confirms it |
| ServerRuns.DuplicateExactly | crates/server/src/db/queue.rs:148-177 | a request is answered as a duplicate and changes nothing if and only if its row is in the acceptance ledger |
| RelayAnswers.AdmittedExactly | crates/server/src/db/queue.rs:9-135 | for a message not in the ledger, the answer as a cascade of conditions over the tables; it is admitted if and only if recipient, queue, both ledger quotas, the published signed prekey and the live reservation allow it |
| RelayAnswers.KnownExactly | crates/server/src/db/queue.rs:148-177 | for one that is, a duplicate exactly if recipient, sender and envelope agree, and nothing changes |
| RelayAnswers.AdmittedLeaves | crates/server/src/db/queue.rs:9-80 | what admission leaves of each table: the row with its sender, text and time, the ledger entry, the count, and all live reservations but its own |
| RelayAnswers.ConfirmedExactly | crates/server/src/db/queue.rs:213-239 | exactly the sender's named rows leave the ledger |
| RelayAnswers.UploadExactly | crates/server/src/db/prekeys.rs:7-75 | an upload is answered by where its IDs lie against the highest ever accepted and by the room left; the number reported is that of the prekeys that can be fetched |
| RelayAnswers.UploadLeaves | crates/server/src/db/prekeys.rs:41-75 | an accepted new batch leaves exactly the unexpired prekeys and its own |
| RelayAnswers.FetchExactly | crates/server/src/db/prekeys.rs:166-241 | which of the five answers a fetch gets, over the fetches of the window and the unexpired prekeys |
| RelayAnswers.FetchLeaves | crates/server/src/db/prekeys.rs:166-241 | a fetched key leaves the table and is reserved for a day for its requester; everyone else's keys stay |
| RelayAnswers.FetchedWasOffered | crates/server/src/db/prekeys.rs:166-241 | over every run of the relay, a fetched key ID and key were together in a batch its owner registered or uploaded |
| RelayAnswers.RegisterExactly | crates/server/src/db/users.rs:17-74 | the first registration of a user and no other takes effect, with its signed prekey and its batch |
| RelayAnswers.RotateExactly | crates/server/src/db/prekeys.rs:93-164 | the answer to a rotation, superseded and conflicting requests included, and the two keys kept |
| ServerRuns.ConfirmedCopyAdmitted | crates/server/src/db/queue.rs:213-239 | a run in which a copy of a confirmed message is admitted anew |
| ServerRuns.WindowsLimited | crates/server/src/db/prekeys.rs:175-236 | any closed window of the whole history holds at most the limit of successful fetches per requester and per target |
| UploadProtocol.UploadsInSequence | crates/server/src/db/prekeys.rs:23-65 | copies of an honest client's uploads, in any order and number, are never answered as out of sequence |
| UploadProtocol.CopiesChangeNothing | crates/server/src/db/prekeys.rs:23-40 | a copy arriving after acceptance is accepted and changes nothing |
| UploadProtocol.NeverSplit | crates/client/src/crypto_mgr_prekeys.rs:372-445 | the high-water mark never lies inside a batch |
| RotationProtocol.HearKeeps | crates/client/src/crypto_mgr_prekeys.rs:174-303 | in honest runs the client never has to reconcile |
| RotationProtocol.ServedKeys | crates/server/src/db/prekeys.rs:104-163 | what the relay answers and keeps, by the age of the requested key |
| RotationProtocol.PrivateHalfOutlivesAdmission | crates/server/src/db/queue.rs:109-120 | in every run a first message admitted under a published key and delivered less than 30 days later still finds its private half |
| RotationProtocol.StandardHistory | crates/client/src/crypto_mgr_prekeys.rs:207-303 | with the client's history length the protocol's steps are the client's |
| RotationTightness.SafeExactly | crates/client/src/crypto_mgr_prekeys.rs:116-227 | with any number of private predecessors, a delay is safe in every run if and only if it is shorter than that number less two, in rotation intervals |
| RotationTightness.ThreeIsJustEnough | crates/client/src/crypto_mgr_prekeys.rs:116-227 | three predecessors cover exactly the delays below 30 days, two cover none |
| RotationRefinement.ClientTakesRotationSteps | crates/client/src/crypto_mgr_prekeys.rs:116-303 | every event of the full client, crashes and failures included, is a step of the rotation protocol's client |
| SignedLifetime.RunShadowed | crates/client/src/crypto_mgr_prekeys.rs:116-303 | every joint run of the full client and the full relay is, seen through the signed prekeys, a permitted run of the rotation protocol |
| SignedLifetime.SignedHalfOutlivesAdmission | crates/server/src/db/queue.rs:109-120 | over every joint run, the client finds the private signed prekey of every first message admitted less than 30 days ago, by the ID the message names |
| PrekeyLifetime.PublishedKeysAccounted | crates/client/src/crypto_mgr_prekeys.rs:305-445 | over every joint run, the private half of a one-time prekey that was ever published is held if and only if no opened message used it, it was not given up as refused, and it was not dropped as stale; refused, it belongs to one upload answered both as refused and as accepted; stale, it is more than 61 days old |
| PrekeyLifetime.HeldUnlessUsedOrStale | crates/client/src/crypto_mgr_prekeys.rs:305-445 | unless such an upload was answered both ways, a published key is held if and only if it was neither used nor dropped as stale |
| PrekeyLifetime.FetchableWasPublished | crates/server/src/db/prekeys.rs:7-75 | whatever can be fetched is among those keys, with the time it was published |
| PrekeyTightness.SafeExactly | crates/protocol/src/consts.rs:13-15 | a key published within `lag` of being made is there for every first message admitted under it for `delay` seconds, used and refused keys aside, in every joint run if and only if lag and delay together are at most 30 days |
| PrekeyTightness.PublishedAtOnce | crates/server/src/main.rs:13-14 | published at once, a key covers exactly the 30 days a message may be queued, and not the hour between two collections beyond them |
| PrekeyTightness.RefusedCopyPublished | crates/server/src/db/prekeys.rs:23-75 | a run in which the copy of an upload refused for want of room is accepted a month later, and its keys are public without private halves |
| ClientInbox.Inbox.InsertMessage | crates/client/src/db.rs:97-110 | a row enters the history unless a row of any peer and direction has its ID |
| ClientInbox.Inbox.ProcessInbound | crates/client/src/app_inbound.rs:27-99 | decrypt, history, ledger; acknowledged only if both databases were written or the ledger says so |
| ClientInbox.Inbox.ProcessReceipt | crates/client/src/app.rs:582-604 | a read receipt: decrypt and settle the ledger row, no history |
| DeliveryNode.ReceiveKeepsNode | crates/client/src/app_inbound.rs:50-99 | receiving a message under an ID that no receipt and no other row has keeps: settled means a row of that sender under that ID, acknowledged means received, each ID once, texts as sealed |
| DeliveryNode.ReceiptKeepsNode | crates/client/src/app.rs:582-604 | receiving a read receipt keeps the same and leaves the history alone |
| DeliveryNode.SettledExactly | crates/client/src/app_inbound.rs:50-99 | a ledger row is settled if and only if it was, or its text is handed on and then written to both databases, or for a receipt parses and is written to the ledger |
| DeliveryNode.AcknowledgedUnstoredExactly | crates/client/src/app_inbound.rs:27-99 | a message is acknowledged without a row of its sender under its ID if and only if there was none before and its ledger row is already settled, or it is handed on, both stores work and another row has the ID |
| DeliveryNode.OtherRowSwallowsMessage | crates/client/src/db.rs:97-110 | a message whose ID any other row has is acknowledged, and the history stays as it was |
| FirstExchange.TakenIdLosesMessage | crates/client/src/db.rs:97-110 | a run of two installations in which that happens, for every row of another peer or direction |
| DeliveryNode.ReceiptSwallowsMessage | crates/client/src/app.rs:582-604 | a receipt that opens and settles, and then a message of the same sender under its ID: the message is acknowledged, and the history stays as it was |
| FirstExchange.SharedIdLosesMessage | crates/client/src/app.rs:582-604 | a run of two installations in which that happens, for every receipt of one message ID and every message text |
| DeliveryCauses.NoMessageLost | crates/server/src/handlers/message.rs:13-172 | over every run with crashes on any side and receipts arriving at any time in any number, a message ever committed to an outbox is there, or queued, or in its recipient's history as received from its sender with its text; or a rejection of it took effect while it waited, or it was submitted before the cutoff of a later collection, or its row was deleted as invalid, each read off the events of the run |
| DeliveryCauses.QueueExactly | crates/server/src/db/queue.rs:279-340 | for every event and every queued row, the row stays if and only if the event does not acknowledge, expire or discard it; a new row is that of the message submitted, at its time |
| DeliveryCauses.SentExactly | crates/server/src/handlers/message.rs:13-172 | for every event, the relay notifies the sender of exactly the messages it takes, and sends on exactly those and the rows it pushes |
| DeliveryCauses.DroppedCaused | crates/server/src/db/queue.rs:309-340 | whatever is recorded as given up has such a cause among the events |
| DeliveryCauses.YoungRowsStay | crates/server/src/db/queue.rs:326-340 | a collection keeps a row if and only if it is not older than the cutoff |
| Redelivery.QueuedIsAnswered | crates/client/src/crypto_replay.rs:17-29 | over every run of all clients and the relay on one clock, a message opened while its row is queued, whose row stays queued, is answered on redelivery with the text or as known: the client's 31 days cover the relay's 30 and its hourly collection |
| DeliveryRuns.HistoriesSound | crates/client/src/app_inbound.rs:27-99 | over the same runs only received messages in the history are acknowledged; each history holds an ID once, and only messages sent to it or by it, each with the text its sender sealed, and its own notes |
| DeliveryRuns.Retired | crates/client/src/crypto_mgr_outbound.rs:11-27 | a message leaves its outbox only when it is queued, stored or given up |
| Paging.QueueDelivery.Deliver | crates/server/src/handlers/auth.rs:216-299 | the pages sent hold exactly the fitting rows among the first 1000 in order, or a prefix if stopped; each page is non-empty, at most 64 messages, its encoding is within the byte limit, and it is followed by another only when it cannot take that one's first message; exactly the invalid or oversize rows whose deletion worked are deleted |
| Paging.ReachableInOrder | crates/server/src/db/queue.rs:47-57 | in every reachable database the queue is in row order, as delivery needs |
| Paging.Adding | crates/server/src/handlers/auth.rs:278-294 | the tracked count is the length of the page's encoding: opening, the rows' bytes joined by commas, closing |
| Paging.NextRow | crates/server/src/db/queue.rs:245-275 | the cursor query finds the next original row although earlier rows were deleted |
| Calendar.TimestampCountsDays | crates/server/src/handlers/auth.rs:584-597 | for every valid date from 1970 the closed form equals the recursive Gregorian day count |
| Calendar.TimestampsOrdered | crates/server/src/handlers/auth.rs:584-597 | timestamps order valid dates exactly as their components do |
| Calendar.ParsesFormatted | crates/server/src/handlers/auth.rs:558-598 | reading back SQLite's text of a valid date gives its second count |
| Connections.ConnectionRegistry.Insert | crates/server/src/connection.rs:46-71 | is, in the machine of all interleavings, the insertion of the connection followed by the cancelling of the one it displaced |
| Connections.ConnectionRegistry.RemoveIfMatch | crates/server/src/connection.rs:76-79 | is the cleanup step of that machine: of all connections registered, it takes out this one and no other |
| Connections.NoConnectionForgotten | crates/server/src/connection.rs:46-79 | over every interleaving each connection stands in exactly one place: not inserted, registered, displaced, cancelled, or removed by its own cleanup |
| Connections.CleanupSparesReplacement | crates/server/src/connection.rs:73-79 | a cleanup never removes another connection |

## Left out

- The terminal interface, status bar, WebSocket transport, reconnection and task scheduling: the network and the schedule are arbitrary instead.
- The insides of AES-GCM, HKDF, HMAC, SHA-256, X25519 and Ed25519: free terms with their algebraic laws.
- JSON and base64 encodings: taken to round-trip; lengths follow section 4 of RFC 4648.
- Replacement of text that is not UTF-8 by a fixed placeholder, before it enters ledger and history.
- SQL text, write-ahead logging, file permissions and fsync; a commit whose outcome is unknown to the caller.
- Schema migrations of both databases, and rows written by older versions.
- A registration the server committed while the client crashed before saving its keys.
- SessionRuns.OpensEndToEnd: one session with one initiator, until it is restarted or given up; both peers opening one at once is not modelled. A first-message header under the initiator's name carries the initiator's identity key, because the relay names the authenticated sender; a client that meets a peer for the first time has nothing to compare it with.
- The read-receipt table of the relay: a receipt may reach any client at any time and in any number once its sender has committed it, so the delivery theorems hold whatever that table does; that a receipt is kept until it is acknowledged is not stated.
- Delivery notices, typing indicators and contact verification: no modelled table depends on them.
- Zeroisation of secrets: not visible in the values modelled.
- The set of peers with a bundle request under way, which lives in memory only.
- RotationProtocol.PrivateHalfOutlivesAdmission: client and relay share one clock that is past zero at registration, because the thirty days are measured across both.
- ServerRuns.WindowsLimited: the clock the fetches read must not go back, because the event table is pruned by it.
- Paging.QueueDelivery.Deliver: how a row decodes, and the bytes it and the page's frame are encoded to, are parameters.
- PrekeyTightness.SafeExactly: client and relay read one clock, because the retention times are added across both.
- SignedLifetime.SignedHalfOutlivesAdmission: the same clock, past zero at registration; correlation IDs of rotations and uploads are new when drawn.
- Calendar.ParsesFormatted: years up to 9999, four digits as SQLite writes them; 64-bit overflow of years beyond that is not modelled.
- ClientManager.CryptoManager: the ring and the one-time prekeys are two fields holding records, where the source has seven fields; nested ledger maps are one map keyed by peer and ID.
- Redelivery.QueuedIsAnswered: clients and relay share one clock and the collector runs on time, because 30 days are set against 31 across both; an acknowledgement of the message is confirmed only after the relay carried it out, and none was queued before the message was opened.
- DeliveryCauses.NoMessageLost: message and note IDs are new when drawn, message IDs also among the sender's receipts; messages to oneself are notes, as in the client; liveness (that a message is eventually delivered) is not stated.
