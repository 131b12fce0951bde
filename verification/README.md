# omemo-go: sessions, prekeys and trust, verified

A Dafny model of the OMEMO state machine of omemo-go (XEP-0384): the `Manager` of `manager.go`, running over
the in-memory store of `memstore/memstore.go` and the session seam of `internal/signal/signal.go`. The
cryptography itself lives in another library and is symbolic here. What the repository decides, and what is
proved, is which record, session and key is used when, what is persisted, what is consumed, and under which
lock.

`dafny verify dfyconfig.toml` checks the whole project.

## Layers

1. **One device, imperative.** `MemStore.Store`, `SessionObject.Session` and `Manager.Manager` are classes
   with the fields and loops of the Go types. Each method is proved equal to a function on values in
   `StoreModel`, `Signal` or `ManagerSpec`: same new store, same result, same errors. The other modules reason
   about those functions, over single calls (`Outgoing`, `Incoming`, `FanOutProofs`, `Protocols`), over whole runs
   of one device (`Runs`, `PreKeys`, `Freshness`, `Once`, `Trust`, `Protocols`, `Persistence`) and through published
   bundles (`Agreement`). `Startup` takes an empty store through InitIdentity and NewManager to where runs begin.
2. **Interleaving.** `Interleaving` is a step relation over threads with program counters. Every store call,
   bundle fetch, resolver call, lock and unlock is one step, and every store call of a critical section or a
   generator may fail. `Serial`, `Conservation`, `Acceptance`, `Positions` and `Deliveries` prove invariants of all
   its runs. `Atomicity` ties the layer back to the first: a critical section run without interruption is
   `encryptForDevice`, or the locked part of `DecryptMessage`, and a whole thread run alone is the fan-out loop
   or `generateOneTimePreKeys`. `Sections` describes one critical section as a function of its
   device's part of the store and of what it observes elsewhere.
3. **Two parties.** `Pair` runs two managers, each with other correspondents, over in-order channels and a board of
   bundles and device lists; `Healing` repairs a broken pair in that setting.

## The symbolic primitives

Keys are numbered scalars and their public halves; nil is a constructor of its own. A Diffie-Hellman output is
the unordered pair of the two scalars. An X3DH secret is the free constructor over the four outputs, the two
identity keys of the associated data and the responder's first ratchet key (sections 3.3 and 3.4 of the X3DH
specification). A ratchet session is (secret, role, send index, received indices, whether it may send); a
ratchet message names (secret, sender's role, index, body); a responder may not send before it has received.
The payload cipher opens exactly under its key and, for ProtocolV1, its IV. Nothing about the primitives is
assumed: all of it is definitions. Every random draw is a scalar not drawn before. Counters are 32-bit and wrap,
as in the source.

## Main results

- **Round trip** (`Pair.RoundTrip`): runs of any length in both directions, with resets, rotations, generations,
  publications, new device lists, trust decisions and traffic with other devices in between; every send yields a message, every receive returns exactly what was sent (nil
  for key transport), and a pair with nothing in flight holds the two ends of one session. `Pair.Allowed` states
  the hypotheses: key exchanges do not cross, a first message uses a bundle that is still live, a reset waits
  for quiet channels, and others leave the prekeys on their way and the mutual trust and addressing alone. `Pair.FreshPairMayStart` shows two fresh devices meet them.
- **Healing** (`Healing`): from any two stores and any channels, as long as one side can address and trust the
  other and that side's bundle is live; what the other thinks of it - distrust, or nothing at all after a wiped
  storage - does not matter. What is still in flight is delivered in order. `HealingInOrder`: the healing
  message is accepted if and only if nothing in flight ahead of it takes the prekey it names.
  `HealedPairMatched`: besides, both hold the healed session and each other's identity afterwards if and only if
  nothing in flight the other way is a message of the new session or opens a session of its own, and the last
  exchange that lands carries the peer's identity; all of it is told from the messages and the store before any
  was delivered. `OldMessagesHarmless`: plain messages of earlier sessions do none of this. `HealingRematches`
  is the case where everything in flight is lost.
- **No message is read twice** (`Deliveries.NoMessageReadTwiceAnywhere`): in every interleaving - any number of senders,
  duplicates, resets, sessions replacing each other, failing store calls - two finished decryptions that returned key
  material read different places: another secret, the other direction or another index.
  `Once.NoMessageReadTwice` has it for calls made one at a time without the bound on allocations.
- **No key pair is used twice** (`Freshness.NoKeyPairReused`): over every run, all signed prekeys, one-time prekeys,
  ephemeral keys in returned messages and the identity key are different pairs.
- **What a call answers, told from its inputs** (`Outgoing`, `Incoming`): who is on the recipient list, that each of
  them gets exactly one key or one error, what a message carries, and for `DecryptMessage` exactly which messages
  decrypt, to what, and for want of what others fail.
- **Serialisability, lock discipline, progress** (`Serial`; `Sequential` shows the sequential side is the
  Manager's own calls made one at a time), **no send-position reuse** (`Positions`),
  **prekey conservation** (`Conservation`) and **at-most-once acceptance in the calls' outputs** (`Acceptance`),
  for every interleaving.
- **Key agreement through IDs** (`Agreement.KeyAgreementThroughIDs`): for every bundle ever published and every
  later run, acceptance is characterised exactly, and accepted means the same secret at both ends.
- **Usable sessions** (`Usable`): in every interleaving, with failing store calls and inside running sections,
  each stored session loads, can send and has a recorded identity.
- **Trust over whole runs** (`Trust`): every key left under an identity on record as trusted, and whatever is trusted
  was marked so by the application or is approved by the resolver; without either nothing leaves. One natural
  property fails: an accepted key exchange under another identity key whose first message does not decrypt leaves
  the new key recorded beside the old session. `Trust.UnreadableFirstMessageOrphansRecord` gives the input and `Trust.DecryptKeepsRecordIff` the
  exact condition, in terms of the message and the prekeys held.
- **Fan-out non-interference, order independence and accounting** (`FanOutProofs`). For distinct devices both
  hold if and only if no two entries clash (for non-interference: no entry is preceded by one it clashes with):
  they ask about one undecided identity key and the resolver approves it for one device but not for the other.
  `FanOutProofs.SharedIdentityKeyOrderMatters` is such a case.
- **Persistence transparency** (`Persistence`): reloading per message and keeping sessions in memory stay in step
  if and only if no section slips, that is, fails to write a session already held after the ratchet advanced it
  in place; two lemmas show what a slip changes.
- **V1/V2 agreement** (`Protocols`).
- **Pool arithmetic and signed-prekey window** (`PreKeys`), with the exact conditions under which a generation
  overwrites nothing and a rotation numbers consecutively, wrapping at 2^32 included.

Where documentation and code differ, the model follows the code. `ErrPreKeyNotFound` is documented as what
`DecryptMessage` returns for an unknown prekey (errors.go:30-37), but the in-memory store fails with a plain
error (memstore/memstore.go:131-133); only the failure is claimed. The comment on `ResetSession` says the next
message to or from the device forces a new session (manager.go:269-273); a message from it without a key
exchange fails with `ErrUnknownSession` and changes nothing (`Runs.ResetRefusesPlain`); which messages do build a
session is `Trust.BuildsSessionIff`.

## Model

| member | source | states |
|---|---|---|
| Signal.X3DHAgreement | internal/signal/signal.go:113-174 | X3DH sections 3.3 and 3.4: initiator and responder derive the same secret whenever the responder holds the private halves of the publics used and the signature is its own |
| SessionObject.Session.constructor | internal/signal/signal.go:102-111 | a session object starts in the given state, pending prekey data included |
| SessionObject.Session.Encrypt | internal/signal/signal.go:234-250 | advances the ratchet by one index and clears `pending`, also when the ratchet refuses; wraps exactly the first V1 message, with the stashed IDs |
| SessionObject.Session.Decrypt | internal/signal/signal.go:252-263 | accepts the other side's messages at unseen indices only, and is unchanged on failure |
| SessionObject.Session.MarshalBinary | internal/signal/signal.go:226-232 | the persisted form is the ratchet alone, without `pending` |
| MemStore.Store.constructor | memstore/memstore.go:32-41 | an empty store |
| MemStore.Store.SetIdentityKeyPair | memstore/memstore.go:49-54 | sets the identity key and nothing else |
| MemStore.Store.SetLocalDevice | memstore/memstore.go:62-67 | sets the local device and nothing else |
| MemStore.Store.RotateSignedPreKey | memstore/memstore.go:84-93 | the new record becomes current; the previous one becomes stale unless it was empty |
| MemStore.Store.PreKeyCount | memstore/memstore.go:95-99 | the number of live records |
| MemStore.Store.PreKeys | memstore/memstore.go:101-109 | lists every live record exactly once, in some order |
| MemStore.Store.NextPreKeyID | memstore/memstore.go:111-116 | the next 32-bit watermark, wrapping; the pool is untouched |
| MemStore.Store.PutPreKeys | memstore/memstore.go:118-125 | files the records in order under their IDs |
| StoreModel.FiledContents | memstore/memstore.go:118-125 | filing distinct IDs: exactly those IDs are added, each holds its record, every other ID keeps its own |
| MemStore.Store.ConsumePreKey | memstore/memstore.go:127-136 | fetches and deletes, or fails and changes nothing when the ID is absent |
| MemStore.Store.PutSession | memstore/memstore.go:145-150 | sets one device's session and nothing else |
| MemStore.Store.DeleteSession | memstore/memstore.go:152-157 | removes one device's session and nothing else |
| MemStore.Store.Trust | memstore/memstore.go:159-163 | the decision on record about a key; undecided exactly when none is on record, or the one on record says so |
| MemStore.Store.SetTrust | memstore/memstore.go:165-170 | sets one key's trust and nothing else |
| MemStore.Store.Devices | memstore/memstore.go:172-176 | the known device list, empty exactly when none is known or it is empty |
| MemStore.Store.SetDevices | memstore/memstore.go:178-183 | sets one account's device list and nothing else |
| MemStore.Store.PutRemoteIdentityKey | memstore/memstore.go:192-197 | records one device's identity key and nothing else |
| Manager.Manager.constructor | manager.go:57-79 | takes identity and local device from the store; no locks yet |
| Manager.Manager.InitIdentity | manager.go:85-106 | identity and device stored, signed prekey 1 signed by that identity, and 100 one-time prekeys after the watermark, all from fresh scalars; `Startup.Start` shows what NewManager then finds |
| Manager.Manager.DeviceLock | manager.go:108-118 | the device's mutex, created on first use; existing mutexes stay and none is shared |
| Manager.Manager.Bundle | manager.go:125-155 | advertises exactly the live pool, with matching publics, and the current signed prekey; fails only without an identity key |
| Manager.Manager.PublishBundle | manager.go:158-164 | the board then holds such a bundle for this device and is otherwise unchanged |
| Manager.Manager.RotateSignedPreKey | manager.go:169-188 | current ID plus one, a new pair of a fresh scalar, own signature, previous record stale; nothing changes on failure |
| Manager.Manager.GenerateOneTimePreKeys | manager.go:192-194 | adds n records with consecutive wrapped IDs after the watermark |
| Manager.Manager.GenerateInto | manager.go:196-210 | the allocation loop followed by one filing |
| Manager.Manager.NeedsMorePreKeys | manager.go:217-223 | true exactly at 25 live records or fewer |
| Manager.Manager.SyncDevices | manager.go:227-233 | replaces the account's list by the fetched one; a failed fetch changes nothing |
| Manager.Manager.DevicesFor | manager.go:235-247 | a non-empty known list is used as it is; otherwise it is fetched and stored |
| Manager.Manager.RecipientDevices | manager.go:295-319 | the account's devices, then the own account's unless it is the same account or its list cannot be fetched; which those are is `Outgoing.RecipientsExactly` |
| Manager.Manager.ResetSession | manager.go:280-289 | removes exactly this device's session, under its lock |
| Manager.Manager.EncryptMessage | manager.go:256-267 | message, per-device errors, error and new store are those of the specified call; nil plaintext is key transport |
| Manager.Manager.EncryptTo | manager.go:321-356 | one payload key for all, keys in list order, ErrNoRecipients exactly when there are none |
| Manager.Manager.EncryptForEach | manager.go:336-350 | the best-effort loop equals the left-to-right fan-out; keys and errors are its tallies |
| Manager.Manager.EncryptForEntry | manager.go:339-350 | the local device is skipped; any other entry yields a key or a device error |
| Manager.Manager.EncryptForDevice | manager.go:358-388 | open a session, check trust, encrypt, persist, then return; the lock is free again afterwards |
| Manager.Manager.EncryptLocked | manager.go:363-387 | the critical section of the above |
| Manager.Manager.CheckTrust | manager.go:393-413 | under the device's mutex: trusted passes, untrusted is blocked, undecided goes to the resolver and is recorded only on approval; told from the trust map in `FanOutProofs.TrustDecides` |
| Manager.Manager.GetOrCreateActiveSession | manager.go:419-459 | the stored session, or one against the first prekey of the fetched bundle, whose identity key is recorded only after X3DH succeeded |
| Manager.Manager.PutSession | manager.go:461-470 | persists the session's marshalled form |
| Manager.Manager.DecryptMessage | manager.go:477-514 | first key for this device, session under the sender's lock, persist before the payload is opened; its answers are `Incoming.DecryptAnswers` |
| Manager.Manager.DecryptLocked | manager.go:493-504 | the critical section of the above; a failed ratchet step persists nothing |
| Manager.Manager.GetOrCreateSessionForIncoming | manager.go:520-576 | both protocol branches: look up the signed prekey, consume the one-time prekey, derive, record the peer key |
| Manager.Manager.SignedPreKeyByID | manager.go:578-596 | the current record, else the stale one, else an error |
| Sections.EncryptIsSection | manager.go:358-388 | `encryptForDevice` reads and writes only its device's session and identity, plus the trust of one approved key |
| Sections.DecryptIsSection | manager.go:493-504 | the locked part of `DecryptMessage` reads and writes only the sender's session and identity, plus the one consumed prekey |
| Sections.ResetIsSection | manager.go:280-289 | a reset clears its device's session and keeps its identity |
| FanOutProofs.EntryFrame | manager.go:339-388 | one entry touches its own device and one key's trust only; a failed entry leaves every stored session unchanged |
| FanOutProofs.FanOutNonInterference | manager.go:321-413 | for distinct devices every outcome and every final per-device state is that of encrypting to the device alone if and only if no entry is preceded by one it clashes with; trust grows by exactly the approved keys and nothing else changes, clash or not |
| FanOutProofs.FanOutEffects | manager.go:336-413 | entry by entry: an entry ends as if alone exactly when no earlier entry clashes with it, and with another outcome otherwise |
| FanOutProofs.EntryAfterOthers | manager.go:393-413 | an entry handled after others ends as before unless, and only unless, it would have been declined and its key was approved meanwhile |
| FanOutProofs.DistinctKeysNeverClash | manager.go:321-413 | devices with distinct identity keys never clash, and each key's trust too is that of its entry alone |
| FanOutProofs.FanOutOrderIndependent | manager.go:336-350 | every permutation of the list gives the same store and the same outcome per device if and only if no two entries clash |
| FanOutProofs.SharedIdentityKeyOrderMatters | manager.go:393-413 | a clash: two new devices with one undecided identity key, approved for one of them only; order decides whether the other gets a key |
| FanOutProofs.TrustDecides | manager.go:393-413 | told from the trust map and the resolver: exactly which entries fail with ErrBlockedDevice, with ErrUntrustedDevice and with the resolver's own error, and that no other entry that asks is held up by trust |
| FanOutProofs.BuildsExactly | manager.go:427-458 | a session is built exactly on a bundle with nothing missing and a signed prekey signed by its identity key; the exchange names that signed prekey and the first one-time prekey |
| FanOutProofs.OpeningDecides | manager.go:419-442 | exactly which entries fail for want of a bundle, of prekeys, of a verifying bundle, of a readable session or of a recorded identity |
| FanOutProofs.RecordsExactly | manager.go:440-446 | an entry records its device's announced identity exactly when there is no session and the fetched bundle verifies, whatever trust then says; all other records stay |
| FanOutProofs.KeysInOrder | manager.go:344-350 | the keys are the successful entries' keys in list order |
| FanOutProofs.ErrorsInOrder | manager.go:344-350 | the device errors are the failed entries' errors in list order |
| FanOutProofs.OutcomesMatchEntries | manager.go:339-350 | each key carries its own entry's device ID; exactly the local device is skipped |
| FanOutProofs.FanOutAccounting | manager.go:295-356 | keys and errors together cover each entry but the local device exactly once; a message is returned exactly when there is a key |
| Outgoing.RecipientsExactly | manager.go:291-319 | told from the known lists and the board: the account's IDs in order, then the own account's if it is another account with a list; it fails exactly when the account has no list; lists fetched are recorded, lists known stay |
| Outgoing.EveryDeviceAnswered | manager.go:249-356 | every device on those lists but the local one gets exactly one key or one device error, in list order; ErrNoRecipients exactly without a key; without a list for the account the call changes nothing |
| Outgoing.MessageCarries | manager.go:327-336 | a message comes from this device and has payload and plaintext, and IV, exactly as asked for; every recipient key brings the one key the payload opens under |
| Outgoing.NoPayloadKeyReused | manager.go:327-330 | no two messages of a run share a payload key |
| Incoming.OfferedExactly | manager.go:533-557 | ProtocolV1 reads the exchange from the wrapped message whatever the attribute says, ProtocolV2 from the attribute |
| Incoming.ReadsExactly | manager.go:493-504 | the locked part yields key material exactly for a message of the stored session at an unseen index, or the first one of the session an acceptable exchange leads to; afterwards that session can send and has the index marked |
| Incoming.FailuresExactly | manager.go:520-596 | exactly which messages fail for want of a session, a readable session, a wrapped message, the signed prekey or the one-time prekey |
| Incoming.DecryptAnswers | manager.go:472-514 | in full: ErrOwnDeviceKeyMissing and no change exactly when no key names this device; otherwise the first such key decides, the plaintext - nil exactly without a payload - is returned if and only if it is readable and the payload opens under what it carries; ErrUnknownSession exactly for a message without an exchange from a device without a session |
| Incoming.ReadOnce | manager.go:493-504 | from any store: a message that was read fails when delivered once more, and changes nothing |
| Once.NoMessageReadTwice | manager.go:477-514 | over every run of a new device, two calls that got key material out of a message read different places (secret, direction, index), wrapping counters included |
| Once.NeverDecryptedAgain | manager.go:477-514 | a message that was decrypted fails whenever it is delivered again, whatever happened in between |
| Freshness.CallDraws | manager.go:169-210 | a rotation makes one new pair of a scalar drawn in the call, signed by this device; a generation makes different such pairs; no other call makes or changes any |
| Freshness.NoKeyPairReused | manager.go:85-106 | over every run all signed prekeys, all one-time prekeys the pool ever held, all ephemeral keys in returned messages and the identity key are different pairs, each record with both halves of its own |
| Freshness.RotationIsNew | manager.go:166-180 | after any run a rotation leaves a signed prekey different from every signed and one-time prekey before it |
| Startup.Start | manager.go:50-106 | InitIdentity on a new store and NewManager on it: a fresh device, with the identity key, the device and the resolver it was given |
| Startup.IdentityForLife | manager.go:57-79 | whatever is called, the store keeps identity key and device |
| Startup.Restart | manager.go:57-79 | so a Manager made again from the store of a running one is the same device |
| PreKeys.GenerationAdds | manager.go:196-210 | below 2^32 allocations a generation adds exactly n records and overwrites none |
| PreKeys.PoolArithmetic | manager.go:11-17 | after any run the pool holds 100 + generated - consumed records, each with both halves; the top-up signal means consumed - generated >= 75 |
| PreKeys.BundleAdvertisesPool | manager.go:125-155 | a bundle lists exactly the live IDs, with the live publics |
| PreKeys.GenerationKeepsIff | memstore/memstore.go:111-125 | at any watermark and for any count a generation keeps every live record if and only if none of the IDs it allocates, wrapping included, is live |
| PreKeys.WrappedAllocationOverwrites | memstore/memstore.go:111-116 | the failing case at the 2^32nd allocation: live record 1 is overwritten |
| PreKeys.AcceptedConsumes | manager.go:520-576 | a key exchange that decrypted did consume its prekey |
| PreKeys.RedeliveryFails | store.go:60-63 | redelivering a consumed key exchange after any later run fails and leaves the store unchanged |
| PreKeys.SignedPreKeyWindow | manager.go:578-596 | after any run with fewer than 2^32 rotations lookup succeeds exactly for the current and the previous rotation, with that rotation's record; stale ID plus one is current ID |
| PreKeys.RotationWraps | manager.go:182-188 | the bound is needed: the rotation after ID 2^32 - 1 is numbered 0 |
| Trust.TranscriptIsReturned | manager.go:336-355 | the transcript of a run lists exactly the recipient keys of the messages it returned, in order |
| Trust.EveryKeyLeftTrusted | manager.go:368-413 | over every run each key of each returned message left while its device's recorded identity was on record as trusted; calls change the record only from nothing or undecided to trusted, with approval |
| Trust.TrustHasASource | manager.go:399-412 | over every run a key is on record as trusted, or its device gets a recipient key, only if it was on record to begin with, the application marked it, or the resolver approves it |
| Trust.NothingLeavesUndecided | manager.go:43-48 | a new device without a resolver returns no recipient key to anybody until the application has marked a key trusted |
| Trust.UntrustedGetsNothing | manager.go:399-404 | a key marked untrusted stays so, and no returned message has a key for a device recorded under it, until the application changes it |
| Trust.StoredSessionsUsable | manager.go:368-385 | after any calls made one at a time each stored session loads, can send and has a recorded identity, so no entry of a fan-out fails for want of one |
| Usable.SessionsUsableThroughout | manager.go:368-385 | the same in every interleaving, with failing store calls and inside running sections; and no finished section ever failed for want of a recorded identity, a readable session or a sending chain |
| Usable.FreshIsUsable | manager.go:85-106 | so from a device fresh from InitIdentity |
| Trust.AcceptedExactly | manager.go:557-576 | an exchange is accepted exactly when both IDs are found and no key is nil, and its first message opens exactly when it is an initiator's message under the derived secret |
| Trust.DecryptKeepsRecordIff | manager.go:557-576 | recorded identity and stored session stay in step exactly unless an acceptable exchange under another key carries a first message that is not of the session it leads to |
| Trust.UnreadableFirstMessageOrphansRecord | manager.go:562-574 | such an input: the prekey is consumed, the new key recorded, the old session kept |
| Trust.RecordsAreSessionPeers | manager.go:368-385 | if every device keeps one identity key for life, the recorded key is always the session's peer key |
| Persistence.EntryTransparent | internal/signal/signal.go:240-263 | one section on a live session, advanced in place, and on its reloaded form: same output, nothing pending afterwards, and the same stored form if and only if the section does not slip |
| Persistence.ReloadingIsTransparent | internal/signal/signal.go:210-250 | over every history, with any failures, reload-per-message and keeping sessions in memory stay in step at every point if and only if no section slips |
| Persistence.TransparentWithoutPutFaults | manager.go:461-470 | in particular histories without a failing session write are transparent, although `pending` is not persisted |
| Persistence.LiveSettled | internal/signal/signal.go:91-111 | whatever failed, a session that was kept has nothing pending and reloads to itself |
| Persistence.SlippedSendSkipsIndex | manager.go:379-387 | after a slipped send the live session skips the index whose key was never returned; the reloaded one uses it next |
| Persistence.SlippedReceiveRefusesRetry | manager.go:498-504 | after a slipped receive the live session refuses the redelivered message; the reloaded one decrypts it |
| Persistence.PersistingEarlyLosesTheWrapper | internal/signal/signal.go:91-111 | why the order matters: a V1 session persisted before its first encryption would send an unwrapped first message |
| Protocols.SendSectionAgrees | manager.go:436-458 | V1 data is wrapped exactly when KeyExchange is set, with the same keys and unswapped IDs; otherwise V1 and V2 sending agree |
| Protocols.ReceiveSectionAgrees | manager.go:533-575 | the two receive branches derive the same session and record the same identity |
| Protocols.SendAgrees | manager.go:321-356 | a V1 call and its V2 translation return the same message up to wrapping and IV, the same errors and equivalent stores |
| Protocols.ReceiveAgrees | manager.go:520-576 | an honest message consumes the same records, records the same identity and gives the same result in both |
| Protocols.ProtocolsAgreeOverRuns | manager.go:520-576 | the two stay equivalent over every run with honest messages |
| Protocols.ResultsAgreeAfterRuns | internal/signal/signal.go:176-208 | at any point of such a run the next send and the next receive return the same |
| Agreement.LookupsFindAdvertised | manager.go:578-596 | whatever happened since publication, an ID that still finds a record finds the advertised one; the signed prekey is found exactly while at most one rotation passed |
| Agreement.ExchangeAgrees | manager.go:427-458 | one exchange against the advertised halves: accepted exactly when both IDs are found, same secret, first message readable |
| Agreement.KeyAgreementThroughIDs | manager.go:557-575 | the same for every bundle ever published, every later run of the publisher and every initiator |
| Serial.InvOverRuns | manager.go:108-118 | the invariant of every interleaving: mutexes are exclusive, and each device's part of the store is a serial execution up to the running section |
| Serial.Serialisable | manager.go:358-388 | sections of a device finish in lock order, each its thread's job, with the outputs and the final session and identity of executing them one after the other; no update is lost |
| Sequential.RunIsReplay | manager.go:256-289 | the Manager's calls made one at a time are, for every device, the replay of their sections: the sequential execution of the row above, with the calls' own results |
| Serial.ProgressAndNoDeadlock | manager.go:339-366 | some thread can step until all have returned, and every step brings the end nearer |
| Serial.LocksInjectiveAndStable | manager.go:108-118 | one mutex per device for ever, and a thread holds at most one |
| Conservation.FilingIsSafe | memstore/memstore.go:118-125 | filing a generator's batch overwrites no live record and revives no consumed ID |
| Conservation.PreKeysConserved | manager.go:196-210 | every step keeps the partition of allocated IDs and the key-pair invariant, with any interleaving of generators, deliveries and failures |
| Conservation.Conserved | store.go:54-58 | allocated IDs are the disjoint union of pool, consumed, burned and in-flight IDs; generators hold disjoint IDs |
| Conservation.AcceptedAtMostOnce | store.go:60-63 | each one-time prekey ID is accepted into at most one session, and is gone from the pool for good |
| Conservation.RedeliveryRejected | memstore/memstore.go:127-136 | in any interleaving each step at the prekey calls of an exchange naming a consumed prekey leaves store and history alone and leads towards an error |
| Acceptance.TakersOverRuns | manager.go:540-566 | in every interleaving whoever took a prekey consumed it and nobody else took it |
| Acceptance.AcceptedOnceInOutputs | store.go:60-63 | at most one finished `DecryptMessage` section, over all devices, returned key material for an exchange naming a given one-time prekey |
| Acceptance.RedeliveryErrs | store.go:60-63 | once a prekey is consumed, every section that starts later and names it ends with an error output |
| Acceptance.AcceptedIsConsumed | manager.go:540-566 | an exchange that returned key material has consumed its prekey, so redelivering it errs |
| Conservation.FreshDeviceStarts | manager.go:85-106 | a device fresh from InitIdentity meets the starting conditions of these theorems |
| Positions.PositionsOverRuns | manager.go:461-470 | returned keys stay behind the stored send index in every interleaving, across resets, replaced sessions and failing store writes |
| Positions.NoPositionReused | manager.go:379-387 | no two returned recipient keys share secret, direction and send index |
| Deliveries.ReadsOverRuns | manager.go:493-504 | in every interleaving whatever was read is marked in the session it belongs to for as long as that is stored, and that session is never derived again |
| Deliveries.NoMessageReadTwiceAnywhere | manager.go:489-504 | in every interleaving two finished `DecryptMessage` sections that returned key material read different (secret, direction, index) |
| Atomicity.SealSectionIsEncryptForDevice | manager.go:358-388 | the interleaving layer's encryption steps, uninterrupted, are `encryptForDevice` |
| Atomicity.OpenSectionIsDecryptKey | manager.go:489-504 | the interleaving layer's decryption steps, uninterrupted, are the locked part of `DecryptMessage` |
| Atomicity.SealThreadIsFanOut | manager.go:336-350 | a thread encrypting for a list of devices, run alone, is the fan-out over that list and returns its keys |
| Atomicity.GenThreadIsGenerated | manager.go:196-210 | a generator thread run alone is `generateOneTimePreKeys` |
| Pair.SendKeeps | manager.go:321-388 | an allowed send yields a message and keeps the two ends matched |
| Pair.ReceiveKeeps | manager.go:477-514 | a receive returns what was sent and keeps the two ends matched |
| Pair.InvOverRun | manager.go:321-388 | every allowed run keeps the pair invariant and every turn returns what it should |
| Pair.RoundTrip | manager.go:477-576 | the whole-run round trip, and matched sessions whenever nothing is in flight |
| Healing.DeliveredPool | manager.go:540-566 | delivering any messages in order changes only sessions, identities and prekeys, and a prekey is gone exactly when some message takes it |
| Healing.HealingInOrder | manager.go:265-289 | reset and key transport, with everything already in flight delivered first, whatever the receiver thinks of the sender: accepted if and only if nothing in flight takes the named prekey; then both ends hold one fresh session, otherwise the receiver is unchanged |
| Healing.StaleLeavesEnd | manager.go:493-504 | the healed end is what it was after all stale messages if and only if none of them is a plain message of that session, or an exchange with held halves, prekey not taken before, whose first message opens |
| Healing.HealedPairMatched | manager.go:265-289 | after everything in flight was delivered at both ends the two hold the healed session and each other's identity exactly under those conditions, the last exchange that lands carrying the peer's identity; ready for a round-trip run if each could encrypt to the other |
| Healing.RecordOnInputs | manager.go:572-574 | the identity on record after any messages is that of the last exchange in the peer's name with held halves and a prekey not taken before, or the earlier record |
| Healing.OwnIdentityKept | manager.go:572-574 | in particular the peer's own identity stays when every exchange in its name carries it |
| Healing.OldMessagesHarmless | manager.go:265-289 | plain messages of earlier sessions, in either direction, do not prevent healing |
| Healing.HealingRematches | manager.go:265-289 | reset, key transport and delivery re-establish one session from any two stores when what was in flight is lost, whatever the receiver thinks of the sender |
| Runs.ResetRefusesPlain | manager.go:269-289 | after a reset a message from the device without a key exchange fails with ErrUnknownSession and changes nothing |
| Trust.BuildsSessionIff | manager.go:269-289 | where there is no session, a message leaves one if and only if it carries an exchange whose halves this device holds and a first message of the session it leads to |
| Pair.PublishedIsLive | manager.go:578-596 | a published bundle stays live while at most one rotation passed and its first prekey is unconsumed |
| Pair.FreshPairMayStart | manager.go:85-106 | two fresh devices with published bundles meet every hypothesis of the round trip |

## Left out

- Curve arithmetic, signatures, AEAD, protobuf and Double Ratchet internals (skipped-key limits, 32-bit message counters): they live in xochimilco, which is not part of this model. Only well-formed or nil keys are distinguished, not the two protocols' key formats; a missing one-time prekey public makes X3DH fail.
- Secrecy, forward secrecy and what an attacker learns: only functional correctness is stated.
- Contexts, cancellation, error texts and wrapping, `String()` methods, options, getters and JSON or XML handling.
- Transport: a fixed board of lists and bundles during one call in the single-device layer; any bundle or a failure at each fetch in the interleaving layer.
- Store failures other than an unknown prekey: not in the single-device layer (the in-memory store has no others); every call may fail in the interleaving layer.
- Stores that roll back or are edited behind the Manager, aliasing of stored blobs, and a store shared by two protocols.
- A trust resolver is a pure function of device and key in the single-device layer and an arbitrary answer in the interleaving layer; one that re-enters the Manager is not modelled.
- Overlapping `RotateSignedPreKey` calls: possible in the interleaving layer, but no theorem there depends on signed-prekey IDs; the window is for rotations one after the other. Likewise concurrent `SetTrust` by the application.
- Process restarts inside a run: `Conservation.PreKeysConserved` starts from any state of its invariant, but the interleaving theorems otherwise start with no call running.
- A negative count for `GenerateOneTimePreKeys` (it panics), and `InitIdentity` on a store whose identity generation fails.
- Manager.Manager.EncryptForEach: hands every entry of the list one fresh scalar, used only if the entry builds a session; the numbering of scalars is a modelling device.
- Manager.Manager.RotateSignedPreKey: a Manager without an identity key reports an error; what signing with a malformed key does is the cryptographic library's affair.
- Freshness.NoKeyPairReused: for calls made one at a time; in the interleaving layer rotations are background changes, and one-time prekeys and ephemeral keys are covered by `Conservation` and `Positions`.
- FanOutProofs.FanOutNonInterference: for recipient lists without a repeated device; a repeated entry is a second message on the session the first one left.
- Pair.RoundTrip: key exchanges that cross are excluded, because each side would then replace the session it just opened and the code does not reconcile them; channels deliver in order and once.
- Serial.ProgressAndNoDeadlock: transport and resolver calls are single steps, so that they return is assumed.
- PreKeys.PoolArithmetic: for runs without concurrent or aborted generations; `Conservation.Conserved` covers those.
- The interop bridge, the XMPP stanza layer and the tests.
