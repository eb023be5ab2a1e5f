# Verified model of the agent-bus client

This project models the protocol engine of the agent-bus client (and one server-side
adapter and one audit script) in Dafny, and proves what the engine promises over every
input and every run. `dafny verify dfyconfig.toml` checks all of it.

Go strings and byte slices are Dafny strings, one `char` per byte. Ed25519 (section 5.1 of
RFC 8032) is abstract: a signature is named by the bytes it covers, and a public key by its
seed. Clocks, randomness, the network, the disk and the bus appear as parameters, as
scripts that may choose any outcome, or as environment steps. Each step machine states
its environment contract in the guard of its steps (`Enabled`, or the guard of a method).

## What is proved

**Enrolment (`CredentialStore`, `Enrolment`, `EnrolmentSafety`, `EnrolmentHazards`,
`PayloadAgreement`, `MessagingKeys`, `EnrolOnce`, `EnrolAgain`).** Any number of processes share one
credential document; each locked update is a step, the operator's and the minting of a
messaging key included; requests and answers are lost or late; processes crash anywhere.
The bus applies a request at most once per (bus, key), reports success only for the applied
content, and stands by a refusal.

- No orphaned identity is **not** true of every run of the code. It holds over all runs that
  keep a four-clause discipline (`NoIdentityIsOrphaned`), and for each clause there is, for
  every record and invite, a run that breaks only that clause and orphans an identity:
  a resume under another invite or secret while the drawing process still runs
  (`OtherInviteOrphans`); a failure before sending in the drawing process after somebody
  resumed its record (`LocalGiveUpOrphans`); an erasure of the record under a running
  process, followed by a new enrolment under the same key (`ErasureOrphans`); and a call
  that does not save (`UnsavedOrphans`).
- Same key, same payload is **not** true of every run either. A claim that outlives the
  emptying of its slot, or a call that does not save, sends other keys under the same key
  (`StaleClaimDisagrees`, `UnsavedDisagrees`). Over every run, two requests sent at a slot
  carry the same keys if and only if their attempts were claimed in the same period of the
  slot, between two moments at which the document holds nothing there, or they come from
  the same unsaved call (`PayloadsAgree`). Moving an identity to its TLS address leaves the
  old slot.
- A messaging key minted after enrolment is in no pending record. A second attempt on the
  same record replaces the whole credential when it is promoted, and writes "" over the
  minted seed (`MintedSeedOverwritten`). `SeedLostExactly` says which steps lose it.

- Enrolment is idempotent per key, bus and name. Once a call is granted, every later call
  under them answers from the store and sends nothing, whatever seeds, invite, clock and
  network it comes with (`EnrolTwice`), until an update disturbs it; `FiledUnlessDisturbed`
  says exactly which updates do. The bus names the identity: when it sends another name than
  the one asked for, re-running the same call is a name conflict (`FiledIsApplied`).

**Lock and save (`StoreLock`, `AtomicSave`).** Every file operation is a step. With no live
owner older than 30 seconds and every stale break removing a file that is still stale, at
most one process is inside an update and the document is the saved mutations in acquisition
order. The second assumption is needed: the code stats the lock, then reads its token, and
in between another process may have broken and retaken it (`StatThenReadAdmitsTwo`). The
release needs no such assumption, and a lock file that is there has a live owner or one that
was stopped. A crash at any moment leaves each document whole.

**Sending (`BusLog`, `Sending`).** One call under one key: two legs, retries, one
re-handshake, late and repeated deliveries, forgotten reservations. The contracts say when a
copy is sent again and when it is the last one, in kinds and statuses.

**Signed bytes (`Framing`, `MessageIds`, `SortedStrings`, `Canonical`, `Fingerprints`,
`SigningLanguages`).** Injectivity up to recipient order, one spelling per message id,
pairwise disjoint languages, and where each field stands.

**Watching (`Watching`, `CursorRecords`, `CursorMigration`, `CursorTable`, `CursorHistory`).**
At-least-once over kills, handler errors, damaged batches and lost cursors, on the real cursor
file with other agents writing, evicting, clearing and damaging it; and which failed polls end
a watch. The migration joins its key with a NUL,
so it is faithful exactly when no two pairs join to one string, which NUL-free agent ids
guarantee. A position is read back if and only if its key was present, the table had room,
or some stored position is not newer than the clock. Over a history of sets and clears a new
key in a full table displaces the key whose last set is oldest (`LeastRecentlySetGoes`), so a
position set strictly later than another survives. That it was set later is not enough when
the time stamps are equal: then the first of the table goes, even if it was set a moment ago
(`TieDisplacesTheJustSet`).

**Smaller cores.** Write-once certificate (`ClientCertificate`), sessions
(`SessionFlight`), accepted certificates up to the connection, over runs that interleave pin
commands with connections through one cached transport (`PinSet`, `AcceptSet`), the transit meter
(`TransitMeter`), the Go stripper (`GoStripper`). Found on the way: the session schedule
made during certificate migration lacks the correction the ordinary one has, so its refresh
can fall after its expiry; a store-level bootstrap with the zero fingerprint leaves a TLS
identity without a pin; the stripper's "preserving line structure" fails for a line break
behind a backslash in a string or rune literal, and only there.

## Model

| member | source | states |
|---|---|---|
| `CredentialStore.RemovePending` | client/store.go:1595-1607 | Exactly the records of one (key, bus) go. |
| `CredentialStore.PrunePending` | client/store.go:1612-1625 | Exactly the records older than 24 hours go; one whose time stamp does not parse stays. |
| `CredentialStore.FindCredential` | client/store.go:1244-1251 | The first credential of an agent id, or none. |
| `CredentialStore.ResolveSpec` | client/store.go:1192-1231 | An agent id wins over a name, and a name resolves only when one identity has it. |
| `CredentialStore.LowestIsLowest` | client/store.go:1627-1635 | The fallback selection is the least stored agent id, and empty only when nothing is stored. |
| `CredentialStore.LogoutForgets` | client/store.go:1278-1300 | Logout removes that credential and its in-flight record and nothing else, and reselects the least agent id only when the selection goes. |
| `CredentialStore.DecideMeaning` | client/store.go:1450-1499 | What each outcome of a claim means in terms of what is stored at (key, bus): a credential before a record, the name before the invite. |
| `CredentialStore.FiledIsApplied` | client/store.go:1453-1466 | An identity filed at (key, bus) answers every claim under its name, whatever seeds and invite are offered, and conflicts with every other name. |
| `CredentialStore.Store.ClaimEnrolment` | client/store.go:1450-1499 | One update answers applied, resumed, fresh or conflict from the pruned document; a conflict saves nothing, and only a fresh claim inserts. |
| `CredentialStore.Store.DropPending` | client/store.go:1503-1508 | The pruned document without the slot's record. |
| `CredentialStore.Store.PromotePending` | client/store.go:1563-1593 | Credential in and pending record out in one update; refused without an agent id or a seed. |
| `CredentialStore.Store.Remove` | client/store.go:1278-1300 | Logout of the identity a reference resolves to, or no change. |
| `CredentialStore.Store.RemoveAll` | client/store.go:1310-1326 | Nothing is left, in-flight key material included, and the removed agent ids come back sorted. |
| `CredentialStore.Store.SetCurrent` | client/store.go:1255-1269 | Selects the identity the reference resolves to, or changes nothing. |
| `CredentialStore.Store.EnsureMessagingKey` | client/store.go:320-352 | Draws a messaging seed only for an identity without one, under the lock, and stores it; one that has a seed is only read. |
| `EnrolOnce.Enrol` | client/enrol.go:241-566 | What is sent is built from the record the claim found or wrote, under the wanted key, bus and name; a legible grant ends done and files that identity under the key and bus; one already filed is answered from the store and nothing is sent; damaged material sends nothing and keeps the record; the seeds that were sent are still held unless this attempt drew them and was refused on the merits. |
| `EnrolOnce.Settle` | client/enrol.go:492-566 | Promote, drop or keep, by what came back: done exactly when the grant is legible and, if saved, complete, and then the document holds the ids, name, pins and seeds of the grant under the key; an illegible or incomplete grant leaves the document alone. |
| `EnrolOnce.ConcludedHolds` | client/enrol.go:696-765 | For every answer, the private halves of what was sent stay in the document unless the drop rule applies. |
| `EnrolAgain.FiledUnlessDisturbed` | client/store.go:1278-1607 | An update keeps an enrolment filed if and only if it does not log that identity out, move it, grant it elsewhere, or put another identity in its place. |
| `EnrolAgain.FiledStays` | client/store.go:1450-1466 | It stays filed over any run of updates that do none of that. |
| `EnrolAgain.EnrolTwice` | client/enrol.go:353-373 | Two calls under one key, bus and name: after the first one's grant, and any undisturbing updates, the second sends nothing and answers with the same identity. |
| `EnrolmentSafety.NoIdentityIsOrphaned` | client/enrol.go:353-376 | Over every disciplined run with crashes, losses and resumes, the seeds of every key a bus granted are pending or stored here in one record, or were erased by logout or the 24-hour rule. |
| `EnrolmentSafety.StepKeeps` | client/store.go:1450-1508 | Every step of every process, of the bus and of the operator keeps the protocol invariant: claims, sends, answers, settlements, crashes, pruning, logouts, selection, pin changes, the move to TLS and the minting of a messaging key. |
| `EnrolmentHazards.NoBreachIsDisciplined` | client/enrol.go:696-765 | A run without breaches is a disciplined run, and conversely. |
| `EnrolmentHazards.OtherInviteOrphans` | client/store.go:1479-1493 | For every record and every other invite the claim admits, a run that breaks only the same-invite clause orphans an identity. |
| `EnrolmentHazards.LocalGiveUpOrphans` | client/enrol.go:739-765 | For every record, a local failure after a resume orphans an identity. |
| `EnrolmentHazards.ErasureOrphans` | client/enrol.go:739-765 | For every record, a logout under a running attempt and a new enrolment under its key orphan an identity. |
| `EnrolmentHazards.UnsavedOrphans` | client/enrol.go:353-376 | For every record, a call that does not save is granted keys the document never held. |
| `EnrolmentHazards.StaleClaimDisagrees` | client/enrol.go:335-462 | For every record, a claim still running after the slot was emptied and the next claim there send different keys under the same key. |
| `EnrolmentHazards.UnsavedDisagrees` | client/enrol.go:335-376 | So do a call that saves and one that does not. |
| `PayloadAgreement.PayloadsAgree` | client/enrol.go:335-462 | In every run, two requests sent at a slot carry the same authentication key if and only if they were claimed in the same period of the slot or belong to the same unsaved call; then name, messaging key and, when the record names one, invite id agree too. |
| `PayloadAgreement.StepAgrees` | client/store.go:1450-1508 | Every step keeps the invariant behind it: a record of the current period is the only one its slot may hold, and one of an earlier period never returns. |
| `MessagingKeys.SeedLostExactly` | client/store.go:1567-1572 | A stored messaging seed survives a step if and only if the step is neither a logout of the identity nor a promotion of it under a record without that seed. |
| `MessagingKeys.AgentsStayDistinct` | client/store.go:1563-1593 | No run stores an agent id twice. |
| `MessagingKeys.MintedSeedOverwritten` | client/store.go:1567-1572 | For every record without a messaging seed, a disciplined run in which a promotion writes "" over a minted seed. |
| `Transport.RefusalsAreNotRetried` | client/transport.go:419-520 | No 4xx answer but 429 is ever retried, by the transport or by the watch, or treated as ambiguous. |
| `Transport.StatusDecides` | client/transport.go:419-520 | For every status: which answers are retried by the transport, call for a new session, leave the outcome open, or let a watch go on. |
| `StoreLock.UpdatesLinearise` | client/store.go:1026-1137 | Over every undisturbed run at most one process is inside an update, and the document is the saved mutations in acquisition order. |
| `StoreLock.LockLeavesOnlyWithItsOwner` | client/store.go:1101-1107 | No release, break or crash removes a live owner's lock except that owner's own release. |
| `StoreLock.LockIsAccountedFor` | client/store.go:1026-1137 | Nobody forgets a lock: one that is there belongs to a live owner, or to one that was stopped before it could remove it. |
| `StoreLock.ReleaseReadsItsOwnToken` | client/store.go:1101-1107 | Whatever was disturbed before, a release unlinks only after reading its own token in the file. |
| `StoreLock.AtomicBreakIsUndisturbed` | client/store.go:1061-1065 | Stat, read, compare and unlink in one go remove exactly the file found stale. |
| `StoreLock.DisturbedBreakAdmitsTwo` | client/store.go:1061-1065 | An unlink that meets a live owner's lock admits a second owner at the next step. |
| `StoreLock.StatThenReadAdmitsTwo` | client/store.go:1061-1065 | Such a run exists with every owner within its 30 seconds. |
| `AtomicSave.SweptExactly` | client/store.go:1146-1154 | One document's sweep pattern matches its own temporary files and no other entry of either document. |
| `AtomicSave.SpellingInjective` | client/store.go:954-966 | Different directory entries have different file names, so a directory may be keyed by entry. |
| `AtomicSave.SweepLeaves` | client/store.go:1146-1154 | A sweep removes the temporary files of its own document and nothing else. |
| `AtomicSave.CrashLeavesAWholeDocument` | client/store.go:954-1000 | At every moment of every run, a crash leaves each document as found or exactly as handed to some save, never older than the last promised one; readers see the newest. |
| `AtomicSave.CompletedSaveSurvives` | client/store.go:991-999 | Once the directory flush succeeds, a crash finds that save. |
| `AtomicSave.SaveGoesThrough` | client/store.go:954-1000 | A save that meets no failure goes through from create to directory flush: its content is installed, promised, and what a crash finds. |
| `AtomicSave.PromiseStands` | client/store.go:954-1000 | What was promised stays installed through every later step and crash. |
| `BusLog.AppliedOnce` | client/messages.go:610-634 | Under deduplication by key, a key in the table has exactly one message in the log. |
| `BusLog.DeliveredGrows` | client/messages.go:610-634 | Any order and number of deliveries only adds transmitted messages. |
| `BusLog.NeverASecondMessage` | client/messages.go:610-634 | When one content was ever transmitted under a key, no late delivery gives the bus a second message or another one. |
| `Sending.SignOutgoing` | client/messages.go:566-602 | Signs if and only if the bus names this agent as sender and the content is canonical; the signature covers exactly that content under the agent's own id. |
| `Sending.Network.Do` | client/transport.go:271-316 | At most `attempts` identical copies. Every copy but the last met no answer or a bus short of capacity (Network, 429, 503 with Retry-After) in a live context; any other failure is the last one, and such a one is only when the attempts are used up or the context ended. Success is confirmed by the bus. |
| `Sending.Network.AuthorizedRequest` | client/session.go:437-461 | A second handshake and a second round happen exactly when the first round ended in an authentication failure; the answer is that of the last round. |
| `Sending.Network.Reserve` | client/messages.go:519-553 | Only well-formed reservations with a non-zero sequence come back. |
| `Sending.Network.Send` | client/messages.go:635-781 | Whatever the network does: one content at most, every copy identical, at most one message under the key, exactly one on success, and it is that content. The second leg happens exactly when the first brought a reservation this agent signs for, and each leg stops as its contract says. |
| `Sending.SendIsFinal` | client/messages.go:635-781 | After a call under an unused key, nothing still in the network can apply a second or different message. |
| `Framing.FieldSplit` | client/canonical.go:544-550 | A length-prefixed field determines where it ends. |
| `Framing.ListSplit` | client/canonical.go:242-276 | So does a counted list of such fields. |
| `MessageIds.ParseSignedMessageId` | client/canonical.go:384-422 | Accepts exactly `<bus>-<decimal>` with a legal bus and 1 ≤ n < 2^64, and returns that bus and n. |
| `MessageIds.MessageIdUnique` | client/canonical.go:370-422 | An id has one reading, although bus ids may contain '-'. |
| `MessageIds.QualifyingBusId` | client/canonical.go:431-449 | The bus half of a qualified id, and none otherwise. |
| `SortedStrings.SortInPlace` | client/canonical.go:346-360 | The in-place sort yields the reference arrangement. |
| `SortedStrings.SortedSpec` | client/canonical.go:346-360 | The reference arrangement is ascending and a permutation. |
| `SortedStrings.AscendingUnique` | client/canonical.go:346-360 | A multiset of strings has one ascending arrangement. |
| `Canonical.ValidateRecipients` | client/canonical.go:330-360 | Neighbour comparison on a sorted copy finds every duplicate; each refusal names a real fault; the caller's slice is only read. |
| `Canonical.Validate` | client/canonical.go:310-366 | Accepts exactly the acceptable messages; a refusal names a fault of the message, the first in the order of the checks. |
| `Canonical.Canonicalize` | client/canonical.go:242-276 | Canonical bytes for an acceptable message; otherwise no bytes and the first fault. |
| `Canonical.CanonicalInjective` | client/canonical.go:242-276 | Equal bytes if and only if all scalars and the body agree and the recipient sets agree. |
| `Canonical.RecipientOrderIrrelevant` | client/canonical.go:310-366 | Any permutation of the recipients is accepted alike and signs the same bytes. |
| `SigningLanguages.CanonicalizeAck` | client/ack.go:160-234 | Bytes exactly for a well-formed acknowledgement, built field by field. |
| `SigningLanguages.AckFieldsStand` | client/ack.go:160-181 | Each field of the acknowledgement stands behind the one before it, with its length, and the time at the end. |
| `SigningLanguages.ValidateChallengeToken` | client/session.go:375-397 | Accepts exactly 1 to 512 characters of the base64url alphabet. |
| `SigningLanguages.BootstrapInjective` | client/mtls_migrate.go:150-152 | The bootstrap bytes determine token, key and fingerprint. |
| `SigningLanguages.BootstrapText` | client/mtls_migrate.go:150-152 | The bootstrap bytes as one text: context, token, key and fingerprint, the last two behind a colon. |
| `SigningLanguages.AckInjective` | client/ack.go:160-181 | The acknowledgement bytes determine all five fields. |
| `SigningLanguages.SignedBytesDetermineArtefact` | client/session.go:307-307 | The four languages are pairwise disjoint, and the bytes determine the artefact. |
| `Fingerprints.ParseBusFingerprint` | client/pin.go:109-132 | Accepts exactly 64 lowercase hex characters and inverts the printer. |
| `Fingerprints.HexInjective` | client/pin.go:109-132 | Two fingerprints never print alike. |
| `Watching.BatchLimit` | client/watch.go:340-354 | The largest limit within the bus's ceiling, the caller's limit and what is still wanted; the caller's own without a bound. |
| `Watching.ValidateBatch` | client/messages.go:967-1086 | Succeeds exactly when the cursor and every field are well formed and every body agrees with its description; fatal exactly when the first bad message has well-formed fields and a disagreeing body. |
| `Watching.World.HandOver` | client/watch.go:272-279 | The batch is handed over in order up to the first refusal. |
| `Watching.World.Iterate` | client/watch.go:232-325 | The cursor moves only past a wholly accepted batch, and is persisted only then. A failed poll in a live context is followed by another one exactly when the failure is not fatal and of kind Network or Server, and otherwise ends the watch with that very failure; a batch is followed by another unless it was the last one wanted. |
| `Watching.World.Watch` | client/watch.go:153-326 | The reported cursor, and the one the cursor file shows, cover only accepted or already expired messages; each message once, in order and whole; a clean end falls between batches; a bounded watch on a limit-honouring bus never exceeds its bound. Every poll but the last was a batch or a transient failure in a live context; the watch stops with a failure only for a usage error or a failure that is fatal or of another kind, and then it has accepted exactly what the batches brought. |
| `Watching.World.OtherActs` | client/cursorstore.go:199-265 | Another agent's set, clear or damage of the cursor file takes effect, and this agent's position stays or is lost. |
| `Watching.World.Write` | client/cursorstore.go:199-265 | A position written is shown by the file exactly under the read-back condition, and otherwise none is. |
| `Watching.World.WatchAgain` | client/watch.go:153-326 | Over any sequence of killed, failed and resumed watches, with other agents using, evicting from, clearing and damaging the same file, everything between the first start and the position the file shows was accepted or had expired. |
| `CursorMigration.CollapseCorrect` | client/cursorstore.go:396-450 | One record per key, the latest-updated with the first winning ties, and no key lost. |
| `CursorMigration.QualifiedMembers` | client/cursorstore.go:406-415 | Exactly the records that belong to some bus are kept, by their own bus id or by the one in the agent id. |
| `CursorMigration.Migrate` | client/cursorstore.go:396-450 | The in-place pass with its index map equals the reference. |
| `CursorMigration.MigrationMeaning` | client/cursorstore.go:396-450 | For NUL-free agent ids the result is the best record of each (agent, bus) pair. |
| `CursorMigration.MigrationExactly` | client/cursorstore.go:396-450 | In terms of the file as found: a record comes out exactly when it is the latest of its agent and bus, the first among equally late ones, and each pair comes out once. |
| `CursorMigration.JoinedKeyIsFaithful` | client/cursorstore.go:416-416 | The joined key migrates as the pair does if and only if no two pairs join to one string. |
| `CursorMigration.CollisionLosesOne` | client/cursorstore.go:416-424 | When two pairs do, one position is lost. |
| `CursorMigration.NulCollides` | client/cursorstore.go:416-416 | Two such pairs. |
| `CursorMigration.MigrationIdempotent` | client/cursorstore.go:396-450 | Migrating again changes nothing. |
| `CursorTable.EvictsTheOldest` | client/cursorstore.go:257-265 | Exactly the surplus over 256 goes, and nothing that goes is newer than anything that stays. |
| `CursorTable.UpdatedKeepsTable` | client/cursorstore.go:199-229 | From at most 256 records with unique keys, setting keeps both. |
| `CursorTable.ReadBack` | client/cursorstore.go:199-265 | A well-formed cursor is read back if and only if the key was there, there was room, or some record is not newer than the clock. |
| `CursorTable.OthersKept` | client/cursorstore.go:199-265 | Another position reads as before unless its record was evicted as the oldest of a full table. |
| `CursorTable.ClearForgets` | client/cursorstore.go:233-252 | Clearing forgets that position and no other. |
| `CursorTable.TableIsMigrated` | client/cursorstore.go:325-349 | Loading a stored table does not change it. |
| `CursorTable.CursorFile.Cursor` | client/cursorstore.go:165-191 | The looked-up position, or none for damage of any kind; an error only for an empty key. |
| `CursorTable.CursorFile.SetCursor` | client/cursorstore.go:199-229 | The updated table on success, no change on failure; over-long cursors are refused. |
| `CursorTable.CursorFile.ClearCursor` | client/cursorstore.go:233-252 | The table without that key on success, no change on failure. |
| `CursorTable.SetThenRead` | client/cursorstore.go:165-229 | Set then look up through the file yields the cursor when the clock is not behind the stored times. |
| `CursorHistory.StampedByLastSet` | client/cursorstore.go:199-229 | Over any history, each stored record carries the time and the cursor of the last set of its key. |
| `CursorHistory.LeastRecentlySetGoes` | client/cursorstore.go:217-265 | Under a clock that does not run backwards, a new key in a full table displaces exactly one key, the one whose last set is oldest, the first of the table among equals. |
| `CursorHistory.RecentlySetSurvives` | client/cursorstore.go:199-265 | A position whose last set is strictly later than that of some other stored key survives the next new key and is still read back. |
| `CursorHistory.TieDisplacesTheFirst` | client/cursorstore.go:257-265 | When all last sets carry one time stamp, the first of the table goes, whoever was set last. |
| `CursorHistory.TieDisplacesTheJustSet` | client/cursorstore.go:257-265 | So a position can be displaced right after it was set. |
| `CursorHistory.Play` | client/cursorstore.go:199-252 | The file goes through the history the list does, readable at first or not. |
| `ClientCertificate.InstalledNeverChanges` | client/clientcert.go:450-541 | No step changes installed material. |
| `ClientCertificate.WriteOnce` | client/clientcert.go:238-285 | Over every run with crashes, all successful calls return the one installed certificate with its key, and at most one reports having created it. |
| `ClientCertificate.LoneCallSucceeds` | client/clientcert.go:238-285 | Without a fault and with nobody in between, a call returns the installed certificate, as its creator exactly when it installed it; the loser of a race adopts the winner's. |
| `ClientCertificate.StepsRunOut` | client/clientcert.go:238-285 | Every call is over after at most eleven of its own steps, however it goes, and no other call touches it. |
| `ClientCertificate.RacingLoaderReportsIncomplete` | client/clientcert.go:293-320 | A loader that stats the files around another call's rename reports incomplete material. |
| `ClientCertificate.IncompleteOnlyByRace` | client/clientcert.go:293-320 | Unless the material was incomplete to begin with, that race is the only cause. |
| `SessionFlight.Schedule` | client/session.go:330-360 | The refresh is always before the expiry; no session exactly when the answer has no usable expiry; a later refresh the bus asks for is cut back by the grace. |
| `SessionFlight.MigrationRefreshesTooLate` | client/mtls_migrate.go:214-230 | The migration's schedule puts the refresh after the expiry whenever the bus asks for that. |
| `SessionFlight.MigrationOrdered` | client/mtls_migrate.go:214-230 | Exactly when that schedule is in order, for every answer. |
| `SessionFlight.SingleFlight` | client/session.go:188-271 | From a cold cache, with or without a session on disk, at most one session obtained per usable session lost, plus one, or two beside a certificate migration; while nothing is lost and nobody migrates, one, and every successful call returns it. |
| `SessionFlight.CallTakesCurrent` | client/session.go:188-191 | A call returns the cached session at once exactly when it is more than a second from its expiry, before its refresh, and none was forced. |
| `SessionFlight.ReturnedWasCurrent` | client/session.go:188-271 | Over every run, what a call returns came from its own handshake, or was cached or persisted and current when the call took it. |
| `PinSet.NewBusPinSet` | client/pinset.go:85-94 | First occurrences in order, zero left out. |
| `PinSet.GatheredSpec` | client/pinset.go:85-94 | Duplicate-free, zero-free, and the same members. |
| `PinSet.Equal` | client/pinset.go:196-206 | One inclusion and the lengths decide true set equality. |
| `PinSet.With` | client/pinset.go:217-235 | Grows by exactly the new pin, refuses zero and the third pin, never evicts. |
| `PinSet.WithoutSpec` | client/pinset.go:242-254 | Removes exactly that pin. |
| `PinSet.ParseBusPinSet` | client/pinset.go:100-110 | All texts must be fingerprints, otherwise there is no set. |
| `PinSet.ParseBusPinSetLenient` | client/pinset.go:126-134 | Keeps exactly what can be read. |
| `PinSet.StoredReadsBack` | client/pinset.go:100-179 | What is stored reads back as it was. |
| `AcceptSet.IdentityRecord.AddBusPin` | client/store.go:720-748 | The stored set grows by the pin, or nothing changes. |
| `AcceptSet.IdentityRecord.RemoveBusPin` | client/store.go:828-855 | The readable pins without this one, or nothing changes; the last pin stays. |
| `AcceptSet.IdentityRecord.BootstrapTlsPin` | client/store.go:754-798 | Only an unpinned identity gets its first pin. |
| `AcceptSet.CommandKeeps` | client/store.go:720-855 | A command keeps one or two distinct, real, operator-named pins if and only if it is not a bootstrap of a plaintext identity with the zero value. |
| `AcceptSet.RunKeeps` | client/store.go:720-855 | So does every run of commands. |
| `AcceptSet.ZeroBootstrapUnpins` | client/store.go:777-781 | That bootstrap leaves a TLS identity without a pin. |
| `AcceptSet.ResolvedWithinStored` | client/client.go:267-342 | A resolved set is a non-empty subset of a non-empty stored set. |
| `AcceptSet.VerifyPinned` | client/pin.go:410-425 | Accepts exactly a pinned leaf within its validity; an unpinned one is never reported as merely expired. |
| `AcceptSet.AcceptedWasNamed` | client/client.go:267-397 | After any run, a certificate a TLS handshake accepts was named by an operator; for the identity's own bus, at enrolment or in a command. |
| `AcceptSet.TransportCache.Doer` | client/client.go:349-397 | An embedder's client is used as it is. Otherwise, whatever is cached: TLS without a pin and plaintext with one are refused, a pinned connection needs this end's own certificate, a carrier is pinned exactly when the bus is TLS, and a cached one is reused exactly when it accepts the same certificates. |
| `AcceptSet.ResolvePins` | client/client.go:267-342 | The resolution of stored and asserted pins, with every refusal. |
| `AcceptSet.TransportCache.Connect` | client/client.go:267-397 | A TLS connection is verified, and accepts exactly a valid leaf among the pins resolved for it; an unpinned TLS bus is never reached. |
| `AcceptSet.Live` | client/client.go:267-397 | Over any run of pin commands and connections to any buses through one cached transport: every TLS connection is verified, and a leaf it accepts was named by an operator before, or asserted for it; on the identity's bus at that time it was named. |
| `TransitMeter.Meter.EnterUpstream` | cmd/agent-bus/ackback.go:359-389 | Takes a slot exactly below the limit. |
| `TransitMeter.Meter.Release` | cmd/agent-bus/ackback.go:377-388 | Gives one slot back and leaves no zero entry. |
| `TransitMeter.Meter.TransitAck` | cmd/agent-bus/ackback.go:427-541 | On every path the meter ends as it began; emission happens exactly below the limit. |
| `TransitMeter.EnterThenRelease` | cmd/agent-bus/ackback.go:359-389 | A slot taken and given back leaves no trace. |
| `TransitMeter.MeterIsExact` | cmd/agent-bus/ackback.go:359-541 | For every derived limit and interleaving, the count per case-folded upstream is the live slots, within max(1, limit); one release per emission; an idle meter is empty. |
| `TransitMeter.LoneCallGoesThrough` | cmd/agent-bus/ackback.go:427-541 | A call on its own goes through, emits exactly below the limit, and leaves the meter as it was. |
| `TransitMeter.EmissionIsCounted` | cmd/agent-bus/ackback.go:427-541 | A call starts to emit exactly at a step that found fewer than the limit in flight toward its upstream, and is counted from then on. |
| `GoStripper.StripGoNoncode` | scripts/proof-cmd-audit.py:48-82 | The loop blanks exactly what the recursive lexer says. |
| `GoStripper.StripCleans` | scripts/proof-cmd-audit.py:48-82 | Same length, each character kept or a space, no quote and no comment opener left. |
| `GoStripper.StripReadsTheGrammar` | scripts/proof-cmd-audit.py:48-82 | Of every source that the grammar of code, comments, string, rune and raw literals can read, code stays, and of a comment or literal only the line breaks that are not escaped. |
| `GoStripper.LineBreakKept` | scripts/proof-cmd-audit.py:48-82 | A line break survives exactly when it is not an escaped character of a string or rune. |
| `GoStripper.LineStructure` | scripts/proof-cmd-audit.py:48-82 | The line structure is preserved if and only if no line break is escaped. |
| `GoStripper.EscapedLineBreakIsLost` | scripts/proof-cmd-audit.py:72-75 | An input whose line break is lost. |
| `GoStripper.StripIdempotent` | scripts/proof-cmd-audit.py:48-82 | Stripping twice strips nothing more. |

## Left out

- HTTP, TLS handshakes, x509, Ed25519, SHA-256 and randomness: abstract or environment.
- The server's hub, write-ahead log, relay and auth packages: they appear as stated contracts only.
- Signature verification on the read path: the read path does not perform it, so a batch is not modelled as verified.
- `Watching.World.Watch`: durations and backoff delays are left out; a deadline or a cancellation is an outcome of the script, a kill may fall between any two operations, and nobody else watches as the same agent. Other agents act on the file around this agent's writes and between watches, which is when this agent can notice.
- `Sending.Network.Send`: the recipient and the key are taken as already trimmed, and a missing key as already generated; the session handshake is an environment step.
- `EnrolOnce.Enrol`: the invite endpoint checks before the claim are left out; they return without touching the document.
- `CredentialStore.Store.PromotePending`: the read position left under the agent's key, which the source clears in the cursor file after the update, is left out.
- `ClientCertificate.WriteOnce`: processes crash, the machine does not, since a power loss may undo a rename that was not flushed; file modes and parsing are left out.
- `SessionFlight.Schedule`: the floating-point fraction is an arbitrary function, so its rounding is not modelled.
- `CursorTable.CursorFile.SetCursor`: the library's stable sort appears as a function, and locking as in `StoreLock`.
- `TransitMeter.Meter.TransitAck`: the provenance lookup and the disposition arrive as a decision; case folding is ASCII, the alphabet of bus ids.
- Error texts, remedies, file modes, data-directory checks, health check, key export, invite minting, configuration merging and URL parsing: plumbing without a deep property.
- Broadcast, roster and acknowledgement-status calls: they would add only easy members.
- Regular-expression and shell parsing in the audit script: it depends on library engines.
