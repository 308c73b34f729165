# Arkode: a verified model of its vault, recovery, scheduling and codecs

Arkode is a desktop backup manager. It keeps credentials in an encrypted vault, exports the whole
installation to one `.arkvault` file for disaster recovery, runs backup tasks on a schedule under a
lock that survives crashes, keeps connection key files in step with the database, prunes old
backups, and publishes a read-only snapshot to a phone. This project models those parts in Dafny and
proves what they promise. `dafny verify dfyconfig.toml` checks all of it.

How the files fit together:

- **Vault.** `Blob` (ciphertext framing over an abstract AEAD), `AutoUnlockLayout` (the auto-unlock
  file), `VaultModel` (what every call makes of the stored state), `VaultRuns` (what every run of
  calls keeps), `VaultObjects` (the same calls over tables and heap buffers that are wiped in place),
  `VaultSessions` (whole sequences of those calls do what the runs say).
- **Disaster recovery.** `RecoveryModel` (tables, secrets, payload), `Json`, `CredentialBlob`,
  `Export` (flattening), `RestoreLoop` (the loop each table is restored by), `Import` (the rules of
  each table and the transaction body), `Recovery`, `Constraints` and `ComeBack` (what holds of any import, and which
  entries it restores),
  `RoundTrip` and `Isomorphism` (import inverts export), `ArchiveFile` (the file around the payload),
  `ImportFile` (checks, key files, transaction, rollback, and the end-to-end theorem),
  `RestoredSecrets` (the restored secrets through the encrypted store), `Example` (an installation, and
  an import that leaves an unused key file), `Rehearsal` (the example exported and imported: all
  hypotheses of the recovery theorems hold at once).
- **Runs and schedules.** `RunLock`, `Calendar`, `Schedules`, `DueTasks`.
- **Files and tables.** `KeySync`, `KeySyncEffects`, `Retention`, `FetchExisting`.
- **Codecs and filters.** `Base64`, `PocketPayload`, `PocketSync`, `PocketSnapshot` (from the vault to the phone),
  `ShellQuote`, `Throttle`.

Where the source updates things in place - buffers, tables, files, maps - the model has a class whose
methods do the same, each proved equal to a function on values; the theorems are then about those
functions and about whole runs of them. Randomness, clocks, I/O failures and the operating system are
parameters of each call.

What is assumed:

- AES-GCM, scrypt, DPAPI, SHA-256 and text encodings are abstract functions with laws. `Lawful` says
  that opening undoes sealing and accepts nothing else; `Committing` that sealing 16 bytes or more
  fixes the key. `Blob.LawsAreConsistent` and `VaultModel.EnvironmentsExist` show that these laws can
  hold together.
- JSON text is abstract too, and no law is asked of it for all values. A theorem that sends something as
  JSON assumes that the very values it prints parse back: the payload of the archive
  (`ArchiveFile.LawfulCodec`), the credential secrets of the restored machine
  (`RestoredSecrets.Faithful`), the snapshot, the file around it and the pairing code
  (`PocketSync.Delivers`). `ArchiveFile.CodecsExist`, `RestoredSecrets.WritingsExist` and
  `PocketSync.PlatformsExist` give encodings that meet this, for every payload, machine and
  publication; the secrets of a machine have calls that store them (`RestoredSecrets.SetsExist`).
- The recovery theorem is about sound and complete installations: what the schema and repositories
  enforce, with every key file and secret present. `Example.SettingsExist` gives one, and
  `Rehearsal.Rehearse` imports its archive on an empty machine with nothing left to assume.
- Random UUIDs, key-file names and the like are new and distinct.
- A SQLite transaction is all-or-nothing. `runBackupTask`'s recover, check and create run without a
  pause, and are taken to be one step between processes too.
- Secrets that an import stores in the vault are plain values in the recovery model; the `set` calls
  that store them, under any naming of references that keeps them apart, are added in
  `RestoredSecrets`.

What the proofs found, where the code does less than its comments say:

- A successful import can leave key files behind that nothing uses: those of transports that are not SFTP
  or SSH, or whose client's insert fails or finds its name taken (`ImportFile.OrphanedKeyFiles`, both directions;
  `Example.KeyFileIsOrphaned` is such an import).
- The run lock excludes two runs for 24 hours only. A longer run can be reclaimed while it works, and
  its next status change puts its row in progress again (`RunLock.OldRunIsResurrected`). A live process
  whose run failed before its `try` block leaves a row that blocks for exactly 24 hours
  (`RunLock.LiveOwnerBlocksExactly`), and a reused PID whose start time equals the row's keeps blocking
  past 30 minutes (`RunLock.DeadOwnerBlocksExactly`).
- A manual run never makes a task count as run that day, but while it is in progress the lock makes a
  tick skip the due task without a record. The next tick of the same day runs it unless it is blocked
  again; with no such tick the slot is lost, and a later day counts only for its own slot
  (`DueTasks.TickRunsExactly`, `DueTasks.SkippedTaskRunsLater`, `DueTasks.ManualRunSuppressesTheTick`).
- A scheduler tick that crosses midnight spends the next day's slot on the previous day's run
  (`DueTasks.LateRunTakesTheNextTurn`).
- Unlinking a credential leaves its connection's secret reference in use, and the credential's next
  connection gets the same one: from then on each sync changes, or deletes, the unlinked connection's
  secret too, whatever the kind (`KeySyncEffects.RelinkingReachesTheUnlinked`,
  `KeySyncEffects.OtherSecretsChangeExactly`).
- A dump is fetched again by every run if it validates with warnings, if it is empty, or if the bytes
  transferred are not as many as were listed, which no adapter checks; while it is the newest, it keeps
  all older ones from being fetched (`FetchExisting.StuckExactly`).
- Three kinds of call end auto-unlock over an open vault without arming the idle timer: a status call
  that deletes stale material, an attempt to unlock with Windows that deletes what it cannot load, and
  a removal from outside. The vault then stays open until it is used (`VaultRuns.UnguardedExactly`,
  `VaultRuns.UnguardedIsReached`, `VaultRuns.UnguardedStaysOpen`).
- Of the buffers that the session's calls make, two failures leave one unwiped on the heap: the new key when
  the vault's first row cannot be made or stored, and the live key when a password change fails after
  unwrapping it; all others are zeroed (`VaultObjects.VaultState.InitVault`,
  `VaultObjects.VaultState.ChangeMasterPassword`). An import wipes neither of its own two: the KEK is
  left whenever one was derived, the unwrapped key whenever one was unwrapped, whatever the outcome
  (`ImportFile.Machine.ImportVault`).
- Retention removes a file before it records that. If the record cannot be inserted, the pass ends, and the
  backup stays listed without its file (`Retention.LosesFileExactly`, `Retention.FileIsLost`) until a later
  pass under the same policy records it (`Retention.NextPassRecords`).
- A custom entry named "__proto__" is lost when a credential is read or a phone snapshot validated, for
  assigning a string under that name to an object sets nothing
  (`PocketPayload.SecretRoundTripExactly`).

## Model

| member | source | states |
|---|---|---|
| `Blob.FramePartition` | packages/engine-core/src/vault/crypto.ts:72-106 | The slices taken when decrypting are exactly the parts written when encrypting, also for an empty plaintext. |
| `Blob.DecryptExact` | packages/engine-core/src/vault/crypto.ts:72-106 | A blob decrypts to a plaintext if and only if it is an encryption of it under that key, bit for bit: any change is rejected. |
| `Blob.EncryptDecrypt` | packages/pocket-shared/src/crypto.ts:65-95 | Decryption undoes encryption for every plaintext, key and nonce; the blob is 34 bytes longer. |
| `Blob.OneKeyPerPlaintext` | packages/engine-core/src/vault/crypto.ts:117-140 | A blob of 16 bytes or more opens to a plaintext under one key only, which is why a wrong KEK fails. |
| `AutoUnlockLayout.ParseLayout` | packages/engine-core/src/vault/autoUnlock.ts:121-137 | A file laid out by `enable` parses to its fingerprint, time and sealed key; anything shorter or foreign is malformed. |
| `AutoUnlockLayout.LittleEndianRoundTrip` | packages/engine-core/src/vault/autoUnlock.ts:173-200 | The 64-bit little-endian time field gives back the number written. |
| `AutoUnlockLayout.EnableThenLoad` | packages/engine-core/src/vault/autoUnlock.ts:173-229 | After `enable`, `loadKek` with the same salt returns the exact KEK. |
| `AutoUnlockLayout.StatusExactly` | packages/engine-core/src/vault/autoUnlock.ts:121-171 | What `status` reports of a file, by its bytes; exactly a damaged or stale file is removed. |
| `AutoUnlockLayout.StaleMaterialIsDropped` | packages/engine-core/src/vault/autoUnlock.ts:158-171 | Material sealed for another salt yields no key and is deleted on use. |
| `VaultModel.OpenRow` | packages/engine-core/src/vault/vaultState.ts:226-241 | A key comes out of the stored row if and only if it is what the KEK unwraps and the verifier accepts it; it has 32 bytes. |
| `VaultRuns.StepKeepsInv` | packages/engine-core/src/vault/vaultState.ts:195-385 | Every call, succeeding or failing, keeps: the row opens under the current password to the key drawn at init, the verifier matches it, the session holds that key or none, every ciphertext holds the last value set. |
| `VaultRuns.StoreRefinesPlainMap` | packages/engine-core/src/vault/vaultSecretStore.ts:37-55 | After any run, `get` answers what a plain map behind a lock would: absent, locked, or the last value set. |
| `VaultRuns.OneKeyForLife` | packages/engine-core/src/vault/vaultState.ts:165-302 | From any point after init to the end of any run, the row opens under the current password to the key drawn at init, and the session is that key or none. |
| `VaultRuns.KeyNeverChanges` | packages/engine-core/src/vault/vaultState.ts:203-302 | An initialized vault is never initialized again, and no call replaces its key. |
| `VaultRuns.UnlockExactly` | packages/engine-core/src/vault/vaultState.ts:226-253 | After any run, a password unlocks if and only if it derives the same KEK as the last accepted one. |
| `VaultRuns.ChangeExactly` | packages/engine-core/src/vault/vaultState.ts:257-302 | A password change succeeds if and only if the current password would unlock, the new one is not empty and derives a key, and the row can be written. |
| `VaultRuns.FailedChangeIsInvisible` | packages/engine-core/src/vault/vaultState.ts:257-302 | A failed password change changes neither the row nor the session, nor anything else. |
| `VaultRuns.InitExactly` | packages/engine-core/src/vault/vaultState.ts:203-224 | Initialization succeeds if and only if there is no row, the password is not empty and derives a 32-byte KEK, and the row is written; then the row opens under that KEK to the session's new key; each refusal has its cause and changes nothing. |
| `VaultRuns.UnlockLeaves` | packages/engine-core/src/vault/vaultState.ts:226-253 | Why an unlock is refused, exactly; a refusal changes nothing, and a success leaves the vault's key in the session and, when asked for and when sealing works, material that loads to the current KEK. |
| `VaultRuns.ChangeRefusals` | packages/engine-core/src/vault/vaultState.ts:257-302 | Which of its refusals a password change answers, if and only if which condition on password, KEK and database holds. |
| `VaultRuns.EnableExactly` | packages/engine-core/src/vault/vaultState.ts:334-358 | Auto-unlock is enabled if and only if the password is right and sealing and writing work; every refusal has its cause and changes nothing. |
| `VaultRuns.WindowsExactly` | packages/engine-core/src/vault/vaultState.ts:174-193 | Windows unlock succeeds if and only if the material loads to the current KEK; otherwise it changes at most the material. |
| `VaultRuns.SetExactly` | packages/engine-core/src/vault/vaultSecretStore.ts:43-47 | A secret is stored, and reads back, if and only if the vault is open and the write works; a refusal changes no row. |
| `VaultRuns.WindowsKeepsInv` | packages/engine-core/src/vault/vaultState.ts:174-193 | Windows unlock, whatever file it finds, installs the vault's own key or none. |
| `VaultRuns.LockHolds` | packages/engine-core/src/vault/vaultState.ts:370-385 | After a lock, no sequence of calls without an explicit unlock opens the vault; in particular startup auto-unlock does not. |
| `VaultRuns.StartupExactly` | packages/engine-core/src/vault/vaultState.ts:370-385 | At startup the vault ends open if and only if it is open already, or it was not locked in this process and the material loads to the KEK of the current password; the session is then the vault's key. |
| `VaultRuns.StartupAfterEnabling` | packages/engine-core/src/vault/vaultState.ts:370-385 | After `enableAutoUnlock` succeeded, the next process opens the vault by itself, with its key. |
| `VaultRuns.StartupAfterUnlocking` | packages/engine-core/src/vault/vaultState.ts:226-253 | So it does after an unlock that was asked to enable it, if sealing worked. |
| `VaultRuns.DisablingDisables` | packages/engine-core/src/vault/vaultState.ts:360-368 | With a working removal, `disableAutoUnlock` removes the material, the idle timer runs again, and the next start leaves the vault locked. |
| `VaultRuns.IdleTimeCounts` | packages/engine-core/src/vault/vaultState.ts:140-156 | A new idle time is stored and counts from then on; zero, none, or auto-unlock means no timer. |
| `VaultRuns.MaterialFollowsPassword` | packages/engine-core/src/vault/vaultState.ts:257-302 | After a password change, over any material: it is re-sealed and loads as the new KEK, or is the file that was there, which unlocks if and only if it yields the new KEK and is removed on its next use if it yields none. |
| `VaultRuns.UseRearms` | packages/engine-core/src/vault/vaultState.ts:140-156 | Every successful use of an open vault restarts the idle timer in full, unless idle locking is off or auto-unlock suspends it. |
| `VaultRuns.IdleVaultLocks` | packages/engine-core/src/vault/vaultState.ts:140-163 | An open vault left idle keeps its session until the timer is due, and is locked exactly from then on. |
| `VaultRuns.UnguardedExactly` | packages/engine-core/src/vault/autoUnlock.ts:154-229 | For every call: a guarded vault ends it open, with idle locking set, nothing suspending it and no timer, if and only if auto-unlock suspended the timer and the call deletes the material by a status, a Windows unlock or from outside. |
| `VaultRuns.UnguardedIsReached` | packages/engine-core/src/vault/vaultState.ts:327-332 | From a fresh install: initialize, enable auto-unlock, change the password without being able to write the material, and ask for the status or try Windows unlock. |
| `VaultRuns.UnguardedStaysOpen` | packages/engine-core/src/vault/vaultState.ts:140-163 | Such a vault stays open however long it is left idle. |
| `VaultObjects.Database.CreateMeta` | packages/engine-core/src/vault/vaultMetaRepo.ts:69-78 | Creates the single row, or fails and changes nothing when there is one. |
| `VaultObjects.Database.UpdateCrypto` | packages/engine-core/src/vault/vaultMetaRepo.ts:79-88 | Replaces the row, or fails when there is none. |
| `VaultObjects.Wipe` | packages/engine-core/src/vault/crypto.ts:142-144 | Overwrites every byte of the buffer with zero. |
| `VaultObjects.AutoUnlock.Enable` | packages/engine-core/src/vault/autoUnlock.ts:173-200 | The header filled in place, field by field, is the layout that `parse` reads. |
| `VaultObjects.AutoUnlock.Status` | packages/engine-core/src/vault/autoUnlock.ts:158-171 | Reports the material's state and deletes it when malformed or stale. |
| `VaultObjects.AutoUnlock.LoadKek` | packages/engine-core/src/vault/autoUnlock.ts:206-229 | Returns a fresh buffer with the sealed key, or none and deletes the file. |
| `VaultObjects.VaultState.InitVault` | packages/engine-core/src/vault/vaultState.ts:203-224 | On buffers: the new key becomes the session and the KEK is zeroed; if the row cannot be made or stored, and only then, the new key is left unwiped and unused. |
| `VaultObjects.VaultState.UnlockVault` | packages/engine-core/src/vault/vaultState.ts:226-253 | The unwrapped buffer becomes the live one, the KEK and the buffer it replaces are zeroed; a failure zeroes KEK and candidate and leaves the session as it was. |
| `VaultObjects.VaultState.ChangeMasterPassword` | packages/engine-core/src/vault/vaultState.ts:257-302 | Re-wraps the same key under a new salt, with both KEKs and the replaced buffer zeroed; a failure changes neither row nor session, and after unwrapping it leaves that buffer holding the key. |
| `VaultObjects.VaultState.Adopt` | packages/engine-core/src/vault/vaultState.ts:165-171 | Wipes the old buffer before adopting the new one, which keeps its bytes. |
| `VaultObjects.VaultState.WindowsUnlock` | packages/engine-core/src/vault/vaultState.ts:174-193 | Unlocks from the sealed KEK; the KEK, a rejected candidate and the buffer replaced are zeroed. |
| `VaultObjects.VaultState.StartupUnlock` | packages/engine-core/src/vault/vaultState.ts:370-385 | On buffers: opens the vault at startup exactly when `VaultRuns.StartupExactly` says, and leaves it as it was otherwise, but for material that does not load. |
| `VaultObjects.VaultState.EnableAuto` | packages/engine-core/src/vault/vaultState.ts:334-358 | Seals the KEK only for a password that opens the vault, stops the idle timer, and zeroes KEK and probe. |
| `VaultObjects.VaultState.IdleTimeout` | packages/engine-core/src/vault/vaultState.ts:140-163 | The due timer locks and wipes the key. |
| `VaultObjects.VaultSecretStore.Get` | packages/engine-core/src/vault/vaultSecretStore.ts:38-42 | Absent without a row, locked without a key, and otherwise the decrypted text; re-arms the timer. |
| `VaultObjects.VaultSecretStore.Set` | packages/engine-core/src/vault/vaultSecretStore.ts:43-47 | Stores the ciphertext of the value under the live key, or changes no row. |
| `VaultObjects.VaultState.AutoUnlockStatus` | packages/engine-core/src/vault/vaultState.ts:327-332 | Reports the material's state and may delete it, with session and timer left as they are. |
| `VaultSessions.Drive` | packages/engine-core/src/vault/vaultState.ts:195-385 | Any sequence of calls on the objects, restarts and the secret store included, ends in the state and with the replies that the run on values gives. |
| `VaultSessions.Session` | packages/engine-core/src/vault/vaultState.ts:165-171 | After any session on a fresh machine the live buffer is null or holds, byte for byte, the key drawn at init: in-place wiping never hits it. |
| `CredentialBlob.NormalizeCredentialSecret` | packages/engine-core/src/vault/credentialBlob.ts:21-42 | Keeps exactly the known keys and the custom entries, but "__proto__", that hold non-empty strings. |
| `CredentialBlob.KeptExactly` | packages/engine-core/src/vault/credentialBlob.ts:10-41 | The names under which a stored object answers, written out: six texts and the custom entries, none of them empty, and no "__proto__". |
| `CredentialBlob.ReadAfterWrite` | packages/engine-core/src/vault/credentialBlob.ts:44-55 | Reading what was written gives what normalization kept of it. |
| `Export.Enumerate` | packages/engine-core/src/vault/exportVault.ts:203-219 | Lists the included rows, each once, and no other. |
| `Export.ListByClient` | packages/engine-core/src/vault/exportVault.ts:219-263 | Going client by client lists exactly the rows owned by listed clients, each once. |
| `Export.ExportPayload` | packages/engine-core/src/vault/exportVault.ts:203-311 | The payload lists every row once, with each secret and key file beside it in place of its reference. |
| `RestoreLoop.RestoreTable` | packages/engine-core/src/vault/exportVault.ts:514-954 | Restoring one table: old rows stay, the new rows are exactly the images of the restored entries under fresh ids, the id map leads from entries to their rows, secrets are stored under new references and no other is touched, only refused entries are missing, and the counter is the growth of the table; an abort has a cause. |
| `Import.RepoSecretsApart` | packages/engine-core/src/vault/exportVault.ts:722-741 | Two repositories of one client would share a reference, but the second is refused. |
| `Import.ReplicationSecretsApart` | packages/engine-core/src/vault/exportVault.ts:789-830 | Likewise two replication targets of one client for the same content. |
| `Import.ImportTables` | packages/engine-core/src/vault/exportVault.ts:496-954 | The transaction body finishes with all eleven tables restored by their rules, or aborts at the first exception that is not caught. |
| `Recovery.ImportIsReferentiallySound` | packages/engine-core/src/vault/exportVault.ts:507-954 | For any payload and any pattern of skips, every created row is the image of an entry, and each of its references is the image of that entry's reference under the id map of its table, which leads to a row this import created. |
| `Recovery.FailedClientLeavesNothing` | packages/engine-core/src/vault/exportVault.ts:514-533 | A client that was not restored contributes no row to any table. |
| `Recovery.CounterIsNewRows` | packages/engine-core/src/vault/exportVault.ts:378-395 | Each counter of the result equals the number of rows its step created. |
| `Constraints.ImportKeepsUniqueness` | packages/engine-core/src/vault/exportVault.ts:514-909 | Any finished import keeps client names, set names, repositories per client, replication targets and link owners unique, also against rows that were there before. |
| `Constraints.ImportedRowsAreAcceptable` | packages/engine-core/src/vault/exportVault.ts:637-909 | Every task, file source, schedule and link that an import creates is one that the repositories accept. |
| `RoundTrip.WholeTable` | packages/engine-core/src/vault/exportVault.ts:514-954 | A table none of whose entries is skipped or refused is rebuilt under a bijection of ids. |
| `RoundTrip.EveryStepSucceeds` | packages/engine-core/src/vault/exportVault.ts:514-954 | The payload of a sound and complete installation meets no exception at any step of the import. |
| `Isomorphism.SecretsAreCarried` | packages/engine-core/src/vault/exportVault.ts:560-830 | No later step overwrites a secret stored by an earlier one. |
| `Isomorphism.TransportsMatch` | packages/engine-core/src/vault/exportVault.ts:549-610 | Each transport comes back with its own fields, key file content, passphrase or password, and client. |
| `Isomorphism.TasksMatch` | packages/engine-core/src/vault/exportVault.ts:637-720 | Each task comes back with its strategy, links, password, set and, if it has a time, its schedule. |
| `Isomorphism.ReplicationsMatch` | packages/engine-core/src/vault/exportVault.ts:789-830 | Each replication target comes back with its transport or configuration, its crypt password and host key. |
| `Isomorphism.CredentialsMatch` | packages/engine-core/src/vault/exportVault.ts:876-909 | Each credential comes back with its links, and reads as the same secret. |
| `Isomorphism.ItemsMatch` | packages/engine-core/src/vault/exportVault.ts:928-954 | Each item comes back with its body, encrypted again if it was sensitive. |
| `Isomorphism.ImportInvertsExport` | packages/engine-core/src/vault/exportVault.ts:203-954 | Importing an export of a sound and complete installation into an empty one never aborts and gives the source back under injective id maps that commute with every foreign key, with equal secrets. |
| `ArchiveFile.ExportArchive` | packages/engine-core/src/vault/exportVault.ts:203-334 | Fails exactly for an uninitialized or a locked vault (or a refused encryption), and otherwise wraps a payload of the installation with the vault's own key material. |
| `ArchiveFile.ExportedFileOpens` | packages/engine-core/src/vault/exportVault.ts:343-457 | An exported file opens with exactly the passwords that open the vault, and gives back its row, key and payload. |
| `ArchiveFile.ParsesExactly` | packages/engine-core/src/vault/exportVault.ts:343-369 | Which refusal a file meets before the password counts, if and only if which of its fields is missing or wrong. |
| `ArchiveFile.OpensExactly` | packages/engine-core/src/vault/exportVault.ts:433-453 | For any file: it opens if and only if it is intact, the password opens its row and the payload decrypts and parses; each refusal has its cause, and only version 2 carries more than the vault's own rows. |
| `ImportFile.Machine.WriteKeyFile` | packages/engine-core/src/vault/exportVault.ts:466-476 | Writes under a temporary name and renames; every other file is untouched, also when a step fails. |
| `ImportFile.Machine.WriteKeyFiles` | packages/engine-core/src/vault/exportVault.ts:459-493 | Gives every exported key a new file of its own; if one fails, all written so far are removed as far as removal works. |
| `ImportFile.Machine.Transaction` | packages/engine-core/src/vault/exportVault.ts:495-992 | Creates the row, unlocks and restores every table, or puts tables and row back. |
| `ImportFile.Machine.ImportVault` | packages/engine-core/src/vault/exportVault.ts:429-1012 | Everything or nothing: refused before any write, or fully restored and open, or undone with the vault locked and only undeletable files left; and each outcome has its cause. The import's own two key buffers are never wiped. |
| `ImportFile.DisasterRecovery` | packages/engine-core/src/vault/exportVault.ts:203-1012 | End to end, with the master password and no fault: the import succeeds, the machine has the vault's row and key, and its tables, secrets and key files are the source's up to a renaming of ids. |
| `ImportFile.WrongPasswordWritesNothing` | packages/engine-core/src/vault/exportVault.ts:440-451 | With a password that does not open the vault, the import reports it and changes nothing. |
| `ImportFile.FailedImportIsInvisible` | packages/engine-core/src/vault/exportVault.ts:993-1009 | After any failure there is no vault row, no new table row or secret, no open key; and no new file if every removal worked. |
| `ImportFile.OrphanedKeyFiles` | packages/engine-core/src/vault/exportVault.ts:459-558 | A written key file is used after a successful import if and only if its transport is SFTP or SSH and its client comes back, which payload and table tell beforehand. |
| `Recovery.ClientsComeBackExactly` | packages/engine-core/src/vault/exportVault.ts:514-533 | A client entry is restored if and only if its insert does not fail and its name is taken neither in the table nor by an earlier entry that is restored. |
| `ComeBack.TasksComeBackExactly` | packages/engine-core/src/vault/exportVault.ts:642-719 | A backup task is restored if and only if its client was, its insert does not fail, and it is: fetching over a restored SFTP or FTP transport; dumping over a restored SSH one with a command, or with container, database, user and engine; or dumping a restored connection. |
| `ComeBack.TasksAbortExactly` | packages/engine-core/src/vault/exportVault.ts:707-716 | The tasks step stops the import if and only if some task that would be restored has a schedule that cannot be set. |
| `ComeBack.SettableExactly` | packages/engine-core/src/db/repositories/tasksRepo.ts:466-491 | A schedule with a time can be set if and only if that is one of the 1440 of a day, a weekly one has days, all from 0 to 6, and a monthly one a day from 1 to 31. |
| `ComeBack.FileTasksComeBackExactly` | packages/engine-core/src/vault/exportVault.ts:745-787 | After the step, a file-backup task was restored if and only if its client, its repository and a remote source's transport were. |
| `ComeBack.FileTasksAbortExactly` | packages/engine-core/src/vault/exportVault.ts:745-787 | The step stops the import if and only if such a task's folder is no full path with a drive, or no text over SFTP or FTP, or its schedule cannot be set, or its insert fails. |
| `ComeBack.SetsComeBackExactly` | packages/engine-core/src/vault/exportVault.ts:539-547 | After the step, a backup set was restored if and only if its client was. |
| `ComeBack.TransportsComeBackExactly` | packages/engine-core/src/vault/exportVault.ts:549-610 | After the step, a transport was restored if and only if its client was and, unless it is FTP, its key file was written. |
| `ComeBack.TransportRestoredAs` | packages/engine-core/src/vault/exportVault.ts:549-610 | Whatever the entry says, a restored FTP transport has no key, passphrase or known host, and the others have the written key and no password; the rest is as exported. |
| `ComeBack.TaskRestoredAs` | packages/engine-core/src/vault/exportVault.ts:637-720 | Whatever the entry says: links lead to what was restored, a missing path or template becomes empty, a dump password comes back if there is one, and only a schedule with a time is set. |
| `ComeBack.FileTaskRestoredAs` | packages/engine-core/src/vault/exportVault.ts:743-787 | The same of a file-backup task and its source. |
| `ComeBack.ReposComeBackExactly` | packages/engine-core/src/vault/exportVault.ts:722-742 | After the step, a repository was restored if and only if its client was and its password is in the backup. |
| `ComeBack.ReplicationsComeBackExactly` | packages/engine-core/src/vault/exportVault.ts:790-831 | After the step, a replication target was restored if and only if its client was, and a drive has its configuration, any other its restored transport. |
| `ComeBack.ReplicationRestoredAs` | packages/engine-core/src/vault/exportVault.ts:790-831 | Whatever the entry says, a restored drive target has a configuration and no transport, the others the reverse, an encrypted one its password if there is one, and a host key only with its fingerprint. |
| `ComeBack.LinkFitsExactly` | packages/engine-core/src/vault/types.ts:38-42 | A link fits a credential if and only if it is at most the one its kind allows: a transport for remote access, a connection for databases. |
| `ImportFile.OpenFile` | packages/engine-core/src/vault/exportVault.ts:429-454 | The checks in order, on buffers: what is derived and what is unwrapped is left as it is. |
| `Example.KeyFileIsOrphaned` | packages/engine-core/src/vault/exportVault.ts:514-533 | A concrete import: the client's name is taken, so client and transport are skipped and the key file already written stays unused. |
| `ImportFile.VersionOneIsReduced` | packages/engine-core/src/vault/exportVault.ts:453-456 | A version 1 file carries clients and the vault's own rows only. |
| `ImportFile.ReducedImport` | packages/engine-core/src/vault/exportVault.ts:535-874 | Importing it leaves every other table as it was. |
| `RestoredSecrets.StoredSecretsOpen` | packages/engine-core/src/vault/exportVault.ts:872-940 | Storing the restored secrets through the open vault, in any order, makes each reference answer exactly its secret, now and after a restart and an unlock with the master password. |
| `RestoredSecrets.SecretsComeBack` | packages/engine-core/src/vault/exportVault.ts:203-311 | Disaster recovery down to ciphertexts: after import, restart and unlock, the vault answers for every credential and item what the source held. |
| `Rehearsal.Recover` | packages/engine-core/src/vault/exportVault.ts:429-1012 | Run on an empty machine under the hypotheses of the theorems, the import itself succeeds, gives back the source, and there are calls that store its secrets so that all answer. |
| `Rehearsal.HypothesesHold` | packages/engine-core/src/vault/exportVault.ts:203-457 | An installation with a client, a keyed transport, a credential and a secret note, its archive and an empty machine meet every hypothesis at once. |
| `Rehearsal.Rehearse` | packages/engine-core/src/vault/exportVault.ts:203-1012 | That archive, imported with the master password and nothing assumed, gives the installation back. |
| `RunLock.RunsTable.RecoverStaleRuns` | packages/engine-core/src/orchestrator/runBackupTask.ts:92-97 | Exactly the task's rows in progress that are judged dead become Failed. |
| `RunLock.RunsTable.Start` | packages/engine-core/src/orchestrator/runBackupTask.ts:217-239 | Skips if and only if some row of the task is in progress and not dead, and names one; otherwise creates the row as Running. |
| `RunLock.LiveRowIsNotStale` | packages/engine-core/src/util/processIdentity.ts:84-107 | The row of a live owner, at most 24 hours old, is never judged dead. |
| `RunLock.StepKeepsInv` | packages/engine-core/src/orchestrator/runBackupTask.ts:217-330 | Starts, status changes, ends, crashes, reused PIDs and clock ticks all keep the lock's invariant. |
| `RunLock.MutualExclusion` | packages/engine-core/src/orchestrator/runBackupTask.ts:217-239 | In every reachable state no task has two live runs whose rows are at most 24 hours old. |
| `RunLock.DeadOwnerBlocksExactly` | packages/engine-core/src/util/processIdentity.ts:84-107 | A dead owner's row blocks if and only if its PID is held and the row is at most 30 minutes old, or at most 24 hours old with a holder whose start is unreadable or equal to the row's. |
| `RunLock.LiveOwnerBlocksExactly` | packages/engine-core/src/util/processIdentity.ts:84-107 | A live owner's row blocks for exactly 24 hours, whether or not the run goes on. |
| `RunLock.StartRecoversTheRest` | packages/engine-core/src/orchestrator/runBackupTask.ts:217-239 | A start that is not blocked leaves its row as the only one of the task in progress. |
| `RunLock.StartRecoversExactly` | packages/engine-core/src/orchestrator/runBackupTask.ts:92-97 | A start makes Failed exactly the rows of its task that are in progress and interrupted - owner dead and PID free, reused, or 24 hours old - and leaves every other row as it is. |
| `RunLock.StartAddsExactly` | packages/engine-core/src/orchestrator/runBackupTask.ts:217-239 | The only new row is that of a run let through: a client, and every row of the task in progress interrupted. |
| `RunLock.OddRowsExactly` | packages/engine-core/src/util/processIdentity.ts:84-107 | A row without a PID never blocks and is recovered; one whose date cannot be parsed blocks exactly while its PID is held. |
| `RunLock.ActiveExactly` | packages/engine-core/src/orchestrator/runBackupTask.ts:217-318 | Who is at work after an event: those that were, but for the run that ended or those of the process that did, and a run let through. |
| `RunLock.EndsAreReported` | packages/engine-core/src/orchestrator/runBackupTask.ts:253-318 | Over any run of the machine, a row comes to say Success or Warning only by the end of its own run. |
| `RunLock.OldRunIsResurrected` | packages/engine-core/src/orchestrator/runBackupTask.ts:253-300 | A reachable state with two live runs of one task, both in progress, one older than 24 hours. |
| `Calendar.SameDateIsSameDay` | packages/engine-core/src/scheduler/isTaskDue.ts:3-5 | Comparing year, month and day compares days. |
| `Calendar.DayNumberIsRight` | packages/engine-core/src/scheduler/nextOccurrence.ts:21-28 | The date of a day is the one whose day number, by the arithmetic of the Gregorian calendar, is that day. |
| `Schedules.SlotReadsBack` | packages/engine-core/src/scheduler/isTaskDue.ts:55-57 | The slot is the wall-clock time that the schedule's text says. |
| `Schedules.NextScheduledRunAt` | packages/engine-core/src/scheduler/nextOccurrence.ts:50-70 | Returns the slot of the first open day from today on within the 400-day walk. |
| `Schedules.AnswersWithinPeriod` | packages/engine-core/src/scheduler/nextOccurrence.ts:50-70 | Null if and only if the schedule can never fire; otherwise the answer is after now and within 1, 7 or 31 days. |
| `Schedules.MonthDayWithin` | packages/engine-core/src/scheduler/nextOccurrence.ts:21-28 | With clamping to short months, a day of month recurs within 31 days. |
| `Schedules.MonthlyMeans` | packages/engine-core/src/scheduler/isTaskDue.ts:16-18 | A monthly schedule matches day d of a month that has one, and otherwise the month's last day, and no other day. |
| `Schedules.MonthlyOnce` | packages/engine-core/src/scheduler/isTaskDue.ts:16-18 | It matches exactly one day of every month. |
| `Schedules.WeekdaysGoRound` | packages/engine-core/src/scheduler/nextOccurrence.ts:21-28 | Weekdays advance by one each day, and 1 January 1970 was a Thursday. |
| `Schedules.DueOnCalendar` | packages/engine-core/src/scheduler/isTaskDue.ts:20-58 | When a task is due, said of the date: active, enabled, not run today, past its slot, and on its weekday or day of the month. |
| `Schedules.ProjectionIsExact` | packages/engine-core/src/scheduler/nextOccurrence.ts:50-70 | For an active task not due now, the answer is the first instant after now at which `isTaskDue` holds, and null means there is none. |
| `Schedules.NotDueWhenOff` | packages/engine-core/src/scheduler/isTaskDue.ts:45-47 | An inactive task, or one whose schedule is off or has no time, is never due; nor is one on the date of its last scheduled run. |
| `DueTasks.Scheduler.GetLatestScheduled` | packages/engine-core/src/db/repositories/runsRepo.ts:143-145 | Finds the latest start among the task's scheduled runs. |
| `DueTasks.Scheduler.RunDueTasks` | packages/engine-core/src/scheduler/runDueTasks.ts:22-52 | Checks each task against the tick's start and the runs there are by then; a failing task does not stop the others. |
| `DueTasks.LatestIsLast` | packages/engine-core/src/db/repositories/runsRepo.ts:143-145 | The latest scheduled start is attained, and no scheduled run of the task started later. |
| `DueTasks.TickKeepsOncePerDay` | packages/engine-core/src/scheduler/runDueTasks.ts:27-51 | A tick of any length keeps one scheduled run per task and day, also across midnight. |
| `DueTasks.ScheduledOncePerDay` | packages/engine-core/src/scheduler/runDueTasks.ts:22-52 | Over any history of sequential ticks and manual runs, a task has at most one scheduled run per local day. |
| `DueTasks.ManualRunsAreIgnored` | packages/engine-core/src/scheduler/isTaskDue.ts:45-58 | Whether a task is due does not depend on any manual run. |
| `DueTasks.SameLock` | packages/engine-core/src/orchestrator/runBackupTask.ts:217-228 | A task's turn recovers and is blocked by the rows exactly as the run lock says. |
| `DueTasks.RunLeavesExactly` | packages/engine-core/src/orchestrator/runBackupTask.ts:217-318 | What a scheduled run leaves: the task's rows that the dead left in progress as Failed, all other rows as they were, and, unless a live row holds the task or the client is gone, its own row with its ending. |
| `DueTasks.TickRunsExactly` | packages/engine-core/src/scheduler/runDueTasks.ts:22-52 | A listed task gets its scheduled run in a tick if and only if it is due at the tick's start and, at its turn, no row of either trigger blocks and its client exists. |
| `DueTasks.ManualRunSuppressesTheTick` | packages/engine-core/src/orchestrator/runBackupTask.ts:218-228 | A reachable state in which a manual run in progress makes a tick skip the due task; the next tick runs it. |
| `DueTasks.SkippedTaskRunsLater` | packages/engine-core/src/scheduler/runDueTasks.ts:22-52 | A task due in one tick and not run: in a later tick of that day it runs if and only if nothing blocks and the client exists; on a later day only if that day has a slot of its own. |
| `DueTasks.LateRunTakesTheNextTurn` | packages/engine-core/src/scheduler/isTaskDue.ts:45-58 | After a late run, a later day's slot is still open if and only if the run started before that day. |
| `KeySync.Bridge.MaterializeKeyFile` | packages/engine-core/src/vault/syncOperationalCopy.ts:50-70 | The key file is there, or the directory is as before but for what could not be removed. |
| `KeySync.Bridge.DeleteKeyFileIfUnreferenced` | packages/engine-core/src/vault/syncOperationalCopy.ts:73-83 | Removes the file only if no transport row names it. |
| `KeySync.Bridge.SyncOperationalCopy` | packages/engine-core/src/vault/syncOperationalCopy.ts:242-305 | The call, step by step, does to rows, secrets and files what the model says, for every fault. |
| `KeySync.Bridge.Resync` | packages/engine-core/src/vault/syncOperationalCopy.ts:318-332 | Every linked credential, and no other, is synced in turn; no failure stops the loop, and each answer is reported. |
| `KeySync.CallEnds` | packages/engine-core/src/vault/syncOperationalCopy.ts:242-305 | Every call either synced, or unlinked, or left everything unchanged but the error state; and its answer says which. |
| `KeySync.RefusedExactly` | packages/engine-core/src/vault/syncOperationalCopy.ts:242-305 | Which refusal a call answers, if and only if which condition holds; a refusal changes nothing, and a failed copy marks the credential whenever that can be written. |
| `KeySync.NoKeyDangles` | packages/engine-core/src/vault/syncOperationalCopy.ts:50-83 | Over any sequence of calls failing anywhere, every transport's key path names an existing file. |
| `KeySync.FailedSyncIsInvisible` | packages/engine-core/src/vault/syncOperationalCopy.ts:285-305 | A failed call leaves tables, secrets and key directory as they were, except the credential's error state and files that could not be removed. |
| `KeySync.OnlyUnreferencedKeysGo` | packages/engine-core/src/vault/syncOperationalCopy.ts:73-83 | A key file disappears only if the linked transport had it and no transport refers to it any more. |
| `KeySyncEffects.SyncReflects` | packages/engine-core/src/vault/syncOperationalCopy.ts:92-209 | After a successful sync the linked connection carries the credential's host, user, port, key and passphrase or password; other rows and references are untouched. |
| `KeySyncEffects.SyncMakesRow` | packages/engine-core/src/vault/syncOperationalCopy.ts:92-209 | A successful sync makes or updates exactly one row: a new one has the kind or engine of the credential's kind, its client and name, default port 22 or 21, and is active; a linked one keeps these. |
| `KeySyncEffects.SyncWritesExactly` | packages/engine-core/src/vault/syncOperationalCopy.ts:242-305 | A given secret is written to the credential's blob; a key goes to a new file; and the key file it replaces is removed if and only if no transport names it and it can be. |
| `KeySyncEffects.SyncSucceedsExactly` | packages/engine-core/src/vault/syncOperationalCopy.ts:92-209 | With an open vault and nothing failing, a sync succeeds if and only if the credential has what its kind of connection needs and its links fit. |
| `KeySyncEffects.RelinkingReachesTheUnlinked` | packages/engine-core/src/vault/syncOperationalCopy.ts:146-167 | For every kind: after linking, unlinking and linking again, the unlinked row holds the same reference as the new one, and its secret has become the new one. |
| `KeySyncEffects.OtherSecretsChangeExactly` | packages/engine-core/src/vault/syncOperationalCopy.ts:92-209 | A successful sync changes the secret of another row if and only if that row holds the one reference the sync writes or deletes, and the value differs. |
| `KeySyncEffects.LosingThePassphraseReachesBoth` | packages/engine-core/src/vault/syncOperationalCopy.ts:155-160 | After a relink, a sync without a passphrase deletes the secret of the unlinked transport too. |
| `KeySyncEffects.SharingHappens` | packages/engine-core/src/vault/syncOperationalCopy.ts:220-235 | For every kind that can be linked, a state from which link, unlink and link again all succeed, with different secrets. |
| `Retention.Store.ApplyRetention` | packages/engine-core/src/retention/applyRetention.ts:38-127 | Collecting, reversing and capping candidates deletes the stale runs from the oldest to rank 1, file first and record second, until an insert fails: the cap never truncates. |
| `Retention.OrderIsNewestFirst` | packages/engine-core/src/db/repositories/runsRepo.ts:177-179 | The list is newest first, later rows first on a tie. |
| `Retention.NewestSurvives` | packages/engine-core/src/retention/applyRetention.ts:68-70 | Whatever the policy and whatever fails, the newest listed backup survives a pass and stays the newest. |
| `Retention.PassRecordsExactly` | packages/engine-core/src/retention/applyRetention.ts:68-125 | Whatever fails, a listed run is recorded deleted if and only if it is stale, is not the newest, has a path whose file is gone or can be removed, and its insert and those of all older such runs work. |
| `Retention.PassesIntersect` | packages/engine-core/src/retention/applyRetention.ts:72-94 | Whatever fails, a run is recorded under each of two policies alone if and only if it is recorded under both and neither pass ends before it. |
| `Retention.CountKeepsTheNewest` | packages/engine-core/src/retention/applyRetention.ts:53-55 | When removals work, a pass under a count alone leaves exactly the newest ones of that number, never fewer than one, and those up to the oldest whose insert fails. |
| `Retention.DaysKeepTheRecent` | packages/engine-core/src/retention/applyRetention.ts:57-66 | A pass under days alone records exactly the removable listed runs, but the newest, downloaded (or else started) before the cutoff, that it comes to and can insert. |
| `Retention.ResolveLayers` | packages/engine-core/src/retention/applyRetention.ts:13-18 | The task's policy overrides the client's field by field; neither set means neither applies. |
| `Retention.SecondPassDeletesNothing` | packages/engine-core/src/retention/applyRetention.ts:38-127 | Whatever removals fail, an immediate second pass with the same failures changes nothing. |
| `Retention.HistoryKeepsInv` | packages/engine-core/src/retention/applyRetention.ts:38-127 | Over any history of runs and passes, whatever fails, no run is recorded deleted twice and the newest backup is never deleted. |
| `Retention.PassFinishesExactly` | packages/engine-core/src/retention/applyRetention.ts:98-125 | A pass comes to its end if and only if every stale removable run's record can be inserted. |
| `Retention.LosesFileExactly` | packages/engine-core/src/retention/applyRetention.ts:98-117 | A backup that a pass leaves unrecorded loses its file if and only if it is stale, not the newest and removable, its insert fails, and that of every older such run works. |
| `Retention.MissingOverHistory` | packages/engine-core/src/retention/applyRetention.ts:98-117 | Over any history with distinct paths, of the backups not recorded as deleted exactly those at which some pass ended have no file. |
| `Retention.KeptFilesExist` | packages/engine-core/src/retention/applyRetention.ts:98-117 | When no insert fails, every backup not recorded as deleted still has its file, whatever removals fail. |
| `Retention.NextPassRecords` | packages/engine-core/src/retention/applyRetention.ts:98-117 | A run that lost its file unrecorded is recorded by the next pass under the same policy in which inserts work, whatever runs come in between. |
| `Retention.FileIsLost` | packages/engine-core/src/retention/applyRetention.ts:108-117 | A concrete history: of two backups one is to go, its insert fails, and it is neither on disk nor recorded. |
| `FetchExisting.ChosenIsNewest` | packages/engine-core/src/strategies/fetchExistingExecutor.ts:45-57 | A file is chosen if and only if one is not signed yet, and it is a newest of those. |
| `FetchExisting.RefusalSaysWhy` | packages/engine-core/src/strategies/fetchExistingExecutor.ts:42-57 | There is no choice because there is no file, or because all of them were fetched before, and the answer says which. |
| `FetchExisting.Signatures.Run` | packages/engine-core/src/orchestrator/runBackupTask.ts:253-318 | A run signs its file's name with the bytes transferred, and only when it ends in Success with more than none. |
| `FetchExisting.FetchedAreNew` | packages/engine-core/src/strategies/fetchExistingExecutor.ts:42-57 | Against an unchanging directory, successive full transfers go newest first and never fetch the same (name, size) twice. |
| `FetchExisting.FetchedAreAll` | packages/engine-core/src/strategies/fetchExistingExecutor.ts:42-57 | Each full transfer fetches one of the missing files while there are any; all are fetched, and every later run is a no-op. |
| `FetchExisting.StuckExactly` | packages/engine-core/src/orchestrator/runBackupTask.ts:263-300 | The next run chooses the same file if and only if this one did not end in Success with as many bytes as were listed, and more than none. |
| `FetchExisting.ShortTransferIsFetchedAgain` | packages/engine-core/src/strategies/fetchExistingExecutor.ts:42-83 | A transfer shorter than listed is recorded as a success, and the file is chosen again. |
| `Base64.BytesToBase64` | packages/pocket-shared/src/bytes.ts:14-34 | The loop over groups of three bytes, with shifts and masks, produces the base64 text. |
| `Base64.ShiftAndMask` | packages/pocket-shared/src/bytes.ts:17-33 | The four masked shifts of a 24-bit word are the sextets of its bytes. |
| `Base64.EncodedShape` | packages/pocket-shared/src/bytes.ts:14-34 | Section 4 of RFC 4648: 4*ceil(n/3) characters, alphabet letters, then the padding. |
| `Base64.DecodeLetter` | packages/pocket-shared/src/bytes.ts:41-50 | One letter: though the 32-bit accumulator wraps and is never masked, its low bits and the byte emitted are right. |
| `Base64.Base64ToBytes` | packages/pocket-shared/src/bytes.ts:37-53 | The decoder's loop computes the decoding at any length. |
| `Base64.DecodeEncode` | packages/pocket-shared/src/bytes.ts:14-53 | The decoder inverts the encoder for all bytes. |
| `Base64.WhitespaceIsIgnored` | packages/pocket-shared/src/bytes.ts:41-44 | Characters outside the alphabet may be inserted anywhere before the padding. |
| `Base64.DecodeReflowed` | packages/pocket-shared/src/bytes.ts:37-53 | Any text with the letters of an encoding before its first '=' decodes to the bytes, with or without padding. |
| `Base64.DecodeSpaced` | packages/pocket-shared/src/bytes.ts:41-44 | An encoding with any characters outside the alphabet interspersed decodes to the bytes. |
| `Base64.BytesEqual` | packages/pocket-shared/src/bytes.ts:67-72 | The accumulated differences are zero if and only if the arrays are equal. |
| `Base64.ConcatBytes` | packages/pocket-shared/src/bytes.ts:55-64 | One array filled chunk by chunk holds the chunks in order. |
| `PocketSync.EncryptPocketBlob` | packages/pocket-shared/src/crypto.ts:65-71 | Builds the layout from its parts, byte for byte. |
| `PocketSync.DecryptPocketBlob` | packages/pocket-shared/src/crypto.ts:73-95 | Checks the header in order and opens the parts it cuts out. |
| `PocketPayload.ValidateSecret` | packages/pocket-shared/src/format.ts:219-235 | Keeps exactly the string-valued listed fields and custom entries, but "__proto__", and rejects any other field. |
| `PocketPayload.SecretRoundTripExactly` | packages/pocket-shared/src/format.ts:219-235 | A secret of known fields validates to itself if and only if it has no custom "__proto__". |
| `PocketPayload.ValidateInvertsPrint` | packages/pocket-shared/src/format.ts:188-282 | Every normal snapshot - known kinds and fields, no custom "__proto__" - validates to itself. |
| `PocketPayload.ValidateIsIdempotent` | packages/pocket-shared/src/format.ts:188-282 | Whatever the validator accepts is normal and validates to itself. |
| `PocketPayload.ExtraFieldsAreRejected` | packages/pocket-shared/src/format.ts:168-174 | A field that is not listed, at any level of the fixed schema, rejects the whole payload. |
| `PocketPayload.AcceptedExactly` | packages/pocket-shared/src/format.ts:135-282 | The validator accepts a payload if and only if it has this shape: version 1, three lists, the required texts, a known kind, and no field that is not listed. |
| `PocketPayload.AcceptedPrintIsNormal` | packages/pocket-shared/src/format.ts:188-282 | A printed snapshot with known secret fields is accepted if and only if all its kinds are known. |
| `PocketSync.PocketRoundTrip` | packages/pocket-shared/src/format.ts:53-145 | Build, serialize, parse, decrypt and validate give back the same snapshot, for every normal one whose two texts arrive. |
| `PocketSync.PlatformsExist` | packages/pocket-shared/src/format.ts:53-145 | Every publication has a platform that delivers it, so the round trip is about something. |
| `PocketSync.FilesReadExactly` | packages/pocket-shared/src/format.ts:81-112 | A sync file is read if and only if it is an object with the right magic, a version of at most 1, and its four fields. |
| `PocketSync.PairingRoundTrip` | packages/pocket-shared/src/pairing.ts:36-97 | A pairing payload whose text parses back gives back its key and its location. |
| `PocketSync.AcceptedCodesHaveAKey` | packages/pocket-shared/src/pairing.ts:57-92 | Every accepted pairing code holds a 32-byte key. |
| `PocketSync.CodesReadExactly` | packages/pocket-shared/src/pairing.ts:57-92 | A pairing code is accepted if and only if it is an object with version 1, an id, a key of 32 bytes in base64, and a place to fetch from. |
| `PocketSnapshot.BuildSnapshot` | packages/engine-core/src/vault/pocket/pocketSnapshot.ts:30-71 | The snapshot shows exactly the active clients and what the vault holds for them, once each; it fails if and only if the vault is locked and a secret is needed. |
| `PocketSnapshot.ShownExactly` | packages/engine-core/src/vault/pocket/pocketSnapshot.ts:30-71 | A client, credential or link is on the phone if and only if its client is active. |
| `PocketSnapshot.SecretsAreAccepted` | packages/engine-core/src/vault/credentialBlob.ts:10-55 | The two lists of secret fields agree: whatever Desktop reads out of a blob, the phone accepts unchanged. |
| `PocketSnapshot.VaultReachesThePhone` | packages/pocket-shared/src/format.ts:53-145 | The phone opens the published file to exactly that snapshot if and only if every published kind is one that Desktop stores; otherwise it rejects it. |
| `ShellQuote.QuoteIsOneWord` | packages/engine-core/src/transports/shellQuote.ts:2-4 | A quoted value lexes to exactly one word, equal to the value. |
| `ShellQuote.QuoteIsLiteral` | packages/engine-core/src/transports/shellQuote.ts:2-4 | Wherever it stands in a command line, a quoted value continues the current word by exactly itself. |
| `ShellQuote.DumpCommandIsFixed` | packages/engine-core/src/strategies/remoteDumpExecutor.ts:32-41 | For all configured values the command lexes to the fixed arguments and one redirection to the path. |
| `Throttle.ThrottledSink.Report` | packages/engine-core/src/progress/runProgress.ts:67-85 | The map holds the last written update of every run, and the sink has received what the model writes. |
| `Throttle.RunsAreIndependent` | packages/engine-core/src/progress/runProgress.ts:67-85 | For any interleaving, a run's output through the shared sink is that of throttling it alone. |
| `Throttle.SuppressedExactly` | packages/engine-core/src/progress/runProgress.ts:76-84 | An update is suppressed if and only if one of its run was written in the same phase within the interval and its fraction is short of a step and of 1. |
| `Throttle.WritesAreSpaced` | packages/engine-core/src/progress/runProgress.ts:76-84 | Consecutive writes of a run in one phase are the interval apart unless the fraction jumped. |

## Left out

- The upload of a phone snapshot: temporary name, check of what was uploaded, rename, and the counting of revisions.
- Vault backup targets, tool registries and the Pocket state in an export: the same loops over tables with no references.
- The restored value of a client's active flag (always true), of a schedule without a time, of item metadata's link ids, of a repository's initialization date and of the credential's sync state: not carried by the import, so `Isomorphic` leaves them out or states the new value.
- Warnings and error texts of an import: only the counters and the rows are modelled.
- Base64 and JSON text of the `.arkvault` file, and its checksum: abstract functions, of which only what the theorems state is assumed.
- VaultRuns.StoreRefinesPlainMap: a JavaScript string with a lone surrogate, which UTF-8 cannot carry and which comes back with U+FFFD in its place, is not a string of the model; likewise every other text that is stored or sent.
- VaultObjects.VaultState.InitVault: copies that the runtime keeps of a string or of a freed buffer, and the unsealed plaintext inside DPAPI, are not modelled.
- DueTasks.TickRunsExactly: ticks and manual runs follow one another, but for the manual runs that start, change and end between a tick's turns; two ticks at once are not modelled.
- Retention of runs whose dates cannot be parsed, a query that fails before the pass does anything, and file-backup retention.
- Calendar.DateOf: days from 1 January 1970 on, without daylight saving; a schedule time is "HH:MM" as `setSchedule` admits it.
- RunLock.RunsTable.Start: the step is atomic by assumption; two processes interleaving inside it are not modelled. Row timestamps are the clock that ages are measured with.
- The progress, log and file handling of a run, and the removal of partial files.
- KeySync.Bridge.SyncOperationalCopy: fields of the credential that the copy does not use, and message texts.
- ShellQuote.QuoteIsOneWord: a value with a NUL character cannot reach a shell; the lexer does not forbid it.
- Throttle.ThrottledSink.Report: a sink that throws is not modelled; callers catch it.
- The CLI and HTTP server, user interfaces, SFTP, SSH and FTP adapters, rclone, restic, the scheduler's Windows integration, replication and configuration import and export.
