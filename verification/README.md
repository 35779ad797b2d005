# Albear vault: a verified model

Albear is a password vault: a Go daemon that keeps an encrypted SQLite database, browser and desktop
clients that talk to it over Noise, and a few binary formats around them. This project models its core in
Dafny and proves what it promises. `dafny verify dfyconfig.toml` checks everything.

## How the model is built

- **Database** (`Tables`, `Catalog`): rows are maps, each write statement is a function with the WHERE and SET
  columns of the SQL. A transaction works on a copy that replaces the database on commit or is dropped.
- **Ideal cryptography** (`Octets`): an octet is a plain byte or a position in the symbolic output of a primitive.
  Hashes, MACs, derived keys and sealed boxes have their real lengths; injectivity, authenticity and Diffie-Hellman
  agreement are lemmas about the symbols, not assumptions.
- **Daemon** (`Vault`, `RecordIndex`, `Records`, `Sessions`, `Access`, `Daemon`, `Server`): each operation is a function on
  values, and a class method that changes fields in place and is proved equal to that function. Clock readings, random
  values and the success of I/O are arguments (`Env`).
- **Runs** (`History`): a world is the daemon with its open connections and a history: what was last committed for
  each record (`Truth`), every backup written, every anchor issued, every id used. A step is one connection, one whole
  request, an idle lock, or a restart; one request, and one handshake with its session, is atomic. Random ids are new and
  a container whose HMAC verifies was written by the daemon (`Possible`).
- **Theorems** about runs: `NoFalseAlarm`, `Runs` (no false alarm), `Recovery`, `Requests` (records), `Passwords`, `Detection` (edited files),
  `AccessSafety`, `Confinement`, `Browser`, `Pairing` (access), `Backoff` (guessing), `Events`. `Witness` exhibits runs they speak about.
- **Channel and formats**: `Noise`, `Handshake`, `Transport`, `Frames`, `Crx`, `BackupFile`, `Semver`.

## What the proofs found

1. `UPDATE records` does not write `key_version`, while the ciphertexts are sealed under the active envelope version. After a
   password change every update of an older row succeeds and makes that row unreadable; the next unlock then fails, for
   good. `Recovery.OnlyUpdatingAnOldRowLosesARecord` shows this is the only way to lose a record, `Recovery.UpdateIsDue` when such
   an update goes through, `Witness.UpdateAfterPasswordChangeLosesRecord` a run of the daemon on which it happens, and
   `Recovery.LostRecordLocksTheVaultForGood` the consequence.
2. The index narrows by registrable domain before it tests coverage, and the two may be met by different URLs. A record is lost to
   the search exactly when every URL of it that covers the page allows subdomains and is stored above the registrable domain of the
   page, a public suffix such as co.uk, and no other URL of it has that domain (`RecordIndex.NarrowingIsExact`, under the law
   `Origins.SuffixLaw`).
3. Unlocking takes its keys from the envelope in the file and then holds the file to an anchor under those keys. An envelope put there
   for another root key and password, with rows anchored under that root key, therefore unlocks with that password, although no MAC
   of the vault was forged (`Detection.ForeignEnvelopeUnlocks`). What opens to the root key of the vault passes only in the latest
   committed state (`Detection.UnlockOfAnEditedFile`).
4. A stamp does not check the anchor it replaces: rows edited while the vault is unlocked are adopted by the next write
   (`Detection.NextStampAdoptsEdits`). Detection is exact at the next check before such a write.
5. With a pre-shared key, differing prologues already fail at message A, because its payload is encrypted; only plain XX gets to
   message B.
6. A claimed credential has its client row only if no destroy or restore came between approval and claim: pending pairings survive
   both (`Pairing.OnlyReplacingTheTableBreaksAClaim`; `Witness.ClaimAfterDestroyHasNoRow` is a run on which it fails).
7. Rekeying does not reset the nonce, so nonces are finite after all; the comment on RekeyInterval
   (internal/infrastructure/transport/noise/conn.go:11-14) calls exhaustion impossible. The daemon stops at 2^64 - 1.
8. A send that fails because its ciphertext is too large has used up a nonce, so the channel is dead after it; the daemon closes
   the connection then.
9. At counter 2^63 - 1 every further stamp fails on the CHECK of its column.
10. The delay after failed attempts guards unlocking only: changing the password and destroying the vault test the password too, and
   neither reads nor moves it (`Backoff.ThrottlingGuardsUnlockOnly`).
11. After a restore the check accepts any earlier file at or above the restored counter, because a restore issues counters again
   (`Detection.AnyRunAcceptsIssuedAnchors` gives what is accepted over all runs).
12. An entry put into the index by a command keeps nanoseconds that the stored document does not have.

## Main results

- No false alarm: `Runs.NoRunAccusesItself`, on the invariant `Runs.RunKeeps`.
- Records: `Recovery.OnlyUpdatingAnOldRowLosesARecord`, `Recovery.EveryRecordIsRecovered`, `Recovery.LostRecordLocksEveryRun`,
  `Witness.UpdateAfterPasswordChangeLosesRecord`, `Requests.CreateStoresWhatWasSubmitted`,
  `Requests.UpdateStoresWhatWasSubmitted`, `Browser.MatchFollowsTheRecords`, `RecordIndex.NarrowingIsExact`.
- Passwords: `Recovery.UnlockSucceedsExactly`, `Passwords.OldPasswordIsRetired`, `Backoff.UnlockGuessingIsSlow`.
- Edited files: `Detection.OnlyTheLatestStatePasses`, `Detection.AnyRunAcceptsIssuedAnchors`, `Detection.UnlockOfAnEditedFile`,
  `Detection.ForeignEnvelopeUnlocks`, on `Catalog.RootBindsEverything`.
- Access: `Confinement.NoSessionSurvivesALock`, `Confinement.EveryAdmittedRequestIsLive`, `Confinement.RevocationIsPermanent`,
  `Browser.BrowserSecretsAreForTheirPages`, `Browser.BrowserClientsChangeOnlyLogins`, `Pairing.ApprovedOnlyOnce`,
  `Pairing.ClaimedOnlyOnce`, `Pairing.ClaimantConnectsUntilRevoked`, `Pairing.PairedConnectionsArePinned`,
  `Pairing.ApprovedRowIsAsRequested`, `Confinement.AdmittedExactly`.
- Channel: `Handshake.HonestRunAgrees`, `Handshake.ImpostorFailsAtB`, `Handshake.ImpostorFailsAtC`,
  `Handshake.AlteredMessageAIsCaughtAtB`, `Handshake.AlteredMessageBIsCaughtAtC`, `Handshake.TransportKeysNameEverySecret`,
  `Transport.HonestConnectionCarriesEverything`, `Transport.KeysNeverComeBack`, `Transport.OversizedSendBreaksTheChannel`.
- Formats: `Frames.ChunkingDoesNotMatter`, `Crx.VerifyAcceptsPacked`, `Crx.VerifiedExactly`,
  `BackupFile.AcceptsExactlyWhatWasWritten`, `Semver.CompareTransitiveOnTags`.

## Model

| member | source | states |
|---|---|---|
| `Runs.NoRunAccusesItself` | internal/vault/application/service.go:441-485 | After any run from a started daemon the stored root is the root of the stored rows, the high-water mark is at most the stored counter, and the catalog check answers Ok or a storage error, never an integrity failure |
| `Runs.StepKeeps` | internal/daemon/handlers.go:86-120 | Every step (connection, request, idle lock, restart) keeps the whole vault invariant: rows, anchor, service, index and all backups |
| `Runs.RunKeeps` | internal/daemon/handlers.go:168-264 | The vault invariant holds after runs of any length |
| `Runs.StartKeeps` | internal/daemon/server.go:58-79 | A started daemon satisfies the vault invariant |
| `Runs.KeysOnlyWhileUnlocked` | internal/vault/application/service.go:365-380 | After any run keyring and root key are held exactly while unlocked, the index lists exactly the stored rows while unlocked and is empty while locked, and its multimaps agree |
| `Runs.HandleKeeps` | internal/daemon/handlers.go:86-120 | One admitted or refused request keeps the invariant; an integrity failure is only ever answered for a row whose key_version is not the version it was sealed under |
| `Runs.RevealKnown` | internal/records/application/queries.go:115-140 | Reveal returns exactly the secret last committed, unless the row key_version differs from its sealing version, then exactly an integrity failure |
| `Runs.OpRestoreKeeps` | internal/daemon/server.go:244-279 | Restoring a backup the daemon wrote yields a vault in order, for the rows and secrets of the backup |
| `Runs.OpCreateBackupKeeps` | internal/backup/application/backup.go:54-92 | A backup holds a vault in order and the current database |
| `Runs.OpDestroyKeeps` | internal/daemon/server.go:283-319 | Destroy succeeds only with the master password and leaves an empty database in order |
| `NoFalseAlarm.StampKeeps` | internal/catalog/catalog.go:137-161 | A transaction that leaves the tables in order comes out of the stamp anchored, one counter later |
| `NoFalseAlarm.MarkFollows` | internal/vault/application/service.go:413-424 | Noting the committed counter keeps the high-water mark equal to the stored one |
| `NoFalseAlarm.VerifyAcquits` | internal/vault/application/service.go:441-485 | On a vault in order the check accepts an anchored database and bootstraps one without an anchor |
| `NoFalseAlarm.UpdateKeeps` | internal/records/application/commands.go:70-124 | A committed update keeps rows, index and anchor in order, keeps the key_version of the row, and raises its revision by one; a failed one changes nothing |
| `NoFalseAlarm.CreateKeeps` | internal/records/application/commands.go:16-66 | A committed create keeps rows, index and anchor in order; a failed one changes nothing |
| `NoFalseAlarm.DeleteKeeps` | internal/records/application/commands.go:127-154 | A committed delete removes exactly that row and its index entry; a failed one changes nothing |
| `NoFalseAlarm.ChangePasswordKeeps` | internal/vault/application/service.go:527-607 | Changing the password needs the current one and leaves a vault in order for the next one |
| `NoFalseAlarm.LoadIndexKnown` | internal/records/application/queries.go:13-50 | Loading the index fails exactly when some row carries another key_version than it was sealed under, and then leaves the index empty; otherwise the index agrees with the rows |
| `NoFalseAlarm.MetadataKnown` | internal/records/application/queries.go:25-45 | A row opens exactly when its key_version is its sealing version, and then gives the committed metadata to the millisecond |
| `NoFalseAlarm.SecretKnown` | internal/records/application/queries.go:115-140 | The same for the secret half, without loss |
| `NoFalseAlarm.OpUnlockKeeps` | internal/daemon/handlers.go:292-330 | What unlock answers, case by case: throttled, no vault, wrong password, unreadable row, failed bootstrap, done; every case keeps the vault in order |
| `NoFalseAlarm.UnlockKnown` | internal/vault/application/service.go:265-315 | The right password, and nothing else, opens the vault |
| `Recovery.OnlyUpdatingAnOldRowLosesARecord` | internal/records/application/commands.go:70-124 | From a state where everything can be read back, a step leads to one where something cannot if and only if it is an admitted update that has all it needs (a condition on the state before it) of a row whose key_version is not the active envelope version |
| `Recovery.EveryRecordIsRecovered` | internal/records/application/queries.go:115-140 | In every run without such an update each row reveals the secret last committed, and the index reloads |
| `Recovery.IndexIsWhatWouldBeRebuilt` | internal/records/application/queries.go:13-50 | In such runs the live index equals what LoadIndex would rebuild, up to the stored precision of instants |
| `Recovery.NoReplyAccuses` | internal/daemon/handlers.go:86-120 | In such runs no reply is an integrity failure; of the read-only queries the model has only that a locked vault refuses them, so for their answers this holds by definition |
| `Recovery.UnlockSucceedsExactly` | internal/daemon/handlers.go:292-330 | In such runs unlock succeeds if and only if it is not throttled, a vault exists, the password is right, and a missing anchor can be written |
| `Passwords.OldPasswordIsRetired` | internal/vault/application/service.go:527-607 | After a password change that succeeded, and any further run without another change, destroy or restore, the next password and no other opens the vault whenever an attempt is not throttled; the change moved no record row |
| `Passwords.RunKeepsPassword` | internal/vault/application/service.go:527-607 | Through such runs vault row, anchor row and the password in force stay |
| `Recovery.LostRecordLocksTheVaultForGood` | internal/daemon/handlers.go:292-330 | A vault locked with an unreadable row stays locked through every step but a destroy, and every unlock fails |
| `Recovery.LostRecordLocksEveryRun` | internal/daemon/handlers.go:292-330 | The same over runs of any length |
| `Recovery.UpdateRequestSucceedsExactly` | internal/daemon/handlers.go:390-416 | When an update request succeeds, as a condition on the state before it: admitted, keys held, the entry (a login under the narrow capability) and the row present at the expected revision, a valid record, an envelope, room in the counter, a commit |
| `Recovery.ChangePasswordSucceedsExactly` | internal/daemon/handlers.go:332-345 | When a password change succeeds on a vault in order (policy, current password, parameters, counter, commit), and which envelope version is active after it |
| `Detection.OnlyTheLatestStatePasses` | internal/vault/application/service.go:441-485 | For a vault never restored, in this process or an earlier one: after any run without a restore, and any edit of the file short of forging a MAC, the check accepts exactly when the anchor is the latest and these columns are: per record id revision, key_version, payload_version and both ciphertexts, per client id status, mask, credential and static key, and wrapped key, salt and cost parameters of the active envelope; otherwise it errs |
| `Detection.AnyRunAcceptsIssuedAnchors` | internal/vault/application/service.go:441-485 | Over any run, restores included: the check accepts exactly an anchor some stamp issued, with the rows of that stamp, at a counter not below the mark |
| `Detection.UnlockOfAnEditedFile` | internal/daemon/handlers.go:292-330 | Unlocking any edited file short of a forged MAC under the catalog key of the vault, envelope and keys taken from that file: it succeeds exactly when the password opens its envelope, its records load, and: without an anchor, one can be written; opened to the root key of the vault, anchor and covered fields are those of the latest committed state; opened to another root key, which takes a replaced envelope, the file is anchored under that key at or above the mark |
| `Detection.ForeignEnvelopeUnlocks` | internal/vault/application/service.go:265-315 | The limit, at a concrete file: an envelope for any other root key and any password, no rows, and an anchor under that root key forge no MAC of the vault, differ from the committed state, and unlock |
| `Detection.VerdictIsExact` | internal/vault/application/service.go:441-485 | The same for one state, given the log of anchors ever issued |
| `Detection.UnlockedVaultDetects` | internal/vault/application/service.go:413-424 | In restore-free runs an unlocked vault always has a high-water mark, so the check is never blind to rollback |
| `Detection.StepDetects` | internal/catalog/catalog.go:137-161 | Every step but a restore keeps the log of anchors: counters under one key strictly grow and the stored anchor is the last one issued |
| `Detection.RunDetects` | internal/catalog/catalog.go:137-161 | The same over runs |
| `Detection.DispatchEffect` | internal/daemon/handlers.go:168-264 | Every request but a restore leaves anchor and covered rows alone, or stamps one counter further, or creates a vault, or empties the database |
| `Detection.AcceptedIsIssued` | internal/catalog/catalog.go:177-187 | A root that verifies over a database was issued for exactly that key, vault, version, counter and covered rows |
| `Detection.NextStampAdoptsEdits` | internal/catalog/catalog.go:137-161 | The limit: a stamp checks nothing, so the next write re-anchors whatever the file then holds |
| `Detection.FreshDaemonStarts` | internal/daemon/server.go:58-79 | The hypotheses of the run theorems hold of a daemon started on no database |
| `Witness.UnlockedRunExists` | internal/daemon/handlers.go:277-330 | The hypotheses of the run theorems are met by a run, for every password the policy accepts: connect, create a vault, unlock it; it is possible and ends unlocked |
| `Witness.UpdateAfterPasswordChangeLosesRecord` | internal/infrastructure/sqlite/gen/command/commands.sql.go:270-279 | For every two passwords the policy accepts, a possible run from an empty database (connect, init, unlock, create, change password, unlock) after which the record reveals what was stored and an update succeeds; then revealing it is an integrity failure, and after a lock the vault is stuck |
| `Witness.ClaimAfterDestroyHasNoRow` | internal/access/application/service.go:209-226 | A possible run (pair, approve, destroy) after which the claim hands out a credential whose client row is gone |
| `Catalog.StreamInjective` | internal/catalog/catalog.go:63-126 | Equal byte streams have equal vault id, version, counter, record list, client list and envelope, for lists of any length |
| `Catalog.StreamIsTagged` | internal/catalog/catalog.go:46-66 | What is keyed begins with its own tag |
| `Catalog.RootBindsEverything` | internal/catalog/catalog.go:63-126 | Two roots agree if and only if the key and everything folded in agree |
| `Catalog.RootCoversTheColumns` | internal/catalog/catalog.go:63-126 | What the root covers, column by column on the rows of the tables |
| `Catalog.InOrder` | internal/infrastructure/sqlite/gen/query/queries.sql.go:333-338 | ORDER BY lists each key once, ascending |
| `Catalog.OneAscendingListing` | internal/infrastructure/sqlite/gen/query/queries.sql.go:219-224 | There is one ascending listing of a set of keys, so the root cannot depend on insertion order |
| `Catalog.RowsDetermineTable` | internal/infrastructure/sqlite/gen/query/queries.sql.go:352-380 | The listed rows determine the table |
| `Catalog.Root` | internal/catalog/catalog.go:63-126 | The row-by-row MAC loop computes the keyed root of the covered rows, or fails exactly without the envelope row |
| `Catalog.WriteRecords` | internal/catalog/catalog.go:80-88 | The record loop writes exactly the record items, in order, in front of what follows |
| `Catalog.WriteClients` | internal/catalog/catalog.go:96-103 | The client loop likewise |
| `Catalog.Stamp` | internal/catalog/catalog.go:137-161 | Stamp re-anchors the rows at the next counter |
| `Catalog.Verify` | internal/catalog/catalog.go:177-187 | Verify reports no anchor, an unreadable root, or whether the root matches |
| `Catalog.StampVerifies` | internal/catalog/catalog.go:137-187 | What a stamp writes verifies, at the counter it returns |
| `Catalog.StampFailsExactly` | internal/catalog/catalog.go:137-161 | A stamp fails exactly without the active envelope row or when the signed counter column is full |
| `RecordIndex.Index.Put` | internal/records/application/index.go:37-51 | Put replaces the entry and its filings |
| `RecordIndex.Index.Remove` | internal/records/application/index.go:53-60 | Remove takes the entry and its filings away |
| `RecordIndex.Index.RemoveIndexesLocked` | internal/records/application/index.go:64-71 | One occurrence per URL leaves byHost, one leaves byProjectID |
| `RecordIndex.Index.Clear` | internal/records/application/index.go:214-220 | Clear empties all three maps |
| `RecordIndex.RemoveFromMultimap` | internal/records/application/index.go:75-86 | The first occurrence goes, and the key with the last one |
| `RecordIndex.PutAgrees` | internal/records/application/index.go:37-51 | After a put the multiplicity of every id under every domain is the number of its URLs there, byProjectID is exact, and no key is empty |
| `RecordIndex.RemoveAgrees` | internal/records/application/index.go:53-86 | The same after a remove |
| `RecordIndex.Index.Match` | internal/records/application/index.go:175-211 | Match lists every offered entry once, sorted by name, with its reason, and nothing else |
| `RecordIndex.Index.OriginMatches` | internal/records/application/index.go:180-192 | The first loop finds exactly the covered entries among the candidates |
| `RecordIndex.Index.ProjectMatches` | internal/records/application/index.go:193-208 | The second loop adds the project matches not seen before |
| `RecordIndex.SortByName` | internal/records/application/index.go:209-210 | Sorting keeps the results and orders them by name |
| `Origins.MatchesCovers` | internal/records/domain/url.go:126-143 | A stored URL covers a page exactly when scheme and port agree and its host is the host of the page or, where allowed, what that host ends in after a dot |
| `RecordIndex.CoveringUrlSharesDomain` | internal/records/domain/url.go:101-143 | Under the law of the public-suffix list a URL that covers a page shares its registrable domain if and only if it is not a subdomain URL stored above that domain |
| `RecordIndex.NarrowingIsExact` | internal/records/application/index.go:175-211 | Under that law the narrowed search differs from the linear scan exactly for a record that covers the page only by URLs stored above the registrable domain of the page, while no other URL of it has that domain |
| `RecordIndex.ExactUrlsAreNeverLost` | internal/records/domain/url.go:129-143 | For any lookups a record without subdomain URLs is offered as the scan would offer it |
| `RecordIndex.NarrowingLosesSuffixRecord` | internal/records/domain/url.go:129-143 | For all lookups that know co.uk as a public suffix: a storable record for it that the scan offers on a.co.uk and the index does not |
| `RecordIndex.DomainAndCoverMayComeFromDifferentUrls` | internal/records/application/index.go:175-211 | For the same lookups: a storable record offered although no single URL of it both covers the page and shares its domain |
| `Requests.CreateStoresWhatWasSubmitted` | internal/daemon/handlers.go:366-384 | A create that succeeds adds one row; live index, committed metadata and revealed secret say what was submitted: one URL per text, in order, with the parse of the text, exact unless its entry allows subdomains, and every other field; a browser create is a login |
| `Requests.UpdateStoresWhatWasSubmitted` | internal/daemon/handlers.go:390-416 | The same for an update, which keeps kind and instant of creation and rewrites that row alone; its secret is revealed exactly when the key_version of the row is the active one |
| `Requests.CreateRequestSucceedsExactly` | internal/records/application/commands.go:16-66 | When a create request succeeds, written out: admitted, unlocked, a new non-zero id, known kind, a name, what the kind asks for, URLs that parse to a host, room in the counter, a commit |
| `Requests.UpdateSucceedsWhen` | internal/records/application/commands.go:70-124 | The same for an update: the row at the expected revision, and a login under the narrow capability |
| `Requests.DeleteRequestSucceedsExactly` | internal/records/application/commands.go:127-154 | The same for a delete, which takes that row, its entry and nothing else |
| `Requests.InitSucceedsExactly` | internal/vault/application/service.go:140-209 | When creating the vault succeeds, with the bounds of the cost parameters, and what it leaves |
| `Requests.FailedRestoreLocks` | internal/daemon/server.go:244-279 | A restore refused before the install changes nothing, one that fails to install leaves the vault locked |
| `Requests.BackupSucceedsExactly` | internal/backup/application/backup.go:54-92 | When a backup succeeds, and that it holds the database under the backup key |
| `Records.MovedCiphertextsDoNotOpen` | internal/records/application/queries.go:25-140 | A ciphertext moved to another vault, record, revision, column or key version does not open |
| `Records.RecordService.CreateRecord` | internal/records/application/commands.go:16-66 | The command as a method, equal to its specification on every path |
| `Records.RecordService.UpdateRecordById` | internal/records/application/commands.go:70-124 | The same for update |
| `Records.RecordService.DeleteRecordById` | internal/records/application/commands.go:127-154 | The same for delete |
| `Records.RecordService.LoadRecordIndex` | internal/records/application/queries.go:13-50 | The clearing and refilling loop equals the specification; one row that does not open empties the index again |
| `Records.RebuildStops` | internal/records/application/queries.go:25-45 | One unreadable row makes every longer rebuild fail |
| `Records.CreateSucceedsExactly` | internal/records/application/commands.go:16-66 | When create succeeds, as a condition its caller could check |
| `Records.UpdateSucceedsExactly` | internal/records/application/commands.go:70-124 | When update succeeds, as a condition its caller could check: keys, entry and row present, the expected revision, a valid record, an envelope, room in the counter, a commit |
| `Records.UpdateIsCompareAndSwap` | internal/records/application/commands.go:70-124 | Success means the row had the expected revision and now has the next one and the anchor moved by one; any failure, a stale revision included, leaves rows, index and counter alone |
| `Records.OfferedIsRevealable` | internal/records/application/queries.go:148-168 | Every entry offered on a page where filling is allowed passes the check of the constrained reveal |
| `Records.RevealRefusals` | internal/records/application/queries.go:148-168 | What the constrained reveal answers where it does not reveal, by the first check that fails |
| `Codec.AadBindsEverything` | internal/infrastructure/crypto/aad.go:22-31 | Associated data agree if and only if vault, record, revision, kind, format and key version agree |
| `Codec.RecordAad` | internal/infrastructure/crypto/aad.go:22-31 | Associated data have a fixed width of 49 octets |
| `Codec.MetadataRoundTrip` | internal/records/application/codec.go:62-108 | Decoding an encoded metadata document gives the kind and the metadata, instants cut to milliseconds |
| `Codec.FieldsAreSubmitted` | internal/daemon/dto.go:200-240 | A request is taken exactly when its URLs parse, and then for what it says; plain URLs are exact |
| `Codec.DecodedSays` | internal/records/application/codec.go:79-108 | A stored document decodes to what it says; the URLs of a legacy document are exact |
| `Codec.NewLoginUrlsParse` | internal/records/domain/url.go:165-172 | URLs built from a request carry the parse of their own text |
| `Vault.EnvelopeOpensExactly` | internal/vault/application/service.go:213-260 | An envelope opens for the vault, version and password it was built for and for no other |
| `Vault.UnwrapsExactly` | internal/vault/application/service.go:213-260 | What an envelope unwraps to, and when, with the bounds of its cost parameters |
| `Vault.OpensExactly` | internal/vault/application/service.go:213-260 | Opening also needs the canary to be sealed under the unwrapped root key |
| `Vault.KeysAreSeparate` | internal/vault/application/service.go:317-336 | The five subkeys differ from each other and between root keys |
| `Vault.VaultService.Load` | internal/vault/application/service.go:640-666 | Loading reads the vault row once and refuses a newer format |
| `Vault.LoadsExactly` | internal/vault/application/service.go:640-666 | When the vault row is read, which format is refused, and what comes of it |
| `Vault.VaultService.NoteCatalogCounter` | internal/vault/application/service.go:413-424 | The mark only rises |
| `Vault.VaultService.InitVault` | internal/vault/application/service.go:140-209 | Init equals its specification: one transaction with vault, envelope and anchor, or nothing |
| `Vault.VaultService.UnlockFailed` | internal/vault/application/service.go:340-355 | The delay ladder of failed attempts |
| `Vault.VaultService.UnlockVault` | internal/vault/application/service.go:265-315 | Unlock equals its specification |
| `Vault.VaultService.Lock` | internal/vault/application/service.go:359-384 | Keys go, the epoch moves when it was unlocked, and the hooks empty index and sessions |
| `Vault.PeriodsDiffer` | internal/vault/application/service.go:359-384 | Unlocking and locking each move the epoch, and locking keeps mark, vault and backoff |
| `Vault.VaultService.ResetVault` | internal/vault/application/service.go:395-402 | Reset locks, forgets the vault and the mark, and returns the epoch to 0 |
| `Vault.VaultService.VerifyStoredCatalog` | internal/vault/application/service.go:441-485 | The catalog check equals its specification, bootstrap included |
| `Vault.VaultService.ChangeMasterPassword` | internal/vault/application/service.go:527-607 | The password change equals its specification and locks with its hooks exactly on success |
| `Vault.VaultService.InstallEnvelope` | internal/vault/application/service.go:561-605 | The envelope swap and its stamp are one transaction |
| `Vault.VaultService.VerifyMasterPassword` | internal/vault/application/service.go:611-638 | Re-authentication opens the active envelope without touching the keys |
| `Vault.ReauthenticatesExactly` | internal/vault/application/service.go:611-638 | Re-authentication needs the active envelope and the password that unwraps it |
| `Vault.Rewrap` | internal/vault/application/service.go:561-597 | The transaction body of the password change |
| `Tables.Store.Finish` | internal/infrastructure/sqlite/database.go:35-45 | A transaction replaces the database on commit and leaves it alone otherwise |
| `Tables.SchemaRefuses` | internal/infrastructure/sqlite/migrations/0001_init.sql:1-80 | Which rows the CHECKs of the schema take, and what noting an activity leaves alone |
| `Sessions.SessionManager.Issue` | internal/access/application/sessions.go:32-48 | A session of twelve hours at the given epoch |
| `Sessions.SessionManager.Validate` | internal/access/application/sessions.go:53-69 | Alive exactly when present, unexpired and of the epoch; a dead one is removed |
| `Sessions.SessionManager.LastActivity` | internal/access/application/sessions.go:75-90 | The latest activity among unexpired sessions, whatever their epoch |
| `Sessions.SessionManager.DropClient` | internal/access/application/sessions.go:100-108 | Exactly the sessions of that client go |
| `Sessions.SessionManager.InvalidateAll` | internal/access/application/sessions.go:111-115 | All sessions go |
| `Sessions.PairableKindsAreBrowsers` | internal/access/domain/client.go:48-79 | The pairable kinds are exactly those with the Chrome or the relay set |
| `Pairing.KindsMayDo` | internal/access/domain/client.go:48-79 | Which operations each pairable kind gets, one by one |
| `Confinement.CliCapabilities` | internal/access/domain/capability.go:60-88 | Which operations the command line gets |
| `Access.DigestBindsBothKeys` | internal/access/application/service.go:98-106 | The digest behind a pairing phrase is the same exactly for the same daemon key, client key and request; of the 48 bits shown nothing more is claimed than that the digest determines them |
| `Access.AccessService.Request` | internal/access/application/service.go:68-93 | Only pairable kinds with a 32-byte key become pending |
| `Access.ApproveSucceedsExactly` | internal/access/application/service.go:125-188 | When an approval succeeds, as a condition its caller could check |
| `Access.RevokeSucceedsExactly` | internal/access/application/service.go:275-306 | When a revocation succeeds, as a condition its caller could check |
| `Access.VerifierNames` | internal/infrastructure/crypto/memory.go:22-25 | A verifier is that of one credential, and no credential is its own verifier |
| `Access.LabelOpens` | internal/access/application/service.go:150-175 | The label of a client opens in its own row alone, to the name it asked under |
| `Access.AccessService.ApprovePairing` | internal/access/application/service.go:125-188 | Approval inserts the client row with the verifier and the requested key, stamped, or changes nothing |
| `Access.AccessService.CancelPairing` | internal/access/application/service.go:193-205 | Only unapproved entries can be cancelled |
| `Access.AccessService.ClaimCredential` | internal/access/application/service.go:209-226 | The credential is handed out once, then forgotten |
| `Access.AccessService.RevokeClient` | internal/access/application/service.go:275-306 | Revocation marks the row, stamped, or changes nothing |
| `AccessSafety.StepKeepsAccess` | internal/daemon/handlers.go:129-155 | Every step keeps the invariants of sessions, connections, client rows and pairings; sessions only go or come under new ids |
| `AccessSafety.RunKeepsAccess` | internal/daemon/handlers.go:86-120 | The same over runs |
| `Confinement.NoSessionSurvivesALock` | internal/vault/application/service.go:359-402 | No session issued before a lock, panic lock, password change, restore, destroy or restart ever validates again, at any clock and epoch, although Reset returns the epoch to 0 |
| `Confinement.LockingClearsSessions` | internal/vault/application/service.go:365-402 | Whatever locks the vault or resets the service empties the session map |
| `Confinement.EveryAdmittedRequestIsLive` | internal/daemon/handlers.go:129-155 | After any run an admitted request has a live, unexpired session of the current epoch holding the capability of its operation |
| `Confinement.AdmittedIsLive` | internal/daemon/handlers.go:86-155 | The same for one state; the pairing channel is admitted only to its four operations |
| `Confinement.AdmittedExactly` | internal/daemon/handlers.go:86-155 | Which requests are admitted, in terms of the state before: pairing channel, live session, or a dead one that can be renewed |
| `Confinement.AliveDecides` | internal/access/application/sessions.go:53-69 | A live session decides by its own mask and notes the activity, unless the request only asks for the status |
| `Confinement.RenewalDecides` | internal/daemon/handlers.go:129-155 | A renewed session is of twelve hours, of this epoch, with the mask in the row of the client |
| `Confinement.BrowserClientsAreConfined` | internal/access/domain/capability.go:90-100 | After any run no connection of a paired client is admitted outside the Chrome or relay set |
| `Confinement.BrowserCapabilities` | internal/access/domain/capability.go:90-100 | Which operations the two browser masks allow, exactly |
| `Browser.BrowserSecretsAreForTheirPages` | internal/daemon/handlers.go:450-470 | After any run a paired client never receives a whole secret, and receives user name and password only by the constrained reveal, for a secure or loopback page that a URL or project tag of the record covers, and then those last committed |
| `Browser.RevealFollowsTheRecord` | internal/daemon/handlers.go:450-470 | The constrained reveal answers exactly for an https or loopback page that a committed URL or the committed project tag covers, with the committed user name and password |
| `Browser.MatchFollowsTheRecords` | internal/records/application/index.go:175-211 | After any run of an unlocked vault the answer to a match lists, by origin, exactly the records one committed URL of which covers the page and one has its registrable domain, and otherwise, by project, those whose committed tag a loopback page presents |
| `Browser.BrowserClientsChangeOnlyLogins` | internal/daemon/handlers.go:366-416 | After any run no request of a paired client removes a row or changes one whose record is not a login |
| `Confinement.RevocationIsPermanent` | internal/access/application/service.go:275-337 | In restore-free runs after a revoke no request of that client is admitted on any connection and no handshake finds it |
| `Confinement.DeadClientStays` | internal/daemon/handlers.go:129-155 | No step but a restore revives a revoked client |
| `Confinement.RevokeKills` | internal/daemon/handlers.go:602-617 | A successful revoke leaves no approved row and no session of the client |
| `Pairing.ApprovedOnlyOnce` | internal/access/application/service.go:125-188 | After one approval no later one of the same pairing succeeds, in any run |
| `Pairing.ClaimedOnlyOnce` | internal/access/application/service.go:209-226 | After one claim no later one of the same pairing succeeds, in any run |
| `Pairing.ApprovedCannotBeCancelled` | internal/access/application/service.go:193-205 | An approved pairing cannot be cancelled |
| `Pairing.PairedPeerConnectsExactly` | internal/daemon/server.go:190-239 | A peer connects under a client id exactly when the row is approved and it has both the credential verifier and the static key in that row |
| `Pairing.ConnectionIsFor` | internal/daemon/server.go:211-239 | What a connection is given, by its hello |
| `Pairing.PairedConnectionsArePinned` | internal/daemon/server.go:190-239 | Over whole runs on which no destroy or restore goes through: a connection under a client id has the static key in the row of that client and is admitted only to the operations of the kind in that row |
| `Pairing.ApprovedRowIsAsRequested` | internal/access/application/service.go:68-188 | From a pairing request, over any run, to its approval: the row has the kind asked for, its operations, the key of the channel, and the verifier of the credential handed out |
| `Pairing.ClaimantCanConnect` | internal/access/application/service.go:209-226 | A claim yields the preimage of the verifier in the client row that has the requested key; the claimant can connect if and only if that row is still approved |
| `Pairing.ClaimantConnectsUntilRevoked` | internal/access/application/service.go:209-226 | Over whole runs on which no destroy or restore goes through: every successful claim has its row, and after any further such run a peer connects under that id if and only if it has the verifier and the key that were paired, the row was approved at the claim, and the client was not revoked since |
| `Pairing.RunKeepsRow` | internal/access/application/service.go:275-306 | Through such runs a client row stays, and stops being approved exactly by a successful revoke |
| `Pairing.ReplacementSucceedsExactly` | internal/daemon/server.go:244-319 | When a destroy or a restore goes through, as a condition on the state before it |
| `Pairing.OnlyReplacingTheTableBreaksAClaim` | internal/daemon/server.go:244-319 | The row of an unclaimed approval is lost exactly by a destroy, or by a restore of a snapshot without it, that has what it needs |
| `Events.UnlockRecords` | internal/daemon/handlers.go:292-330 | Which event code an unlock leaves, by how it ends |
| `Events.RequestsRecord` | internal/daemon/handlers.go:168-264 | Which event code every other request leaves, by its reply |
| `Events.RefusalsRecord` | internal/daemon/handlers.go:86-120 | Which event code a refusal leaves |
| `Events.ReplacementsRecord` | internal/daemon/server.go:244-319 | A restore leaves the snapshot and one event, a destroy leaves nothing, and a failed one the database as it was |
| `Server.DaemonServer.constructor` | internal/daemon/server.go:58-79 | The services share one store; index and session manager are the lock hooks |
| `Server.DaemonServer.HandleRequest` | internal/daemon/handlers.go:86-120 | Request handling by objects equals the step function |
| `Server.DaemonServer.Accept` | internal/daemon/server.go:190-239 | Lookup and connection state after a handshake |
| `Backoff.UnlockGuessingIsSlow` | internal/vault/application/service.go:340-355 | In any run of failed unlock attempts without a success the k-th evaluated attempt (k at least 11) starts 79 + 60(k - 11) seconds after the first one ended |
| `Backoff.ThrottlingGuardsUnlockOnly` | internal/vault/application/service.go:527-638 | The two other operations that test the master password, change and re-authentication, answer the same whatever failures and deadline say |
| `Backoff.FailuresAreSpaced` | internal/vault/application/service.go:270-273 | Each attempt waits at least the sum of all delays before it, whatever locks or resets happen between |
| `Backoff.StepBackoff` | internal/vault/application/service.go:265-355 | Only a failed attempt moves counter and deadline, and only when it was not throttled |
| `Backoff.DelayGrows` | internal/vault/application/service.go:340-355 | The delay never decreases with failures |
| `Vault.DelayLadder` | internal/vault/application/service.go:340-355 | The delays after each number of failures |
| `Backoff.TotalFromEleven` | internal/vault/application/service.go:340-355 | The delays add up to 79 + 60(n - 10) seconds |
| `Noise.CipherState.Encrypt` | extension/src/noise/noise.ts:76-82 | Seal under key and counter, then count and rekey every 4096 messages |
| `Noise.CipherState.Decrypt` | extension/src/noise/noise.ts:84-90 | The inverse; a failure leaves the state alone |
| `Noise.CipherState.MaybeRekey` | extension/src/noise/noise.ts:96-107 | The key changes exactly at multiples of the interval, the counter does not |
| `Noise.CipherState.InitializeKey` | extension/src/noise/noise.ts:61-64 | A new key starts at counter 0 |
| `Noise.HkdfExpands` | extension/src/noise/noise.ts:43-55 | The chains are HKDF-Expand of RFC 5869, section 2.3, over the chaining key as salt |
| `Noise.NonceLayout` | extension/src/noise/noise.ts:66-74 | Four zero bytes, then the counter in little-endian order |
| `Noise.Names` | extension/src/noise/noise.ts:166-190 | The two protocol names, letter by letter |
| `Noise.NamesBegin` | extension/src/noise/noise.ts:115-119 | The plain name is as long as a hash and stands for itself, the other is hashed |
| `Noise.MixingExpands` | extension/src/noise/noise.ts:121-157 | Which HKDF output becomes what in MixKey, MixKeyAndHash and Split |
| `Noise.DecryptEncrypt` | extension/src/noise/noise.ts:76-90 | What one state encrypts an equal state decrypts, and both move to the same next state |
| `Noise.DecryptRefuses` | extension/src/noise/noise.ts:84-90 | Another key or other associated data never opens it |
| `Noise.SymmetricState.constructor` | extension/src/noise/noise.ts:115-119 | The protocol name, padded or hashed |
| `Noise.SymmetricState.Mix` | extension/src/noise/noise.ts:121-125 | MixKey |
| `Noise.SymmetricState.Absorb` | extension/src/noise/noise.ts:127-129 | MixHash |
| `Noise.SymmetricState.MixBoth` | extension/src/noise/noise.ts:131-136 | MixKeyAndHash |
| `Noise.SymmetricState.Encrypt` | extension/src/noise/noise.ts:138-142 | EncryptAndHash |
| `Noise.SymmetricState.Decrypt` | extension/src/noise/noise.ts:144-148 | DecryptAndHash; a failure leaves the state alone |
| `Noise.SymmetricState.SplitKeys` | extension/src/noise/noise.ts:150-157 | Split |
| `Noise.XXHandshake.constructor` | extension/src/noise/noise.ts:190-199 | The protocol by the presence of a PSK, then the prologue |
| `Noise.XXHandshake.WriteMessageA` | extension/src/noise/noise.ts:207-213 | Message A |
| `Noise.XXHandshake.ReadMessageB` | extension/src/noise/noise.ts:216-240 | Message B with its three errors and the partial state each leaves |
| `Noise.XXHandshake.WriteMessageC` | extension/src/noise/noise.ts:243-250 | Message C |
| `Noise.XXHandshake.SplitCiphers` | extension/src/noise/noise.ts:253-256 | The transport keys |
| `Handshake.HonestRunAgrees` | extension/tests/transport.test.ts:74-146 | In every honest XX or XXpsk3 run the two symmetric states are equal after each message, every payload and static key arrives, and each end sends under the key the other receives under |
| `Handshake.AgreeAfterB` | extension/src/noise/noise.ts:216-240 | Message B read by the initiator gives the state of the responder, by DH agreement |
| `Handshake.AgreeAfterC` | extension/src/noise/noise.ts:243-250 | Message C read by the responder gives the state of the initiator |
| `Handshake.DifferingPrologueFailsAtB` | extension/src/noise/noise.ts:216-240 | Without a PSK differing prologues pass message A and fail authentication at message B |
| `Handshake.DifferingPrologueFailsAtAWithPsk` | extension/tests/transport.test.ts:121-126 | With a PSK they already fail at message A |
| `Handshake.DifferingPskFailsAtC` | extension/src/noise/noise.ts:243-250 | Differing PSKs agree through A and B and fail at message C |
| `Handshake.MixKeyTellsApart` | extension/src/noise/noise.ts:121-125 | Mixing gives one key exactly when the inputs and the chaining keys are one |
| `Handshake.MixBothHashes` | extension/src/noise/noise.ts:131-136 | A pre-shared key that is mixed in also enters the hash |
| `Handshake.ShortMessageB` | extension/src/noise/noise.ts:216-240 | The errors of message B before any cryptography |
| `Handshake.OnlyTheRightSecretsMakeB` | extension/src/noise/noise.ts:216-240 | A message B that shows two public keys is taken exactly when both were mixed from the shared secrets with the ephemeral of the initiator |
| `Handshake.TakenBWasBuilt` | extension/src/noise/noise.ts:216-240 | Every message B that is taken was built that way |
| `Handshake.ImpostorFailsAtB` | extension/src/noise/noise.ts:216-240 | Whoever shows the static key of the daemon, or an ephemeral, without holding its private key is refused at message B |
| `Handshake.OnlyTheRightSecretsMakeC` | extension/src/noise/noise.ts:243-250 | A message C is taken exactly when se was mixed from the static key shown and the pre-shared key is the same |
| `Handshake.ImpostorFailsAtC` | extension/src/noise/noise.ts:243-250 | Whoever shows a client static key without its private key, or has another pre-shared key, is refused at message C |
| `Handshake.AlteredMessageAIsCaughtAtB` | extension/src/noise/noise.ts:207-240 | A message A changed on the way and taken makes message B fail |
| `Handshake.AlteredMessageBIsCaughtAtC` | extension/src/noise/noise.ts:216-250 | A message B changed on the way and taken makes message C fail |
| `Handshake.SplitTellsApart` | extension/src/noise/noise.ts:150-157 | The two directions have different keys, and other chaining keys give other transport keys |
| `Handshake.TransportKeysNameEverySecret` | extension/src/noise/noise.ts:253-256 | Two honest runs have the same transport keys exactly when all three shared secrets and the pre-shared key are the same |
| `Transport.Conn.Send` | internal/infrastructure/transport/noise/conn.go:38-50 | Counts, rekeys, then writes; an oversized ciphertext has used its nonce |
| `Transport.Conn.Recv` | internal/infrastructure/transport/noise/conn.go:54-70 | Counts and rekeys only what opened |
| `Transport.KeySchedule` | internal/infrastructure/transport/noise/conn.go:45-48 | The key after m messages changes exactly when m reaches a multiple of 4096 |
| `Transport.BrowserToDaemon` | internal/infrastructure/transport/noise/conn.go:54-70 | For message sequences of any length the daemon recovers exactly what the browser sent and both hold the same key and nonce |
| `Transport.DaemonToBrowser` | internal/infrastructure/transport/noise/conn.go:38-50 | The other direction |
| `Transport.HonestConnectionCarriesEverything` | internal/infrastructure/transport/noise/conn.go:38-70 | From the handshake on: after any honest XX or XXpsk3 run, message sequences of any length below 2^64 - 1 in both directions are recovered exactly, across every change of key |
| `Transport.ReceivedExactly` | internal/infrastructure/transport/noise/conn.go:54-70 | A frame is received exactly when it is the payload sealed for this place in the direction, within the cap |
| `Transport.KeysNeverComeBack` | internal/infrastructure/transport/noise/conn.go:45-48 | Two messages of a direction have the same key exactly when they are in the same interval of 4096 |
| `Transport.NoNonceRepeats` | extension/src/noise/noise.ts:70-107 | Below 2^64 - 1 no nonce repeats in a direction and none is the one rekeying uses |
| `Transport.OversizedSendBreaksTheChannel` | internal/infrastructure/transport/noise/conn.go:38-50 | After a send that fails for size the next message does not open, and only then |
| `Frames.EncodeFrame` | desktop/src/main/frames.ts:19-27 | Header and payload, or an error above the cap |
| `Frames.FrameDecoder.Push` | desktop/src/main/frames.ts:38-54 | Every complete frame in order, the rest kept; an oversized header throws |
| `Frames.FramesSurviveChunking` | desktop/src/main/frames.ts:34-55 | Frames within the cap, encoded and cut anywhere, come back exactly, with nothing left over |
| `Frames.ChunkingDoesNotMatter` | desktop/src/main/frames.ts:38-54 | Any cutting of any byte stream gives the frames and the rest of the whole stream, or throws for all |
| `Frames.KeptBufferIsShort` | desktop/src/main/frames.ts:42-52 | What is kept holds no complete frame and is shorter than 4 + cap |
| `Frames.WriteFrame` | internal/infrastructure/transport/noise/frames.go:31-49 | The daemon refuses empty and oversized frames and writes all others the same way |
| `Frames.ReaderAndDecoderAgree` | internal/infrastructure/transport/noise/frames.go:53-70 | The reader takes a frame exactly when the decoder has a non-empty one in front, and then the same one |
| `Frames.ReadFailsWith` | internal/infrastructure/transport/noise/frames.go:51-70 | Which error the reader gives when there is no frame to take |
| `Frames.ReadsWhatWasWritten` | internal/infrastructure/transport/noise/frames.go:31-70 | Non-empty frames written one after the other are read back in order |
| `Crx.UvarintRoundTrip` | internal/crx/crx.go:228-229 | A 64-bit number is read back from its varint in front of anything |
| `Crx.UvarintFits` | internal/crx/crx.go:237-240 | An accepted varint is below 2^64 and at most ten bytes long |
| `Crx.UvarintIsShortest` | internal/crx/crx.go:228-229 | Varints are written in their shortest form |
| `Crx.AppendBytesField` | internal/crx/crx.go:227-231 | Tag, length, value |
| `Crx.WalkFields` | internal/crx/crx.go:235-271 | The loop terminates on any bytes within bounds and reports the fields and error of the specification |
| `Crx.WalkReadsMessage` | internal/crx/crx.go:235-271 | Walking any concatenation of appended fields yields exactly those fields in order |
| `Crx.Pack` | internal/crx/crx.go:105-130 | Pack builds the signed file |
| `Crx.Verify` | internal/crx/crx.go:142-216 | Verify equals its specification, check by check |
| `Crx.VerifyProofs` | internal/crx/crx.go:183-211 | Every proof must verify; the last key matching the id is the developer key |
| `Crx.VerifyAcceptsPacked` | internal/crx/crx.go:105-216 | Verify of Pack returns the archive, key and id exactly when the header fits the limit |
| `Crx.VerifiedMeansSigned` | internal/crx/crx.go:142-216 | An accepted file carries the archive after its header, and a key that hashes to the id signed exactly that archive |
| `Crx.VerifiedExactly` | internal/crx/crx.go:142-216 | Exactly the accepted files: magic, version, header within the limit, every proof in it valid over signed header and archive, and the last proving key that hashes to the signed id |
| `Crx.WalkReadsAnyMessage` | internal/crx/crx.go:235-271 | Any well-formed message of the four wire types, in front of anything, is walked to its byte fields in order |
| `Crx.WalkStopsAt` | internal/crx/crx.go:235-271 | What stops the walk, and with which error |
| `Crx.LastCounts` | internal/crx/crx.go:150-182 | Of repeated fields the last counts |
| `Crx.SignedPayloadInjective` | internal/crx/crx.go:218-224 | The signed bytes determine header and archive |
| `Crx.Tags` | internal/crx/crx.go:25-50 | Both tags, letter by letter |
| `Crx.IdLettersInjective` | internal/crx/crx.go:57-68 | Different ids have different letters |
| `Crx.IdLettersAt` | internal/crx/crx.go:57-68 | Two letters for each byte, the high half first |
| `BackupFile.Write` | internal/backup/application/backup.go:74-84 | Header, snapshot and HMAC in order |
| `BackupFile.ParseReadsWritten` | internal/backup/application/backup.go:202-231 | Parsing what Create wrote gives the same vault, time, snapshot, body and tag |
| `BackupFile.WrappedSumsAreRefused` | internal/backup/application/backup.go:217-219 | Under the wrapping length check an accepted length is the exact one |
| `BackupFile.AcceptedIsReencodable` | internal/backup/application/backup.go:202-231 | Acceptance means header, snapshot and tag partition the input, and encoding again gives the input |
| `BackupFile.VerifyContainer` | internal/backup/application/backup.go:108-134 | Structure, then HMAC, then vault id |
| `BackupFile.AcceptsExactlyWhatWasWritten` | internal/backup/application/backup.go:108-134 | Verification accepts exactly the files Create writes under that key for that vault |
| `BackupFile.WrongVaultIsAuthentic` | internal/backup/application/backup.go:108-134 | The answer that the vault is another one is given exactly to an authentic container of another vault |
| `BackupFile.Tag` | internal/backup/application/backup.go:44-52 | Magic and version, byte by byte |
| `Semver.ParseReadsWritten` | internal/version/version.go:89-137 | A tag written with three numbers, a pre-release and build metadata parses to the numbers and the identifiers |
| `Semver.NumbersDecide` | internal/version/version.go:139-150 | Major before minor before patch, each by value; build metadata counts for nothing |
| `Semver.PreReleasesDecideLast` | internal/version/version.go:139-170 | A release is above its pre-releases, and those are ordered by their first differing identifier, or by length |
| `Semver.IdentifierOrder` | internal/version/version.go:158-170 | Numbers by value, numbers below words, words by their first difference |
| `Semver.InvalidIsLowest` | internal/version/version.go:85-106 | Invalid tags are below all valid ones, equal to each other, and never newer or older |
| `Semver.FewerNumbers` | internal/version/version.go:113-137 | Numbers left out are zero, and a fourth one is not taken |
| `Semver.SignsAreRead` | internal/version/version.go:113-170 | A sign is read, and no version has a negative number |
| `Strings.Spaces` | internal/version/version.go:64-70 | The white space that is trimmed |
| `Strings.FirstDifferenceDecides` | internal/version/version.go:158-170 | String comparison: the first differing character decides, the smaller first |
| `Semver.CompareSign` | internal/version/version.go:89-106 | Compare is reflexive and sign-antisymmetric over all strings |
| `Semver.CompareTransitiveOnTags` | internal/version/version.go:89-170 | Compare is transitive over all strings, mixed and overflowing identifiers included |
| `Semver.IsNewerIsStrict` | internal/version/version.go:82-84 | IsNewer is a strict order; valid tags neither of which is newer have equal precedence |
| `Semver.ReleaseOutranksPreRelease` | internal/version/version.go:139-154 | A release outranks its pre-releases |
| `Semver.LeadingVIsIgnored` | internal/version/version.go:64-70 | A tag and its bare version compare equal |
| `Semver.IdentTransitive` | internal/version/version.go:158-170 | Identifier precedence is transitive across numeric and alphanumeric ones |

## Left out

- Interleaving inside one request: the Go code locks per service, the model makes each request and each handshake one step.
- Argon2id, XChaCha20-Poly1305, ChaCha20-Poly1305, HKDF, X25519, SHA-256, RSA and DER: ideal functions, or parameters with named laws in `Crx` and `BackupFile`.
- SQLite itself: files, WAL, migrations, permissions; a snapshot is a copy of the database, and the installing of a restored or emptied file either works or fails as a whole.
- JSON text, URL parsing, IDNA, IP parsing and the public-suffix list: documents are data, the three lookups are functions (`Web`). Only RecordIndex.NarrowingIsExact and RecordIndex.CoveringUrlSharesDomain assume something of them, the law `Origins.SuffixLaw`: a host is under its registrable domain, and so is, with the same one, every host between the two.
- Access.DigestBindsBothKeys: is about the whole digest; the phrase shows its first 48 bits, and two phrases may agree by chance.
- Runs.OpDestroyKeeps: a destroy whose file removal, reopening or migration fails, which leaves the vault locked and the store closed, is no case of the model.
- Runs.OpRestoreKeeps: nor is a restore whose reopening or migration fails after the file was installed.
- Recovery.NoReplyAccuses: the answers of read-only queries are not modelled, only their refusal on a locked vault.
- The flynn/noise library is not part of this model; its cipher state is taken from section 5.1 of the Noise specification (rev 34).
- Handshake.HonestRunAgrees: the responder is modelled on values after the mirror in the extension's transport test, not as an object; its message slices have no length check there either.
- Detection.OnlyTheLatestStatePasses: requires an anchor row and a process that has already verified or written a counter; the code documents a missing anchor and a restarted daemon as trust on first use.
- Detection.OnlyTheLatestStatePasses: for vaults never restored only, because a restore is an authorised rollback that issues counters again; Detection.AnyRunAcceptsIssuedAnchors is the form that holds of all runs.
- Detection.UnlockOfAnEditedFile: for vaults never restored, in a process that has loaded the vault and holds a mark.
- Confinement.RevocationIsPermanent: restore-free runs only, because a restore may bring the approved row back.
- RecordIndex.Index.Match: requires the multimaps to agree with the entries, which `Runs.KeysOnlyWhileUnlocked` proves after every run; the source also skips ids without an entry, which then do not occur.
- The idle-lock timer: a lock can happen at any time in a run; `LastActivity` is proved on its own.
- The session object shared between a connection and the map: the connection keeps a copy, so its last-activity field may lag; no decision reads it there.
- List, search, show, match, generate, pending, clients, events and verify-backup requests: admitted, authorized and, where they need the keys, refused on a locked vault; their other answers are not modelled as replies (what match offers is proved in `RecordIndex` and `Browser`). A reveal by name, which `Resolve` looks up, is left out too: `RevealRecord` takes the id.
- Server.DaemonServer.HandleRequest: for those queries the reply is only a success or the refusal of a locked vault.
- The foreign key of key_envelopes, and columns the core never reads (times, algorithm names): not part of `Tables`. The CHECKs on lengths, revision, counter, root and derivation parameters are.
- The password policy (length, deny list, repeated units, sequences, entropy estimate): a function in `Config`. Vault status answers are reduced to success or failure.
- Security events: only their codes in order, best effort; the ones written when a handshake fails are left out.
- Sorting by name is an insertion sort with the contract of the library sort, which leaves the order among equal names open.
- Sockets, native messaging, Electron, timers, memory wiping, user interfaces, installers, update checks and the command line.
