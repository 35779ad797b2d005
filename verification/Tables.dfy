/** The vault database: rows as maps, and the write statements of gen/command/commands.sql.go. */
module Tables {
  import opened Endian
  import opened Octets

  datatype Error =
    | VaultLocked | VaultNotFound | VaultExists | AuthenticationFail | RateLimited
    | RecordNotFound | RevisionConflict | AuthorizationDeny | IntegrityFailure | Validation
    | ClientNotFound | Conflict | Storage | BadContainer | WrongVault

  datatype Result<+T> = Ok(value: T) | Err(error: Error)

  /** 16-byte identifiers, read as big-endian numbers; ORDER BY on them is numeric order. */
  type Id = x: nat | x < 0x1_0000_0000_0000_0000_0000_0000_0000_0000

  /** 64-bit columns and casts, as their unsigned images: an int64 below zero is 2^63 or more. */
  type U64 = x: nat | x < WORD
  type U32 = x: nat | x < 0x1_0000_0000

  /** A byte slice; len() is an int, so it fits the 64-bit length prefix. */
  type Blob = b: Bytes | |b| <= MAX_INT64

  /** What the random source is asked for: 32-byte keys and credentials, 24-byte nonces, 16-byte salts. */
  type Key = b: Bytes | |b| == 32 witness seq(32, i => Raw(0))
  type Nonce = b: Bytes | |b| == 24 witness seq(24, i => Raw(0))
  type Salt = b: Bytes | |b| == 16 witness seq(16, i => Raw(0))

  datatype VaultRow = VaultRow(id: Id, format: U32, active: U32)

  datatype EnvelopeRow = EnvelopeRow(
    salt: Blob, memory: U64, iterations: U64, parallelism: U64,
    wrapNonce: Blob, wrapped: Blob, canaryNonce: Blob, canary: Blob)

  datatype RecordRow = RecordRow(
    keyVersion: U64, revision: U64, metaNonce: Blob, metaCt: Blob, secretNonce: Blob, secretCt: Blob,
    payloadVersion: U64)

  datatype ClientRow = ClientRow(
    kind: int, status: U64, mask: U64, credential: Blob, staticKey: Blob, labelNonce: Blob, labelCt: Blob,
    createdAtMs: int, lastSeenMs: Option<int>)

  datatype Anchor = Anchor(counter: U64, root: Bytes)

  datatype Database = Database(
    vault: Option<VaultRow>, envelopes: map<U32, EnvelopeRow>, records: map<Id, RecordRow>,
    clients: map<Id, ClientRow>, anchor: Option<Anchor>, events: seq<int>)

  const EMPTY := Database(None, map[], map[], map[], None, [])

  /** CHECK(revision >= 1) on the signed column. */
  predicate RevisionAllowed(revision: U64) { 1 <= revision <= MAX_INT64 }

  /** The CHECKs of the record, client and envelope tables. */
  predicate RecordAllowed(row: RecordRow) {
    RevisionAllowed(row.revision) && |row.metaNonce| == 24 && |row.secretNonce| == 24
  }

  predicate ClientAllowed(row: ClientRow) {
    |row.credential| == 32 && |row.staticKey| == 32 && |row.labelNonce| == 24
  }

  predicate EnvelopeAllowed(row: EnvelopeRow) {
    && |row.salt| >= 16 && |row.wrapNonce| == 24 && |row.canaryNonce| == 24
    && 0x1_0000 <= row.memory <= MAX_INT64 && 3 <= row.iterations <= MAX_INT64 && 1 <= row.parallelism <= MAX_INT64
  }

  /** A statement fails (None) when a constraint of the schema refuses the row. */
  function InsertRecord(db: Database, id: Id, row: RecordRow): Option<Database> {
    if id in db.records || !RecordAllowed(row) then None
    else Some(db.(records := db.records[id := row]))
  }

  /** UPDATE records SET revision, both ciphertexts with nonces, payload_version: key_version is not written. */
  function Rewritten(row: RecordRow, next: RecordRow): RecordRow {
    next.(keyVersion := row.keyVersion)
  }

  function UpdateRecord(db: Database, id: Id, expected: U64, next: RecordRow): Option<(Database, nat)> {
    if id !in db.records || db.records[id].revision != expected then Some((db, 0))
    else if !RecordAllowed(next) then None
    else Some((db.(records := db.records[id := Rewritten(db.records[id], next)]), 1))
  }

  function DeleteRecord(db: Database, id: Id): (Database, nat) {
    if id in db.records then (db.(records := db.records - {id}), 1) else (db, 0)
  }

  function InsertClient(db: Database, id: Id, row: ClientRow): Option<Database> {
    if id in db.clients || !ClientAllowed(row) then None
    else Some(db.(clients := db.clients[id := row]))
  }

  function UpdateClientStatus(db: Database, id: Id, status: U64): (Database, nat) {
    if id in db.clients then (db.(clients := db.clients[id := db.clients[id].(status := status)]), 1)
    else (db, 0)
  }

  function UpdateClientLastSeen(db: Database, id: Id, at: int): Database {
    if id in db.clients then db.(clients := db.clients[id := db.clients[id].(lastSeenMs := Some(at))])
    else db
  }

  function InsertSecurityEvent(db: Database, code: int): Database {
    db.(events := db.events + [code])
  }

  function InsertVault(db: Database, row: VaultRow): Option<Database> {
    if db.vault.Some? then None else Some(db.(vault := Some(row)))
  }

  function InsertKeyEnvelope(db: Database, version: U32, row: EnvelopeRow): Option<Database> {
    if version in db.envelopes || !EnvelopeAllowed(row) then None
    else Some(db.(envelopes := db.envelopes[version := row]))
  }

  function SetActiveEnvelope(db: Database, version: U32): Database {
    if db.vault.None? then db else db.(vault := Some(db.vault.value.(active := version)))
  }

  function DeleteKeyEnvelope(db: Database, version: U32): Database {
    db.(envelopes := db.envelopes - {version})
  }

  /** CHECK(state_counter >= 0) on the signed column, and CHECK(length(state_root) = 32). */
  function UpsertVaultState(db: Database, anchor: Anchor): Option<Database> {
    if anchor.counter > MAX_INT64 || |anchor.root| != 32 then None else Some(db.(anchor := Some(anchor)))
  }

  /** Which rows the schema takes, and what an update leaves alone. */
  lemma SchemaRefuses(db: Database, id: Id, record: RecordRow, client: ClientRow, version: U32, e: EnvelopeRow,
      anchor: Anchor, at: int)
    ensures InsertRecord(db, id, record).Some? <==>
            && id !in db.records && 1 <= record.revision < 0x8000_0000_0000_0000
            && |record.metaNonce| == 24 && |record.secretNonce| == 24
    ensures InsertClient(db, id, client).Some? <==>
            id !in db.clients && |client.credential| == 32 && |client.staticKey| == 32 && |client.labelNonce| == 24
    ensures InsertKeyEnvelope(db, version, e).Some? <==>
            && version !in db.envelopes && |e.salt| >= 16 && |e.wrapNonce| == 24 && |e.canaryNonce| == 24
            && 65536 <= e.memory < 0x8000_0000_0000_0000 && 3 <= e.iterations < 0x8000_0000_0000_0000
            && 1 <= e.parallelism < 0x8000_0000_0000_0000
    ensures UpsertVaultState(db, anchor).Some? <==> anchor.counter < 0x8000_0000_0000_0000 && |anchor.root| == 32
    ensures id in db.clients ==>
      UpdateClientLastSeen(db, id, at) == db.(clients := db.clients[id := db.clients[id].(lastSeenMs := Some(at))])
  {
  }

  /** The open handle: a transaction works on its own copy, which replaces `db` only on commit. */
  class Store {
    var db: Database

    constructor (db: Database)
      ensures this.db == db
    {
      this.db := db;
    }

    /** WithTx after its body: commit the copy, or roll back when the body or the commit failed. */
    method Finish(tx: Option<Database>, commits: bool) returns (ok: bool)
      modifies this
      ensures ok == (tx.Some? && commits)
      ensures db == if ok then tx.value else old(db)
    {
      ok := tx.Some? && commits;
      if ok {
        db := tx.value;
      }
    }
  }
}
