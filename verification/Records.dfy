/** internal/records/application: the commands that write records and the queries that decrypt them. */
module Records {
  import opened Endian
  import opened Octets
  import opened Tables
  import opened Origins
  import opened RecordIndex
  import opened Codec
  import opened Vault
  import Catalog

  datatype Nonces = Nonces(meta: Nonce, secret: Nonce)

  // ---- Sealing and opening one row ----------------------------------------------------------------

  /** encryptRecord: both halves are sealed under the *active* key version. */
  function SealedRow(v: VaultState, id: Id, kind: string, revision: U64, meta: Metadata, secret: Secret,
      r: Nonces): (row: RecordRow)
    requires v.keyring.Some?
    ensures |row.metaNonce| == 24 && |row.secretNonce| == 24
  {
    RecordRow(v.vault.active, revision,
      r.meta, Seal(v.keyring.value.metadata, r.meta,
                   RecordAad(v.vault.id, id, revision, PAYLOAD_METADATA, v.vault.format, v.vault.active),
                       EncodeMetadata(kind, meta)),
      r.secret, Seal(v.keyring.value.secret, r.secret,
                     RecordAad(v.vault.id, id, revision, PAYLOAD_SECRET, v.vault.format, v.vault.active),
                         EncodeSecret(secret)),
      PAYLOAD_VERSION)
  }

  /** Reads bind the *row's* key version. */
  function OpenMetadata(web: Web, v: VaultState, id: Id, row: RecordRow): Option<(string, Metadata)>
    requires v.keyring.Some?
  {
    match Open(v.keyring.value.metadata, row.metaNonce,
               RecordAad(v.vault.id, id, row.revision, PAYLOAD_METADATA, v.vault.format,
                   row.keyVersion % 0x1_0000_0000), row.metaCt)
    case None => None
    case Some(plain) => DecodeMetadata(web, plain)
  }

  function OpenSecret(v: VaultState, id: Id, row: RecordRow): Option<Secret>
    requires v.keyring.Some?
  {
    match Open(v.keyring.value.secret, row.secretNonce,
               RecordAad(v.vault.id, id, row.revision, PAYLOAD_SECRET, v.vault.format,
                   row.keyVersion % 0x1_0000_0000), row.secretCt)
    case None => None
    case Some(plain) => DecodeSecret(plain)
  }

  /**
   A ciphertext opens only in its own place: under the key, nonce, vault, record, revision, column, format and version
   it was sealed for. One that was moved to another row or column, or kept from an older revision, does not.
   */
  lemma MovedCiphertextsDoNotOpen(web: Web, v: VaultState, id: Id, row: RecordRow, key: Bytes, nonce: Bytes,
      vaultId: Id, of: Id, revision: U64, column: byte, format: U32, version: U32, plain: Bytes)
    requires v.keyring.Some?
    ensures var ct := Seal(key, nonce, RecordAad(vaultId, of, revision, column, format, version), plain);
            var here := vaultId == v.vault.id && of == id && revision == row.revision && format == v.vault.format
                && version == row.keyVersion % 0x1_0000_0000;
            && (row.metaCt == ct && OpenMetadata(web, v, id, row).Some? ==>
                  here && column == 1 && key == v.keyring.value.metadata && nonce == row.metaNonce)
            && (row.secretCt == ct && OpenSecret(v, id, row).Some? ==>
                  here && column == 2 && key == v.keyring.value.secret && nonce == row.secretNonce)
  {
    hide RecordAad;
    var aad := RecordAad(vaultId, of, revision, column, format, version);
    var own: U32 := row.keyVersion % 0x1_0000_0000;
    AadBindsEverything(vaultId, of, revision, column, format, version, v.vault.id, id, row.revision, 1, v.vault.format,
        own);
    AadBindsEverything(vaultId, of, revision, column, format, version, v.vault.id, id, row.revision, 2, v.vault.format,
        own);
    OpenSeal(key, nonce, aad, v.keyring.value.metadata, row.metaNonce,
        RecordAad(v.vault.id, id, row.revision, 1, v.vault.format, own), plain);
    OpenSeal(key, nonce, aad, v.keyring.value.secret, row.secretNonce,
        RecordAad(v.vault.id, id, row.revision, 2, v.vault.format, own), plain);
  }

  // ---- Commands on values ----------------------------------------------------------------------------

  datatype RecordState = RecordState(db: Database, vault: VaultState, index: IndexView)

  /** Re-anchor inside the transaction; VaultInfo fails when no vault row is loaded. */
  function Anchored(v: VaultState, tx: Database): Option<(Database, U64)>
    requires v.keyring.Some?
  {
    if !v.loaded then None else Catalog.StampOf(tx, v.keyring.value.catalog, v.vault.id, v.vault.active)
  }

  function Create(web: Web, s: RecordState, kind: string, meta: Metadata, secret: Secret,
                  id: Id, r: Nonces, now: int, commits: bool): (RecordState, Result<Id>)
  {
    var m := meta.(createdAt := now, updatedAt := now);
    if !HasKeys(s.vault) then (s, Err(VaultLocked))
    else if !ValidRecord(id, kind, 1, m, secret) then (s, Err(Validation))
    else if !s.vault.loaded then (s, Err(VaultNotFound))
    else
      match InsertRecord(s.db, id, SealedRow(s.vault, id, kind, 1, m, secret, r))
      case None => (s, Err(Storage))
      case Some(tx) =>
        match Anchored(s.vault, tx)
        case None => (s, Err(Storage))
        case Some((next, counter)) =>
          if !commits then (s, Err(Storage))
          else (RecordState(next, Noted(s.vault, counter), PutEntry(web, s.index, Entry(id, kind, 1, m))), Ok(id))
  }

  lemma CreateSucceedsExactly(web: Web, s: RecordState, kind: string, meta: Metadata, secret: Secret,
                              id: Id, r: Nonces, now: int, commits: bool)
    ensures Create(web, s, kind, meta, secret, id, r, now, commits).1.Ok? <==>
            && HasKeys(s.vault) && s.vault.loaded && id !in s.db.records
            && ValidRecord(id, kind, 1, meta.(createdAt := now, updatedAt := now), secret)
            && s.vault.vault.active in s.db.envelopes && Catalog.NextCounter(s.db.anchor) <= MAX_INT64 && commits
    ensures var r := Create(web, s, kind, meta, secret, id, r, now, commits).1;
            && (!HasKeys(s.vault) ==> r == Err(VaultLocked))
            && (HasKeys(s.vault) && !ValidRecord(id, kind, 1, meta.(createdAt := now, updatedAt := now), secret) ==>
                  r == Err(Validation))
  {
    hide Catalog.RootOf, Catalog.CoveredBy, Catalog.StampOf, Seal, RecordAad, PutEntry, KnownKind;
    if HasKeys(s.vault) && id !in s.db.records {
      var row := SealedRow(s.vault, id, kind, 1, meta.(createdAt := now, updatedAt := now), secret, r);
      Catalog.StampFailsExactly(s.db.(records := s.db.records[id := row]), s.vault.keyring.value.catalog,
                                s.vault.vault.id, s.vault.vault.active);
    }
  }

  /** The revision is a uint64 in the request; expected + 1 wraps to the invalid revision 0. */
  function Update(web: Web, s: RecordState, id: Id, expected: U64, meta: Metadata, secret: Secret,
                  r: Nonces, now: int, commits: bool): (RecordState, Result<()>)
  {
    if !HasKeys(s.vault) then (s, Err(VaultLocked))
    else if id !in s.index.entries then (s, Err(RecordNotFound))
    else
      var entry := s.index.entries[id];
      var revision: U64 := (expected + 1) % WORD;
      var m := meta.(createdAt := entry.meta.createdAt, updatedAt := now);
      if !ValidRecord(id, entry.kind, revision, m, secret) then (s, Err(Validation))
      else if !s.vault.loaded then (s, Err(VaultNotFound))
      else
        match UpdateRecord(s.db, id, expected, SealedRow(s.vault, id, entry.kind, revision, m, secret, r))
        case None => (s, Err(Storage))
        case Some((tx, rows)) =>
          if rows == 0 then (s, if commits then Err(RevisionConflict) else Err(Storage))
          else
            match Anchored(s.vault, tx)
            case None => (s, Err(Storage))
            case Some((next, counter)) =>
              if !commits then (s, Err(Storage))
              else (RecordState(next, Noted(s.vault, counter),
                  PutEntry(web, s.index, Entry(id, entry.kind, revision, m))), Ok(()))
  }

  /**
   An update is a compare-and-swap on the revision: success means the row had the expected revision, now has the
   next one, and the anchor moved by one; any failure, a stale revision included, changes rows, index and counter
   not at all.
   */
  lemma UpdateIsCompareAndSwap(web: Web, s: RecordState, id: Id, expected: U64, meta: Metadata, secret: Secret,
                               r: Nonces, now: int, commits: bool)
    ensures var (t, result) := Update(web, s, id, expected, meta, secret, r, now, commits);
            && (result.Ok? ==>
                  && id in s.db.records && s.db.records[id].revision == expected
                  && id in t.db.records && t.db.records[id].revision == expected + 1 <= MAX_INT64
                  && t.index.entries.Keys == s.index.entries.Keys && t.index.entries[id].revision == expected + 1
                  && t.db.anchor.Some? && t.db.anchor.value.counter == Catalog.NextCounter(s.db.anchor)
                  && (forall x | x in s.db.records && x != id :: x in t.db.records
                       && t.db.records[x] == s.db.records[x]))
            && (result.Err? ==> t == s)
            && (id in s.db.records && s.db.records[id].revision != expected ==> result.Err?)
            && (result.Err? && result.error != Validation && HasKeys(s.vault) && id in s.index.entries ==>
                  (s.vault.loaded && commits && (id in s.db.records ==> s.db.records[id].revision != expected) ==>
                     result.error == RevisionConflict))
  {
    hide Catalog.RootOf, Catalog.CoveredBy, Seal, RecordAad, AppendHosts, DropHosts, Drop, ValidRecord;
  }

  /** Everything an update needs, as its caller could check it beforehand. */
  predicate UpdateGoesThrough(s: RecordState, id: Id, expected: U64, meta: Metadata, secret: Secret, now: int,
      commits: bool) {
    && HasKeys(s.vault) && s.vault.loaded && id in s.index.entries
    && id in s.db.records && s.db.records[id].revision == expected < MAX_INT64
    && ValidRecord(id, s.index.entries[id].kind, expected + 1,
                   meta.(createdAt := s.index.entries[id].meta.createdAt, updatedAt := now), secret)
    && s.vault.vault.active in s.db.envelopes && Catalog.NextCounter(s.db.anchor) <= MAX_INT64 && commits
  }

  lemma UpdateSucceedsExactly(web: Web, s: RecordState, id: Id, expected: U64, meta: Metadata, secret: Secret,
                              r: Nonces, now: int, commits: bool)
    ensures Update(web, s, id, expected, meta, secret, r, now, commits).1.Ok? <==>
            UpdateGoesThrough(s, id, expected, meta, secret, now, commits)
  {
    hide Catalog.RootOf, Catalog.CoveredBy, Catalog.StampOf, Seal, RecordAad, PutEntry, KnownKind;
    if HasKeys(s.vault) && id in s.index.entries && id in s.db.records {
      var entry := s.index.entries[id];
      var revision: U64 := (expected + 1) % WORD;
      var m := meta.(createdAt := entry.meta.createdAt, updatedAt := now);
      var written := UpdateRecord(s.db, id, expected, SealedRow(s.vault, id, entry.kind, revision, m, secret, r));
      if written.Some? {
        Catalog.StampFailsExactly(written.value.0, s.vault.keyring.value.catalog, s.vault.vault.id,
            s.vault.vault.active);
      }
    }
  }

  function Delete(web: Web, s: RecordState, id: Id, commits: bool): (RecordState, Result<()>) {
    if !HasKeys(s.vault) then (s, Err(VaultLocked))
    else
      var (tx, rows) := DeleteRecord(s.db, id);
      if rows == 0 then (s, if commits then Err(RecordNotFound) else Err(Storage))
      else
        match Anchored(s.vault, tx)
        case None => (s, Err(Storage))
        case Some((next, counter)) =>
          if !commits then (s, Err(Storage))
          else (RecordState(next, Noted(s.vault, counter), RemoveEntry(web, s.index, id)), Ok(()))
  }

  // ---- Queries on values -----------------------------------------------------------------------------

  /** The index rebuilt from these ids, or None at the first row that does not open. */
  function Rebuilt(web: Web, v: VaultState, records: map<Id, RecordRow>, ids: seq<Id>): Option<IndexView>
    requires v.keyring.Some? && forall id | id in ids :: id in records
  {
    if ids == [] then Some(NO_ENTRIES)
    else
      var id := ids[|ids| - 1];
      assert forall x | x in ids[..|ids| - 1] :: x in ids;
      match Rebuilt(web, v, records, ids[..|ids| - 1])
      case None => None
      case Some(ix) =>
        match OpenMetadata(web, v, id, records[id])
        case None => None
        case Some((kind, meta)) => Some(PutEntry(web, ix, Entry(id, kind, records[id].revision, meta)))
  }

  function LoadIndex(web: Web, s: RecordState): (RecordState, Result<()>) {
    if !HasKeys(s.vault) then (s, Err(VaultLocked))
    else if !s.vault.loaded then (s, Err(VaultNotFound))
    else
      match Rebuilt(web, s.vault, s.db.records, Catalog.InOrder(s.db.records.Keys))
      case None => (s.(index := NO_ENTRIES), Err(IntegrityFailure))
      case Some(ix) => (s.(index := ix), Ok(()))
  }

  function Reveal(s: RecordState, id: Id): Result<Secret> {
    if !HasKeys(s.vault) then Err(VaultLocked)
    else if !s.vault.loaded then Err(VaultNotFound)
    else if id !in s.db.records then Err(RecordNotFound)
    else
      match OpenSecret(s.vault, id, s.db.records[id])
      case None => Err(IntegrityFailure)
      case Some(secret) => Ok(secret)
  }

  function RevealForOrigin(web: Web, s: RecordState, id: Id, rawOrigin: string, projectId: string): Result<Secret> {
    if !HasKeys(s.vault) then Err(VaultLocked)
    else
      match web.parse(rawOrigin)
      case None => Err(Validation)
      case Some(page) =>
        if !IsSecure(page) && !web.IsLoopback(page) then Err(AuthorizationDeny)
        else if id !in s.index.entries then Err(RecordNotFound)
        else
          var m := s.index.entries[id].meta;
          if !MatchesOrigin(m, page) && !MatchesProjectId(web, m, page, projectId) then Err(AuthorizationDeny)
          else Reveal(s, id)
  }

  /** What the constrained reveal answers where it does not reveal, by the first check that fails. */
  lemma RevealRefusals(web: Web, s: RecordState, id: Id, rawOrigin: string, projectId: string)
    ensures var r := RevealForOrigin(web, s, id, rawOrigin, projectId);
            && (!HasKeys(s.vault) ==> r == Err(VaultLocked))
            && (HasKeys(s.vault) && web.parse(rawOrigin).None? ==> r == Err(Validation))
            && (HasKeys(s.vault) && web.parse(rawOrigin).Some? ==>
                  var page := web.parse(rawOrigin).value;
                  var safe := page.scheme == "https" || web.IsLoopback(page);
                  && (!safe ==> r == Err(AuthorizationDeny))
                  && (safe && id !in s.index.entries ==> r == Err(RecordNotFound)))
  {
    hide Reveal;
  }

  /** Everything offered on a page that may be filled there passes the constrained reveal's own check. */
  lemma OfferedIsRevealable(web: Web, s: RecordState, id: Id, rawOrigin: string, page: Origin, projectId: string)
    requires HasKeys(s.vault) && id in s.index.entries && web.parse(rawOrigin) == Some(page)
    requires Offer(web, s.index.entries[id].meta, page, projectId).Some?
    requires IsSecure(page) || web.IsLoopback(page)
    ensures RevealForOrigin(web, s, id, rawOrigin, projectId) == Reveal(s, id)
  {
    OfferedIsScanned(web, s.index.entries[id].meta, page, projectId);
  }

  // ---- The service object ------------------------------------------------------------------------------

  class RecordService {
    const web: Web
    const keys: VaultService

    constructor (keys: VaultService)
      ensures this.keys == keys && web == keys.index.web
    {
      this.keys := keys;
      this.web := keys.index.web;
    }

    function State(): RecordState
      reads keys, keys.store, keys.index
    {
      RecordState(keys.store.db, keys.State(), keys.index.View())
    }

    method CreateRecord(kind: string, meta: Metadata, secret: Secret, id: Id, r: Nonces, now: int, commits: bool)
      returns (result: Result<Id>)
      requires web == keys.index.web
      modifies keys`catalogHighWater, keys.store, keys.index
      ensures (State(), result) == Create(web, old(State()), kind, meta, secret, id, r, now, commits)
    {
      if !HasKeys(keys.State()) { return Err(VaultLocked); }
      var m := meta.(createdAt := now, updatedAt := now);
      if !ValidRecord(id, kind, 1, m, secret) { return Err(Validation); }
      if !keys.loaded { return Err(VaultNotFound); }
      var tx := InsertRecord(keys.store.db, id, SealedRow(keys.State(), id, kind, 1, m, secret, r));
      if tx.None? { return Err(Storage); }
      var stamped := Catalog.Stamp(tx.value, keys.keyring.value.catalog, keys.vault.id, keys.vault.active);
      if stamped.None? { return Err(Storage); }
      var landed := keys.store.Finish(Some(stamped.value.0), commits);
      if !landed { return Err(Storage); }
      keys.NoteCatalogCounter(stamped.value.1);
      keys.index.Put(Entry(id, kind, 1, m));
      return Ok(id);
    }

    method UpdateRecordById(id: Id, expected: U64, meta: Metadata, secret: Secret, r: Nonces, now: int, commits: bool)
      returns (result: Result<()>)
      requires web == keys.index.web
      modifies keys`catalogHighWater, keys.store, keys.index
      ensures (State(), result) == Update(web, old(State()), id, expected, meta, secret, r, now, commits)
    {
      if !HasKeys(keys.State()) { return Err(VaultLocked); }
      if id !in keys.index.entries { return Err(RecordNotFound); }
      var entry := keys.index.entries[id];
      var revision: U64 := (expected + 1) % WORD;
      var m := meta.(createdAt := entry.meta.createdAt, updatedAt := now);
      if !ValidRecord(id, entry.kind, revision, m, secret) { return Err(Validation); }
      if !keys.loaded { return Err(VaultNotFound); }
      var written := UpdateRecord(keys.store.db, id, expected,
          SealedRow(keys.State(), id, entry.kind, revision, m, secret, r));
      if written.None? { return Err(Storage); }
      var (tx, rows) := written.value;
      if rows == 0 {
        return if commits then Err(RevisionConflict) else Err(Storage);
      }
      var stamped := Catalog.Stamp(tx, keys.keyring.value.catalog, keys.vault.id, keys.vault.active);
      if stamped.None? { return Err(Storage); }
      var landed := keys.store.Finish(Some(stamped.value.0), commits);
      if !landed { return Err(Storage); }
      keys.NoteCatalogCounter(stamped.value.1);
      keys.index.Put(Entry(id, entry.kind, revision, m));
      return Ok(());
    }

    method DeleteRecordById(id: Id, commits: bool) returns (result: Result<()>)
      requires web == keys.index.web
      modifies keys`catalogHighWater, keys.store, keys.index
      ensures (State(), result) == Delete(web, old(State()), id, commits)
    {
      if !HasKeys(keys.State()) { return Err(VaultLocked); }
      var (tx, rows) := DeleteRecord(keys.store.db, id);
      if rows == 0 {
        return if commits then Err(RecordNotFound) else Err(Storage);
      }
      if !keys.loaded { return Err(Storage); }
      var stamped := Catalog.Stamp(tx, keys.keyring.value.catalog, keys.vault.id, keys.vault.active);
      if stamped.None? { return Err(Storage); }
      var landed := keys.store.Finish(Some(stamped.value.0), commits);
      if !landed { return Err(Storage); }
      keys.NoteCatalogCounter(stamped.value.1);
      keys.index.Remove(id);
      return Ok(());
    }

    /** Clears and refills the index; one row that does not open empties it again. */
    method LoadRecordIndex() returns (result: Result<()>)
      requires web == keys.index.web
      modifies keys.index
      ensures (State(), result) == LoadIndex(web, old(State()))
    {
      if !HasKeys(keys.State()) { return Err(VaultLocked); }
      if !keys.loaded { return Err(VaultNotFound); }
      var rows, v := keys.store.db.records, keys.State();
      var ids := Catalog.InOrder(rows.Keys);
      keys.index.Clear();
      var i := 0;
      while i < |ids|
        invariant i <= |ids|
        invariant Rebuilt(web, v, rows, ids[..i]) == Some(keys.index.View())
      {
        assert ids[i] in ids;
        var plain := OpenMetadata(web, v, ids[i], rows[ids[i]]);
        RebuildStep(web, v, rows, ids, i);
        if plain.None? {
          RebuildStops(web, v, rows, ids, i);
          keys.index.Clear();
          return Err(IntegrityFailure);
        }
        keys.index.Put(Entry(ids[i], plain.value.0, rows[ids[i]].revision, plain.value.1));
        i := i + 1;
      }
      assert ids[..|ids|] == ids;
      return Ok(());
    }
  }

  lemma RebuildStep(web: Web, v: VaultState, records: map<Id, RecordRow>, ids: seq<Id>, i: nat)
    requires v.keyring.Some? && (forall id | id in ids :: id in records) && i < |ids|
    requires Rebuilt(web, v, records, ids[..i]).Some?
    ensures Rebuilt(web, v, records, ids[..i + 1]) ==
            match OpenMetadata(web, v, ids[i], records[ids[i]])
            case None => None
            case Some((kind, meta)) =>
              Some(PutEntry(web, Rebuilt(web, v, records, ids[..i]).value,
                  Entry(ids[i], kind, records[ids[i]].revision, meta)))
  {
    assert ids[..i + 1][..i] == ids[..i];
  }

  /** One row that does not open makes every longer rebuild fail. */
  lemma {:induction false} RebuildStops(web: Web, v: VaultState, records: map<Id, RecordRow>, ids: seq<Id>, i: nat)
    requires v.keyring.Some? && (forall id | id in ids :: id in records)
    requires i < |ids| && OpenMetadata(web, v, ids[i], records[ids[i]]) == None
    ensures Rebuilt(web, v, records, ids) == None
  {
    if i < |ids| - 1 {
      RebuildStops(web, v, records, ids[..|ids| - 1], i);
    }
  }
}
