/** Every run keeps the anchor matching the rows, so the catalog check never accuses an untouched vault. */
module NoFalseAlarm {
  import opened Endian
  import opened Octets
  import opened Tables
  import opened Origins
  import opened RecordIndex
  import opened Codec
  import opened Sessions
  import opened Vault
  import opened Daemon
  import opened History
  import Access
  import Catalog
  import Records

  // ---- Writes outside the root ----------------------------------------------------------------------

  lemma RecordedKeeps(web: Web, c: Core, code: int, env: Env, truth: Truth)
    requires CoreOk(web, c, truth)
    ensures CoreOk(web, Recorded(c, code, env), truth)
  {
    hide EnvelopeFor, RowOk, EntryOk, Agrees, DeriveKeyring, Catalog.RootOf;
    if c.db.vault.Some? {
      assert Catalog.CoveredBy(Recorded(c, code, env).db, c.db.vault.value.active)
          == Catalog.CoveredBy(c.db, c.db.vault.value.active);
    }
  }

  lemma LastSeenKeeps(web: Web, c: Core, id: Id, at: int, truth: Truth)
    requires CoreOk(web, c, truth)
    ensures CoreOk(web, c.(db := UpdateClientLastSeen(c.db, id, at)), truth)
  {
    hide EnvelopeFor, RowOk, EntryOk, Agrees, DeriveKeyring, Catalog.RootOf;
    var db := UpdateClientLastSeen(c.db, id, at);
    assert Catalog.ClientsForRoot(db.clients) == Catalog.ClientsForRoot(c.db.clients);
    if c.db.vault.Some? {
      assert Catalog.CoveredBy(db, c.db.vault.value.active) == Catalog.CoveredBy(c.db, c.db.vault.value.active);
    }
  }

  // ---- Locking, loading, replacing the database ---------------------------------------------------------

  lemma LockedKeeps(web: Web, c: Core, truth: Truth)
    requires CoreOk(web, c, truth)
    ensures CoreOk(web, LockedCore(c), truth)
  {
    hide DbOk, EntryOk, DeriveKeyring;
  }

  lemma LoadKeeps(web: Web, c: Core, truth: Truth)
    requires CoreOk(web, c, truth)
    ensures LoadVault(c.vault, c.db).Ok? ==> CoreOk(web, c.(vault := LoadVault(c.vault, c.db).value), truth)
    ensures LoadVault(c.vault, c.db).Err? <==> c.db.vault.None?
    ensures LoadVault(c.vault, c.db).Err? ==> LoadVault(c.vault, c.db).error == VaultNotFound
  {
  }

  lemma ResetKeeps(web: Web, c: Core, db: Database, truth: Truth)
    requires DbOk(web, db, truth)
    ensures CoreOk(web, ResetCore(c, db), truth)
  {
  }

  // ---- Stamped writes ------------------------------------------------------------------------------------

  /** A transaction whose tables are in order comes out of the stamp in order, with the counter it noted. */
  lemma StampKeeps(web: Web, tx: Database, truth: Truth)
    requires BaseOk(tx, truth) && RecordsOk(web, tx, truth) && tx.vault.Some?
    requires tx.anchor.Some? ==> tx.anchor.value.counter <= MAX_INT64
    ensures var row := tx.vault.value;
            var r := Catalog.StampOf(tx, DeriveKeyring(truth.root).catalog, row.id, row.active);
            r.Some? ==> DbOk(web, r.value.0, truth) && r.value.0 == tx.(anchor := r.value.0.anchor)
                        && r.value.0.anchor.Some? && r.value.0.anchor.value.counter == r.value.1
                        && r.value.1 == Catalog.NextCounter(tx.anchor) && 1 <= r.value.1 <= MAX_INT64
  {
    hide BuildEnvelope, Catalog.RootOf, RowOk, EnvelopeFor;
    var row := tx.vault.value;
    var r := Catalog.StampOf(tx, DeriveKeyring(truth.root).catalog, row.id, row.active);
    if r.Some? {
      Catalog.StampVerifies(tx, DeriveKeyring(truth.root).catalog, row.id, row.active);
      assert Catalog.CoveredBy(r.value.0, row.active) == Catalog.CoveredBy(tx, row.active);
    }
  }

  /** Noting the new counter keeps the mark at the stored counter. */
  lemma MarkFollows(db: Database, v: VaultState, truth: Truth, next: Database, counter: U64)
    requires ServiceOk(db, v, truth) && AnchorOk(db, truth)
    requires next.vault == db.vault && next.anchor.Some? && next.anchor.value.counter == counter
    requires counter == Catalog.NextCounter(db.anchor) && 1 <= counter <= MAX_INT64 && db.vault.Some?
    ensures ServiceOk(next, Noted(v, counter), truth) && Noted(v, counter).highWater == counter
  {
  }

  /** The first transaction builds a vault in order. */
  lemma InitTxKeeps(web: Web, db: Database, password: string, p: Params, r: InitNoise)
    requires BaseOk(db, Truth(r.root, password, map[])) && db.vault.None?
             && BuildEnvelope(r.vaultId, 1, r.root, password, p, r.envelope).Some?
    ensures var x := InitTx(db, r, BuildEnvelope(r.vaultId, 1, r.root, password, p, r.envelope).value);
            x.Some? ==> DbOk(web, x.value.0, Truth(r.root, password, map[])) && x.value.1 == 1
                        && x.value.0.vault == Some(VaultRow(r.vaultId, FORMAT_VERSION, 1))
                        && x.value.0.records == map[] && x.value.0.anchor.Some? && x.value.0.anchor.value.counter == 1
  {
    var t := Truth(r.root, password, map[]);
    var e := BuildEnvelope(r.vaultId, 1, r.root, password, p, r.envelope).value;
    var tx := db.(vault := Some(VaultRow(r.vaultId, FORMAT_VERSION, 1)), envelopes := map[1 := e]);
    assert db.envelopes[1 := e] == map[1 := e];
    assert EnvelopeFor(r.vaultId, 1, t, e);
    StampKeeps(web, tx, t);
  }

  lemma InitKeeps(cfg: Config, c: Core, password: string, env: Env, truth: Truth)
    requires CoreOk(cfg.web, c, truth)
    ensures var (v, db, r) := Vault.Init(c.vault, c.db, password, cfg.params, env.init, env.commits);
            if r.Ok? then CoreOk(cfg.web, c.(vault := v, db := db), Truth(env.init.root, password, map[]))
            else CoreOk(cfg.web, c.(vault := v, db := db), truth) && r.error != IntegrityFailure
  {
    hide EntryOk, Agrees, RowOk, EnvelopeFor, BuildEnvelope, Catalog.RootOf, InitTx, DeriveKeyring;
    EmptyAgrees(cfg.web);
    LoadKeeps(cfg.web, c, truth);
    if c.db.vault.None? && BuildEnvelope(env.init.vaultId, 1, env.init.root, password, cfg.params,
        env.init.envelope).Some? {
      InitTxKeeps(cfg.web, c.db, password, cfg.params, env.init);
    }
  }

  lemma OpInitKeeps(cfg: Config, c: Core, password: string, env: Env, truth: Truth)
    requires CoreOk(cfg.web, c, truth)
    ensures var (d, r) := OpInit(cfg, c, password, env);
            if r.Ok? then CoreOk(cfg.web, d, Truth(env.init.root, password, map[])) && r.value == Done
            else CoreOk(cfg.web, d, truth) && r.error != IntegrityFailure
  {
    hide CoreOk, Vault.Init, Recorded;
    InitKeeps(cfg, c, password, env, truth);
    var (v, db, r) := Vault.Init(c.vault, c.db, password, cfg.params, env.init, env.commits);
    if r.Ok? {
      RecordedKeeps(cfg.web, c.(vault := v, db := db), EVENT_CREATED, env, Truth(env.init.root, password, map[]));
    }
  }

  lemma UnwrapKnows(vaultId: Id, version: U32, truth: Truth, e: EnvelopeRow, guess: string)
    requires EnvelopeFor(vaultId, version, truth, e)
    ensures Unwrap(e, vaultId, version, guess) == (if guess == truth.password then Some(truth.root) else None)
    ensures OpenEnvelope(e, vaultId, version, guess) == (if guess == truth.password then Some(truth.root) else None)
  {
    var p, r :| BuildEnvelope(vaultId, version, truth.root, truth.password, p, r) == Some(e);
    EnvelopeOpensExactly(vaultId, version, truth.root, truth.password, p, r, vaultId, version, guess);
  }

  lemma RewrapKeeps(web: Web, db: Database, v: Aggregate, next: string, p: Params, r: EnvelopeNoise, truth: Truth)
    requires DbOk(web, db, truth) && db.vault.Some? && v.id == db.vault.value.id && v.active == db.vault.value.active
    ensures var x := RewrapTx(db, v, truth.root, next, p, r);
            x.Some? ==>
              && DbOk(web, x.value.0, truth.(password := next))
              && x.value.0.vault == Some(db.vault.value.(active := NextVersion(v.active)))
              && x.value.0.anchor.Some? && x.value.0.anchor.value.counter == x.value.1
              && x.value.1 == Catalog.NextCounter(db.anchor) && 1 <= x.value.1 <= MAX_INT64
              && x.value.0.records == db.records && x.value.0.clients == db.clients
  {
    hide BuildEnvelope, RowOk, Catalog.StampOf, Catalog.CoveredBy, Catalog.RootOf, DeriveKeyring;
    var row, t, version := db.vault.value, truth.(password := next), NextVersion(v.active);
    if BuildEnvelope(row.id, version, truth.root, next, p, r).Some? {
      var e := BuildEnvelope(row.id, version, truth.root, next, p, r).value;
      if version !in db.envelopes {
        var tx := db.(vault := Some(row.(active := version)), envelopes := map[version := e]);
        assert db.envelopes[version := e] - {row.active} == map[version := e];
        assert EnvelopeFor(row.id, version, t, e);
        StampKeeps(web, tx, t);
      }
    }
  }

  lemma EmptyAgrees(web: Web)
    ensures Agrees(web, NO_ENTRIES)
  {
  }

  lemma ChangePasswordKeeps(cfg: Config, c: Core, current: string, next: string, p: Params, r: EnvelopeNoise,
      commits: bool, truth: Truth)
    requires CoreOk(cfg.web, c, truth)
    ensures var (v, db, res) := Vault.ChangePassword(c.vault, c.db, current, next, p, r, commits);
            if res.Ok? then current == truth.password
              && CoreOk(cfg.web, c.(vault := v, db := db, index := NO_ENTRIES, sessions := map[]),
                   truth.(password := next))
            else CoreOk(cfg.web, c.(vault := v, db := db), truth) && res.error != IntegrityFailure
  {
    hide BuildEnvelope, EnvelopeFor, Unwrap, RowOk, Agrees, RewrapTx, Catalog.CoveredBy, Catalog.RootOf,
         DeriveKeyring;
    EmptyAgrees(cfg.web);
    LoadKeeps(cfg.web, c, truth);
    if c.db.vault.Some? {
      var row, l := c.db.vault.value, LoadVault(c.vault, c.db).value;
      UnwrapKnows(row.id, row.active, truth, c.db.envelopes[row.active], current);
      if current == truth.password {
        RewrapKeeps(cfg.web, c.db, l.vault, next, p, r, truth);
      }
    }
  }

  lemma OpChangePasswordKeeps(cfg: Config, c: Core, current: string, next: string, env: Env, truth: Truth)
    requires CoreOk(cfg.web, c, truth)
    ensures var (d, r) := OpChangePassword(cfg, c, current, next, env);
            if r.Ok? then CoreOk(cfg.web, d, truth.(password := next)) && r.value == Done && current == truth.password
            else CoreOk(cfg.web, d, truth) && r.error != IntegrityFailure
  {
    hide CoreOk, Vault.ChangePassword, Recorded;
    ChangePasswordKeeps(cfg, c, current, next, cfg.params, env.envelope, env.commits, truth);
    var (v, db, r) := Vault.ChangePassword(c.vault, c.db, current, next, cfg.params, env.envelope, env.commits);
    if r.Ok? {
      RecordedKeeps(cfg.web, c.(vault := v, db := db, index := NO_ENTRIES, sessions := map[]), EVENT_PASSWORD_CHANGED,
          env, truth.(password := next));
    }
  }

  // ---- Records --------------------------------------------------------------------------------------------

  lemma BaseCarries(db: Database, tx: Database, truth: Truth, truth': Truth)
    requires BaseOk(db, truth) && db.vault.Some?
    requires tx.vault == db.vault && tx.envelopes == db.envelopes && truth'.root == truth.root
             && truth'.password == truth.password
    ensures BaseOk(tx, truth')
  {
    hide BuildEnvelope;
    var row := db.vault.value;
    var p, r :| BuildEnvelope(row.id, row.active, truth.root, truth.password, p, r) == Some(db.envelopes[row.active]);
    assert EnvelopeFor(row.id, row.active, truth', tx.envelopes[row.active]);
  }

  /** A stamped transaction over records and clients, with the truth and the index that go with it. */
  lemma StampedWriteKeeps(web: Web, c: Core, tx: Database, ix: IndexView, truth: Truth, truth': Truth)
    requires CoreOk(web, c, truth) && HasKeys(c.vault)
    requires tx == c.db.(records := tx.records, clients := tx.clients) && truth' == truth.(sealings := truth'.sealings)
    requires RecordsOk(web, tx, truth') && IndexOk(web, tx, c.vault, ix, truth')
    ensures var r := Records.Anchored(c.vault, tx);
            r.Some? ==> CoreOk(web, c.(db := r.value.0, vault := Noted(c.vault, r.value.1), index := ix), truth')
                        && r.value.0 == tx.(anchor := r.value.0.anchor)
  {
    hide BuildEnvelope, EnvelopeFor, RowOk, Agrees, EntryOk, DeriveKeyring, Catalog.RootOf, Catalog.CoveredBy,
         Catalog.StampOf;
    BaseCarries(c.db, tx, truth, truth');
    StampKeeps(web, tx, truth');
    var r := Records.Anchored(c.vault, tx);
    if r.Some? {
      MarkFollows(c.db, c.vault, truth, r.value.0, r.value.1);
      ServiceFor(r.value.0, Noted(c.vault, r.value.1), truth, truth');
    }
  }

  lemma ServiceFor(db: Database, v: VaultState, truth: Truth, truth': Truth)
    requires ServiceOk(db, v, truth) && truth'.root == truth.root
    ensures ServiceOk(db, v, truth')
  {
  }

  /** A row as encryptRecord builds it, whatever key version the table keeps beside it. */
  lemma SealedRowOk(web: Web, c: Core, id: Id, kind: string, revision: U64, m: Metadata, secret: Secret,
      r: Records.Nonces, kept: U64, truth: Truth)
    requires CoreOk(web, c, truth) && HasKeys(c.vault) && WellParsed(web, m.urls) && RevisionAllowed(revision)
             && kept < 0x1_0000_0000
    ensures var row := Records.SealedRow(c.vault, id, kind, revision, m, secret, r).(keyVersion := kept);
            RowOk(web, c.db.vault.value.id, id, row, truth.root, Sealing(c.vault.vault.active, kind, m, secret))
            && Records.SealedRow(c.vault, id, kind, revision, m, secret, r).keyVersion == c.vault.vault.active
  {
    hide BaseOk, AnchorOk, RecordsOk, IndexOk, Seal, RecordAad, EncodeMetadata, EncodeSecret, DeriveKeyring;
  }

  /** One row written, with its index entry, under any sealing it is in order for. */
  lemma RowWritten(web: Web, c: Core, id: Id, row: RecordRow, s: Sealing, e: Entry, truth: Truth)
    requires CoreOk(web, c, truth) && HasKeys(c.vault)
    requires RowOk(web, c.db.vault.value.id, id, row, truth.root, s)
    requires EntryOk(web, e, row, s) && e.id == id
    ensures var t := truth.(sealings := truth.sealings[id := s]);
            RecordsOk(web, c.db.(records := c.db.records[id := row]), t)
            && IndexOk(web, c.db.(records := c.db.records[id := row]), c.vault, PutEntry(web, c.index, e), t)
  {
    hide RowOk, Agrees, EntryOk, BaseOk, AnchorOk;
    PutAgrees(web, c.index, e);
  }

  lemma CreateKeeps(cfg: Config, c: Core, kind: string, meta: Metadata, secret: Secret, id: Id, r: Records.Nonces,
      now: int, commits: bool, truth: Truth)
    requires CoreOk(cfg.web, c, truth) && WellParsed(cfg.web, meta.urls)
    ensures var (s, res) := Records.Create(cfg.web, RecordStateOf(c), kind, meta, secret, id, r, now, commits);
            var m := meta.(createdAt := now, updatedAt := now);
            if res.Ok? then res.value == id && CoreOk(cfg.web, WithRecords(c, s),
                                truth.(sealings := truth.sealings[id := Sealing(c.vault.vault.active, kind, m,
                                    secret)]))
            else s == RecordStateOf(c) && res.error != IntegrityFailure
  {
    hide CoreOk, RowOk, EntryOk, PutEntry, Records.Anchored, Records.SealedRow, RecordsOk, IndexOk;
    var m := meta.(createdAt := now, updatedAt := now);
    if HasKeys(c.vault) {
      var row := Records.SealedRow(c.vault, id, kind, 1, m, secret, r);
      SealedRowOk(cfg.web, c, id, kind, 1, m, secret, r, c.vault.vault.active, truth);
      var e, s := Entry(id, kind, 1, m), Sealing(c.vault.vault.active, kind, m, secret);
      assert row.(keyVersion := c.vault.vault.active) == row;
      assert row.revision == 1 by { SealedRevision(c.vault, id, kind, 1, m, secret, r); }
      FreshEntryOk(cfg.web, e, row, s);
      RowWritten(cfg.web, c, id, row, s, e, truth);
      StampedWriteKeeps(cfg.web, c, c.db.(records := c.db.records[id := row]), PutEntry(cfg.web, c.index, e), truth,
                        truth.(sealings := truth.sealings[id := s]));
    }
  }

  lemma SealedRevision(v: VaultState, id: Id, kind: string, revision: U64, m: Metadata, secret: Secret,
      r: Records.Nonces)
    requires v.keyring.Some?
    ensures Records.SealedRow(v, id, kind, revision, m, secret, r).revision == revision
  {
  }

  lemma FreshEntryOk(web: Web, e: Entry, row: RecordRow, s: Sealing)
    requires e.kind == s.kind && e.revision == row.revision && e.meta == s.meta && WellParsed(web, s.meta.urls)
    ensures EntryOk(web, e, row, s)
  {
  }

  lemma UpdateKeeps(cfg: Config, c: Core, id: Id, expected: U64, meta: Metadata, secret: Secret, r: Records.Nonces,
      now: int, commits: bool, truth: Truth)
    requires CoreOk(cfg.web, c, truth) && WellParsed(cfg.web, meta.urls)
    ensures var (s, res) := Records.Update(cfg.web, RecordStateOf(c), id, expected, meta, secret, r, now, commits);
            if res.Ok? then
              id in c.index.entries && id in c.db.records && id in s.db.records
                  && s.db.records[id].keyVersion == c.db.records[id].keyVersion
              && s.db.records[id].revision == c.db.records[id].revision + 1 && c.db.records[id].revision == expected
              && s.db.records.Keys == c.db.records.Keys
              && (forall x | x in c.db.records && x != id :: s.db.records[x] == c.db.records[x])
              && (var e := c.index.entries[id];
                  var m := meta.(createdAt := e.meta.createdAt, updatedAt := now);
                  CoreOk(cfg.web, WithRecords(c, s),
                         truth.(sealings := truth.sealings[id := Sealing(c.vault.vault.active, e.kind, m, secret)])))
            else s == RecordStateOf(c) && res.error != IntegrityFailure
  {
    hide CoreOk, RowOk, EntryOk, PutEntry, Records.Anchored, Records.SealedRow, RecordsOk, IndexOk;
    if HasKeys(c.vault) && id in c.index.entries {
      var e := c.index.entries[id];
      var m := meta.(createdAt := e.meta.createdAt, updatedAt := now);
      var revision: U64 := (expected + 1) % WORD;
      var next := Records.SealedRow(c.vault, id, e.kind, revision, m, secret, r);
      SealedRevision(c.vault, id, e.kind, revision, m, secret, r);
      if id !in c.db.records || c.db.records[id].revision != expected || !RevisionAllowed(revision) { return; }
      var kept := c.db.records[id].keyVersion;
      KeptVersion(cfg.web, c, id, truth);
      SealedRowOk(cfg.web, c, id, e.kind, revision, m, secret, r, kept, truth);
      var row, s := Rewritten(c.db.records[id], next), Sealing(c.vault.vault.active, e.kind, m, secret);
      FreshEntryOk(cfg.web, Entry(id, e.kind, revision, m), row, s);
      RowWritten(cfg.web, c, id, row, s, Entry(id, e.kind, revision, m), truth);
      StampedWriteKeeps(cfg.web, c, c.db.(records := c.db.records[id := row]),
          PutEntry(cfg.web, c.index, Entry(id, e.kind, revision, m)), truth,
                        truth.(sealings := truth.sealings[id := s]));
    }
  }

  lemma KeptVersion(web: Web, c: Core, id: Id, truth: Truth)
    requires CoreOk(web, c, truth) && c.vault.vault.unlocked && id in c.db.records
    ensures c.db.records[id].keyVersion < 0x1_0000_0000 && 1 <= c.db.records[id].revision <= MAX_INT64
  {
    hide BaseOk, AnchorOk, IndexOk, Seal;
    assert RowOk(web, c.db.vault.value.id, id, c.db.records[id], truth.root, truth.sealings[id]);
  }

  lemma RowDeleted(web: Web, c: Core, id: Id, truth: Truth)
    requires CoreOk(web, c, truth) && HasKeys(c.vault)
    ensures var t := truth.(sealings := truth.sealings - {id});
            RecordsOk(web, c.db.(records := c.db.records - {id}), t)
            && IndexOk(web, c.db.(records := c.db.records - {id}), c.vault, RemoveEntry(web, c.index, id), t)
  {
    hide RowOk, Agrees, EntryOk, BaseOk, AnchorOk;
    RemoveAgrees(web, c.index, id);
  }

  lemma DeleteKeeps(cfg: Config, c: Core, id: Id, commits: bool, truth: Truth)
    requires CoreOk(cfg.web, c, truth)
    ensures var (s, res) := Records.Delete(cfg.web, RecordStateOf(c), id, commits);
            if res.Ok? then CoreOk(cfg.web, WithRecords(c, s), truth.(sealings := truth.sealings - {id}))
                            && s.db.records == c.db.records - {id}
            else s == RecordStateOf(c) && res.error != IntegrityFailure
  {
    hide CoreOk, RemoveEntry, Records.Anchored, RecordsOk, IndexOk;
    if HasKeys(c.vault) {
      RowDeleted(cfg.web, c, id, truth);
      StampedWriteKeeps(cfg.web, c, c.db.(records := c.db.records - {id}), RemoveEntry(cfg.web, c.index, id), truth,
                        truth.(sealings := truth.sealings - {id}));
    }
  }

  // ---- Clients ---------------------------------------------------------------------------------------------

  lemma ClientsWritten(web: Web, c: Core, clients: map<Id, ClientRow>, truth: Truth)
    requires CoreOk(web, c, truth) && HasKeys(c.vault)
    ensures var tx := c.db.(clients := clients);
            var r := Records.Anchored(c.vault, tx);
            r.Some? ==>
              && CoreOk(web, c.(db := r.value.0, vault := Noted(c.vault, r.value.1)), truth)
              && r.value.0.clients == clients
  {
    hide RowOk, Agrees, EntryOk, BaseOk, AnchorOk, Records.Anchored;
    var tx := c.db.(clients := clients);
    assert RecordsOk(web, tx, truth) && IndexOk(web, tx, c.vault, c.index, truth);
    assert truth == truth.(sealings := truth.sealings);
    StampedWriteKeeps(web, c, tx, c.index, truth, truth);
  }

  lemma OpApproveKeeps(cfg: Config, c: Core, id: Id, env: Env, truth: Truth)
    requires CoreOk(cfg.web, c, truth)
    ensures var (d, r) := OpApprove(c, id, env);
            CoreOk(cfg.web, d, truth) && r != Err(IntegrityFailure) && (r.Ok? ==> r.value == Done)
  {
    hide CoreOk, Recorded, Access.ClientFor, Catalog.StampOf;
    var (s, r) := Access.Approve(AccessStateOf(c), id, env.approval, env.now, env.commits);
    if r.Ok? {
      var row := Access.ClientFor(c.vault, c.pending[id], env.approval, env.now);
      ClientsWritten(cfg.web, c, c.db.clients[env.approval.clientId := row], truth);
      var d := c.(db := s.db, vault := s.vault);
      assert CoreOk(cfg.web, d, truth);
      PendingFree(cfg.web, d, d.sessions, s.pending, truth);
      RecordedKeeps(cfg.web, WithAccess(c, s), EVENT_APPROVED, env, truth);
    }
  }

  lemma OpRevokeKeeps(cfg: Config, c: Core, id: Id, env: Env, truth: Truth)
    requires CoreOk(cfg.web, c, truth)
    ensures var (d, r) := OpRevoke(c, id, env);
            CoreOk(cfg.web, d, truth) && r != Err(IntegrityFailure) && (r.Ok? ==> r.value == Done)
  {
    hide CoreOk, Recorded, Catalog.StampOf;
    var (s, r) := Access.Revoke(AccessStateOf(c), id, env.commits);
    if r.Ok? {
      ClientsWritten(cfg.web, c, UpdateClientStatus(c.db, id, STATUS_REVOKED).0.clients, truth);
      var d := c.(db := s.db, vault := s.vault);
      assert CoreOk(cfg.web, d, truth);
      PendingFree(cfg.web, d, WithoutClient(c.sessions, id), c.pending, truth);
      RecordedKeeps(cfg.web, WithAccess(c, s).(sessions := WithoutClient(c.sessions, id)), EVENT_REVOKED, env, truth);
    }
  }

  /** Sessions and pending pairings play no part in the catalog. */
  lemma PendingFree(web: Web, c: Core, sessions: SessionMap, pending: Access.PendingMap, truth: Truth)
    requires CoreOk(web, c, truth)
    ensures CoreOk(web, c.(sessions := sessions, pending := pending), truth)
  {
    hide DbOk, ServiceOk, IndexOk;
  }

  // ---- Unlock ------------------------------------------------------------------------------------------------

  /** The row carries another key version than the one its ciphertexts are bound to. */
  predicate Stale(db: Database, truth: Truth, id: Id)
    requires id in db.records && id in truth.sealings
  {
    truth.sealings[id].version != db.records[id].keyVersion
  }

  predicate Holds(v: VaultState, vaultId: Id, root: Key) {
    v.keyring == Some(DeriveKeyring(root)) && v.vault.id == vaultId && v.vault.format == FORMAT_VERSION
  }

  lemma StoredTwice(m: Metadata)
    ensures Stored(Stored(m)) == Stored(m)
  {
    TruncatedTwice(m.createdAt);
    TruncatedTwice(m.updatedAt);
  }

  lemma TruncatedTwice(t: int)
    ensures t / MILLI * MILLI / MILLI * MILLI == t / MILLI * MILLI
  {
    assert t / MILLI * MILLI / MILLI == t / MILLI;
  }

  /** A row opens exactly when it is not stale, and then gives back what was committed. */
  lemma MetadataKnown(web: Web, v: VaultState, vaultId: Id, id: Id, row: RecordRow, root: Key, s: Sealing)
    requires RowOk(web, vaultId, id, row, root, s) && Holds(v, vaultId, root)
    ensures Records.OpenMetadata(web, v, id, row) ==
            if s.version == row.keyVersion then Some((s.kind, Stored(s.meta))) else None
  {
    hide Seal, Open, RecordAad, EncodeMetadata, DecodeMetadata, DeriveKeyring;
    var key := DeriveKeyring(root).metadata;
    var ad := RecordAad(vaultId, id, row.revision, PAYLOAD_METADATA, FORMAT_VERSION, s.version);
    var read := RecordAad(vaultId, id, row.revision, PAYLOAD_METADATA, FORMAT_VERSION, row.keyVersion);
    OpenSeal(key, row.metaNonce, ad, key, row.metaNonce, read, EncodeMetadata(s.kind, s.meta));
    AadBindsEverything(vaultId, id, row.revision, PAYLOAD_METADATA, FORMAT_VERSION, s.version,
                       vaultId, id, row.revision, PAYLOAD_METADATA, FORMAT_VERSION, row.keyVersion);
    MetadataRoundTrip(web, s.kind, s.meta);
  }

  lemma SecretKnown(web: Web, v: VaultState, vaultId: Id, id: Id, row: RecordRow, root: Key, s: Sealing)
    requires RowOk(web, vaultId, id, row, root, s) && Holds(v, vaultId, root)
    ensures Records.OpenSecret(v, id, row) == if s.version == row.keyVersion then Some(s.secret) else None
  {
    hide Seal, Open, RecordAad, DeriveKeyring;
    var key := DeriveKeyring(root).secret;
    var ad := RecordAad(vaultId, id, row.revision, PAYLOAD_SECRET, FORMAT_VERSION, s.version);
    var read := RecordAad(vaultId, id, row.revision, PAYLOAD_SECRET, FORMAT_VERSION, row.keyVersion);
    OpenSeal(key, row.secretNonce, ad, key, row.secretNonce, read, EncodeSecret(s.secret));
    AadBindsEverything(vaultId, id, row.revision, PAYLOAD_SECRET, FORMAT_VERSION, s.version,
                       vaultId, id, row.revision, PAYLOAD_SECRET, FORMAT_VERSION, row.keyVersion);
  }

  predicate RebuiltRight(ix: IndexView, db: Database, truth: Truth, ids: seq<Id>)
    requires forall id | id in ids :: id in db.records && id in truth.sealings
  {
    && (forall id | id in ix.entries :: id in ids)
    && (forall id | id in ids :: id in ix.entries && ix.entries[id] ==
         Entry(id, truth.sealings[id].kind, db.records[id].revision, Stored(truth.sealings[id].meta)))
  }

  /** Rebuilding succeeds exactly when no listed row is stale, and then rebuilds what was committed. */
  lemma {:induction false} RebuiltKnown(web: Web, v: VaultState, db: Database, truth: Truth, ids: seq<Id>)
    requires db.vault.Some? && RecordsOk(web, db, truth) && Holds(v, db.vault.value.id, truth.root)
    requires forall id | id in ids :: id in db.records
    ensures forall id | id in ids :: id in truth.sealings
    ensures var r := Records.Rebuilt(web, v, db.records, ids);
            if exists id | id in ids :: Stale(db, truth, id) then r == None
            else r.Some? && Agrees(web, r.value) && RebuiltRight(r.value, db, truth, ids)
  {
    hide RowOk, Agrees, Stored, PutEntry, Records.OpenMetadata, DeriveKeyring, NoEmptyKey;
    if ids == [] {
      EmptyAgrees(web);
    } else {
      var init, id := ids[..|ids| - 1], ids[|ids| - 1];
      assert ids == init + [id];
      RebuiltKnown(web, v, db, truth, init);
      MetadataKnown(web, v, db.vault.value.id, id, db.records[id], truth.root, truth.sealings[id]);
      var r := Records.Rebuilt(web, v, db.records, init);
      if r.Some? && !Stale(db, truth, id) {
        var e := Entry(id, truth.sealings[id].kind, db.records[id].revision, Stored(truth.sealings[id].meta));
        PutAgrees(web, r.value, e);
        PutEntries(web, r.value, e);
      }
    }
  }

  lemma PutEntries(web: Web, v: IndexView, e: Entry)
    ensures PutEntry(web, v, e).entries == v.entries[e.id := e]
  {
  }

  lemma RebuiltEntryOk(web: Web, vaultId: Id, id: Id, row: RecordRow, root: Key, s: Sealing)
    requires RowOk(web, vaultId, id, row, root, s)
    ensures EntryOk(web, Entry(id, s.kind, row.revision, Stored(s.meta)), row, s)
  {
    hide Stored, Seal, RecordAad, EncodeMetadata, EncodeSecret, DeriveKeyring;
    StoredTwice(s.meta);
    StoredUrls(s.meta);
  }

  lemma RebuiltIndexOk(web: Web, db: Database, v: VaultState, ix: IndexView, truth: Truth)
    requires db.vault.Some? && RecordsOk(web, db, truth) && v.vault.unlocked && Agrees(web, ix)
    requires RebuiltRight(ix, db, truth, Catalog.InOrder(db.records.Keys))
    ensures IndexOk(web, db, v, ix, truth)
  {
    hide Agrees, Stored, Catalog.InOrder, RowOk, EntryOk;
    var ids := Catalog.InOrder(db.records.Keys);
    assert forall id :: id in ids <==> id in db.records;
    forall id | id in db.records ensures EntryOk(web, ix.entries[id], db.records[id], truth.sealings[id]) {
      RebuiltEntryOk(web, db.vault.value.id, id, db.records[id], truth.root, truth.sealings[id]);
    }
  }

  lemma StoredUrls(m: Metadata)
    ensures Stored(m).urls == m.urls
  {
  }

  /** LoadIndex on a vault in order: it fails exactly on a stale row; otherwise the index agrees with the rows. */
  lemma LoadIndexKnown(web: Web, c: Core, truth: Truth)
    requires DbOk(web, c.db, truth) && ServiceOk(c.db, c.vault, truth) && HasKeys(c.vault)
    ensures forall id | id in c.db.records :: id in truth.sealings
    ensures var (s, r) := Records.LoadIndex(web, RecordStateOf(c));
            if exists id | id in c.db.records :: Stale(c.db, truth, id)
            then r == Err(IntegrityFailure) && s == RecordStateOf(c).(index := NO_ENTRIES)
            else r == Ok(()) && s == RecordStateOf(c).(index := s.index) && IndexOk(web, c.db, c.vault, s.index, truth)
  {
    hide BaseOk, AnchorOk, RowOk, Agrees, RebuiltRight, Catalog.InOrder, DeriveKeyring, IndexOk;
    var ids := Catalog.InOrder(c.db.records.Keys);
    assert forall id :: id in ids <==> id in c.db.records;
    RebuiltKnown(web, c.vault, c.db, truth, ids);
    if !exists id | id in c.db.records :: Stale(c.db, truth, id) {
      RebuiltIndexOk(web, c.db, c.vault, Records.Rebuilt(web, c.vault, c.db.records, ids).value, truth);
    }
  }

  /** The catalog check on a vault in order: never an accusation. */
  lemma VerifyAcquits(web: Web, c: Core, truth: Truth, commits: bool)
    requires CoreOk(web, c, truth)
    ensures var (v, db, r) := Vault.VerifyCatalog(c.vault, c.db, commits);
            && CoreOk(web, c.(vault := v, db := db), truth) && db == c.db.(anchor := db.anchor)
            && r == if !HasKeys(c.vault) then Err(VaultLocked)
                    else if c.db.anchor.Some? then Ok(false)
                    else if commits then Ok(true) else Err(Storage)
  {
    hide EnvelopeFor, RowOk, Agrees, EntryOk, DeriveKeyring, Catalog.RootOf, Catalog.CoveredBy, Catalog.StampOf;
    if HasKeys(c.vault) && c.db.anchor.None? {
      var row := c.db.vault.value;
      StampKeeps(web, c.db, truth);
      Catalog.StampFailsExactly(c.db, DeriveKeyring(truth.root).catalog, row.id, row.active);
      var r := Catalog.StampOf(c.db, DeriveKeyring(truth.root).catalog, row.id, row.active);
      if commits {
        MarkFollows(c.db, c.vault, truth, r.value.0, r.value.1);
      }
    }
  }

  /** The key service's part of unlocking: the right password, and nothing else, yields the keys. */
  lemma UnlockKnown(web: Web, c: Core, password: string, now: int, after: int, truth: Truth)
    requires CoreOk(web, c, truth)
    ensures var (v, r) := Vault.Unlock(c.vault, c.db, password, now, after);
            if Throttled(c.vault, now) then v == c.vault && r == Err(RateLimited)
            else if c.db.vault.None? then v == c.vault && r == Err(VaultNotFound)
            else if password != truth.password then
              && v == Failed(LoadVault(c.vault, c.db).value, after) && r == Err(AuthenticationFail)
              && CoreOk(web, c.(vault := v), truth)
            else
              && v == Opened(LoadVault(c.vault, c.db).value, truth.root) && r == Ok(())
              && ServiceOk(c.db, v, truth) && HasKeys(v)
  {
    hide EnvelopeFor, OpenEnvelope, RowOk, Agrees, EntryOk, DeriveKeyring, AnchorOk, RecordsOk, Delay;
    if c.db.vault.Some? {
      var row := c.db.vault.value;
      UnwrapKnows(row.id, row.active, truth, c.db.envelopes[row.active], password);
    }
  }

  lemma LockedFrom(web: Web, c: Core, truth: Truth)
    requires DbOk(web, c.db, truth) && ServiceOk(c.db, c.vault, truth)
    ensures CoreOk(web, LockedCore(c), truth)
  {
    hide DbOk, EntryOk, DeriveKeyring;
  }

  lemma InOrder(web: Web, c: Core, truth: Truth)
    requires DbOk(web, c.db, truth) && ServiceOk(c.db, c.vault, truth) && IndexOk(web, c.db, c.vault, c.index, truth)
    ensures CoreOk(web, c, truth)
  {
  }

  predicate AnyStale(db: Database, truth: Truth) {
    exists id | id in db.records :: id in truth.sealings && Stale(db, truth, id)
  }

  /** What unlocking answers, and why, on a vault in order. */
  function UnlockAnswer(c: Core, password: string, env: Env, truth: Truth): Result<Reply> {
    if Throttled(c.vault, env.now) then Err(RateLimited)
    else if c.db.vault.None? then Err(VaultNotFound)
    else if password != truth.password then Err(AuthenticationFail)
    else if AnyStale(c.db, truth) then Err(IntegrityFailure)
    else if c.db.anchor.None? && !env.commits then Err(Storage)
    else Ok(Done)
  }

  /** After the keys are there: load the index, check the catalog, or lock again. */
  lemma OpUnlockKeeps(cfg: Config, c: Core, conn: Conn, password: string, env: Env, truth: Truth)
    requires CoreOk(cfg.web, c, truth)
    ensures var (d, next, r) := OpUnlock(cfg, c, conn, password, env);
            CoreOk(cfg.web, d, truth) && r == UnlockAnswer(c, password, env, truth)
            && (r.Ok? ==> HasKeys(d.vault)) && d.db.records == c.db.records
  {
    hide CoreOk, DbOk, ServiceOk, IndexOk, Records.LoadIndex, Vault.Unlock, Vault.VerifyCatalog, Stale;
    UnlockKnown(cfg.web, c, password, env.now, env.after, truth);
    var (v, r) := Vault.Unlock(c.vault, c.db, password, env.now, env.after);
    if r.Err? {
      assert c.(vault := c.vault) == c;
      RecordedKeeps(cfg.web, c.(vault := v), EVENT_UNLOCK_FAILED, env, truth);
    } else {
      UnlockedTail(cfg, c, c.(vault := v), conn, env, truth);
    }
  }

  lemma UnlockedTail(cfg: Config, c: Core, u: Core, conn: Conn, env: Env, truth: Truth)
    requires CoreOk(cfg.web, c, truth) && u == c.(vault := u.vault) && ServiceOk(c.db, u.vault, truth)
             && HasKeys(u.vault)
    ensures var (s, loaded) := Records.LoadIndex(cfg.web, RecordStateOf(u));
            var d := u.(index := s.index);
            if loaded.Err? then loaded.error == IntegrityFailure && AnyStale(c.db, truth) && s.vault == u.vault
                && s.db == u.db
              && CoreOk(cfg.web, Recorded(LockedCore(d), EVENT_INTEGRITY_FAILURE, env), truth)
            else
              !AnyStale(c.db, truth) && CoreOk(cfg.web, d, truth) &&
              var (w, db, verified) := Vault.VerifyCatalog(u.vault, c.db, env.commits);
              var e := d.(vault := w, db := db);
              && db.records == c.db.records && HasKeys(w)
              && verified == (if c.db.anchor.Some? then Ok(false) else if env.commits then Ok(true) else Err(Storage))
              && (verified.Err? ==> CoreOk(cfg.web, Recorded(LockedCore(e), EVENT_INTEGRITY_FAILURE, env), truth))
              && (verified.Ok? ==> var f := if verified.value then Recorded(e, EVENT_BOOTSTRAPPED, env) else e;
                                   CoreOk(cfg.web, Recorded(Reissued(f, conn, env).0, EVENT_UNLOCKED, env), truth))
  {
    hide DbOk, ServiceOk, IndexOk, Records.LoadIndex, Vault.VerifyCatalog, LockedCore, Stale;
    LoadIndexKnown(cfg.web, u, truth);
    var (s, loaded) := Records.LoadIndex(cfg.web, RecordStateOf(u));
    var d := u.(index := s.index);
    if loaded.Err? {
      LockedFrom(cfg.web, d, truth);
      RecordedKeeps(cfg.web, LockedCore(d), EVENT_INTEGRITY_FAILURE, env, truth);
    } else {
      InOrder(cfg.web, d, truth);
      VerifyAcquits(cfg.web, d, truth, env.commits);
      VerifyKeepsKeys(u.vault, c.db, env.commits);
      var (w, db, verified) := Vault.VerifyCatalog(u.vault, c.db, env.commits);
      var e := d.(vault := w, db := db);
      if verified.Err? {
        LockedFrom(cfg.web, e, truth);
        RecordedKeeps(cfg.web, LockedCore(e), EVENT_INTEGRITY_FAILURE, env, truth);
      } else {
        RecordedKeeps(cfg.web, e, EVENT_BOOTSTRAPPED, env, truth);
        var f := if verified.value then Recorded(e, EVENT_BOOTSTRAPPED, env) else e;
        var g := Reissued(f, conn, env).0;
        PendingFree(cfg.web, f, g.sessions, f.pending, truth);
        RecordedKeeps(cfg.web, g, EVENT_UNLOCKED, env, truth);
      }
    }
  }

  lemma VerifyKeepsKeys(v: VaultState, db: Database, commits: bool)
    ensures var (w, _, _) := Vault.VerifyCatalog(v, db, commits);
            w == v.(highWater := w.highWater)
  {
    hide Catalog.VerdictOn, Catalog.StampOf;
  }
}
