/** What the write requests leave behind, in terms of what was submitted. */
module Requests {
  import opened Endian
  import opened Octets
  import opened Tables
  import opened Strings
  import opened Origins
  import opened RecordIndex
  import opened Codec
  import opened Sessions
  import opened Vault
  import opened Daemon
  import opened History
  import opened NoFalseAlarm
  import opened Runs
  import opened Recovery
  import Access
  import Catalog
  import Records

  /** The index entry and the sealing of one record both say this. */
  ghost predicate Says(cfg: Config, w: World, id: Id, f: Fields, kind: string, revision: U64) {
    && id in w.core.index.entries && id in w.core.db.records && id in w.truth.sealings
    && w.core.index.entries[id].id == id && w.core.index.entries[id].kind == kind
    && w.core.index.entries[id].revision == revision && w.core.db.records[id].revision == revision
    && Submitted(cfg.web, w.core.index.entries[id].meta, f)
    && w.truth.sealings[id].kind == kind && Submitted(cfg.web, w.truth.sealings[id].meta, f)
    && w.truth.sealings[id].secret == f.secret
  }

  lemma SameFieldsSubmitted(web: Web, m: Metadata, n: Metadata, f: Fields)
    requires n == m.(createdAt := n.createdAt, updatedAt := n.updatedAt)
    ensures Submitted(web, n, f) <==> Submitted(web, m, f)
  {
  }

  lemma CreatedEntry(web: Web, s: Records.RecordState, kind: string, meta: Metadata, secret: Secret, id: Id,
      r: Records.Nonces, now: int, commits: bool)
    ensures var (t, res) := Records.Create(web, s, kind, meta, secret, id, r, now, commits);
            res.Ok? ==>
              && res.value == id && HasKeys(t.vault) && t.db.records.Keys == s.db.records.Keys + {id}
              && id !in s.db.records && t.db.records[id].revision == 1
              && t.db.records[id].keyVersion == s.vault.vault.active
              && (forall x | x in s.db.records :: t.db.records[x] == s.db.records[x])
              && t.index == PutEntry(web, s.index, Entry(id, kind, 1, meta.(createdAt := now, updatedAt := now)))
  {
    hide Catalog.RootOf, Catalog.CoveredBy, PutEntry, Seal, RecordAad, ValidRecord;
  }

  lemma UpdatedEntry(web: Web, s: Records.RecordState, id: Id, expected: U64, meta: Metadata, secret: Secret,
      r: Records.Nonces, now: int, commits: bool)
    ensures var (t, res) := Records.Update(web, s, id, expected, meta, secret, r, now, commits);
            res.Ok? ==>
              && HasKeys(t.vault) && id in s.index.entries && id in s.db.records && id in t.db.records
              && s.db.records[id].revision == expected < MAX_INT64 && t.db.records[id].revision == expected + 1
              && t.index == PutEntry(web, s.index, Entry(id, s.index.entries[id].kind, expected + 1,
                   meta.(createdAt := s.index.entries[id].meta.createdAt, updatedAt := now)))
  {
    hide Catalog.RootOf, Catalog.CoveredBy, PutEntry, Seal, RecordAad, ValidRecord;
  }

  lemma PutIsEntry(web: Web, v: IndexView, e: Entry)
    ensures PutEntry(web, v, e).entries == v.entries[e.id := e]
  {
  }

  /**
   A create that succeeds adds one row, under the id it answers. What it says is what was submitted: in the live
   index, in what is committed, and when its secret is revealed. A browser's create is a login whatever was asked.
   */
  lemma CreateStoresWhatWasSubmitted(cfg: Config, w: World, k: nat, f: Fields, loginOnly: bool, env: Env)
    requires VaultInv(cfg, w) && Possible(w, Incoming(k, CreateRecord(f, loginOnly), env))
    requires Handle(cfg, w.core, w.conns[k], CreateRecord(f, loginOnly), env).2.Ok?
    ensures var n := Next(cfg, w, Incoming(k, CreateRecord(f, loginOnly), env));
            && Handle(cfg, w.core, w.conns[k], CreateRecord(f, loginOnly), env).2 == Ok(NewRecord(env.id))
            && env.id !in w.core.db.records && n.core.db.records.Keys == w.core.db.records.Keys + {env.id}
            && (forall x | x in w.core.db.records :: n.core.db.records[x] == w.core.db.records[x])
            && Says(cfg, n, env.id, f, if loginOnly || f.kind == "" then "login" else f.kind, 1)
            && n.truth.sealings[env.id].meta.createdAt == env.now == n.truth.sealings[env.id].meta.updatedAt
            && Records.Reveal(RecordStateOf(n.core), env.id) == Ok(f.secret)
  {
    hide CoreOk, BackupOk, Admit, OpCreate, Records.Reveal, FreshEnv, FreshIds, Logged, Submitted, PutEntry,
         FieldsToMetadata;
    var req := CreateRecord(f, loginOnly);
    AdmitKeeps(cfg.web, w.core, w.conns[k], OpOf(req), env, w.truth);
    var (c, conn, _) := Admit(w.core, w.conns[k], OpOf(req), env);
    FieldsAreSubmitted(cfg.web, f);
    OpCreateStores(cfg, c, f, loginOnly, env);
    OpCreateKeeps(cfg, w, c, f, loginOnly, env);
    var meta := FieldsToMetadata(cfg.web, f).value;
    SameFieldsSubmitted(cfg.web, meta, meta.(createdAt := env.now, updatedAt := env.now), f);
    var n := Next(cfg, w, Incoming(k, req, env));
    RevealKnown(cfg.web, n.core, n.truth, env.id);
  }

  lemma OpCreateStores(cfg: Config, c: Core, f: Fields, loginOnly: bool, env: Env)
    ensures var (d, r) := OpCreate(cfg, c, f, loginOnly, env);
            r.Ok? ==>
              && FieldsToMetadata(cfg.web, f).Some?
              && var m := FieldsToMetadata(cfg.web, f).value.(createdAt := env.now, updatedAt := env.now);
              && r.value == NewRecord(env.id) && HasKeys(d.vault) && env.id !in c.db.records
              && d.db.records.Keys == c.db.records.Keys + {env.id}
              && d.db.records[env.id].revision == 1 && d.db.records[env.id].keyVersion == c.vault.vault.active
              && (forall x | x in c.db.records :: d.db.records[x] == c.db.records[x])
              && d.index.entries ==
                 c.index.entries[env.id := Entry(env.id, if loginOnly || f.kind == "" then "login" else f.kind, 1, m)]
  {
    hide Records.Create, FieldsToMetadata, PutEntry;
    if FieldsToMetadata(cfg.web, f).Some? {
      var meta := FieldsToMetadata(cfg.web, f).value;
      var kind := if f.kind == "" || loginOnly then "login" else f.kind;
      CreatedEntry(cfg.web, RecordStateOf(c), kind, meta, f.secret, env.id, env.nonces, env.now, env.commits);
      PutIsEntry(cfg.web, c.index, Entry(env.id, kind, 1, meta.(createdAt := env.now, updatedAt := env.now)));
    }
  }

  /**
   An update that succeeds rewrites one row, and what it says is what was submitted; kind and instant of creation
   stay. Its secret can be revealed exactly when the row's key_version is the active envelope version.
   */
  lemma UpdateStoresWhatWasSubmitted(cfg: Config, w: World, k: nat, id: Id, expected: U64, f: Fields, loginOnly: bool,
      env: Env)
    requires VaultInv(cfg, w) && Possible(w, Incoming(k, UpdateRecord(id, expected, f, loginOnly), env))
    requires Handle(cfg, w.core, w.conns[k], UpdateRecord(id, expected, f, loginOnly), env).2.Ok?
    ensures var n := Next(cfg, w, Incoming(k, UpdateRecord(id, expected, f, loginOnly), env));
            && id in w.core.db.records && id in w.core.index.entries && id in w.truth.sealings
            && id in n.core.db.records
            && w.core.db.records[id].revision == expected < MAX_INT64
            && n.core.db.records.Keys == w.core.db.records.Keys
            && (forall x | x in w.core.db.records && x != id :: n.core.db.records[x] == w.core.db.records[x])
            && Says(cfg, n, id, f, w.truth.sealings[id].kind, expected + 1)
            && (loginOnly ==> w.truth.sealings[id].kind == "login")
            && n.truth.sealings[id].meta.createdAt / MILLI == w.truth.sealings[id].meta.createdAt / MILLI
            && n.truth.sealings[id].meta.updatedAt == env.now
            && Records.Reveal(RecordStateOf(n.core), id) ==
               (if w.core.db.records[id].keyVersion == w.core.vault.vault.active then Ok(f.secret)
                else Err(IntegrityFailure))
  {
    hide CoreOk, BackupOk, Admit, Records.Update, Records.Reveal, FreshEnv, FreshIds, Logged, Submitted, PutEntry;
    var req := UpdateRecord(id, expected, f, loginOnly);
    AdmitKeeps(cfg.web, w.core, w.conns[k], OpOf(req), env, w.truth);
    var (c, conn, _) := Admit(w.core, w.conns[k], OpOf(req), env);
    FieldsAreSubmitted(cfg.web, f);
    var meta := FieldsToMetadata(cfg.web, f).value;
    UpdatedEntry(cfg.web, RecordStateOf(c), id, expected, meta, f.secret, env.nonces, env.now, env.commits);
    var e := c.index.entries[id];
    var m := meta.(createdAt := e.meta.createdAt, updatedAt := env.now);
    PutIsEntry(cfg.web, c.index, Entry(id, e.kind, expected + 1, m));
    SameFieldsSubmitted(cfg.web, meta, m, f);
    ParsedUrls(cfg.web, f);
    UpdateKeeps(cfg, c, id, expected, meta, f.secret, env.nonces, env.now, env.commits, w.truth);
    EntryIsCommitted(cfg.web, c, w.truth, id);
    OpUpdateKeeps(cfg, w, c, id, expected, f, loginOnly, env);
    var n := Next(cfg, w, Incoming(k, req, env));
    RevealKnown(cfg.web, n.core, n.truth, id);
  }

  lemma EntryIsCommitted(web: Web, c: Core, truth: Truth, id: Id)
    requires CoreOk(web, c, truth) && id in c.index.entries
    ensures id in c.db.records && id in truth.sealings && c.index.entries[id].kind == truth.sealings[id].kind
    ensures c.index.entries[id].meta.createdAt / MILLI == truth.sealings[id].meta.createdAt / MILLI
  {
    hide DbOk, Agrees, WellParsed, DeriveKeyring;
    assert EntryOk(web, c.index.entries[id], c.db.records[id], truth.sealings[id]);
    SameMillis(c.index.entries[id].meta, truth.sealings[id].meta);
  }

  lemma SameMillis(m: Metadata, n: Metadata)
    requires Stored(m) == Stored(n)
    ensures m.createdAt / MILLI == n.createdAt / MILLI
  {
  }

  // ---- Which requests succeed ---------------------------------------------------------------------------------------

  /** The submitted URLs as texts. */
  function Texts(f: Fields): seq<string> {
    match f.urlEntries
    case None => f.urls
    case Some(es) => seq(|es|, i requires 0 <= i < |es| => es[i].url)
  }

  /** A record that can be stored: known kind, a name, something to fill or a key to keep, and URLs with a host. */
  ghost predicate Acceptable(web: Web, f: Fields, kind: string) {
    && kind in {"login", "note", "api"} && f.name != ""
    && (kind == "login" ==> f.secret.password != "" || f.username != "" || Texts(f) != [])
    && (kind == "api" ==> f.secret.apiKey != "" || f.secret.apiSecret != "")
    && forall t | t in Texts(f) :: web.parse(t).Some? && web.parse(t).value.host != ""
  }

  /** The signed counter column still has room, and the transaction lands. */
  predicate CanStamp(c: Core, env: Env) {
    env.commits && (c.db.anchor.Some? ==> c.db.anchor.value.counter < 0x7fff_ffff_ffff_ffff)
  }

  lemma TextsOfEntries(web: Web, f: Fields)
    ensures FieldsToMetadata(web, f).Some? <==> forall t | t in Texts(f) :: web.parse(t).Some?
    ensures FieldsToMetadata(web, f).Some? ==>
      var m := FieldsToMetadata(web, f).value;
      && |m.urls| == |Texts(f)| && m.name == f.name && m.username == f.username
      && forall i | 0 <= i < |m.urls| :: web.parse(Texts(f)[i]) == Some(m.urls[i].origin)
  {
    FieldsAreSubmitted(web, f);
    if f.urlEntries.Some? {
      var es := f.urlEntries.value;
      forall i | 0 <= i < |es| ensures Texts(f)[i] in Texts(f) && es[i] in es {
      }
    }
  }

  lemma ValidExactly(web: Web, id: Id, kind: string, revision: nat, f: Fields, created: int, updated: int)
    requires FieldsToMetadata(web, f).Some? && revision >= 1
    ensures ValidRecord(id, kind, revision,
              FieldsToMetadata(web, f).value.(createdAt := created, updatedAt := updated), f.secret) <==>
            id != 0 && Acceptable(web, f, kind)
  {
    hide FieldsToMetadata, Texts;
    TextsOfEntries(web, f);
    var m := FieldsToMetadata(web, f).value;
    if forall u | u in m.urls :: u.origin.host != "" {
      forall t | t in Texts(f) ensures web.parse(t).Some? && web.parse(t).value.host != "" {
        var i :| 0 <= i < |Texts(f)| && Texts(f)[i] == t;
        assert m.urls[i] in m.urls;
      }
    }
    if forall t | t in Texts(f) :: web.parse(t).Some? && web.parse(t).value.host != "" {
      forall u | u in m.urls ensures u.origin.host != "" {
        var i :| 0 <= i < |m.urls| && m.urls[i] == u;
        assert Texts(f)[i] in Texts(f);
      }
    }
  }

  lemma AcceptableParses(web: Web, f: Fields, kind: string)
    ensures Acceptable(web, f, kind) ==> FieldsToMetadata(web, f).Some?
  {
    hide FieldsToMetadata;
    TextsOfEntries(web, f);
  }

  lemma VaultParts(web: Web, c: Core, truth: Truth)
    requires CoreOk(web, c, truth)
    ensures HasKeys(c.vault) ==> c.vault.loaded && c.vault.vault.active in c.db.envelopes
    ensures HasKeys(c.vault) ==> c.index.entries.Keys == c.db.records.Keys == truth.sealings.Keys
    ensures !HasKeys(c.vault) ==> c.index.entries == map[]
  {
    hide EnvelopeFor, AnchorOk, DeriveKeyring, RowOk, Agrees, EntryOk;
  }

  lemma StampRoom(c: Core, env: Env)
    ensures CanStamp(c, env) <==> env.commits && Catalog.NextCounter(c.db.anchor) <= MAX_INT64 && NotFull(c)
  {
  }

  predicate NotFull(c: Core) { c.db.anchor.Some? ==> c.db.anchor.value.counter + 1 < WORD }

  lemma AnchorInRange(web: Web, c: Core, truth: Truth)
    requires CoreOk(web, c, truth) && HasKeys(c.vault)
    ensures NotFull(c)
  {
    hide EnvelopeFor, RecordsOk, IndexOk, DeriveKeyring, Catalog.RootOf, Catalog.CoveredBy;
  }

  /** A create request succeeds exactly when it is admitted and all this holds before it. */
  lemma CreateRequestSucceedsExactly(cfg: Config, w: World, k: nat, f: Fields, loginOnly: bool, env: Env)
    requires VaultInv(cfg, w) && k in w.conns
    ensures var req := CreateRecord(f, loginOnly);
            Handle(cfg, w.core, w.conns[k], req, env).2.Ok? <==>
              && Admit(w.core, w.conns[k], OpOf(req), env).2.Ok?
              && HasKeys(w.core.vault) && env.id != 0 && env.id !in w.core.db.records
              && Acceptable(cfg.web, f, if loginOnly || f.kind == "" then "login" else f.kind) && CanStamp(w.core, env)
  {
    hide Admit, CoreOk, BackupOk, Records.Create, FieldsToMetadata, ValidRecord, Acceptable, CanStamp, OpOf;
    var req := CreateRecord(f, loginOnly);
    AdmitKeeps(cfg.web, w.core, w.conns[k], OpOf(req), env, w.truth);
    var (c, _, _) := Admit(w.core, w.conns[k], OpOf(req), env);
    var kind := if f.kind == "" || loginOnly then "login" else f.kind;
    AcceptableParses(cfg.web, f, kind);
    VaultParts(cfg.web, c, w.truth);
    StampRoom(w.core, env);
    if HasKeys(c.vault) { AnchorInRange(cfg.web, c, w.truth); }
    if FieldsToMetadata(cfg.web, f).Some? {
      var meta := FieldsToMetadata(cfg.web, f).value;
      Records.CreateSucceedsExactly(cfg.web, RecordStateOf(c), kind, meta, f.secret, env.id, env.nonces, env.now,
          env.commits);
      ValidExactly(cfg.web, env.id, kind, 1, f, env.now, env.now);
    }
  }

  /** The same for an update: the row is there at the expected revision, and the kind is the stored one. */
  lemma UpdateSucceedsWhen(cfg: Config, w: World, k: nat, id: Id, expected: U64, f: Fields, loginOnly: bool, env: Env)
    requires VaultInv(cfg, w) && k in w.conns
    ensures var req := UpdateRecord(id, expected, f, loginOnly);
            Handle(cfg, w.core, w.conns[k], req, env).2.Ok? <==>
              && Admit(w.core, w.conns[k], OpOf(req), env).2.Ok?
              && HasKeys(w.core.vault) && id != 0 && id in w.core.db.records && id in w.truth.sealings
              && w.core.db.records[id].revision == expected < 0x7fff_ffff_ffff_ffff
              && (loginOnly ==> w.truth.sealings[id].kind == "login")
              && Acceptable(cfg.web, f, w.truth.sealings[id].kind) && CanStamp(w.core, env)
  {
    hide Admit, CoreOk, BackupOk, FieldsToMetadata, ValidRecord, Acceptable, CanStamp, OpOf, Handle;
    UpdateRequestSucceedsExactly(cfg, w, k, id, expected, f, loginOnly, env);
    CoreOfWorld(cfg, w);
    var c := w.core;
    VaultParts(cfg.web, c, w.truth);
    StampRoom(c, env);
    if HasKeys(c.vault) && id in c.db.records {
      AnchorInRange(cfg.web, c, w.truth);
      EntryIsCommitted(cfg.web, c, w.truth, id);
      var kind := w.truth.sealings[id].kind;
      AcceptableParses(cfg.web, f, kind);
      if FieldsToMetadata(cfg.web, f).Some? {
        ValidExactly(cfg.web, id, kind, expected + 1, f, c.index.entries[id].meta.createdAt, env.now);
      }
    }
  }

  lemma CoreOfWorld(cfg: Config, w: World)
    requires VaultInv(cfg, w)
    ensures CoreOk(cfg.web, w.core, w.truth)
  {
  }

  /** A delete request: any row that is there. It takes that row and its index entry, and nothing else. */
  lemma DeleteRequestSucceedsExactly(cfg: Config, w: World, k: nat, id: Id, env: Env)
    requires VaultInv(cfg, w) && Possible(w, Incoming(k, DeleteRecord(id), env))
    ensures var req := DeleteRecord(id);
            Handle(cfg, w.core, w.conns[k], req, env).2.Ok? <==>
              && Admit(w.core, w.conns[k], OpOf(req), env).2.Ok?
              && HasKeys(w.core.vault) && id in w.core.db.records && CanStamp(w.core, env)
    ensures Handle(cfg, w.core, w.conns[k], DeleteRecord(id), env).2.Ok? ==>
      var n := Next(cfg, w, Incoming(k, DeleteRecord(id), env));
      && n.core.db.records == w.core.db.records - {id} && n.core.index.entries.Keys == w.core.index.entries.Keys - {id}
      && n.truth.sealings == w.truth.sealings - {id}
  {
    hide Admit, CoreOk, BackupOk, Records.Delete, CanStamp, OpOf, FreshEnv, FreshIds, Logged;
    var req := DeleteRecord(id);
    AdmitKeeps(cfg.web, w.core, w.conns[k], OpOf(req), env, w.truth);
    var (c, _, _) := Admit(w.core, w.conns[k], OpOf(req), env);
    VaultParts(cfg.web, c, w.truth);
    StampRoom(w.core, env);
    if HasKeys(c.vault) { AnchorInRange(cfg.web, c, w.truth); }
    DeleteSucceedsExactly(cfg.web, RecordStateOf(c), id, env.commits);
    DeleteKeeps(cfg, c, id, env.commits, w.truth);
  }

  lemma DeleteSucceedsExactly(web: Web, s: Records.RecordState, id: Id, commits: bool)
    ensures var (t, r) := Records.Delete(web, s, id, commits);
            && (r.Ok? <==>
                  && HasKeys(s.vault) && s.vault.loaded && id in s.db.records
                  && s.vault.vault.active in s.db.envelopes && Catalog.NextCounter(s.db.anchor) <= MAX_INT64 && commits)
            && (r.Ok? ==> t.index.entries == s.index.entries - {id})
  {
    hide Catalog.RootOf, Catalog.CoveredBy, Catalog.StampOf, DropHosts, Drop;
    if HasKeys(s.vault) {
      Catalog.StampFailsExactly(Tables.DeleteRecord(s.db, id).0, s.vault.keyring.value.catalog, s.vault.vault.id,
                                s.vault.vault.active);
    }
  }

  /** A backup: keys held, and a file that can be written. It holds the database, under the backup key. */
  lemma BackupSucceedsExactly(c: Core, env: Env)
    ensures var (d, r) := OpCreateBackup(c, env);
            && (r.Ok? <==> HasKeys(c.vault) && c.vault.loaded && env.installs)
            && (!HasKeys(c.vault) ==> r == Err(VaultLocked))
            && (r.Ok? ==> r.value == Written(Container(c.vault.vault.id, c.db, Some(c.vault.keyring.value.backup))))
            && d.db.(events := c.db.events) == c.db && d.vault == c.vault && d.sessions == c.sessions
  {
  }

  /** A restore refused before the install changes nothing; one that fails to install leaves the vault locked. */
  lemma FailedRestoreLocks(c: Core, b: Container, env: Env)
    ensures var (d, r) := OpRestore(c, b, env);
            && (r.Err? && r.error != Storage ==> d == c)
            && (r == Err(Storage) ==>
                  && d.db == c.db && !d.vault.vault.unlocked && d.vault.keyring.None? && d.vault.rootKey.None?
                  && d.index.entries == map[] && d.sessions == map[])
            && (r.Ok? ==> !d.vault.loaded && d.vault.highWater == 0 && d.sessions == map[] && d.index.entries == map[])
  {
  }

  /** Creating the vault: a password the policy takes, no vault yet, parameters within their bounds, and a commit. */
  lemma InitSucceedsExactly(cfg: Config, c: Core, password: string, env: Env, truth: Truth)
    requires CoreOk(cfg.web, c, truth)
    ensures var (d, r) := OpInit(cfg, c, password, env);
            && (r.Ok? <==>
                  && cfg.strong(password) && c.db.vault.None? && env.commits
                  && 65536 <= cfg.params.memory <= 1048576 && 3 <= cfg.params.iterations <= 20
                  && 1 <= cfg.params.parallelism <= 16)
            && (r.Ok? ==>
                  && d.db.vault == Some(VaultRow(env.init.vaultId, 1, 1)) && d.db.anchor.Some?
                  && d.db.anchor.value.counter == 1 && d.db.envelopes.Keys == {1} && !d.vault.vault.unlocked
                  && d.vault.loaded && d.vault.highWater == 1)
            && (r.Err? ==> d.db == c.db)
            && (cfg.strong(password) && c.db.vault.Some? ==> r == Err(VaultExists) && d.vault.loaded)
            && (!cfg.strong(password) || (c.db.vault.None? && !ParamsValid(cfg.params)) ==> r == Err(Validation))
  {
    hide AnchorOk, IndexOk, DeriveKeyring, Catalog.RootOf, Catalog.CoveredBy, Catalog.StampOf, RowOk, EnvelopeFor,
         EnvelopeAad, Seal;
    if c.db.vault.None? && ParamsValid(cfg.params) {
      var r := env.init;
      var e := BuildEnvelope(r.vaultId, 1, r.root, password, cfg.params, r.envelope).value;
      var a := InsertVault(c.db, VaultRow(r.vaultId, FORMAT_VERSION, 1)).value;
      assert c.db.envelopes == map[];
      var tx := InsertKeyEnvelope(a, 1, e).value;
      Catalog.StampFailsExactly(tx, DeriveKeyring(r.root).catalog, r.vaultId, 1);
      StampLeavesTables(tx, DeriveKeyring(r.root).catalog, r.vaultId, 1);
      if InitTx(c.db, r, e).Some? { Catalog.StampVerifies(tx, DeriveKeyring(r.root).catalog, r.vaultId, 1); }
    }
  }
}
