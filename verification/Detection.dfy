/** While one process runs without a restore, only the latest committed state passes the catalog check. */
module Detection {
  import opened Endian
  import opened Octets
  import opened Tables
  import opened Origins
  import opened RecordIndex
  import opened Codec
  import opened Sessions
  import opened Vault
  import opened Daemon
  import opened History
  import opened NoFalseAlarm
  import opened Runs
  import opened Recovery
  import Access
  import Catalog
  import Records

  // ---- What one step does to the anchor ------------------------------------------------------------------

  /** Nothing the root covers moved, and neither did the anchor. */
  ghost predicate Quiet(db: Database, db': Database) {
    && db'.vault == db.vault && db'.anchor == db.anchor
    && (db.vault.Some? ==>
          Catalog.CoveredBy(db', db.vault.value.active) == Catalog.CoveredBy(db, db.vault.value.active))
  }

  /** A stamp: one counter further, for the same vault. */
  ghost predicate Stamped(db: Database, db': Database) {
    && db.vault.Some? && db'.vault.Some? && db'.vault.value.id == db.vault.value.id
    && db'.anchor.Some? && db'.anchor.value.counter == Catalog.NextCounter(db.anchor)
  }

  ghost predicate Created(db: Database, db': Database, newId: Id) {
    db.vault.None? && db'.vault.Some? && db'.vault.value.id == newId && db'.anchor.Some?
  }

  ghost predicate Emptied(db': Database) { db'.vault.None? && db'.anchor.None? }

  /** One of the four; `r` holds the root key and the vault id an init would install. */
  ghost predicate Effect(db: Database, truth: Truth, db': Database, truth': Truth, r: InitNoise) {
    || (Quiet(db, db') && truth'.root == truth.root)
    || (Stamped(db, db') && truth'.root == truth.root)
    || (Created(db, db', r.vaultId) && truth'.root == r.root)
    || Emptied(db')
  }

  lemma EventsAreQuiet(c: Core, code: int, env: Env, db: Database)
    ensures Quiet(db, c.db) ==> Quiet(db, Recorded(c, code, env).db)
    ensures Stamped(db, c.db) ==> Stamped(db, Recorded(c, code, env).db)
    ensures Recorded(c, code, env).db == c.db.(events := Recorded(c, code, env).db.events)
    ensures Recorded(c, code, env).vault == c.vault
  {
  }

  lemma StampMoves(db: Database, tx: Database, key: Bytes, vaultId: Id, version: U32)
    requires db.vault.Some? && tx.vault.Some? && tx.vault.value.id == db.vault.value.id && tx.anchor == db.anchor
    ensures var r := Catalog.StampOf(tx, key, vaultId, version);
            r.Some? ==> Stamped(db, r.value.0)
  {
    hide Catalog.RootOf, Catalog.CoveredBy;
  }

  lemma RecordsEffect(web: Web, c: Core, tx: Database, truth: Truth)
    requires CoreOk(web, c, truth) && HasKeys(c.vault) && tx.vault == c.db.vault && tx.anchor == c.db.anchor
    ensures var r := Records.Anchored(c.vault, tx);
            r.Some? ==> Stamped(c.db, r.value.0)
  {
    hide DbOk, IndexOk, DeriveKeyring, Catalog.StampOf;
    StampMoves(c.db, tx, c.vault.keyring.value.catalog, c.vault.vault.id, c.vault.vault.active);
  }

  lemma CreateEffect(cfg: Config, c: Core, f: Fields, loginOnly: bool, env: Env, truth: Truth)
    requires CoreOk(cfg.web, c, truth)
    ensures var (d, r) := OpCreate(cfg, c, f, loginOnly, env);
            if r.Ok? then Stamped(c.db, d.db) else d.db == c.db
  {
    hide CoreOk, Records.SealedRow, Records.Anchored, PutEntry, ValidRecord, FieldsToMetadata, Stamped;
    var meta := FieldsToMetadata(cfg.web, f);
    if meta.Some? && HasKeys(c.vault) {
      var kind := if f.kind == "" || loginOnly then "login" else f.kind;
      var row := Records.SealedRow(c.vault, env.id, kind, 1, meta.value.(createdAt := env.now, updatedAt := env.now),
          f.secret, env.nonces);
      RecordsEffect(cfg.web, c, c.db.(records := c.db.records[env.id := row]), truth);
    }
  }

  lemma UpdateEffect(cfg: Config, c: Core, id: Id, expected: U64, f: Fields, loginOnly: bool, env: Env, truth: Truth)
    requires CoreOk(cfg.web, c, truth)
    ensures var (d, r) := OpUpdate(cfg, c, id, expected, f, loginOnly, env);
            if r.Ok? then Stamped(c.db, d.db) else d.db == c.db
  {
    hide CoreOk, Records.SealedRow, Records.Anchored, PutEntry, ValidRecord, FieldsToMetadata, Stamped,
         Rewritten;
    var meta := FieldsToMetadata(cfg.web, f);
    if meta.Some? && HasKeys(c.vault) && id in c.index.entries && id in c.db.records {
      var e := c.index.entries[id];
      var revision: U64 := (expected + 1) % WORD;
      var row := Records.SealedRow(c.vault, id, e.kind, revision,
          meta.value.(createdAt := e.meta.createdAt, updatedAt := env.now), f.secret, env.nonces);
      RecordsEffect(cfg.web, c, c.db.(records := c.db.records[id := Rewritten(c.db.records[id], row)]), truth);
    }
  }

  lemma DeleteEffect(cfg: Config, c: Core, id: Id, env: Env, truth: Truth)
    requires CoreOk(cfg.web, c, truth)
    ensures var (d, r) := OpDelete(cfg, c, id, env);
            if r.Ok? then Stamped(c.db, d.db) else d.db == c.db
  {
    hide CoreOk, Records.Anchored, RemoveEntry, Stamped;
    if HasKeys(c.vault) {
      RecordsEffect(cfg.web, c, c.db.(records := c.db.records - {id}), truth);
    }
  }

  lemma ApproveEffect(cfg: Config, c: Core, id: Id, env: Env, truth: Truth)
    requires CoreOk(cfg.web, c, truth)
    ensures var (d, r) := OpApprove(c, id, env);
            if r.Ok? then Stamped(c.db, d.db) else d.db == c.db
  {
    hide CoreOk, Access.ClientFor, Catalog.StampOf, Stamped, Recorded;
    if HasKeys(c.vault) && id in c.pending {
      var row := Access.ClientFor(c.vault, c.pending[id], env.approval, env.now);
      RecordsEffect(cfg.web, c, c.db.(clients := c.db.clients[env.approval.clientId := row]), truth);
      var (s, r) := Access.Approve(AccessStateOf(c), id, env.approval, env.now, env.commits);
      EventsAreQuiet(WithAccess(c, s), EVENT_APPROVED, env, c.db);
    }
  }

  lemma RevokeEffect(cfg: Config, c: Core, id: Id, env: Env, truth: Truth)
    requires CoreOk(cfg.web, c, truth)
    ensures var (d, r) := OpRevoke(c, id, env);
            if r.Ok? then Stamped(c.db, d.db) else d.db == c.db
  {
    hide CoreOk, Catalog.StampOf, Stamped, Recorded;
    if HasKeys(c.vault) {
      RecordsEffect(cfg.web, c, UpdateClientStatus(c.db, id, STATUS_REVOKED).0, truth);
      var (s, r) := Access.Revoke(AccessStateOf(c), id, env.commits);
      EventsAreQuiet(WithAccess(c, s).(sessions := WithoutClient(c.sessions, id)), EVENT_REVOKED, env, c.db);
    }
  }

  lemma ChangePasswordEffect(cfg: Config, c: Core, current: string, next: string, env: Env, truth: Truth)
    requires CoreOk(cfg.web, c, truth)
    ensures var (d, r) := OpChangePassword(cfg, c, current, next, env);
            if r.Ok? then Stamped(c.db, d.db) else d.db == c.db
  {
    hide EnvelopeFor, Unwrap, BuildEnvelope, DeriveKeyring, Catalog.StampOf, RecordsOk, AnchorOk, IndexOk,
         Recorded;
    LoadKeeps(cfg.web, c, truth);
    if c.db.vault.Some? {
      var l := LoadVault(c.vault, c.db).value.vault;
      var root := Unwrap(c.db.envelopes[l.active], l.id, l.active, current);
      if root.Some? && |root.value| == 32 {
        var version := NextVersion(l.active);
        var env' := BuildEnvelope(l.id, version, root.value, next, cfg.params, env.envelope);
        if env'.Some? && InsertKeyEnvelope(c.db, version, env'.value).Some? {
          var tx := DeleteKeyEnvelope(SetActiveEnvelope(InsertKeyEnvelope(c.db, version, env'.value).value, version),
              l.active);
          StampMoves(c.db, tx, DeriveKeyring(root.value).catalog, l.id, version);
        }
      }
      var (v, db, r) := Vault.ChangePassword(c.vault, c.db, current, next, cfg.params, env.envelope, env.commits);
      EventsAreQuiet(c.(vault := v, db := db, index := NO_ENTRIES, sessions := map[]), EVENT_PASSWORD_CHANGED, env,
          c.db);
    }
  }

  lemma InitEffect(cfg: Config, c: Core, password: string, env: Env, truth: Truth)
    requires CoreOk(cfg.web, c, truth)
    ensures var (d, r) := OpInit(cfg, c, password, env);
            if r.Ok? then Created(c.db, d.db, env.init.vaultId) else d.db == c.db
  {
    hide EnvelopeFor, BuildEnvelope, DeriveKeyring, Catalog.RootOf, Catalog.CoveredBy, RecordsOk, AnchorOk,
         IndexOk;
    LoadKeeps(cfg.web, c, truth);
  }

  lemma UnlockEffect(cfg: Config, c: Core, conn: Conn, password: string, env: Env, truth: Truth)
    requires CoreOk(cfg.web, c, truth)
    ensures var (d, _, r) := OpUnlock(cfg, c, conn, password, env);
            && (Quiet(c.db, d.db) || Stamped(c.db, d.db))
            && (r.Ok? ==> d.vault.highWater != 0)
            && (r.Err? ==>
                  || !d.vault.vault.unlocked
                  || (d.vault.highWater == c.vault.highWater && c.vault.vault.unlocked))
  {
    hide CoreOk, DbOk, ServiceOk, IndexOk, Records.LoadIndex, Vault.Unlock, Vault.VerifyCatalog, Quiet, Stamped,
         Created, Stale, AnyStale, Recorded, Throttled, LoadVault, Opened, Failed, InsertSecurityEvent;
    UnlockMark(c.vault, c.db, password, env.now, env.after);
    UnlockKnown(cfg.web, c, password, env.now, env.after, truth);
    SameIsQuiet(c.db);
    var (v, r) := Vault.Unlock(c.vault, c.db, password, env.now, env.after);
    if r.Err? {
      EventsAreQuiet(c.(vault := v), EVENT_UNLOCK_FAILED, env, c.db);
    } else {
      UnlockedTail(cfg, c, c.(vault := v), conn, env, truth);
      var (s, loaded) := Records.LoadIndex(cfg.web, RecordStateOf(c.(vault := v)));
      var d := c.(vault := v, index := s.index);
      if loaded.Err? {
        EventsAreQuiet(LockedCore(d), EVENT_INTEGRITY_FAILURE, env, c.db);
      } else {
        VerifyEffect(cfg.web, d, env.commits, truth);
        var (w, db, verified) := Vault.VerifyCatalog(v, c.db, env.commits);
        var e := d.(vault := w, db := db);
        if verified.Err? {
          EventsAreQuiet(LockedCore(e), EVENT_INTEGRITY_FAILURE, env, c.db);
        } else {
          var f := if verified.value then Recorded(e, EVENT_BOOTSTRAPPED, env) else e;
          EventsAreQuiet(e, EVENT_BOOTSTRAPPED, env, c.db);
          EventsAreQuiet(Reissued(f, conn, env).0, EVENT_UNLOCKED, env, c.db);
        }
      }
    }
  }

  lemma SameIsQuiet(db: Database)
    ensures Quiet(db, db)
  {
  }

  lemma UnlockMark(v: VaultState, db: Database, password: string, now: int, after: int)
    ensures var (w, r) := Vault.Unlock(v, db, password, now, after);
            w.highWater == v.highWater && (r.Err? ==> w.vault.unlocked ==> v.vault.unlocked)
  {
    hide OpenEnvelope, DeriveKeyring;
  }

  lemma VerifyEffect(web: Web, c: Core, commits: bool, truth: Truth)
    requires CoreOk(web, c, truth) && HasKeys(c.vault)
    ensures var (w, db, r) := Vault.VerifyCatalog(c.vault, c.db, commits);
            (Stamped(c.db, db) || db == c.db) && (r.Ok? ==> w.highWater != 0)
  {
    hide EnvelopeFor, DeriveKeyring, Catalog.RootOf, Catalog.CoveredBy, RecordsOk, IndexOk;
    StampMoves(c.db, c.db, c.vault.keyring.value.catalog, c.vault.vault.id, c.vault.vault.active);
  }

  /** Once unlocked, the process has verified or written a counter. */
  ghost predicate Marked(v: VaultState) { v.vault.unlocked ==> v.highWater != 0 }

  lemma ChangePasswordMark(v: VaultState, db: Database, current: string, next: string, p: Params, r: EnvelopeNoise,
      commits: bool)
    requires Marked(v)
    ensures Marked(Vault.ChangePassword(v, db, current, next, p, r, commits).0)
  {
    hide Unwrap, BuildEnvelope, DeriveKeyring, Catalog.StampOf;
  }

  lemma RecordsKeepMark(cfg: Config, c: Core, req: Request, env: Env)
    requires Marked(c.vault) && (req.CreateRecord? || req.UpdateRecord? || req.DeleteRecord?)
    ensures Marked(DispatchRest(cfg, c, Conn(None, 0, false, []), req, env).0.vault)
  {
    hide Catalog.StampOf, FieldsToMetadata, Records.SealedRow, ValidRecord, PutEntry, RemoveEntry,
         Tables.UpdateRecord, Tables.DeleteRecord, Tables.InsertRecord;
  }

  lemma OthersKeepMark(cfg: Config, c: Core, conn: Conn, req: Request, env: Env)
    requires Marked(c.vault) && !req.UnlockVault?
    ensures Marked(DispatchRest(cfg, c, conn, req, env).0.vault)
  {
    hide Unwrap, BuildEnvelope, DeriveKeyring, Catalog.StampOf, Records.Reveal, Records.RevealForOrigin,
         Vault.ChangePassword, Access.ClientFor, Access.RequestPairing, Access.Claim, Access.Cancel,
         WithoutClient, UpdateClientStatus, ParamsValid, OpCreate, OpUpdate, OpDelete;
    match req
    case CreateRecord(_, _) => RecordsKeepMark(cfg, c, req, env);
    case UpdateRecord(_, _, _, _) => RecordsKeepMark(cfg, c, req, env);
    case DeleteRecord(_) => RecordsKeepMark(cfg, c, req, env);
    case ChangeMaster(current, next) =>
      ChangePasswordMark(c.vault, c.db, current, next, cfg.params, env.envelope, env.commits);
    case _ =>
  }

  /** Requests that leave the whole database alone, up to best-effort events. */
  predicate ReadsOnly(req: Request) {
    req.Query? || req.Status? || req.LockVault? || req.RevealRecord? || req.RevealForOrigin? || req.Pair? || req.Claim?
    || req.CancelPairing? || req.CreateBackup?
  }

  lemma ReadsAreQuiet(cfg: Config, c: Core, conn: Conn, req: Request, env: Env)
    requires ReadsOnly(req)
    ensures Quiet(c.db, DispatchRest(cfg, c, conn, req, env).0.db)
  {
    hide Records.Reveal, Records.RevealForOrigin, Access.RequestPairing, Access.Claim, Access.Cancel, LoadVault;
  }

  lemma ReadsCommitNothing(cfg: Config, w: World, req: Request, env: Env, reply: Result<Reply>)
    requires ReadsOnly(req) || req.Approve? || req.Revoke? || req.UnlockVault? || req.DestroyVault?
    ensures CommittedBy(cfg, w, req, env, reply) == w.truth
  {
  }

  lemma DispatchEffect(cfg: Config, w: World, c: Core, conn: Conn, req: Request, env: Env)
    requires CoreOk(cfg.web, c, w.truth) && c.vault == w.core.vault && c.index == w.core.index && !req.RestoreBackup?
    ensures var (d, _, r) := Dispatch(cfg, c, conn, req, env);
            Effect(c.db, w.truth, d.db, CommittedBy(cfg, w, req, env, r), env.init)
  {
    hide CoreOk, OpUnlock, OpStatus, OpInit, OpLock, OpChangePassword, OpDestroy, OpCreate, OpUpdate, OpDelete,
         OpClaim, OpCancel, OpPair, OpApprove, OpRevoke, OpCreateBackup, OpRestore, Records.Reveal,
         Records.RevealForOrigin, FieldsToMetadata, Quiet, Stamped, Created;
    SameIsQuiet(c.db);
    match req
    case UnlockVault(password) => UnlockEffect(cfg, c, conn, password, env, w.truth);
    case InitVault(password) => InitEffect(cfg, c, password, env, w.truth);
    case ChangeMaster(current, next) => ChangePasswordEffect(cfg, c, current, next, env, w.truth);
    case DestroyVault(password) => DestroyedRecords(c, password, env);
    case CreateRecord(f, loginOnly) => CreateEffect(cfg, c, f, loginOnly, env, w.truth);
    case UpdateRecord(id, expected, f, loginOnly) => UpdateEffect(cfg, c, id, expected, f, loginOnly, env, w.truth);
    case DeleteRecord(id) => DeleteEffect(cfg, c, id, env, w.truth);
    case Approve(id) => ApproveEffect(cfg, c, id, env, w.truth);
    case Revoke(id) => RevokeEffect(cfg, c, id, env, w.truth);
    case _ =>
      ReadsAreQuiet(cfg, c, conn, req, env);
      ReadsCommitNothing(cfg, w, req, env, Dispatch(cfg, c, conn, req, env).2);
  }

  // ---- The anchors ever issued -----------------------------------------------------------------------------

  /** Counters under one key only grow, and the stored anchor is the last one issued. */
  ghost predicate LogOk(db: Database, truth: Truth, log: seq<Issued>) {
    && (forall i | i in log :: Catalog.WellKeyed(i.covered))
    && (forall i, j | 0 <= i < j < |log| :: log[i].key == log[j].key ==> log[i].counter < log[j].counter)
    && (db.vault.Some? && db.anchor.Some? ==> log != [] && Some(log[|log| - 1]) == IssuedFor(db, truth))
    && (db.vault.Some? && db.anchor.None? ==> forall i | i in log :: i.key != DeriveKeyring(truth.root).catalog)
    && (db.vault.Some? ==> forall i | i in log && i.vaultId == db.vault.value.id ::
         i.key == DeriveKeyring(truth.root).catalog)
  }

  /** The log after a step from one database to the next. */
  function Extended(log: seq<Issued>, db: Database, db': Database, truth': Truth): seq<Issued> {
    if db'.anchor == db.anchor || IssuedFor(db', truth').None? then log else log + [IssuedFor(db', truth').value]
  }

  lemma CatalogKeysDiffer(r: Key, r': Key)
    ensures DeriveKeyring(r).catalog == DeriveKeyring(r').catalog <==> r == r'
  {
    SubkeyInjective(r, LABEL_CATALOG, r', LABEL_CATALOG);
  }

  /** Covered rows are filed under their own ids. */
  lemma CoveredIsWellKeyed(db: Database, version: U32)
    ensures Catalog.WellKeyed(Catalog.CoveredBy(db, version))
  {
  }

  lemma EffectKeepsLog(db: Database, truth: Truth, db': Database, truth': Truth, r: InitNoise, log: seq<Issued>)
    requires LogOk(db, truth, log) && Effect(db, truth, db', truth', r) && BaseOk(db, truth)
    requires db.anchor.Some? ==> db.anchor.value.counter <= MAX_INT64
    requires forall i | i in log :: i.key != DeriveKeyring(r.root).catalog && i.vaultId != r.vaultId
    ensures LogOk(db', truth', Extended(log, db, db', truth'))
  {
    hide DeriveKeyring, Catalog.CoveredBy, EnvelopeFor, Catalog.WellKeyed;
    if db'.vault.Some? { CoveredIsWellKeyed(db', db'.vault.value.active); }
    var log' := Extended(log, db, db', truth');
    if log' != log {
      var last := log'[|log|];
      forall i | 0 <= i < |log| && log[i].key == last.key ensures log[i].counter < last.counter {
        assert log[i] in log;
      }
    }
  }

  lemma QuietKeepsLog(db: Database, truth: Truth, db': Database, log: seq<Issued>)
    requires LogOk(db, truth, log) && Quiet(db, db')
    ensures LogOk(db', truth, log)
  {
    hide DeriveKeyring, Catalog.CoveredBy;
  }

  ghost predicate DetectInv(cfg: Config, w: World) {
    VaultInv(cfg, w) && LogOk(w.core.db, w.truth, w.log) && Marked(w.core.vault)
  }

  lemma ConnectIsQuiet(c: Core, peer: Peer, env: Env)
    ensures Connect(c, peer, env).Some? ==>
      Quiet(c.db, Connect(c, peer, env).value.0.db) && Connect(c, peer, env).value.0.vault == c.vault
  {
    if Connect(c, peer, env).Some? && c.db.vault.Some? {
      var db := Connect(c, peer, env).value.0.db;
      assert Catalog.ClientsForRoot(db.clients) == Catalog.ClientsForRoot(c.db.clients);
    }
  }

  lemma HandleDetects(cfg: Config, w: World, k: nat, req: Request, env: Env)
    requires DetectInv(cfg, w) && Possible(w, Incoming(k, req, env)) && !req.RestoreBackup?
    ensures DetectInv(cfg, Next(cfg, w, Incoming(k, req, env)))
  {
    hide CoreOk, BackupOk, Admit, Dispatch, DispatchRest, CommittedBy, FreshIds, LogOk, BaseOk, DeriveKeyring,
         AnchorOk;
    StepKeeps(cfg, w, Incoming(k, req, env));
    InOrderParts(cfg, w);
    AdmitKeeps(cfg.web, w.core, w.conns[k], OpOf(req), env, w.truth);
    var (d, next, admitted) := Admit(w.core, w.conns[k], OpOf(req), env);
    EventsQuiet(w.core.db, d.db);
    QuietKeepsLog(w.core.db, w.truth, d.db, w.log);
    if admitted.Ok? {
      DispatchEffect(cfg, w, d, next, req, env);
      var (e, _, r) := Dispatch(cfg, d, next, req, env);
      InOrderParts(cfg, w.(core := d));
      EffectKeepsLog(d.db, w.truth, e.db, CommittedBy(cfg, w, req, env, r), env.init, w.log);
      DispatchMarks(cfg, d, next, req, env, w.truth);
    } else {
      ErrCommitsNothing(cfg, w, req, env, Err(admitted.error));
    }
  }

  lemma DispatchMarks(cfg: Config, c: Core, conn: Conn, req: Request, env: Env, truth: Truth)
    requires CoreOk(cfg.web, c, truth) && Marked(c.vault)
    ensures Marked(Dispatch(cfg, c, conn, req, env).0.vault)
  {
    hide CoreOk, DispatchRest, OpUnlock;
    if req.UnlockVault? {
      UnlockEffect(cfg, c, conn, req.password, env, truth);
    } else {
      OthersKeepMark(cfg, c, conn, req, env);
    }
  }

  lemma EventsQuiet(db: Database, db': Database)
    requires db'.(events := db.events) == db
    ensures Quiet(db, db')
  {
  }

  lemma InOrderParts(cfg: Config, w: World)
    requires CoreOk(cfg.web, w.core, w.truth)
    ensures BaseOk(w.core.db, w.truth) && (w.core.db.anchor.Some? ==> w.core.db.anchor.value.counter <= MAX_INT64)
  {
    hide EnvelopeFor, DeriveKeyring, Catalog.RootOf, RecordsOk, ServiceOk, IndexOk;
  }

  lemma OtherStepsDetect(cfg: Config, w: World, e: Event)
    requires DetectInv(cfg, w) && Possible(w, e) && !e.Incoming?
    ensures DetectInv(cfg, Next(cfg, w, e))
  {
    hide CoreOk, BackupOk, Handle, Connect, LogOk, FreshIds, FreshEnv, VaultInv, CommittedBy, Logged, Quiet;
    StepKeeps(cfg, w, e);
    match e
    case Connection(k, peer, env) =>
      ConnectIsQuiet(w.core, peer, env);
      if Connect(w.core, peer, env).Some? {
        QuietKeepsLog(w.core.db, w.truth, Connect(w.core, peer, env).value.0.db, w.log);
      }
    case IdleLock(env) =>
      EventsQuiet(w.core.db, OpLock(w.core, false, env).0.db);
      QuietKeepsLog(w.core.db, w.truth, OpLock(w.core, false, env).0.db, w.log);
    case Restart =>
  }

  lemma StepDetects(cfg: Config, w: World, e: Event)
    requires DetectInv(cfg, w) && Possible(w, e) && !IsRestore(e)
    ensures DetectInv(cfg, Next(cfg, w, e))
  {
    hide DetectInv, Next, Possible;
    if e.Incoming? {
      HandleDetects(cfg, w, e.conn, e.request, e.env);
    } else {
      OtherStepsDetect(cfg, w, e);
    }
  }

  lemma {:induction false} RunDetects(cfg: Config, w: World, es: seq<Event>)
    requires DetectInv(cfg, w) && PossibleRun(cfg, w, es) && RestoreFree(es)
    ensures DetectInv(cfg, Run(cfg, w, es))
  {
    hide DetectInv, Possible, Next, IsRestore;
    if es != [] {
      RunDetects(cfg, w, es[..|es| - 1]);
      StepDetects(cfg, Run(cfg, w, es[..|es| - 1]), es[|es| - 1]);
    }
  }

  // ---- Edits of the file -----------------------------------------------------------------------------------------

  /** An anchor root that is a MAC under the catalog key was issued by a stamp: the editor cannot make new ones. */
  ghost predicate Unforged(key: Key, log: seq<Issued>, a: Anchor) {
    forall stream: Bytes | a.root == HmacSha256(key, stream) ::
      exists i | i in log :: i.key == key && Catalog.StreamOf(i.vaultId, i.version, i.counter, i.covered)
          == Some(stream)
  }

  ghost predicate LogFits(log: seq<Issued>) {
    forall i | i in log :: Catalog.Fits(i.covered)
  }

  lemma AcceptedIsIssued(key: Key, vaultId: Id, version: U32, db: Database, log: seq<Issued>) returns (i: Issued)
    requires db.anchor.Some? && Unforged(key, log, db.anchor.value) && LogFits(log)
    requires forall i | i in log :: Catalog.WellKeyed(i.covered)
    requires Catalog.Fits(Catalog.CoveredBy(db, version))
    requires Catalog.RootOf(key, vaultId, version, db.anchor.value.counter, Catalog.CoveredBy(db, version))
             == Some(db.anchor.value.root)
    ensures i in log && i == Issued(key, vaultId, version, db.anchor.value.counter, Catalog.CoveredBy(db, version))
  {
    hide Catalog.CoveredBy, Catalog.Fits, Catalog.WellKeyed, Catalog.Stream;
    var x := Catalog.CoveredBy(db, version);
    var stream := Catalog.StreamOf(vaultId, version, db.anchor.value.counter, x).value;
    i :| i in log && i.key == key && Catalog.StreamOf(i.vaultId, i.version, i.counter, i.covered) == Some(stream);
    CoveredIsWellKeyed(db, version);
    Catalog.RootBindsEverything(key, i.vaultId, i.version, i.counter, i.covered, key, vaultId, version,
        db.anchor.value.counter, x);
  }

  /** The check against one edited file, given what the log says about the state it was edited from. */
  lemma VerdictIsExact(web: Web, c: Core, truth: Truth, log: seq<Issued>, u: VaultState, db': Database, commits: bool)
    requires CoreOk(web, c, truth) && LogOk(c.db, truth, log) && LogFits(log)
    requires c.db.vault.Some? && c.vault.highWater != 0 && HasKeys(u) && u.highWater == c.vault.highWater
    requires u.keyring.value == DeriveKeyring(truth.root) && u.vault.id == c.db.vault.value.id
             && u.vault.active == c.db.vault.value.active
    requires db'.anchor.Some? && Unforged(DeriveKeyring(truth.root).catalog, log, db'.anchor.value)
    requires |db'.records| <= MAX_INT64 && |db'.clients| <= MAX_INT64
    ensures var answer := Vault.VerifyCatalog(u, db', commits).2;
            && (answer == Ok(false) <==>
                  db'.anchor == c.db.anchor && Catalog.SameColumns(db', c.db, u.vault.active))
            && (answer != Ok(false) ==>
                  answer == Err(if u.vault.active in db'.envelopes then IntegrityFailure else Storage))
  {
    hide DeriveKeyring, EnvelopeFor, RecordsOk, IndexOk, Catalog.CoveredBy, Catalog.RootOf, Catalog.WellKeyed,
         Catalog.Fits, Unforged, LogFits, Catalog.SameColumns;
    Catalog.RootCoversTheColumns(db', c.db, u.vault.active);
    Catalog.FitsByTables(db', u.vault.active);
    var key, row := DeriveKeyring(truth.root).catalog, c.db.vault.value;
    var want := Catalog.RootOf(key, row.id, row.active, db'.anchor.value.counter, Catalog.CoveredBy(db', row.active));
    EnvelopeDecides(key, row.id, row.active, db'.anchor.value.counter, db');
    if want == Some(db'.anchor.value.root) && db'.anchor.value.counter >= u.highWater {
      var i := AcceptedIsIssued(key, row.id, row.active, db', log);
      var last := log[|log| - 1];
      var k :| 0 <= k < |log| && log[k] == i;
      assert k == |log| - 1;
    }
  }

  lemma EnvelopeDecides(key: Bytes, vaultId: Id, version: U32, counter: U64, db: Database)
    ensures Catalog.RootOf(key, vaultId, version, counter, Catalog.CoveredBy(db, version)).Some? <==>
            version in db.envelopes
  {
  }

  /**
   Exact detection. Take any restore-free run of a process that has verified or written a counter, edit the file in
   any way short of forging a MAC (replaying earlier anchors and whole earlier files included), and check it with
   the vault's keys: it passes exactly when the anchor and every covered field are those of the latest committed
   state.
   */
  lemma OnlyTheLatestStatePasses(cfg: Config, w: World, es: seq<Event>, u: VaultState, db': Database, commits: bool)
    requires Start(cfg, w) && LogOk(w.core.db, w.truth, w.log) && PossibleRun(cfg, w, es) && RestoreFree(es)
    requires Run(cfg, w, es).core.vault.highWater != 0
    requires u == Run(cfg, w, es).core.vault || u == Opened(Run(cfg, w, es).core.vault, Run(cfg, w, es).truth.root)
    requires HasKeys(u) && Run(cfg, w, es).core.vault.loaded
    requires db'.anchor.Some? && Unforged(DeriveKeyring(Run(cfg, w, es).truth.root).catalog, Run(cfg, w, es).log,
             db'.anchor.value)
    requires LogFits(Run(cfg, w, es).log) && |db'.records| <= MAX_INT64 && |db'.clients| <= MAX_INT64
    ensures var c := Run(cfg, w, es).core;
            var answer := Vault.VerifyCatalog(u, db', commits).2;
            && (answer == Ok(false) <==>
                  db'.anchor == c.db.anchor && Catalog.SameColumns(db', c.db, u.vault.active))
            && (answer != Ok(false) ==>
                  answer == Err(if u.vault.active in db'.envelopes then IntegrityFailure else Storage))
  {
    hide DbOk, IndexOk, DeriveKeyring, LogOk, LogFits, Unforged, Catalog.Fits, Catalog.CoveredBy,
         Vault.VerifyCatalog, PossibleRun, Run, Start, RestoreFree;
    StartKeeps(cfg, w);
    StartMarked(cfg, w);
    RunDetects(cfg, w, es);
    var end := Run(cfg, w, es);
    VerdictIsExact(cfg.web, end.core, end.truth, end.log, u, db', commits);
  }

  lemma StartMarked(cfg: Config, w: World)
    requires Start(cfg, w)
    ensures Marked(w.core.vault)
  {
    hide DbOk;
  }

  /** In particular the vault as it stands unlocked: the mark is never missing then. */
  lemma UnlockedVaultDetects(cfg: Config, w: World, es: seq<Event>)
    requires Start(cfg, w) && LogOk(w.core.db, w.truth, w.log) && PossibleRun(cfg, w, es) && RestoreFree(es)
    ensures var v := Run(cfg, w, es).core.vault;
            HasKeys(v) ==> v.loaded && v.highWater != 0
  {
    hide DbOk, IndexOk, DeriveKeyring, LogOk, PossibleRun, Run, Start, RestoreFree;
    StartKeeps(cfg, w);
    StartMarked(cfg, w);
    RunDetects(cfg, w, es);
  }

  // ---- Restores included --------------------------------------------------------------------------------------------

  /** The anchor stored beside these rows is one that was issued. */
  ghost predicate AnchorLogged(db: Database, truth: Truth, log: seq<Issued>) {
    IssuedFor(db, truth).Some? ==> IssuedFor(db, truth).value in log
  }

  /**
   The anchor of the vault and of every backup was issued, and every issued anchor covers rows under their own ids.
   */
  ghost predicate AnchorsLogged(w: World) {
    && (forall i | i in w.log :: Catalog.WellKeyed(i.covered))
    && AnchorLogged(w.core.db, w.truth, w.log)
    && forall b | b in w.backups :: AnchorLogged(b.snapshot, w.backups[b], w.log)
  }

  lemma QuietKeepsAnchor(db: Database, db': Database, truth: Truth, truth': Truth, log: seq<Issued>)
    requires AnchorLogged(db, truth, log) && Quiet(db, db') && truth'.root == truth.root
    ensures AnchorLogged(db', truth', log)
  {
    hide DeriveKeyring, Catalog.CoveredBy;
  }

  lemma EffectKeepsAnchor(db: Database, truth: Truth, db': Database, truth': Truth, r: InitNoise, log: seq<Issued>)
    requires AnchorLogged(db, truth, log) && Effect(db, truth, db', truth', r) && BaseOk(db, truth)
    requires forall i | i in log :: Catalog.WellKeyed(i.covered)
    ensures AnchorLogged(db', truth', Extended(log, db, db', truth'))
    ensures forall i | i in Extended(log, db, db', truth') :: Catalog.WellKeyed(i.covered)
  {
    hide DeriveKeyring, Catalog.CoveredBy, EnvelopeFor, Catalog.WellKeyed;
    if db'.vault.Some? { CoveredIsWellKeyed(db', db'.vault.value.active); }
  }

  lemma LongerLogKeepsAnchor(db: Database, truth: Truth, log: seq<Issued>, more: seq<Issued>)
    requires AnchorLogged(db, truth, log) && forall i | i in log :: i in more
    ensures AnchorLogged(db, truth, more)
  {
  }

  lemma RestoreKeepsAnchor(cfg: Config, w: World, c: Core, b: Container, env: Env)
    requires CoreOk(cfg.web, c, w.truth) && AnchorsLogged(w) && AnchorLogged(c.db, w.truth, w.log)
    requires (forall x | x in w.backups :: BackupOk(cfg.web, x, w.backups[x])) && (b.macKey.Some? ==> b in w.backups)
    ensures var (d, r) := OpRestore(c, b, env);
            AnchorLogged(d.db, CommittedBy(cfg, w, RestoreBackup(b), env, r), w.log)
  {
    hide CoreOk, BackupOk, AnchorLogged, Recorded, DeriveKeyring;
    OpRestoreKeeps(cfg.web, c, b, env, w.truth, w.backups);
    RestoreRefused(c, b, env);
    if OpRestore(c, b, env).1.Ok? {
      var reset := ResetCore(LockedCore(c), b.snapshot);
      EventsAreQuiet(reset, EVENT_BACKUP_RESTORED, env, b.snapshot);
      EventsQuiet(b.snapshot, Recorded(reset, EVENT_BACKUP_RESTORED, env).db);
      QuietKeepsAnchor(b.snapshot, Recorded(reset, EVENT_BACKUP_RESTORED, env).db, w.backups[b], w.backups[b], w.log);
    }
  }

  lemma HandleKeepsAnchors(cfg: Config, w: World, k: nat, req: Request, env: Env)
    requires VaultInv(cfg, w) && AnchorsLogged(w) && Possible(w, Incoming(k, req, env))
    ensures AnchorsLogged(Next(cfg, w, Incoming(k, req, env)))
  {
    hide CoreOk, BackupOk, Admit, Dispatch, DispatchRest, CommittedBy, FreshIds, FreshEnv, AnchorLogged, BaseOk,
         DeriveKeyring, AnchorOk, OpRestore, Effect;
    AdmitKeeps(cfg.web, w.core, w.conns[k], OpOf(req), env, w.truth);
    var (d, next, admitted) := Admit(w.core, w.conns[k], OpOf(req), env);
    EventsQuiet(w.core.db, d.db);
    QuietKeepsAnchor(w.core.db, d.db, w.truth, w.truth, w.log);
    if admitted.Ok? {
      var (e, _, r) := Dispatch(cfg, d, next, req, env);
      var truth := CommittedBy(cfg, w, req, env, r);
      InOrderParts(cfg, w.(core := d));
      if req.RestoreBackup? {
        RestoreKeepsAnchor(cfg, w, d, req.container, env);
        RestoreIsRest(cfg, d, next, req, env);
      } else {
        DispatchEffect(cfg, w, d, next, req, env);
        EffectKeepsAnchor(d.db, w.truth, e.db, truth, env.init, w.log);
        forall b | b in w.backups ensures AnchorLogged(b.snapshot, w.backups[b], Extended(w.log, d.db, e.db, truth)) {
          LongerLogKeepsAnchor(b.snapshot, w.backups[b], w.log, Extended(w.log, d.db, e.db, truth));
        }
        BackupIsCurrent(cfg, d, next, req, env);
        LongerLogKeepsAnchor(d.db, w.truth, w.log, Extended(w.log, d.db, e.db, truth));
      }
    } else {
      ErrCommitsNothing(cfg, w, req, env, Err(admitted.error));
    }
  }

  lemma RestoreIsRest(cfg: Config, c: Core, conn: Conn, req: Request, env: Env)
    requires req.RestoreBackup?
    ensures var (d, r) := OpRestore(c, req.container, env);
            Dispatch(cfg, c, conn, req, env) == (d, conn, r) && !(r.Ok? && r.value.Written?)
  {
  }

  lemma BackupIsCurrent(cfg: Config, c: Core, conn: Conn, req: Request, env: Env)
    ensures var r := Dispatch(cfg, c, conn, req, env).2;
            r.Ok? && r.value.Written? ==> r.value.container.snapshot == c.db
  {
    hide Vault.Init, Vault.ChangePassword, Vault.VerifyPassword, Records.Create, Records.Update, Records.Delete,
         Records.Reveal, Records.RevealForOrigin, Access.Approve, Access.Revoke, Access.RequestPairing,
         Access.Claim, Access.Cancel, Vault.Unlock, Records.LoadIndex, Vault.VerifyCatalog, FieldsToMetadata,
         Recorded, LockedCore, ResetCore, WithoutClient;
  }

  lemma StepKeepsAnchors(cfg: Config, w: World, e: Event)
    requires VaultInv(cfg, w) && AnchorsLogged(w) && Possible(w, e)
    ensures AnchorsLogged(Next(cfg, w, e))
  {
    hide CoreOk, BackupOk, Handle, Connect, AnchorLogged, FreshIds, FreshEnv, CommittedBy, Logged, Quiet;
    match e
    case Incoming(k, req, env) => HandleKeepsAnchors(cfg, w, k, req, env);
    case Connection(k, peer, env) =>
      ConnectIsQuiet(w.core, peer, env);
      if Connect(w.core, peer, env).Some? {
        QuietKeepsAnchor(w.core.db, Connect(w.core, peer, env).value.0.db, w.truth, w.truth, w.log);
      }
    case IdleLock(env) =>
      EventsQuiet(w.core.db, OpLock(w.core, false, env).0.db);
      QuietKeepsAnchor(w.core.db, OpLock(w.core, false, env).0.db, w.truth, w.truth, w.log);
    case Restart =>
  }

  lemma {:induction false} RunKeepsAnchors(cfg: Config, w: World, es: seq<Event>)
    requires VaultInv(cfg, w) && AnchorsLogged(w) && PossibleRun(cfg, w, es)
    ensures AnchorsLogged(Run(cfg, w, es))
  {
    hide VaultInv, AnchorsLogged, Possible, Next;
    if es != [] {
      RunKeepsAnchors(cfg, w, es[..|es| - 1]);
      RunKeeps(cfg, w, es[..|es| - 1]);
      StepKeepsAnchors(cfg, Run(cfg, w, es[..|es| - 1]), es[|es| - 1]);
    }
  }

  /** The file holds an issued anchor of this key, vault and version, with exactly the rows it was issued for. */
  ghost predicate HoldsIssued(log: seq<Issued>, key: Key, vaultId: Id, version: U32, db: Database)
    requires db.anchor.Some?
  {
    && Issued(key, vaultId, version, db.anchor.value.counter, Catalog.CoveredBy(db, version)) in log
    && Catalog.RootOf(key, vaultId, version, db.anchor.value.counter, Catalog.CoveredBy(db, version))
    == Some(db.anchor.value.root)
  }

  /**
   Over any run, restores included: a file edited in any way short of forging a MAC passes the check exactly when it
   holds an anchor issued by some stamp, with the rows of that stamp, whose counter is not below the mark.
   */
  lemma AnyRunAcceptsIssuedAnchors(cfg: Config, w: World, es: seq<Event>, u: VaultState, db': Database, commits: bool)
    requires Start(cfg, w) && AnchorsLogged(w) && PossibleRun(cfg, w, es)
    requires HasKeys(u) && db'.anchor.Some? && Unforged(u.keyring.value.catalog, Run(cfg, w, es).log, db'.anchor.value)
    requires LogFits(Run(cfg, w, es).log) && Catalog.Fits(Catalog.CoveredBy(db', u.vault.active))
    ensures Vault.VerifyCatalog(u, db', commits).2 == Ok(false) <==>
            HoldsIssued(Run(cfg, w, es).log, u.keyring.value.catalog, u.vault.id, u.vault.active, db')
            && db'.anchor.value.counter >= u.highWater
    ensures var end := Run(cfg, w, es);
            AnchorLogged(end.core.db, end.truth, end.log)
  {
    hide DbOk, Unforged, LogFits, AnchorLogged, Catalog.Fits, Catalog.CoveredBy, Catalog.RootOf,
         Catalog.WellKeyed, PossibleRun, Run, Start;
    StartKeeps(cfg, w);
    RunKeepsAnchors(cfg, w, es);
    var key, n := u.keyring.value.catalog, u.vault.active;
    var want := Catalog.RootOf(key, u.vault.id, n, db'.anchor.value.counter, Catalog.CoveredBy(db', n));
    EnvelopeDecides(key, u.vault.id, n, db'.anchor.value.counter, db');
    if want == Some(db'.anchor.value.root) {
      var i := AcceptedIsIssued(key, u.vault.id, n, db', Run(cfg, w, es).log);
    }
  }

  // ---- Unlocking an edited file -------------------------------------------------------------------------------------

  lemma UnlockAnswers(cfg: Config, c: Core, conn: Conn, password: string, env: Env)
    ensures var (v, r) := Vault.Unlock(c.vault, c.db, password, env.now, env.after);
            OpUnlock(cfg, c, conn, password, env).2.Ok? <==>
              r.Ok? && Records.LoadIndex(cfg.web, Records.RecordState(c.db, v, c.index)).1.Ok?
                  && Vault.VerifyCatalog(v, c.db, env.commits).2.Ok?
  {
    hide Vault.Unlock, Records.LoadIndex, Vault.VerifyCatalog, InsertSecurityEvent;
    var (v, r) := Vault.Unlock(c.vault, c.db, password, env.now, env.after);
    if r.Ok? {
      var (s, loaded) := Records.LoadIndex(cfg.web, Records.RecordState(c.db, v, c.index));
      if loaded.Ok? {
        var (w, db, verified) := Vault.VerifyCatalog(v, c.db, env.commits);
      }
    }
  }

  /** A wrapped key that opens at all opens to the root it was wrapped for. */
  lemma SameWrapSameRoot(vaultId: Id, version: U32, truth: Truth, e: EnvelopeRow, e': EnvelopeRow, password: string)
    requires EnvelopeFor(vaultId, version, truth, e) && Catalog.OfEnvelope(e') == Catalog.OfEnvelope(e)
    ensures OpenEnvelope(e', vaultId, version, password).Some? ==>
            OpenEnvelope(e', vaultId, version, password).value == truth.root
  {
    hide EnvelopeAad, Expand, ParamsValid;
    var p, r :| BuildEnvelope(vaultId, version, truth.root, truth.password, p, r) == Some(e);
    var kek := DeriveKek(truth.password, r.salt, p).value;
    var ad := EnvelopeAad(vaultId, version, "wrap");
    if OpenEnvelope(e', vaultId, version, password).Some? {
      var root := OpenEnvelope(e', vaultId, version, password).value;
      var kek' := DeriveKek(password, e'.salt, ParamsOf(e')).value;
      assert e'.wrapped == Seal(kek', e'.wrapNonce, ad, root);
      assert e'.wrapped == Seal(kek, r.wrapNonce, ad, truth.root);
      ExpandInjective(Box(kek', e'.wrapNonce, ad, root), Box(kek, r.wrapNonce, ad, truth.root), 48);
    }
  }

  /** The file's root is the MAC of its own rows under the key the file led to, at a counter not below the mark. */
  ghost predicate SelfAnchored(v: VaultState, db: Database) {
    && v.keyring.Some? && db.anchor.Some? && db.anchor.value.counter >= v.highWater
    && Catalog.RootOf(v.keyring.value.catalog, v.vault.id, v.vault.active, db.anchor.value.counter,
          Catalog.CoveredBy(db, v.vault.active)) == Some(db.anchor.value.root)
  }

  lemma CheckIsSelfAnchored(v: VaultState, db: Database, commits: bool)
    requires HasKeys(v) && db.anchor.Some?
    ensures Vault.VerifyCatalog(v, db, commits).2.Ok? <==> SelfAnchored(v, db)
    ensures Vault.VerifyCatalog(v, db, commits).2.Ok? ==> Vault.VerifyCatalog(v, db, commits).2 == Ok(false)
  {
    hide Catalog.RootOf, Catalog.CoveredBy;
  }

  lemma CheckBootstraps(v: VaultState, db: Database, commits: bool)
    requires HasKeys(v) && db.anchor.None? && v.vault.active in db.envelopes
    ensures Vault.VerifyCatalog(v, db, commits).2.Ok? <==> commits
  {
    hide Catalog.RootOf, Catalog.CoveredBy;
    Catalog.StampFailsExactly(db, v.keyring.value.catalog, v.vault.id, v.vault.active);
  }

  /**
   Which edited files unlock, once the password has opened the file's own envelope to the keys in v and its records
   have loaded: without an anchor, one that can be written; opened to the vault's root, the latest committed state
   alone; opened to any other root, whatever is anchored under that root.
   */
  ghost predicate PassesCheck(c: Core, truth: Truth, v: VaultState, db': Database, commits: bool) {
    var n := c.vault.vault.active;
    if db'.anchor.None? then commits
    else if v.rootKey == Some(truth.root) then
      db'.anchor == c.db.anchor && Catalog.SameColumns(db', c.db, n)
    else SelfAnchored(v, db')
  }

  /** What unlocking an edited file comes to, for one state and the log of its anchors. */
  lemma UnlockVerdict(cfg: Config, c: Core, truth: Truth, log: seq<Issued>, conn: Conn, password: string, env: Env,
      db': Database)
    requires CoreOk(cfg.web, c, truth) && LogOk(c.db, truth, log) && LogFits(log)
    requires c.db.vault.Some? && c.vault.highWater != 0 && c.vault.loaded
    requires db'.anchor.Some? ==> Unforged(DeriveKeyring(truth.root).catalog, log, db'.anchor.value)
    requires |db'.records| <= MAX_INT64 && |db'.clients| <= MAX_INT64
    ensures var (v, r) := Vault.Unlock(c.vault, db', password, env.now, env.after);
            && (OpUnlock(cfg, c.(db := db'), conn, password, env).2.Ok? <==>
                  && r.Ok? && Records.LoadIndex(cfg.web, Records.RecordState(db', v, c.index)).1.Ok?
                  && PassesCheck(c, truth, v, db', env.commits))
            && (r.Ok? && v.rootKey != Some(truth.root) ==>
                  !Catalog.SameColumns(db', c.db, c.vault.vault.active))
  {
    hide CoreOk, DeriveKeyring, LogFits, Unforged, Catalog.Fits, Catalog.CoveredBy, Vault.VerifyCatalog,
         Records.LoadIndex, OpUnlock, OpenEnvelope, Catalog.WellKeyed, EnvelopeFor, SelfAnchored, Catalog.SameColumns;
    var edited, row := c.(db := db'), c.db.vault.value;
    UnlockAnswers(cfg, edited, conn, password, env);
    ServiceParts(cfg.web, c, truth);
    var (v, r) := Vault.Unlock(c.vault, db', password, env.now, env.after);
    if r.Ok? {
      var root := OpenEnvelope(db'.envelopes[row.active], row.id, row.active, password).value;
      assert v == Opened(c.vault, root);
      if db'.anchor.None? {
        CheckBootstraps(v, db', env.commits);
      } else {
        CheckIsSelfAnchored(v, db', env.commits);
        if root == truth.root { VerdictIsExact(cfg.web, c, truth, log, v, db', env.commits); }
      }
      if Catalog.SameColumns(db', c.db, row.active) {
        SameEnvelope(c.db, db', row.active);
        SameWrapSameRoot(row.id, row.active, truth, c.db.envelopes[row.active], db'.envelopes[row.active], password);
      }
    }
  }

  lemma SameEnvelope(db: Database, db': Database, version: U32)
    requires version in db.envelopes && version in db'.envelopes
             && Catalog.SameColumns(db', db, version)
    ensures Catalog.OfEnvelope(db'.envelopes[version]) == Catalog.OfEnvelope(db.envelopes[version])
  {
  }

  lemma ServiceParts(web: Web, c: Core, truth: Truth)
    requires CoreOk(web, c, truth) && c.db.vault.Some? && c.vault.loaded
    ensures c.vault.vault.id == c.db.vault.value.id && c.vault.vault.active == c.db.vault.value.active
    ensures c.db.vault.value.active in c.db.envelopes
    ensures EnvelopeFor(c.db.vault.value.id, c.db.vault.value.active, truth, c.db.envelopes[c.db.vault.value.active])
  {
    hide EnvelopeFor, AnchorOk, RecordsOk, IndexOk, DeriveKeyring;
  }

  /**
   Unlocking any edited file short of a forged MAC under the vault's own key, with envelope and keys taken from that
   very file: exactly when it succeeds. Where the file opens to the vault's own root that is the latest committed
   state alone; it opens to another root only if the covered envelope was replaced.
   */
  lemma UnlockOfAnEditedFile(cfg: Config, w: World, es: seq<Event>, conn: Conn, password: string, env: Env,
      db': Database)
    requires Start(cfg, w) && LogOk(w.core.db, w.truth, w.log) && PossibleRun(cfg, w, es) && RestoreFree(es)
    requires Run(cfg, w, es).core.vault.loaded && Run(cfg, w, es).core.vault.highWater != 0
    requires db'.anchor.Some? ==>
      Unforged(DeriveKeyring(Run(cfg, w, es).truth.root).catalog, Run(cfg, w, es).log, db'.anchor.value)
    requires LogFits(Run(cfg, w, es).log) && |db'.records| <= MAX_INT64 && |db'.clients| <= MAX_INT64
    ensures var c, truth := Run(cfg, w, es).core, Run(cfg, w, es).truth;
            var (v, r) := Vault.Unlock(c.vault, db', password, env.now, env.after);
            && (OpUnlock(cfg, c.(db := db'), conn, password, env).2.Ok? <==>
                  && r.Ok? && Records.LoadIndex(cfg.web, Records.RecordState(db', v, c.index)).1.Ok?
                  && PassesCheck(c, truth, v, db', env.commits))
            && (r.Ok? && v.rootKey != Some(truth.root) ==>
                  !Catalog.SameColumns(db', c.db, c.vault.vault.active))
  {
    hide DbOk, IndexOk, DeriveKeyring, LogOk, LogFits, Unforged, Catalog.Fits, Catalog.CoveredBy, PassesCheck,
         Vault.VerifyCatalog, Vault.Unlock, Records.LoadIndex, OpUnlock, PossibleRun, Run, Start, RestoreFree;
    StartKeeps(cfg, w);
    StartMarked(cfg, w);
    RunDetects(cfg, w, es);
    var end := Run(cfg, w, es);
    UnlockVerdict(cfg, end.core, end.truth, end.log, conn, password, env, db');
  }

  // ---- A file with an envelope of its own ---------------------------------------------------------------------------

  /** The vault row as it is, an envelope from elsewhere, no records and no clients, anchored under the other root. */
  function ForeignFile(c: Core, other: Key, e: EnvelopeRow): Database
    requires c.vault.highWater < WORD
  {
    var n := c.vault.vault.active;
    var bare := c.db.(envelopes := map[n := e], records := map[], clients := map[]);
    var root :=
      Catalog.RootOf(DeriveKeyring(other).catalog, c.vault.vault.id, n, c.vault.highWater, Catalog.CoveredBy(bare, n));
    if root.None? then bare else bare.(anchor := Some(Anchor(c.vault.highWater, root.value)))
  }

  lemma ForeignIsAnchored(c: Core, other: Key, e: EnvelopeRow)
    requires c.vault.highWater < WORD
    ensures var db, n := ForeignFile(c, other, e), c.vault.vault.active;
            && db.anchor.Some? && db.anchor.value.counter == c.vault.highWater && db.envelopes == map[n := e]
            && db.records == map[]
            && Catalog.RootOf(DeriveKeyring(other).catalog, c.vault.vault.id, n, c.vault.highWater,
                  Catalog.CoveredBy(db, n)) == Some(db.anchor.value.root)
  {
    var n := c.vault.vault.active;
    var bare := c.db.(envelopes := map[n := e], records := map[], clients := map[]);
    EnvelopeDecides(DeriveKeyring(other).catalog, c.vault.vault.id, n, c.vault.highWater, bare);
    assert Catalog.CoveredBy(ForeignFile(c, other, e), n) == Catalog.CoveredBy(bare, n);
  }

  /** A MAC under another key is no MAC under this one. */
  lemma OtherMacIsUnforged(key: Key, other: Key, vaultId: Id, version: U32, covered: Catalog.Covered, a: Anchor,
      log: seq<Issued>)
    requires key != other && Catalog.RootOf(other, vaultId, version, a.counter, covered) == Some(a.root)
    ensures Unforged(key, log, a)
  {
    hide Catalog.StreamOf;
    var stream := Catalog.StreamOf(vaultId, version, a.counter, covered).value;
    forall s: Bytes | a.root == HmacSha256(key, s) ensures false {
      HmacInjective(key, s, other, stream);
    }
  }

  lemma NoRecordsLoad(web: Web, s: Records.RecordState)
    requires HasKeys(s.vault) && s.vault.loaded && s.db.records == map[]
    ensures Records.LoadIndex(web, s).1.Ok?
  {
    assert s.db.records.Keys == {};
    assert Catalog.InOrder(s.db.records.Keys) == [];
  }

  /**
   The check holds the file to the keys the file itself leads to. Whoever may write the file can put an envelope of
   his own in it, for a root and a password of his own, and anchor whatever rows he likes under that root: he forges
   no MAC of the vault, and unlocking with his password succeeds.
   */
  lemma ForeignEnvelopeUnlocks(cfg: Config, w: World, es: seq<Event>, conn: Conn, other: Key, password: string,
      p: Params, noise: EnvelopeNoise, env: Env)
    requires Start(cfg, w) && LogOk(w.core.db, w.truth, w.log) && PossibleRun(cfg, w, es) && RestoreFree(es)
    requires Run(cfg, w, es).core.vault.loaded && Run(cfg, w, es).core.vault.highWater != 0
    requires !Throttled(Run(cfg, w, es).core.vault, env.now) && other != Run(cfg, w, es).truth.root && ParamsValid(p)
    ensures var end := Run(cfg, w, es);
            var c, n := end.core, end.core.vault.vault.active;
            && c.vault.highWater < WORD && BuildEnvelope(c.vault.vault.id, n, other, password, p, noise).Some?
            && var db' := ForeignFile(c, other, BuildEnvelope(c.vault.vault.id, n, other, password, p, noise).value);
            && db'.anchor.Some? && Unforged(DeriveKeyring(end.truth.root).catalog, end.log, db'.anchor.value)
            && !Catalog.SameColumns(db', c.db, n)
            && OpUnlock(cfg, c.(db := db'), conn, password, env).2.Ok?
  {
    hide DbOk, IndexOk, DeriveKeyring, LogOk, Unforged, Catalog.CoveredBy, Catalog.RootOf, BuildEnvelope,
         Vault.VerifyCatalog, Records.LoadIndex, OpUnlock, OpenEnvelope, PossibleRun, Run, Start, RestoreFree,
         EnvelopeFor, ForeignFile;
    StartKeeps(cfg, w);
    StartMarked(cfg, w);
    RunDetects(cfg, w, es);
    var end := Run(cfg, w, es);
    var c, n := end.core, end.core.vault.vault.active;
    MarkFits(cfg, end);
    BuildsAlways(c.vault.vault.id, n, other, password, p, noise);
    var e := BuildEnvelope(c.vault.vault.id, n, other, password, p, noise).value;
    var db' := ForeignFile(c, other, e);
    ForeignIsAnchored(c, other, e);
    CatalogKeysDiffer(other, end.truth.root);
    OtherMacIsUnforged(DeriveKeyring(end.truth.root).catalog, DeriveKeyring(other).catalog, c.vault.vault.id, n,
        Catalog.CoveredBy(db', n), db'.anchor.value, end.log);
    EnvelopeOpensExactly(c.vault.vault.id, n, other, password, p, noise, c.vault.vault.id, n, password);
    var (v, r) := Vault.Unlock(c.vault, db', password, env.now, env.after);
    assert r.Ok? && v == Opened(c.vault, other);
    NoRecordsLoad(cfg.web, Records.RecordState(db', v, c.index));
    CheckIsSelfAnchored(v, db', env.commits);
    UnlockAnswers(cfg, c.(db := db'), conn, password, env);
    ServiceParts(cfg.web, c, end.truth);
    if Catalog.SameColumns(db', c.db, n) {
      SameEnvelope(c.db, db', n);
      SameWrapSameRoot(c.vault.vault.id, n, end.truth, c.db.envelopes[n], e, password);
    }
  }

  lemma MarkFits(cfg: Config, w: World)
    requires VaultInv(cfg, w)
    ensures w.core.vault.highWater < WORD && (w.core.vault.loaded ==> w.core.db.vault.Some?)
  {
    hide BaseOk, RecordsOk, IndexOk, DeriveKeyring, Catalog.RootOf, Catalog.CoveredBy;
  }

  lemma BuildsAlways(vaultId: Id, version: U32, root: Key, password: string, p: Params, r: EnvelopeNoise)
    requires ParamsValid(p)
    ensures BuildEnvelope(vaultId, version, root, password, p, r).Some?
  {
  }

  /** The limit of the scheme: a stamp checks nothing, so the next write adopts whatever the file then holds. */
  lemma NextStampAdoptsEdits(u: VaultState, db': Database, commits: bool)
    requires HasKeys(u) && u.vault.active in db'.envelopes && Catalog.NextCounter(db'.anchor) <= MAX_INT64
    ensures var r := Catalog.StampOf(db', u.keyring.value.catalog, u.vault.id, u.vault.active);
            && r.Some?
            && (r.value.1 >= u.highWater ==>
                  Vault.VerifyCatalog(Noted(u, r.value.1), r.value.0, commits).2 == Ok(false))
  {
    hide Catalog.RootOf, Catalog.CoveredBy;
    Catalog.StampFailsExactly(db', u.keyring.value.catalog, u.vault.id, u.vault.active);
    Catalog.StampVerifies(db', u.keyring.value.catalog, u.vault.id, u.vault.active);
  }

  /** The hypotheses of the run theorems hold of a daemon started on no database at all. */
  lemma FreshDaemonStarts(cfg: Config, truth: Truth)
    ensures var w := World(EMPTY_CORE, map[], truth, map[], [], {});
            Start(cfg, w) && LogOk(w.core.db, w.truth, w.log) && !AnyStale(w.core.db, w.truth)
  {
    EmptyInOrder(cfg.web, truth);
  }
}
