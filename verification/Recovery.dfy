/** Which records can still be read: the one step that loses a record, and what follows from it. */
module Recovery {
  import opened Endian
  import opened Octets
  import opened Tables
  import opened Origins
  import opened RecordIndex
  import opened Codec
  import opened Sessions
  import opened Vault
  import opened Daemon
  import opened History
  import opened NoFalseAlarm
  import opened Runs
  import Access
  import Catalog
  import Records

  // ---- What each operation does to the records table ---------------------------------------------------

  predicate WritesRecords(req: Request) {
    || req.InitVault? || req.DestroyVault? || req.CreateRecord? || req.UpdateRecord? || req.DeleteRecord?
    || req.RestoreBackup?
  }

  lemma StampLeavesTables(db: Database, key: Bytes, vaultId: Id, version: U32)
    ensures var r := Catalog.StampOf(db, key, vaultId, version);
            r.Some? ==> r.value.0 == db.(anchor := r.value.0.anchor)
  {
    hide Catalog.RootOf, Catalog.CoveredBy;
  }

  lemma ChangePasswordLeavesRecords(v: VaultState, db: Database, current: string, next: string, p: Params,
      r: EnvelopeNoise, commits: bool)
    ensures Vault.ChangePassword(v, db, current, next, p, r, commits).1.records == db.records
  {
    hide Unwrap, BuildEnvelope, DeriveKeyring, Catalog.RootOf, Catalog.CoveredBy;
  }

  lemma OthersLeaveRecords(cfg: Config, c: Core, conn: Conn, req: Request, env: Env)
    requires !WritesRecords(req)
    ensures Dispatch(cfg, c, conn, req, env).0.db.records == c.db.records
  {
    hide Unwrap, OpenEnvelope, BuildEnvelope, DeriveKeyring, Catalog.StampOf, Catalog.VerdictOn,
         Access.ClientFor, Records.Rebuilt, Records.Reveal, Records.RevealForOrigin, Vault.Unlock,
         Vault.ChangePassword, OpUnlock, Access.Approve, Access.Revoke, Access.RequestPairing, Access.Claim,
         Access.Cancel, WithoutClient;
    match req
    case ChangeMaster(current, next) =>
      ChangePasswordLeavesRecords(c.vault, c.db, current, next, cfg.params, env.envelope, env.commits);
    case Approve(id) => ApproveLeavesRecords(AccessStateOf(c), id, env);
    case Revoke(id) => RevokeLeavesRecords(AccessStateOf(c), id, env);
    case UnlockVault(password) => UnlockLeavesRecords(cfg, c, conn, password, env);
    case _ =>
  }

  lemma UnlockLeavesRecords(cfg: Config, c: Core, conn: Conn, password: string, env: Env)
    ensures OpUnlock(cfg, c, conn, password, env).0.db.records == c.db.records
  {
    hide OpenEnvelope, DeriveKeyring, Catalog.StampOf, Catalog.VerdictOn, Records.LoadIndex, Vault.Unlock;
    var v := Vault.Unlock(c.vault, c.db, password, env.now, env.after).0;
    if v.keyring.Some? { StampLeavesTables(c.db, v.keyring.value.catalog, v.vault.id, v.vault.active); }
  }

  lemma ApproveLeavesRecords(s: Access.AccessState, id: Id, env: Env)
    ensures Access.Approve(s, id, env.approval, env.now, env.commits).0.db.records == s.db.records
  {
    hide Access.ClientFor, Catalog.RootOf, Catalog.CoveredBy;
  }

  lemma RevokeLeavesRecords(s: Access.AccessState, id: Id, env: Env)
    ensures Access.Revoke(s, id, env.commits).0.db.records == s.db.records
  {
    hide Catalog.RootOf, Catalog.CoveredBy;
  }

  lemma CreateAddsRow(web: Web, s: Records.RecordState, kind: string, meta: Metadata, secret: Secret, id: Id,
      r: Records.Nonces, now: int, commits: bool)
    ensures var (t, res) := Records.Create(web, s, kind, meta, secret, id, r, now, commits);
            if res.Ok? then id !in s.db.records && t.db.records.Keys == s.db.records.Keys + {id}
              && t.db.records[id].keyVersion == s.vault.vault.active
              && forall x | x in s.db.records :: t.db.records[x] == s.db.records[x]
            else t == s
  {
    hide Catalog.RootOf, Catalog.CoveredBy, PutEntry, Seal, RecordAad;
  }

  lemma InitEmptiesRecords(cfg: Config, c: Core, password: string, env: Env, truth: Truth)
    requires CoreOk(cfg.web, c, truth)
    ensures var (d, r) := OpInit(cfg, c, password, env);
            d.db.records == c.db.records && (r.Ok? ==> d.db.records == map[])
  {
    hide BuildEnvelope, EnvelopeFor, DeriveKeyring, Catalog.RootOf, Catalog.CoveredBy, RecordsOk, AnchorOk,
         IndexOk;
  }

  // ---- The step that loses a record ----------------------------------------------------------------------

  /** No row, in the vault or in any backup of it, is bound to another version than the one it is read with. */
  ghost predicate Readable(w: World) {
    !AnyStale(w.core.db, w.truth) && forall b | b in w.backups :: !AnyStale(b.snapshot, w.backups[b])
  }

  /** All an update request needs beyond admission. */
  predicate UpdateIsDue(cfg: Config, c: Core, id: Id, expected: U64, f: Fields, loginOnly: bool, env: Env) {
    && (loginOnly ==> LoginOnly(c, id).Ok?) && FieldsToMetadata(cfg.web, f).Some?
    && Records.UpdateGoesThrough(RecordStateOf(c), id, expected, FieldsToMetadata(cfg.web, f).value, f.secret,
         env.now, env.commits)
  }

  /**
   An admitted update that has all it needs, of a row whose key_version is not the active envelope version. Nothing
   here looks at what the update does or answers.
   */
  predicate UpdatesOldRow(cfg: Config, w: World, e: Event) {
    e.Incoming? && e.request.UpdateRecord? && e.conn in w.conns
    && Admit(w.core, w.conns[e.conn], OpOf(e.request), e.env).2.Ok?
    && UpdateIsDue(cfg, w.core, e.request.id, e.request.expected, e.request.fields, e.request.loginOnly, e.env)
    && w.core.db.records[e.request.id].keyVersion != w.core.vault.vault.active
  }

  lemma OpUpdateSucceedsExactly(cfg: Config, c: Core, id: Id, expected: U64, f: Fields, loginOnly: bool, env: Env)
    ensures OpUpdate(cfg, c, id, expected, f, loginOnly, env).1.Ok? <==>
            UpdateIsDue(cfg, c, id, expected, f, loginOnly, env)
  {
    hide Records.Update, Records.UpdateGoesThrough, FieldsToMetadata;
    if FieldsToMetadata(cfg.web, f).Some? {
      Records.UpdateSucceedsExactly(cfg.web, RecordStateOf(c), id, expected, FieldsToMetadata(cfg.web, f).value,
          f.secret, env.nonces, env.now, env.commits);
    }
  }

  lemma DueHasRow(cfg: Config, c: Core, id: Id, expected: U64, f: Fields, loginOnly: bool, env: Env)
    requires UpdateIsDue(cfg, c, id, expected, f, loginOnly, env)
    ensures id in c.db.records
  {
  }

  /** Admission does not change what an update needs. */
  lemma AdmittedUpdateIsDue(cfg: Config, c: Core, d: Core, id: Id, expected: U64, f: Fields, loginOnly: bool, env: Env)
    requires d.vault == c.vault && d.index == c.index && d.db.(events := c.db.events) == c.db
    ensures UpdateIsDue(cfg, d, id, expected, f, loginOnly, env) == UpdateIsDue(cfg, c, id, expected, f, loginOnly, env)
  {
    hide FieldsToMetadata, ValidRecord, Catalog.NextCounter;
  }

  /** So an update request succeeds exactly when it is admitted and has all it needs. */
  lemma UpdateRequestSucceedsExactly(cfg: Config, w: World, k: nat, id: Id, expected: U64, f: Fields, loginOnly: bool,
      env: Env)
    requires VaultInv(cfg, w) && k in w.conns
    ensures var req := UpdateRecord(id, expected, f, loginOnly);
            Handle(cfg, w.core, w.conns[k], req, env).2.Ok? <==>
            Admit(w.core, w.conns[k], OpOf(req), env).2.Ok? && UpdateIsDue(cfg, w.core, id, expected, f, loginOnly, env)
  {
    hide Admit, OpUpdate, UpdateIsDue, CoreOk, BackupOk;
    var req := UpdateRecord(id, expected, f, loginOnly);
    AdmitKeeps(cfg.web, w.core, w.conns[k], OpOf(req), env, w.truth);
    var d := Admit(w.core, w.conns[k], OpOf(req), env).0;
    OpUpdateSucceedsExactly(cfg, d, id, expected, f, loginOnly, env);
    AdmittedUpdateIsDue(cfg, w.core, d, id, expected, f, loginOnly, env);
  }

  lemma SameRowsSameStaleness(db: Database, db': Database, truth: Truth, truth': Truth)
    requires db'.records == db.records && truth'.sealings == truth.sealings
    ensures AnyStale(db', truth') == AnyStale(db, truth)
  {
    if AnyStale(db, truth) {
      var id :| id in db.records && id in truth.sealings && Stale(db, truth, id);
      assert Stale(db', truth', id);
    }
    if AnyStale(db', truth') {
      var id :| id in db'.records && id in truth'.sealings && Stale(db', truth', id);
      assert Stale(db, truth, id);
    }
  }

  lemma CreateStaysReadable(cfg: Config, w: World, c: Core, f: Fields, loginOnly: bool, env: Env)
    requires !AnyStale(c.db, w.truth) && c.vault == w.core.vault
    ensures var (d, r) := OpCreate(cfg, c, f, loginOnly, env);
            !AnyStale(d.db, CommittedBy(cfg, w, CreateRecord(f, loginOnly), env, r))
  {
    hide Records.Create;
    var meta := FieldsToMetadata(cfg.web, f);
    var (d, r) := OpCreate(cfg, c, f, loginOnly, env);
    if meta.Some? {
      CreateAddsRow(cfg.web, RecordStateOf(c), if f.kind == "" || loginOnly then "login" else f.kind, meta.value,
          f.secret, env.id, env.nonces, env.now, env.commits);
    }
    var t := CommittedBy(cfg, w, CreateRecord(f, loginOnly), env, r);
    forall id | id in d.db.records && id in t.sealings ensures !Stale(d.db, t, id) {
      if id in c.db.records && id in w.truth.sealings && !(r.Ok? && id == env.id) { assert !Stale(c.db, w.truth, id); }
    }
  }

  lemma UpdateLosesOldRow(cfg: Config, w: World, c: Core, id: Id, expected: U64, f: Fields, loginOnly: bool, env: Env)
    requires CoreOk(cfg.web, c, w.truth) && !AnyStale(c.db, w.truth) && c.vault == w.core.vault
             && c.index == w.core.index
    ensures var (d, r) := OpUpdate(cfg, c, id, expected, f, loginOnly, env);
            AnyStale(d.db, CommittedBy(cfg, w, UpdateRecord(id, expected, f, loginOnly), env, r))
            <==> r.Ok? && id in c.db.records && c.db.records[id].keyVersion != c.vault.vault.active
  {
    hide CoreOk, Records.Update;
    ParsedUrls(cfg.web, f);
    var meta := FieldsToMetadata(cfg.web, f);
    var (d, r) := OpUpdate(cfg, c, id, expected, f, loginOnly, env);
    var t := CommittedBy(cfg, w, UpdateRecord(id, expected, f, loginOnly), env, r);
    if meta.Some? {
      UpdateKeeps(cfg, c, id, expected, meta.value, f.secret, env.nonces, env.now, env.commits, w.truth);
    }
    if r.Ok? {
      assert id in d.db.records && id in t.sealings;
      assert Stale(d.db, t, id) == (c.db.records[id].keyVersion != c.vault.vault.active);
      forall x | x in d.db.records && x in t.sealings && x != id ensures !Stale(d.db, t, x) {
        assert !Stale(c.db, w.truth, x);
      }
    } else {
      assert d.db == c.db && t == w.truth;
    }
  }

  lemma DeleteStaysReadable(cfg: Config, w: World, c: Core, id: Id, env: Env)
    requires CoreOk(cfg.web, c, w.truth) && !AnyStale(c.db, w.truth)
    ensures var (d, r) := OpDelete(cfg, c, id, env);
            !AnyStale(d.db, CommittedBy(cfg, w, DeleteRecord(id), env, r))
  {
    hide CoreOk, Records.Delete;
    DeleteKeeps(cfg, c, id, env.commits, w.truth);
    var (d, r) := OpDelete(cfg, c, id, env);
    var t := CommittedBy(cfg, w, DeleteRecord(id), env, r);
    forall x | x in d.db.records && x in t.sealings ensures !Stale(d.db, t, x) {
      assert !Stale(c.db, w.truth, x);
    }
  }

  lemma DispatchStaleness(cfg: Config, w: World, c: Core, conn: Conn, req: Request, env: Env)
    requires CoreOk(cfg.web, c, w.truth) && !AnyStale(c.db, w.truth) && c.vault == w.core.vault
             && c.index == w.core.index
    requires forall b | b in w.backups :: BackupOk(cfg.web, b, w.backups[b]) && !AnyStale(b.snapshot, w.backups[b])
    requires req.RestoreBackup? && req.container.macKey.Some? ==> req.container in w.backups
    ensures var (d, _, r) := Dispatch(cfg, c, conn, req, env);
            AnyStale(d.db, CommittedBy(cfg, w, req, env, r)) <==>
              && req.UpdateRecord? && r.Ok? && req.id in c.db.records
              && c.db.records[req.id].keyVersion != c.vault.vault.active
  {
    hide CoreOk, BackupOk, OpUnlock, OpStatus, OpInit, OpLock, OpChangePassword, OpDestroy, OpCreate, OpUpdate,
         OpDelete, OpClaim, OpCancel, OpPair, OpApprove, OpRevoke, OpCreateBackup, OpRestore, Records.Reveal,
         Records.RevealForOrigin, FieldsToMetadata, AnyStale;
    var (d, _, r) := Dispatch(cfg, c, conn, req, env);
    var t := CommittedBy(cfg, w, req, env, r);
    match req
    case InitVault(password) =>
      InitEmptiesRecords(cfg, c, password, env, w.truth);
      if r.Ok? { NoRowsNoneStale(d.db, t); } else { SameRowsSameStaleness(c.db, d.db, w.truth, t); }
    case DestroyVault(password) =>
      DestroyedRecords(c, password, env);
      if r.Ok? { NoRowsNoneStale(d.db, t); } else { SameRowsSameStaleness(c.db, d.db, w.truth, t); }
    case CreateRecord(f, loginOnly) => CreateStaysReadable(cfg, w, c, f, loginOnly, env);
    case UpdateRecord(id, expected, f, loginOnly) => UpdateLosesOldRow(cfg, w, c, id, expected, f, loginOnly, env);
    case DeleteRecord(id) => DeleteStaysReadable(cfg, w, c, id, env);
    case RestoreBackup(b) =>
      OpRestoreKeeps(cfg.web, c, b, env, w.truth, w.backups);
      RestoreRefused(c, b, env);
      if r.Ok? {
        SameRowsSameStaleness(b.snapshot, d.db, w.backups[b], t);
      } else {
        SameRowsSameStaleness(c.db, d.db, w.truth, t);
      }
    case _ =>
      OthersLeaveRecords(cfg, c, conn, req, env);
      SameRowsSameStaleness(c.db, d.db, w.truth, t);
  }

  lemma NoRowsNoneStale(db: Database, truth: Truth)
    requires db.records == map[]
    ensures !AnyStale(db, truth)
  {
  }

  lemma DestroyedRecords(c: Core, password: string, env: Env)
    ensures var (d, r) := OpDestroy(c, password, env);
            if r.Ok? then d.db == EMPTY else d.db == c.db
  {
    hide Unwrap;
  }

  lemma RestoreRefused(c: Core, b: Container, env: Env)
    ensures OpRestore(c, b, env).1.Err? ==> OpRestore(c, b, env).0.db == c.db
  {
  }

  /**
   The only step after which some record cannot be read back is a committed update of a row whose stored key_version
   differs from the active envelope version; and that step always loses it.
   */
  lemma OnlyUpdatingAnOldRowLosesARecord(cfg: Config, w: World, e: Event)
    requires VaultInv(cfg, w) && Possible(w, e) && Readable(w)
    ensures Readable(Next(cfg, w, e)) <==> !UpdatesOldRow(cfg, w, e)
  {
    hide CoreOk, BackupOk, Admit, Dispatch, Connect, OpLock, AnyStale, CommittedBy, Logged, FreshIds, FreshEnv;
    match e
    case Connection(k, peer, env) =>
      ConnectKeeps(cfg.web, w.core, peer, env, w.truth);
      if Connect(w.core, peer, env).Some? {
        SameRowsSameStaleness(w.core.db, Connect(w.core, peer, env).value.0.db, w.truth, w.truth);
      }
    case Incoming(k, req, env) => HandleStaleness(cfg, w, k, req, env);
    case IdleLock(env) =>
      LockRecords(w.core, false, env);
      SameRowsSameStaleness(w.core.db, OpLock(w.core, false, env).0.db, w.truth, w.truth);
    case Restart =>
  }

  lemma LockRecords(c: Core, panic: bool, env: Env)
    ensures OpLock(c, panic, env).0.db.records == c.db.records
  {
  }

  lemma ErrCommitsNothing(cfg: Config, w: World, req: Request, env: Env, reply: Result<Reply>)
    ensures reply.Err? ==> CommittedBy(cfg, w, req, env, reply) == w.truth
  {
  }

  lemma HandleStaleness(cfg: Config, w: World, k: nat, req: Request, env: Env)
    requires VaultInv(cfg, w) && Possible(w, Incoming(k, req, env)) && Readable(w)
    ensures Readable(Next(cfg, w, Incoming(k, req, env))) <==> !UpdatesOldRow(cfg, w, Incoming(k, req, env))
  {
    hide UpdateIsDue, CoreOk, BackupOk, Admit, Dispatch, AnyStale, CommittedBy, Logged, FreshIds, FreshEnv;
    var c := w.core;
    AdmitKeeps(cfg.web, c, w.conns[k], OpOf(req), env, w.truth);
    HandleKeeps(cfg, w, w.conns[k], req, env);
    var (d, next, admitted) := Admit(c, w.conns[k], OpOf(req), env);
    SameRowsSameStaleness(c.db, d.db, w.truth, w.truth);
    if admitted.Ok? {
      DispatchStaleness(cfg, w, d, next, req, env);
    } else {
      ErrCommitsNothing(cfg, w, req, env, Err(admitted.error));
    }
    if req.UpdateRecord? {
      UpdateRequestSucceedsExactly(cfg, w, k, req.id, req.expected, req.fields, req.loginOnly, env);
      if UpdateIsDue(cfg, c, req.id, req.expected, req.fields, req.loginOnly, env) {
        DueHasRow(cfg, c, req.id, req.expected, req.fields, req.loginOnly, env);
      }
    }
    var reply := Handle(cfg, c, w.conns[k], req, env).2;
    if reply.Ok? && reply.value.Written? {
      SameRowsSameStaleness(c.db, reply.value.container.snapshot, w.truth, w.truth);
    }
  }

  // ---- Whole runs ------------------------------------------------------------------------------------------

  predicate NoOldRowUpdated(cfg: Config, w: World, es: seq<Event>) {
    || es == []
    || (NoOldRowUpdated(cfg, w, es[..|es| - 1])
        && !UpdatesOldRow(cfg, Run(cfg, w, es[..|es| - 1]), es[|es| - 1]))
  }

  lemma {:induction false} RunStaysReadable(cfg: Config, w: World, es: seq<Event>)
    requires VaultInv(cfg, w) && Readable(w) && PossibleRun(cfg, w, es) && NoOldRowUpdated(cfg, w, es)
    ensures Readable(Run(cfg, w, es))
  {
    hide VaultInv, Readable, Possible, Next, UpdatesOldRow;
    if es != [] {
      RunStaysReadable(cfg, w, es[..|es| - 1]);
      RunKeeps(cfg, w, es[..|es| - 1]);
      OnlyUpdatingAnOldRowLosesARecord(cfg, Run(cfg, w, es[..|es| - 1]), es[|es| - 1]);
    }
  }

  /** Through any such run every row reveals the secret last committed for it, and the whole index reloads. */
  lemma EveryRecordIsRecovered(cfg: Config, w: World, es: seq<Event>)
    requires Start(cfg, w) && !AnyStale(w.core.db, w.truth) && PossibleRun(cfg, w, es) && NoOldRowUpdated(cfg, w, es)
    ensures var end := Run(cfg, w, es);
            HasKeys(end.core.vault) ==>
              && end.core.db.records.Keys == end.truth.sealings.Keys
              && (forall id | id in end.core.db.records ::
                    Records.Reveal(RecordStateOf(end.core), id) == Ok(end.truth.sealings[id].secret))
              && Records.LoadIndex(cfg.web, RecordStateOf(end.core)).1 == Ok(())
  {
    hide DbOk, Agrees, EntryOk, DeriveKeyring, Records.Reveal, Records.LoadIndex, PossibleRun, Run,
         NoOldRowUpdated;
    StartKeeps(cfg, w);
    StartReadable(cfg, w);
    RunKeeps(cfg, w, es);
    RunStaysReadable(cfg, w, es);
    var end := Run(cfg, w, es);
    if HasKeys(end.core.vault) {
      forall id | id in end.core.db.records
        ensures Records.Reveal(RecordStateOf(end.core), id) == Ok(end.truth.sealings[id].secret)
      {
        RevealKnown(cfg.web, end.core, end.truth, id);
        assert !Stale(end.core.db, end.truth, id);
      }
      LoadIndexKnown(cfg.web, end.core, end.truth);
    }
  }

  lemma StartReadable(cfg: Config, w: World)
    requires Start(cfg, w) && !AnyStale(w.core.db, w.truth)
    ensures Readable(w)
  {
    hide DbOk, AnyStale;
  }

  lemma UnlocksExactly(cfg: Config, c: Core, conn: Conn, password: string, env: Env, truth: Truth)
    requires CoreOk(cfg.web, c, truth) && !AnyStale(c.db, truth)
    ensures OpUnlock(cfg, c, conn, password, env).2.Ok? <==>
              && (c.vault.nextUnlockAt.Some? ==> env.now >= c.vault.nextUnlockAt.value)
              && c.db.vault.Some? && password == truth.password
              && (c.db.anchor.Some? || env.commits)
  {
    hide CoreOk, OpUnlock, AnyStale;
    OpUnlockKeeps(cfg, c, conn, password, env, truth);
  }

  /** Unlocking after such a run: only throttling, a missing vault, a wrong password or failing I/O stop it. */
  lemma UnlockSucceedsExactly(cfg: Config, w: World, es: seq<Event>, conn: Conn, password: string, env: Env)
    requires Start(cfg, w) && !AnyStale(w.core.db, w.truth) && PossibleRun(cfg, w, es) && NoOldRowUpdated(cfg, w, es)
    ensures var end := Run(cfg, w, es);
            OpUnlock(cfg, end.core, conn, password, env).2.Ok? <==>
              && (end.core.vault.nextUnlockAt.Some? ==> env.now >= end.core.vault.nextUnlockAt.value)
              && end.core.db.vault.Some? && password == end.truth.password
              && (end.core.db.anchor.Some? || env.commits)
  {
    hide DbOk, OpUnlock, PossibleRun, Run, NoOldRowUpdated, CoreOk, Throttled, AnyStale;
    StartKeeps(cfg, w);
    StartReadable(cfg, w);
    RunKeeps(cfg, w, es);
    RunStaysReadable(cfg, w, es);
    UnlocksExactly(cfg, Run(cfg, w, es).core, conn, password, env, Run(cfg, w, es).truth);
  }

  /** The change of password on a vault in order: what it needs, and which version is active after it. */
  lemma ChangePasswordSucceedsExactly(cfg: Config, c: Core, current: string, next: string, env: Env, truth: Truth)
    requires CoreOk(cfg.web, c, truth)
    ensures var (d, r) := OpChangePassword(cfg, c, current, next, env);
            && (r.Ok? <==> cfg.strong(next) && c.db.vault.Some? && current == truth.password
                           && ParamsValid(cfg.params) && Catalog.NextCounter(c.db.anchor) <= MAX_INT64 && env.commits)
            && (r.Ok? ==> d.db.vault == Some(c.db.vault.value.(active := (c.db.vault.value.active + 1) % 0x1_0000_0000))
                          && !d.vault.vault.unlocked)
  {
    hide EnvelopeFor, Unwrap, ParamsValid, DeriveKeyring, Catalog.RootOf, Catalog.CoveredBy, RecordsOk,
         AnchorOk, IndexOk, Catalog.StampOf, Seal, EnvelopeAad;
    LoadKeeps(cfg.web, c, truth);
    if c.db.vault.Some? {
      var row := c.db.vault.value;
      UnwrapKnows(row.id, row.active, truth, c.db.envelopes[row.active], current);
      if ParamsValid(cfg.params) {
        var version := NextVersion(row.active);
        var e := BuildEnvelope(row.id, version, truth.root, next, cfg.params, env.envelope).value;
        var a := InsertKeyEnvelope(c.db, version, e).value;
        var tx := DeleteKeyEnvelope(SetActiveEnvelope(a, version), row.active);
        Catalog.StampFailsExactly(tx, DeriveKeyring(truth.root).catalog, row.id, version);
        StampLeavesTables(tx, DeriveKeyring(truth.root).catalog, row.id, version);
      }
    }
  }

  // ---- What a lost record leads to --------------------------------------------------------------------------

  /** Locked, with a row that does not open. */
  predicate Stuck(w: World) {
    !w.core.vault.vault.unlocked && AnyStale(w.core.db, w.truth)
  }

  lemma UnlockStuck(cfg: Config, c: Core, conn: Conn, password: string, env: Env, truth: Truth)
    requires CoreOk(cfg.web, c, truth) && !c.vault.vault.unlocked && AnyStale(c.db, truth)
    ensures var (d, _, r) := OpUnlock(cfg, c, conn, password, env);
            r.Err? && !d.vault.vault.unlocked && d.db.records == c.db.records
  {
    hide DbOk, AnyStale, IndexOk, Records.LoadIndex, DeriveKeyring, OpenEnvelope, Catalog.VerdictOn,
         Catalog.StampOf;
    OpUnlockKeeps(cfg, c, conn, password, env, truth);
  }

  lemma ChangePasswordStuck(v: VaultState, db: Database, current: string, next: string, p: Params, r: EnvelopeNoise,
      commits: bool)
    requires !v.vault.unlocked
    ensures !Vault.ChangePassword(v, db, current, next, p, r, commits).0.vault.unlocked
  {
    hide Unwrap, BuildEnvelope, DeriveKeyring, Catalog.StampOf;
  }

  lemma WritesNeedKeys(cfg: Config, c: Core, req: Request, env: Env)
    requires !c.vault.vault.unlocked
    requires req.CreateRecord? || req.UpdateRecord? || req.DeleteRecord? || req.RestoreBackup?
    ensures var (d, r) := DispatchRest(cfg, c, Conn(None, 0, false, []), req, env);
            d == c && r.Err?
  {
    hide FieldsToMetadata, Records.SealedRow, ValidRecord, Catalog.StampOf, PutEntry, RemoveEntry, Recorded,
         LockedCore, ResetCore, Tables.UpdateRecord, Tables.DeleteRecord, Tables.InsertRecord;
  }

  lemma InitAndDestroyStayLocked(cfg: Config, c: Core, req: Request, env: Env)
    requires !c.vault.vault.unlocked && (req.InitVault? || req.DestroyVault?)
    ensures !DispatchRest(cfg, c, Conn(None, 0, false, []), req, env).0.vault.vault.unlocked
  {
    hide Unwrap, BuildEnvelope, DeriveKeyring, Catalog.StampOf, ParamsValid, InsertSecurityEvent;
  }

  lemma StaysLocked(cfg: Config, c: Core, conn: Conn, req: Request, env: Env)
    requires !c.vault.vault.unlocked && !req.UnlockVault?
    ensures var (d, _, r) := Dispatch(cfg, c, conn, req, env);
            !d.vault.vault.unlocked && (!req.InitVault? && !req.DestroyVault? ==> d.db.records == c.db.records)
            && (req.CreateRecord? || req.UpdateRecord? || req.DeleteRecord? || req.RestoreBackup? ==> r.Err?)
  {
    hide Unwrap, BuildEnvelope, DeriveKeyring, Catalog.StampOf, Records.Reveal, Records.RevealForOrigin,
         Vault.ChangePassword, OpInit, OpDestroy, OpCreate, OpUpdate, OpDelete, OpRestore, Access.ClientFor,
         Access.RequestPairing, Access.Claim, Access.Cancel, WithoutClient, UpdateClientStatus, ParamsValid;
    match req
    case InitVault(_) => InitAndDestroyStayLocked(cfg, c, req, env);
    case DestroyVault(_) => InitAndDestroyStayLocked(cfg, c, req, env);
    case ChangeMaster(current, next) =>
      ChangePasswordStuck(c.vault, c.db, current, next, cfg.params, env.envelope, env.commits);
      ChangePasswordLeavesRecords(c.vault, c.db, current, next, cfg.params, env.envelope, env.commits);
    case CreateRecord(_, _) => WritesNeedKeys(cfg, c, req, env);
    case UpdateRecord(_, _, _, _) => WritesNeedKeys(cfg, c, req, env);
    case DeleteRecord(_) => WritesNeedKeys(cfg, c, req, env);
    case RestoreBackup(_) => WritesNeedKeys(cfg, c, req, env);
    case _ =>
  }

  lemma DispatchStuck(cfg: Config, w: World, c: Core, conn: Conn, req: Request, env: Env)
    requires CoreOk(cfg.web, c, w.truth) && !c.vault.vault.unlocked && AnyStale(c.db, w.truth)
    ensures var (d, _, r) := Dispatch(cfg, c, conn, req, env);
            !d.vault.vault.unlocked && (d.db == EMPTY || AnyStale(d.db, CommittedBy(cfg, w, req, env, r)))
            && (d.db == EMPTY ==> req.DestroyVault?) && (req.UnlockVault? ==> r.Err?)
  {
    hide CoreOk, OpUnlock, OpStatus, OpInit, OpLock, OpChangePassword, OpDestroy, OpCreate, OpUpdate, OpDelete,
         OpClaim, OpCancel, OpPair, OpApprove, OpRevoke, OpCreateBackup, OpRestore, Records.Reveal,
         Records.RevealForOrigin, FieldsToMetadata, AnyStale;
    var (d, _, r) := Dispatch(cfg, c, conn, req, env);
    var t := CommittedBy(cfg, w, req, env, r);
    StaleHasVault(cfg.web, c, w.truth);
    match req
    case UnlockVault(password) =>
      UnlockStuck(cfg, c, conn, password, env, w.truth);
      SameRowsSameStaleness(c.db, d.db, w.truth, t);
    case InitVault(password) =>
      InitOverVault(cfg, c, password, env, w.truth);
      StaysLocked(cfg, c, conn, req, env);
      SameRowsSameStaleness(c.db, d.db, w.truth, t);
    case DestroyVault(password) =>
      DestroyedRecords(c, password, env);
      StaysLocked(cfg, c, conn, req, env);
      SameRowsSameStaleness(c.db, c.db, w.truth, t);
    case _ =>
      StaysLocked(cfg, c, conn, req, env);
      SameRowsSameStaleness(c.db, d.db, w.truth, t);
  }

  lemma StaleHasVault(web: Web, c: Core, truth: Truth)
    requires CoreOk(web, c, truth) && AnyStale(c.db, truth)
    ensures c.db.vault.Some? && c.db.records != map[] && c.db != EMPTY
  {
    hide AnchorOk, RecordsOk, EnvelopeFor, IndexOk;
  }

  lemma InitOverVault(cfg: Config, c: Core, password: string, env: Env, truth: Truth)
    requires CoreOk(cfg.web, c, truth) && c.db.vault.Some?
    ensures OpInit(cfg, c, password, env).1.Err? && OpInit(cfg, c, password, env).0.db == c.db
  {
    LoadKeeps(cfg.web, c, truth);
  }

  /** Once locked with a lost record, every unlock fails, whatever is asked, until the vault is destroyed. */
  lemma LostRecordLocksTheVaultForGood(cfg: Config, w: World, e: Event)
    requires VaultInv(cfg, w) && Possible(w, e) && Stuck(w)
    ensures Stuck(Next(cfg, w, e)) || (Next(cfg, w, e).core.db == EMPTY && e.Incoming? && e.request.DestroyVault?)
    ensures e.Incoming? && e.request.UnlockVault? ==> Handle(cfg, w.core, w.conns[e.conn], e.request, e.env).2.Err?
  {
    hide CoreOk, BackupOk, Admit, Dispatch, Connect, OpLock, AnyStale, CommittedBy, Logged, FreshIds, FreshEnv;
    match e
    case Connection(k, peer, env) =>
      ConnectKeeps(cfg.web, w.core, peer, env, w.truth);
      ConnectVault(w.core, peer, env);
      if Connect(w.core, peer, env).Some? {
        SameRowsSameStaleness(w.core.db, Connect(w.core, peer, env).value.0.db, w.truth, w.truth);
      }
    case Incoming(k, req, env) =>
      AdmitKeeps(cfg.web, w.core, w.conns[k], OpOf(req), env, w.truth);
      var (d, next, admitted) := Admit(w.core, w.conns[k], OpOf(req), env);
      SameRowsSameStaleness(w.core.db, d.db, w.truth, w.truth);
      if admitted.Ok? {
        DispatchStuck(cfg, w, d, next, req, env);
      } else {
        ErrCommitsNothing(cfg, w, req, env, Err(admitted.error));
      }
    case IdleLock(env) =>
    case Restart =>
      SameRowsSameStaleness(w.core.db, Next(cfg, w, e).core.db, w.truth, w.truth);
  }

  lemma {:induction false} LostRecordLocksEveryRun(cfg: Config, w: World, es: seq<Event>)
    requires VaultInv(cfg, w) && PossibleRun(cfg, w, es) && Stuck(w)
    requires forall e | e in es :: !(e.Incoming? && e.request.DestroyVault?)
    ensures Stuck(Run(cfg, w, es))
  {
    hide VaultInv, Stuck, Possible, Next;
    if es != [] {
      LostRecordLocksEveryRun(cfg, w, es[..|es| - 1]);
      RunKeeps(cfg, w, es[..|es| - 1]);
      LostRecordLocksTheVaultForGood(cfg, Run(cfg, w, es[..|es| - 1]), es[|es| - 1]);
    }
  }

  lemma ConnectVault(c: Core, peer: Peer, env: Env)
    ensures Connect(c, peer, env).Some? ==> Connect(c, peer, env).value.0.vault == c.vault
  {
  }

  // ---- The index against the rows --------------------------------------------------------------------------------

  /**
   While unlocked, the index is what LoadIndex would rebuild, up to the stored precision of instants not yet
   reloaded.
   */
  lemma IndexIsWhatWouldBeRebuilt(cfg: Config, w: World, es: seq<Event>)
    requires Start(cfg, w) && !AnyStale(w.core.db, w.truth) && PossibleRun(cfg, w, es) && NoOldRowUpdated(cfg, w, es)
    ensures var c := Run(cfg, w, es).core;
            HasKeys(c.vault) ==>
              && Records.LoadIndex(cfg.web, RecordStateOf(c)).1 == Ok(())
              && var rebuilt := Records.LoadIndex(cfg.web, RecordStateOf(c)).0.index;
              && rebuilt.entries.Keys == c.index.entries.Keys == c.db.records.Keys
              && forall id | id in c.index.entries ::
                   && rebuilt.entries[id].kind == c.index.entries[id].kind
                   && rebuilt.entries[id].revision == c.index.entries[id].revision == c.db.records[id].revision
                   && Stored(rebuilt.entries[id].meta) == Stored(c.index.entries[id].meta)
  {
    hide DbOk, Agrees, Stored, DeriveKeyring, Records.LoadIndex, PossibleRun, Run, NoOldRowUpdated;
    StartKeeps(cfg, w);
    StartReadable(cfg, w);
    RunKeeps(cfg, w, es);
    RunStaysReadable(cfg, w, es);
    var end := Run(cfg, w, es);
    if HasKeys(end.core.vault) {
      LoadIndexKnown(cfg.web, end.core, end.truth);
      forall id | id in end.core.db.records ensures !Stale(end.core.db, end.truth, id) {
        assert id in end.truth.sealings;
      }
      var rebuilt := Records.LoadIndex(cfg.web, RecordStateOf(end.core)).0.index;
      forall id | id in end.core.index.entries
        ensures EntryOk(cfg.web, end.core.index.entries[id], end.core.db.records[id], end.truth.sealings[id])
        ensures EntryOk(cfg.web, rebuilt.entries[id], end.core.db.records[id], end.truth.sealings[id])
      {
      }
    }
  }

  /** In such a run no answer of any kind accuses the stored data. */
  lemma NoReplyAccuses(cfg: Config, w: World, es: seq<Event>, k: nat, req: Request, env: Env)
    requires Start(cfg, w) && !AnyStale(w.core.db, w.truth) && PossibleRun(cfg, w, es) && NoOldRowUpdated(cfg, w, es)
    requires Possible(Run(cfg, w, es), Incoming(k, req, env))
    ensures var end := Run(cfg, w, es);
            Handle(cfg, end.core, end.conns[k], req, env).2 != Err(IntegrityFailure)
  {
    hide Handle, PossibleRun, Run, NoOldRowUpdated, CoreOk, BackupOk, FreshEnv, Start;
    StartKeeps(cfg, w);
    StartReadable(cfg, w);
    RunKeeps(cfg, w, es);
    RunStaysReadable(cfg, w, es);
    var end := Run(cfg, w, es);
    HandleKeeps(cfg, end, end.conns[k], req, env);
  }
}
