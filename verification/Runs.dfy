/** One step after another: what every run of the daemon keeps, and when a record can no longer be read. */
module Runs {
  import opened Octets
  import opened Tables
  import opened Origins
  import opened RecordIndex
  import opened Codec
  import opened Sessions
  import opened Vault
  import opened Daemon
  import opened History
  import opened NoFalseAlarm
  import Access
  import Catalog
  import Records

  // ---- Every operation keeps the vault in order --------------------------------------------------------

  lemma ParsedUrls(web: Web, f: Fields)
    ensures FieldsToMetadata(web, f).Some? ==> WellParsed(web, FieldsToMetadata(web, f).value.urls)
  {
    NewLoginUrlsParse(web, EntriesOf(f.urlEntries, f.urls));
  }

  lemma OpCreateKeeps(cfg: Config, w: World, c: Core, f: Fields, loginOnly: bool, env: Env)
    requires CoreOk(cfg.web, c, w.truth) && c.vault == w.core.vault
    ensures var (d, r) := OpCreate(cfg, c, f, loginOnly, env);
            CoreOk(cfg.web, d, CommittedBy(cfg, w, CreateRecord(f, loginOnly), env, r)) && r != Err(IntegrityFailure)
            && (r.Ok? ==> !r.value.Written?)
  {
    hide CoreOk, Records.Create;
    ParsedUrls(cfg.web, f);
    var meta := FieldsToMetadata(cfg.web, f);
    if meta.Some? {
      CreateKeeps(cfg, c, if f.kind == "" || loginOnly then "login" else f.kind, meta.value, f.secret, env.id,
          env.nonces, env.now, env.commits, w.truth);
      assert WithRecords(c, RecordStateOf(c)) == c;
    }
  }

  lemma OpUpdateKeeps(cfg: Config, w: World, c: Core, id: Id, expected: U64, f: Fields, loginOnly: bool, env: Env)
    requires CoreOk(cfg.web, c, w.truth) && c.vault == w.core.vault && c.index == w.core.index
    ensures var (d, r) := OpUpdate(cfg, c, id, expected, f, loginOnly, env);
            CoreOk(cfg.web, d, CommittedBy(cfg, w, UpdateRecord(id, expected, f, loginOnly), env, r))
                && r != Err(IntegrityFailure)
            && (r.Ok? ==> !r.value.Written?)
  {
    hide CoreOk, Records.Update;
    ParsedUrls(cfg.web, f);
    var meta := FieldsToMetadata(cfg.web, f);
    if meta.Some? {
      UpdateKeeps(cfg, c, id, expected, meta.value, f.secret, env.nonces, env.now, env.commits, w.truth);
      assert WithRecords(c, RecordStateOf(c)) == c;
    }
  }

  lemma OpDeleteKeeps(cfg: Config, w: World, c: Core, id: Id, env: Env)
    requires CoreOk(cfg.web, c, w.truth)
    ensures var (d, r) := OpDelete(cfg, c, id, env);
            CoreOk(cfg.web, d, CommittedBy(cfg, w, DeleteRecord(id), env, r)) && r != Err(IntegrityFailure)
            && (r.Ok? ==> !r.value.Written?)
  {
    hide CoreOk, Records.Delete;
    DeleteKeeps(cfg, c, id, env.commits, w.truth);
    assert WithRecords(c, RecordStateOf(c)) == c;
  }

  lemma OpLockKeeps(web: Web, c: Core, panic: bool, env: Env, truth: Truth)
    requires CoreOk(web, c, truth)
    ensures CoreOk(web, OpLock(c, panic, env).0, truth)
  {
    hide CoreOk, LockedCore, Recorded;
    LockedKeeps(web, c, truth);
    RecordedKeeps(web, LockedCore(c), if panic then EVENT_PANIC_LOCKED else EVENT_LOCKED, env, truth);
  }

  lemma EmptyInOrder(web: Web, truth: Truth)
    ensures DbOk(web, EMPTY, truth)
  {
  }

  lemma OpDestroyKeeps(web: Web, c: Core, password: string, env: Env, truth: Truth)
    requires CoreOk(web, c, truth)
    ensures var (d, r) := OpDestroy(c, password, env);
            CoreOk(web, d, truth) && r != Err(IntegrityFailure)
                && (r.Ok? ==> r.value == Done && password == truth.password)
  {
    hide EnvelopeFor, Unwrap, RowOk, Agrees, EntryOk, DeriveKeyring, AnchorOk, RecordsOk;
    LoadKeeps(web, c, truth);
    if c.db.vault.Some? {
      var row := c.db.vault.value;
      UnwrapKnows(row.id, row.active, truth, c.db.envelopes[row.active], password);
      EmptyInOrder(web, truth);
      ResetKeeps(web, c.(vault := LoadVault(c.vault, c.db).value), EMPTY, truth);
    }
  }

  lemma OpCreateBackupKeeps(web: Web, c: Core, env: Env, truth: Truth)
    requires CoreOk(web, c, truth)
    ensures var (d, r) := OpCreateBackup(c, env);
            CoreOk(web, d, truth) && r != Err(IntegrityFailure)
            && (r.Ok? ==>
                  && r.value.Written? && BackupOk(web, r.value.container, truth)
                  && r.value.container.snapshot == c.db)
  {
    hide DbOk, IndexOk, DeriveKeyring, Recorded;
    RecordedKeeps(web, c, EVENT_BACKUP_CREATED, env, truth);
  }

  lemma OpRestoreKeeps(web: Web, c: Core, b: Container, env: Env, truth: Truth, backups: map<Container, Truth>)
    requires CoreOk(web, c, truth) && (forall x | x in backups :: BackupOk(web, x, backups[x]))
    requires b.macKey.Some? ==> b in backups
    ensures var (d, r) := OpRestore(c, b, env);
            CoreOk(web, d, if r.Ok? then backups[b] else truth) && r != Err(IntegrityFailure)
            && (r.Ok? ==> r.value == Done && b in backups && d.db.records == b.snapshot.records)
  {
    hide DbOk, IndexOk, DeriveKeyring, Recorded, LockedCore;
    LockedKeeps(web, c, truth);
    var (d, r) := OpRestore(c, b, env);
    if r.Ok? {
      assert BackupOk(web, b, backups[b]);
      ResetKeeps(web, LockedCore(c), b.snapshot, backups[b]);
      RecordedKeeps(web, ResetCore(LockedCore(c), b.snapshot), EVENT_BACKUP_RESTORED, env, backups[b]);
      EventsOnly(ResetCore(LockedCore(c), b.snapshot), EVENT_BACKUP_RESTORED, env);
    }
  }

  lemma EventsOnly(c: Core, code: int, env: Env)
    ensures Recorded(c, code, env).db.records == c.db.records
  {
  }

  /** Reading one secret: exactly what was last committed, unless the row is stale. */
  lemma RevealKnown(web: Web, c: Core, truth: Truth, id: Id)
    requires CoreOk(web, c, truth)
    ensures HasKeys(c.vault) && id in c.db.records ==> id in truth.sealings
    ensures Records.Reveal(RecordStateOf(c), id) ==
              if !HasKeys(c.vault) then Err(VaultLocked)
              else if id !in c.db.records then Err(RecordNotFound)
              else if Stale(c.db, truth, id) then Err(IntegrityFailure)
              else Ok(truth.sealings[id].secret)
  {
    hide BaseOk, AnchorOk, RowOk, Agrees, EntryOk, DeriveKeyring, Records.OpenSecret;
    if HasKeys(c.vault) && id in c.db.records {
      SecretKnown(web, c.vault, c.db.vault.value.id, id, c.db.records[id], truth.root, truth.sealings[id]);
    }
  }

  /** The only answers that accuse the stored data: a stale row that was read. */
  ghost predicate ReadsStaleRow(c: Core, req: Request, truth: Truth) {
    match req
    case UnlockVault(password) => password == truth.password && AnyStale(c.db, truth)
    case RevealRecord(id) => id in c.db.records && id in truth.sealings && Stale(c.db, truth, id)
    case RevealForOrigin(id, _, _) => id in c.db.records && id in truth.sealings && Stale(c.db, truth, id)
    case _ => false
  }

  /** Dispatch of any request on a vault in order, after admission touched at most sessions and events. */
  lemma DispatchKeeps(cfg: Config, w: World, c: Core, conn: Conn, req: Request, env: Env)
    requires CoreOk(cfg.web, c, w.truth) && c.vault == w.core.vault && c.index == w.core.index
    requires forall b | b in w.backups :: BackupOk(cfg.web, b, w.backups[b])
    requires req.RestoreBackup? && req.container.macKey.Some? ==> req.container in w.backups
    ensures var (d, _, r) := Dispatch(cfg, c, conn, req, env);
            && CoreOk(cfg.web, d, CommittedBy(cfg, w, req, env, r))
            && (r == Err(IntegrityFailure) ==> ReadsStaleRow(c, req, w.truth))
            && (r.Ok? && r.value.Written? ==>
                  && BackupOk(cfg.web, r.value.container, w.truth)
                  && r.value.container.snapshot == c.db)
  {
    hide CoreOk, BackupOk, OpUnlock, OpStatus, OpInit, OpLock, OpChangePassword, OpDestroy, OpCreate, OpUpdate,
         OpDelete, OpClaim, OpCancel, OpPair, OpApprove, OpRevoke, OpCreateBackup, OpRestore, Records.Reveal,
         Records.RevealForOrigin, FieldsToMetadata, Throttled, Stale, AnyStale;
    match req
    case UnlockVault(password) => OpUnlockKeeps(cfg, c, conn, password, env, w.truth);
    case Status => StatusKeeps(cfg.web, c, w.truth);
    case InitVault(password) => OpInitKeeps(cfg, c, password, env, w.truth);
    case LockVault(panic) => LockReply(c, panic, env); OpLockKeeps(cfg.web, c, panic, env, w.truth);
    case ChangeMaster(current, next) => OpChangePasswordKeeps(cfg, c, current, next, env, w.truth);
    case DestroyVault(password) => OpDestroyKeeps(cfg.web, c, password, env, w.truth);
    case CreateRecord(f, loginOnly) => OpCreateKeeps(cfg, w, c, f, loginOnly, env);
    case UpdateRecord(id, expected, f, loginOnly) => OpUpdateKeeps(cfg, w, c, id, expected, f, loginOnly, env);
    case DeleteRecord(id) => OpDeleteKeeps(cfg, w, c, id, env);
    case RevealRecord(id) => RevealKnown(cfg.web, c, w.truth, id);
    case RevealForOrigin(id, origin, projectId) =>
      RevealKnown(cfg.web, c, w.truth, id);
      OriginErrors(cfg.web, RecordStateOf(c), id, origin, projectId);
    case Pair(kind, name, key) => PairKeeps(cfg, c, conn, kind, name, key, env, w.truth);
    case Claim(id) => ClaimKeeps(cfg.web, c, id, w.truth);
    case CancelPairing(id) => CancelKeeps(cfg.web, c, id, w.truth);
    case Approve(id) => OpApproveKeeps(cfg, c, id, env, w.truth);
    case Revoke(id) => OpRevokeKeeps(cfg, c, id, env, w.truth);
    case CreateBackup => OpCreateBackupKeeps(cfg.web, c, env, w.truth);
    case RestoreBackup(b) => OpRestoreKeeps(cfg.web, c, b, env, w.truth, w.backups);
    case Query(_) =>
  }

  lemma LockReply(c: Core, panic: bool, env: Env)
    ensures OpLock(c, panic, env).1 == Ok(Done)
  {
  }

  lemma OriginErrors(web: Web, s: Records.RecordState, id: Id, origin: string, projectId: string)
    ensures Records.RevealForOrigin(web, s, id, origin, projectId) == Err(IntegrityFailure) ==>
            Records.Reveal(s, id) == Err(IntegrityFailure)
  {
    hide Records.Reveal;
  }

  lemma StatusKeeps(web: Web, c: Core, truth: Truth)
    requires CoreOk(web, c, truth)
    ensures CoreOk(web, OpStatus(c).0, truth) && OpStatus(c).1 == Ok(Done)
  {
    hide CoreOk;
    LoadKeeps(web, c, truth);
  }

  lemma PairKeeps(cfg: Config, c: Core, conn: Conn, kind: int, name: string, key: Blob, env: Env, truth: Truth)
    requires CoreOk(cfg.web, c, truth)
    ensures var (d, r) := OpPair(cfg, c, conn, kind, name, key, env);
            CoreOk(cfg.web, d, truth) && r != Err(IntegrityFailure) && (r.Ok? ==> !r.value.Written?)
  {
    hide CoreOk, Recorded;
    var (pending, r) := Access.RequestPairing(c.pending, cfg.shown, cfg.daemonKey, kind, name, key, env.id, env.now);
    PendingFree(cfg.web, c, c.sessions, pending, truth);
    RecordedKeeps(cfg.web, c.(sessions := c.sessions, pending := pending), EVENT_PAIRING_REQUESTED, env, truth);
  }

  lemma ClaimKeeps(web: Web, c: Core, id: Id, truth: Truth)
    requires CoreOk(web, c, truth)
    ensures CoreOk(web, OpClaim(c, id).0, truth) && OpClaim(c, id).1 != Err(IntegrityFailure)
            && (OpClaim(c, id).1.Ok? ==> !OpClaim(c, id).1.value.Written?)
  {
    hide CoreOk;
    PendingFree(web, c, c.sessions, Access.Claim(c.pending, id).0, truth);
  }

  lemma CancelKeeps(web: Web, c: Core, id: Id, truth: Truth)
    requires CoreOk(web, c, truth)
    ensures CoreOk(web, OpCancel(c, id).0, truth) && OpCancel(c, id).1 != Err(IntegrityFailure)
            && (OpCancel(c, id).1.Ok? ==> !OpCancel(c, id).1.value.Written?)
  {
    hide CoreOk;
    PendingFree(web, c, c.sessions, Access.Cancel(c.pending, id).0, truth);
  }

  // ---- Admission and connections -----------------------------------------------------------------------

  lemma AdmitKeeps(web: Web, c: Core, conn: Conn, op: Op, env: Env, truth: Truth)
    requires CoreOk(web, c, truth)
    ensures var (d, _, r) := Admit(c, conn, op, env);
            CoreOk(web, d, truth) && d.vault == c.vault && d.index == c.index && d.db.(events := c.db.events) == c.db
            && r != Err(IntegrityFailure)
  {
    hide CoreOk;
    if !conn.pairing && RequiredCapability(op).Some? {
      var (d, _, _) := Authorize(c, conn, op, RequiredCapability(op).value, env);
      PendingFree(web, c, d.sessions, c.pending, truth);
      RecordedKeeps(web, c.(sessions := d.sessions), EVENT_UNAUTHORIZED, env, truth);
    }
    RecordedKeeps(web, c, EVENT_UNAUTHORIZED, env, truth);
  }

  lemma ConnectKeeps(web: Web, c: Core, peer: Peer, env: Env, truth: Truth)
    requires CoreOk(web, c, truth)
    ensures Connect(c, peer, env).Some? ==>
              CoreOk(web, Connect(c, peer, env).value.0, truth)
                  && Connect(c, peer, env).value.0.db.records == c.db.records
  {
    hide CoreOk;
    if Connect(c, peer, env).Some? {
      var d := Connect(c, peer, env).value.0;
      if peer.hello.PairedHello? { LastSeenKeeps(web, c, peer.hello.clientId, env.now, truth); }
      var e := c.(db := d.db);
      PendingFree(web, e, d.sessions, d.pending, truth);
    }
  }

  lemma HandleKeeps(cfg: Config, w: World, conn: Conn, req: Request, env: Env)
    requires VaultInv(cfg, w)
    requires req.RestoreBackup? && req.container.macKey.Some? ==> req.container in w.backups
    ensures var (d, _, r) := Handle(cfg, w.core, conn, req, env);
            && CoreOk(cfg.web, d, CommittedBy(cfg, w, req, env, r))
            && (r == Err(IntegrityFailure) ==> ReadsStaleRow(w.core, req, w.truth))
            && (r.Ok? && r.value.Written? ==>
                  BackupOk(cfg.web, r.value.container, w.truth)
                      && r.value.container.snapshot.records == w.core.db.records)
  {
    hide CoreOk, BackupOk, Admit, Dispatch;
    AdmitKeeps(cfg.web, w.core, conn, OpOf(req), env, w.truth);
    var (d, next, admitted) := Admit(w.core, conn, OpOf(req), env);
    if admitted.Ok? {
      DispatchKeeps(cfg, w, d, next, req, env);
    }
  }

  lemma RestartKeeps(web: Web, c: Core, truth: Truth)
    requires DbOk(web, c.db, truth)
    ensures CoreOk(web, c.(vault := NEW_SERVICE, index := NO_ENTRIES, sessions := map[], pending := map[]), truth)
  {
    hide DbOk;
  }

  /** Every step the daemon can take keeps the vault in order. */
  lemma StepKeeps(cfg: Config, w: World, e: Event)
    requires VaultInv(cfg, w) && Possible(w, e)
    ensures VaultInv(cfg, Next(cfg, w, e))
  {
    hide CoreOk, BackupOk, Handle, Connect, OpLock, CommittedBy, Logged, FreshIds, FreshEnv;
    match e
    case Connection(k, peer, env) => ConnectKeeps(cfg.web, w.core, peer, env, w.truth);
    case Incoming(k, req, env) => HandleKeeps(cfg, w, w.conns[k], req, env);
    case IdleLock(env) => OpLockKeeps(cfg.web, w.core, false, env, w.truth);
    case Restart =>
      InOrderDb(cfg.web, w.core, w.truth);
      RestartKeeps(cfg.web, w.core, w.truth);
  }

  lemma InOrderDb(web: Web, c: Core, truth: Truth)
    requires CoreOk(web, c, truth)
    ensures DbOk(web, c.db, truth)
  {
  }

  lemma {:induction false} RunKeeps(cfg: Config, w: World, es: seq<Event>)
    requires VaultInv(cfg, w) && PossibleRun(cfg, w, es)
    ensures VaultInv(cfg, Run(cfg, w, es))
  {
    hide VaultInv, Possible, Next;
    if es != [] {
      RunKeeps(cfg, w, es[..|es| - 1]);
      StepKeeps(cfg, Run(cfg, w, es[..|es| - 1]), es[|es| - 1]);
    }
  }

  /** A started daemon satisfies the invariant. */
  lemma StartKeeps(cfg: Config, w: World)
    requires Start(cfg, w)
    ensures VaultInv(cfg, w)
  {
    hide DbOk, BackupOk;
  }

  /**
   No false alarm. After any run, the stored root is the root of the stored rows, the high-water mark is at most the
   stored counter, and the catalog check answers Ok or a storage error; it never accuses.
   */
  lemma NoRunAccusesItself(cfg: Config, w: World, es: seq<Event>, commits: bool)
    requires Start(cfg, w) && PossibleRun(cfg, w, es)
    ensures var c := Run(cfg, w, es).core;
            var truth := Run(cfg, w, es).truth;
            && AnchorOk(c.db, truth)
            && (c.db.anchor.Some? ==> c.vault.highWater <= c.db.anchor.value.counter)
            && Vault.VerifyCatalog(c.vault, c.db, commits).2 ==
                 if !HasKeys(c.vault) then Err(VaultLocked)
                 else if c.db.anchor.Some? then Ok(false)
                 else if commits then Ok(true) else Err(Storage)
  {
    hide EnvelopeFor, RowOk, Agrees, EntryOk, DeriveKeyring, Catalog.RootOf, Catalog.CoveredBy,
         Vault.VerifyCatalog, Start, PossibleRun, Run;
    StartKeeps(cfg, w);
    RunKeeps(cfg, w, es);
    var end := Run(cfg, w, es);
    VerifyAcquits(cfg.web, end.core, end.truth, commits);
  }

  /** Keys are held exactly while unlocked, and a locked daemon has no index. */
  lemma KeysOnlyWhileUnlocked(cfg: Config, w: World, es: seq<Event>)
    requires Start(cfg, w) && PossibleRun(cfg, w, es)
    ensures var c := Run(cfg, w, es).core;
            && (c.vault.vault.unlocked <==> c.vault.keyring.Some?)
            && (c.vault.vault.unlocked <==> c.vault.rootKey.Some?)
            && (c.vault.vault.unlocked ==>
                  c.vault.loaded && c.db.vault.Some? && c.index.entries.Keys == c.db.records.Keys)
            && (!c.vault.vault.unlocked ==> c.index == NO_ENTRIES)
            && Agrees(cfg.web, c.index)
  {
    hide DbOk, Agrees, EntryOk, DeriveKeyring, Start, PossibleRun, Run;
    StartKeeps(cfg, w);
    RunKeeps(cfg, w, es);
  }
}
