/** internal/daemon/handlers.go and server.go on values: one request, or one handshake, is one step. */
module Daemon {
  import opened Octets
  import opened Tables
  import opened Origins
  import opened RecordIndex
  import opened Codec
  import opened Sessions
  import opened Vault
  import Records
  import Access

  /** All daemon state a request can touch. */
  datatype Core = Core(
    db: Database, vault: VaultState, index: IndexView, sessions: SessionMap, pending: Access.PendingMap)

  const EMPTY_CORE := Core(EMPTY, NEW_SERVICE, NO_ENTRIES, map[], map[])

  /** connState. */
  datatype Conn = Conn(session: Option<Session>, clientId: Id, pairing: bool, staticKey: Blob)

  /** `strong` is the master-password policy. */
  datatype Config = Config(
    web: Web, shown: Access.Shown, daemonKey: Bytes, params: Params, strong: string -> bool)

  /**
   A parsed backup file; `macKey` is the key its HMAC verifies under, None for a file that verifies under none.
   */
  datatype Container = Container(vaultId: Id, snapshot: Database, macKey: Option<Key>)

  /** What the environment supplies while a request runs: clock, random values, and whether I/O succeeds. */
  datatype Env = Env(
    now: int, after: int, commits: bool, recorded: bool, installs: bool,
    sessionId: Id, reissueId: Id, init: InitNoise, envelope: EnvelopeNoise,
    id: Id, nonces: Records.Nonces, approval: Access.ApprovalNoise)

  datatype Op =
    | StatusOp | InitOp | UnlockOp | LockOp | PanicOp | ChangePasswordOp | DestroyOp
    | CreateOp | UpdateOp | DeleteOp | ListOp | SearchOp | ShowOp | RevealOp | MatchOp | RevealForOriginOp
    | CreateLoginOp | UpdateLoginOp | GenerateOp
    | PendingOp | ApproveOp | RevokeOp | ClientsOp | BackupCreateOp | BackupVerifyOp | BackupRestoreOp | EventsOp
    | PairOp | ClaimOp | CancelOp

  /** None: a pairing-channel operation. */
  function RequiredCapability(op: Op): Option<Capability> {
    match op
    case StatusOp => Some(VaultStatus) case InitOp => Some(ClientAdmin) case UnlockOp => Some(VaultUnlock)
    case LockOp => Some(VaultLock) case PanicOp => Some(VaultLock) case ChangePasswordOp => Some(PasswordChange)
    case DestroyOp => Some(VaultDestroy) case CreateOp => Some(RecordWrite) case UpdateOp => Some(RecordWrite)
    case DeleteOp => Some(RecordDelete) case ListOp => Some(RecordList) case SearchOp => Some(RecordList)
    case ShowOp => Some(RecordRead) case RevealOp => Some(RecordReveal) case MatchOp => Some(RecordMatch)
    case RevealForOriginOp => Some(RecordRevealForOrigin) case CreateLoginOp => Some(RecordCreateLogin)
    case UpdateLoginOp => Some(RecordUpdateLogin) case GenerateOp => Some(PasswordGenerate)
    case PendingOp => Some(ClientAdmin) case ApproveOp => Some(ClientAdmin) case RevokeOp => Some(ClientAdmin)
    case ClientsOp => Some(ClientAdmin) case BackupCreateOp => Some(BackupCreate)
    case BackupVerifyOp => Some(BackupCreate) case BackupRestoreOp => Some(BackupRestore)
    case EventsOp => Some(ClientAdmin)
    case PairOp => None case ClaimOp => None case CancelOp => None
  }

  predicate PairingChannelOp(op: Op) { op == PairOp || op == ClaimOp || op == CancelOp || op == StatusOp }
  predicate LockedStateOp(op: Op) { op == StatusOp || op == UnlockOp }
  predicate IdleExempt(op: Op) { op == StatusOp }

  /**
   `Query` stands for the operations that only read: list, search, show, match, generate, pending, clients, events,
   verify.
   */
  datatype Request =
    | Query(op: Op)
    | Status
    | InitVault(password: string)
    | UnlockVault(password: string)
    | LockVault(panic: bool)
    | ChangeMaster(current: string, next: string)
    | DestroyVault(password: string)
    | CreateRecord(fields: Fields, loginOnly: bool)
    | UpdateRecord(id: Id, expected: U64, fields: Fields, loginOnly: bool)
    | DeleteRecord(id: Id)
    | RevealRecord(id: Id)
    | RevealForOrigin(id: Id, origin: string, projectId: string)
    | Pair(kind: int, name: string, staticKey: Blob)
    | Claim(id: Id)
    | CancelPairing(id: Id)
    | Approve(id: Id)
    | Revoke(id: Id)
    | CreateBackup
    | RestoreBackup(container: Container)

  predicate QueryOp(op: Op) {
    op in {ListOp, SearchOp, ShowOp, MatchOp, GenerateOp, PendingOp, ClientsOp, EventsOp, BackupVerifyOp}
  }

  function OpOf(r: Request): Op {
    match r
    case Query(op) => if QueryOp(op) then op else ListOp
    case Status => StatusOp
    case InitVault(_) => InitOp
    case UnlockVault(_) => UnlockOp
    case LockVault(panic) => if panic then PanicOp else LockOp
    case ChangeMaster(_, _) => ChangePasswordOp
    case DestroyVault(_) => DestroyOp
    case CreateRecord(_, loginOnly) => if loginOnly then CreateLoginOp else CreateOp
    case UpdateRecord(_, _, _, loginOnly) => if loginOnly then UpdateLoginOp else UpdateOp
    case DeleteRecord(_) => DeleteOp
    case RevealRecord(_) => RevealOp
    case RevealForOrigin(_, _, _) => RevealForOriginOp
    case Pair(_, _, _) => PairOp
    case Claim(_) => ClaimOp
    case CancelPairing(_) => CancelOp
    case Approve(_) => ApproveOp
    case Revoke(_) => RevokeOp
    case CreateBackup => BackupCreateOp
    case RestoreBackup(_) => BackupRestoreOp
  }

  datatype Reply =
    | Done | NewRecord(id: Id) | Secrets(secret: Secret) | Filled(username: string, password: string)
    | PairingId(id: Id)
    | Credential(clientId: Id, credential: Blob)
    | Written(container: Container)

  const EVENT_CREATED := 100
  const EVENT_UNLOCKED := 101
  const EVENT_LOCKED := 102
  const EVENT_PANIC_LOCKED := 103
  const EVENT_PASSWORD_CHANGED := 104
  const EVENT_UNLOCK_FAILED := 105
  const EVENT_PAIRING_REQUESTED := 107
  const EVENT_APPROVED := 108
  const EVENT_REVOKED := 109
  const EVENT_UNAUTHORIZED := 111
  const EVENT_INTEGRITY_FAILURE := 112
  const EVENT_BACKUP_CREATED := 115
  const EVENT_BACKUP_RESTORED := 116
  const EVENT_BOOTSTRAPPED := 118

  /** Best effort: a failed insert is ignored. */
  function Recorded(c: Core, code: int, env: Env): Core {
    if env.recorded then c.(db := InsertSecurityEvent(c.db, code)) else c
  }

  /** Lock with its hooks: the index and every session go. */
  function LockedCore(c: Core): Core {
    c.(vault := Vault.Locked(c.vault), index := NO_ENTRIES, sessions := map[])
  }

  function ResetCore(c: Core, db: Database): Core {
    c.(db := db, vault := Vault.Reset(c.vault), index := NO_ENTRIES, sessions := map[])
  }

  // ---- Authorization --------------------------------------------------------------------------------

  function Authorize(c: Core, conn: Conn, op: Op, capability: Capability, env: Env): (Core, Conn, Result<()>) {
    if conn.session.None? then (c, conn, Err(AuthorizationDeny))
    else
      var epoch := c.vault.vault.epoch;
      var (sessions, alive) := Validated(c.sessions, conn.session.value.id, epoch, !IdleExempt(op), env.now);
      var d := c.(sessions := sessions);
      if alive then
        (d, conn, if Has(conn.session.value.mask, capability) then Ok(()) else Err(AuthorizationDeny))
      else if !c.vault.vault.unlocked && !LockedStateOp(op) then (d, conn, Err(AuthorizationDeny))
      else if conn.clientId != 0 && !Access.Approved(c.db, conn.clientId) then (d, conn, Err(AuthorizationDeny))
      else
        var mask := if conn.clientId != 0 then c.db.clients[conn.clientId].mask else conn.session.value.mask;
        var issued := NewSession(env.sessionId, conn.clientId, mask, epoch, env.now);
        (d.(sessions := d.sessions[env.sessionId := issued]), conn.(session := Some(issued)),
         if Has(mask, capability) then Ok(()) else Err(AuthorizationDeny))
  }

  // ---- Operations -----------------------------------------------------------------------------------

  function Acknowledge(r: Result<()>): Result<Reply> {
    match r case Ok(_) => Ok(Done) case Err(e) => Err(e)
  }

  function OpStatus(c: Core): (Core, Result<Reply>) {
    match LoadVault(c.vault, c.db)
    case Ok(l) => (c.(vault := l), Ok(Done))
    case Err(e) => (c, if e == VaultNotFound then Ok(Done) else Err(e))
  }

  function OpInit(cfg: Config, c: Core, password: string, env: Env): (Core, Result<Reply>) {
    if !cfg.strong(password) then (c, Err(Validation))
    else
      var (v, db, r) := Vault.Init(c.vault, c.db, password, cfg.params, env.init, env.commits);
      var d := c.(vault := v, db := db);
      (if r.Ok? then Recorded(d, EVENT_CREATED, env) else d, Acknowledge(r))
  }

  function OpUnlock(cfg: Config, c: Core, conn: Conn, password: string, env: Env): (Core, Conn, Result<Reply>) {
    var (v, r) := Vault.Unlock(c.vault, c.db, password, env.now, env.after);
    if r.Err? then (Recorded(c.(vault := v), EVENT_UNLOCK_FAILED, env), conn, Err(r.error))
    else
      var (s, loaded) := Records.LoadIndex(cfg.web, Records.RecordState(c.db, v, c.index));
      var d := c.(vault := v, index := s.index);
      if loaded.Err? then (Recorded(LockedCore(d), EVENT_INTEGRITY_FAILURE, env), conn, Err(loaded.error))
      else
        var (w, db, verified) := Vault.VerifyCatalog(v, c.db, env.commits);
        var e := d.(vault := w, db := db);
        if verified.Err? then (Recorded(LockedCore(e), EVENT_INTEGRITY_FAILURE, env), conn, Err(verified.error))
        else
          var f := if verified.value then Recorded(e, EVENT_BOOTSTRAPPED, env) else e;
          var (g, next) := Reissued(f, conn, env);
          (Recorded(g, EVENT_UNLOCKED, env), next, Ok(Done))
  }

  /** The unlocking connection's session is issued again at the new epoch. */
  function Reissued(c: Core, conn: Conn, env: Env): (Core, Conn) {
    if conn.session.None? then (c, conn)
    else
      var issued := NewSession(env.reissueId, conn.clientId, conn.session.value.mask, c.vault.vault.epoch, env.now);
      (c.(sessions := c.sessions[env.reissueId := issued]), conn.(session := Some(issued)))
  }

  function OpLock(c: Core, panic: bool, env: Env): (Core, Result<Reply>) {
    (Recorded(LockedCore(c), if panic then EVENT_PANIC_LOCKED else EVENT_LOCKED, env), Ok(Done))
  }

  function OpChangePassword(cfg: Config, c: Core, current: string, next: string, env: Env): (Core, Result<Reply>) {
    if !cfg.strong(next) then (c, Err(Validation))
    else
      var (v, db, r) := Vault.ChangePassword(c.vault, c.db, current, next, cfg.params, env.envelope, env.commits);
      if r.Err? then (c.(vault := v, db := db), Err(r.error))
      else (Recorded(c.(vault := v, db := db, index := NO_ENTRIES, sessions := map[]), EVENT_PASSWORD_CHANGED, env),
          Ok(Done))
  }

  function OpDestroy(c: Core, password: string, env: Env): (Core, Result<Reply>) {
    var (v, r) := Vault.VerifyPassword(c.vault, c.db, password);
    if r.Err? then (c.(vault := v), Err(r.error))
    else (ResetCore(c.(vault := v), EMPTY), Ok(Done))
  }

  function RecordStateOf(c: Core): Records.RecordState { Records.RecordState(c.db, c.vault, c.index) }

  function WithRecords(c: Core, s: Records.RecordState): Core { c.(db := s.db, vault := s.vault, index := s.index) }

  function OpCreate(cfg: Config, c: Core, f: Fields, loginOnly: bool, env: Env): (Core, Result<Reply>) {
    match FieldsToMetadata(cfg.web, f)
    case None => (c, Err(Validation))
    case Some(meta) =>
      var kind := if f.kind == "" || loginOnly then "login" else f.kind;
      var (s, r) := Records.Create(cfg.web, RecordStateOf(c), kind, meta, f.secret, env.id, env.nonces, env.now,
          env.commits);
      (WithRecords(c, s), match r case Ok(id) => Ok(NewRecord(id)) case Err(e) => Err(e))
  }

  /** The narrow capability may only touch stored logins. */
  function LoginOnly(c: Core, id: Id): Result<()> {
    if !HasKeys(c.vault) then Err(VaultLocked)
    else if id !in c.index.entries then Err(RecordNotFound)
    else if c.index.entries[id].kind != "login" then Err(AuthorizationDeny)
    else Ok(())
  }

  function OpUpdate(cfg: Config, c: Core, id: Id, expected: U64, f: Fields, loginOnly: bool, env: Env)
    : (Core, Result<Reply>)
  {
    if loginOnly && LoginOnly(c, id).Err? then (c, Err(LoginOnly(c, id).error))
    else
      match FieldsToMetadata(cfg.web, f)
      case None => (c, Err(Validation))
      case Some(meta) =>
        var (s, r) := Records.Update(cfg.web, RecordStateOf(c), id, expected, meta, f.secret, env.nonces, env.now,
            env.commits);
        (WithRecords(c, s), Acknowledge(r))
  }

  function OpDelete(cfg: Config, c: Core, id: Id, env: Env): (Core, Result<Reply>) {
    var (s, r) := Records.Delete(cfg.web, RecordStateOf(c), id, env.commits);
    (WithRecords(c, s), Acknowledge(r))
  }

  /** The reference is an id, resolved through the index first. */
  function OpReveal(c: Core, id: Id): Result<Reply> {
    if !HasKeys(c.vault) then Err(VaultLocked)
    else if id !in c.index.entries then Err(RecordNotFound)
    else match Records.Reveal(RecordStateOf(c), id) case Ok(secret) => Ok(Secrets(secret)) case Err(e) => Err(e)
  }

  /** A browser receives two strings of the record, not its whole secret. */
  function OpRevealForOrigin(cfg: Config, c: Core, id: Id, origin: string, projectId: string): Result<Reply> {
    match Records.RevealForOrigin(cfg.web, RecordStateOf(c), id, origin, projectId)
    case Err(e) => Err(e)
    case Ok(secret) =>
      Ok(Filled(if id in c.index.entries then c.index.entries[id].meta.username else "", secret.password))
  }

  /** The submitted key must be the one that ran this channel's handshake. */
  function OpPair(cfg: Config, c: Core, conn: Conn, kind: int, name: string, staticKey: Blob, env: Env)
    : (Core, Result<Reply>)
  {
    if staticKey != conn.staticKey then (c, Err(Validation))
    else
      var (pending, r) := Access.RequestPairing(c.pending, cfg.shown, cfg.daemonKey, kind, name, staticKey, env.id,
          env.now);
      match r
      case Err(e) => (c, Err(e))
      case Ok(id) => (Recorded(c.(pending := pending), EVENT_PAIRING_REQUESTED, env), Ok(PairingId(id)))
  }

  function OpClaim(c: Core, id: Id): (Core, Result<Reply>) {
    var (pending, r) := Access.Claim(c.pending, id);
    (c.(pending := pending),
     match r case Ok((client, credential)) => Ok(Credential(client, credential)) case Err(e) => Err(e))
  }

  function OpCancel(c: Core, id: Id): (Core, Result<Reply>) {
    var (pending, r) := Access.Cancel(c.pending, id);
    (c.(pending := pending), Acknowledge(r))
  }

  function AccessStateOf(c: Core): Access.AccessState { Access.AccessState(c.db, c.vault, c.pending) }

  function WithAccess(c: Core, s: Access.AccessState): Core { c.(db := s.db, vault := s.vault, pending := s.pending) }

  function OpApprove(c: Core, id: Id, env: Env): (Core, Result<Reply>) {
    var (s, r) := Access.Approve(AccessStateOf(c), id, env.approval, env.now, env.commits);
    if r.Err? then (WithAccess(c, s), Err(r.error)) else (Recorded(WithAccess(c, s), EVENT_APPROVED, env), Ok(Done))
  }

  function OpRevoke(c: Core, id: Id, env: Env): (Core, Result<Reply>) {
    var (s, r) := Access.Revoke(AccessStateOf(c), id, env.commits);
    if r.Err? then (WithAccess(c, s), Err(r.error))
    else (Recorded(WithAccess(c, s).(sessions := WithoutClient(c.sessions, id)), EVENT_REVOKED, env), Ok(Done))
  }

  function OpCreateBackup(c: Core, env: Env): (Core, Result<Reply>) {
    if !HasKeys(c.vault) then (c, Err(VaultLocked))
    else if !c.vault.loaded then (c, Err(VaultNotFound))
    else if !env.installs then (c, Err(Storage))
    else (Recorded(c, EVENT_BACKUP_CREATED, env),
          Ok(Written(Container(c.vault.vault.id, c.db, Some(c.vault.keyring.value.backup)))))
  }

  /** Authenticated first, against the keys still held; then locked, installed, and the service reset. */
  function OpRestore(c: Core, b: Container, env: Env): (Core, Result<Reply>) {
    if !HasKeys(c.vault) then (c, Err(VaultLocked))
    else if b.macKey != Some(c.vault.keyring.value.backup) then (c, Err(BadContainer))
    else if !c.vault.loaded then (c, Err(VaultNotFound))
    else if b.vaultId != c.vault.vault.id then (c, Err(WrongVault))
    else if b.snapshot.vault.None? || !env.installs then (LockedCore(c), Err(Storage))
    else (Recorded(ResetCore(LockedCore(c), b.snapshot), EVENT_BACKUP_RESTORED, env), Ok(Done))
  }

  /** Of the read-only requests only this is modelled: the ones that need the keys refuse a locked vault. */
  function QueryAnswer(c: Core, op: Op): Result<Reply> {
    if op in {ListOp, SearchOp, ShowOp, MatchOp, BackupVerifyOp} && !HasKeys(c.vault) then Err(VaultLocked)
    else Ok(Done)
  }

  function Dispatch(cfg: Config, c: Core, conn: Conn, req: Request, env: Env): (Core, Conn, Result<Reply>) {
    match req
    case UnlockVault(password) => OpUnlock(cfg, c, conn, password, env)
    case _ => var (d, r) := DispatchRest(cfg, c, conn, req, env); (d, conn, r)
  }

  function DispatchRest(cfg: Config, c: Core, conn: Conn, req: Request, env: Env): (Core, Result<Reply>) {
    match req
    case Status => OpStatus(c)
    case InitVault(password) => OpInit(cfg, c, password, env)
    case LockVault(panic) => OpLock(c, panic, env)
    case ChangeMaster(current, next) => OpChangePassword(cfg, c, current, next, env)
    case DestroyVault(password) => OpDestroy(c, password, env)
    case CreateRecord(f, loginOnly) => OpCreate(cfg, c, f, loginOnly, env)
    case UpdateRecord(id, expected, f, loginOnly) => OpUpdate(cfg, c, id, expected, f, loginOnly, env)
    case DeleteRecord(id) => OpDelete(cfg, c, id, env)
    case RevealRecord(id) => (c, OpReveal(c, id))
    case RevealForOrigin(id, origin, projectId) => (c, OpRevealForOrigin(cfg, c, id, origin, projectId))
    case Pair(kind, name, staticKey) => OpPair(cfg, c, conn, kind, name, staticKey, env)
    case Claim(id) => OpClaim(c, id)
    case CancelPairing(id) => OpCancel(c, id)
    case Approve(id) => OpApprove(c, id, env)
    case Revoke(id) => OpRevoke(c, id, env)
    case CreateBackup => OpCreateBackup(c, env)
    case RestoreBackup(b) => OpRestore(c, b, env)
    case Query(op) => (c, QueryAnswer(c, op))
    case UnlockVault(_) => (c, Ok(Done))
  }

  /** Admission: what runs before dispatch, and whether dispatch runs. */
  function Admit(c: Core, conn: Conn, op: Op, env: Env): (Core, Conn, Result<()>) {
    if conn.pairing then
      if PairingChannelOp(op) then (c, conn, Ok(()))
      else (Recorded(c, EVENT_UNAUTHORIZED, env), conn, Err(AuthorizationDeny))
    else
      match RequiredCapability(op)
      case None => (c, conn, Err(Validation))
      case Some(capability) =>
        var (d, next, r) := Authorize(c, conn, op, capability, env);
        if r.Ok? then (d, next, r) else (Recorded(d, EVENT_UNAUTHORIZED, env), next, r)
  }

  function Handle(cfg: Config, c: Core, conn: Conn, req: Request, env: Env): (Core, Conn, Result<Reply>) {
    var (d, next, admitted) := Admit(c, conn, OpOf(req), env);
    if admitted.Err? then (d, next, Err(admitted.error)) else Dispatch(cfg, d, next, req, env)
  }

  // ---- Connections -------------------------------------------------------------------------------------

  datatype Hello = CliHello | PairingHello | PairedHello(clientId: Id)

  /** A completed handshake: the hello, and the static key and pre-shared key the peer proved. */
  datatype Peer = Peer(hello: Hello, staticKey: Blob, psk: Bytes)

  /** lookupClient, the handshake's own checks, and buildConnState. */
  function Connect(c: Core, peer: Peer, env: Env): Option<(Core, Conn)> {
    match peer.hello
    case CliHello =>
      var s := NewSession(env.sessionId, 0, CLI_MASK, c.vault.vault.epoch, env.now);
      Some((c.(sessions := c.sessions[env.sessionId := s]), Conn(Some(s), 0, false, peer.staticKey)))
    case PairingHello => Some((c, Conn(None, 0, true, peer.staticKey)))
    case PairedHello(id) =>
      if !Access.Approved(c.db, id) || c.db.clients[id].credential != peer.psk
          || c.db.clients[id].staticKey != peer.staticKey then None
      else
        var s := NewSession(env.sessionId, id, c.db.clients[id].mask, c.vault.vault.epoch, env.now);
        Some((c.(sessions := c.sessions[env.sessionId := s],
                 db := if env.recorded then UpdateClientLastSeen(c.db, id, env.now) else c.db),
              Conn(Some(s), id, false, peer.staticKey)))
  }
}
