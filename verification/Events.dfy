/** The security events: which request leaves which code. */
module Events {
  import opened Octets
  import opened Tables
  import opened Origins
  import opened RecordIndex
  import opened Codec
  import opened Sessions
  import opened Vault
  import opened Daemon
  import Access
  import Catalog
  import Records

  /** The events after, when these were written; none are when the insert fails, which is ignored. */
  function Logged(c: Core, codes: seq<int>, env: Env): seq<int> {
    if env.recorded then c.db.events + codes else c.db.events
  }

  lemma StampLeavesEvents(db: Database, key: Bytes, vaultId: Id, version: U32)
    ensures var r := Catalog.StampOf(db, key, vaultId, version);
            r.Some? ==> r.value.0.events == db.events
  {
    hide Catalog.RootOf, Catalog.CoveredBy;
  }

  lemma UnlockRecords(cfg: Config, c: Core, conn: Conn, password: string, env: Env)
    ensures var (d, _, r) := OpUnlock(cfg, c, conn, password, env);
            var fits := Vault.Unlock(c.vault, c.db, password, env.now, env.after).1.Ok?;
            && (!fits ==> r.Err? && d.db.events == Logged(c, [105], env))
            && (fits && r.Err? ==> d.db.events == Logged(c, [112], env))
            && (r.Ok? ==> d.db.events == Logged(c, if c.db.anchor.None? then [118, 101] else [101], env))
  {
    hide Vault.Unlock, Records.LoadIndex, DeriveKeyring, Catalog.RootOf, Catalog.CoveredBy, Catalog.StampOf;
    var (v, _) := Vault.Unlock(c.vault, c.db, password, env.now, env.after);
    if v.keyring.Some? { StampLeavesEvents(c.db, v.keyring.value.catalog, v.vault.id, v.vault.active); }
  }

  lemma InitRecords(cfg: Config, c: Core, password: string, env: Env)
    ensures var (d, r) := OpInit(cfg, c, password, env);
            d.db.events == Logged(c, if r.Ok? then [100] else [], env)
  {
    hide BuildEnvelope, Catalog.RootOf, Catalog.CoveredBy, DeriveKeyring;
  }

  lemma ChangeRecords(cfg: Config, c: Core, current: string, next: string, env: Env)
    ensures var (d, r) := OpChangePassword(cfg, c, current, next, env);
            d.db.events == Logged(c, if r.Ok? then [104] else [], env)
  {
    hide Unwrap, BuildEnvelope, Catalog.RootOf, Catalog.CoveredBy, DeriveKeyring;
  }

  lemma PairRecords(cfg: Config, c: Core, conn: Conn, kind: int, name: string, key: Blob, env: Env)
    ensures var (d, r) := OpPair(cfg, c, conn, kind, name, key, env);
            d.db.events == Logged(c, if r.Ok? then [107] else [], env)
  {
    hide Access.PairingPhrase, DefaultCapabilities;
  }

  lemma ApproveRecords(c: Core, id: Id, env: Env)
    ensures var (d, r) := OpApprove(c, id, env);
            d.db.events == Logged(c, if r.Ok? then [108] else [], env)
  {
    hide Access.ClientFor, Catalog.RootOf, Catalog.CoveredBy;
  }

  lemma RevokeRecords(c: Core, id: Id, env: Env)
    ensures var (d, r) := OpRevoke(c, id, env);
            d.db.events == Logged(c, if r.Ok? then [109] else [], env)
  {
    hide Catalog.RootOf, Catalog.CoveredBy;
  }

  lemma ChannelRecordsNothing(c: Core, id: Id)
    ensures OpClaim(c, id).0.db == c.db && OpCancel(c, id).0.db == c.db
  {
  }

  lemma CreateRecordsNothing(cfg: Config, c: Core, f: Fields, loginOnly: bool, env: Env)
    ensures OpCreate(cfg, c, f, loginOnly, env).0.db.events == c.db.events
  {
    hide Catalog.RootOf, Catalog.CoveredBy, FieldsToMetadata, Records.SealedRow, ValidRecord, PutEntry;
  }

  lemma UpdateRecordsNothing(cfg: Config, c: Core, id: Id, expected: U64, f: Fields, loginOnly: bool, env: Env)
    ensures OpUpdate(cfg, c, id, expected, f, loginOnly, env).0.db.events == c.db.events
  {
    hide Catalog.RootOf, Catalog.CoveredBy, FieldsToMetadata, Records.SealedRow, ValidRecord, PutEntry;
  }

  lemma DeleteRecordsNothing(cfg: Config, c: Core, id: Id, env: Env)
    ensures OpDelete(cfg, c, id, env).0.db.events == c.db.events
  {
    hide Catalog.RootOf, Catalog.CoveredBy, RemoveEntry;
  }

  lemma VaultRecords(c: Core, panic: bool, env: Env)
    ensures OpStatus(c).0.db.events == c.db.events
    ensures OpLock(c, panic, env).0.db.events == Logged(c, [if panic then 103 else 102], env)
    ensures var (d, r) := OpCreateBackup(c, env);
            d.db.events == Logged(c, if r.Ok? then [115] else [], env)
  {
  }

  /** The codes of one dispatched request, by its reply; an unlock and the two replacements have lemmas of their own. */
  function Codes(req: Request, reply: Result<Reply>): seq<int> {
    match req
    case LockVault(panic) => if panic then [103] else [102]
    case InitVault(_) => if reply.Ok? then [100] else []
    case ChangeMaster(_, _) => if reply.Ok? then [104] else []
    case Pair(_, _, _) => if reply.Ok? then [107] else []
    case Approve(_) => if reply.Ok? then [108] else []
    case Revoke(_) => if reply.Ok? then [109] else []
    case CreateBackup => if reply.Ok? then [115] else []
    case _ => []
  }

  predicate VaultRequest(req: Request) {
    req.InitVault? || req.ChangeMaster? || req.Status? || req.LockVault? || req.CreateBackup?
  }

  predicate ReadRequest(req: Request) { req.Query? || req.RevealRecord? || req.RevealForOrigin? }

  predicate WriteRequest(req: Request) { req.CreateRecord? || req.UpdateRecord? || req.DeleteRecord? }

  lemma VaultRequestsRecord(cfg: Config, c: Core, conn: Conn, req: Request, env: Env)
    requires VaultRequest(req)
    ensures var (d, _, r) := Dispatch(cfg, c, conn, req, env);
            d.db.events == Logged(c, Codes(req, r), env)
  {
    hide OpInit, OpChangePassword, OpStatus, OpLock, OpCreateBackup;
    match req
    case InitVault(password) => InitRecords(cfg, c, password, env);
    case ChangeMaster(current, next) => ChangeRecords(cfg, c, current, next, env);
    case Status => VaultRecords(c, false, env);
    case LockVault(panic) => VaultRecords(c, panic, env);
    case CreateBackup => VaultRecords(c, false, env);
  }

  lemma ReadRequestsRecord(cfg: Config, c: Core, conn: Conn, req: Request, env: Env)
    requires ReadRequest(req)
    ensures var (d, _, r) := Dispatch(cfg, c, conn, req, env);
            d.db.events == Logged(c, Codes(req, r), env)
  {
    hide OpReveal, OpRevealForOrigin, QueryAnswer;
  }

  lemma WriteRequestsRecord(cfg: Config, c: Core, conn: Conn, req: Request, env: Env)
    requires WriteRequest(req)
    ensures var (d, _, r) := Dispatch(cfg, c, conn, req, env);
            d.db.events == Logged(c, Codes(req, r), env)
  {
    hide OpCreate, OpUpdate, OpDelete;
    match req
    case CreateRecord(f, loginOnly) => CreateRecordsNothing(cfg, c, f, loginOnly, env);
    case UpdateRecord(id, expected, f, loginOnly) => UpdateRecordsNothing(cfg, c, id, expected, f, loginOnly, env);
    case DeleteRecord(id) => DeleteRecordsNothing(cfg, c, id, env);
  }

  lemma PairingRequestsRecord(cfg: Config, c: Core, conn: Conn, req: Request, env: Env)
    requires req.Pair? || req.Claim? || req.CancelPairing?
    ensures var (d, _, r) := Dispatch(cfg, c, conn, req, env);
            d.db.events == Logged(c, Codes(req, r), env)
  {
    hide OpClaim, OpCancel, OpPair;
    match req
    case Pair(kind, name, key) => PairRecords(cfg, c, conn, kind, name, key, env);
    case Claim(id) => ChannelRecordsNothing(c, id);
    case CancelPairing(id) => ChannelRecordsNothing(c, id);
  }

  lemma ClientRequestsRecord(cfg: Config, c: Core, conn: Conn, req: Request, env: Env)
    requires req.Approve? || req.Revoke?
    ensures var (d, _, r) := Dispatch(cfg, c, conn, req, env);
            d.db.events == Logged(c, Codes(req, r), env)
  {
    hide OpApprove, OpRevoke;
    match req
    case Approve(id) => ApproveRecords(c, id, env);
    case Revoke(id) => RevokeRecords(c, id, env);
  }

  /** Every request but an unlock and the two replacements leaves exactly the codes of its reply. */
  lemma RequestsRecord(cfg: Config, c: Core, conn: Conn, req: Request, env: Env)
    requires !req.UnlockVault? && !req.DestroyVault? && !req.RestoreBackup?
    ensures var (d, _, r) := Dispatch(cfg, c, conn, req, env);
            d.db.events == Logged(c, Codes(req, r), env)
  {
    hide Dispatch, Codes, Logged;
    if VaultRequest(req) {
      VaultRequestsRecord(cfg, c, conn, req, env);
    } else if ReadRequest(req) {
      ReadRequestsRecord(cfg, c, conn, req, env);
    } else if WriteRequest(req) {
      WriteRequestsRecord(cfg, c, conn, req, env);
    } else if req.Approve? || req.Revoke? {
      ClientRequestsRecord(cfg, c, conn, req, env);
    } else {
      PairingRequestsRecord(cfg, c, conn, req, env);
    }
  }

  /** A restore goes on from the events of the snapshot; a destroy leaves none. */
  lemma ReplacementsRecord(c: Core, password: string, b: Container, env: Env)
    ensures var (d, r) := OpRestore(c, b, env);
            d.db == if r.Ok? then b.snapshot.(events := Logged(c.(db := b.snapshot), [116], env)) else c.db
    ensures var (d, r) := OpDestroy(c, password, env);
            d.db == if r.Ok? then EMPTY else c.db
  {
    hide Vault.VerifyPassword;
  }

  /** A refused request leaves one code, 111, unless no capability at all is known for it. */
  lemma RefusalsRecord(c: Core, conn: Conn, op: Op, env: Env)
    ensures var (d, _, r) := Admit(c, conn, op, env);
            d.db.events == Logged(c, if r == Err(AuthorizationDeny) then [111] else [], env)
  {
    hide Authorize, RequiredCapability;
    if RequiredCapability(op).Some? { AuthorizeRecordsNothing(c, conn, op, RequiredCapability(op).value, env); }
  }

  lemma AuthorizeRecordsNothing(c: Core, conn: Conn, op: Op, capability: Capability, env: Env)
    ensures var (d, _, r) := Authorize(c, conn, op, capability, env);
            d.db == c.db && (r.Ok? || r == Err(AuthorizationDeny))
  {
    hide Validated, Has, Access.Approved;
  }
}
