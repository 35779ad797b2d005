/** Sessions, pairing and revocation over whole runs. */
module AccessSafety {
  import opened Octets
  import opened Tables
  import opened Origins
  import opened RecordIndex
  import opened Codec
  import opened Sessions
  import opened Vault
  import opened Daemon
  import opened History
  import Access
  import Catalog
  import Records

  // ---- What is always true of sessions, connections, clients and pairings ----------------------------------

  ghost predicate SessionsOk(sessions: SessionMap, used: set<Id>) {
    forall id | id in sessions ::
      id in used && sessions[id].id == id && (sessions[id].clientId != 0 ==> Browser(sessions[id].mask))
  }

  ghost predicate ConnOk(conn: Conn, sessions: SessionMap, used: set<Id>) {
    && (conn.clientId != 0 ==> !conn.pairing && conn.session.Some? && Browser(conn.session.value.mask))
    && (conn.session.Some? ==>
          var s := conn.session.value;
          && s.id in used && s.clientId == conn.clientId
          && (s.id in sessions ==> sessions[s.id].clientId == conn.clientId && sessions[s.id].mask == s.mask))
  }

  ghost predicate ClientsOk(db: Database, used: set<Id>) {
    forall id | id in db.clients :: id in used && OfItsKind(db.clients[id])
  }

  /** A paired kind, with the operations of that kind. */
  predicate OfItsKind(row: ClientRow) {
    IsPairable(row.kind) && row.mask == DefaultCapabilities(row.kind) && Browser(row.mask)
  }

  ghost predicate PendingOk(pending: Access.PendingMap, used: set<Id>) {
    forall id | id in pending ::
      && id in used && IsPairable(pending[id].kind)
      && (pending[id].approved ==> pending[id].credential.Some? && pending[id].clientId in used)
  }

  ghost predicate AccessInv(w: World) {
    && 0 !in w.used
    && SessionsOk(w.core.sessions, w.used)
    && (forall k | k in w.conns :: ConnOk(w.conns[k], w.core.sessions, w.used))
    && ClientsOk(w.core.db, w.used)
    && (forall b | b in w.backups :: ClientsOk(b.snapshot, w.used))
    && PendingOk(w.core.pending, w.used)
  }

  // ---- What a step may do to the session map ---------------------------------------------------------------

  /** Sessions only go, or come under ids never used before; those that stay keep their client and mask. */
  ghost predicate Tame(s: SessionMap, s': SessionMap, used: set<Id>) {
    forall id | id in s' && id in used ::
      id in s && s'[id].clientId == s[id].clientId && s'[id].mask == s[id].mask
  }

  /** An operation's effect on sessions and on its own connection. */
  ghost predicate SessionStep(s: SessionMap, s': SessionMap, conn: Conn, conn': Conn, used: set<Id>, used': set<Id>) {
    && Tame(s, s', used) && SessionsOk(s', used') && ConnOk(conn', s', used')
  }

  lemma TameKeepsConn(conn: Conn, s: SessionMap, s': SessionMap, used: set<Id>, used': set<Id>)
    requires ConnOk(conn, s, used) && Tame(s, s', used) && used <= used'
    ensures ConnOk(conn, s', used')
  {
  }

  lemma TameChains(a: SessionMap, b: SessionMap, c: SessionMap, used: set<Id>, used': set<Id>)
    requires Tame(a, b, used) && Tame(b, c, used') && used <= used'
    ensures Tame(a, c, used)
  {
  }

  lemma MoreIdsUsed(c: Core, used: set<Id>, used': set<Id>)
    requires used <= used'
    ensures SessionsOk(c.sessions, used) ==> SessionsOk(c.sessions, used')
    ensures ClientsOk(c.db, used) ==> ClientsOk(c.db, used')
    ensures PendingOk(c.pending, used) ==> PendingOk(c.pending, used')
  {
  }

  lemma AuthorizeIsTame(c: Core, conn: Conn, op: Op, capability: Capability, env: Env, used: set<Id>)
    requires SessionsOk(c.sessions, used) && ConnOk(conn, c.sessions, used) && ClientsOk(c.db, used)
             && env.sessionId !in used
    ensures var (d, next, _) := Authorize(c, conn, op, capability, env);
            var used' := used + {env.sessionId};
            && Tame(c.sessions, d.sessions, used) && SessionsOk(d.sessions, used') && ConnOk(next, d.sessions, used')
            && d == c.(sessions := d.sessions) && next.clientId == conn.clientId && next.pairing == conn.pairing
  {
    hide Browser, Has, Validated, SessionsOk, ConnOk, Tame, Access.Approved;
    if conn.session.Some? {
      var epoch := c.vault.vault.epoch;
      var (sessions, _) := Validated(c.sessions, conn.session.value.id, epoch, !IdleExempt(op), env.now);
      ValidateIsTame(c.sessions, conn, conn.session.value.id, epoch, !IdleExempt(op), env.now, used,
          used + {env.sessionId});
      if conn.clientId == 0 || Access.Approved(c.db, conn.clientId) {
        ApprovedRowIsBrowser(c.db, conn, used);
        var mask := if conn.clientId != 0 then c.db.clients[conn.clientId].mask else conn.session.value.mask;
        ConnIsSession(conn, c.sessions, used);
        IssueIsTame(c.sessions, sessions, conn, NewSession(env.sessionId, conn.clientId, mask, epoch, env.now), used);
      }
    } else {
      SameIsTame(c.sessions, conn, used, used + {env.sessionId});
    }
  }

  lemma ConnIsSession(conn: Conn, s: SessionMap, used: set<Id>)
    requires ConnOk(conn, s, used)
    ensures conn.clientId != 0 ==> !conn.pairing
    ensures conn.session.Some? ==> conn.session.value.clientId == conn.clientId
  {
  }

  lemma ApprovedRowIsBrowser(db: Database, conn: Conn, used: set<Id>)
    requires ClientsOk(db, used)
    requires conn.clientId == 0 || Access.Approved(db, conn.clientId)
    ensures conn.clientId != 0 ==> conn.clientId in db.clients && Browser(db.clients[conn.clientId].mask)
  {
  }

  lemma ValidateIsTame(s: SessionMap, conn: Conn, id: Id, epoch: nat, activity: bool, now: int, used: set<Id>,
      used': set<Id>)
    requires SessionsOk(s, used) && ConnOk(conn, s, used) && used <= used'
    ensures SessionStep(s, Validated(s, id, epoch, activity, now).0, conn, conn, used, used')
    ensures SessionStep(s, Validated(s, id, epoch, activity, now).0, conn, conn, used, used)
  {
    hide Browser;
  }

  /** A session issued under a new id to the connection's own client. */
  lemma IssueIsTame(s: SessionMap, s1: SessionMap, conn: Conn, issued: Session, used: set<Id>)
    requires SessionStep(s, s1, conn, conn, used, used) && issued.id !in used && issued.clientId == conn.clientId
    requires conn.clientId != 0 ==> Browser(issued.mask) && !conn.pairing
    ensures SessionStep(s, s1[issued.id := issued], conn, conn.(session := Some(issued)), used, used + {issued.id})
  {
    hide Browser;
  }

  lemma AdmitIsTame(c: Core, conn: Conn, op: Op, env: Env, used: set<Id>)
    requires SessionsOk(c.sessions, used) && ConnOk(conn, c.sessions, used) && ClientsOk(c.db, used)
             && env.sessionId !in used
    ensures var (d, next, _) := Admit(c, conn, op, env);
            var used' := used + {env.sessionId};
            && Tame(c.sessions, d.sessions, used) && SessionsOk(d.sessions, used') && ConnOk(next, d.sessions, used')
            && d.db.(events := c.db.events) == c.db && d.vault == c.vault && d.pending == c.pending
            && d.index == c.index
            && next.clientId == conn.clientId && next.pairing == conn.pairing
  {
    hide Browser, Authorize, SessionsOk, ConnOk, Tame, ClientsOk;
    SameIsTame(c.sessions, conn, used, used + {env.sessionId});
    if !conn.pairing && RequiredCapability(op).Some? {
      AuthorizeIsTame(c, conn, op, RequiredCapability(op).value, env, used);
    }
  }

  lemma SameIsTame(s: SessionMap, conn: Conn, used: set<Id>, used': set<Id>)
    requires used <= used'
    ensures Tame(s, s, used) && (SessionsOk(s, used) ==> SessionsOk(s, used'))
    ensures ConnOk(conn, s, used) ==> ConnOk(conn, s, used')
  {
  }

  lemma ReissueIsTame(c: Core, conn: Conn, env: Env, used: set<Id>)
    requires SessionsOk(c.sessions, used) && ConnOk(conn, c.sessions, used) && env.reissueId !in used
    ensures var (d, next) := Reissued(c, conn, env);
            SessionStep(c.sessions, d.sessions, conn, next, used, used + {env.reissueId})
            && next.clientId == conn.clientId && next.pairing == conn.pairing
            && d.pending == c.pending && d.db == c.db
  {
    hide Browser;
  }

  lemma ClearedIsTame(s: SessionMap, conn: Conn, used: set<Id>, used': set<Id>)
    requires ConnOk(conn, s, used) && used <= used'
    ensures SessionStep(s, map[], conn, conn, used, used')
  {
  }

  lemma DroppedIsTame(s: SessionMap, conn: Conn, client: Id, used: set<Id>, used': set<Id>)
    requires SessionsOk(s, used) && ConnOk(conn, s, used) && used <= used'
    ensures SessionStep(s, WithoutClient(s, client), conn, conn, used, used')
  {
  }

  lemma UnlockIsTame(cfg: Config, c: Core, conn: Conn, password: string, env: Env, used: set<Id>)
    requires SessionsOk(c.sessions, used) && ConnOk(conn, c.sessions, used) && env.reissueId !in used
    ensures var (d, next, _) := OpUnlock(cfg, c, conn, password, env);
            && SessionStep(c.sessions, d.sessions, conn, next, used, used + {env.reissueId})
            && d.pending == c.pending && d.db.clients == c.db.clients
            && next.clientId == conn.clientId && next.pairing == conn.pairing
  {
    hide SessionsOk, ConnOk, Tame, Records.LoadIndex, Vault.Unlock, Vault.VerifyCatalog, Reissued, Recorded;
    SameIsTame(c.sessions, conn, used, used + {env.reissueId});
    ClearedIsTame(c.sessions, conn, used, used + {env.reissueId});
    var (v, r) := Vault.Unlock(c.vault, c.db, password, env.now, env.after);
    EventsKeepAccess(c.(vault := v), EVENT_UNLOCK_FAILED, env);
    if r.Ok? {
      var (s, loaded) := Records.LoadIndex(cfg.web, Records.RecordState(c.db, v, c.index));
      var d := c.(vault := v, index := s.index);
      EventsKeepAccess(LockedCore(d), EVENT_INTEGRITY_FAILURE, env);
      VerifyKeepsClients(v, c.db, env.commits);
      var (w, db, verified) := Vault.VerifyCatalog(v, c.db, env.commits);
      var e := d.(vault := w, db := db);
      EventsKeepAccess(LockedCore(e), EVENT_INTEGRITY_FAILURE, env);
      EventsKeepAccess(e, EVENT_BOOTSTRAPPED, env);
      var f := if verified.Ok? && verified.value then Recorded(e, EVENT_BOOTSTRAPPED, env) else e;
      ReissueIsTame(f, conn, env, used);
      EventsKeepAccess(Reissued(f, conn, env).0, EVENT_UNLOCKED, env);
    }
  }

  lemma EventsKeepAccess(c: Core, code: int, env: Env)
    ensures var d := Recorded(c, code, env);
            d.sessions == c.sessions && d.pending == c.pending && d.db.clients == c.db.clients
  {
  }

  lemma VerifyKeepsClients(v: VaultState, db: Database, commits: bool)
    ensures Vault.VerifyCatalog(v, db, commits).1.clients == db.clients
  {
    hide Catalog.RootOf, Catalog.CoveredBy;
  }

  // ---- Every operation ----------------------------------------------------------------------------------------

  /** Client rows only go, change status to revoked, or come under the new id. */
  ghost predicate ClientsTame(a: Database, b: Database, newId: Id) {
    forall id | id in b.clients && id != newId ::
      && id in a.clients
      && b.clients[id] == a.clients[id].(status := b.clients[id].status, lastSeenMs := b.clients[id].lastSeenMs)
      && (b.clients[id].status == a.clients[id].status || b.clients[id].status == STATUS_REVOKED)
  }

  /** Pairings only go, get approved once, or come under the new id. */
  ghost predicate PendingTame(a: Access.PendingMap, b: Access.PendingMap, newId: Id) {
    forall id | id in b && id != newId ::
      id in a && (b[id] == a[id] || (!a[id].approved && b[id].approved && b[id].kind == a[id].kind
          && b[id].staticKey == a[id].staticKey))
  }

  predicate PlainRequest(req: Request) {
    req.Query? || req.Status? || req.InitVault? || req.CreateRecord? || req.UpdateRecord? || req.DeleteRecord?
    || req.RevealRecord? || req.RevealForOrigin? || req.CreateBackup?
  }

  lemma PlainRequestsKeepAccess(cfg: Config, c: Core, conn: Conn, req: Request, env: Env)
    requires PlainRequest(req)
    ensures var d := DispatchRest(cfg, c, conn, req, env).0;
            d.sessions == c.sessions && d.pending == c.pending && d.db.clients == c.db.clients
  {
    hide BuildEnvelope, DeriveKeyring, Catalog.RootOf, Catalog.CoveredBy, Records.Reveal,
         Records.RevealForOrigin, FieldsToMetadata, ParamsValid, Catalog.StampOf, OpInit, OpCreate, OpUpdate,
         OpDelete;
    match req
    case InitVault(password) => InitKeepsAccess(cfg, c, password, env);
    case CreateRecord(f, loginOnly) => RecordsKeepAccess(cfg, c, req, env);
    case UpdateRecord(_, _, _, _) => RecordsKeepAccess(cfg, c, req, env);
    case DeleteRecord(_) => RecordsKeepAccess(cfg, c, req, env);
    case _ =>
  }

  lemma InitKeepsAccess(cfg: Config, c: Core, password: string, env: Env)
    ensures var d := OpInit(cfg, c, password, env).0;
            d.sessions == c.sessions && d.pending == c.pending && d.db.clients == c.db.clients
  {
    hide BuildEnvelope, DeriveKeyring, Catalog.RootOf, Catalog.CoveredBy;
  }

  lemma RecordsKeepAccess(cfg: Config, c: Core, req: Request, env: Env)
    requires req.CreateRecord? || req.UpdateRecord? || req.DeleteRecord?
    ensures var d := DispatchRest(cfg, c, Conn(None, 0, false, []), req, env).0;
            d.sessions == c.sessions && d.pending == c.pending && d.db.clients == c.db.clients
  {
    hide Catalog.RootOf, Catalog.CoveredBy, FieldsToMetadata, Records.SealedRow, ValidRecord, PutEntry,
         RemoveEntry;
  }

  lemma ChangePasswordKeepsAccess(cfg: Config, c: Core, current: string, next: string, env: Env)
    ensures var (d, r) := OpChangePassword(cfg, c, current, next, env);
            d.sessions == (if r.Ok? then map[] else c.sessions) && d.pending == c.pending
                && d.db.clients == c.db.clients
  {
    hide Unwrap, BuildEnvelope, DeriveKeyring, Catalog.RootOf, Catalog.CoveredBy;
  }

  lemma DestroyKeepsAccess(c: Core, password: string, env: Env)
    ensures var (d, r) := OpDestroy(c, password, env);
            d.sessions == (if r.Ok? then map[] else c.sessions) && d.pending == c.pending
            && d.db.clients == (if r.Ok? then map[] else c.db.clients)
  {
    hide Unwrap;
  }

  lemma RestoreKeepsAccess(c: Core, b: Container, env: Env)
    ensures var (d, r) := OpRestore(c, b, env);
            && d.pending == c.pending && (d.sessions == c.sessions || d.sessions == map[])
            && (r.Ok? ==> d.sessions == map[])
            && d.db.clients == (if r.Ok? then b.snapshot.clients else c.db.clients)
            && (r.Ok? ==> b.macKey.Some?)
  {
    hide DeriveKeyring;
  }

  lemma ApproveAccess(c: Core, id: Id, env: Env, used: set<Id>, used': set<Id>)
    requires ClientsOk(c.db, used) && PendingOk(c.pending, used) && used + {env.approval.clientId} <= used'
    ensures var (d, r) := OpApprove(c, id, env);
            && d.sessions == c.sessions && ClientsOk(d.db, used') && PendingOk(d.pending, used')
            && ClientsTame(c.db, d.db, env.approval.clientId) && PendingTame(c.pending, d.pending, env.id)
            && (r.Err? ==> d.pending == c.pending && d.db.clients == c.db.clients)
            && (r.Ok? ==> id in c.pending && !c.pending[id].approved && id in d.pending && d.pending[id].approved
                          && (forall x | x in c.db.clients :: x in d.db.clients && d.db.clients[x] == c.db.clients[x])
                          && (forall x | x in c.pending && x != id :: x in d.pending && d.pending[x] == c.pending[x])
                          && d.pending.Keys == c.pending.Keys
                          && Backed(d.db, d.pending[id]))
  {
    hide Access.Approve, Access.ClientFor, Recorded, Browser, IsPairable, DefaultCapabilities, Backed;
    var (s, r) := Access.Approve(AccessStateOf(c), id, env.approval, env.now, env.commits);
    EventsKeepAccess(WithAccess(c, s), EVENT_APPROVED, env);
    ApprovedRow(AccessStateOf(c), id, env);
    if r.Err? {
      assert s == AccessStateOf(c);
    } else {
      var row, p := Access.ClientFor(c.vault, c.pending[id], env.approval, env.now), c.pending[id];
      PairableKindsAreBrowsers(p.kind);
      RowIsBacked(c.vault, p, env.approval, env.now, OpApprove(c, id, env).0.db);
    }
  }

  /** What an approval writes: the client row under its new id, and the approved entry. */
  lemma ApprovedRow(s: Access.AccessState, id: Id, env: Env)
    ensures var (t, r) := Access.Approve(s, id, env.approval, env.now, env.commits);
            if r.Ok? then
              && s.vault.keyring.Some? && id in s.pending && !s.pending[id].approved
              && env.approval.clientId !in s.db.clients
              && t.db.clients == s.db.clients[env.approval.clientId :=
                                                Access.ClientFor(s.vault, s.pending[id], env.approval, env.now)]
              && t.pending == s.pending[id := s.pending[id].(approved := true, clientId := env.approval.clientId,
                                                             credential := Some(env.approval.credential))]
            else t == s
  {
    hide Catalog.RootOf, Catalog.CoveredBy, Access.ClientFor;
  }

  lemma RowIsBacked(v: VaultState, p: Access.Pending, r: Access.ApprovalNoise, now: int, db: Database)
    requires v.keyring.Some? && r.clientId in db.clients && db.clients[r.clientId] == Access.ClientFor(v, p, r, now)
    ensures Backed(db, p.(approved := true, clientId := r.clientId, credential := Some(r.credential)))
    ensures var row := Access.ClientFor(v, p, r, now);
            row.mask == DefaultCapabilities(p.kind) && row.kind == p.kind && row.status == STATUS_APPROVED
  {
    hide Seal, RecordAad;
  }

  lemma RevokeAccess(c: Core, id: Id, env: Env)
    ensures var (d, r) := OpRevoke(c, id, env);
            && d.pending == c.pending && ClientsTame(c.db, d.db, env.approval.clientId)
            && d.sessions == (if r.Ok? then WithoutClient(c.sessions, id) else c.sessions)
            && d.db.clients.Keys == c.db.clients.Keys
            && (forall x | x in c.db.clients :: d.db.clients[x] == c.db.clients[x].(status := d.db.clients[x].status))
            && (forall x | x in c.db.clients && x != id :: d.db.clients[x] == c.db.clients[x])
            && (r.Err? ==> d.db.clients == c.db.clients)
            && (r.Ok? ==> id in d.db.clients && d.db.clients[id].status == STATUS_REVOKED)
  {
    hide Access.Revoke, Recorded, WithoutClient;
    var (s, r) := Access.Revoke(AccessStateOf(c), id, env.commits);
    EventsKeepAccess(WithAccess(c, s).(sessions := WithoutClient(c.sessions, id)), EVENT_REVOKED, env);
    RevokedRow(AccessStateOf(c), id, env.commits);
  }

  /** What a revocation writes: the status of that one row. */
  lemma RevokedRow(s: Access.AccessState, id: Id, commits: bool)
    ensures var (t, r) := Access.Revoke(s, id, commits);
            if r.Ok? then
              && id in s.db.clients && t.pending == s.pending
              && t.db.clients == s.db.clients[id := s.db.clients[id].(status := 3)]
            else t == s
  {
    hide Catalog.RootOf, Catalog.CoveredBy;
  }

  lemma PairAccess(cfg: Config, c: Core, conn: Conn, kind: int, name: string, key: Blob, env: Env, used: set<Id>,
      used': set<Id>)
    requires PendingOk(c.pending, used) && used + {env.id} <= used'
    ensures var (d, r) := OpPair(cfg, c, conn, kind, name, key, env);
            && d.sessions == c.sessions && d.db.clients == c.db.clients && PendingOk(d.pending, used')
            && PendingTame(c.pending, d.pending, env.id)
            && (forall id | id in c.pending && id != env.id :: id in d.pending && d.pending[id] == c.pending[id])
            && (env.id in d.pending && env.id !in c.pending ==> !d.pending[env.id].approved)
            && (r.Ok? ==> r.value.PairingId? && r.value.id == env.id)
  {
    hide Access.PairingPhrase, DefaultCapabilities;
    PairableKindsAreBrowsers(kind);
  }

  lemma ClaimAccess(c: Core, id: Id, newId: Id)
    ensures var (d, r) := OpClaim(c, id);
            && d.sessions == c.sessions && d.db == c.db && PendingTame(c.pending, d.pending, newId)
            && d.pending.Keys <= c.pending.Keys && (forall x | x in d.pending :: d.pending[x] == c.pending[x])
            && (forall x | x in c.pending && x != id :: x in d.pending)
            && (r.Ok? ==> (id in c.pending && id !in d.pending && c.pending[id].approved
                            && c.pending[id].credential.Some?
                            && r.value == Credential(c.pending[id].clientId, c.pending[id].credential.value)))
  {
  }

  lemma CancelAccess(c: Core, id: Id, newId: Id)
    ensures var (d, r) := OpCancel(c, id);
            && d.sessions == c.sessions && d.db == c.db && PendingTame(c.pending, d.pending, newId)
            && d.pending.Keys <= c.pending.Keys && (forall x | x in d.pending :: d.pending[x] == c.pending[x])
            && (forall x | x in c.pending && c.pending[x].approved :: x in d.pending)
            && (r.Ok? ==> id in c.pending && !c.pending[id].approved && id !in d.pending)
  {
  }

  /** The row of an approved pairing: its credential's verifier and its static key. */
  ghost predicate Backed(db: Database, p: Access.Pending) {
    p.credential.Some? && p.clientId in db.clients
    && db.clients[p.clientId].credential == Access.CredentialVerifier(p.credential.value)
    && db.clients[p.clientId].staticKey == p.staticKey
  }

  lemma DispatchAccess(cfg: Config, c: Core, conn: Conn, req: Request, env: Env, backups: map<Container, Truth>,
      used: set<Id>, used': set<Id>)
    requires SessionsOk(c.sessions, used) && ConnOk(conn, c.sessions, used) && ClientsOk(c.db, used)
             && PendingOk(c.pending, used)
    requires forall b | b in backups :: ClientsOk(b.snapshot, used)
    requires req.RestoreBackup? && req.container.macKey.Some? ==> req.container in backups
    requires env.reissueId !in used && used + {env.reissueId, env.id, env.approval.clientId} <= used'
    ensures var (d, next, r) := Dispatch(cfg, c, conn, req, env);
            && SessionStep(c.sessions, d.sessions, conn, next, used, used + {env.reissueId})
            && ClientsOk(d.db, used') && PendingOk(d.pending, used') && PendingTame(c.pending, d.pending, env.id)
            && (!req.RestoreBackup? ==> ClientsTame(c.db, d.db, env.approval.clientId))
            && next.clientId == conn.clientId && next.pairing == conn.pairing
  {
    hide SessionsOk, ConnOk, Tame, Browser, OpUnlock, OpStatus, OpInit, OpLock, OpChangePassword, OpDestroy,
         OpCreate, OpUpdate, OpDelete, OpClaim, OpCancel, OpPair, OpApprove, OpRevoke, OpCreateBackup,
         OpRestore, Records.Reveal, Records.RevealForOrigin, WithoutClient, ClientsOk, PendingOk, ClientsTame,
         PendingTame, Backed, QueryAnswer;
    var used1 := used + {env.reissueId};
    SameIsTame(c.sessions, conn, used, used1);
    ClearedIsTame(c.sessions, conn, used, used1);
    var d := Dispatch(cfg, c, conn, req, env).0;
    UntouchedAccess(c, d, env, used, used');
    match req
    case UnlockVault(password) => UnlockIsTame(cfg, c, conn, password, env, used);
    case LockVault(panic) => LockAccess(c, panic, env);
    case ChangeMaster(current, next) => ChangePasswordKeepsAccess(cfg, c, current, next, env);
    case DestroyVault(password) =>
      DestroyKeepsAccess(c, password, env);
      FewerClients(c, d, env, used, used');
    case RestoreBackup(b) =>
      RestoreKeepsAccess(c, b, env);
      RestoredClients(d, b, used, used');
    case Approve(id) => ApproveAccess(c, id, env, used, used');
    case Revoke(id) =>
      RevokeAccess(c, id, env);
      DroppedIsTame(c.sessions, conn, id, used, used1);
      RevokedClients(c, d, used, used');
    case Pair(kind, name, key) =>
      PairAccess(cfg, c, conn, kind, name, key, env, used, used');
      FewerClients(c, d, env, used, used');
    case Claim(id) =>
      ClaimAccess(c, id, env.id);
      FewerPairings(c, d, env, used, used');
    case CancelPairing(id) =>
      CancelAccess(c, id, env.id);
      FewerPairings(c, d, env, used, used');
    case _ => PlainRequestsKeepAccess(cfg, c, conn, req, env);
  }

  lemma UntouchedAccess(c: Core, d: Core, env: Env, used: set<Id>, used': set<Id>)
    requires ClientsOk(c.db, used) && PendingOk(c.pending, used) && used <= used'
    ensures d.pending == c.pending ==> PendingOk(d.pending, used') && PendingTame(c.pending, d.pending, env.id)
    ensures d.db.clients == c.db.clients ==> ClientsOk(d.db, used') && ClientsTame(c.db, d.db, env.approval.clientId)
  {
  }

  lemma FewerClients(c: Core, d: Core, env: Env, used: set<Id>, used': set<Id>)
    requires ClientsOk(c.db, used) && used <= used'
    ensures d.db.clients == map[] || d.db.clients == c.db.clients ==>
            ClientsOk(d.db, used') && ClientsTame(c.db, d.db, env.approval.clientId)
  {
  }

  lemma RestoredClients(d: Core, b: Container, used: set<Id>, used': set<Id>)
    requires used <= used'
    ensures d.db.clients == b.snapshot.clients && ClientsOk(b.snapshot, used) ==> ClientsOk(d.db, used')
  {
  }

  lemma RevokedClients(c: Core, d: Core, used: set<Id>, used': set<Id>)
    requires ClientsOk(c.db, used) && used <= used' && d.db.clients.Keys == c.db.clients.Keys
    requires forall x | x in c.db.clients :: d.db.clients[x] == c.db.clients[x].(status := d.db.clients[x].status)
    ensures ClientsOk(d.db, used')
  {
  }

  lemma FewerPairings(c: Core, d: Core, env: Env, used: set<Id>, used': set<Id>)
    requires PendingOk(c.pending, used) && used <= used'
    requires d.pending.Keys <= c.pending.Keys && forall x | x in d.pending :: d.pending[x] == c.pending[x]
    ensures PendingOk(d.pending, used')
  {
  }

  lemma LockAccess(c: Core, panic: bool, env: Env)
    ensures var (d, r) := OpLock(c, panic, env);
            d.sessions == map[] && d.pending == c.pending && d.db.clients == c.db.clients && r == Ok(Done)
  {
  }

  // ---- Steps and runs -----------------------------------------------------------------------------------------

  lemma WrittenSnapshot(cfg: Config, c: Core, conn: Conn, req: Request, env: Env)
    ensures var (d, _, r) := Dispatch(cfg, c, conn, req, env);
            r.Ok? && r.value.Written? ==> req.CreateBackup? && r.value.container.snapshot == c.db
  {
    hide Vault.Init, Vault.ChangePassword, Vault.VerifyPassword, Records.Create, Records.Update, Records.Delete,
         Records.Reveal, Records.RevealForOrigin, Access.Approve, Access.Revoke, Access.RequestPairing,
         Access.Claim, Access.Cancel, Vault.Unlock, Records.LoadIndex, Vault.VerifyCatalog, FieldsToMetadata,
         Recorded, LockedCore, ResetCore, WithoutClient;
  }

  lemma SmallSets(a: Id, b: Id, c: Id, d: Id)
    ensures |{a, b, c, d}| <= 4
  {
    var s := {a, b, c};
    assert {a, b, c, d} == s + {d};
  }

  lemma FreshIdsDiffer(env: Env)
    requires |FreshIds(env)| == 5
    ensures env.sessionId != env.reissueId
  {
    if env.sessionId == env.reissueId {
      assert FreshIds(env) == {env.sessionId, env.id, env.approval.clientId, env.init.vaultId};
      SmallSets(env.sessionId, env.id, env.approval.clientId, env.init.vaultId);
    }
  }

  /** What one request does, admission included. */
  lemma HandleAccess(cfg: Config, w: World, k: nat, req: Request, env: Env)
    requires AccessInv(w) && Possible(w, Incoming(k, req, env))
    ensures var (d, conn, r) := Handle(cfg, w.core, w.conns[k], req, env);
            var used' := w.used + FreshIds(env);
            && Tame(w.core.sessions, d.sessions, w.used) && SessionsOk(d.sessions, used')
            && ConnOk(conn, d.sessions, used')
            && ClientsOk(d.db, used') && PendingOk(d.pending, used') && PendingTame(w.core.pending, d.pending, env.id)
            && (!req.RestoreBackup? ==> ClientsTame(w.core.db, d.db, env.approval.clientId))
            && (r.Ok? && r.value.Written? ==> ClientsOk(r.value.container.snapshot, used'))
            && conn.clientId == w.conns[k].clientId && conn.pairing == w.conns[k].pairing
  {
    hide SessionsOk, ConnOk, Tame, ClientsOk, PendingOk, Admit, Dispatch, PendingTame, ClientsTame;
    FreshIdsDiffer(env);
    var conn, used1, used' := w.conns[k], w.used + {env.sessionId}, w.used + FreshIds(env);
    AdmitIsTame(w.core, conn, OpOf(req), env, w.used);
    var (d, next, admitted) := Admit(w.core, conn, OpOf(req), env);
    MoreIdsUsed(w.core, w.used, used1);
    UntouchedAccess(w.core, d, env, w.used, used1);
    UntouchedAccess(w.core, d, env, w.used, used');
    SameIsTame(d.sessions, next, used1, used');
    if admitted.Ok? {
      MoreSnapshots(w, used1);
      DispatchAccess(cfg, d, next, req, env, w.backups, used1, used');
      var (e, last, r) := Dispatch(cfg, d, next, req, env);
      TameChains(w.core.sessions, d.sessions, e.sessions, w.used, used1);
      SameIsTame(e.sessions, last, used1 + {env.reissueId}, used');
      WrittenSnapshot(cfg, d, next, req, env);
      SameClientsTame(w.core.db, d.db, e.db, env.approval.clientId);
    }
  }

  lemma SameClientsTame(a: Database, b: Database, c: Database, newId: Id)
    requires a.clients == b.clients
    ensures ClientsTame(b, c, newId) ==> ClientsTame(a, c, newId)
  {
  }

  lemma MoreSnapshots(w: World, used': set<Id>)
    requires (forall b | b in w.backups :: ClientsOk(b.snapshot, w.used)) && w.used <= used'
    ensures forall b | b in w.backups :: ClientsOk(b.snapshot, used')
  {
  }

  lemma ConnectAccess(c: Core, peer: Peer, env: Env, used: set<Id>, used': set<Id>)
    requires SessionsOk(c.sessions, used) && ClientsOk(c.db, used) && PendingOk(c.pending, used)
    requires env.sessionId !in used && used + {env.sessionId} <= used'
    ensures Connect(c, peer, env).Some? ==>
              var (d, conn) := Connect(c, peer, env).value;
              && Tame(c.sessions, d.sessions, used) && SessionsOk(d.sessions, used') && ConnOk(conn, d.sessions, used')
              && ClientsOk(d.db, used') && PendingOk(d.pending, used') && d.pending == c.pending
              && ClientsTame(c.db, d.db, env.approval.clientId)
              && (conn.clientId != 0 ==> Access.Approved(c.db, conn.clientId))
  {
    hide Browser;
  }

  lemma StepKeepsAccess(cfg: Config, w: World, e: Event)
    requires AccessInv(w) && Possible(w, e)
    ensures AccessInv(Next(cfg, w, e))
    ensures Tame(w.core.sessions, Next(cfg, w, e).core.sessions, w.used) && w.used <= Next(cfg, w, e).used
  {
    hide SessionsOk, ConnOk, Tame, ClientsOk, PendingOk, Handle, Connect, PendingTame, ClientsTame, CommittedBy,
         Logged;
    var n := Next(cfg, w, e);
    match e
    case Connection(k, peer, env) =>
      ConnectAccess(w.core, peer, env, w.used, n.used);
      SameIsTame(w.core.sessions, Conn(None, 0, false, []), w.used, n.used);
      MoreIdsUsed(w.core, w.used, n.used);
      MoreSnapshots(w, n.used);
      OtherConnsKeep(w, n);
    case Incoming(k, req, env) =>
      HandleAccess(cfg, w, k, req, env);
      MoreSnapshots(w, n.used);
      OtherConnsKeep(w, n);
    case IdleLock(env) =>
      LockAccess(w.core, false, env);
      SameIsTame(w.core.sessions, Conn(None, 0, false, []), w.used, w.used);
      ClearedIsTame(w.core.sessions, Conn(None, 0, false, []), w.used, w.used) by {
        EmptyConnOk(w.core.sessions, w.used);
      }
      UntouchedAccess(w.core, OpLock(w.core, false, env).0, env, w.used, w.used);
      OtherConnsKeep(w, n);
    case Restart =>
      ClearedIsTame(w.core.sessions, Conn(None, 0, false, []), w.used, w.used) by {
        EmptyConnOk(w.core.sessions, w.used);
      }
      NoPairings(w.used);
  }

  lemma NoPairings(used: set<Id>)
    ensures PendingOk(map[], used)
  {
  }

  lemma EmptyConnOk(s: SessionMap, used: set<Id>)
    ensures ConnOk(Conn(None, 0, false, []), s, used)
  {
  }

  lemma OtherConnsKeep(w: World, n: World)
    requires (forall k | k in w.conns :: ConnOk(w.conns[k], w.core.sessions, w.used)) && w.used <= n.used
    ensures Tame(w.core.sessions, n.core.sessions, w.used) ==>
              forall k | k in w.conns :: ConnOk(w.conns[k], n.core.sessions, n.used)
  {
    hide ConnOk, Tame;
    if Tame(w.core.sessions, n.core.sessions, w.used) {
      forall k | k in w.conns ensures ConnOk(w.conns[k], n.core.sessions, n.used) {
        TameKeepsConn(w.conns[k], w.core.sessions, n.core.sessions, w.used, n.used);
      }
    }
  }

  lemma {:induction false} RunKeepsAccess(cfg: Config, w: World, es: seq<Event>)
    requires AccessInv(w) && PossibleRun(cfg, w, es)
    ensures AccessInv(Run(cfg, w, es)) && w.used <= Run(cfg, w, es).used
  {
    hide AccessInv, Possible, Next, Tame;
    if es != [] {
      RunKeepsAccess(cfg, w, es[..|es| - 1]);
      StepKeepsAccess(cfg, Run(cfg, w, es[..|es| - 1]), es[|es| - 1]);
    }
  }
}
