/** internal/daemon/handlers.go and server.go as objects: each handler is the step function of module Daemon. */
module Server {
  import opened Octets
  import opened Tables
  import opened Origins
  import opened RecordIndex
  import opened Codec
  import opened Sessions
  import opened Vault
  import opened Daemon
  import opened Records
  import opened Access

  class Connection {
    const clientId: Id
    const pairing: bool
    const staticKey: Blob
    var session: Option<Session>

    function View(): Conn
      reads this
    {
      Conn(session, clientId, pairing, staticKey)
    }

    constructor (c: Conn)
      ensures View() == c
    {
      clientId, pairing, staticKey, session := c.clientId, c.pairing, c.staticKey, c.session;
    }
  }

  /** The mask of an approved client, read again from its row. */
  function ApprovedMask(db: Database, id: Id): U64
    requires Approved(db, id)
  {
    db.clients[id].mask
  }

  class DaemonServer {
    const cfg: Config
    const store: Store
    const index: Index
    const sessions: SessionManager
    const vault: VaultService
    const records: RecordService
    const access: AccessService

    ghost predicate Wired() {
      && vault.store == store && vault.index == index && vault.sessions == sessions
      && records.keys == vault && records.web == cfg.web && index.web == cfg.web
      && access.keys == vault && access.daemonStaticKey == cfg.daemonKey && access.shown == cfg.shown
    }

    function State(): Core
      reads store, index, sessions, vault, access
    {
      Core(store.db, vault.State(), index.View(), sessions.sessions, access.pending)
    }

    /** New: the services share one store, and the index and the session manager are the vault's lock hooks. */
    constructor (cfg: Config, db: Database)
      ensures Wired() && State() == EMPTY_CORE.(db := db) && this.cfg == cfg
      ensures fresh(store) && fresh(index) && fresh(sessions) && fresh(vault) && fresh(access)
    {
      var s := new Store(db);
      var i := new Index(cfg.web);
      var m := new SessionManager();
      var v := new VaultService(s, i, m);
      var r := new RecordService(v);
      var a := new AccessService(v, cfg.daemonKey, cfg.shown);
      this.cfg, store, index, sessions, vault, records, access := cfg, s, i, m, v, r, a;
    }

    /** Best effort. */
    method RecordEvent(code: int, env: Env)
      requires Wired()
      modifies store
      ensures State() == Recorded(old(State()), code, env)
    {
      if env.recorded {
        store.db := InsertSecurityEvent(store.db, code);
      }
    }

    method AuthorizeRequest(conn: Connection, op: Op, capability: Capability, env: Env) returns (r: Result<()>)
      requires Wired()
      modifies sessions, conn
      ensures var (d, next, answer) := Authorize(old(State()), old(conn.View()), op, capability, env);
              State() == d && conn.View() == next && r == answer
    {
      hide Authorize, Has, Validated, Approved, LockedStateOp, IdleExempt, NewSession;
      AuthorizeCases(State(), conn.View(), op, capability, env);
      if conn.session.None? { return Err(AuthorizationDeny); }
      var epoch := vault.vault.epoch;
      var alive := sessions.Validate(conn.session.value.id, epoch, !IdleExempt(op), env.now);
      if alive {
        return Verdict(conn.session.value.mask, capability);
      }
      if !vault.vault.unlocked && !LockedStateOp(op) { return Err(AuthorizationDeny); }
      if conn.clientId != 0 && !Approved(store.db, conn.clientId) { return Err(AuthorizationDeny); }
      var mask := if conn.clientId != 0 then ApprovedMask(store.db, conn.clientId) else conn.session.value.mask;
      Renew(conn, env.sessionId, mask, env.now);
      return Verdict(mask, capability);
    }

    /** A session issued to the connection's client at the current epoch. */
    method Renew(conn: Connection, id: Id, mask: U64, now: int)
      requires Wired()
      modifies sessions, conn
      ensures var issued := NewSession(id, conn.clientId, mask, vault.vault.epoch, now);
              State() == old(State()).(sessions := old(sessions.sessions)[id := issued])
              && conn.View() == old(conn.View()).(session := Some(issued))
    {
      var issued := sessions.Issue(id, conn.clientId, mask, vault.vault.epoch, now);
      conn.session := Some(issued);
    }

    method HandleUnlock(conn: Connection, password: string, env: Env) returns (reply: Result<Reply>)
      requires Wired()
      modifies store, index, sessions, vault, conn
      ensures (State(), conn.View(), reply) == OpUnlock(cfg, old(State()), old(conn.View()), password, env)
    {
      hide Vault.Unlock, Records.LoadIndex, Vault.VerifyCatalog, InsertSecurityEvent;
      var unlocked := vault.UnlockVault(password, env.now, env.after);
      if unlocked.Err? {
        RecordEvent(EVENT_UNLOCK_FAILED, env);
        return Err(unlocked.error);
      }
      var loaded := records.LoadRecordIndex();
      if loaded.Err? {
        vault.Lock();
        RecordEvent(EVENT_INTEGRITY_FAILURE, env);
        return Err(loaded.error);
      }
      var verified := vault.VerifyStoredCatalog(env.commits);
      if verified.Err? {
        vault.Lock();
        RecordEvent(EVENT_INTEGRITY_FAILURE, env);
        return Err(verified.error);
      }
      if verified.value { RecordEvent(EVENT_BOOTSTRAPPED, env); }
      Reissue(conn, env);
      RecordEvent(EVENT_UNLOCKED, env);
      return Ok(Done);
    }

    method Reissue(conn: Connection, env: Env)
      requires Wired()
      modifies sessions, conn
      ensures (State(), conn.View()) == Reissued(old(State()), old(conn.View()), env)
    {
      if conn.session.Some? {
        var issued := sessions.Issue(env.reissueId, conn.clientId, conn.session.value.mask, vault.vault.epoch, env.now);
        conn.session := Some(issued);
      }
    }

    method HandleLock(panic: bool, env: Env) returns (reply: Result<Reply>)
      requires Wired()
      modifies store, index, sessions, vault
      ensures (State(), reply) == OpLock(old(State()), panic, env)
    {
      vault.Lock();
      RecordEvent(if panic then EVENT_PANIC_LOCKED else EVENT_LOCKED, env);
      return Ok(Done);
    }

    method HandleInit(password: string, env: Env) returns (reply: Result<Reply>)
      requires Wired()
      modifies store, vault
      ensures (State(), reply) == OpInit(cfg, old(State()), password, env)
    {
      hide Vault.Init;
      if !cfg.strong(password) { return Err(Validation); }
      var r := vault.InitVault(password, cfg.params, env.init, env.commits);
      if r.Err? { return Err(r.error); }
      RecordEvent(EVENT_CREATED, env);
      return Ok(Done);
    }

    method HandleChangePassword(current: string, next: string, env: Env) returns (reply: Result<Reply>)
      requires Wired()
      modifies store, index, sessions, vault
      ensures (State(), reply) == OpChangePassword(cfg, old(State()), current, next, env)
    {
      hide Vault.ChangePassword;
      if !cfg.strong(next) { return Err(Validation); }
      var r := vault.ChangeMasterPassword(current, next, cfg.params, env.envelope, env.commits);
      if r.Err? { return Err(r.error); }
      RecordEvent(EVENT_PASSWORD_CHANGED, env);
      return Ok(Done);
    }

    /** destroyVault: re-authenticate, reset the service with its lock hooks, reopen an empty database. */
    method HandleDestroy(password: string, env: Env) returns (reply: Result<Reply>)
      requires Wired()
      modifies store, index, sessions, vault
      ensures (State(), reply) == OpDestroy(old(State()), password, env)
    {
      hide Vault.VerifyPassword;
      var r := vault.VerifyMasterPassword(password);
      if r.Err? { return Err(r.error); }
      vault.ResetVault();
      store.db := EMPTY;
      return Ok(Done);
    }

    /** restoreVault: authenticate, lock, swap the database, reset the service. */
    method HandleRestore(b: Container, env: Env) returns (reply: Result<Reply>)
      requires Wired()
      modifies store, index, sessions, vault
      ensures (State(), reply) == OpRestore(old(State()), b, env)
    {
      if !HasKeys(vault.State()) { return Err(VaultLocked); }
      if b.macKey != Some(vault.keyring.value.backup) { return Err(BadContainer); }
      if !vault.loaded { return Err(VaultNotFound); }
      if b.vaultId != vault.vault.id { return Err(WrongVault); }
      vault.Lock();
      if b.snapshot.vault.None? || !env.installs { return Err(Storage); }
      store.db := b.snapshot;
      vault.ResetVault();
      RecordEvent(EVENT_BACKUP_RESTORED, env);
      return Ok(Done);
    }

    method HandleApprove(id: Id, env: Env) returns (reply: Result<Reply>)
      requires Wired()
      modifies store, vault, access
      ensures (State(), reply) == OpApprove(old(State()), id, env)
    {
      hide Access.Approve;
      var r := access.ApprovePairing(id, env.approval, env.now, env.commits);
      if r.Err? { return Err(r.error); }
      RecordEvent(EVENT_APPROVED, env);
      return Ok(Done);
    }

    /** The row first, then the client's sessions. */
    method HandleRevoke(id: Id, env: Env) returns (reply: Result<Reply>)
      requires Wired()
      modifies store, sessions, vault
      ensures (State(), reply) == OpRevoke(old(State()), id, env)
    {
      hide Access.Revoke;
      var r := access.RevokeClient(id, env.commits);
      if r.Err? { return Err(r.error); }
      sessions.DropClient(id);
      RecordEvent(EVENT_REVOKED, env);
      return Ok(Done);
    }

    method HandleCreateRecord(f: Fields, loginOnly: bool, env: Env) returns (reply: Result<Reply>)
      requires Wired()
      modifies store, index, vault
      ensures (State(), reply) == OpCreate(cfg, old(State()), f, loginOnly, env)
    {
      hide Records.Create, FieldsToMetadata;
      var meta := FieldsToMetadata(cfg.web, f);
      if meta.None? { return Err(Validation); }
      var kind := if f.kind == "" || loginOnly then "login" else f.kind;
      var r := records.CreateRecord(kind, meta.value, f.secret, env.id, env.nonces, env.now, env.commits);
      if r.Err? { return Err(r.error); }
      return Ok(NewRecord(r.value));
    }

    method HandleUpdateRecord(id: Id, expected: U64, f: Fields, loginOnly: bool, env: Env)
      returns (reply: Result<Reply>)
      requires Wired()
      modifies store, index, vault
      ensures (State(), reply) == OpUpdate(cfg, old(State()), id, expected, f, loginOnly, env)
    {
      hide Records.Update, FieldsToMetadata;
      if loginOnly {
        if !HasKeys(vault.State()) { return Err(VaultLocked); }
        if id !in index.entries { return Err(RecordNotFound); }
        if index.entries[id].kind != "login" { return Err(AuthorizationDeny); }
      }
      var meta := FieldsToMetadata(cfg.web, f);
      if meta.None? { return Err(Validation); }
      var r := records.UpdateRecordById(id, expected, meta.value, f.secret, env.nonces, env.now, env.commits);
      if r.Err? { return Err(r.error); }
      return Ok(Done);
    }

    method HandleDeleteRecord(id: Id, env: Env) returns (reply: Result<Reply>)
      requires Wired()
      modifies store, index, vault
      ensures (State(), reply) == OpDelete(cfg, old(State()), id, env)
    {
      hide Records.Delete;
      var r := records.DeleteRecordById(id, env.commits);
      if r.Err? { return Err(r.error); }
      return Ok(Done);
    }

    method HandlePair(conn: Connection, kind: int, name: string, staticKey: Blob, env: Env)
      returns (reply: Result<Reply>)
      requires Wired()
      modifies store, access
      ensures (State(), reply) == OpPair(cfg, old(State()), conn.View(), kind, name, staticKey, env)
    {
      hide Access.RequestPairing;
      if staticKey != conn.staticKey { return Err(Validation); }
      var r := access.Request(kind, name, staticKey, env.id, env.now);
      assert r.Err? ==> access.pending == old(access.pending) by {
        RefusedPairing(old(access.pending), cfg.shown, cfg.daemonKey, kind, name, staticKey, env);
      }
      if r.Err? { return Err(r.error); }
      RecordEvent(EVENT_PAIRING_REQUESTED, env);
      return Ok(PairingId(r.value));
    }

    method HandleCreateBackup(env: Env) returns (reply: Result<Reply>)
      requires Wired()
      modifies store
      ensures (State(), reply) == OpCreateBackup(old(State()), env)
    {
      if !HasKeys(vault.State()) { return Err(VaultLocked); }
      if !vault.loaded { return Err(VaultNotFound); }
      if !env.installs { return Err(Storage); }
      var b := Container(vault.vault.id, store.db, Some(vault.keyring.value.backup));
      RecordEvent(EVENT_BACKUP_CREATED, env);
      return Ok(Written(b));
    }

    method HandleStatus() returns (reply: Result<Reply>)
      requires Wired()
      modifies vault
      ensures (State(), reply) == OpStatus(old(State()))
    {
      var r := vault.Load();
      return if r.Err? && r.error != VaultNotFound then Err(r.error) else Ok(Done);
    }

    method DispatchRequest(conn: Connection, req: Request, env: Env) returns (reply: Result<Reply>)
      requires Wired()
      modifies store, index, sessions, vault, access, conn
      ensures (State(), conn.View(), reply) == Dispatch(cfg, old(State()), old(conn.View()), req, env)
    {
      hide OpUnlock, DispatchRest;
      match req
      case UnlockVault(password) => reply := HandleUnlock(conn, password, env);
      case CreateRecord(_, _) => reply := DispatchWrites(conn, req, env);
      case UpdateRecord(_, _, _, _) => reply := DispatchWrites(conn, req, env);
      case DeleteRecord(_) => reply := DispatchWrites(conn, req, env);
      case Pair(_, _, _) => reply := DispatchAccess(conn, req, env);
      case Claim(_) => reply := DispatchAccess(conn, req, env);
      case CancelPairing(_) => reply := DispatchAccess(conn, req, env);
      case Approve(_) => reply := DispatchAccess(conn, req, env);
      case Revoke(_) => reply := DispatchAccess(conn, req, env);
      case _ => reply := DispatchVault(conn, req, env);
    }

    method DispatchVault(conn: Connection, req: Request, env: Env) returns (reply: Result<Reply>)
      requires Wired() && !req.UnlockVault? && !req.CreateRecord? && !req.UpdateRecord? && !req.DeleteRecord?
      requires !req.Pair? && !req.Claim? && !req.CancelPairing? && !req.Approve? && !req.Revoke?
      modifies store, index, sessions, vault
      ensures (State(), reply) == DispatchRest(cfg, old(State()), conn.View(), req, env)
    {
      hide OpStatus, OpInit, OpLock, OpChangePassword, OpDestroy, OpCreateBackup, OpRestore, Records.Reveal,
           Records.RevealForOrigin;
      match req
      case Status => reply := HandleStatus();
      case InitVault(password) => reply := HandleInit(password, env);
      case LockVault(panic) => reply := HandleLock(panic, env);
      case ChangeMaster(current, next) => reply := HandleChangePassword(current, next, env);
      case DestroyVault(password) => reply := HandleDestroy(password, env);
      case RevealRecord(id) => reply := OpReveal(State(), id);
      case RevealForOrigin(id, origin, projectId) => reply := OpRevealForOrigin(cfg, State(), id, origin, projectId);
      case CreateBackup => reply := HandleCreateBackup(env);
      case RestoreBackup(b) => reply := HandleRestore(b, env);
      case Query(op) => reply := QueryAnswer(State(), op);
    }

    method DispatchWrites(conn: Connection, req: Request, env: Env) returns (reply: Result<Reply>)
      requires Wired() && (req.CreateRecord? || req.UpdateRecord? || req.DeleteRecord?)
      modifies store, index, vault
      ensures (State(), reply) == DispatchRest(cfg, old(State()), conn.View(), req, env)
    {
      hide OpCreate, OpUpdate, OpDelete;
      match req
      case CreateRecord(f, loginOnly) => reply := HandleCreateRecord(f, loginOnly, env);
      case UpdateRecord(id, expected, f, loginOnly) => reply := HandleUpdateRecord(id, expected, f, loginOnly, env);
      case DeleteRecord(id) => reply := HandleDeleteRecord(id, env);
    }

    method DispatchAccess(conn: Connection, req: Request, env: Env) returns (reply: Result<Reply>)
      requires Wired() && (req.Pair? || req.Claim? || req.CancelPairing? || req.Approve? || req.Revoke?)
      modifies store, sessions, vault, access
      ensures (State(), reply) == DispatchRest(cfg, old(State()), conn.View(), req, env)
    {
      hide OpPair, OpApprove, OpRevoke, Access.Claim, Access.Cancel;
      match req
      case Pair(kind, name, staticKey) => reply := HandlePair(conn, kind, name, staticKey, env);
      case Claim(id) =>
        var r := access.ClaimCredential(id);
        reply := match r case Ok((client, credential)) => Ok(Credential(client, credential)) case Err(e) => Err(e);
      case CancelPairing(id) =>
        var r := access.CancelPairing(id);
        reply := Acknowledge(r);
      case Approve(id) => reply := HandleApprove(id, env);
      case Revoke(id) => reply := HandleRevoke(id, env);
    }

    /** One request: the pairing allow-list or the capability table first, then the handler. */
    method HandleRequest(conn: Connection, req: Request, env: Env) returns (reply: Result<Reply>)
      requires Wired()
      modifies store, index, sessions, vault, access, conn
      ensures (State(), conn.View(), reply) == Handle(cfg, old(State()), old(conn.View()), req, env)
    {
      hide Authorize, Dispatch, OpOf, Recorded, RequiredCapability, PairingChannelOp;
      var op := OpOf(req);
      if conn.pairing {
        if !PairingChannelOp(op) {
          RecordEvent(EVENT_UNAUTHORIZED, env);
          return Err(AuthorizationDeny);
        }
      } else {
        var capability := RequiredCapability(op);
        if capability.None? { return Err(Validation); }
        var admitted := AuthorizeRequest(conn, op, capability.value, env);
        if admitted.Err? {
          RecordEvent(EVENT_UNAUTHORIZED, env);
          return Err(admitted.error);
        }
      }
      reply := DispatchRequest(conn, req, env);
    }

    /** lookupClient and buildConnState after a completed handshake. */
    method Accept(peer: Peer, env: Env) returns (conn: Connection?)
      requires Wired()
      modifies store, sessions
      ensures match Connect(old(State()), peer, env)
              case None => conn == null && State() == old(State())
              case Some((core, view)) => conn != null && fresh(conn) && State() == core && conn.View() == view
    {
      match peer.hello
      case CliHello =>
        var s := sessions.Issue(env.sessionId, 0, CLI_MASK, vault.vault.epoch, env.now);
        conn := new Connection(Conn(Some(s), 0, false, peer.staticKey));
      case PairingHello =>
        conn := new Connection(Conn(None, 0, true, peer.staticKey));
      case PairedHello(id) =>
        if !Approved(store.db, id) || store.db.clients[id].credential != peer.psk
            || store.db.clients[id].staticKey != peer.staticKey {
          return null;
        }
        var s := sessions.Issue(env.sessionId, id, store.db.clients[id].mask, vault.vault.epoch, env.now);
        if env.recorded {
          store.db := UpdateClientLastSeen(store.db, id, env.now);
        }
        conn := new Connection(Conn(Some(s), id, false, peer.staticKey));
    }
  }

  /** The ways out of authorize that issue nothing. */
  lemma AuthorizeKeeps(c: Core, conn: Conn, op: Op, capability: Capability, env: Env)
    ensures conn.session.None? ==> Authorize(c, conn, op, capability, env) == (c, conn, Err(AuthorizationDeny))
    ensures conn.session.Some? ==>
              var (sessions, alive) := Validated(c.sessions, conn.session.value.id, c.vault.vault.epoch,
                  !IdleExempt(op), env.now);
              var (d, next, r) := Authorize(c, conn, op, capability, env);
              if alive then
                d == c.(sessions := sessions) && next == conn && r == Verdict(conn.session.value.mask, capability)
              else if (!c.vault.vault.unlocked && !LockedStateOp(op))
                  || (conn.clientId != 0 && !Approved(c.db, conn.clientId)) then
                d == c.(sessions := sessions) && next == conn && r == Err(AuthorizationDeny)
              else true
  {
    hide Has, Validated, NewSession, LockedStateOp, IdleExempt;
  }

  /** The one that renews the session at the current epoch. */
  lemma AuthorizeRenews(c: Core, conn: Conn, op: Op, capability: Capability, env: Env, sessions: SessionMap)
    requires conn.session.Some? && (c.vault.vault.unlocked || LockedStateOp(op))
    requires conn.clientId != 0 ==> Approved(c.db, conn.clientId)
    requires Validated(c.sessions, conn.session.value.id, c.vault.vault.epoch, !IdleExempt(op), env.now)
             == (sessions, false)
    ensures var mask := if conn.clientId != 0 then ApprovedMask(c.db, conn.clientId) else conn.session.value.mask;
            var issued := NewSession(env.sessionId, conn.clientId, mask, c.vault.vault.epoch, env.now);
            var (d, next, r) := Authorize(c, conn, op, capability, env);
            d == c.(sessions := sessions[env.sessionId := issued]) && next == conn.(session := Some(issued))
                && r == Verdict(mask, capability)
  {
    hide Has, Validated, NewSession, LockedStateOp, IdleExempt, Approved;
  }

  /** The four ways out of authorize. */
  lemma AuthorizeCases(c: Core, conn: Conn, op: Op, capability: Capability, env: Env)
    ensures conn.session.None? ==> Authorize(c, conn, op, capability, env) == (c, conn, Err(AuthorizationDeny))
    ensures conn.session.Some? ==>
              var (sessions, alive) := Validated(c.sessions, conn.session.value.id, c.vault.vault.epoch,
                  !IdleExempt(op), env.now);
              var (d, next, r) := Authorize(c, conn, op, capability, env);
              if alive then
                d == c.(sessions := sessions) && next == conn && r == Verdict(conn.session.value.mask, capability)
              else if (!c.vault.vault.unlocked && !LockedStateOp(op))
                  || (conn.clientId != 0 && !Approved(c.db, conn.clientId)) then
                d == c.(sessions := sessions) && next == conn && r == Err(AuthorizationDeny)
              else
                var mask := if conn.clientId != 0 then ApprovedMask(c.db, conn.clientId) else conn.session.value.mask;
                var issued := NewSession(env.sessionId, conn.clientId, mask, c.vault.vault.epoch, env.now);
                d == c.(sessions := sessions[env.sessionId := issued]) && next == conn.(session := Some(issued))
                    && r == Verdict(mask, capability)
  {
    hide Authorize, Validated, Has, NewSession, LockedStateOp, IdleExempt, Approved;
    AuthorizeKeeps(c, conn, op, capability, env);
    if conn.session.Some? && (c.vault.vault.unlocked || LockedStateOp(op))
        && (conn.clientId != 0 ==> Approved(c.db, conn.clientId)) {
      var (sessions, alive) := Validated(c.sessions, conn.session.value.id, c.vault.vault.epoch, !IdleExempt(op),
          env.now);
      if !alive { AuthorizeRenews(c, conn, op, capability, env, sessions); }
    }
  }

  function Verdict(mask: U64, capability: Capability): Result<()> {
    if Has(mask, capability) then Ok(()) else Err(AuthorizationDeny)
  }

  lemma RefusedPairing(pending: PendingMap, shown: Shown, daemonKey: Bytes, kind: int, name: string, key: Blob,
      env: Env)
    ensures Access.RequestPairing(pending, shown, daemonKey, kind, name, key, env.id, env.now).1.Err? ==>
              Access.RequestPairing(pending, shown, daemonKey, kind, name, key, env.id, env.now).0 == pending
  {
  }
}
