/** What the access invariants add up to: dead sessions, browser limits, revocation, one-time pairing. */
module Confinement {
  import opened Octets
  import opened Tables
  import opened Origins
  import opened RecordIndex
  import opened Codec
  import opened Sessions
  import opened Vault
  import opened Daemon
  import opened History
  import opened AccessSafety
  import Access
  import Catalog
  import Records

  // ---- Sessions end with the lock --------------------------------------------------------------------------

  /** Lock, panic lock, password change, restore and destroy when they succeed; the idle lock; a restart. */
  predicate Locks(cfg: Config, w: World, e: Event) {
    match e
    case Connection(_, _, _) => false
    case Incoming(k, req, env) =>
      k in w.conns && Handle(cfg, w.core, w.conns[k], req, env).2.Ok?
      && (req.LockVault? || req.ChangeMaster? || req.DestroyVault? || req.RestoreBackup?)
    case IdleLock(_) => w.core.vault.vault.unlocked
    case Restart => true
  }

  lemma UnlockOrClear(cfg: Config, c: Core, conn: Conn, password: string, env: Env)
    requires c.vault.vault.unlocked ==> c.vault.loaded
    ensures var d := OpUnlock(cfg, c, conn, password, env).0;
            (c.vault.vault.unlocked && !d.vault.vault.unlocked ==> d.sessions == map[])
                && (c.vault.loaded ==> d.vault.loaded)
  {
    hide OpenEnvelope, DeriveKeyring, Catalog.VerdictOn, Catalog.StampOf, Records.LoadIndex,
         InsertSecurityEvent;
  }

  lemma PlainKeepsUnlocked(cfg: Config, c: Core, conn: Conn, req: Request, env: Env)
    requires PlainRequest(req) || req.Pair? || req.Claim? || req.CancelPairing? || req.Approve? || req.Revoke?
    requires c.vault.vault.unlocked ==> c.vault.loaded
    ensures var d := DispatchRest(cfg, c, conn, req, env).0;
            (c.vault.vault.unlocked ==> d.vault.vault.unlocked) && (c.vault.loaded ==> d.vault.loaded)
  {
    hide BuildEnvelope, DeriveKeyring, Catalog.StampOf, Records.Reveal, Records.RevealForOrigin,
         FieldsToMetadata, Records.SealedRow, ValidRecord, PutEntry, RemoveEntry, ParamsValid, Access.ClientFor,
         Access.RequestPairing, Access.Claim, Access.Cancel, WithoutClient, UpdateClientStatus,
         Tables.UpdateRecord, Tables.DeleteRecord, Tables.InsertRecord, InsertSecurityEvent;
  }

  lemma FailuresKeepUnlocked(cfg: Config, c: Core, req: Request, env: Env)
    requires req.ChangeMaster? || req.DestroyVault? || req.RestoreBackup?
    requires c.vault.vault.unlocked ==> c.vault.loaded
    ensures var (d, r) := DispatchRest(cfg, c, Conn(None, 0, false, []), req, env);
            r.Err? && d.sessions != map[] ==>
              && (c.vault.vault.unlocked ==> d.vault.vault.unlocked)
              && (c.vault.loaded ==> d.vault.loaded)
  {
    hide Unwrap, BuildEnvelope, DeriveKeyring, Catalog.StampOf;
  }

  lemma DispatchClears(cfg: Config, c: Core, conn: Conn, req: Request, env: Env)
    requires c.vault.vault.unlocked ==> c.vault.loaded
    ensures var (d, _, r) := Dispatch(cfg, c, conn, req, env);
            && (r.Ok? && (req.LockVault? || req.ChangeMaster? || req.DestroyVault? || req.RestoreBackup?) ==>
                 d.sessions == map[])
            && ((c.vault.vault.unlocked && !d.vault.vault.unlocked) || (c.vault.loaded && !d.vault.loaded) ==>
                 d.sessions == map[])
  {
    hide OpUnlock, OpStatus, OpInit, OpLock, OpChangePassword, OpDestroy, OpCreate, OpUpdate, OpDelete, OpClaim,
         OpCancel, OpPair, OpApprove, OpRevoke, OpCreateBackup, OpRestore, Records.Reveal,
         Records.RevealForOrigin;
    match req
    case UnlockVault(password) => UnlockOrClear(cfg, c, conn, password, env);
    case LockVault(panic) => LockAccess(c, panic, env);
    case ChangeMaster(current, next) =>
      ChangePasswordKeepsAccess(cfg, c, current, next, env);
      FailuresKeepUnlocked(cfg, c, req, env);
    case DestroyVault(password) => DestroyKeepsAccess(c, password, env); FailuresKeepUnlocked(cfg, c, req, env);
    case RestoreBackup(b) => RestoreKeepsAccess(c, b, env); FailuresKeepUnlocked(cfg, c, req, env);
    case _ => PlainKeepsUnlocked(cfg, c, conn, req, env);
  }

  /** Whatever locks the vault or resets the service also empties the session map. */
  lemma LockingClearsSessions(cfg: Config, w: World, e: Event)
    requires AccessInv(w) && Possible(w, e) && (w.core.vault.vault.unlocked ==> w.core.vault.loaded)
    ensures var v := Next(cfg, w, e).core.vault;
            Locks(cfg, w, e) || (w.core.vault.vault.unlocked && !v.vault.unlocked)
                || (w.core.vault.loaded && !v.loaded) ==>
              Next(cfg, w, e).core.sessions == map[]
  {
    hide Admit, Dispatch, Connect, CommittedBy, Logged, SessionsOk, ConnOk, ClientsOk, PendingOk, Tame,
         FreshIds, FreshEnv;
    match e
    case Connection(k, peer, env) => ConnectKeepsVault(w.core, peer, env);
    case Incoming(k, req, env) =>
      FreshSession(w, env);
      AdmitIsTame(w.core, w.conns[k], OpOf(req), env, w.used);
      var (d, next, admitted) := Admit(w.core, w.conns[k], OpOf(req), env);
      if admitted.Ok? { DispatchClears(cfg, d, next, req, env); }
    case IdleLock(env) =>
    case Restart =>
  }

  lemma FreshSession(w: World, env: Env)
    requires FreshEnv(w, env)
    ensures env.sessionId !in w.used
  {
    assert env.sessionId in FreshIds(env);
  }

  lemma ConnectKeepsVault(c: Core, peer: Peer, env: Env)
    ensures Connect(c, peer, env).Some? ==> Connect(c, peer, env).value.0.vault == c.vault
  {
  }

  lemma {:induction false} DeadIdsStayDead(cfg: Config, w: World, es: seq<Event>, dead: set<Id>)
    requires AccessInv(w) && PossibleRun(cfg, w, es) && dead <= w.used && w.core.sessions.Keys !! dead
    ensures Run(cfg, w, es).core.sessions.Keys !! dead
  {
    hide AccessInv, Possible, Next;
    if es != [] {
      var before := Run(cfg, w, es[..|es| - 1]);
      DeadIdsStayDead(cfg, w, es[..|es| - 1], dead);
      RunKeepsAccess(cfg, w, es[..|es| - 1]);
      StepKeepsAccess(cfg, before, es[|es| - 1]);
    }
  }

  /**
   No session issued before a lock, panic lock, password change, restore, destroy or restart ever validates again,
   at any clock and any epoch, although a reset returns the epoch to 0.
   */
  lemma NoSessionSurvivesALock(cfg: Config, w: World, e: Event, es: seq<Event>, id: Id, epoch: nat, activity: bool,
      now: int)
    requires AccessInv(w) && Possible(w, e) && (w.core.vault.vault.unlocked ==> w.core.vault.loaded)
    requires Locks(cfg, w, e) || (w.core.vault.vault.unlocked && !Next(cfg, w, e).core.vault.vault.unlocked)
    requires PossibleRun(cfg, Next(cfg, w, e), es) && id in Next(cfg, w, e).used
    ensures !Validated(Run(cfg, Next(cfg, w, e), es).core.sessions, id, epoch, activity, now).1
  {
    hide AccessInv, Possible, Next, Locks, PossibleRun, Run;
    LockingClearsSessions(cfg, w, e);
    StepKeepsAccess(cfg, w, e);
    DeadIdsStayDead(cfg, Next(cfg, w, e), es, Next(cfg, w, e).used);
  }

  /** An admitted request has a live session of the current epoch that holds the capability of its operation. */
  lemma AdmittedIsLive(c: Core, conn: Conn, op: Op, env: Env, used: set<Id>)
    requires ConnOk(conn, c.sessions, used)
    ensures var (d, next, r) := Admit(c, conn, op, env);
            r.Ok? ==>
              if conn.pairing then PairingChannelOp(op)
              else
                && RequiredCapability(op).Some? && next.session.Some? && next.session.value.id in d.sessions
                && var s := d.sessions[next.session.value.id];
                && ValidAt(s, env.now, d.vault.vault.epoch) && s.clientId == conn.clientId
                && Has(s.mask, RequiredCapability(op).value) && s.mask == next.session.value.mask
  {
    hide Has, Browser;
  }

  /** A daemon started on a database whose client rows came from pairings. */
  lemma StartIsConfined(cfg: Config, w: World)
    requires Start(cfg, w) && 0 !in w.used && ClientsOk(w.core.db, w.used)
    ensures AccessInv(w)
  {
    hide DbOk, ClientsOk;
  }

  /** After any run: an admitted request has a session that is in the map, unexpired, of this epoch, and capable. */
  lemma EveryAdmittedRequestIsLive(cfg: Config, w: World, es: seq<Event>, k: nat, op: Op, env: Env)
    requires Start(cfg, w) && 0 !in w.used && ClientsOk(w.core.db, w.used) && PossibleRun(cfg, w, es)
             && k in Run(cfg, w, es).conns
    ensures var end := Run(cfg, w, es);
            var (d, next, r) := Admit(end.core, end.conns[k], op, env);
            r.Ok? && !end.conns[k].pairing ==>
              && RequiredCapability(op).Some? && next.session.Some? && next.session.value.id in d.sessions
              && var s := d.sessions[next.session.value.id];
              && s.epoch == end.core.vault.vault.epoch && env.now <= s.expiresAt
              && s.clientId == end.conns[k].clientId && Has(s.mask, RequiredCapability(op).value)
  {
    hide SessionsOk, ConnOk, ClientsOk, PendingOk, Admit, PossibleRun, Run, Has, DbOk;
    StartIsConfined(cfg, w);
    RunKeepsAccess(cfg, w, es);
    var end := Run(cfg, w, es);
    AdmittedIsLive(end.core, end.conns[k], op, env, end.used);
    AdmitSameVault(end.core, end.conns[k], op, env);
  }

  lemma AdmitSameVault(c: Core, conn: Conn, op: Op, env: Env)
    ensures Admit(c, conn, op, env).0.vault == c.vault
  {
    hide Validated, Has, Access.Approved;
  }

  /** A session can be renewed: the vault is unlocked, or the request may run locked; a client has to be approved. */
  predicate Renewable(c: Core, conn: Conn, op: Op) {
    && (c.vault.vault.unlocked || op == StatusOp || op == UnlockOp)
    && (conn.clientId != 0 ==>
          conn.clientId in c.db.clients && c.db.clients[conn.clientId].status == STATUS_APPROVED)
  }

  /** The session is in the map, of this epoch, and not expired. */
  predicate Alive(c: Core, conn: Conn, env: Env) {
    && conn.session.Some? && conn.session.value.id in c.sessions
    && c.sessions[conn.session.value.id].epoch == c.vault.vault.epoch
    && env.now <= c.sessions[conn.session.value.id].expiresAt
  }

  lemma ValidatedMeans(c: Core, conn: Conn, activity: bool, env: Env)
    requires conn.session.Some?
    ensures var id := conn.session.value.id;
            Validated(c.sessions, id, c.vault.vault.epoch, activity, env.now) ==
              if !Alive(c, conn, env) then (c.sessions - {id}, false)
              else if activity then (c.sessions[id := c.sessions[id].(lastActivity := env.now)], true)
              else (c.sessions, true)
  {
    if conn.session.value.id !in c.sessions {
      assert c.sessions - {conn.session.value.id} == c.sessions;
    }
  }

  /** A live session decides by its own mask, and notes the activity, unless the request only asks for the status. */
  lemma AliveDecides(c: Core, conn: Conn, op: Op, capability: Capability, env: Env)
    requires conn.session.Some? && Alive(c, conn, env)
    ensures var (d, next, r) := Authorize(c, conn, op, capability, env);
            var id := conn.session.value.id;
            && (r.Ok? <==> Has(conn.session.value.mask, capability)) && next == conn
            && d.sessions == (if op == StatusOp then c.sessions
                              else c.sessions[id := c.sessions[id].(lastActivity := env.now)])
  {
    hide Has, Validated, Alive;
    ValidatedMeans(c, conn, !IdleExempt(op), env);
  }

  /** A dead one is renewed for twelve hours at the epoch that holds now; a client by the mask in its row. */
  lemma RenewalDecides(c: Core, conn: Conn, op: Op, capability: Capability, env: Env)
    requires conn.session.Some? && !Alive(c, conn, env) && Renewable(c, conn, op)
    ensures var (d, next, r) := Authorize(c, conn, op, capability, env);
            && next.session.Some?
            && var s := next.session.value;
            && (r.Ok? <==> Has(s.mask, capability))
            && s.mask == (if conn.clientId != 0 then c.db.clients[conn.clientId].mask else conn.session.value.mask)
            && s.id == env.sessionId && s.clientId == conn.clientId && s.epoch == c.vault.vault.epoch
            && s.lastActivity == env.now && s.expiresAt == env.now + 43_200 * 1_000_000_000
            && d.sessions == (c.sessions - {conn.session.value.id})[s.id := s]
  {
    hide Has, Validated, Alive;
    ValidatedMeans(c, conn, !IdleExempt(op), env);
  }

  lemma DeadIsDenied(c: Core, conn: Conn, op: Op, capability: Capability, env: Env)
    requires conn.session.Some? && !Alive(c, conn, env) && !Renewable(c, conn, op)
    ensures var (d, next, r) := Authorize(c, conn, op, capability, env);
            r.Err? && next == conn && d.sessions == c.sessions - {conn.session.value.id}
  {
    hide Has, Validated, Alive;
    ValidatedMeans(c, conn, !IdleExempt(op), env);
  }

  /**
   Which requests are admitted: on a pairing channel its four operations; elsewhere those for which the session has
   the capability, or, once the session is dead and can be renewed, the client's row has it.
   */
  lemma AdmittedExactly(c: Core, conn: Conn, op: Op, env: Env)
    ensures Admit(c, conn, op, env).2.Ok? <==>
      if conn.pairing then op in {PairOp, ClaimOp, CancelOp, StatusOp}
      else
        && conn.session.Some? && RequiredCapability(op).Some?
        && var capability := RequiredCapability(op).value;
        && if Alive(c, conn, env) then Has(conn.session.value.mask, capability)
           else if conn.clientId == 0 then Renewable(c, conn, op) && Has(conn.session.value.mask, capability)
           else Renewable(c, conn, op) && Has(c.db.clients[conn.clientId].mask, capability)
  {
    hide Has, RequiredCapability, Alive, Authorize;
    if conn.session.Some? && RequiredCapability(op).Some? {
      var capability := RequiredCapability(op).value;
      if Alive(c, conn, env) {
        AliveDecides(c, conn, op, capability, env);
      } else if Renewable(c, conn, op) {
        RenewalDecides(c, conn, op, capability, env);
      } else {
        DeadIsDenied(c, conn, op, capability, env);
      }
    } else if RequiredCapability(op).Some? {
      NoSessionNoEntry(c, conn, op, RequiredCapability(op).value, env);
    }
  }

  lemma NoSessionNoEntry(c: Core, conn: Conn, op: Op, capability: Capability, env: Env)
    requires conn.session.None?
    ensures Authorize(c, conn, op, capability, env).2.Err?
  {
  }

  // ---- Browser clients -------------------------------------------------------------------------------------

  predicate BrowserOp(op: Op) {
    op in {StatusOp, UnlockOp, LockOp, PanicOp, MatchOp, RevealForOriginOp, CreateLoginOp, UpdateLoginOp, GenerateOp}
  }

  predicate ChromeCapability(c: Capability) {
    c == VaultStatus || c == VaultUnlock || c == VaultLock || c == RecordMatch || c == RecordRevealForOrigin
    || c == RecordCreateLogin || c == RecordUpdateLogin || c == PasswordGenerate
  }

  /** The bits of the two browser masks, one capability at a time. */
  lemma ChromeBits(c: Capability)
    ensures Has(CHROME_MASK, c) <==> ChromeCapability(c)
  {
    assert CHROME_MASK == 0x1f07;
    match c
    case VaultStatus => case VaultUnlock => case VaultLock => case RecordList => case RecordRead =>
    case RecordReveal => case RecordWrite => case RecordDelete => case RecordMatch =>
    case RecordRevealForOrigin => case RecordCreateLogin => case RecordUpdateLogin =>
    case PasswordGenerate => case BackupCreate => case BackupRestore => case ClientAdmin =>
    case PasswordChange => case VaultDestroy => case Relay => case Pair =>
  }

  lemma RelayBits(c: Capability)
    ensures Has(RELAY_MASK, c) <==> c == VaultStatus || c == Relay
  {
    assert RELAY_MASK == 0x4_0001;
    match c
    case VaultStatus => case VaultUnlock => case VaultLock => case RecordList => case RecordRead =>
    case RecordReveal => case RecordWrite => case RecordDelete => case RecordMatch =>
    case RecordRevealForOrigin => case RecordCreateLogin => case RecordUpdateLogin =>
    case PasswordGenerate => case BackupCreate => case BackupRestore => case ClientAdmin =>
    case PasswordChange => case VaultDestroy => case Relay => case Pair =>
  }

  /** The command line may do everything but what is made for browsers, and the pairing channel's own. */
  lemma CliCapabilities(op: Op)
    ensures RequiredCapability(op).Some? && Has(CLI_MASK, RequiredCapability(op).value) <==>
            op !in {CreateLoginOp, UpdateLoginOp, PairOp, ClaimOp, CancelOp}
  {
    assert CLI_MASK == 0x3f3ff;
  }

  lemma BrowserCapabilities(op: Op)
    ensures RequiredCapability(op).Some? && Has(CHROME_MASK, RequiredCapability(op).value) <==> BrowserOp(op)
    ensures RequiredCapability(op).Some? && Has(RELAY_MASK, RequiredCapability(op).value) <==> op == StatusOp
  {
    hide Has;
    if RequiredCapability(op).Some? {
      ChromeBits(RequiredCapability(op).value);
      RelayBits(RequiredCapability(op).value);
    }
  }

  /** A paired client is never admitted to anything outside the browser sets, whatever the run before. */
  lemma BrowserClientsAreConfined(cfg: Config, w: World, es: seq<Event>, k: nat, op: Op, env: Env)
    requires AccessInv(w) && PossibleRun(cfg, w, es)
    requires k in Run(cfg, w, es).conns && Run(cfg, w, es).conns[k].clientId != 0 && FreshEnv(Run(cfg, w, es), env)
    ensures Admit(Run(cfg, w, es).core, Run(cfg, w, es).conns[k], op, env).2.Ok? ==> BrowserOp(op)
  {
    hide SessionsOk, ClientsOk, PendingOk, Admit, PossibleRun, Run, Has, FreshIds;
    RunKeepsAccess(cfg, w, es);
    var end := Run(cfg, w, es);
    var conn := end.conns[k];
    FreshSession(end, env);
    AdmitIsTame(end.core, conn, op, env, end.used);
    AdmittedIsLive(end.core, conn, op, env, end.used);
    BrowserCapabilities(op);
  }

  // ---- Revocation --------------------------------------------------------------------------------------------

  /** No approved row, no session: nothing admits this client. */
  ghost predicate DeadClient(w: World, id: Id) {
    id != 0 && id in w.used && !Access.Approved(w.core.db, id) && NoSessionFor(w.core.sessions, id)
  }

  ghost predicate NoSessionFor(sessions: SessionMap, client: Id) {
    forall s | s in sessions :: sessions[s].clientId != client
  }

  lemma AuthorizeSparesDead(c: Core, conn: Conn, op: Op, capability: Capability, env: Env, used: set<Id>, id: Id)
    requires ConnOk(conn, c.sessions, used) && id != 0 && !Access.Approved(c.db, id) && NoSessionFor(c.sessions, id)
    ensures var (d, next, r) := Authorize(c, conn, op, capability, env);
            NoSessionFor(d.sessions, id) && (conn.clientId == id ==> r.Err?)
  {
    hide Has, Browser;
  }

  lemma AdmitSparesDead(c: Core, conn: Conn, op: Op, env: Env, used: set<Id>, id: Id)
    requires ConnOk(conn, c.sessions, used) && id != 0 && !Access.Approved(c.db, id) && NoSessionFor(c.sessions, id)
    ensures var (d, next, r) := Admit(c, conn, op, env);
            NoSessionFor(d.sessions, id) && (conn.clientId == id ==> r.Err?)
  {
    hide Authorize, NoSessionFor, Browser, Access.Approved;
    if !conn.pairing && RequiredCapability(op).Some? {
      AuthorizeSparesDead(c, conn, op, RequiredCapability(op).value, env, used, id);
    }
  }

  lemma ReissueOwned(c: Core, conn: Conn, env: Env, id: Id)
    requires NoSessionFor(c.sessions, id) && conn.clientId != id
    ensures NoSessionFor(Reissued(c, conn, env).0.sessions, id)
  {
  }

  lemma UnlockOwned(cfg: Config, c: Core, conn: Conn, password: string, env: Env, id: Id)
    requires NoSessionFor(c.sessions, id) && conn.clientId != id
    ensures NoSessionFor(OpUnlock(cfg, c, conn, password, env).0.sessions, id)
  {
    hide NoSessionFor, Records.LoadIndex, Vault.Unlock, Vault.VerifyCatalog, Reissued, InsertSecurityEvent;
    NobodyHome(id);
    var (v, r) := Vault.Unlock(c.vault, c.db, password, env.now, env.after);
    if r.Ok? {
      var (s, loaded) := Records.LoadIndex(cfg.web, Records.RecordState(c.db, v, c.index));
      var (w, db, verified) := Vault.VerifyCatalog(v, c.db, env.commits);
      var e := c.(vault := w, index := s.index, db := db);
      var f := if verified.Ok? && verified.value then Recorded(e, EVENT_BOOTSTRAPPED, env) else e;
      ReissueOwned(f, conn, env, id);
    }
  }

  lemma NobodyHome(id: Id)
    ensures NoSessionFor(map[], id)
  {
  }

  lemma DroppedStay(s: SessionMap, client: Id, id: Id)
    ensures NoSessionFor(s, id) ==> NoSessionFor(WithoutClient(s, client), id)
    ensures NoSessionFor(WithoutClient(s, client), client)
  {
  }

  lemma DispatchSparesDead(cfg: Config, c: Core, conn: Conn, req: Request, env: Env, id: Id)
    requires NoSessionFor(c.sessions, id) && conn.clientId != id
    ensures NoSessionFor(Dispatch(cfg, c, conn, req, env).0.sessions, id)
  {
    hide NoSessionFor, OpUnlock, OpStatus, OpInit, OpLock, OpChangePassword, OpDestroy, OpCreate, OpUpdate,
         OpDelete, OpClaim, OpCancel, OpPair, OpApprove, OpRevoke, OpCreateBackup, OpRestore, Records.Reveal,
         Records.RevealForOrigin, WithoutClient;
    NobodyHome(id);
    match req
    case UnlockVault(password) => UnlockOwned(cfg, c, conn, password, env, id);
    case LockVault(panic) => LockAccess(c, panic, env);
    case ChangeMaster(current, next) => ChangePasswordKeepsAccess(cfg, c, current, next, env);
    case DestroyVault(password) => DestroyKeepsAccess(c, password, env);
    case RestoreBackup(b) => RestoreKeepsAccess(c, b, env);
    case Approve(p) => ApproveSessions(c, p, env);
    case Revoke(client) => RevokeAccess(c, client, env); DroppedStay(c.sessions, client, id);
    case Pair(kind, name, key) => PairSessions(cfg, c, conn, kind, name, key, env);
    case Claim(p) => ClaimAccess(c, p, env.id);
    case CancelPairing(p) => CancelAccess(c, p, env.id);
    case _ => PlainRequestsKeepAccess(cfg, c, conn, req, env);
  }

  lemma ApproveSessions(c: Core, id: Id, env: Env)
    ensures OpApprove(c, id, env).0.sessions == c.sessions
  {
    hide Access.Approve;
  }

  lemma PairSessions(cfg: Config, c: Core, conn: Conn, kind: int, name: string, key: Blob, env: Env)
    ensures OpPair(cfg, c, conn, kind, name, key, env).0.sessions == c.sessions
  {
    hide Access.RequestPairing;
  }

  lemma TameKeepsUnapproved(a: Database, b: Database, newId: Id, id: Id)
    requires ClientsTame(a, b, newId) && id != newId && !Access.Approved(a, id)
    ensures !Access.Approved(b, id)
  {
  }

  lemma FreshIdsUnused(w: World, env: Env)
    requires FreshEnv(w, env)
    ensures env.approval.clientId !in w.used && env.id !in w.used && env.sessionId !in w.used
  {
    assert env.approval.clientId in FreshIds(env) && env.id in FreshIds(env) && env.sessionId in FreshIds(env);
  }

  lemma DeadClientStays(cfg: Config, w: World, e: Event, id: Id)
    requires AccessInv(w) && Possible(w, e) && !IsRestore(e) && DeadClient(w, id)
    ensures DeadClient(Next(cfg, w, e), id)
  {
    hide SessionsOk, ConnOk, ClientsOk, PendingOk, NoSessionFor, Access.Approved, Admit, Dispatch, Connect,
         CommittedBy, Logged, Tame, FreshEnv, ClientsTame, PendingTame;
    match e
    case Connection(k, peer, env) => FreshIdsUnused(w, env); ConnectSparesDead(w.core, peer, env, id);
    case Incoming(k, req, env) =>
      FreshIdsUnused(w, env);
      HandleAccess(cfg, w, k, req, env);
      AdmitIsTame(w.core, w.conns[k], OpOf(req), env, w.used);
      AdmitSparesDead(w.core, w.conns[k], OpOf(req), env, w.used, id);
      var (d, next, admitted) := Admit(w.core, w.conns[k], OpOf(req), env);
      if admitted.Ok? { DispatchSparesDead(cfg, d, next, req, env, id); }
      TameKeepsUnapproved(w.core.db, Next(cfg, w, e).core.db, env.approval.clientId, id);
    case IdleLock(env) => NobodyHome(id); LockedApproved(w.core, env, id);
    case Restart => NobodyHome(id);
  }

  lemma LockedApproved(c: Core, env: Env, id: Id)
    ensures Access.Approved(OpLock(c, false, env).0.db, id) == Access.Approved(c.db, id)
  {
  }

  lemma ConnectSparesDead(c: Core, peer: Peer, env: Env, id: Id)
    requires id != 0 && !Access.Approved(c.db, id) && NoSessionFor(c.sessions, id)
    ensures peer.hello == PairedHello(id) ==> Connect(c, peer, env).None?
    ensures Connect(c, peer, env).Some? ==>
              !Access.Approved(Connect(c, peer, env).value.0.db, id)
                  && NoSessionFor(Connect(c, peer, env).value.0.sessions, id)
  {
  }

  lemma {:induction false} DeadClientStaysInRuns(cfg: Config, w: World, es: seq<Event>, id: Id)
    requires AccessInv(w) && PossibleRun(cfg, w, es) && RestoreFree(es) && DeadClient(w, id)
    ensures DeadClient(Run(cfg, w, es), id) && AccessInv(Run(cfg, w, es))
  {
    hide AccessInv, Possible, Next, DeadClient, IsRestore;
    if es != [] {
      DeadClientStaysInRuns(cfg, w, es[..|es| - 1], id);
      RunKeepsAccess(cfg, w, es);
      DeadClientStays(cfg, Run(cfg, w, es[..|es| - 1]), es[|es| - 1], id);
    }
  }

  lemma RevokeKills(cfg: Config, w: World, k: nat, id: Id, env: Env)
    requires AccessInv(w) && Possible(w, Incoming(k, Revoke(id), env))
             && Handle(cfg, w.core, w.conns[k], Revoke(id), env).2.Ok?
    ensures DeadClient(Next(cfg, w, Incoming(k, Revoke(id), env)), id)
  {
    hide SessionsOk, ConnOk, PendingOk, Admit, CommittedBy, Logged, Tame, FreshEnv, OpRevoke, WithoutClient;
    FreshIdsUnused(w, env);
    AdmitIsTame(w.core, w.conns[k], RevokeOp, env, w.used);
    var (d, next, admitted) := Admit(w.core, w.conns[k], RevokeOp, env);
    RevokeAccess(d, id, env);
    DroppedStay(d.sessions, id, id);
  }

  /**
   Revocation is permanent in restore-free runs: after a successful revoke, through any locks, unlocks and
   re-issues, no request of that client is admitted on any connection, and no later handshake looks it up.
   */
  lemma RevocationIsPermanent(cfg: Config, w: World, k: nat, id: Id, env: Env, es: seq<Event>, op: Op, later: Env,
      conn: nat, peer: Peer)
    requires AccessInv(w) && Possible(w, Incoming(k, Revoke(id), env))
             && Handle(cfg, w.core, w.conns[k], Revoke(id), env).2.Ok?
    requires PossibleRun(cfg, Next(cfg, w, Incoming(k, Revoke(id), env)), es) && RestoreFree(es)
    ensures var end := Run(cfg, Next(cfg, w, Incoming(k, Revoke(id), env)), es);
            && (conn in end.conns && end.conns[conn].clientId == id ==>
                 Admit(end.core, end.conns[conn], op, later).2.Err?)
            && (peer.hello == PairedHello(id) ==> Connect(end.core, peer, later).None?)
  {
    hide SessionsOk, ConnOk, ClientsOk, PendingOk, NoSessionFor, Access.Approved, Admit, Connect, Next,
         Possible, PossibleRun, Run, RestoreFree, Handle;
    RevokeKills(cfg, w, k, id, env);
    StepKeepsAccess(cfg, w, Incoming(k, Revoke(id), env));
    var start := Next(cfg, w, Incoming(k, Revoke(id), env));
    DeadClientStaysInRuns(cfg, start, es, id);
    var end := Run(cfg, start, es);
    ConnectSparesDead(end.core, peer, later, id);
    if conn in end.conns {
      AdmitSparesDead(end.core, end.conns[conn], op, later, end.used, id);
    }
  }
}
