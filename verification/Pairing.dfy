/** Pairing over runs: approved once, claimed once, and what a claimed credential is worth. */
module Pairing {
  import opened Octets
  import opened Tables
  import opened Origins
  import opened RecordIndex
  import opened Codec
  import opened Sessions
  import opened Vault
  import opened Daemon
  import opened History
  import opened AccessSafety
  import opened Confinement
  import Access
  import Catalog
  import Records

  // ---- Once ---------------------------------------------------------------------------------------------------

  /** Approved already, or gone. */
  ghost predicate Settled(w: World, p: Id) {
    p in w.used && (p in w.core.pending ==> w.core.pending[p].approved)
  }

  ghost predicate Spent(w: World, p: Id) { p in w.used && p !in w.core.pending }

  lemma TamePairing(a: Access.PendingMap, b: Access.PendingMap, newId: Id, p: Id)
    requires PendingTame(a, b, newId) && p != newId
    ensures p in b ==> p in a
    ensures (p in a ==> a[p].approved) ==> (p in b ==> b[p] == a[p])
  {
  }

  lemma StepSettles(cfg: Config, w: World, e: Event, p: Id)
    requires AccessInv(w) && Possible(w, e)
    ensures Settled(w, p) ==> Settled(Next(cfg, w, e), p)
    ensures Spent(w, p) ==> Spent(Next(cfg, w, e), p)
  {
    hide SessionsOk, ConnOk, ClientsOk, PendingOk, Handle, Connect, CommittedBy, Logged, Tame, FreshEnv,
         ClientsTame, PendingTame;
    match e
    case Connection(k, peer, env) =>
      ConnectAccess(w.core, peer, env, w.used, w.used + FreshIds(env)) by { FreshIdsUnused(w, env); }
    case Incoming(k, req, env) =>
      FreshIdsUnused(w, env);
      HandleAccess(cfg, w, k, req, env);
      if p in w.used { TamePairing(w.core.pending, Next(cfg, w, e).core.pending, env.id, p); }
    case IdleLock(env) => LockAccess(w.core, false, env);
    case Restart =>
  }

  lemma {:induction false} RunSettles(cfg: Config, w: World, es: seq<Event>, p: Id)
    requires AccessInv(w) && PossibleRun(cfg, w, es)
    ensures Settled(w, p) ==> Settled(Run(cfg, w, es), p)
    ensures Spent(w, p) ==> Spent(Run(cfg, w, es), p)
  {
    hide AccessInv, Possible, Next, Settled, Spent;
    if es != [] {
      RunSettles(cfg, w, es[..|es| - 1], p);
      RunKeepsAccess(cfg, w, es[..|es| - 1]);
      StepSettles(cfg, Run(cfg, w, es[..|es| - 1]), es[|es| - 1], p);
    }
  }

  /** The reply to one request, None when the connection does not exist. */
  function ReplyTo(cfg: Config, w: World, k: nat, req: Request, env: Env): Option<Reply> {
    if k !in w.conns then None
    else match Handle(cfg, w.core, w.conns[k], req, env).2 case Ok(r) => Some(r) case Err(_) => None
  }

  lemma AdmittedReply(cfg: Config, w: World, k: nat, req: Request, env: Env) returns (d: Core, conn: Conn)
    requires AccessInv(w) && Possible(w, Incoming(k, req, env)) && ReplyTo(cfg, w, k, req, env).Some?
             && !req.UnlockVault?
    ensures d.pending == w.core.pending && d.db.clients == w.core.db.clients
    ensures var (e, r) := DispatchRest(cfg, d, conn, req, env);
            Handle(cfg, w.core, w.conns[k], req, env).0 == e && r == Ok(ReplyTo(cfg, w, k, req, env).value)
  {
    hide Admit, DispatchRest, SessionsOk, ConnOk, ClientsOk, PendingOk, Tame;
    FreshIdsUnused(w, env);
    AdmitIsTame(w.core, w.conns[k], OpOf(req), env, w.used);
    var (d', next, _) := Admit(w.core, w.conns[k], OpOf(req), env);
    d, conn := d', next;
  }

  lemma ApproveSettles(cfg: Config, w: World, k: nat, p: Id, env: Env)
    requires AccessInv(w) && Possible(w, Incoming(k, Approve(p), env)) && ReplyTo(cfg, w, k, Approve(p), env).Some?
    ensures !Settled(w, p) && Settled(Next(cfg, w, Incoming(k, Approve(p), env)), p)
  {
    hide Admit, Handle, Dispatch, OpApprove, SessionsOk, ConnOk, ClientsOk, PendingTame, CommittedBy, Logged,
         FreshEnv;
    var d, conn := AdmittedReply(cfg, w, k, Approve(p), env);
    ClientsInBoth(w, d);
    ApproveAccess(d, p, env, w.used, w.used + FreshIds(env));
  }

  lemma ClientsInBoth(w: World, d: Core)
    requires ClientsOk(w.core.db, w.used) && d.db.clients == w.core.db.clients
    ensures ClientsOk(d.db, w.used)
  {
  }

  /** Each pairing is approved at most once: after one approval, in any run, no other succeeds. */
  lemma ApprovedOnlyOnce(cfg: Config, w: World, k: nat, p: Id, env: Env, es: seq<Event>, k': nat, env': Env)
    requires AccessInv(w) && Possible(w, Incoming(k, Approve(p), env)) && ReplyTo(cfg, w, k, Approve(p), env).Some?
    requires PossibleRun(cfg, Next(cfg, w, Incoming(k, Approve(p), env)), es)
    requires Possible(Run(cfg, Next(cfg, w, Incoming(k, Approve(p), env)), es), Incoming(k', Approve(p), env'))
    ensures ReplyTo(cfg, Run(cfg, Next(cfg, w, Incoming(k, Approve(p), env)), es), k', Approve(p), env').None?
  {
    hide AccessInv, Possible, Next, PossibleRun, Run, ReplyTo, Settled;
    ApproveSettles(cfg, w, k, p, env);
    StepKeepsAccess(cfg, w, Incoming(k, Approve(p), env));
    var start := Next(cfg, w, Incoming(k, Approve(p), env));
    RunKeepsAccess(cfg, start, es);
    RunSettles(cfg, start, es, p);
    if ReplyTo(cfg, Run(cfg, start, es), k', Approve(p), env').Some? {
      ApproveSettles(cfg, Run(cfg, start, es), k', p, env');
    }
  }

  lemma ClaimSpends(cfg: Config, w: World, k: nat, p: Id, env: Env)
    requires AccessInv(w) && Possible(w, Incoming(k, Claim(p), env)) && ReplyTo(cfg, w, k, Claim(p), env).Some?
    ensures p in w.core.pending && w.core.pending[p].approved && w.core.pending[p].credential.Some?
    ensures ReplyTo(cfg, w, k, Claim(p), env) ==
            Some(Credential(w.core.pending[p].clientId, w.core.pending[p].credential.value))
    ensures !Spent(w, p) && Spent(Next(cfg, w, Incoming(k, Claim(p), env)), p)
  {
    hide Admit, Handle, Dispatch, OpClaim, SessionsOk, ConnOk, ClientsOk, PendingTame, CommittedBy, Logged,
         FreshEnv;
    var d, conn := AdmittedReply(cfg, w, k, Claim(p), env);
    ClaimAccess(d, p, env.id);
  }

  /** Each credential is handed out at most once. */
  lemma ClaimedOnlyOnce(cfg: Config, w: World, k: nat, p: Id, env: Env, es: seq<Event>, k': nat, env': Env)
    requires AccessInv(w) && Possible(w, Incoming(k, Claim(p), env)) && ReplyTo(cfg, w, k, Claim(p), env).Some?
    requires PossibleRun(cfg, Next(cfg, w, Incoming(k, Claim(p), env)), es)
    requires Possible(Run(cfg, Next(cfg, w, Incoming(k, Claim(p), env)), es), Incoming(k', Claim(p), env'))
    ensures ReplyTo(cfg, Run(cfg, Next(cfg, w, Incoming(k, Claim(p), env)), es), k', Claim(p), env').None?
  {
    hide AccessInv, Possible, Next, PossibleRun, Run, ReplyTo, Spent;
    ClaimSpends(cfg, w, k, p, env);
    StepKeepsAccess(cfg, w, Incoming(k, Claim(p), env));
    var start := Next(cfg, w, Incoming(k, Claim(p), env));
    RunKeepsAccess(cfg, start, es);
    RunSettles(cfg, start, es, p);
    if ReplyTo(cfg, Run(cfg, start, es), k', Claim(p), env').Some? {
      ClaimSpends(cfg, Run(cfg, start, es), k', p, env');
    }
  }

  /** A settled pairing cannot be cancelled. */
  lemma ApprovedCannotBeCancelled(cfg: Config, w: World, k: nat, p: Id, env: Env)
    requires AccessInv(w) && Possible(w, Incoming(k, CancelPairing(p), env)) && Settled(w, p)
    ensures ReplyTo(cfg, w, k, CancelPairing(p), env).None?
    ensures p in w.core.pending ==> p in Next(cfg, w, Incoming(k, CancelPairing(p), env)).core.pending
  {
    hide Admit, OpCancel, SessionsOk, ConnOk, ClientsOk, PendingTame, CommittedBy, Logged, FreshEnv, Tame;
    FreshIdsUnused(w, env);
    AdmitIsTame(w.core, w.conns[k], CancelOp, env, w.used);
    var (d, _, _) := Admit(w.core, w.conns[k], CancelOp, env);
    CancelAccess(d, p, env.id);
  }

  // ---- What a claim is worth ---------------------------------------------------------------------------------

  /** Every approved pairing still has the row its approval inserted. */
  ghost predicate PairingsBacked(db: Database, pending: Access.PendingMap) {
    forall p | p in pending && pending[p].approved :: Backed(db, pending[p])
  }

  ghost predicate RowsKept(a: Database, b: Database) {
    forall id | id in a.clients ::
      && id in b.clients && b.clients[id].credential == a.clients[id].credential
      && b.clients[id].staticKey == a.clients[id].staticKey
      && b.clients[id].mask == a.clients[id].mask && b.clients[id].kind == a.clients[id].kind
  }

  lemma KeptRowsBack(a: Database, b: Database, pending: Access.PendingMap)
    requires RowsKept(a, b) && PairingsBacked(a, pending)
    ensures PairingsBacked(b, pending)
  {
  }

  /** A request that puts another database in place of the current one. */
  predicate Replaces(req: Request) { req.DestroyVault? || req.RestoreBackup? }

  lemma DispatchBacks(cfg: Config, c: Core, conn: Conn, req: Request, env: Env, used: set<Id>, used': set<Id>)
    requires PairingsBacked(c.db, c.pending) && ClientsOk(c.db, used) && PendingOk(c.pending, used)
    requires used + {env.id, env.approval.clientId} <= used' && env.id !in used
    ensures var (d, _, r) := Dispatch(cfg, c, conn, req, env);
            if Replaces(req) && r.Ok? then d.pending == c.pending && (req.DestroyVault? ==> d.db.clients == map[])
                                          && (req.RestoreBackup? ==> d.db.clients == req.container.snapshot.clients)
            else PairingsBacked(d.db, d.pending)
  {
    hide Backed, OpUnlock, OpStatus, OpInit, OpLock, OpChangePassword, OpDestroy, OpCreate, OpUpdate, OpDelete,
         OpClaim, OpCancel, OpPair, OpApprove, OpRevoke, OpCreateBackup, OpRestore, Records.Reveal,
         Records.RevealForOrigin, PairingsBacked, ClientsTame, PendingTame;
    var d := Dispatch(cfg, c, conn, req, env).0;
    SameBacked(c, d);
    match req
    case UnlockVault(password) => UnlockClients(cfg, c, conn, password, env);
    case LockVault(panic) => LockAccess(c, panic, env);
    case ChangeMaster(current, next) => ChangePasswordKeepsAccess(cfg, c, current, next, env);
    case DestroyVault(password) => DestroyKeepsAccess(c, password, env);
    case RestoreBackup(b) => RestoreKeepsAccess(c, b, env);
    case Approve(p) => ApproveAccess(c, p, env, used, used'); ApprovedBacked(c, d, p);
    case Revoke(client) => RevokeAccess(c, client, env); if d.pending == c.pending { RowsKeptBacked(c, d); }
    case Pair(kind, name, key) =>
      PairAccess(cfg, c, conn, kind, name, key, env, used, used');
      PairedBacked(c, d, env.id, used);
    case Claim(p) => ClaimAccess(c, p, env.id); FewerBacked(c, d);
    case CancelPairing(p) => CancelAccess(c, p, env.id); FewerBacked(c, d);
    case _ => PlainRequestsKeepAccess(cfg, c, conn, req, env);
  }

  lemma UnlockClients(cfg: Config, c: Core, conn: Conn, password: string, env: Env)
    ensures var d := OpUnlock(cfg, c, conn, password, env).0;
            d.pending == c.pending && d.db.clients == c.db.clients
  {
    hide Vault.Unlock, Vault.VerifyCatalog, Records.LoadIndex, Recorded, Reissued;
    var (v, r) := Vault.Unlock(c.vault, c.db, password, env.now, env.after);
    EventsKeepAccess(c.(vault := v), EVENT_UNLOCK_FAILED, env);
    if r.Ok? {
      var (s, loaded) := Records.LoadIndex(cfg.web, Records.RecordState(c.db, v, c.index));
      var d := c.(vault := v, index := s.index);
      VerifyKeepsClients(v, c.db, env.commits);
      var (w, db, verified) := Vault.VerifyCatalog(v, c.db, env.commits);
      var e := d.(vault := w, db := db);
      EventsKeepAccess(LockedCore(d), EVENT_INTEGRITY_FAILURE, env);
      EventsKeepAccess(LockedCore(e), EVENT_INTEGRITY_FAILURE, env);
      EventsKeepAccess(e, EVENT_BOOTSTRAPPED, env);
      var f := if verified.Ok? && verified.value then Recorded(e, EVENT_BOOTSTRAPPED, env) else e;
      ReissueClients(f, conn, env);
      EventsKeepAccess(Reissued(f, conn, env).0, EVENT_UNLOCKED, env);
    }
  }

  lemma ReissueClients(c: Core, conn: Conn, env: Env)
    ensures Reissued(c, conn, env).0.pending == c.pending && Reissued(c, conn, env).0.db == c.db
  {
  }

  lemma SameBacked(c: Core, d: Core)
    requires PairingsBacked(c.db, c.pending)
    ensures d.pending == c.pending && d.db.clients == c.db.clients ==> PairingsBacked(d.db, d.pending)
  {
  }

  lemma RowsKeptBacked(c: Core, d: Core)
    requires PairingsBacked(c.db, c.pending) && d.pending == c.pending && d.db.clients.Keys == c.db.clients.Keys
    requires forall x | x in c.db.clients :: d.db.clients[x] == c.db.clients[x].(status := d.db.clients[x].status)
    ensures PairingsBacked(d.db, d.pending)
  {
    KeptRowsBack(c.db, d.db, c.pending);
  }

  lemma FewerBacked(c: Core, d: Core)
    requires PairingsBacked(c.db, c.pending) && d.db == c.db && d.pending.Keys <= c.pending.Keys
    requires forall x | x in d.pending :: d.pending[x] == c.pending[x]
    ensures PairingsBacked(d.db, d.pending)
  {
  }

  lemma PairedBacked(c: Core, d: Core, newId: Id, used: set<Id>)
    requires PairingsBacked(c.db, c.pending) && d.db.clients == c.db.clients && PendingTame(c.pending, d.pending, newId)
    requires forall id | id in c.pending && id != newId :: id in d.pending && d.pending[id] == c.pending[id]
    requires newId in d.pending && newId !in c.pending ==> !d.pending[newId].approved
    requires PendingOk(c.pending, used) && newId !in used
    ensures PairingsBacked(d.db, d.pending)
  {
    forall p | p in d.pending && d.pending[p].approved ensures Backed(d.db, d.pending[p]) {
      assert p != newId;
      assert p in c.pending && d.pending[p] == c.pending[p];
    }
  }

  lemma ApprovedBacked(c: Core, d: Core, p: Id)
    requires PairingsBacked(c.db, c.pending)
    ensures (p in d.pending && Backed(d.db, d.pending[p]) && d.pending.Keys == c.pending.Keys
             && (forall x | x in c.db.clients :: x in d.db.clients && d.db.clients[x] == c.db.clients[x])
             && (forall x | x in c.pending && x != p :: x in d.pending && d.pending[x] == c.pending[x]))
            ==> PairingsBacked(d.db, d.pending)
  {
  }

  lemma HandleBacks(cfg: Config, w: World, k: nat, req: Request, env: Env)
    requires AccessInv(w) && Possible(w, Incoming(k, req, env)) && PairingsBacked(w.core.db, w.core.pending)
    ensures var (d, _, r) := Handle(cfg, w.core, w.conns[k], req, env);
            if Replaces(req) && r.Ok? then d.pending == w.core.pending && (req.DestroyVault? ==> d.db.clients == map[])
                                          && (req.RestoreBackup? ==> d.db.clients == req.container.snapshot.clients)
            else PairingsBacked(d.db, d.pending)
  {
    hide SessionsOk, ConnOk, Tame, Admit, Dispatch, FreshEnv, PairingsBacked, ClientsOk, PendingOk;
    FreshIdsUnused(w, env);
    AdmitIsTame(w.core, w.conns[k], OpOf(req), env, w.used);
    var (d, next, admitted) := Admit(w.core, w.conns[k], OpOf(req), env);
    SameBacked(w.core, d);
    ClientsInBoth(w, d);
    if admitted.Ok? { DispatchBacks(cfg, d, next, req, env, w.used, w.used + FreshIds(env)); }
  }

  predicate NoneApproved(pending: Access.PendingMap) { forall p | p in pending :: !pending[p].approved }

  /** All a destroy or a restore needs beyond admission: the re-authentication, or the checks of the container. */
  predicate ReplacementIsDue(c: Core, req: Request, env: Env) {
    if req.DestroyVault? then Vault.VerifyPassword(c.vault, c.db, req.password).1.Ok?
    else
      && req.RestoreBackup? && HasKeys(c.vault) && c.vault.loaded
      && req.container.macKey == Some(c.vault.keyring.value.backup) && req.container.vaultId == c.vault.vault.id
      && req.container.snapshot.vault.Some? && env.installs
  }

  /** The steps that put another client table in place; nothing here looks at what they do or answer. */
  predicate ReplacesTable(w: World, e: Event) {
    e.Incoming? && Replaces(e.request) && e.conn in w.conns
    && Admit(w.core, w.conns[e.conn], OpOf(e.request), e.env).2.Ok? && ReplacementIsDue(w.core, e.request, e.env)
  }

  lemma ReplacementSucceedsExactly(cfg: Config, w: World, k: nat, req: Request, env: Env)
    requires AccessInv(w) && k in w.conns && FreshEnv(w, env) && Replaces(req)
    ensures ReplyTo(cfg, w, k, req, env).Some? <==> ReplacesTable(w, Incoming(k, req, env))
  {
    hide Admit, SessionsOk, ConnOk, ClientsOk, PendingOk, Tame, Unwrap, Recorded;
    FreshIdsUnused(w, env);
    AdmitIsTame(w.core, w.conns[k], OpOf(req), env, w.used);
  }

  /**
   An approved pairing keeps its client row through every step but a destroy or a restore that goes through: a
   destroy breaks the promise if and only if an approval is still unclaimed, a restore if and only if the snapshot
   lacks an unclaimed approval's row.
   */
  lemma OnlyReplacingTheTableBreaksAClaim(cfg: Config, w: World, e: Event)
    requires AccessInv(w) && Possible(w, e) && PairingsBacked(w.core.db, w.core.pending)
    ensures var n := Next(cfg, w, e);
            PairingsBacked(n.core.db, n.core.pending) <==>
              (ReplacesTable(w, e) ==>
                 if e.request.DestroyVault? then NoneApproved(w.core.pending)
                 else PairingsBacked(e.request.container.snapshot, w.core.pending))
  {
    hide SessionsOk, ConnOk, Tame, Handle, Admit, Connect, FreshEnv, ClientsOk, PendingOk, CommittedBy, Logged,
         ReplacementIsDue;
    match e
    case Connection(k, peer, env) => ConnectBacks(w.core, peer, env);
    case Incoming(k, req, env) =>
      HandleBacks(cfg, w, k, req, env);
      if Replaces(req) { ReplacementSucceedsExactly(cfg, w, k, req, env); }
    case IdleLock(env) => LockAccess(w.core, false, env);
    case Restart =>
  }

  lemma ConnectBacks(c: Core, peer: Peer, env: Env)
    ensures Connect(c, peer, env).Some? ==>
      && Connect(c, peer, env).value.0.pending == c.pending
      && RowsKept(c.db, Connect(c, peer, env).value.0.db)
  {
  }

  /**
   While that holds, a claim yields the verifier's preimage, and the claimant can connect with it unless revoked.
   */
  lemma ClaimantCanConnect(cfg: Config, w: World, k: nat, p: Id, env: Env, later: Env)
    requires AccessInv(w) && Possible(w, Incoming(k, Claim(p), env)) && ReplyTo(cfg, w, k, Claim(p), env).Some?
    requires PairingsBacked(w.core.db, w.core.pending)
    ensures ReplyTo(cfg, w, k, Claim(p), env).value.Credential? && p in w.core.pending
    ensures var r := ReplyTo(cfg, w, k, Claim(p), env).value;
            var n := Next(cfg, w, Incoming(k, Claim(p), env));
            var key := w.core.pending[p].staticKey;
            && r.clientId in n.core.db.clients
            && n.core.db.clients[r.clientId].credential == Access.CredentialVerifier(r.credential)
            && n.core.db.clients[r.clientId].staticKey == key
            && (Connect(n.core, Peer(PairedHello(r.clientId), key, Access.CredentialVerifier(r.credential)),
                 later).Some? <==>
                Access.Approved(n.core.db, r.clientId))
  {
    hide Admit, Handle, Dispatch, OpClaim, SessionsOk, ConnOk, ClientsOk, PendingOk, PendingTame, CommittedBy,
         Logged, FreshEnv;
    ClaimSpends(cfg, w, k, p, env);
    var d, conn := AdmittedReply(cfg, w, k, Claim(p), env);
    ClaimAccess(d, p, env.id);
  }

  // ---- Over whole runs -------------------------------------------------------------------------------------------

  /** No destroy and no restore goes through. */
  predicate TableKept(cfg: Config, w: World, es: seq<Event>) {
    es == [] || (TableKept(cfg, w, es[..|es| - 1]) && !ReplacesTable(Run(cfg, w, es[..|es| - 1]), es[|es| - 1]))
  }

  lemma {:induction false} RunBacks(cfg: Config, w: World, es: seq<Event>)
    requires AccessInv(w) && PairingsBacked(w.core.db, w.core.pending) && PossibleRun(cfg, w, es)
    requires TableKept(cfg, w, es)
    ensures PairingsBacked(Run(cfg, w, es).core.db, Run(cfg, w, es).core.pending)
  {
    hide AccessInv, Possible, Next, ReplacesTable, PairingsBacked;
    if es != [] {
      RunBacks(cfg, w, es[..|es| - 1]);
      RunKeepsAccess(cfg, w, es[..|es| - 1]);
      OnlyReplacingTheTableBreaksAClaim(cfg, Run(cfg, w, es[..|es| - 1]), es[|es| - 1]);
    }
  }

  /** The client rows stay, and no status moves but that of a client being revoked. */
  ghost predicate StatusKept(a: Database, b: Database, revoked: Option<Id>) {
    && RowsKept(a, b)
    && forall id | id in a.clients && Some(id) != revoked ::
         id in b.clients && b.clients[id].status == a.clients[id].status
  }

  function RevokedBy(req: Request, reply: Result<Reply>): Option<Id> {
    if req.Revoke? && reply.Ok? then Some(req.id) else None
  }

  lemma SameStatus(a: Database, b: Database, revoked: Option<Id>)
    requires a.clients == b.clients
    ensures StatusKept(a, b, revoked)
  {
  }

  lemma DispatchKeepsStatus(cfg: Config, c: Core, conn: Conn, req: Request, env: Env, used: set<Id>, used': set<Id>)
    requires ClientsOk(c.db, used) && PendingOk(c.pending, used)
    requires used + {env.id, env.approval.clientId} <= used'
    ensures var (d, _, r) := Dispatch(cfg, c, conn, req, env);
            && (!(Replaces(req) && r.Ok?) ==> StatusKept(c.db, d.db, RevokedBy(req, r)))
            && (req.Revoke? && r.Ok? ==> req.id in d.db.clients && d.db.clients[req.id].status == STATUS_REVOKED)
  {
    hide OpUnlock, OpStatus, OpInit, OpLock, OpChangePassword, OpDestroy, OpCreate, OpUpdate, OpDelete, OpClaim,
         OpCancel, OpPair, OpApprove, OpRevoke, OpCreateBackup, OpRestore, Records.Reveal, Records.RevealForOrigin,
         ClientsTame, PendingTame, PendingOk, ClientsOk, Backed, StatusKept, QueryAnswer;
    var (d, _, r) := Dispatch(cfg, c, conn, req, env);
    if d.db.clients == c.db.clients { SameStatus(c.db, d.db, RevokedBy(req, r)); }
    match req
    case UnlockVault(password) => UnlockClients(cfg, c, conn, password, env);
    case LockVault(panic) => LockAccess(c, panic, env);
    case ChangeMaster(current, next) => ChangePasswordKeepsAccess(cfg, c, current, next, env);
    case DestroyVault(password) => DestroyKeepsAccess(c, password, env);
    case RestoreBackup(b) => RestoreKeepsAccess(c, b, env);
    case Approve(p) => ApproveAccess(c, p, env, used, used'); ApprovedStatus(c.db, d.db);
    case Revoke(client) => RevokeAccess(c, client, env); RevokedStatus(c.db, d.db, client, r);
    case Pair(kind, name, key) => PairAccess(cfg, c, conn, kind, name, key, env, used, used');
    case Claim(p) => ClaimAccess(c, p, env.id);
    case CancelPairing(p) => CancelAccess(c, p, env.id);
    case _ => PlainRequestsKeepAccess(cfg, c, conn, req, env);
  }

  lemma ApprovedStatus(a: Database, b: Database)
    ensures (forall x | x in a.clients :: x in b.clients && b.clients[x] == a.clients[x]) ==> StatusKept(a, b, None)
  {
  }

  lemma RevokedStatus(a: Database, b: Database, client: Id, reply: Result<Reply>)
    requires b.clients.Keys == a.clients.Keys
    requires forall x | x in a.clients :: b.clients[x] == a.clients[x].(status := b.clients[x].status)
    requires forall x | x in a.clients && x != client :: b.clients[x] == a.clients[x]
    requires reply.Err? ==> b.clients == a.clients
    ensures StatusKept(a, b, RevokedBy(Revoke(client), reply))
  {
  }

  /** A request that revokes this client with success. */
  ghost predicate Revokes(cfg: Config, w: World, e: Event, client: Id) {
    e.Incoming? && e.request == Revoke(client) && ReplyTo(cfg, w, e.conn, e.request, e.env).Some?
  }

  lemma HandleKeepsStatus(cfg: Config, w: World, k: nat, req: Request, env: Env)
    requires AccessInv(w) && Possible(w, Incoming(k, req, env))
    ensures var (d, _, r) := Handle(cfg, w.core, w.conns[k], req, env);
            && (!(Replaces(req) && r.Ok?) ==> StatusKept(w.core.db, d.db, RevokedBy(req, r)))
            && (req.Revoke? && r.Ok? ==> req.id in d.db.clients && d.db.clients[req.id].status == STATUS_REVOKED)
  {
    hide SessionsOk, ConnOk, Tame, Admit, Dispatch, FreshEnv, ClientsOk, PendingOk, StatusKept;
    FreshIdsUnused(w, env);
    AdmitIsTame(w.core, w.conns[k], OpOf(req), env, w.used);
    var (d, next, admitted) := Admit(w.core, w.conns[k], OpOf(req), env);
    ClientsInBoth(w, d);
    if admitted.Ok? {
      DispatchKeepsStatus(cfg, d, next, req, env, w.used, w.used + FreshIds(env));
      var (e, _, r) := Dispatch(cfg, d, next, req, env);
      StatusFrom(w.core.db, d.db, e.db, RevokedBy(req, r));
    } else {
      SameStatus(w.core.db, d.db, None);
    }
  }

  lemma StatusFrom(a: Database, b: Database, c: Database, revoked: Option<Id>)
    requires a.clients == b.clients
    ensures StatusKept(b, c, revoked) ==> StatusKept(a, c, revoked)
  {
  }

  /** The row of a claimed credential. */
  ghost predicate HasRow(db: Database, client: Id, verifier: Bytes, key: Bytes) {
    client in db.clients && db.clients[client].credential == verifier && db.clients[client].staticKey == key
  }

  lemma StatusCarries(a: Database, b: Database, revoked: Option<Id>, client: Id, verifier: Bytes, key: Bytes)
    requires StatusKept(a, b, revoked) && HasRow(a, client, verifier, key)
    ensures HasRow(b, client, verifier, key)
    ensures Some(client) != revoked ==> (Access.Approved(b, client) <==> Access.Approved(a, client))
  {
  }

  /** One step: the row stays, and stops being approved exactly by a revocation. */
  lemma StepKeepsRow(cfg: Config, w: World, e: Event, client: Id, verifier: Bytes, key: Bytes)
    requires AccessInv(w) && Possible(w, e) && !ReplacesTable(w, e) && HasRow(w.core.db, client, verifier, key)
    ensures var n := Next(cfg, w, e);
            && HasRow(n.core.db, client, verifier, key)
            && (Access.Approved(n.core.db, client) <==>
                  Access.Approved(w.core.db, client) && !Revokes(cfg, w, e, client))
  {
    hide SessionsOk, ConnOk, Tame, Handle, Admit, Connect, FreshEnv, ClientsOk, PendingOk, CommittedBy, Logged,
         ReplacementIsDue, ReplacesTable, HasRow, StatusKept, FreshIds;
    match e
    case Connection(k, peer, env) =>
      ConnectKeepsStatus(w.core, peer, env);
      if Connect(w.core, peer, env).Some? {
        StatusCarries(w.core.db, Connect(w.core, peer, env).value.0.db, None, client, verifier, key);
      }
    case Incoming(k, req, env) =>
      HandleKeepsStatus(cfg, w, k, req, env);
      if Replaces(req) { ReplacementSucceedsExactly(cfg, w, k, req, env); }
      var (d, _, r) := Handle(cfg, w.core, w.conns[k], req, env);
      StatusCarries(w.core.db, d.db, RevokedBy(req, r), client, verifier, key);
    case IdleLock(env) =>
      LockAccess(w.core, false, env);
      SameStatus(w.core.db, OpLock(w.core, false, env).0.db, None);
      StatusCarries(w.core.db, OpLock(w.core, false, env).0.db, None, client, verifier, key);
    case Restart =>
  }

  lemma ConnectKeepsStatus(c: Core, peer: Peer, env: Env)
    ensures Connect(c, peer, env).Some? ==> StatusKept(c.db, Connect(c, peer, env).value.0.db, None)
  {
  }

  ghost predicate NeverRevoked(cfg: Config, w: World, es: seq<Event>, client: Id) {
    || es == []
    || (NeverRevoked(cfg, w, es[..|es| - 1], client)
        && !Revokes(cfg, Run(cfg, w, es[..|es| - 1]), es[|es| - 1], client))
  }

  lemma {:induction false} RunKeepsRow(cfg: Config, w: World, es: seq<Event>, client: Id, verifier: Bytes, key: Bytes)
    requires AccessInv(w) && PossibleRun(cfg, w, es) && TableKept(cfg, w, es)
    requires HasRow(w.core.db, client, verifier, key)
    ensures var end := Run(cfg, w, es);
            && HasRow(end.core.db, client, verifier, key)
            && (Access.Approved(end.core.db, client) <==>
                  Access.Approved(w.core.db, client) && NeverRevoked(cfg, w, es, client))
  {
    hide AccessInv, Possible, Next, ReplacesTable, HasRow, Access.Approved, Revokes;
    if es != [] {
      RunKeepsRow(cfg, w, es[..|es| - 1], client, verifier, key);
      RunKeepsAccess(cfg, w, es[..|es| - 1]);
      StepKeepsRow(cfg, Run(cfg, w, es[..|es| - 1]), es[|es| - 1], client, verifier, key);
    }
  }

  /** Who connects as a paired client: the holder of both the credential and the static key of an approved row. */
  lemma PairedPeerConnectsExactly(c: Core, id: Id, key: Blob, psk: Bytes, env: Env)
    ensures Connect(c, Peer(PairedHello(id), key, psk), env).Some? <==>
            && id in c.db.clients && c.db.clients[id].status == 2
            && c.db.clients[id].credential == psk && c.db.clients[id].staticKey == key
  {
  }

  /** What a connection is given: a session of twelve hours at the current epoch, or none on the pairing channel. */
  lemma ConnectionIsFor(c: Core, peer: Peer, env: Env)
    ensures Connect(c, peer, env).Some? ==>
      var (d, conn) := Connect(c, peer, env).value;
      && conn.staticKey == peer.staticKey && conn.pairing == peer.hello.PairingHello?
      && conn.clientId == (if peer.hello.PairedHello? then peer.hello.clientId else 0)
      && d.vault == c.vault && d.index == c.index && d.pending == c.pending
      && (conn.pairing ==> conn.session == None && d == c)
      && (!conn.pairing ==>
            && conn.session.Some?
            && var s := conn.session.value;
            && d.sessions == c.sessions[s.id := s] && s.id == env.sessionId && s.clientId == conn.clientId
            && s.epoch == c.vault.vault.epoch && s.lastActivity == env.now
            && s.expiresAt == env.now + 43_200 * 1_000_000_000
            && s.mask == (if peer.hello.PairedHello? then c.db.clients[peer.hello.clientId].mask else CLI_MASK))
      && (!peer.hello.PairedHello? || !env.recorded ==> d.db == c.db)
      && (peer.hello.PairedHello? && env.recorded ==>
            var id := peer.hello.clientId;
            d.db == c.db.(clients := c.db.clients[id := c.db.clients[id].(lastSeenMs := Some(env.now))]))
  {
  }

  /**
   From a started daemon, through any run on which no destroy and no restore goes through: a claim that succeeds
   hands out the preimage of the verifier in the claimant's row, and after any further such run a peer connects under
   that id if and only if it has that verifier and the key that was paired, the row was approved at the claim, and the
   client was not revoked since.
   */
  lemma ClaimantConnectsUntilRevoked(cfg: Config, w: World, es: seq<Event>, k: nat, p: Id, env: Env, more: seq<Event>,
      later: Env, peerKey: Blob, psk: Bytes)
    requires Start(cfg, w) && 0 !in w.used && ClientsOk(w.core.db, w.used) && PossibleRun(cfg, w, es)
    requires TableKept(cfg, w, es) && Possible(Run(cfg, w, es), Incoming(k, Claim(p), env))
    requires ReplyTo(cfg, Run(cfg, w, es), k, Claim(p), env).Some?
    requires var n := Next(cfg, Run(cfg, w, es), Incoming(k, Claim(p), env));
             PossibleRun(cfg, n, more) && TableKept(cfg, n, more)
    ensures var at := Run(cfg, w, es);
            var r := ReplyTo(cfg, at, k, Claim(p), env).value;
            var n := Next(cfg, at, Incoming(k, Claim(p), env));
            && r.Credential? && p in at.core.pending
            && var verifier, key := Access.CredentialVerifier(r.credential), at.core.pending[p].staticKey;
            && HasRow(n.core.db, r.clientId, verifier, key)
            && (Connect(Run(cfg, n, more).core, Peer(PairedHello(r.clientId), peerKey, psk), later).Some? <==>
                  && psk == verifier && peerKey == key
                  && Access.Approved(n.core.db, r.clientId) && NeverRevoked(cfg, n, more, r.clientId))
  {
    hide AccessInv, Next, Run, PossibleRun, Possible, Handle, Connect, DbOk, ReplyTo, TableKept, NeverRevoked, Backed,
         Access.Approved;
    StartIsConfined(cfg, w);
    RunBacks(cfg, w, es);
    RunKeepsAccess(cfg, w, es);
    var at, e := Run(cfg, w, es), Incoming(k, Claim(p), env);
    ClaimantCanConnect(cfg, at, k, p, env, later);
    StepKeepsAccess(cfg, at, e);
    var n, r := Next(cfg, at, e), ReplyTo(cfg, at, k, Claim(p), env).value;
    var verifier, key := Access.CredentialVerifier(r.credential), at.core.pending[p].staticKey;
    RunKeepsRow(cfg, n, more, r.clientId, verifier, key);
    PairedPeerConnectsExactly(Run(cfg, n, more).core, r.clientId, peerKey, psk, later);
    RowDecides(Run(cfg, n, more).core.db, r.clientId, verifier, key);
  }

  lemma RowDecides(db: Database, client: Id, verifier: Bytes, key: Bytes)
    requires HasRow(db, client, verifier, key)
    ensures client in db.clients && db.clients[client].credential == verifier && db.clients[client].staticKey == key
    ensures Access.Approved(db, client) <==> db.clients[client].status == STATUS_APPROVED
  {
  }

  // ---- Connections of paired clients -------------------------------------------------------------------------------

  /** Every connection of a paired client has the static key and the mask of that client's row. */
  ghost predicate Pinned(w: World) {
    forall k | k in w.conns && w.conns[k].clientId != 0 :: PinnedTo(w.core.db, w.conns[k])
  }

  ghost predicate PinnedTo(db: Database, conn: Conn) {
    && conn.clientId in db.clients && db.clients[conn.clientId].staticKey == conn.staticKey
    && conn.session.Some? && conn.session.value.mask == db.clients[conn.clientId].mask
  }

  lemma StaysPinned(a: Database, b: Database, conn: Conn)
    requires RowsKept(a, b) && PinnedTo(a, conn)
    ensures PinnedTo(b, conn)
  {
  }

  lemma ConnectionKeepsPeer(cfg: Config, c: Core, conn: Conn, req: Request, env: Env)
    ensures var next := Handle(cfg, c, conn, req, env).1;
            && next.clientId == conn.clientId && next.staticKey == conn.staticKey && next.pairing == conn.pairing
            && (conn.session.Some? ==> next.session.Some? && MaskFrom(c.db, conn, next.session.value.mask))
  {
    hide Vault.Unlock, Records.LoadIndex, Vault.VerifyCatalog, DispatchRest, Validated, Recorded, OpOf,
         RequiredCapability, Has;
  }

  /** The mask it had, or the one of the client's row. */
  ghost predicate MaskFrom(db: Database, conn: Conn, mask: U64)
    requires conn.session.Some?
  {
    || mask == conn.session.value.mask
    || (conn.clientId in db.clients && mask == db.clients[conn.clientId].mask)
  }

  lemma StepKeepsPinned(cfg: Config, w: World, e: Event)
    requires AccessInv(w) && Pinned(w) && Possible(w, e) && !ReplacesTable(w, e)
    ensures Pinned(Next(cfg, w, e))
  {
    hide SessionsOk, ConnOk, Tame, Handle, Admit, FreshEnv, ClientsOk, PendingOk, CommittedBy, Logged,
         ReplacementIsDue, ReplacesTable, PinnedTo, FreshIds, RowsKept, Access.Approved;
    var n := Next(cfg, w, e);
    match e
    case Connection(k, peer, env) =>
      ConnectBacks(w.core, peer, env);
      if Connect(w.core, peer, env).Some? {
        var (d, conn) := Connect(w.core, peer, env).value;
        NewIsPinned(w.core, peer, env);
        forall j | j in n.conns && n.conns[j].clientId != 0 ensures PinnedTo(n.core.db, n.conns[j]) {
          if j != k { StaysPinned(w.core.db, d.db, w.conns[j]); }
        }
      }
    case Incoming(k, req, env) =>
      HandleKeepsStatus(cfg, w, k, req, env);
      ConnectionKeepsPeer(cfg, w.core, w.conns[k], req, env);
      if Replaces(req) { ReplacementSucceedsExactly(cfg, w, k, req, env); }
      var (d, conn, _) := Handle(cfg, w.core, w.conns[k], req, env);
      forall j | j in n.conns && n.conns[j].clientId != 0 ensures PinnedTo(n.core.db, n.conns[j]) {
        StaysPinned(w.core.db, d.db, w.conns[j]);
        if j == k { SamePin(w.core.db, d.db, w.conns[k], conn); }
      }
    case IdleLock(env) =>
      LockAccess(w.core, false, env);
      forall j | j in n.conns && n.conns[j].clientId != 0 ensures PinnedTo(n.core.db, n.conns[j]) {
        RowsStayedKept(w.core.db, n.core.db);
        StaysPinned(w.core.db, n.core.db, w.conns[j]);
      }
    case Restart =>
  }

  lemma RowsStayedKept(a: Database, b: Database)
    requires a.clients == b.clients
    ensures RowsKept(a, b)
  {
  }

  lemma SamePin(a: Database, b: Database, conn: Conn, next: Conn)
    requires RowsKept(a, b) && PinnedTo(a, conn) && next.clientId == conn.clientId && next.staticKey == conn.staticKey
    requires conn.session.Some? ==> next.session.Some? && MaskFrom(a, conn, next.session.value.mask)
    ensures PinnedTo(b, next)
  {
  }

  lemma NewIsPinned(c: Core, peer: Peer, env: Env)
    ensures Connect(c, peer, env).Some? ==>
      var (d, conn) := Connect(c, peer, env).value;
      conn.clientId != 0 ==> PinnedTo(d.db, conn)
  {
  }

  lemma {:induction false} RunKeepsPinned(cfg: Config, w: World, es: seq<Event>)
    requires AccessInv(w) && Pinned(w) && PossibleRun(cfg, w, es) && TableKept(cfg, w, es)
    ensures Pinned(Run(cfg, w, es))
  {
    hide AccessInv, Possible, Next, ReplacesTable, Pinned;
    if es != [] {
      RunKeepsPinned(cfg, w, es[..|es| - 1]);
      RunKeepsAccess(cfg, w, es[..|es| - 1]);
      StepKeepsPinned(cfg, Run(cfg, w, es[..|es| - 1]), es[|es| - 1]);
    }
  }

  /** The operations of each kind of client, one by one. */
  predicate MayDo(kind: int, op: Op) {
    if kind == 2 then BrowserOp(op)
    else if kind == 3 then op == StatusOp
    else false
  }

  lemma KindsMayDo(kind: int, op: Op)
    requires IsPairable(kind)
    ensures kind == 2 || kind == 3
    ensures RequiredCapability(op).Some? && Has(DefaultCapabilities(kind), RequiredCapability(op).value) <==>
            MayDo(kind, op)
  {
    BrowserCapabilities(op);
  }

  /**
   From a started daemon, through any run on which no destroy and no restore goes through: a connection under a
   client's id was made with the static key of that client's row, and is admitted to the operations of the kind in
   that row alone.
   */
  lemma PairedConnectionsArePinned(cfg: Config, w: World, es: seq<Event>, k: nat, op: Op, env: Env)
    requires Start(cfg, w) && 0 !in w.used && ClientsOk(w.core.db, w.used) && PossibleRun(cfg, w, es)
    requires TableKept(cfg, w, es) && FreshEnv(Run(cfg, w, es), env)
    ensures var end := Run(cfg, w, es);
            k in end.conns && end.conns[k].clientId != 0 ==>
              && end.conns[k].clientId in end.core.db.clients
              && var row := end.core.db.clients[end.conns[k].clientId];
              && row.staticKey == end.conns[k].staticKey && IsPairable(row.kind)
              && (Admit(end.core, end.conns[k], op, env).2.Ok? ==> MayDo(row.kind, op))
  {
    hide AccessInv, Run, PossibleRun, TableKept, DbOk, Admit, Has, FreshEnv, MayDo;
    StartIsConfined(cfg, w);
    RunKeepsPinned(cfg, w, es);
    RunKeepsAccess(cfg, w, es);
    var end := Run(cfg, w, es);
    if k in end.conns && end.conns[k].clientId != 0 {
      ConnAndRows(end, k);
      var kind := end.core.db.clients[end.conns[k].clientId].kind;
      AdmittedHasMask(end.core, end.conns[k], op, env);
      KindsMayDo(kind, op);
    }
  }

  lemma ConnAndRows(w: World, k: nat)
    requires AccessInv(w) && k in w.conns && w.conns[k].clientId in w.core.db.clients && w.conns[k].clientId != 0
    ensures !w.conns[k].pairing && IsPairable(w.core.db.clients[w.conns[k].clientId].kind)
    ensures var row := w.core.db.clients[w.conns[k].clientId];
            row.mask == DefaultCapabilities(row.kind)
  {
    hide SessionsOk, PendingOk, Browser;
    assert OfItsKind(w.core.db.clients[w.conns[k].clientId]);
  }

  lemma AdmittedHasMask(c: Core, conn: Conn, op: Op, env: Env)
    requires conn.clientId != 0 && !conn.pairing && PinnedTo(c.db, conn)
    ensures Admit(c, conn, op, env).2.Ok? ==>
      RequiredCapability(op).Some? && Has(c.db.clients[conn.clientId].mask, RequiredCapability(op).value)
  {
    hide Has, Validated, Access.Approved, RequiredCapability;
  }

  // ---- From the request to the row ---------------------------------------------------------------------------------

  /** A pending entry under p, if there still is one, is for this kind and key. */
  ghost predicate AskedFor(w: World, p: Id, kind: int, key: Blob) {
    p in w.used && (p in w.core.pending ==> w.core.pending[p].kind == kind && w.core.pending[p].staticKey == key)
  }

  lemma TameKeepsRequest(a: Access.PendingMap, b: Access.PendingMap, newId: Id, p: Id)
    requires PendingTame(a, b, newId) && p != newId
    ensures p in b ==> p in a && b[p].kind == a[p].kind && b[p].staticKey == a[p].staticKey
  {
  }

  lemma StepKeepsRequest(cfg: Config, w: World, e: Event, p: Id, kind: int, key: Blob)
    requires AccessInv(w) && Possible(w, e) && AskedFor(w, p, kind, key)
    ensures AskedFor(Next(cfg, w, e), p, kind, key)
  {
    hide SessionsOk, ConnOk, ClientsOk, PendingOk, Handle, Connect, CommittedBy, Logged, Tame, FreshEnv,
         ClientsTame, PendingTame;
    match e
    case Connection(k, peer, env) =>
      ConnectAccess(w.core, peer, env, w.used, w.used + FreshIds(env)) by { FreshIdsUnused(w, env); }
    case Incoming(k, req, env) =>
      FreshIdsUnused(w, env);
      HandleAccess(cfg, w, k, req, env);
      TameKeepsRequest(w.core.pending, Next(cfg, w, e).core.pending, env.id, p);
    case IdleLock(env) => LockAccess(w.core, false, env);
    case Restart =>
  }

  lemma {:induction false} RunKeepsRequest(cfg: Config, w: World, es: seq<Event>, p: Id, kind: int, key: Blob)
    requires AccessInv(w) && PossibleRun(cfg, w, es) && AskedFor(w, p, kind, key)
    ensures AskedFor(Run(cfg, w, es), p, kind, key)
  {
    hide AccessInv, Possible, Next, AskedFor;
    if es != [] {
      RunKeepsRequest(cfg, w, es[..|es| - 1], p, kind, key);
      RunKeepsAccess(cfg, w, es[..|es| - 1]);
      StepKeepsRequest(cfg, Run(cfg, w, es[..|es| - 1]), es[|es| - 1], p, kind, key);
    }
  }

  /** What a pairing request leaves: an entry for the kind, the name and the key of the channel it came over. */
  lemma PairStores(cfg: Config, c: Core, conn: Conn, kind: int, name: string, key: Blob, env: Env)
    ensures var (d, r) := OpPair(cfg, c, conn, kind, name, key, env);
            && (r.Ok? <==> key == conn.staticKey && |key| == 32 && IsPairable(kind))
            && (r.Ok? ==>
                  && r.value == PairingId(env.id) && env.id in d.pending
                  && var p := d.pending[env.id];
                  && p.kind == kind && p.name == name && p.staticKey == key && !p.approved && p.createdAt == env.now
                  && p.phrase == cfg.shown(Sha256(Access.PairingMessage(cfg.daemonKey, key, env.id))))
  {
    PairableKindsAreBrowsers(kind);
  }

  lemma PairAsks(cfg: Config, w: World, k: nat, kind: int, name: string, key: Blob, env: Env)
    requires AccessInv(w) && Possible(w, Incoming(k, Request.Pair(kind, name, key), env))
    requires ReplyTo(cfg, w, k, Request.Pair(kind, name, key), env).Some?
    ensures ReplyTo(cfg, w, k, Request.Pair(kind, name, key), env) == Some(PairingId(env.id))
    ensures AskedFor(Next(cfg, w, Incoming(k, Request.Pair(kind, name, key), env)), env.id, kind, w.conns[k].staticKey)
    ensures key == w.conns[k].staticKey
  {
    hide Admit, OpPair, SessionsOk, ConnOk, ClientsOk, PendingOk, CommittedBy, Logged, FreshEnv, Tame;
    FreshIdsUnused(w, env);
    var req := Request.Pair(kind, name, key);
    AdmitIsTame(w.core, w.conns[k], OpOf(req), env, w.used);
    AdmitKeepsPeer(w.core, w.conns[k], OpOf(req), env);
    var (d, conn, _) := Admit(w.core, w.conns[k], OpOf(req), env);
    PairStores(cfg, d, conn, kind, name, key, env);
    assert env.id in FreshIds(env);
  }

  lemma AdmitKeepsPeer(c: Core, conn: Conn, op: Op, env: Env)
    ensures var next := Admit(c, conn, op, env).1;
            next.clientId == conn.clientId && next.staticKey == conn.staticKey && next.pairing == conn.pairing
  {
    hide Validated, Has, Access.Approved, RequiredCapability;
  }

  lemma ApproveWrites(cfg: Config, w: World, k: nat, p: Id, env: Env)
    requires AccessInv(w) && Possible(w, Incoming(k, Approve(p), env)) && ReplyTo(cfg, w, k, Approve(p), env).Some?
    ensures var n := Next(cfg, w, Incoming(k, Approve(p), env));
            var id := env.approval.clientId;
            && p in w.core.pending && id !in w.core.db.clients
            && n.core.db.clients.Keys == w.core.db.clients.Keys + {id}
            && (forall x | x in w.core.db.clients :: n.core.db.clients[x] == w.core.db.clients[x])
            && var row := n.core.db.clients[id];
            && row.kind == w.core.pending[p].kind && row.staticKey == w.core.pending[p].staticKey
            && row.mask == DefaultCapabilities(row.kind) && row.status == STATUS_APPROVED
            && row.credential == Access.CredentialVerifier(env.approval.credential)
            && p in n.core.pending && n.core.pending[p].clientId == id
            && n.core.pending[p].credential == Some(env.approval.credential)
  {
    hide Admit, Handle, Dispatch, Access.Approve, Access.ClientFor, Recorded, SessionsOk, ConnOk, ClientsOk,
         PendingOk, PendingTame, CommittedBy, Logged, FreshEnv, DefaultCapabilities;
    var d, conn := AdmittedReply(cfg, w, k, Approve(p), env);
    var (s, r) := Access.Approve(AccessStateOf(d), p, env.approval, env.now, env.commits);
    EventsKeepAccess(WithAccess(d, s), EVENT_APPROVED, env);
    ApprovedRow(AccessStateOf(d), p, env);
    ClientRowSays(d.vault, d.pending[p], env.approval, env.now);
  }

  lemma ClientRowSays(v: VaultState, p: Access.Pending, r: Access.ApprovalNoise, now: int)
    requires v.keyring.Some?
    ensures var row := Access.ClientFor(v, p, r, now);
            && row.kind == p.kind && row.staticKey == p.staticKey && row.mask == DefaultCapabilities(p.kind)
            && row.status == STATUS_APPROVED && row.credential == Access.CredentialVerifier(r.credential)
  {
    hide Seal, RecordAad;
  }

  /**
   From the pairing request to the client's row, with any run in between: the row an approval inserts has the kind that
   was asked for, the operations of that kind, the static key of the channel the request came over, and the
   verifier of the credential that will be handed out.
   */
  lemma ApprovedRowIsAsRequested(cfg: Config, w: World, k: nat, kind: int, name: string, key: Blob, env: Env,
      es: seq<Event>, j: nat, later: Env)
    requires AccessInv(w) && Possible(w, Incoming(k, Request.Pair(kind, name, key), env))
    requires ReplyTo(cfg, w, k, Request.Pair(kind, name, key), env).Some?
    requires PossibleRun(cfg, Next(cfg, w, Incoming(k, Request.Pair(kind, name, key), env)), es)
    requires var at := Run(cfg, Next(cfg, w, Incoming(k, Request.Pair(kind, name, key), env)), es);
             Possible(at, Incoming(j, Approve(env.id), later)) && ReplyTo(cfg, at, j, Approve(env.id), later).Some?
    ensures var at := Run(cfg, Next(cfg, w, Incoming(k, Request.Pair(kind, name, key), env)), es);
            var n := Next(cfg, at, Incoming(j, Approve(env.id), later));
            var id := later.approval.clientId;
            && id in n.core.db.clients && n.core.db.clients[id].kind == kind
            && n.core.db.clients[id].staticKey == key == w.conns[k].staticKey
            && n.core.db.clients[id].mask == DefaultCapabilities(kind)
            && env.id in n.core.pending && n.core.pending[env.id].credential.Some?
            && n.core.db.clients[id].credential ==
               Access.CredentialVerifier(n.core.pending[env.id].credential.value)
  {
    hide AccessInv, Possible, Next, Run, PossibleRun, ReplyTo, DefaultCapabilities;
    PairAsks(cfg, w, k, kind, name, key, env);
    StepKeepsAccess(cfg, w, Incoming(k, Request.Pair(kind, name, key), env));
    var n := Next(cfg, w, Incoming(k, Request.Pair(kind, name, key), env));
    RunKeepsAccess(cfg, n, es);
    RunKeepsRequest(cfg, n, es, env.id, kind, key);
    ApproveWrites(cfg, Run(cfg, n, es), j, env.id, later);
  }
}
