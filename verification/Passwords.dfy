/** Which password opens the vault, over whole runs. */
module Passwords {
  import opened Endian
  import opened Octets
  import opened Tables
  import opened Origins
  import opened RecordIndex
  import opened Codec
  import opened Sessions
  import opened Vault
  import opened Daemon
  import opened History
  import opened NoFalseAlarm
  import opened Runs
  import opened Recovery
  import opened Detection
  import Access
  import Catalog
  import Records

  /** Not the requests that may put another password in force. */
  predicate KeepsPassword(e: Event) {
    e.Incoming? ==> !e.request.ChangeMaster? && !e.request.DestroyVault? && !e.request.RestoreBackup?
  }

  /** An anchored vault under this password. */
  ghost predicate InForce(w: World, password: string) {
    w.core.db.vault.Some? && w.core.db.anchor.Some? && w.truth.password == password
  }

  lemma InitIsRefused(cfg: Config, c: Core, password: string, env: Env)
    requires c.db.vault.Some?
    ensures OpInit(cfg, c, password, env).1.Err? && OpInit(cfg, c, password, env).0.db == c.db
  {
    hide BuildEnvelope, InitTx;
  }

  lemma PasswordStands(cfg: Config, w: World, req: Request, env: Env, reply: Result<Reply>)
    requires !req.ChangeMaster? && !req.RestoreBackup? && (req.InitVault? ==> reply.Err?)
    ensures CommittedBy(cfg, w, req, env, reply).password == w.truth.password
  {
    hide FieldsToMetadata;
  }

  lemma QuietKeepsAnchored(db: Database, db': Database)
    requires db.vault.Some? && db.anchor.Some? && (Quiet(db, db') || Stamped(db, db'))
    ensures db'.vault.Some? && db'.anchor.Some?
  {
  }

  /** Every other request leaves the vault row and the anchor row in place. */
  lemma DispatchKeepsAnchored(cfg: Config, w: World, c: Core, conn: Conn, req: Request, env: Env)
    requires CoreOk(cfg.web, c, w.truth) && c.vault == w.core.vault && c.index == w.core.index
    requires !req.ChangeMaster? && !req.DestroyVault? && !req.RestoreBackup?
    requires c.db.vault.Some? && c.db.anchor.Some?
    ensures var d := Dispatch(cfg, c, conn, req, env).0;
            d.db.vault.Some? && d.db.anchor.Some?
  {
    hide CoreOk, OpUnlock, OpStatus, OpInit, OpLock, OpChangePassword, OpDestroy, OpCreate, OpUpdate, OpDelete,
         OpClaim, OpCancel, OpPair, OpApprove, OpRevoke, OpCreateBackup, OpRestore, Records.Reveal,
         Records.RevealForOrigin, FieldsToMetadata, Quiet, Stamped, Created;
    var d := Dispatch(cfg, c, conn, req, env).0;
    if Quiet(c.db, d.db) || Stamped(c.db, d.db) { QuietKeepsAnchored(c.db, d.db); }
    match req
    case UnlockVault(password) => UnlockEffect(cfg, c, conn, password, env, w.truth);
    case InitVault(password) => InitIsRefused(cfg, c, password, env);
    case CreateRecord(f, loginOnly) => CreateEffect(cfg, c, f, loginOnly, env, w.truth);
    case UpdateRecord(id, expected, f, loginOnly) => UpdateEffect(cfg, c, id, expected, f, loginOnly, env, w.truth);
    case DeleteRecord(id) => DeleteEffect(cfg, c, id, env, w.truth);
    case Approve(id) => ApproveEffect(cfg, c, id, env, w.truth);
    case Revoke(id) => RevokeEffect(cfg, c, id, env, w.truth);
    case _ => ReadsAreQuiet(cfg, c, conn, req, env);
  }

  lemma HandleKeepsPassword(cfg: Config, w: World, k: nat, req: Request, env: Env, password: string)
    requires VaultInv(cfg, w) && Possible(w, Incoming(k, req, env)) && InForce(w, password)
    requires KeepsPassword(Incoming(k, req, env))
    ensures InForce(Next(cfg, w, Incoming(k, req, env)), password)
  {
    hide CoreOk, BackupOk, Admit, Dispatch, CommittedBy, FreshIds, FreshEnv;
    AdmitKeeps(cfg.web, w.core, w.conns[k], OpOf(req), env, w.truth);
    var (d, next, admitted) := Admit(w.core, w.conns[k], OpOf(req), env);
    var reply := Handle(cfg, w.core, w.conns[k], req, env).2;
    if admitted.Ok? {
      DispatchKeepsAnchored(cfg, w, d, next, req, env);
      if req.InitVault? { InitReply(cfg, d, next, req, env); }
    }
    PasswordStands(cfg, w, req, env, reply);
  }

  lemma InitReply(cfg: Config, c: Core, conn: Conn, req: Request, env: Env)
    requires req.InitVault? && c.db.vault.Some?
    ensures Dispatch(cfg, c, conn, req, env).2.Err?
  {
    InitIsRefused(cfg, c, req.password, env);
  }

  lemma StepKeepsPassword(cfg: Config, w: World, e: Event, password: string)
    requires VaultInv(cfg, w) && Possible(w, e) && InForce(w, password) && KeepsPassword(e)
    ensures InForce(Next(cfg, w, e), password)
  {
    hide VaultInv, Handle, Connect, FreshIds, FreshEnv, CommittedBy, Logged;
    match e
    case Connection(k, peer, env) => ConnectKeepsAnchored(w.core, peer, env);
    case Incoming(k, req, env) => HandleKeepsPassword(cfg, w, k, req, env, password);
    case IdleLock(env) =>
    case Restart =>
  }

  lemma ConnectKeepsAnchored(c: Core, peer: Peer, env: Env)
    ensures Connect(c, peer, env).Some? ==>
      && Connect(c, peer, env).value.0.db.vault == c.db.vault
      && Connect(c, peer, env).value.0.db.anchor == c.db.anchor
  {
  }

  lemma {:induction false} RunKeepsPassword(cfg: Config, w: World, es: seq<Event>, password: string)
    requires VaultInv(cfg, w) && PossibleRun(cfg, w, es) && InForce(w, password)
    requires forall e | e in es :: KeepsPassword(e)
    ensures InForce(Run(cfg, w, es), password)
  {
    hide VaultInv, Possible, Next, InForce, KeepsPassword;
    if es != [] {
      assert es[|es| - 1] in es;
      RunKeepsPassword(cfg, w, es[..|es| - 1], password);
      RunKeeps(cfg, w, es[..|es| - 1]);
      StepKeepsPassword(cfg, Run(cfg, w, es[..|es| - 1]), es[|es| - 1], password);
    }
  }

  /** A change that is answered with success: the old password was right, and the next one is in force. */
  lemma ChangePutsInForce(cfg: Config, w: World, k: nat, current: string, next: string, env: Env)
    requires VaultInv(cfg, w) && Possible(w, Incoming(k, ChangeMaster(current, next), env))
    requires Handle(cfg, w.core, w.conns[k], ChangeMaster(current, next), env).2.Ok?
    ensures current == w.truth.password && InForce(Next(cfg, w, Incoming(k, ChangeMaster(current, next), env)), next)
    ensures Next(cfg, w, Incoming(k, ChangeMaster(current, next), env)).core.db.records == w.core.db.records
  {
    hide CoreOk, BackupOk, Admit, OpChangePassword, FreshIds, FreshEnv, Logged, Catalog.RootOf, Catalog.CoveredBy;
    var req := ChangeMaster(current, next);
    AdmitKeeps(cfg.web, w.core, w.conns[k], OpOf(req), env, w.truth);
    var (d, conn, _) := Admit(w.core, w.conns[k], OpOf(req), env);
    OpChangePasswordKeeps(cfg, d, current, next, env, w.truth);
    ChangePasswordSucceedsExactly(cfg, d, current, next, env, w.truth);
    ChangePasswordEffect(cfg, d, current, next, env, w.truth);
    OthersLeaveRecords(cfg, d, conn, req, env);
    ChangeIsAnchored(cfg, d, current, next, env);
  }

  lemma ChangeIsAnchored(cfg: Config, c: Core, current: string, next: string, env: Env)
    ensures OpChangePassword(cfg, c, current, next, env).1.Ok? ==>
      OpChangePassword(cfg, c, current, next, env).0.db.anchor.Some?
  {
    hide Unwrap, BuildEnvelope, DeriveKeyring, Catalog.RootOf, Catalog.CoveredBy;
  }

  /**
   From a started daemon: after a password change that succeeded, and through any further run without another change,
   a destroy or a restore, the next password opens the vault whenever an attempt is not throttled, and no other
   password ever does. (Apart from the updates that lose a record, after which nothing does.)
   */
  lemma OldPasswordIsRetired(cfg: Config, w: World, es: seq<Event>, k: nat, current: string, next: string, env: Env,
      more: seq<Event>, conn: Conn, guess: string, later: Env)
    requires Start(cfg, w) && !AnyStale(w.core.db, w.truth) && PossibleRun(cfg, w, es) && NoOldRowUpdated(cfg, w, es)
    requires Possible(Run(cfg, w, es), Incoming(k, ChangeMaster(current, next), env))
    requires var at := Run(cfg, w, es); Handle(cfg, at.core, at.conns[k], ChangeMaster(current, next), env).2.Ok?
    requires var n := Next(cfg, Run(cfg, w, es), Incoming(k, ChangeMaster(current, next), env));
             PossibleRun(cfg, n, more) && NoOldRowUpdated(cfg, n, more) && forall e | e in more :: KeepsPassword(e)
    ensures var at := Run(cfg, w, es);
            var n := Next(cfg, at, Incoming(k, ChangeMaster(current, next), env));
            var end := Run(cfg, n, more);
            && current == at.truth.password && n.core.db.records == at.core.db.records
            && (OpUnlock(cfg, end.core, conn, guess, later).2.Ok? <==>
                  && guess == next
                  && (end.core.vault.nextUnlockAt.Some? ==> later.now >= end.core.vault.nextUnlockAt.value))
  {
    hide DbOk, OpUnlock, PossibleRun, Run, NoOldRowUpdated, CoreOk, Throttled, AnyStale, Possible, Next, Handle,
         KeepsPassword, BackupOk;
    StartKeeps(cfg, w);
    StartReadable(cfg, w);
    RunKeeps(cfg, w, es);
    RunStaysReadable(cfg, w, es);
    var at, e := Run(cfg, w, es), Incoming(k, ChangeMaster(current, next), env);
    ChangePutsInForce(cfg, at, k, current, next, env);
    StepKeeps(cfg, at, e);
    OnlyUpdatingAnOldRowLosesARecord(cfg, at, e);
    var n := Next(cfg, at, e);
    RunKeeps(cfg, n, more);
    RunStaysReadable(cfg, n, more);
    RunKeepsPassword(cfg, n, more, next);
    UnlocksExactly(cfg, Run(cfg, n, more).core, conn, guess, later, Run(cfg, n, more).truth);
  }
}
