/**
 The hypotheses of the run theorems can be met: a daemon on no database reaches an unlocked vault in three steps.
 */
module Witness {
  import opened Octets
  import opened Tables
  import opened Origins
  import opened RecordIndex
  import opened Codec
  import opened Sessions
  import opened Vault
  import opened Daemon
  import opened History
  import opened NoFalseAlarm
  import opened Runs
  import opened Recovery
  import opened Pairing
  import Backoff
  import opened Detection
  import opened AccessSafety
  import opened Confinement
  import Access
  import Catalog
  import Records

  function Zeros(n: nat): (r: Bytes)
    ensures |r| == n
  {
    seq(n, i => Raw(0))
  }

  /** Five ids from n on, and everything else working. */
  function EnvFrom(n: Id, root: Key): Env
    requires n + 4 < 1000
  {
    var noise := EnvelopeNoise(Zeros(16), Zeros(24), Zeros(24));
    Env(0, 0, true, true, true, n, n + 1, InitNoise(n + 4, root, noise), noise, n + 2,
        Records.Nonces(Zeros(24), Zeros(24)), Access.ApprovalNoise(n + 3, Zeros(32), Zeros(24)))
  }

  /** The two passwords of a run, and a root key that its other random draws come up with. */
  datatype Script = Script(first: string, next: string, spare: Key)

  /** The passwords pass the policy, and the key derivation has valid parameters. */
  predicate Playable(cfg: Config, root: Key, script: Script) {
    ParamsValid(cfg.params) && cfg.strong(script.first) && cfg.strong(script.next) && script.spare != root
  }

  function Nothing(root: Key): World { World(EMPTY_CORE, map[], Truth(root, "", map[]), map[], [], {}) }

  function Connecting(root: Key): Event { Connection(0, Peer(CliHello, Zeros(32), []), EnvFrom(1, root)) }

  function Creating(root: Key, script: Script): Event { Incoming(0, InitVault(script.first), EnvFrom(11, root)) }

  function Unlocking(script: Script): Event { Incoming(0, UnlockVault(script.first), EnvFrom(21, script.spare)) }

  lemma IdsOf(n: Id, root: Key)
    requires 0 < n && n + 4 < 1000
    ensures FreshIds(EnvFrom(n, root)) == {n, n + 1, n + 2, n + 3, n + 4} && |FreshIds(EnvFrom(n, root))| == 5
  {
    var ids: set<Id> := {n, n + 1, n + 2, n + 3, n + 4};
    assert FreshIds(EnvFrom(n, root)) == ids;
    var a: set<Id>, b: set<Id>, c: set<Id>, d: set<Id> := {n}, {n, n + 1}, {n, n + 1, n + 2}, {n, n + 1, n + 2, n + 3};
    assert b == a + {n + 1} && c == b + {n + 2} && d == c + {n + 3} && ids == d + {n + 4};
  }

  /** After the connection: one CLI session of epoch 0. */
  lemma Connected(cfg: Config, root: Key)
    ensures var w, e := Nothing(root), Connecting(root);
            var s := NewSession(1, 0, CLI_MASK, 0, 0);
            && Possible(w, e)
            && Next(cfg, w, e) == w.(core := w.core.(sessions := map[1 := s]),
                 conns := map[0 := Conn(Some(s), 0, false, Zeros(32))],
                                     used := FreshIds(EnvFrom(1, root)))
  {
    hide Handle, FreshIds;
    IdsOf(1, root);
    var none: SessionMap := map[];
    assert none[1 := NewSession(1, 0, CLI_MASK, 0, 0)] == map[1 := NewSession(1, 0, CLI_MASK, 0, 0)];
  }

  lemma CliMay(op: Op)
    requires op == InitOp || op == UnlockOp
    ensures Has(CLI_MASK, RequiredCapability(op).value)
  {
  }

  /** The session is alive, so the request is admitted and nothing but its activity moves. */
  lemma Admitted(c: Core, op: Op, env: Env)
    requires op == InitOp || op == UnlockOp
    requires c.vault.vault.epoch == 0 && 1 in c.sessions && c.sessions[1].epoch == 0
             && c.sessions[1].expiresAt == SESSION_TTL && env.now == 0
    requires c.sessions[1].mask == CLI_MASK
    ensures var conn := Conn(Some(NewSession(1, 0, CLI_MASK, 0, 0)), 0, false, Zeros(32));
            var (d, next, r) := Admit(c, conn, op, env);
            r.Ok? && next == conn && d == c.(sessions := d.sessions) && 1 in d.sessions
                && d.sessions[1] == c.sessions[1].(lastActivity := 0)
  {
    hide Has;
    CliMay(op);
  }

  lemma InitCommits(cfg: Config, c: Core, root: Key, script: Script)
    requires c.vault == NEW_SERVICE && c.db == EMPTY && Playable(cfg, root, script)
    ensures var (d, r) := OpInit(cfg, c, script.first, EnvFrom(11, root));
            r == Ok(Done) && d.sessions == c.sessions && d.vault.vault.epoch == 0 && !d.vault.vault.unlocked
                && d.vault.nextUnlockAt == None
            && d.db.vault.Some? && d.db.vault.value.active == 1 && d.db.vault.value.id == 15 && d.db.anchor.Some?
            && d.db.anchor.value.counter == 1
            && d.db.records == map[]
  {
    hide Catalog.RootOf, DeriveKeyring, Seal;
    var env := EnvFrom(11, root);
    var e := BuildEnvelope(15, 1, root, script.first, cfg.params, env.init.envelope).value;
    var tx := EMPTY.(vault := Some(VaultRow(15, FORMAT_VERSION, 1)), envelopes := map[1 := e]);
    assert EMPTY.envelopes[1 := e] == map[1 := e];
    Catalog.StampFailsExactly(tx, DeriveKeyring(root).catalog, 15, 1);
  }

  lemma CreatingPossible(cfg: Config, root: Key, script: Script)
    ensures Possible(Next(cfg, Nothing(root), Connecting(root)), Creating(root, script))
  {
    hide Next, FreshIds, DeriveKeyring;
    Connected(cfg, root);
    IdsOf(1, root);
    IdsOf(11, root);
  }

  /** After init: a locked vault for the first password. */
  lemma Initialized(cfg: Config, root: Key, script: Script)
    requires Playable(cfg, root, script)
    ensures var w := Next(cfg, Nothing(root), Connecting(root));
            var n := Next(cfg, w, Creating(root, script));
            && n.truth == Truth(root, script.first, map[]) && n.conns == w.conns
            && n.used == FreshIds(EnvFrom(1, root)) + FreshIds(EnvFrom(11, root)) && n.backups == map[]
            && n.core.vault.vault.epoch == 0 && !n.core.vault.vault.unlocked && n.core.vault.nextUnlockAt == None
            && n.core.db.vault.Some? && n.core.db.vault.value.active == 1 && n.core.db.vault.value.id == 15
            && n.core.db.anchor.Some? && n.core.db.anchor.value.counter == 1 && n.core.db.records == map[]
            && 1 in n.core.sessions && n.core.sessions[1] == NewSession(1, 0, CLI_MASK, 0, 0)
            && (forall i | i in n.log :: i.key == DeriveKeyring(root).catalog && i.vaultId == 15)
  {
    hide Admit, OpInit, FreshIds, Connect, DeriveKeyring, Catalog.CoveredBy, OpUnlock, EnvFrom, Playable, Has, Logged;
    Connected(cfg, root);
    var w := Next(cfg, Nothing(root), Connecting(root));
    ClockIsZero(11, root);
    Admitted(w.core, InitOp, EnvFrom(11, root));
    var (d, next, _) := Admit(w.core, w.conns[0], InitOp, EnvFrom(11, root));
    InitCommits(cfg, d, root, script);
    FirstAnchor(w, OpInit(cfg, d, script.first, EnvFrom(11, root)).0, Truth(root, script.first, map[]));
    assert w.conns[0 := next] == w.conns;
  }

  lemma ClockIsZero(n: Id, root: Key)
    requires n + 4 < 1000
    ensures EnvFrom(n, root).now == 0 && EnvFrom(n, root).init.root == root
  {
  }

  lemma FirstAnchor(w: World, c: Core, truth: Truth)
    requires w.log == []
    ensures c.db.vault.Some? && c.db.anchor.Some? ==> forall i | i in Logged(w, c, truth, false) ::
      i.key == DeriveKeyring(truth.root).catalog && i.vaultId == c.db.vault.value.id
  {
    hide DeriveKeyring, Catalog.CoveredBy;
  }

  lemma FreshFrom(w: World, n: Id, root: Key)
    requires 0 < n && n + 4 < 1000 && w.backups == map[]
    requires forall i | i in w.log :: i.key != DeriveKeyring(root).catalog && i.vaultId < n
    requires forall id | id in w.used :: id < n
    ensures FreshEnv(w, EnvFrom(n, root))
  {
    hide FreshIds, EnvFrom;
    IdsOf(n, root);
    RootOfEnv(n, root);
  }

  lemma RootOfEnv(n: Id, root: Key)
    requires n + 4 < 1000
    ensures EnvFrom(n, root).init.root == root && EnvFrom(n, root).init.vaultId == n + 4
  {
  }

  lemma NothingStarts(cfg: Config, root: Key)
    ensures var w := Nothing(root);
            Start(cfg, w) && LogOk(w.core.db, w.truth, w.log) && AccessInv(w)
  {
    FreshDaemonStarts(cfg, Truth(root, "", map[]));
  }

  // ---- Further steps of the command-line connection ----------------------------------------------------------------

  ghost predicate Cli(conn: Conn) {
    conn.clientId == 0 && !conn.pairing && conn.session.Some? && conn.session.value.mask == CLI_MASK
  }

  /** A vault in order, driven by one command-line connection; ids below n are used up, and hardly any stamps. */
  ghost predicate Station(cfg: Config, w: World, n: Id, root: Key) {
    && VaultInv(cfg, w) && w.truth.root == root && w.backups == map[]
    && 0 in w.conns && Cli(w.conns[0])
    && (forall id | id in w.used :: id < n)
    && (forall i | i in w.log :: i.key == DeriveKeyring(root).catalog && i.vaultId < n)
    && w.core.vault.nextUnlockAt == None
    && w.core.db.vault.Some? && w.core.db.vault.value.id < n
    && w.core.db.anchor.Some? && w.core.db.anchor.value.counter <= n < 900
  }

  lemma CliAdmitted(c: Core, conn: Conn, op: Op, env: Env)
    requires Cli(conn) && (c.vault.vault.unlocked || LockedStateOp(op))
    requires RequiredCapability(op).Some? && Has(CLI_MASK, RequiredCapability(op).value)
    ensures var (d, next, r) := Admit(c, conn, op, env);
            r.Ok? && Cli(next) && d == c.(sessions := d.sessions)
  {
    hide Has, Validated, Access.Approved;
  }

  /** A request that moves neither the root key nor the backups. */
  predicate Ordinary(req: Request) {
    !req.InitVault? && !req.RestoreBackup? && !req.CreateBackup?
  }

  lemma OrdinaryTruth(cfg: Config, w: World, req: Request, env: Env, reply: Result<Reply>)
    requires Ordinary(req)
    ensures CommittedBy(cfg, w, req, env, reply).root == w.truth.root
  {
    hide FieldsToMetadata;
  }

  function Asking(n: Id, script: Script, req: Request): Event
    requires n + 4 < 1000
  {
    Incoming(0, req, EnvFrom(n, script.spare))
  }

  lemma UsedGrows(used: set<Id>, n: Id, script: Script)
    requires (forall id | id in used :: id < n) && 0 < n < 900
    ensures forall id | id in used + FreshIds(EnvFrom(n, script.spare)) :: id < n + 10
  {
    hide FreshIds, EnvFrom;
    IdsOf(n, script.spare);
  }

  /** The core after an ordinary request, and what stays true around it. */
  lemma Asked(cfg: Config, w: World, n: Id, root: Key, script: Script, req: Request) returns (d: Core, conn: Conn)
    requires Station(cfg, w, n, root) && script.spare != root && 0 < n && Ordinary(req)
    requires w.core.vault.vault.unlocked || req.UnlockVault?
    requires RequiredCapability(OpOf(req)).Some? && Has(CLI_MASK, RequiredCapability(OpOf(req)).value)
    ensures Possible(w, Asking(n, script, req)) && Cli(conn) && d == w.core.(sessions := d.sessions)
    ensures CoreOk(cfg.web, d, w.truth)
    ensures var a := Admit(w.core, w.conns[0], OpOf(req), EnvFrom(n, script.spare));
            a.0 == d && a.1 == conn && a.2.Ok?
    ensures var (e, next, reply) := Dispatch(cfg, d, conn, req, EnvFrom(n, script.spare));
            var x := Next(cfg, w, Asking(n, script, req));
            && x.core == e && x.truth == CommittedBy(cfg, w, req, EnvFrom(n, script.spare), reply)
            && x.truth.root == root && VaultInv(cfg, x) && x.conns == w.conns[0 := next]
            && x.used == w.used + FreshIds(EnvFrom(n, script.spare))
            && (!(reply.Ok? && reply.value.Written?) ==> x.backups == map[])
            && (forall i | i in x.log :: i.key == DeriveKeyring(root).catalog && i.vaultId < n)
            && (e.db.vault.Some? ==> e.db.vault.value.id < n && e.db.anchor.Some? && e.db.anchor.value.counter <= n + 1)
  {
    hide CoreOk, Admit, Dispatch, FreshIds, FreshEnv, CommittedBy, DeriveKeyring, EnvFrom, Quiet, Stamped,
         BackupOk;
    var env := EnvFrom(n, script.spare);
    CatalogKeysDiffer(script.spare, root);
    FreshFrom(w, n, script.spare);
    StepKeeps(cfg, w, Asking(n, script, req));
    CliAdmitted(w.core, w.conns[0], OpOf(req), env);
    AdmitKeeps(cfg.web, w.core, w.conns[0], OpOf(req), env, w.truth);
    var (d', next, admitted) := Admit(w.core, w.conns[0], OpOf(req), env);
    d, conn := d', next;
    DispatchEffect(cfg, w, d, conn, req, env);
    EffectCounts(d.db, Dispatch(cfg, d, conn, req, env).0.db, n, env.init.vaultId);
    OrdinaryTruth(cfg, w, req, env, Dispatch(cfg, d, conn, req, env).2);
  }

  lemma EffectCounts(a: Database, b: Database, n: nat, newId: Id)
    requires a.vault.Some? && a.vault.value.id < n && a.anchor.Some? && a.anchor.value.counter <= n < 900
    ensures Quiet(a, b) || Stamped(a, b) || Created(a, b, newId) || Emptied(b) ==>
              (b.vault.Some? ==> b.vault.value.id < n && b.anchor.Some? && b.anchor.value.counter <= n + 1)
  {
    hide Catalog.CoveredBy;
  }

  lemma CliMayAll(op: Op)
    ensures op in {UnlockOp, CreateOp, ChangePasswordOp, UpdateOp, LockOp, ApproveOp, DestroyOp} ==>
              Has(CLI_MASK, RequiredCapability(op).value)
  {
    assert CLI_MASK == 0x3f3ff;
  }

  // ---- The run that loses a record ----------------------------------------------------------------------------------

  function Login(password: string): Fields {
    Fields("login", "bank", "me", "", "", [], Some([]), [], "", [], Secret(password, "", "", "", map[]))
  }

  lemma LoginParses(web: Web, password: string)
    ensures FieldsToMetadata(web, Login(password)) == Some(Metadata("bank", "me", "", "", [], [], "", [], 0, 0))
  {
  }

  ghost predicate OpenAndEmpty(cfg: Config, w: World, n: Id, root: Key, password: string) {
    Station(cfg, w, n, root) && HasKeys(w.core.vault) && w.core.db.records == map[] && w.core.vault.vault.active == 1
    && w.truth.password == password && w.conns.Keys == {0}
  }

  /** One record of revision 1 and key version 1, readable, under the given active version and password. */
  ghost predicate HoldsOne(cfg: Config, w: World, n: Id, root: Key, id: Id, active: U32, password: string) {
    && Station(cfg, w, n, root) && w.core.db.records.Keys == {id} && w.core.db.records[id].revision == 1
    && w.core.db.records[id].keyVersion == 1 && w.core.db.vault.value.active == active && w.truth.password == password
    && !AnyStale(w.core.db, w.truth)
  }

  /** Ordinary requests other than unlock keep a station, as long as a vault is left. */
  lemma StaysStation(cfg: Config, w: World, n: Id, root: Key, script: Script, req: Request)
    requires Station(cfg, w, n, root) && script.spare != root && 0 < n < 890 && Ordinary(req)
    requires w.core.vault.vault.unlocked || req.UnlockVault?
    requires RequiredCapability(OpOf(req)).Some? && Has(CLI_MASK, RequiredCapability(OpOf(req)).value)
    ensures var x := Next(cfg, w, Asking(n, script, req));
            && Possible(w, Asking(n, script, req)) && VaultInv(cfg, x)
            && (req.UnlockVault? || (0 in x.conns && Cli(x.conns[0]) && x.core.vault.nextUnlockAt == None))
            && (x.core.db.vault.Some? && 0 in x.conns && Cli(x.conns[0]) && x.core.vault.nextUnlockAt == None ==>
                  Station(cfg, x, n + 10, root))
  {
    hide VaultInv, CoreOk, FreshIds, DeriveKeyring, EnvFrom, CommittedBy, Possible, Next, DispatchRest,
         OpUnlock;
    var env := EnvFrom(n, script.spare);
    var d, conn := Asked(cfg, w, n, root, script, req);
    UsedGrows(w.used, n, script);
    NothingWritten(cfg, d, conn, req, env);
    if !req.UnlockVault? { Backoff.OthersSameBackoff(cfg, d, conn, req, env); }
  }

  lemma NothingWritten(cfg: Config, c: Core, conn: Conn, req: Request, env: Env)
    requires !req.CreateBackup?
    ensures var r := Dispatch(cfg, c, conn, req, env).2;
            !(r.Ok? && r.value.Written?)
  {
    WrittenSnapshot(cfg, c, conn, req, env);
  }

  lemma RecordsLeaveVault(cfg: Config, c: Core, req: Request, env: Env)
    requires req.CreateRecord? || req.UpdateRecord?
    ensures var d := DispatchRest(cfg, c, Conn(None, 0, false, Zeros(32)), req, env).0;
            d.db.vault == c.db.vault && d.vault.vault == c.vault.vault && d.vault.keyring == c.vault.keyring
                && d.vault.loaded == c.vault.loaded
  {
    hide Catalog.RootOf, Catalog.CoveredBy, FieldsToMetadata, Records.SealedRow, ValidRecord, PutEntry;
  }

  lemma ActiveEnvelope(web: Web, c: Core, truth: Truth)
    requires CoreOk(web, c, truth) && c.db.vault.Some?
    ensures c.db.vault.value.active in c.db.envelopes && c.db.envelopes.Keys == {c.db.vault.value.active}
    ensures c.vault.loaded ==>
      c.vault.vault.active == c.db.vault.value.active && c.vault.vault.id == c.db.vault.value.id
    ensures HasKeys(c.vault) ==> c.vault.loaded
    ensures c.vault.vault.unlocked <==> HasKeys(c.vault)
  {
    hide EnvelopeFor, AnchorOk, RecordsOk, IndexOk, DeriveKeyring;
  }

  /** A record is created in the empty vault. */
  lemma CreatesOne(cfg: Config, w: World, n: Id, root: Key, script: Script)
    requires OpenAndEmpty(cfg, w, n, root, script.first) && script.spare != root && 0 < n < 890
    ensures var e := Asking(n, script, CreateRecord(Login("p"), false));
            var x := Next(cfg, w, e);
            Possible(w, e) && HoldsOne(cfg, x, n + 10, root, n + 2, 1, script.first) && HasKeys(x.core.vault)
            && n + 2 in x.truth.sealings && x.truth.sealings[n + 2].secret == Login("p").secret
            && x.truth.sealings[n + 2].kind == "login"
  {
    hide VaultInv, CoreOk, FreshIds, DeriveKeyring, Possible, Next, Records.Create, Cli, Has, AnyStale;
    var req, env := CreateRecord(Login("p"), false), EnvFrom(n, script.spare);
    CliMayAll(CreateOp);
    StaysStation(cfg, w, n, root, script, req);
    var d, conn := Asked(cfg, w, n, root, script, req);
    LoginParses(cfg.web, "p");
    ActiveEnvelope(cfg.web, d, w.truth);
    var meta := FieldsToMetadata(cfg.web, Login("p")).value;
    Records.CreateSucceedsExactly(cfg.web, RecordStateOf(d), "login", meta, Login("p").secret, env.id, env.nonces,
        env.now, env.commits);
    CreateAddsRow(cfg.web, RecordStateOf(d), "login", meta, Login("p").secret, env.id, env.nonces, env.now,
        env.commits);
    CreatedRevision(cfg.web, RecordStateOf(d), "login", meta, Login("p").secret, env.id, env.nonces, env.now,
        env.commits);
    RecordsLeaveVault(cfg, d, req, env);
    NoRowsNoneStale(d.db, w.truth);
    CreateStaysReadable(cfg, w, d, Login("p"), false, env);
  }

  lemma CreatedRevision(web: Web, s: Records.RecordState, kind: string, meta: Metadata, secret: Secret, id: Id,
      r: Records.Nonces, now: int, commits: bool)
    ensures var (t, res) := Records.Create(web, s, kind, meta, secret, id, r, now, commits);
            res.Ok? ==> id in t.db.records && t.db.records[id].revision == 1
  {
    hide Catalog.RootOf, Catalog.CoveredBy, PutEntry, Seal, RecordAad, ValidRecord;
  }

  /** The password is changed: the vault locks, the next envelope version is active, the row keeps its own. */
  lemma Changes(cfg: Config, w: World, n: Id, root: Key, script: Script, id: Id)
    requires HoldsOne(cfg, w, n, root, id, 1, script.first) && HasKeys(w.core.vault) && Playable(cfg, root, script)
             && 0 < n < 890
    ensures var e := Asking(n, script, ChangeMaster(script.first, script.next));
            var x := Next(cfg, w, e);
            Possible(w, e) && HoldsOne(cfg, x, n + 10, root, id, 2, script.next) && !x.core.vault.vault.unlocked
            && x.truth.sealings == w.truth.sealings
  {
    hide VaultInv, CoreOk, FreshIds, DeriveKeyring, Possible, Next, OpChangePassword, Cli, Has, AnyStale, Stale,
         ParamsValid;
    var req, env := ChangeMaster(script.first, script.next), EnvFrom(n, script.spare);
    CliMayAll(ChangePasswordOp);
    StaysStation(cfg, w, n, root, script, req);
    var d, conn := Asked(cfg, w, n, root, script, req);
    ChangePasswordSucceedsExactly(cfg, d, script.first, script.next, env, w.truth);
    OthersLeaveRecords(cfg, d, conn, req, env);
    SameRowsSameStaleness(w.core.db, Next(cfg, w, Asking(n, script, req)).core.db, w.truth,
        Next(cfg, w, Asking(n, script, req)).truth);
  }

  /** The vault is unlocked with the next password. */
  lemma Reopens(cfg: Config, w: World, n: Id, root: Key, script: Script, id: Id)
    requires HoldsOne(cfg, w, n, root, id, 2, script.next) && script.spare != root && 0 < n < 890
    ensures var e := Asking(n, script, UnlockVault(script.next));
            var x := Next(cfg, w, e);
            Possible(w, e) && HoldsOne(cfg, x, n + 10, root, id, 2, script.next) && HasKeys(x.core.vault)
            && x.truth.sealings == w.truth.sealings
  {
    hide VaultInv, CoreOk, FreshIds, DeriveKeyring, Possible, Next, OpUnlock, Cli, Has, AnyStale, Stale;
    var req, env := UnlockVault(script.next), EnvFrom(n, script.spare);
    CliMayAll(UnlockOp);
    StaysStation(cfg, w, n, root, script, req);
    var d, conn := Asked(cfg, w, n, root, script, req);
    SameRowsSameStaleness(w.core.db, d.db, w.truth, w.truth);
    OpUnlockKeeps(cfg, d, conn, script.next, env, w.truth);
    UnlockLeaves(cfg, d, conn, script.next, env);
    SameRowsSameStaleness(w.core.db, Next(cfg, w, Asking(n, script, req)).core.db, w.truth,
        Next(cfg, w, Asking(n, script, req)).truth);
  }

  /** A successful unlock: no throttle left, the same vault row, and the connection still the command line's. */
  lemma UnlockLeaves(cfg: Config, c: Core, conn: Conn, password: string, env: Env)
    requires Cli(conn)
    ensures var (d, next, r) := OpUnlock(cfg, c, conn, password, env);
            r.Ok? ==> d.vault.nextUnlockAt == None && d.db.vault == c.db.vault && Cli(next)
  {
    hide OpenEnvelope, DeriveKeyring, Records.LoadIndex, Catalog.VerdictOn, Catalog.StampOf;
    var v := Vault.Unlock(c.vault, c.db, password, env.now, env.after).0;
    if v.keyring.Some? { StampLeavesTables(c.db, v.keyring.value.catalog, v.vault.id, v.vault.active); }
  }

  function Renewing(n: Id, script: Script, id: Id): Event
    requires n + 4 < 1000
  {
    Asking(n, script, UpdateRecord(id, 1, Login("q"), false))
  }

  /** The row is updated with success, and can no longer be read. */
  lemma Loses(cfg: Config, w: World, n: Id, root: Key, script: Script, id: Id)
    requires HoldsOne(cfg, w, n, root, id, 2, script.next) && HasKeys(w.core.vault) && script.spare != root
             && 0 < n < 890 && id != 0
    requires id in w.truth.sealings && w.truth.sealings[id].kind == "login"
    ensures var e := Renewing(n, script, id);
            var x := Next(cfg, w, e);
            && Possible(w, e) && UpdatesOldRow(cfg, w, e) && Handle(cfg, w.core, w.conns[0], e.request, e.env).2.Ok?
            && Station(cfg, x, n + 10, root) && HasKeys(x.core.vault) && AnyStale(x.core.db, x.truth)
            && x.core.db.records.Keys == {id}
            && Records.Reveal(RecordStateOf(x.core), id) == Err(IntegrityFailure)
  {
    hide VaultInv, CoreOk, FreshIds, DeriveKeyring, Possible, Next, OpUpdate, Cli, Has, AnyStale, Stale, Admit,
         UpdateIsDue, Records.Reveal;
    var req, env := UpdateRecord(id, 1, Login("q"), false), EnvFrom(n, script.spare);
    CliMayAll(UpdateOp);
    StaysStation(cfg, w, n, root, script, req);
    var d, conn := Asked(cfg, w, n, root, script, req);
    InOrderWorld(cfg, w);
    Due(cfg, w, n, root, script.next, id, env);
    UpdateRequestSucceedsExactly(cfg, w, 0, id, 1, Login("q"), false, env);
    RecordsLeaveVault(cfg, d, req, env);
    RowsStay(cfg, w, d, id, Login("q"), env);
    AdmittedUpdateIsDue(cfg, w.core, d, id, 1, Login("q"), false, env);
    OpUpdateSucceedsExactly(cfg, d, id, 1, Login("q"), false, env);
    SameRowsSameStaleness(w.core.db, d.db, w.truth, w.truth);
    UpdateLosesOldRow(cfg, w, d, id, 1, Login("q"), false, env);
    var x := Next(cfg, w, Asking(n, script, req));
    InOrderWorld(cfg, x);
    RevealKnown(cfg.web, x.core, x.truth, id);
    OnlyOneStale(x.core.db, x.truth, id);
  }

  lemma InOrderWorld(cfg: Config, w: World)
    requires VaultInv(cfg, w)
    ensures CoreOk(cfg.web, w.core, w.truth)
  {
  }

  lemma OnlyOneStale(db: Database, truth: Truth, id: Id)
    requires db.records.Keys == {id} && AnyStale(db, truth)
    ensures id in truth.sealings && Stale(db, truth, id)
  {
    var x :| x in db.records && x in truth.sealings && Stale(db, truth, x);
    assert x in db.records.Keys;
  }

  lemma Due(cfg: Config, w: World, n: Id, root: Key, password: string, id: Id, env: Env)
    requires HoldsOne(cfg, w, n, root, id, 2, password) && HasKeys(w.core.vault) && CoreOk(cfg.web, w.core, w.truth)
             && env.commits && id != 0
    requires id in w.truth.sealings && w.truth.sealings[id].kind == "login"
    ensures UpdateIsDue(cfg, w.core, id, 1, Login("q"), false, env) && w.core.vault.vault.active == 2
  {
    hide VaultInv, DbOk, ServiceOk, DeriveKeyring, Cli, AnyStale, FieldsToMetadata;
    LoginParses(cfg.web, "q");
    ActiveEnvelope(cfg.web, w.core, w.truth);
  }

  lemma RowsStay(cfg: Config, w: World, c: Core, id: Id, f: Fields, env: Env)
    requires CoreOk(cfg.web, c, w.truth)
    ensures var (d, r) := OpUpdate(cfg, c, id, 1, f, false, env);
            d.db.records.Keys == c.db.records.Keys
  {
    hide CoreOk, Records.Update;
    ParsedUrls(cfg.web, f);
    if FieldsToMetadata(cfg.web, f).Some? {
      UpdateKeeps(cfg, c, id, 1, FieldsToMetadata(cfg.web, f).value, f.secret, env.nonces, env.now, env.commits,
          w.truth);
    }
  }

  /** Locking leaves the daemon stuck with it. */
  lemma Sticks(cfg: Config, w: World, n: Id, root: Key, script: Script)
    requires Station(cfg, w, n, root) && w.core.vault.vault.unlocked && AnyStale(w.core.db, w.truth)
             && script.spare != root && 0 < n < 890
    ensures var e := Asking(n, script, LockVault(false));
            Possible(w, e) && Stuck(Next(cfg, w, e)) && VaultInv(cfg, Next(cfg, w, e))
  {
    hide VaultInv, CoreOk, FreshIds, DeriveKeyring, Possible, Next, Cli, Has, AnyStale, Stale;
    var req := LockVault(false);
    CliMayAll(LockOp);
    var d, conn := Asked(cfg, w, n, root, script, req);
    LockRecords(d, false, EnvFrom(n, script.spare));
    StaysStation(cfg, w, n, root, script, req);
    SameRowsSameStaleness(w.core.db, Next(cfg, w, Asking(n, script, req)).core.db, w.truth,
        Next(cfg, w, Asking(n, script, req)).truth);
  }

  // ---- Whole runs ---------------------------------------------------------------------------------------------------

  lemma RunGrows(cfg: Config, w: World, es: seq<Event>, e: Event)
    requires PossibleRun(cfg, w, es) && Possible(Run(cfg, w, es), e)
    ensures PossibleRun(cfg, w, es + [e]) && Run(cfg, w, es + [e]) == Next(cfg, Run(cfg, w, es), e)
  {
    hide Possible, Next;
    assert (es + [e])[..|es + [e]| - 1] == es;
  }

  function Founding(root: Key, script: Script): seq<Event> { [Connecting(root)] + [Creating(root, script)] }

  lemma FoundingIsPossible(cfg: Config, root: Key, script: Script)
    ensures PossibleRun(cfg, Nothing(root), Founding(root, script))
    ensures Run(cfg, Nothing(root), Founding(root, script)) ==
            Next(cfg, Next(cfg, Nothing(root), Connecting(root)), Creating(root, script))
  {
    hide Possible, Next, Nothing, Connecting, Creating;
    Connected(cfg, root);
    CreatingPossible(cfg, root, script);
    var w := Nothing(root);
    assert [] + [Connecting(root)] == [Connecting(root)];
    assert PossibleRun(cfg, w, []) && Run(cfg, w, []) == w;
    RunGrows(cfg, w, [], Connecting(root));
    RunGrows(cfg, w, [Connecting(root)], Creating(root, script));
  }

  /** After init the vault is in order, locked and empty. */
  lemma Founded(cfg: Config, root: Key, script: Script)
    requires Playable(cfg, root, script)
    ensures var w := Run(cfg, Nothing(root), Founding(root, script));
            && PossibleRun(cfg, Nothing(root), Founding(root, script)) && Station(cfg, w, 21, root)
            && w.core.db.records == map[] && w.core.db.vault.value.active == 1 && w.truth.password == script.first
            && w.conns.Keys == {0}
  {
    hide Possible, PossibleRun, Run, Start, LogOk, AccessInv, CoreOk, VaultInv, DeriveKeyring, FreshIds, Next,
         EnvFrom, Connecting, Creating, Founding, Has, Nothing;
    NothingStarts(cfg, root);
    Connected(cfg, root);
    Initialized(cfg, root, script);
    FoundingIsPossible(cfg, root, script);
    IdsOf(1, root);
    IdsOf(11, root);
    StartKeeps(cfg, Nothing(root));
    RunKeeps(cfg, Nothing(root), Founding(root, script));
  }

  /** The right password opens the empty vault. */
  lemma Opens(cfg: Config, w: World, root: Key, script: Script)
    requires Station(cfg, w, 21, root) && script.spare != root
    requires w.core.db.records == map[] && w.core.db.vault.value.active == 1 && w.truth.password == script.first
             && w.conns.Keys == {0}
    ensures Possible(w, Unlocking(script)) && OpenAndEmpty(cfg, Next(cfg, w, Unlocking(script)), 31, root, script.first)
  {
    hide VaultInv, CoreOk, FreshIds, DeriveKeyring, Possible, Next, OpUnlock, Cli, Has, AnyStale, Stale;
    var req, env := UnlockVault(script.first), EnvFrom(21, script.spare);
    CliMayAll(UnlockOp);
    StaysStation(cfg, w, 21, root, script, req);
    var d, conn := Asked(cfg, w, 21, root, script, req);
    NoRowsNoneStale(d.db, w.truth);
    OpUnlockKeeps(cfg, d, conn, script.first, env, w.truth);
    UnlockLeaves(cfg, d, conn, script.first, env);
    var x := Next(cfg, w, Asking(21, script, req));
    InOrderWorld(cfg, x);
    ActiveEnvelope(cfg.web, x.core, x.truth);
  }

  function UnlockedRun(root: Key, script: Script): seq<Event> { Founding(root, script) + [Unlocking(script)] }

  /** Three steps: connect, create, unlock. The run is possible, restore-free, and ends unlocked. */
  lemma UnlockedRunExists(cfg: Config, root: Key, script: Script)
    requires Playable(cfg, root, script)
    ensures var w, es := Nothing(root), UnlockedRun(root, script);
            && Start(cfg, w) && LogOk(w.core.db, w.truth, w.log) && AccessInv(w)
            && PossibleRun(cfg, w, es) && RestoreFree(es) && OpenAndEmpty(cfg, Run(cfg, w, es), 31, root, script.first)
  {
    hide Possible, Start, LogOk, AccessInv, Next, Station, Run, PossibleRun;
    NothingStarts(cfg, root);
    Founded(cfg, root, script);
    Opens(cfg, Run(cfg, Nothing(root), Founding(root, script)), root, script);
    RunGrows(cfg, Nothing(root), Founding(root, script), Unlocking(script));
  }

  function StoredRun(root: Key, script: Script): seq<Event> {
    UnlockedRun(root, script) + [Asking(31, script, CreateRecord(Login("p"), false))]
      + [Asking(41, script, ChangeMaster(script.first, script.next))] + [Asking(51, script, UnlockVault(script.next))]
  }

  function LosingRun(root: Key, script: Script): seq<Event> { StoredRun(root, script) + [Renewing(61, script, 33)] }

  function StickingRun(root: Key, script: Script): seq<Event> {
    LosingRun(root, script) + [Asking(71, script, LockVault(false))]
  }

  lemma StoredRunExists(cfg: Config, root: Key, script: Script)
    requires Playable(cfg, root, script)
    ensures var w := Run(cfg, Nothing(root), StoredRun(root, script));
            && PossibleRun(cfg, Nothing(root), StoredRun(root, script))
            && HoldsOne(cfg, w, 61, root, 33, 2, script.next) && HasKeys(w.core.vault)
            && 33 in w.truth.sealings && w.truth.sealings[33].kind == "login"
            && w.truth.sealings[33].secret == Login("p").secret
  {
    hide Possible, Start, LogOk, AccessInv, Next, Station, Run, PossibleRun, AnyStale;
    UnlockedRunExists(cfg, root, script);
    var w, es := Nothing(root), UnlockedRun(root, script);
    CreatesOne(cfg, Run(cfg, w, es), 31, root, script);
    RunGrows(cfg, w, es, Asking(31, script, CreateRecord(Login("p"), false)));
    es := es + [Asking(31, script, CreateRecord(Login("p"), false))];
    Changes(cfg, Run(cfg, w, es), 41, root, script, 33);
    RunGrows(cfg, w, es, Asking(41, script, ChangeMaster(script.first, script.next)));
    es := es + [Asking(41, script, ChangeMaster(script.first, script.next))];
    Reopens(cfg, Run(cfg, w, es), 51, root, script, 33);
    RunGrows(cfg, w, es, Asking(51, script, UnlockVault(script.next)));
  }

  lemma ReadableBefore(cfg: Config, w: World, n: Id, root: Key, password: string, id: Id)
    requires HoldsOne(cfg, w, n, root, id, 2, password) && HasKeys(w.core.vault) && id in w.truth.sealings
    ensures Records.Reveal(RecordStateOf(w.core), id) == Ok(w.truth.sealings[id].secret) && Readable(w)
  {
    hide VaultInv, CoreOk, Records.Reveal, DeriveKeyring, Cli;
    InOrderWorld(cfg, w);
    RevealKnown(cfg.web, w.core, w.truth, id);
  }

  /**
   The property fails on a run of the daemon: a record that reads back as it was stored is updated with success
   after a password change, and is unreadable from then on; once locked, the vault is stuck with it.
   */
  lemma UpdateAfterPasswordChangeLosesRecord(cfg: Config, root: Key, script: Script)
    requires Playable(cfg, root, script)
    ensures var before := Run(cfg, Nothing(root), StoredRun(root, script));
            && Start(cfg, Nothing(root)) && PossibleRun(cfg, Nothing(root), StoredRun(root, script))
            && Readable(before) && Records.Reveal(RecordStateOf(before.core), 33) == Ok(Login("p").secret)
            && UpdatesOldRow(cfg, before, Renewing(61, script, 33))
            && Handle(cfg, before.core, before.conns[0], UpdateRecord(33, 1, Login("q"), false),
                 EnvFrom(61, script.spare)).2.Ok?
    ensures var after := Run(cfg, Nothing(root), LosingRun(root, script));
            && PossibleRun(cfg, Nothing(root), LosingRun(root, script)) && !Readable(after)
            && HasKeys(after.core.vault) && Records.Reveal(RecordStateOf(after.core), 33) == Err(IntegrityFailure)
    ensures var locked := Run(cfg, Nothing(root), StickingRun(root, script));
            && PossibleRun(cfg, Nothing(root), StickingRun(root, script)) && Stuck(locked) && VaultInv(cfg, locked)
  {
    hide Possible, Start, LogOk, AccessInv, Next, Run, PossibleRun, AnyStale, VaultInv, CoreOk, Records.Reveal,
         Handle, UpdatesOldRow;
    NothingStarts(cfg, root);
    StoredRunExists(cfg, root, script);
    var w := Nothing(root);
    var before := Run(cfg, w, StoredRun(root, script));
    ReadableBefore(cfg, before, 61, root, script.next, 33);
    Loses(cfg, before, 61, root, script, 33);
    RunGrows(cfg, w, StoredRun(root, script), Renewing(61, script, 33));
    Sticks(cfg, Run(cfg, w, LosingRun(root, script)), 71, root, script);
    RunGrows(cfg, w, LosingRun(root, script), Asking(71, script, LockVault(false)));
  }

  // ---- The run that claims a credential without a row ---------------------------------------------------------------

  /** Besides the command line, a pairing connection with a static key of zeros; the vault is open. */
  ghost predicate PairingStation(cfg: Config, w: World, n: Id, root: Key, password: string) {
    && Station(cfg, w, n, root) && AccessInv(w) && HasKeys(w.core.vault) && w.truth.password == password
    && 1 in w.conns && w.conns[1] == Conn(None, 0, true, Zeros(32))
  }

  function Joining(n: Id, script: Script): Event
    requires n + 4 < 1000
  {
    Connection(1, Peer(PairingHello, Zeros(32), []), EnvFrom(n, script.spare))
  }

  lemma Joins(cfg: Config, w: World, n: Id, root: Key, script: Script)
    requires OpenAndEmpty(cfg, w, n, root, script.first) && AccessInv(w) && script.spare != root && 0 < n < 890
    ensures Possible(w, Joining(n, script))
    ensures PairingStation(cfg, Next(cfg, w, Joining(n, script)), n + 10, root, script.first)
    ensures Next(cfg, w, Joining(n, script)).core == w.core
  {
    hide VaultInv, AccessInv, FreshIds, DeriveKeyring, FreshEnv, EnvFrom, Cli, Handle;
    CatalogKeysDiffer(script.spare, root);
    FreshFrom(w, n, script.spare);
    UsedGrows(w.used, n, script);
    StepKeeps(cfg, w, Joining(n, script));
    StepKeepsAccess(cfg, w, Joining(n, script));
  }

  function Requesting(n: Id, script: Script): Event
    requires n + 4 < 1000
  {
    Incoming(1, Request.Pair(KIND_CHROME_EXTENSION, "b", Zeros(32)), EnvFrom(n, script.spare))
  }

  /** The pairing channel's request only adds a pending entry. */
  lemma PairAdds(cfg: Config, c: Core, env: Env)
    ensures var conn := Conn(None, 0, true, Zeros(32));
            var (d, next, r) := Handle(cfg, c, conn, Request.Pair(KIND_CHROME_EXTENSION, "b", Zeros(32)), env);
            && next == conn && r == Ok(PairingId(env.id)) && env.id in d.pending && !d.pending[env.id].approved
            && d.pending[env.id].staticKey == Zeros(32) && d.vault == c.vault && d.db.(events := c.db.events) == c.db
  {
  }

  lemma Requests(cfg: Config, w: World, n: Id, root: Key, script: Script)
    requires PairingStation(cfg, w, n, root, script.first) && script.spare != root && 0 < n < 890
    ensures var x := Next(cfg, w, Requesting(n, script));
            && Possible(w, Requesting(n, script)) && PairingStation(cfg, x, n + 10, root, script.first)
            && n + 2 in x.core.pending && !x.core.pending[n + 2].approved
            && x.core.pending[n + 2].staticKey == Zeros(32)
  {
    hide VaultInv, AccessInv, FreshIds, DeriveKeyring, FreshEnv, Cli, Handle;
    CatalogKeysDiffer(script.spare, root);
    FreshFrom(w, n, script.spare);
    UsedGrows(w.used, n, script);
    StepKeeps(cfg, w, Requesting(n, script));
    StepKeepsAccess(cfg, w, Requesting(n, script));
    PairAdds(cfg, w.core, EnvFrom(n, script.spare));
  }

  /** Approval by the command line, on the core it is dispatched to. */
  lemma ApprovesOn(cfg: Config, c: Core, truth: Truth, p: Id, env: Env, used: set<Id>)
    requires CoreOk(cfg.web, c, truth) && HasKeys(c.vault) && ClientsOk(c.db, used) && PendingOk(c.pending, used)
    requires p in c.pending && !c.pending[p].approved && c.pending[p].staticKey == Zeros(32)
    requires c.db.vault.Some? && c.db.anchor.Some? && c.db.anchor.value.counter < 900
    requires env.commits && env.approval.clientId !in c.db.clients
    ensures var (d, r) := OpApprove(c, p, env);
            && p in d.pending && d.pending[p].approved && d.pending[p].credential.Some? && Backed(d.db, d.pending[p])
            && d.db.vault == c.db.vault && d.vault.vault == c.vault.vault && d.vault.keyring == c.vault.keyring
  {
    hide CoreOk, OpApprove, Access.Approve, Backed, ClientsOk, PendingOk, ClientsTame, PendingTame;
    ActiveEnvelope(cfg.web, c, truth);
    Access.ApproveSucceedsExactly(AccessStateOf(c), p, env.approval, env.now, env.commits);
    ApprovalLeaves(c, p, env);
    ApproveAccess(c, p, env, used, used + {env.approval.clientId});
    ApprovedHasCredential(OpApprove(c, p, env).0.db, OpApprove(c, p, env).0.pending, p);
  }

  lemma ApprovedHasCredential(db: Database, pending: Access.PendingMap, p: Id)
    ensures p in pending && Backed(db, pending[p]) ==> pending[p].credential.Some?
  {
  }

  lemma Approves(cfg: Config, w: World, n: Id, root: Key, script: Script, p: Id)
    requires PairingStation(cfg, w, n, root, script.first) && script.spare != root && 0 < n < 890
    requires p in w.core.pending && !w.core.pending[p].approved && w.core.pending[p].staticKey == Zeros(32)
    ensures var e := Asking(n, script, Approve(p));
            var x := Next(cfg, w, e);
            && Possible(w, e) && PairingStation(cfg, x, n + 10, root, script.first)
            && p in x.core.pending && x.core.pending[p].approved && Backed(x.core.db, x.core.pending[p])
            && x.core.pending[p].credential.Some?
  {
    hide VaultInv, CoreOk, AccessInv, FreshIds, DeriveKeyring, Possible, Next, OpApprove, Cli, Has, Backed,
         ClientsOk, PendingOk, Admit;
    var req, env := Approve(p), EnvFrom(n, script.spare);
    CliMayAll(ApproveOp);
    StaysStation(cfg, w, n, root, script, req);
    StepKeepsAccess(cfg, w, Asking(n, script, req));
    var d, conn := Asked(cfg, w, n, root, script, req);
    AccessParts(w);
    ClientIsNew(cfg, w, n, script);
    ApprovesOn(cfg, d, w.truth, p, env, w.used);
    OtherConnection(cfg, w, req, env);
  }

  lemma AccessParts(w: World)
    requires AccessInv(w)
    ensures ClientsOk(w.core.db, w.used) && PendingOk(w.core.pending, w.used)
  {
  }

  lemma ClientIsNew(cfg: Config, w: World, n: Id, script: Script)
    requires AccessInv(w) && (forall id | id in w.used :: id < n) && n + 4 < 1000
    ensures EnvFrom(n, script.spare).approval.clientId !in w.core.db.clients
  {
    hide SessionsOk, ConnOk, PendingOk;
  }

  lemma ApprovalLeaves(c: Core, p: Id, env: Env)
    ensures var (d, r) := OpApprove(c, p, env);
            && (r.Ok? <==> Access.Approve(AccessStateOf(c), p, env.approval, env.now, env.commits).1.Ok?)
            && d.db.vault == c.db.vault && d.vault.vault == c.vault.vault && d.vault.keyring == c.vault.keyring
  {
    hide Catalog.RootOf, Catalog.CoveredBy, Access.ClientFor;
  }

  /** A request on connection 0 leaves connection 1 alone. */
  lemma OtherConnection(cfg: Config, w: World, req: Request, env: Env)
    requires 0 in w.conns && 1 in w.conns
    ensures var x := Next(cfg, w, Incoming(0, req, env));
            1 in x.conns && x.conns[1] == w.conns[1]
  {
    hide Handle, CommittedBy, Logged;
  }

  /** The vault is destroyed while the approval is unclaimed: the row is gone, the approval is not. */
  lemma Destroys(cfg: Config, w: World, n: Id, root: Key, script: Script, p: Id)
    requires PairingStation(cfg, w, n, root, script.first) && script.spare != root && 0 < n < 890
    requires p in w.core.pending && w.core.pending[p].approved && w.core.pending[p].credential.Some?
    ensures var e := Asking(n, script, DestroyVault(script.first));
            var x := Next(cfg, w, e);
            && Possible(w, e) && ReplacesTable(w, e) && x.core.db == EMPTY && x.core.pending == w.core.pending
            && 1 in x.conns && x.conns[1] == w.conns[1] && x.used == w.used + FreshIds(EnvFrom(n, script.spare))
            && x.backups == map[]
            && (forall i | i in x.log :: i.key == DeriveKeyring(root).catalog && i.vaultId < n)
  {
    hide VaultInv, CoreOk, AccessInv, FreshIds, DeriveKeyring, Possible, Next, OpDestroy, Cli, Has, Admit,
         Vault.VerifyPassword;
    var req, env := DestroyVault(script.first), EnvFrom(n, script.spare);
    CliMayAll(DestroyOp);
    var d, conn := Asked(cfg, w, n, root, script, req);
    NothingWritten(cfg, d, conn, req, env);
    PasswordVerifies(cfg.web, d, script.first, w.truth);
    SameReauthentication(w.core, d, script.first);
    DestroyedRecords(d, script.first, env);
    DestroyKeepsAccess(d, script.first, env);
    DestroyAnswers(d, script.first, env);
    OtherConnection(cfg, w, req, env);
  }

  lemma DestroyAnswers(c: Core, password: string, env: Env)
    ensures OpDestroy(c, password, env).1.Ok? <==> Vault.VerifyPassword(c.vault, c.db, password).1.Ok?
  {
    hide Vault.VerifyPassword;
  }

  lemma SameReauthentication(c: Core, d: Core, password: string)
    requires d == c.(sessions := d.sessions)
    ensures Vault.VerifyPassword(d.vault, d.db, password) == Vault.VerifyPassword(c.vault, c.db, password)
  {
    hide Vault.VerifyPassword;
  }

  /** On a vault in order the re-authentication takes the password and nothing else. */
  lemma PasswordVerifies(web: Web, c: Core, password: string, truth: Truth)
    requires CoreOk(web, c, truth) && c.db.vault.Some?
    ensures Vault.VerifyPassword(c.vault, c.db, password).1.Ok? <==> password == truth.password
  {
    hide EnvelopeFor, Unwrap, AnchorOk, RecordsOk, IndexOk, DeriveKeyring;
    LoadKeeps(web, c, truth);
    var row := c.db.vault.value;
    UnwrapKnows(row.id, row.active, truth, c.db.envelopes[row.active], password);
  }

  function Collecting(n: Id, script: Script, p: Id): Event
    requires n + 4 < 1000
  {
    Incoming(1, Claim(p), EnvFrom(n, script.spare))
  }

  lemma ClaimAnswers(cfg: Config, c: Core, p: Id, env: Env)
    requires p in c.pending && c.pending[p].approved && c.pending[p].credential.Some?
    ensures Handle(cfg, c, Conn(None, 0, true, Zeros(32)), Claim(p), env).2 ==
            Ok(Credential(c.pending[p].clientId, c.pending[p].credential.value))
  {
  }

  function PairingRun(root: Key, script: Script): seq<Event> {
    UnlockedRun(root, script) + [Joining(31, script)] + [Requesting(41, script)] + [Asking(51, script, Approve(43))]
  }

  function BreakingRun(root: Key, script: Script): seq<Event> {
    PairingRun(root, script) + [Asking(61, script, DestroyVault(script.first))]
  }

  lemma PairingRunExists(cfg: Config, root: Key, script: Script)
    requires Playable(cfg, root, script)
    ensures var w := Run(cfg, Nothing(root), PairingRun(root, script));
            && PossibleRun(cfg, Nothing(root), PairingRun(root, script))
            && PairingStation(cfg, w, 61, root, script.first)
            && 43 in w.core.pending && w.core.pending[43].approved && w.core.pending[43].credential.Some?
            && Backed(w.core.db, w.core.pending[43])
  {
    hide Possible, Start, LogOk, AccessInv, Next, Station, Run, PossibleRun, Backed;
    UnlockedRunExists(cfg, root, script);
    var w, es := Nothing(root), UnlockedRun(root, script);
    RunKeepsAccess(cfg, w, es);
    Joins(cfg, Run(cfg, w, es), 31, root, script);
    RunGrows(cfg, w, es, Joining(31, script));
    es := es + [Joining(31, script)];
    Requests(cfg, Run(cfg, w, es), 41, root, script);
    RunGrows(cfg, w, es, Requesting(41, script));
    es := es + [Requesting(41, script)];
    Approves(cfg, Run(cfg, w, es), 51, root, script, 43);
    RunGrows(cfg, w, es, Asking(51, script, Approve(43)));
  }

  /** A run after which a claim hands out a credential whose client row no longer exists. */
  lemma ClaimAfterDestroyHasNoRow(cfg: Config, root: Key, script: Script)
    requires Playable(cfg, root, script)
    ensures var before := Run(cfg, Nothing(root), PairingRun(root, script));
            var w := Run(cfg, Nothing(root), BreakingRun(root, script));
            && PossibleRun(cfg, Nothing(root), BreakingRun(root, script))
            && 43 in before.core.pending && before.core.pending[43].approved
            && Backed(before.core.db, before.core.pending[43])
            && Possible(w, Collecting(71, script, 43))
            && var reply := ReplyTo(cfg, w, 1, Claim(43), EnvFrom(71, script.spare));
            && reply.Some? && reply.value.Credential? && reply.value.clientId !in w.core.db.clients
  {
    hide AccessInv, Next, Station, Run, PossibleRun, Backed, Handle, FreshEnv, FreshIds, DeriveKeyring, EnvFrom;
    PairingRunExists(cfg, root, script);
    var before := Run(cfg, Nothing(root), PairingRun(root, script));
    Destroys(cfg, before, 61, root, script, 43);
    RunGrows(cfg, Nothing(root), PairingRun(root, script), Asking(61, script, DestroyVault(script.first)));
    var w := Run(cfg, Nothing(root), BreakingRun(root, script));
    UsedBelow(cfg, before, 61, root);
    UsedGrows(before.used, 61, script);
    CatalogKeysDiffer(script.spare, root);
    FreshFrom(w, 71, script.spare);
    ClaimAnswers(cfg, w.core, 43, EnvFrom(71, script.spare));
  }

  lemma UsedBelow(cfg: Config, w: World, n: Id, root: Key)
    requires Station(cfg, w, n, root)
    ensures forall id | id in w.used :: id < n
  {
  }
}
