/** Whole runs of the daemon, with the history that the properties speak about. */
module History {
  import opened Endian
  import opened Octets
  import opened Tables
  import opened Origins
  import opened RecordIndex
  import opened Codec
  import opened Sessions
  import opened Vault
  import opened Daemon
  import Access
  import Catalog
  import Records

  /** What was last committed for one record, and the key version its ciphertexts were sealed under. */
  datatype Sealing = Sealing(version: U32, kind: string, meta: Metadata, secret: Secret)

  /** The secrets of the vault in a database, and its records in the clear. */
  datatype Truth = Truth(root: Key, password: string, sealings: map<Id, Sealing>)

  /** One anchor ever written: the key, and everything folded into the root. */
  datatype Issued = Issued(key: Key, vaultId: Id, version: U32, counter: U64, covered: Catalog.Covered)

  datatype World = World(
    core: Core, conns: map<nat, Conn>, truth: Truth, backups: map<Container, Truth>, log: seq<Issued>, used: set<Id>)

  datatype Event =
    | Connection(conn: nat, peer: Peer, env: Env)
    | Incoming(conn: nat, request: Request, env: Env)
    | IdleLock(env: Env)
    | Restart

  // ---- Steps -----------------------------------------------------------------------------------

  function CommittedBy(cfg: Config, w: World, req: Request, env: Env, reply: Result<Reply>): Truth {
    if reply.Err? then w.truth
    else
      var active := w.core.vault.vault.active;
      match req
      case InitVault(password) => Truth(env.init.root, password, map[])
      case ChangeMaster(_, next) => w.truth.(password := next)
      case CreateRecord(f, loginOnly) =>
        var meta := FieldsToMetadata(cfg.web, f);
        if meta.None? then w.truth
        else w.truth.(sealings := w.truth.sealings[env.id :=
               Sealing(active, if f.kind == "" || loginOnly then "login" else f.kind,
                       meta.value.(createdAt := env.now, updatedAt := env.now), f.secret)])
      case UpdateRecord(id, _, f, _) =>
        var meta := FieldsToMetadata(cfg.web, f);
        if meta.None? || id !in w.core.index.entries then w.truth
        else
          var e := w.core.index.entries[id];
          w.truth.(sealings := w.truth.sealings[id :=
            Sealing(active, e.kind, meta.value.(createdAt := e.meta.createdAt, updatedAt := env.now), f.secret)])
      case DeleteRecord(id) => w.truth.(sealings := w.truth.sealings - {id})
      case RestoreBackup(b) => if b in w.backups then w.backups[b] else w.truth
      case _ => w.truth
  }

  function IssuedFor(db: Database, truth: Truth): Option<Issued> {
    if db.anchor.None? || db.vault.None? then None
    else
      var row := db.vault.value;
      Some(Issued(DeriveKeyring(truth.root).catalog, row.id, row.active, db.anchor.value.counter,
          Catalog.CoveredBy(db, row.active)))
  }

  /** Every stamp moves the anchor; a restore brings an old one back and issues nothing. */
  function Logged(w: World, core: Core, truth: Truth, restore: bool): seq<Issued> {
    if restore || core.db.anchor == w.core.db.anchor || IssuedFor(core.db, truth).None? then w.log
    else w.log + [IssuedFor(core.db, truth).value]
  }

  function FreshIds(env: Env): set<Id> {
    {env.sessionId, env.reissueId, env.id, env.approval.clientId, env.init.vaultId}
  }

  function Next(cfg: Config, w: World, e: Event): World {
    match e
    case Connection(k, peer, env) =>
      (match Connect(w.core, peer, env)
       case None => w.(used := w.used + FreshIds(env))
       case Some((core, conn)) => w.(core := core, conns := w.conns[k := conn], used := w.used + FreshIds(env)))
    case Incoming(k, req, env) =>
      if k !in w.conns then w
      else
        var (core, conn, reply) := Handle(cfg, w.core, w.conns[k], req, env);
        var truth := CommittedBy(cfg, w, req, env, reply);
        World(core, w.conns[k := conn], truth,
              if reply.Ok? && reply.value.Written? then w.backups[reply.value.container := w.truth] else w.backups,
              Logged(w, core, truth, req.RestoreBackup?), w.used + FreshIds(env))
    case IdleLock(env) => w.(core := if w.core.vault.vault.unlocked then OpLock(w.core, false, env).0 else w.core)
    case Restart =>
      w.(core := w.core.(vault := NEW_SERVICE, index := NO_ENTRIES, sessions := map[], pending := map[]),
         conns := map[])
  }

  function Run(cfg: Config, w: World, es: seq<Event>): World {
    if es == [] then w else Next(cfg, Run(cfg, w, es[..|es| - 1]), es[|es| - 1])
  }

  // ---- The ideal environment -----------------------------------------------------------------------

  /** Random identifiers are new, distinct and not zero. */
  ghost predicate FreshEnv(w: World, env: Env) {
    && FreshIds(env) !! w.used && 0 !in FreshIds(env) && |FreshIds(env)| == 5
    && (forall i | i in w.log :: i.key != DeriveKeyring(env.init.root).catalog && i.vaultId != env.init.vaultId)
    && (forall b | b in w.backups :: w.backups[b].root != env.init.root)
  }

  /** HMACs are not forged: a container that verifies under some key was written by Create. */
  ghost predicate Possible(w: World, e: Event) {
    match e
    case Connection(k, _, env) => k !in w.conns && FreshEnv(w, env)
    case Incoming(k, req, env) =>
      k in w.conns && FreshEnv(w, env)
      && (req.RestoreBackup? && req.container.macKey.Some? ==> req.container in w.backups)
    case IdleLock(_) => true
    case Restart => true
  }

  ghost predicate PossibleRun(cfg: Config, w: World, es: seq<Event>) {
    es == [] || (PossibleRun(cfg, w, es[..|es| - 1]) && Possible(Run(cfg, w, es[..|es| - 1]), es[|es| - 1]))
  }

  predicate IsRestore(e: Event) { e.Incoming? && e.request.RestoreBackup? }

  predicate RestoreFree(es: seq<Event>) { forall e | e in es :: !IsRestore(e) }

  // ---- A database in order ---------------------------------------------------------------------------

  ghost predicate EnvelopeFor(vaultId: Id, version: U32, truth: Truth, e: EnvelopeRow) {
    exists p: Params, r: EnvelopeNoise :: BuildEnvelope(vaultId, version, truth.root, truth.password, p, r) == Some(e)
  }

  /** Vault row and envelope; before init every table but the events is empty. */
  ghost predicate BaseOk(db: Database, truth: Truth) {
    match db.vault
    case None => db.envelopes == map[] && db.records == map[] && db.clients == map[] && db.anchor == None
    case Some(row) => row.format == FORMAT_VERSION && db.envelopes.Keys == {row.active}
                      && EnvelopeFor(row.id, row.active, truth, db.envelopes[row.active])
  }

  /** The stored root is the root of the stored rows at the stored counter. */
  ghost predicate AnchorOk(db: Database, truth: Truth) {
    db.vault.Some? && db.anchor.Some? ==>
      var row, a := db.vault.value, db.anchor.value;
      && 1 <= a.counter <= MAX_INT64
      && Catalog.RootOf(DeriveKeyring(truth.root).catalog, row.id, row.active, a.counter,
           Catalog.CoveredBy(db, row.active)) == Some(a.root)
  }

  ghost predicate RowOk(web: Web, vaultId: Id, id: Id, row: RecordRow, root: Key, s: Sealing) {
    && RevisionAllowed(row.revision) && row.keyVersion < 0x1_0000_0000 && WellParsed(web, s.meta.urls)
    && row.metaCt == Seal(DeriveKeyring(root).metadata, row.metaNonce,
                          RecordAad(vaultId, id, row.revision, PAYLOAD_METADATA, FORMAT_VERSION, s.version),
                              EncodeMetadata(s.kind, s.meta))
    && row.secretCt == Seal(DeriveKeyring(root).secret, row.secretNonce,
                            RecordAad(vaultId, id, row.revision, PAYLOAD_SECRET, FORMAT_VERSION, s.version),
                                EncodeSecret(s.secret))
  }

  ghost predicate RecordsOk(web: Web, db: Database, truth: Truth) {
    db.vault.Some? ==>
      && truth.sealings.Keys == db.records.Keys
      && forall id | id in db.records :: RowOk(web, db.vault.value.id, id, db.records[id], truth.root,
           truth.sealings[id])
  }

  ghost predicate DbOk(web: Web, db: Database, truth: Truth) {
    BaseOk(db, truth) && AnchorOk(db, truth) && RecordsOk(web, db, truth)
  }

  // ---- The service against its database --------------------------------------------------------------

  ghost predicate ServiceOk(db: Database, v: VaultState, truth: Truth) {
    && (v.loaded ==> db.vault.Some? && v.vault.id == db.vault.value.id && v.vault.active == db.vault.value.active
                     && v.vault.format == FORMAT_VERSION)
    && (!v.loaded ==> v.vault == NO_VAULT)
    && (v.vault.unlocked ==> v.loaded && v.rootKey == Some(truth.root) && v.keyring == Some(DeriveKeyring(truth.root)))
    && (!v.vault.unlocked ==> v.rootKey == None && v.keyring == None)
    && (v.highWater == 0 || (db.anchor.Some? && v.highWater == db.anchor.value.counter))
  }

  /** An index entry against the last committed metadata, to the stored precision of its instants. */
  ghost predicate EntryOk(web: Web, e: Entry, row: RecordRow, s: Sealing) {
    e.kind == s.kind && e.revision == row.revision && Stored(e.meta) == Stored(s.meta) && WellParsed(web, e.meta.urls)
  }

  ghost predicate IndexOk(web: Web, db: Database, v: VaultState, ix: IndexView, truth: Truth) {
    && Agrees(web, ix)
    && (!v.vault.unlocked ==> ix == NO_ENTRIES)
    && (v.vault.unlocked ==>
          && ix.entries.Keys == db.records.Keys == truth.sealings.Keys
          && forall id | id in db.records :: EntryOk(web, ix.entries[id], db.records[id], truth.sealings[id]))
  }

  ghost predicate CoreOk(web: Web, c: Core, truth: Truth) {
    DbOk(web, c.db, truth) && ServiceOk(c.db, c.vault, truth) && IndexOk(web, c.db, c.vault, c.index, truth)
  }

  ghost predicate BackupOk(web: Web, b: Container, truth: Truth) {
    && DbOk(web, b.snapshot, truth) && b.snapshot.vault.Some? && b.vaultId == b.snapshot.vault.value.id
    && b.macKey == Some(DeriveKeyring(truth.root).backup)
  }

  ghost predicate VaultInv(cfg: Config, w: World) {
    CoreOk(cfg.web, w.core, w.truth) && forall b | b in w.backups :: BackupOk(cfg.web, b, w.backups[b])
  }

  /** A daemon that has just been started on a database in order. */
  ghost predicate Start(cfg: Config, w: World) {
    && w.core.vault == NEW_SERVICE && w.core.index == NO_ENTRIES && w.core.sessions == map[] && w.core.pending == map[]
    && w.conns == map[] && w.backups == map[] && DbOk(cfg.web, w.core.db, w.truth)
  }
}
