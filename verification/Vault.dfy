/** internal/vault: the aggregate, the key envelope, and the service that holds the keys while unlocked. */
module Vault {
  import opened Endian
  import opened Octets
  import opened Tables
  import opened Origins
  import opened RecordIndex
  import opened Sessions
  import Catalog

  const FORMAT_VERSION: U32 := 1
  const CANARY := "albear-canary-v1"

  datatype Keyring = Keyring(metadata: Key, secret: Key, audit: Key, backup: Key, catalog: Key)

  const LABEL_CATALOG := "github.com/m7medVision/albear/v1/catalog"

  function DeriveKeyring(root: Key): Keyring {
    Keyring(DeriveSubkey(root, "github.com/m7medVision/albear/v1/metadata"),
            DeriveSubkey(root, "github.com/m7medVision/albear/v1/secrets"),
            DeriveSubkey(root, "github.com/m7medVision/albear/v1/audit"),
            DeriveSubkey(root, "github.com/m7medVision/albear/v1/backup"),
            DeriveSubkey(root, LABEL_CATALOG))
  }

  // ---- The key envelope -------------------------------------------------------------------------

  datatype Params = Params(memory: U32, iterations: U32, parallelism: byte)

  predicate ParamsValid(p: Params) {
    0x1_0000 <= p.memory <= 0x10_0000 && 3 <= p.iterations <= 20 && 1 <= p.parallelism <= 16
  }

  function DeriveKek(password: string, salt: Bytes, p: Params): Option<Key> {
    if !ParamsValid(p) || |salt| < 16 then None
    else Some(Expand(Stretched(password, salt, p.memory, p.iterations, p.parallelism), 32))
  }

  function EnvelopeAad(vaultId: Id, version: U32, kind: string): Bytes {
    Raws(BigEndian(vaultId, 16) + BigEndian(version, 4)) + Text(kind)
  }

  /** The random inputs of one envelope. */
  datatype EnvelopeNoise = EnvelopeNoise(salt: Salt, wrapNonce: Nonce, canaryNonce: Nonce)

  function BuildEnvelope(vaultId: Id, version: U32, root: Key, password: string, p: Params, r: EnvelopeNoise)
    : (e: Option<EnvelopeRow>)
    ensures e.Some? ==> EnvelopeAllowed(e.value)
  {
    match DeriveKek(password, r.salt, p)
    case None => None
    case Some(kek) =>
      Some(EnvelopeRow(r.salt, p.memory, p.iterations, p.parallelism,
                       r.wrapNonce, Seal(kek, r.wrapNonce, EnvelopeAad(vaultId, version, "wrap"), root),
                       r.canaryNonce, Seal(root, r.canaryNonce, EnvelopeAad(vaultId, version, "canary"), Text(CANARY))))
  }

  function ParamsOf(e: EnvelopeRow): Params {
    Params(e.memory % 0x1_0000_0000, e.iterations % 0x1_0000_0000, e.parallelism % 256)
  }

  function Unwrap(e: EnvelopeRow, vaultId: Id, version: U32, password: string): Option<Bytes> {
    match DeriveKek(password, e.salt, ParamsOf(e))
    case None => None
    case Some(kek) => Open(kek, e.wrapNonce, EnvelopeAad(vaultId, version, "wrap"), e.wrapped)
  }

  /** Unwrapping followed by the canary check. */
  function OpenEnvelope(e: EnvelopeRow, vaultId: Id, version: U32, password: string): Option<Key> {
    match Unwrap(e, vaultId, version, password)
    case None => None
    case Some(root) =>
      if |root| == 32 && Open(root, e.canaryNonce, EnvelopeAad(vaultId, version, "canary"), e.canary)
          == Some(Text(CANARY))
      then Some(root) else None
  }

  /** The associated data tell vault, version and use apart. */
  lemma EnvelopeAadNames(v: Id, n: U32, kind: string, v': Id, n': U32, kind': string)
    ensures EnvelopeAad(v, n, kind) == EnvelopeAad(v', n', kind') <==> v == v' && n == n' && kind == kind'
  {
    Widths();
    var a, b := BigEndian(v, 16) + BigEndian(n, 4), BigEndian(v', 16) + BigEndian(n', 4);
    if EnvelopeAad(v, n, kind) == EnvelopeAad(v', n', kind') {
      Cut(Raws(a), Raws(b), Text(kind), Text(kind'));
      assert Text(kind)[0] == Text(kind')[0];
      RawsInjective(a, b);
      Cut(BigEndian(v, 16), BigEndian(v', 16), BigEndian(n, 4), BigEndian(n', 4));
      BigEndianRoundTrip(v, 16);
      BigEndianRoundTrip(v', 16);
      BigEndianRoundTrip(n, 4);
      BigEndianRoundTrip(n', 4);
    }
  }

  /** What an envelope unwraps to, and when: the parameters within their bounds, and a box under the derived key. */
  lemma UnwrapsExactly(e: EnvelopeRow, vaultId: Id, version: U32, password: string, root: Bytes)
    requires e.memory < 0x1_0000_0000 && e.iterations < 0x1_0000_0000 && e.parallelism < 256
    ensures Unwrap(e, vaultId, version, password) == Some(root) <==>
            && 65536 <= e.memory <= 1048576 && 3 <= e.iterations <= 20 && 1 <= e.parallelism <= 16 && |e.salt| >= 16
            && e.wrapped == Seal(Expand(Stretched(password, e.salt, e.memory, e.iterations, e.parallelism), 32),
                 e.wrapNonce, EnvelopeAad(vaultId, version, "wrap"), root)
  {
    hide EnvelopeAad;
  }

  /** The canary guards the columns the root is not wrapped in: it has to open under the unwrapped root. */
  lemma OpensExactly(e: EnvelopeRow, vaultId: Id, version: U32, password: string, root: Key)
    ensures OpenEnvelope(e, vaultId, version, password) == Some(root) <==>
            && Unwrap(e, vaultId, version, password) == Some(root)
            && e.canary == Seal(root, e.canaryNonce, EnvelopeAad(vaultId, version, "canary"), Text("albear-canary-v1"))
  {
    hide EnvelopeAad, DeriveKek;
  }

  /** An envelope opens for the vault, the version and the password it was built for, and for no other. */
  lemma EnvelopeOpensExactly(v: Id, n: U32, root: Key, password: string, p: Params, r: EnvelopeNoise, v': Id, n': U32,
      guess: string)
    requires BuildEnvelope(v, n, root, password, p, r).Some?
    ensures var e := BuildEnvelope(v, n, root, password, p, r).value;
            var mine := v == v' && n == n' && guess == password;
            && OpenEnvelope(e, v', n', guess) == (if mine then Some(root) else None)
            && Unwrap(e, v', n', guess) == (if mine then Some(root) else None)
  {
    hide EnvelopeAad;
    var e := BuildEnvelope(v, n, root, password, p, r).value;
    var kek, guessed := DeriveKek(password, r.salt, p).value, DeriveKek(guess, r.salt, p).value;
    assert ParamsOf(e) == p;
    ExpandInjective(Stretched(password, r.salt, p.memory, p.iterations, p.parallelism),
                    Stretched(guess, r.salt, p.memory, p.iterations, p.parallelism), 32);
    EnvelopeAadNames(v, n, "wrap", v', n', "wrap");
    EnvelopeAadNames(v, n, "canary", v', n', "canary");
    OpenSeal(kek, r.wrapNonce, EnvelopeAad(v, n, "wrap"), guessed, r.wrapNonce, EnvelopeAad(v', n', "wrap"), root);
    OpenSeal(root, r.canaryNonce, EnvelopeAad(v, n, "canary"), root, r.canaryNonce, EnvelopeAad(v', n', "canary"),
        Text(CANARY));
  }

  // ---- The subkeys ------------------------------------------------------------------------------------------------

  function Subkeys(k: Keyring): seq<Key> { [k.metadata, k.secret, k.audit, k.backup, k.catalog] }

  function Purposes(): seq<string> {
    ["github.com/m7medVision/albear/v1/metadata", "github.com/m7medVision/albear/v1/secrets",
     "github.com/m7medVision/albear/v1/audit", "github.com/m7medVision/albear/v1/backup",
     "github.com/m7medVision/albear/v1/catalog"]
  }

  lemma PurposesDiffer(i: nat, j: nat)
    requires i < 5 && j < 5
    ensures Purposes()[i] == Purposes()[j] <==> i == j
  {
    assert |Purposes()[0]| == 41 && |Purposes()[1]| == 40 && |Purposes()[2]| == 38 && |Purposes()[3]| == 39;
    assert |Purposes()[4]| == 40 && Purposes()[1][33] == 's' && Purposes()[4][33] == 'c';
  }

  /** Keys are separated by purpose and by root: no two of them coincide. */
  lemma KeysAreSeparate(r: Key, i: nat, r': Key, j: nat)
    requires i < 5 && j < 5
    ensures Subkeys(DeriveKeyring(r))[i] == Subkeys(DeriveKeyring(r'))[j] <==> i == j && r == r'
  {
    hide DeriveSubkey, Purposes;
    PurposesDiffer(i, j);
    SubkeyOf(r, i);
    SubkeyOf(r', j);
    SubkeyInjective(r, Purposes()[i], r', Purposes()[j]);
  }

  lemma SubkeyOf(r: Key, i: nat)
    requires i < 5
    ensures |Purposes()| == 5 && Subkeys(DeriveKeyring(r))[i] == DeriveSubkey(r, Purposes()[i])
  {
    hide DeriveSubkey;
  }

  // ---- The service on values ----------------------------------------------------------------------

  datatype Aggregate = Aggregate(id: Id, unlocked: bool, format: U32, active: U32, epoch: nat)

  const NO_VAULT := Aggregate(0, false, 0, 0, 0)

  datatype VaultState = VaultState(
    vault: Aggregate, loaded: bool, keyring: Option<Keyring>, rootKey: Option<Key>,
    failedUnlocks: nat, nextUnlockAt: Option<int>, highWater: nat)

  const NEW_SERVICE := VaultState(NO_VAULT, false, None, None, 0, None, 0)

  function LoadVault(v: VaultState, db: Database): Result<VaultState> {
    if v.loaded then Ok(v)
    else
      match db.vault
      case None => Err(VaultNotFound)
      case Some(row) =>
        if row.format > FORMAT_VERSION then Err(IntegrityFailure)
        else Ok(v.(vault := Aggregate(row.id, false, row.format, row.active, 0), loaded := true))
  }

  /** The vault row is read once; a newer format than 1 is refused. */
  lemma LoadsExactly(v: VaultState, db: Database)
    ensures LoadVault(v, db).Ok? <==> v.loaded || (db.vault.Some? && db.vault.value.format <= 1)
    ensures v.loaded ==> LoadVault(v, db) == Ok(v)
    ensures !v.loaded && db.vault.None? ==> LoadVault(v, db) == Err(VaultNotFound)
    ensures !v.loaded && db.vault.Some? && db.vault.value.format > 1 ==> LoadVault(v, db) == Err(IntegrityFailure)
    ensures !v.loaded && LoadVault(v, db).Ok? ==>
      var row, l := db.vault.value, LoadVault(v, db).value;
      && l.vault == Aggregate(row.id, false, row.format, row.active, 0) && l.loaded
      && l.(vault := v.vault, loaded := v.loaded) == v
  {
  }

  function Noted(v: VaultState, counter: nat): VaultState {
    if counter > v.highWater then v.(highWater := counter) else v
  }

  datatype InitNoise = InitNoise(vaultId: Id, root: Key, envelope: EnvelopeNoise)

  /** The database Init's transaction builds. */
  function InitTx(db: Database, r: InitNoise, env: EnvelopeRow): Option<(Database, U64)> {
    match InsertVault(db, VaultRow(r.vaultId, FORMAT_VERSION, 1))
    case None => None
    case Some(a) =>
      match InsertKeyEnvelope(a, 1, env)
      case None => None
      case Some(b) => Catalog.StampOf(b, DeriveKeyring(r.root).catalog, r.vaultId, 1)
  }

  function Init(v: VaultState, db: Database, password: string, p: Params, r: InitNoise, commits: bool)
    : (VaultState, Database, Result<()>)
  {
    match LoadVault(v, db)
    case Ok(loaded) => (loaded, db, Err(VaultExists))
    case Err(e) =>
      if e != VaultNotFound then (v, db, Err(e))
      else if !ParamsValid(p) then (v, db, Err(Validation))
      else
        match BuildEnvelope(r.vaultId, 1, r.root, password, p, r.envelope)
        case None => (v, db, Err(Storage))
        case Some(env) =>
          match InitTx(db, r, env)
          case None => (v, db, Err(Storage))
          case Some((next, counter)) =>
            if !commits then (v, db, Err(Storage))
            else (Noted(v, counter).(vault := Aggregate(r.vaultId, false, FORMAT_VERSION, 1, 0), loaded := true),
                next, Ok(()))
  }

  function Delay(failed: nat): int {
    if failed <= 3 then 0
    else if failed <= 5 then 2 * SECOND
    else if failed <= 10 then (failed - 5) * 5 * SECOND
    else 60 * SECOND
  }

  function Failed(v: VaultState, now: int): VaultState {
    v.(failedUnlocks := v.failedUnlocks + 1, nextUnlockAt := Some(now + Delay(v.failedUnlocks + 1)))
  }

  /** The ladder: three free attempts, two of 2 s, then 5, 10, 15, 20 and 25 s, and a minute from then on. */
  lemma DelayLadder(failed: nat)
    ensures failed <= 3 ==> Delay(failed) == 0
    ensures 4 <= failed <= 5 ==> Delay(failed) == 2_000_000_000
    ensures 6 <= failed <= 10 ==> Delay(failed) == 5_000_000_000 * (failed - 5)
    ensures failed > 10 ==> Delay(failed) == 60_000_000_000
  {
  }

  predicate Throttled(v: VaultState, now: int) { v.nextUnlockAt.Some? && now < v.nextUnlockAt.value }

  function Opened(v: VaultState, root: Key): VaultState {
    v.(rootKey := Some(root), keyring := Some(DeriveKeyring(root)), failedUnlocks := 0, nextUnlockAt := None,
       vault := v.vault.(unlocked := true, epoch := v.vault.epoch + 1))
  }

  /** `after` is the clock when the attempt has been evaluated. */
  function Unlock(v: VaultState, db: Database, password: string, now: int, after: int): (VaultState, Result<()>) {
    if Throttled(v, now) then (v, Err(RateLimited))
    else
      match LoadVault(v, db)
      case Err(e) => (v, Err(e))
      case Ok(l) =>
        if l.vault.active !in db.envelopes then (l, Err(IntegrityFailure))
        else
          match OpenEnvelope(db.envelopes[l.vault.active], l.vault.id, l.vault.active, password)
          case None => (Failed(l, after), Err(AuthenticationFail))
          case Some(root) => (Opened(l, root), Ok(()))
  }

  function Locked(v: VaultState): VaultState {
    v.(keyring := None, rootKey := None,
       vault := if v.vault.unlocked then v.vault.(unlocked := false, epoch := v.vault.epoch + 1) else v.vault)
  }

  function Reset(v: VaultState): VaultState {
    Locked(v).(loaded := false, vault := NO_VAULT, highWater := 0)
  }

  /** Unlocking and locking each open a new period: no session of an earlier one has the epoch that holds now. */
  lemma PeriodsDiffer(v: VaultState, root: Key)
    ensures Opened(v, root).vault.epoch == v.vault.epoch + 1 && Opened(v, root).vault.unlocked
    ensures Opened(v, root).failedUnlocks == 0 && Opened(v, root).nextUnlockAt.None?
    ensures Opened(v, root).highWater == v.highWater
    ensures v.vault.unlocked ==> Locked(v).vault.epoch == v.vault.epoch + 1
    ensures !Locked(v).vault.unlocked && Locked(v).keyring.None? && Locked(v).rootKey.None?
    ensures Locked(v).highWater == v.highWater && Locked(v).loaded == v.loaded && Locked(v).vault.id == v.vault.id
    ensures Locked(v).vault.active == v.vault.active && Locked(v).failedUnlocks == v.failedUnlocks
    ensures Locked(v).nextUnlockAt == v.nextUnlockAt
  {
  }

  predicate HasKeys(v: VaultState) { v.keyring.Some? && v.vault.unlocked }

  /** The counter written is noted only once the transaction has landed. */
  function VerifyCatalog(v: VaultState, db: Database, commits: bool): (VaultState, Database, Result<bool>) {
    if !HasKeys(v) then (v, db, Err(VaultLocked))
    else
      match Catalog.VerdictOn(db, v.keyring.value.catalog, v.vault.id, v.vault.active)
      case Unreadable => (v, db, Err(Storage))
      case NoState =>
        (match Catalog.StampOf(db, v.keyring.value.catalog, v.vault.id, v.vault.active)
         case Some((next, counter)) => if commits then (Noted(v, counter), next, Ok(true)) else (v, db, Err(Storage))
         case None => (v, db, Err(Storage)))
      case Checked(counter, matches) =>
        if !matches || counter < v.highWater then (v, db, Err(IntegrityFailure))
        else (v.(highWater := counter), db, Ok(false))
  }

  function NextVersion(version: U32): U32 { (version + 1) % 0x1_0000_0000 }

  /** The transaction that swaps the envelope for one under the next password, and re-anchors. */
  function RewrapTx(db: Database, vault: Aggregate, root: Key, password: string, p: Params, r: EnvelopeNoise)
    : Option<(Database, U64)>
  {
    var version := NextVersion(vault.active);
    match BuildEnvelope(vault.id, version, root, password, p, r)
    case None => None
    case Some(env) =>
      match InsertKeyEnvelope(db, version, env)
      case None => None
      case Some(a) =>
        Catalog.StampOf(DeleteKeyEnvelope(SetActiveEnvelope(a, version), vault.active), DeriveKeyring(root).catalog,
            vault.id, version)
  }

  function ReplaceEnvelope(l: VaultState, db: Database, root: Key, next: string, p: Params, r: EnvelopeNoise,
      commits: bool)
    : (VaultState, Database, Result<()>)
  {
    match RewrapTx(db, l.vault, root, next, p, r)
    case None => (l, db, Err(Storage))
    case Some((stamped, counter)) =>
      if !commits then (l, db, Err(Storage))
      else (Noted(l, counter).(vault := l.vault.(active := NextVersion(l.vault.active))), stamped, Ok(()))
  }

  /** On success the vault ends locked; the caller's lock hooks run as well. */
  function ChangePassword(v: VaultState, db: Database, current: string, next: string, p: Params, r: EnvelopeNoise,
      commits: bool)
    : (VaultState, Database, Result<()>)
  {
    match LoadVault(v, db)
    case Err(e) => (v, db, Err(e))
    case Ok(l) =>
      if l.vault.active !in db.envelopes then (l, db, Err(IntegrityFailure))
      else
        match Unwrap(db.envelopes[l.vault.active], l.vault.id, l.vault.active, current)
        case None => (l, db, Err(AuthenticationFail))
        case Some(root) =>
          if |root| != 32 then (l, db, Err(Storage)) else
          var (w, stamped, result) := ReplaceEnvelope(l, db, root, next, p, r, commits);
          (if result.Ok? then Locked(w) else w, stamped, result)
  }

  /** Re-authentication before a destructive operation. */
  function VerifyPassword(v: VaultState, db: Database, password: string): (VaultState, Result<()>) {
    match LoadVault(v, db)
    case Err(e) => (v, Err(e))
    case Ok(l) =>
      if l.vault.active !in db.envelopes then (l, Err(IntegrityFailure))
      else if Unwrap(db.envelopes[l.vault.active], l.vault.id, l.vault.active, password).None? then
        (l, Err(AuthenticationFail))
      else (l, Ok(()))
  }

  /** Re-authentication needs the active envelope and the password that unwraps it; keys and backoff stay. */
  lemma ReauthenticatesExactly(v: VaultState, db: Database, password: string)
    ensures var (w, r) := VerifyPassword(v, db, password);
            var l := LoadVault(v, db);
            && (r.Ok? <==>
                  && l.Ok? && l.value.vault.active in db.envelopes
                  && Unwrap(db.envelopes[l.value.vault.active], l.value.vault.id, l.value.vault.active, password).Some?)
            && w == (if l.Ok? then l.value else v)
            && (l.Ok? && l.value.vault.active !in db.envelopes ==> r == Err(IntegrityFailure))
  {
    hide Unwrap, LoadVault;
  }

  method Rewrap(db: Database, vault: Aggregate, root: Key, password: string, p: Params, r: EnvelopeNoise)
    returns (stamped: Option<(Database, U64)>)
    ensures stamped == RewrapTx(db, vault, root, password, p, r)
  {
    var version := NextVersion(vault.active);
    var env := BuildEnvelope(vault.id, version, root, password, p, r);
    if env.None? { return None; }
    var tx := InsertKeyEnvelope(db, version, env.value);
    if tx.None? { return None; }
    var swapped := DeleteKeyEnvelope(SetActiveEnvelope(tx.value, version), vault.active);
    stamped := Catalog.Stamp(swapped, DeriveKeyring(root).catalog, vault.id, version);
  }

  // ---- The service object ---------------------------------------------------------------------------

  /** The lock hooks wired in the daemon are the record index and the session manager. */
  class VaultService {
    const store: Store
    const index: Index
    const sessions: SessionManager
    var vault: Aggregate
    var loaded: bool
    var keyring: Option<Keyring>
    var rootKey: Option<Key>
    var failedUnlocks: nat
    var nextUnlockAt: Option<int>
    var catalogHighWater: nat

    function State(): VaultState
      reads this
    {
      VaultState(vault, loaded, keyring, rootKey, failedUnlocks, nextUnlockAt, catalogHighWater)
    }

    constructor (store: Store, index: Index, sessions: SessionManager)
      ensures State() == NEW_SERVICE && this.store == store && this.index == index && this.sessions == sessions
    {
      this.store, this.index, this.sessions := store, index, sessions;
      vault, loaded, keyring, rootKey := NO_VAULT, false, None, None;
      failedUnlocks, nextUnlockAt, catalogHighWater := 0, None, 0;
    }

    method Load() returns (r: Result<()>)
      modifies this`vault, this`loaded
      ensures match LoadVault(old(State()), store.db)
              case Ok(l) => r == Ok(()) && State() == l
              case Err(e) => r == Err(e) && State() == old(State())
    {
      if loaded { return Ok(()); }
      if store.db.vault.None? { return Err(VaultNotFound); }
      var row := store.db.vault.value;
      if row.format > FORMAT_VERSION { return Err(IntegrityFailure); }
      vault, loaded := Aggregate(row.id, false, row.format, row.active, 0), true;
      return Ok(());
    }

    method NoteCatalogCounter(counter: nat)
      modifies this`catalogHighWater
      ensures State() == Noted(old(State()), counter)
    {
      if counter > catalogHighWater {
        catalogHighWater := counter;
      }
    }

    method InitVault(password: string, p: Params, r: InitNoise, commits: bool) returns (result: Result<()>)
      modifies this, store
      ensures (State(), store.db, result) == Init(old(State()), old(store.db), password, p, r, commits)
    {
      hide BuildEnvelope, DeriveKeyring, Catalog.StampOf, ParamsValid;
      var present := Load();
      if present.Ok? { return Err(VaultExists); }
      if present.error != VaultNotFound { return Err(present.error); }
      if !ParamsValid(p) { return Err(Validation); }
      var env := BuildEnvelope(r.vaultId, 1, r.root, password, p, r.envelope);
      if env.None? { return Err(Storage); }
      var tx := InsertVault(store.db, VaultRow(r.vaultId, FORMAT_VERSION, 1));
      if tx.None? { return Err(Storage); }
      tx := InsertKeyEnvelope(tx.value, 1, env.value);
      if tx.None? { return Err(Storage); }
      var stamped := Catalog.Stamp(tx.value, DeriveKeyring(r.root).catalog, r.vaultId, 1);
      if stamped.None? { return Err(Storage); }
      var landed := store.Finish(Some(stamped.value.0), commits);
      if !landed { return Err(Storage); }
      NoteCatalogCounter(stamped.value.1);
      vault, loaded := Aggregate(r.vaultId, false, FORMAT_VERSION, 1, 0), true;
      return Ok(());
    }

    method UnlockFailed(now: int)
      modifies this`failedUnlocks, this`nextUnlockAt
      ensures State() == Failed(old(State()), now)
    {
      failedUnlocks := failedUnlocks + 1;
      var delay: int;
      if failedUnlocks <= 3 {
        delay := 0;
      } else if failedUnlocks <= 5 {
        delay := 2 * SECOND;
      } else if failedUnlocks <= 10 {
        delay := (failedUnlocks - 5) * 5 * SECOND;
      } else {
        delay := 60 * SECOND;
      }
      nextUnlockAt := Some(now + delay);
    }

    method UnlockVault(password: string, now: int, after: int) returns (result: Result<()>)
      modifies this
      ensures (State(), result) == Unlock(old(State()), store.db, password, now, after)
    {
      if nextUnlockAt.Some? && now < nextUnlockAt.value { return Err(RateLimited); }
      var present := Load();
      if present.Err? { return Err(present.error); }
      if vault.active !in store.db.envelopes { return Err(IntegrityFailure); }
      var root := OpenEnvelope(store.db.envelopes[vault.active], vault.id, vault.active, password);
      if root.None? {
        UnlockFailed(after);
        return Err(AuthenticationFail);
      }
      rootKey, keyring := Some(root.value), Some(DeriveKeyring(root.value));
      failedUnlocks, nextUnlockAt := 0, None;
      vault := vault.(unlocked := true, epoch := vault.epoch + 1);
      return Ok(());
    }

    /** Also PanicLock; the hooks fire even when the vault was locked already. */
    method Lock()
      modifies this, index, sessions
      ensures State() == Locked(old(State()))
      ensures index.View() == NO_ENTRIES && sessions.sessions == map[]
    {
      keyring, rootKey := None, None;
      if vault.unlocked {
        vault := vault.(unlocked := false, epoch := vault.epoch + 1);
      }
      index.Clear();
      sessions.InvalidateAll();
    }

    method ResetVault()
      modifies this, index, sessions
      ensures State() == Reset(old(State()))
      ensures index.View() == NO_ENTRIES && sessions.sessions == map[]
    {
      Lock();
      loaded, vault, catalogHighWater := false, NO_VAULT, 0;
    }

    method VerifyStoredCatalog(commits: bool) returns (result: Result<bool>)
      modifies this, store
      ensures (State(), store.db, result) == VerifyCatalog(old(State()), old(store.db), commits)
    {
      if keyring.None? || !vault.unlocked { return Err(VaultLocked); }
      var verdict := Catalog.Verify(store.db, keyring.value.catalog, vault.id, vault.active);
      if verdict.Unreadable? { return Err(Storage); }
      if verdict.NoState? {
        var stamped := Catalog.Stamp(store.db, keyring.value.catalog, vault.id, vault.active);
        if stamped.None? { return Err(Storage); }
        var landed := store.Finish(Some(stamped.value.0), commits);
        if !landed { return Err(Storage); }
        NoteCatalogCounter(stamped.value.1);
        return Ok(true);
      }
      if !verdict.ok { return Err(IntegrityFailure); }
      if verdict.counter < catalogHighWater { return Err(IntegrityFailure); }
      catalogHighWater := verdict.counter;
      return Ok(false);
    }

    method ChangeMasterPassword(current: string, next: string, p: Params, r: EnvelopeNoise, commits: bool)
      returns (result: Result<()>)
      modifies this, store, index, sessions
      ensures (State(), store.db, result) == ChangePassword(old(State()), old(store.db), current, next, p, r, commits)
      ensures if result.Ok? then index.View() == NO_ENTRIES && sessions.sessions == map[]
              else index.View() == old(index.View()) && sessions.sessions == old(sessions.sessions)
    {
      var present := Load();
      if present.Err? { return Err(present.error); }
      var retired: U32 := vault.active;
      if retired !in store.db.envelopes { return Err(IntegrityFailure); }
      var root := Unwrap(store.db.envelopes[retired], vault.id, retired, current);
      if root.None? { return Err(AuthenticationFail); }
      if |root.value| != 32 { return Err(Storage); }
      result := InstallEnvelope(root.value, next, p, r, commits);
      if result.Ok? {
        Lock();
      }
    }

    method InstallEnvelope(root: Key, next: string, p: Params, r: EnvelopeNoise, commits: bool)
      returns (result: Result<()>)
      modifies this, store
      ensures (State(), store.db, result) == ReplaceEnvelope(old(State()), old(store.db), root, next, p, r, commits)
    {
      var stamped := Rewrap(store.db, vault, root, next, p, r);
      if stamped.None? { return Err(Storage); }
      var landed := store.Finish(Some(stamped.value.0), commits);
      if !landed { return Err(Storage); }
      NoteCatalogCounter(stamped.value.1);
      vault := vault.(active := NextVersion(vault.active));
      return Ok(());
    }

    method VerifyMasterPassword(password: string) returns (result: Result<()>)
      modifies this`vault, this`loaded
      ensures (State(), result) == VerifyPassword(old(State()), store.db, password)
    {
      var present := Load();
      if present.Err? { return Err(present.error); }
      if vault.active !in store.db.envelopes { return Err(IntegrityFailure); }
      if Unwrap(store.db.envelopes[vault.active], vault.id, vault.active, password).None? {
        return Err(AuthenticationFail);
      }
      return Ok(());
    }
  }
}
