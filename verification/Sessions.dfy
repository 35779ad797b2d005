/** internal/access/domain (capabilities, client kinds, sessions) and access/application/sessions.go. */
module Sessions {
  import opened Octets
  import opened Tables

  datatype Capability =
    | VaultStatus | VaultUnlock | VaultLock | RecordList | RecordRead | RecordReveal | RecordWrite | RecordDelete
    | RecordMatch | RecordRevealForOrigin | RecordCreateLogin | RecordUpdateLogin | PasswordGenerate
    | BackupCreate | BackupRestore | ClientAdmin | PasswordChange | VaultDestroy | Relay | Pair

  /** The mask shifted down to the bit of a capability; the bits are declared in this order. */
  function ShiftedTo(mask: U64, c: Capability): nat {
    match c
    case VaultStatus => mask case VaultUnlock => mask / 0x2 case VaultLock => mask / 0x4 case RecordList => mask / 0x8
    case RecordRead => mask / 0x10 case RecordReveal => mask / 0x20 case RecordWrite => mask / 0x40
    case RecordDelete => mask / 0x80 case RecordMatch => mask / 0x100 case RecordRevealForOrigin => mask / 0x200
    case RecordCreateLogin => mask / 0x400 case RecordUpdateLogin => mask / 0x800 case PasswordGenerate => mask / 0x1000
    case BackupCreate => mask / 0x2000 case BackupRestore => mask / 0x4000 case ClientAdmin => mask / 0x8000
    case PasswordChange => mask / 0x1_0000 case VaultDestroy => mask / 0x2_0000 case Relay => mask / 0x4_0000
    case Pair => mask / 0x8_0000
  }

  /** mask & bit != 0 for a single-bit capability. */
  predicate Has(mask: U64, c: Capability) { ShiftedTo(mask, c) % 2 == 1 }

  const CLI_MASK: U64 := 0x1 + 0x2 + 0x4 + 0x8 + 0x10 + 0x20 + 0x40 + 0x80 + 0x100 + 0x200 + 0x1000
                         + 0x2000 + 0x4000 + 0x8000 + 0x1_0000 + 0x2_0000
  const CHROME_MASK: U64 := 0x1 + 0x2 + 0x4 + 0x100 + 0x200 + 0x400 + 0x800 + 0x1000
  const RELAY_MASK: U64 := 0x1 + 0x4_0000

  const KIND_CLI := 1
  const KIND_CHROME_EXTENSION := 2
  const KIND_CHROME_NATIVE_HOST := 3
  const KIND_ADMINISTRATIVE_TOOL := 4

  predicate IsPairable(kind: int) { kind == KIND_CHROME_EXTENSION || kind == KIND_CHROME_NATIVE_HOST }

  function DefaultCapabilities(kind: int): U64 {
    if kind == KIND_CLI || kind == KIND_ADMINISTRATIVE_TOOL then CLI_MASK
    else if kind == KIND_CHROME_EXTENSION then CHROME_MASK
    else if kind == KIND_CHROME_NATIVE_HOST then RELAY_MASK
    else 0
  }

  predicate Browser(mask: U64) { mask == CHROME_MASK || mask == RELAY_MASK }

  lemma PairableKindsAreBrowsers(kind: int)
    ensures IsPairable(kind) <==> Browser(DefaultCapabilities(kind))
  {
  }

  const STATUS_APPROVED: U64 := 2
  const STATUS_REVOKED: U64 := 3

  const SECOND: int := 1_000_000_000
  const SESSION_TTL: int := 12 * 3600 * SECOND

  datatype Session = Session(
    id: Id, clientId: Id, mask: U64, createdAt: int, lastActivity: int, expiresAt: int, epoch: nat)

  type SessionMap = map<Id, Session>

  predicate ValidAt(s: Session, now: int, epoch: nat) { s.epoch == epoch && now <= s.expiresAt }

  function NewSession(id: Id, clientId: Id, mask: U64, epoch: nat, now: int): Session {
    Session(id, clientId, mask, now, now, now + SESSION_TTL, epoch)
  }

  /** The map afterwards, and whether the session is alive. */
  function Validated(m: SessionMap, id: Id, epoch: nat, activity: bool, now: int): (SessionMap, bool) {
    if id !in m then (m, false)
    else if !ValidAt(m[id], now, epoch) then (m - {id}, false)
    else if activity then (m[id := m[id].(lastActivity := now)], true)
    else (m, true)
  }

  function WithoutClient(m: SessionMap, clientId: Id): SessionMap {
    map id | id in m && m[id].clientId != clientId :: m[id]
  }

  class SessionManager {
    var sessions: SessionMap

    constructor ()
      ensures sessions == map[]
    {
      sessions := map[];
    }

    method Issue(id: Id, clientId: Id, mask: U64, epoch: nat, now: int) returns (s: Session)
      modifies this
      ensures s == NewSession(id, clientId, mask, epoch, now) && sessions == old(sessions)[id := s]
    {
      s := Session(id, clientId, mask, now, now, now + SESSION_TTL, epoch);
      sessions := sessions[id := s];
    }

    method Validate(id: Id, epoch: nat, activity: bool, now: int) returns (alive: bool)
      modifies this
      ensures (sessions, alive) == Validated(old(sessions), id, epoch, activity, now)
    {
      if id !in sessions { return false; }
      if !ValidAt(sessions[id], now, epoch) {
        sessions := sessions - {id};
        return false;
      }
      if activity {
        sessions := sessions[id := sessions[id].(lastActivity := now)];
      }
      return true;
    }

    /** The latest activity among unexpired sessions; the epoch plays no part. */
    method LastActivity(now: int) returns (latest: int, found: bool)
      ensures found <==> exists id | id in sessions :: now <= sessions[id].expiresAt
      ensures found ==>
        exists id | id in sessions :: (now <= sessions[id].expiresAt && sessions[id].lastActivity == latest)
      ensures found ==>
        forall id | id in sessions && now <= sessions[id].expiresAt :: sessions[id].lastActivity <= latest
    {
      latest, found := 0, false;
      var left := sessions.Keys;
      while left != {}
        invariant left <= sessions.Keys
        invariant found <==> exists id | id in sessions && id !in left :: now <= sessions[id].expiresAt
        invariant found ==>
          exists id | id in sessions :: (now <= sessions[id].expiresAt && sessions[id].lastActivity == latest)
        invariant found ==>
          forall id | id in sessions && id !in left && now <= sessions[id].expiresAt ::
            sessions[id].lastActivity <= latest
        decreases left
      {
        var id :| id in left;
        var s := sessions[id];
        if now <= s.expiresAt && (!found || s.lastActivity > latest) {
          latest, found := s.lastActivity, true;
        }
        left := left - {id};
      }
    }

    method DropClient(clientId: Id)
      modifies this
      ensures sessions == WithoutClient(old(sessions), clientId)
    {
      var left := sessions.Keys;
      while left != {}
        invariant left <= old(sessions).Keys
        invariant sessions ==
          map id | id in old(sessions) && (id in left || old(sessions)[id].clientId != clientId) :: old(sessions)[id]
        decreases left
      {
        var id :| id in left;
        if sessions[id].clientId == clientId {
          sessions := sessions - {id};
        }
        left := left - {id};
      }
    }

    method InvalidateAll()
      modifies this
      ensures sessions == map[]
    {
      sessions := map[];
    }
  }
}
