/** internal/access/application/service.go: pairing, approval, claim and revocation. */
module Access {
  import opened Endian
  import opened Octets
  import opened Tables
  import opened Codec
  import opened Sessions
  import opened Vault
  import Catalog

  /** clientId and credential are set by approval. */
  datatype Pending = Pending(
    kind: int, name: string, staticKey: Blob, phrase: string, createdAt: int,
    approved: bool, clientId: Id, credential: Option<Blob>)

  type PendingMap = map<Id, Pending>

  function CredentialVerifier(credential: Bytes): Blob { Sha256(credential) }

  /** A verifier is that of one credential, and no credential verifies itself. */
  lemma VerifierNames(a: Key, b: Key)
    ensures CredentialVerifier(a) == CredentialVerifier(b) <==> a == b
    ensures CredentialVerifier(a) != a
  {
    Sha256Injective(a, b);
    assert Sha256(a)[0] == Part(Hash(a), 0);
  }

  /** What is hashed for the pairing phrase: both static keys and the request id, after a tag. */
  function PairingMessage(daemonKey: Bytes, clientKey: Bytes, pairingId: Id): Bytes {
    Text("albear-pairing-v1") + daemonKey + clientKey + Catalog.IdOctets(pairingId)
  }

  /**
   Three groups of hex digits for the first 48 bits; what they tell apart is not known, only that the digest
   decides.
   */
  type Shown = Bytes -> string

  function PairingPhrase(shown: Shown, daemonKey: Bytes, clientKey: Bytes, pairingId: Id): string {
    shown(Sha256(PairingMessage(daemonKey, clientKey, pairingId)))
  }

  /** The digest behind a phrase is that of the same two keys and the same request, or another digest. */
  lemma DigestBindsBothKeys(d: Bytes, c: Bytes, id: Id, d': Bytes, c': Bytes, id': Id)
    requires |d| == 32 && |d'| == 32 && |c| == 32 && |c'| == 32
    ensures Sha256(PairingMessage(d, c, id)) == Sha256(PairingMessage(d', c', id')) <==> d == d' && c == c' && id == id'
  {
    var a, b := PairingMessage(d, c, id), PairingMessage(d', c', id');
    Sha256Injective(a, b);
    if a == b {
      assert a[1..33] == d && b[1..33] == d' && a[33..65] == c && b[33..65] == c';
      assert a[65..] == Catalog.IdOctets(id) && b[65..] == Catalog.IdOctets(id');
      RawsInjective(BigEndian(id, 16), BigEndian(id', 16));
      Widths();
      BigEndianRoundTrip(id, 16);
      BigEndianRoundTrip(id', 16);
    }
  }

  function RequestPairing(pending: PendingMap, shown: Shown, daemonKey: Bytes, kind: int, name: string,
      staticKey: Blob, id: Id, now: int)
    : (PendingMap, Result<Id>)
  {
    if |staticKey| != 32 || !IsPairable(kind) || DefaultCapabilities(kind) == 0 then (pending, Err(Validation))
    else (pending[id := Pending(kind, name, staticKey, PairingPhrase(shown, daemonKey, staticKey, id), now, false, 0,
        None)], Ok(id))
  }

  datatype ApprovalNoise = ApprovalNoise(clientId: Id, credential: Key, labelNonce: Nonce)

  function ClientFor(v: VaultState, p: Pending, r: ApprovalNoise, now: int): ClientRow
    requires v.keyring.Some?
  {
    ClientRow(p.kind, STATUS_APPROVED, DefaultCapabilities(p.kind), CredentialVerifier(r.credential), p.staticKey,
              r.labelNonce, Seal(v.keyring.value.audit, r.labelNonce,
                                 RecordAad(v.vault.id, r.clientId, 0, PAYLOAD_LABEL, 1, 0), Text(p.name)),
              now, None)
  }

  /** The label of a client opens in its own row alone, to the name the client asked under. */
  lemma LabelOpens(v: VaultState, p: Pending, r: ApprovalNoise, now: int, id: Id)
    requires v.keyring.Some?
    ensures var row := ClientFor(v, p, r, now);
            Open(v.keyring.value.audit, row.labelNonce, RecordAad(v.vault.id, id, 0, 4, 1, 0), row.labelCt) ==
            if id == r.clientId then Some(Text(p.name)) else None
  {
    hide RecordAad;
    AadBindsEverything(v.vault.id, r.clientId, 0, 4, 1, 0, v.vault.id, id, 0, 4, 1, 0);
    OpenSeal(v.keyring.value.audit, r.labelNonce, RecordAad(v.vault.id, r.clientId, 0, 4, 1, 0),
        v.keyring.value.audit, r.labelNonce, RecordAad(v.vault.id, id, 0, 4, 1, 0), Text(p.name));
  }

  datatype AccessState = AccessState(db: Database, vault: VaultState, pending: PendingMap)

  function Anchored(v: VaultState, tx: Option<Database>): Option<(Database, U64)>
    requires v.keyring.Some?
  {
    if tx.None? || !v.loaded then None
    else Catalog.StampOf(tx.value, v.keyring.value.catalog, v.vault.id, v.vault.active)
  }

  function Approve(s: AccessState, pairingId: Id, r: ApprovalNoise, now: int, commits: bool)
    : (AccessState, Result<()>)
  {
    if !HasKeys(s.vault) then (s, Err(VaultLocked))
    else if pairingId !in s.pending || s.pending[pairingId].approved then (s, Err(ClientNotFound))
    else if !s.vault.loaded then (s, Err(VaultNotFound))
    else
      var p := s.pending[pairingId];
      match Anchored(s.vault, InsertClient(s.db, r.clientId, ClientFor(s.vault, p, r, now)))
      case None => (s, Err(Storage))
      case Some((next, counter)) =>
        if !commits then (s, Err(Storage))
        else (AccessState(next, Noted(s.vault, counter),
                s.pending[pairingId := p.(approved := true, clientId := r.clientId,
                    credential := Some(r.credential))]), Ok(()))
  }

  /** Everything an approval needs, as its caller could check it beforehand. */
  lemma ApproveSucceedsExactly(s: AccessState, pairingId: Id, r: ApprovalNoise, now: int, commits: bool)
    ensures Approve(s, pairingId, r, now, commits).1.Ok? <==>
            && HasKeys(s.vault) && s.vault.loaded && pairingId in s.pending && !s.pending[pairingId].approved
            && r.clientId !in s.db.clients && |s.pending[pairingId].staticKey| == 32
            && s.vault.vault.active in s.db.envelopes && Catalog.NextCounter(s.db.anchor) <= MAX_INT64 && commits
  {
    hide Catalog.RootOf, Catalog.CoveredBy, Catalog.StampOf, Seal, RecordAad;
    if HasKeys(s.vault) && pairingId in s.pending {
      var tx := InsertClient(s.db, r.clientId, ClientFor(s.vault, s.pending[pairingId], r, now));
      if tx.Some? {
        Catalog.StampFailsExactly(tx.value, s.vault.keyring.value.catalog, s.vault.vault.id, s.vault.vault.active);
      }
    }
  }

  function Cancel(pending: PendingMap, id: Id): (PendingMap, Result<()>) {
    if id !in pending then (pending, Err(ClientNotFound))
    else if pending[id].approved then (pending, Err(Conflict))
    else (pending - {id}, Ok(()))
  }

  function Claim(pending: PendingMap, id: Id): (PendingMap, Result<(Id, Blob)>) {
    if id !in pending then (pending, Err(ClientNotFound))
    else if !pending[id].approved then (pending, Err(AuthorizationDeny))
    else if pending[id].credential.None? then (pending - {id}, Err(ClientNotFound))
    else (pending - {id}, Ok((pending[id].clientId, pending[id].credential.value)))
  }

  function Revoke(s: AccessState, clientId: Id, commits: bool): (AccessState, Result<()>) {
    if !HasKeys(s.vault) then (s, Err(VaultLocked))
    else
      var (tx, rows) := UpdateClientStatus(s.db, clientId, STATUS_REVOKED);
      if rows == 0 then (s, if commits then Err(ClientNotFound) else Err(Storage))
      else
        match Anchored(s.vault, Some(tx))
        case None => (s, Err(Storage))
        case Some((next, counter)) =>
          if !commits then (s, Err(Storage)) else (AccessState(next, Noted(s.vault, counter), s.pending), Ok(()))
  }

  /** Everything a revocation needs; a revoked client can be revoked again. */
  lemma RevokeSucceedsExactly(s: AccessState, clientId: Id, commits: bool)
    ensures Revoke(s, clientId, commits).1.Ok? <==>
            && HasKeys(s.vault) && s.vault.loaded && clientId in s.db.clients
            && s.vault.vault.active in s.db.envelopes && Catalog.NextCounter(s.db.anchor) <= MAX_INT64 && commits
  {
    hide Catalog.RootOf, Catalog.CoveredBy, Catalog.StampOf;
    if HasKeys(s.vault) {
      Catalog.StampFailsExactly(UpdateClientStatus(s.db, clientId, STATUS_REVOKED).0, s.vault.keyring.value.catalog,
          s.vault.vault.id, s.vault.vault.active);
    }
  }

  predicate Approved(db: Database, id: Id) { id in db.clients && db.clients[id].status == STATUS_APPROVED }

  class AccessService {
    const keys: VaultService
    const daemonStaticKey: Bytes
    const shown: Shown
    var pending: PendingMap

    constructor (keys: VaultService, daemonStaticKey: Bytes, shown: Shown)
      ensures this.keys == keys && this.daemonStaticKey == daemonStaticKey && this.shown == shown && pending == map[]
    {
      this.keys, this.daemonStaticKey, this.shown, pending := keys, daemonStaticKey, shown, map[];
    }

    function State(): AccessState
      reads this, keys, keys.store
    {
      AccessState(keys.store.db, keys.State(), pending)
    }

    method Request(kind: int, name: string, staticKey: Blob, id: Id, now: int) returns (result: Result<Id>)
      modifies this
      ensures (pending, result) == RequestPairing(old(pending), shown, daemonStaticKey, kind, name, staticKey, id, now)
    {
      if |staticKey| != 32 { return Err(Validation); }
      if !IsPairable(kind) || DefaultCapabilities(kind) == 0 { return Err(Validation); }
      pending := pending[id := Pending(kind, name, staticKey, PairingPhrase(shown, daemonStaticKey, staticKey, id),
          now, false, 0, None)];
      return Ok(id);
    }

    method ApprovePairing(pairingId: Id, r: ApprovalNoise, now: int, commits: bool) returns (result: Result<()>)
      modifies this, keys`catalogHighWater, keys.store
      ensures (State(), result) == Approve(old(State()), pairingId, r, now, commits)
    {
      if !HasKeys(keys.State()) { return Err(VaultLocked); }
      if pairingId !in pending || pending[pairingId].approved { return Err(ClientNotFound); }
      if !keys.loaded { return Err(VaultNotFound); }
      var p := pending[pairingId];
      var tx := InsertClient(keys.store.db, r.clientId, ClientFor(keys.State(), p, r, now));
      if tx.None? { return Err(Storage); }
      var stamped := Catalog.Stamp(tx.value, keys.keyring.value.catalog, keys.vault.id, keys.vault.active);
      if stamped.None? { return Err(Storage); }
      var landed := keys.store.Finish(Some(stamped.value.0), commits);
      if !landed { return Err(Storage); }
      keys.NoteCatalogCounter(stamped.value.1);
      pending := pending[pairingId := p.(approved := true, clientId := r.clientId, credential := Some(r.credential))];
      return Ok(());
    }

    method CancelPairing(id: Id) returns (result: Result<()>)
      modifies this
      ensures (pending, result) == Cancel(old(pending), id)
    {
      if id !in pending { return Err(ClientNotFound); }
      if pending[id].approved { return Err(Conflict); }
      pending := pending - {id};
      return Ok(());
    }

    /** Returns the identity once, then forgets the credential. */
    method ClaimCredential(id: Id) returns (result: Result<(Id, Blob)>)
      modifies this
      ensures (pending, result) == Claim(old(pending), id)
    {
      if id !in pending { return Err(ClientNotFound); }
      if !pending[id].approved { return Err(AuthorizationDeny); }
      var p := pending[id];
      pending := pending - {id};
      if p.credential.None? { return Err(ClientNotFound); }
      return Ok((p.clientId, p.credential.value));
    }

    method RevokeClient(clientId: Id, commits: bool) returns (result: Result<()>)
      modifies keys`catalogHighWater, keys.store
      ensures (State(), result) == Revoke(old(State()), clientId, commits)
    {
      if !HasKeys(keys.State()) { return Err(VaultLocked); }
      var (tx, rows) := UpdateClientStatus(keys.store.db, clientId, STATUS_REVOKED);
      if rows == 0 {
        return if commits then Err(ClientNotFound) else Err(Storage);
      }
      if !keys.loaded { return Err(Storage); }
      var stamped := Catalog.Stamp(tx, keys.keyring.value.catalog, keys.vault.id, keys.vault.active);
      if stamped.None? { return Err(Storage); }
      var landed := keys.store.Finish(Some(stamped.value.0), commits);
      if !landed { return Err(Storage); }
      keys.NoteCatalogCounter(stamped.value.1);
      return Ok(());
    }
  }
}
