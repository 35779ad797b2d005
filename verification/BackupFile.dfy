/** internal/backup/application/backup.go: the authenticated container around a database snapshot. */
module BackupFile {
  import opened Endian
  import opened Octets

  /** "ALBEARBK" */
  const MAGIC: seq<byte> := [65, 76, 66, 69, 65, 82, 66, 75]

  lemma Tag()
    ensures MAGIC == Ascii("ALBEARBK") && BigEndian(CONTAINER_VERSION, 4) == [0, 0, 0, 1]
  {
    assert BigEndian(1, 1) == [1];
  }

  const CONTAINER_VERSION: nat := 1
  const HEADER_LENGTH: nat := 44
  const TAG_LENGTH: nat := 32

  /** HMAC-SHA256 of a key and a message. */
  type Mac = (seq<byte>, seq<byte>) -> seq<byte>

  ghost predicate MacLength(mac: Mac) { forall k, m :: |mac(k, m)| == TAG_LENGTH }

  function Header(vaultId: seq<byte>, createdAtMs: nat, snapshotLength: nat): seq<byte> {
    MAGIC + (BigEndian(CONTAINER_VERSION, 4) + (vaultId + (BigEndian(createdAtMs, 8) + BigEndian(snapshotLength, 8))))
  }

  function Body(vaultId: seq<byte>, createdAtMs: nat, snapshot: seq<byte>): seq<byte> {
    Header(vaultId, createdAtMs, |snapshot|) + snapshot
  }

  function Written(mac: Mac, key: seq<byte>, vaultId: seq<byte>, createdAtMs: nat, snapshot: seq<byte>): seq<byte> {
    Body(vaultId, createdAtMs, snapshot) + mac(key, Body(vaultId, createdAtMs, snapshot))
  }

  method Write(mac: Mac, key: seq<byte>, vaultId: seq<byte>, createdAtMs: nat, snapshot: seq<byte>)
    returns (buf: seq<byte>)
    ensures buf == Written(mac, key, vaultId, createdAtMs, snapshot)
  {
    buf := MAGIC;
    buf := buf + BigEndian(CONTAINER_VERSION, 4);
    buf := buf + vaultId;
    buf := buf + BigEndian(createdAtMs, 8);
    buf := buf + BigEndian(|snapshot|, 8);
    assert buf == Header(vaultId, createdAtMs, |snapshot|);
    buf := buf + snapshot;
    buf := buf + mac(key, buf);
  }

  datatype Parsed = Parsed(vaultId: seq<byte>, createdAtMs: nat, snapshotLength: nat, body: seq<byte>,
      snapshot: seq<byte>, tag: seq<byte>)

  /** The length check is in 64-bit arithmetic, which wraps. */
  predicate LengthMatches(length: nat, snapshotLength: nat) {
    length % WORD == (HEADER_LENGTH + snapshotLength + TAG_LENGTH) % WORD
  }

  /** Under that check an accepted length is the exact one: the minimum size rules out every wrapped sum. */
  lemma WrappedSumsAreRefused(length: nat, snapshotLength: nat)
    requires HEADER_LENGTH + TAG_LENGTH <= length <= MAX_INT64 && snapshotLength < WORD
    ensures LengthMatches(length, snapshotLength) <==> length == HEADER_LENGTH + snapshotLength + TAG_LENGTH
  {
    if HEADER_LENGTH + snapshotLength + TAG_LENGTH >= WORD {
      assert (HEADER_LENGTH + snapshotLength + TAG_LENGTH) % WORD == HEADER_LENGTH + snapshotLength + TAG_LENGTH - WORD;
    }
  }

  function SnapshotLength(raw: seq<byte>): nat
    requires |raw| >= HEADER_LENGTH
  {
    FromBigEndian(raw[36..44])
  }

  /** A slice is an int long. */
  function Parse(raw: seq<byte>): (r: Option<Parsed>)
    requires |raw| <= MAX_INT64
  {
    if |raw| < HEADER_LENGTH + TAG_LENGTH || raw[..8] != MAGIC
        || FromBigEndian(raw[8..12]) != CONTAINER_VERSION then None
    else
      var n := SnapshotLength(raw);
      BigEndianOnto(raw[36..44]);
      Widths();
      WrappedSumsAreRefused(|raw|, n);
      if !LengthMatches(|raw|, n) then None
      else Some(Parsed(raw[12..28], FromBigEndian(raw[28..36]), n, raw[..HEADER_LENGTH + n],
          raw[HEADER_LENGTH..HEADER_LENGTH + n], raw[HEADER_LENGTH + n..]))
  }

  /** What Write wrote is parsed back: the same vault, time and snapshot. */
  lemma ParseReadsWritten(mac: Mac, key: seq<byte>, vaultId: seq<byte>, createdAtMs: nat, snapshot: seq<byte>)
    requires MacLength(mac) && |vaultId| == 16 && createdAtMs < WORD
             && |Written(mac, key, vaultId, createdAtMs, snapshot)| <= MAX_INT64
    ensures Parse(Written(mac, key, vaultId, createdAtMs, snapshot)) ==
            Some(Parsed(vaultId, createdAtMs, |snapshot|, Body(vaultId, createdAtMs, snapshot), snapshot,
                        mac(key, Body(vaultId, createdAtMs, snapshot))))
  {
    Widths();
    var header, body := Header(vaultId, createdAtMs, |snapshot|), Body(vaultId, createdAtMs, snapshot);
    var raw := Written(mac, key, vaultId, createdAtMs, snapshot);
    HeaderFields(vaultId, createdAtMs, |snapshot|, raw);
    BigEndianRoundTrip(CONTAINER_VERSION, 4);
    BigEndianRoundTrip(createdAtMs, 8);
    BigEndianRoundTrip(|snapshot|, 8);
    assert raw[..HEADER_LENGTH + |snapshot|] == body && raw[HEADER_LENGTH + |snapshot|..] == mac(key, body);
    assert body[HEADER_LENGTH..] == snapshot;
    assert raw[HEADER_LENGTH..HEADER_LENGTH + |snapshot|] == snapshot;
  }

  lemma HeaderFields(vaultId: seq<byte>, createdAtMs: nat, n: nat, raw: seq<byte>)
    requires |vaultId| == 16 && |raw| >= 44 && raw[..44] == Header(vaultId, createdAtMs, n)
    ensures raw[..8] == MAGIC && raw[8..12] == BigEndian(CONTAINER_VERSION, 4) && raw[12..28] == vaultId
    ensures raw[28..36] == BigEndian(createdAtMs, 8) && raw[36..44] == BigEndian(n, 8)
  {
    hide BigEndian;
    var h := Header(vaultId, createdAtMs, n);
    assert h[..8] == MAGIC && h[8..12] == BigEndian(CONTAINER_VERSION, 4) && h[12..28] == vaultId;
    assert h[28..36] == BigEndian(createdAtMs, 8) && h[36..44] == BigEndian(n, 8);
    assert raw[..8] == raw[..44][..8] && raw[8..12] == raw[..44][8..12] && raw[12..28] == raw[..44][12..28];
    assert raw[28..36] == raw[..44][28..36] && raw[36..44] == raw[..44][36..44];
  }

  /**
   Acceptance means header, snapshot and tag partition the input, and writing the parsed values again gives it back.
   */
  lemma AcceptedIsReencodable(raw: seq<byte>)
    requires |raw| <= MAX_INT64 && Parse(raw).Some?
    ensures var p := Parse(raw).value;
            && raw == p.body + p.tag && |p.tag| == TAG_LENGTH && |p.snapshot| == p.snapshotLength
            && |p.vaultId| == 16 && p.createdAtMs < WORD && p.body == Body(p.vaultId, p.createdAtMs, p.snapshot)
  {
    var p := Parse(raw).value;
    BigEndianOnto(raw[8..12]);
    BigEndianOnto(raw[28..36]);
    BigEndianOnto(raw[36..44]);
    Widths();
    WrappedSumsAreRefused(|raw|, p.snapshotLength);
    HeaderJoins(raw);
    assert raw[..44] == Header(p.vaultId, p.createdAtMs, p.snapshotLength);
    assert p.body == raw[..44] + p.snapshot;
  }

  lemma HeaderJoins(raw: seq<byte>)
    requires |raw| >= 44
    ensures raw[..44] == raw[..8] + (raw[8..12] + (raw[12..28] + (raw[28..36] + raw[36..44])))
  {
    assert raw[12..44] == raw[12..28] + (raw[28..36] + raw[36..44]);
    assert raw[..44] == raw[..8] + (raw[8..12] + raw[12..44]);
  }

  datatype Answer = Snapshot(createdAtMs: nat, snapshot: seq<byte>) | BadContainer | WrongVault

  method VerifyContainer(mac: Mac, key: seq<byte>, vaultId: seq<byte>, raw: seq<byte>) returns (answer: Answer)
    requires |raw| <= MAX_INT64
    ensures answer == Verified(mac, key, vaultId, raw)
  {
    var c := Parse(raw);
    if c.None? { return BadContainer; }
    if mac(key, c.value.body) != c.value.tag { return BadContainer; }
    if c.value.vaultId != vaultId { return WrongVault; }
    return Snapshot(c.value.createdAtMs, c.value.snapshot);
  }

  function Verified(mac: Mac, key: seq<byte>, vaultId: seq<byte>, raw: seq<byte>): Answer
    requires |raw| <= MAX_INT64
  {
    match Parse(raw)
    case None => BadContainer
    case Some(p) =>
      if mac(key, p.body) != p.tag then BadContainer
      else if p.vaultId != vaultId then WrongVault
      else Snapshot(p.createdAtMs, p.snapshot)
  }

  /**
   Verification accepts exactly the files Write produces under that key for that vault, and yields what went in.
   */
  lemma AcceptsExactlyWhatWasWritten(mac: Mac, key: seq<byte>, vaultId: seq<byte>, raw: seq<byte>, createdAtMs: nat,
      snapshot: seq<byte>)
    requires MacLength(mac) && |raw| <= MAX_INT64 && |vaultId| == 16
    ensures Verified(mac, key, vaultId, raw) == Snapshot(createdAtMs, snapshot) <==>
            createdAtMs < WORD && raw == Written(mac, key, vaultId, createdAtMs, snapshot)
  {
    hide Parse, Body;
    if Verified(mac, key, vaultId, raw) == Snapshot(createdAtMs, snapshot) {
      AcceptedIsReencodable(raw);
    }
    if createdAtMs < WORD && raw == Written(mac, key, vaultId, createdAtMs, snapshot) {
      ParseReadsWritten(mac, key, vaultId, createdAtMs, snapshot);
    }
  }

  /** The answer that the vault is another one is given exactly to what Write produces under that key for another. */
  lemma WrongVaultIsAuthentic(mac: Mac, key: seq<byte>, vaultId: seq<byte>, raw: seq<byte>)
    requires MacLength(mac) && |raw| <= MAX_INT64 && |vaultId| == 16
    ensures Verified(mac, key, vaultId, raw) == WrongVault <==>
            exists other, createdAtMs: nat, snapshot :: WrittenFor(mac, key, other, createdAtMs, snapshot, raw)
              && other != vaultId
  {
    hide Parse, Body;
    if Verified(mac, key, vaultId, raw) == WrongVault {
      AcceptedIsReencodable(raw);
      var p := Parse(raw).value;
      assert WrittenFor(mac, key, p.vaultId, p.createdAtMs, p.snapshot, raw);
    }
    if other, createdAtMs: nat, snapshot :|
        WrittenFor(mac, key, other, createdAtMs, snapshot, raw) && other != vaultId {
      ParseReadsWritten(mac, key, other, createdAtMs, snapshot);
    }
  }

  ghost predicate WrittenFor(mac: Mac, key: seq<byte>, vaultId: seq<byte>, createdAtMs: nat, snapshot: seq<byte>,
      raw: seq<byte>) {
    |vaultId| == 16 && createdAtMs < WORD && raw == Written(mac, key, vaultId, createdAtMs, snapshot)
  }
}
