/** internal/crx/crx.go: the hand-written protobuf fields of CRX3 packages, signing and verification. */
module Crx {
  import opened Endian
  import opened Octets

  // ---- Varints of encoding/binary ------------------------------------------------------------------------------

  function PutUvarint(x: nat): (r: seq<byte>)
    ensures r != []
  {
    if x < 128 then [x] else [128 + x % 128] + PutUvarint(x / 128)
  }

  /** The value and its width; None when the bytes end or the value passes 64 bits. `i` bytes were read already. */
  function UvarintAt(b: seq<byte>, i: nat): (r: Option<(nat, nat)>)
    ensures r.Some? ==> 0 < r.value.1 <= |b|
  {
    if b == [] || i >= 10 then None
    else if b[0] < 128 then (if i == 9 && b[0] > 1 then None else Some((b[0], 1)))
    else match UvarintAt(b[1..], i + 1)
         case None => None
         case Some((v, n)) => Some((b[0] - 128 + 128 * v, n + 1))
  }

  function Uvarint(b: seq<byte>): Option<(nat, nat)> { UvarintAt(b, 0) }

  /** The shortest form: seven bits a byte, and no last byte of zero but for zero itself. */
  lemma {:induction false} UvarintIsShortest(x: nat)
    ensures var b := PutUvarint(x);
            && (b[|b| - 1] == 0 <==> x == 0) && b[|b| - 1] < 128
            && forall i | 0 <= i < |b| - 1 :: b[i] >= 128
    decreases x
  {
    if x >= 128 { UvarintIsShortest(x / 128); }
  }

  /** What still fits when i bytes were read: 2^64, then 2^57, ... and 2 at the tenth byte. */
  function Room(i: nat): nat
    decreases 10 - i
  {
    if i >= 9 then 2 else 128 * Room(i + 1)
  }

  lemma RoomAtStart()
    ensures Room(0) == WORD
  {
    assert Room(8) == 256;
    assert Room(6) == 128 * 128 * Room(8);
    assert Room(4) == 128 * 128 * Room(6);
    assert Room(2) == 128 * 128 * Room(4);
    assert Room(0) == 128 * 128 * Room(2);
  }

  lemma {:induction false} UvarintRoundTrip(x: nat, i: nat, rest: seq<byte>)
    requires i <= 9 && x < Room(i)
    ensures UvarintAt(PutUvarint(x) + rest, i) == Some((x, |PutUvarint(x)|))
    decreases x
  {
    var b := PutUvarint(x) + rest;
    if x >= 128 {
      assert i < 9;
      assert b[1..] == PutUvarint(x / 128) + rest;
      UvarintRoundTrip(x / 128, i + 1, rest);
      assert x % 128 + 128 * (x / 128) == x;
    }
  }

  lemma {:induction false} UvarintFits(b: seq<byte>, i: nat)
    requires i <= 10
    ensures UvarintAt(b, i).Some? ==> i <= 9 && UvarintAt(b, i).value.0 < Room(i) && |b| > 0
    decreases |b|
  {
    if b != [] && b[0] >= 128 && i < 10 {
      UvarintFits(b[1..], i + 1);
    }
    if i < 9 { assert Room(i) == 128 * Room(i + 1) && Room(i + 1) >= 2 by { RoomGrows(i + 1); } }
  }

  lemma {:induction false} RoomGrows(i: nat)
    ensures Room(i) >= 2
    decreases 10 - i
  {
    if i < 9 { RoomGrows(i + 1); }
  }

  // ---- Fields --------------------------------------------------------------------------------------------------

  datatype Field = Field(number: nat, value: seq<byte>)

  /** appendBytesField: tag with wire type 2, length, value. */
  function BytesField(f: Field): seq<byte> {
    PutUvarint(f.number * 8 + 2) + (PutUvarint(|f.value|) + f.value)
  }

  function Message(fs: seq<Field>): seq<byte> {
    if fs == [] then [] else BytesField(fs[0]) + Message(fs[1..])
  }

  datatype WireError = BadTag | BadVarint | Truncated64 | Truncated32 | BadLength | Unsupported(wire: nat)

  /** One step of the walk: the field reported, if any, and how many bytes it took; or the error. */
  datatype Step = Report(f: Field, width: nat) | Skip(width: nat) | Stop(error: WireError)

  function StepAt(b: seq<byte>): (s: Step)
    requires b != []
    ensures !s.Stop? ==> 0 < s.width <= |b|
  {
    match Uvarint(b)
    case None => Stop(BadTag)
    case Some((tag, n)) =>
      var rest := b[n..];
      if tag % 8 == 0 then
        (match Uvarint(rest) case None => Stop(BadVarint) case Some((_, m)) => Skip(n + m))
      else if tag % 8 == 1 then (if |rest| < 8 then Stop(Truncated64) else Skip(n + 8))
      else if tag % 8 == 5 then (if |rest| < 4 then Stop(Truncated32) else Skip(n + 4))
      else if tag % 8 == 2 then
        (match Uvarint(rest)
         case None => Stop(BadLength)
         case Some((l, m)) =>
           if l > |rest| - m then Stop(BadLength)
           else Report(Field(tag / 8, rest[m..m + l]), n + m + l))
      else Stop(Unsupported(tag % 8))
  }

  datatype Walked = Walked(fields: seq<Field>) | Failed(error: WireError)

  function Walk(b: seq<byte>): Walked
    decreases |b|
  {
    if b == [] then Walked([])
    else
      match StepAt(b)
      case Stop(e) => Failed(e)
      case Skip(n) => Walk(b[n..])
      case Report(f, n) =>
        (match Walk(b[n..])
         case Failed(e) => Failed(e)
         case Walked(fs) => Walked([f] + fs))
  }

  function Prefixed(fields: seq<Field>, w: Walked): Walked {
    match w case Failed(e) => Failed(e) case Walked(fs) => Walked(fields + fs)
  }

  /** One iteration, by its step. */
  lemma WalkStep(b: seq<byte>, fields: seq<Field>)
    requires b != []
    ensures var s := StepAt(b);
            Prefixed(fields, Walk(b)) ==
              if s.Stop? then Failed(s.error)
              else Prefixed(if s.Skip? then fields else fields + [s.f], Walk(b[s.width..]))
  {
    hide StepAt;
    if StepAt(b).Report? {
      var w := Walk(b[StepAt(b).width..]);
      if w.Walked? { assert fields + ([StepAt(b).f] + w.fields) == (fields + [StepAt(b).f]) + w.fields; }
    }
  }

  lemma WalkEnds(fields: seq<Field>, w: Walked)
    ensures Prefixed(fields, Walk([])) == Walked(fields) && Prefixed([], w) == w
  {
    assert fields + [] == fields;
    if w.Walked? { assert [] + w.fields == w.fields; }
  }

  /**
   The loop of walkFields; the callback's calls are collected in `fields`, and end with an error or with the input.
   */
  method WalkFields(message: seq<byte>) returns (fields: seq<Field>, error: Option<WireError>)
    ensures Walk(message) == if error.None? then Walked(fields) else Failed(error.value)
  {
    hide Walk, Prefixed, UvarintAt;
    var b := message;
    fields := [];
    WalkEnds(fields, Walk(b));
    while |b| > 0
      invariant Walk(message) == Prefixed(fields, Walk(b))
      decreases |b|
    {
      WalkStep(b, fields);
      var tag := Uvarint(b);
      if tag.None? { return fields, Some(BadTag); }
      var (t, n) := tag.value;
      var rest := b[n..];
      if t % 8 == 0 {
        var v := Uvarint(rest);
        if v.None? { return fields, Some(BadVarint); }
        b := b[n + v.value.1..];
      } else if t % 8 == 1 {
        if |rest| < 8 { return fields, Some(Truncated64); }
        b := b[n + 8..];
      } else if t % 8 == 5 {
        if |rest| < 4 { return fields, Some(Truncated32); }
        b := b[n + 4..];
      } else if t % 8 == 2 {
        var length := Uvarint(rest);
        if length.None? || length.value.0 > |rest| - length.value.1 { return fields, Some(BadLength); }
        var (l, m) := length.value;
        fields := fields + [Field(t / 8, rest[m..m + l])];
        b := b[n + m + l..];
      } else {
        return fields, Some(Unsupported(t % 8));
      }
    }
    WalkEnds(fields, Walk(b));
    return fields, None;
  }

  /** Field numbers fit the tag, lengths fit an int. */
  predicate Encodable(f: Field) { f.number * 8 + 2 < WORD && |f.value| <= MAX_INT64 }

  lemma StepOnField(f: Field, rest: seq<byte>)
    requires Encodable(f)
    ensures BytesField(f) + rest != [] && StepAt(BytesField(f) + rest) == Report(f, |BytesField(f)|)
  {
    hide Uvarint;
    var tag, length := PutUvarint(f.number * 8 + 2), PutUvarint(|f.value|);
    RoomAtStart();
    var b := BytesField(f) + rest;
    assert b == tag + (length + (f.value + rest));
    ReadsTag(f.number * 8 + 2, length + (f.value + rest));
    assert b[|tag|..] == length + (f.value + rest);
    ReadsTag(|f.value|, f.value + rest);
    assert b[|tag|..][|length|..|length| + |f.value|] == f.value;
    assert (f.number * 8 + 2) / 8 == f.number;
  }

  lemma ReadsTag(x: nat, rest: seq<byte>)
    requires x < WORD
    ensures Uvarint(PutUvarint(x) + rest) == Some((x, |PutUvarint(x)|))
  {
    RoomAtStart();
    UvarintRoundTrip(x, 0, rest);
  }

  /** Walking any concatenation of appended fields yields exactly those fields, in order. */
  lemma {:induction false} WalkReadsMessage(fs: seq<Field>)
    requires forall f | f in fs :: Encodable(f)
    ensures Walk(Message(fs)) == Walked(fs)
    decreases |fs|
  {
    hide StepAt, BytesField;
    if fs != [] {
      assert fs[0] in fs;
      StepOnField(fs[0], Message(fs[1..]));
      var b := Message(fs);
      assert b[|BytesField(fs[0])|..] == Message(fs[1..]);
      forall f | f in fs[1..] ensures Encodable(f) { assert f in fs; }
      WalkReadsMessage(fs[1..]);
      assert [fs[0]] + fs[1..] == fs;
    }
  }

  // ---- Packages ----------------------------------------------------------------------------------------------------

  datatype KeyKind = NotAKey | OtherKey | RsaKey

  /** SHA-256, DER encoding and RSA: foreign code, known as functions. Private keys are numbers. */
  datatype Primitives = Primitives(
    sha256: seq<byte> -> seq<byte>, publicDer: nat -> seq<byte>, kindOf: seq<byte> -> KeyKind,
    sign: (nat, seq<byte>) -> Option<seq<byte>>, verifies: (seq<byte>, seq<byte>, seq<byte>) -> bool)

  /** Digests have 32 bytes, a marshalled key parses, and what a key signed verifies under it. */
  ghost predicate Lawful(r: Primitives) {
    && (forall b :: |r.sha256(b)| == 32)
    && (forall k :: r.kindOf(r.publicDer(k)) == RsaKey && |r.publicDer(k)| <= MAX_INT64)
    && (forall k, d | r.sign(k, d).Some? :: r.verifies(r.publicDer(k), d, r.sign(k, d).value)
         && |r.sign(k, d).value| <= MAX_INT64)
  }

  const MAGIC: seq<byte> := [67, 114, 50, 52]
  /** "CRX3 SignedData" and a zero byte. */
  const CONTEXT: seq<byte> := [67, 82, 88, 51, 32, 83, 105, 103, 110, 101, 100, 68, 97, 116, 97, 0]

  /** Both tags spelled out. */
  lemma Tags()
    ensures MAGIC == Ascii("Cr24") && CONTEXT == Ascii("CRX3 SignedData") + [0]
  {
  }

  const VERSION := 3
  const SHA256_WITH_RSA := 2
  const SIGNED_HEADER_DATA := 10000
  const PROOF_PUBLIC_KEY := 1
  const PROOF_SIGNATURE := 2
  const SIGNED_DATA_CRX_ID := 1
  const MAX_HEADER_SIZE := 0x10_0000

  function SignedPayload(signedHeader: seq<byte>, archive: seq<byte>): seq<byte> {
    CONTEXT + (LittleEndian(|signedHeader|, 4) + (signedHeader + archive))
  }

  /** What is signed determines both parts, as long as the length fits its four bytes. */
  lemma SignedPayloadInjective(h: seq<byte>, a: seq<byte>, h': seq<byte>, a': seq<byte>)
    requires |h| < 0x1_0000_0000 && |h'| < 0x1_0000_0000
    requires SignedPayload(h, a) == SignedPayload(h', a')
    ensures h == h' && a == a'
  {
    Widths();
    var p, q := SignedPayload(h, a), SignedPayload(h', a');
    assert p[|CONTEXT|..][..4] == LittleEndian(|h|, 4) && q[|CONTEXT|..][..4] == LittleEndian(|h'|, 4);
    LittleEndianRoundTrip(|h|, 4);
    LittleEndianRoundTrip(|h'|, 4);
    assert p[|CONTEXT|..][4..] == h + a && q[|CONTEXT|..][4..] == h' + a';
    assert (h + a)[..|h|] == h && (h' + a')[..|h|] == h' && (h + a)[|h|..] == a && (h' + a')[|h|..] == a';
  }

  /** One letter from a to p for each half byte, high half first. */
  function IdLetters(crxId: seq<byte>): string {
    if crxId == [] then []
    else [Letter(crxId[0] / 16), Letter(crxId[0] % 16)] + IdLetters(crxId[1..])
  }

  function Letter(nibble: nat): char
    requires nibble < 16
  {
    var hex := if nibble < 10 then '0' + nibble as char else 'a' + (nibble - 10) as char;
    if hex >= 'a' then 'k' + (hex - 'a') else 'a' + (hex - '0')
  }

  lemma LetterIsNibble(nibble: nat)
    requires nibble < 16
    ensures Letter(nibble) == 'a' + nibble as char
  {
  }

  /** Two letters for each byte, in order: the high half, then the low half, counted from a. */
  lemma {:induction false} IdLettersAt(crxId: seq<byte>, i: nat)
    requires i < |crxId|
    ensures |IdLetters(crxId)| == 2 * |crxId|
    ensures IdLetters(crxId)[2 * i] == 'a' + (crxId[i] / 16) as char
    ensures IdLetters(crxId)[2 * i + 1] == 'a' + (crxId[i] % 16) as char
    decreases |crxId|
  {
    var pair := [Letter(crxId[0] / 16), Letter(crxId[0] % 16)];
    assert IdLetters(crxId) == pair + IdLetters(crxId[1..]);
    LetterIsNibble(crxId[0] / 16);
    LetterIsNibble(crxId[0] % 16);
    if i > 0 {
      IdLettersAt(crxId[1..], i - 1);
    } else if |crxId| > 1 {
      IdLettersAt(crxId[1..], 0);
    }
  }

  /** Different ids have different names, twice as long. */
  lemma {:induction false} IdLettersInjective(a: seq<byte>, b: seq<byte>)
    ensures |IdLetters(a)| == 2 * |a| && |IdLetters(b)| == 2 * |b|
    ensures IdLetters(a) == IdLetters(b) ==> a == b
    decreases |a| + |b|
  {
    if a != [] && b != [] {
      IdLettersInjective(a[1..], b[1..]);
      if IdLetters(a) == IdLetters(b) {
        assert IdLetters(a)[0] == Letter(a[0] / 16) && IdLetters(a)[1] == Letter(a[0] % 16)
            && IdLetters(a)[2..] == IdLetters(a[1..]);
        assert IdLetters(b)[0] == Letter(b[0] / 16) && IdLetters(b)[1] == Letter(b[0] % 16)
            && IdLetters(b)[2..] == IdLetters(b[1..]);
        LetterIsNibble(a[0] / 16); LetterIsNibble(a[0] % 16); LetterIsNibble(b[0] / 16); LetterIsNibble(b[0] % 16);
        assert a == [a[0]] + a[1..] && b == [b[0]] + b[1..];
      }
    } else if a != [] {
      IdLettersInjective(a[1..], b);
    } else if b != [] {
      IdLettersInjective(a, b[1..]);
    }
  }

  /** The first 16 bytes of a digest. */
  function Short(digest: seq<byte>): seq<byte> { if |digest| < 16 then digest else digest[..16] }

  function SignedHeaderFor(r: Primitives, key: nat): seq<byte> {
    Message([Field(SIGNED_DATA_CRX_ID, Short(r.sha256(r.publicDer(key))))])
  }

  function ProofOf(pub: seq<byte>, sig: seq<byte>): seq<byte> {
    Message([Field(PROOF_PUBLIC_KEY, pub), Field(PROOF_SIGNATURE, sig)])
  }

  function HeaderOf(proof: seq<byte>, signedHeader: seq<byte>): seq<byte> {
    Message([Field(SHA256_WITH_RSA, proof), Field(SIGNED_HEADER_DATA, signedHeader)])
  }

  /** The file around a header and an archive; the header's length is cut to 32 bits. */
  function FileOf(header: seq<byte>, archive: seq<byte>): seq<byte> {
    MAGIC + (LittleEndian(VERSION, 4) + (LittleEndian(|header|, 4) + (header + archive)))
  }

  function PackedHeader(r: Primitives, archive: seq<byte>, key: nat): Option<seq<byte>> {
    var signedHeader := SignedHeaderFor(r, key);
    match r.sign(key, r.sha256(SignedPayload(signedHeader, archive)))
    case None => None
    case Some(sig) => Some(HeaderOf(ProofOf(r.publicDer(key), sig), signedHeader))
  }

  method AppendBytesField(b: seq<byte>, f: Field) returns (r: seq<byte>)
    ensures r == b + BytesField(f)
  {
    r := b + PutUvarint(f.number * 8 + 2);
    r := r + PutUvarint(|f.value|);
    r := r + f.value;
    assert r == b + BytesField(f);
  }

  /** Pack: None when signing fails. */
  method Pack(r: Primitives, archive: seq<byte>, key: nat) returns (file: Option<seq<byte>>)
    ensures var header := PackedHeader(r, archive, key);
            file == if header.None? then None else Some(FileOf(header.value, archive))
  {
    hide BytesField, SignedPayload, Short;
    var pub := r.publicDer(key);
    var signedHeader := AppendBytesField([], Field(SIGNED_DATA_CRX_ID, Short(r.sha256(pub))));
    OneField(Field(SIGNED_DATA_CRX_ID, Short(r.sha256(pub))));
    var sig := r.sign(key, r.sha256(SignedPayload(signedHeader, archive)));
    if sig.None? { return None; }
    var proof := AppendBytesField([], Field(PROOF_PUBLIC_KEY, pub));
    proof := AppendBytesField(proof, Field(PROOF_SIGNATURE, sig.value));
    TwoFields(Field(PROOF_PUBLIC_KEY, pub), Field(PROOF_SIGNATURE, sig.value));
    var header := AppendBytesField([], Field(SHA256_WITH_RSA, proof));
    header := AppendBytesField(header, Field(SIGNED_HEADER_DATA, signedHeader));
    TwoFields(Field(SHA256_WITH_RSA, proof), Field(SIGNED_HEADER_DATA, signedHeader));
    var out := MAGIC + LittleEndian(VERSION, 4);
    out := out + LittleEndian(|header|, 4);
    out := out + header;
    out := out + archive;
    assert out == FileOf(header, archive);
    return Some(out);
  }

  lemma OneField(f: Field)
    ensures Message([f]) == [] + BytesField(f)
  {
    assert [f][1..] == [];
  }

  lemma TwoFields(f: Field, g: Field)
    ensures Message([f, g]) == ([] + BytesField(f)) + BytesField(g)
  {
    assert [f, g][1..] == [g];
    OneField(g);
    assert BytesField(f) + ([] + BytesField(g)) == ([] + BytesField(f)) + BytesField(g);
  }

  // ---- Verification ------------------------------------------------------------------------------------------------

  datatype VerifyError =
    | NotCrx | UnsupportedVersion | HeaderOutOfRange | BadHeader | BadSignedHeader | MissingId | NoProof
    | BadProof | BadProofKey | ProofKeyNotRsa | BadSignature | NoDeveloperProof

  datatype Package = Package(id: string, publicKey: seq<byte>, archive: seq<byte>)
  datatype Verdict = Verified(package: Package) | Rejected(error: VerifyError)

  /** Repeated fields: a callback that assigns keeps the last value. */
  function Last(fs: seq<Field>, number: nat): Option<seq<byte>> {
    if fs == [] then None
    else if fs[|fs| - 1].number == number then Some(fs[|fs| - 1].value)
    else Last(fs[..|fs| - 1], number)
  }

  function All(fs: seq<Field>, number: nat): seq<seq<byte>> {
    if fs == [] then []
    else All(fs[..|fs| - 1], number) + (if fs[|fs| - 1].number == number then [fs[|fs| - 1].value] else [])
  }

  function OrEmpty(v: Option<seq<byte>>): seq<byte> { if v.Some? then v.value else [] }

  /** One proof: its key when the signature verifies. */
  function CheckProof(r: Primitives, proof: seq<byte>, digest: seq<byte>): (Option<VerifyError>, seq<byte>) {
    match Walk(proof)
    case Failed(_) => (Some(BadProof), [])
    case Walked(fs) =>
      var pub, sig := OrEmpty(Last(fs, PROOF_PUBLIC_KEY)), OrEmpty(Last(fs, PROOF_SIGNATURE));
      if r.kindOf(pub) == NotAKey then (Some(BadProofKey), [])
      else if r.kindOf(pub) == OtherKey then (Some(ProofKeyNotRsa), [])
      else if !r.verifies(pub, digest, sig) then (Some(BadSignature), [])
      else (None, pub)
  }

  /** Every proof must verify; the last key whose hash is the id is the developer's. */
  function CheckProofs(r: Primitives, proofs: seq<seq<byte>>, digest: seq<byte>, crxId: seq<byte>)
    : (Option<VerifyError>, Option<seq<byte>>)
  {
    if proofs == [] then (None, None)
    else
      var (before, developer) := CheckProofs(r, proofs[..|proofs| - 1], digest, crxId);
      if before.Some? then (before, None)
      else
        var (error, pub) := CheckProof(r, proofs[|proofs| - 1], digest);
        if error.Some? then (error, None)
        else (None, if Short(r.sha256(pub)) == crxId then Some(pub) else developer)
  }

  function Judged(r: Primitives, data: seq<byte>): Verdict {
    if |data| < 12 || data[..4] != MAGIC then Rejected(NotCrx)
    else if FromLittleEndian(data[4..8]) != VERSION then Rejected(UnsupportedVersion)
    else
      var n := FromLittleEndian(data[8..12]);
      if n > MAX_HEADER_SIZE || n > |data| - 12 then Rejected(HeaderOutOfRange)
      else JudgedParts(r, data[12..12 + n], data[12 + n..])
  }

  function JudgedParts(r: Primitives, header: seq<byte>, archive: seq<byte>): Verdict {
    match Walk(header)
    case Failed(_) => Rejected(BadHeader)
    case Walked(fs) =>
      var signedHeader := OrEmpty(Last(fs, SIGNED_HEADER_DATA));
      match Walk(signedHeader)
      case Failed(_) => Rejected(BadSignedHeader)
      case Walked(ids) =>
        var crxId, proofs := OrEmpty(Last(ids, SIGNED_DATA_CRX_ID)), All(fs, SHA256_WITH_RSA);
        if |crxId| != 16 then Rejected(MissingId)
        else if proofs == [] then Rejected(NoProof)
        else
          var (error, developer) := CheckProofs(r, proofs, r.sha256(SignedPayload(signedHeader, archive)), crxId);
          if error.Some? then Rejected(error.value)
          else if developer.None? then Rejected(NoDeveloperProof)
          else Verified(Package(IdLetters(crxId), developer.value, archive))
  }

  method VerifyProofs(r: Primitives, proofs: seq<seq<byte>>, digest: seq<byte>, crxId: seq<byte>)
    returns (error: Option<VerifyError>, developer: Option<seq<byte>>)
    ensures (error, developer) == CheckProofs(r, proofs, digest, crxId)
  {
    hide CheckProof, Short;
    developer := None;
    for i := 0 to |proofs|
      invariant CheckProofs(r, proofs[..i], digest, crxId) == (None, developer)
    {
      assert proofs[..i + 1][..i] == proofs[..i];
      var (bad, pub) := CheckProof(r, proofs[i], digest);
      if bad.Some? {
        ProofsStop(r, proofs, digest, crxId, i + 1);
        return bad, None;
      }
      if Short(r.sha256(pub)) == crxId { developer := Some(pub); }
    }
    assert proofs[..|proofs|] == proofs;
    return None, developer;
  }

  /** The first proof that fails decides. */
  lemma {:induction false} ProofsStop(r: Primitives, proofs: seq<seq<byte>>, digest: seq<byte>, crxId: seq<byte>,
      i: nat)
    requires i <= |proofs| && CheckProofs(r, proofs[..i], digest, crxId).0.Some?
    ensures CheckProofs(r, proofs, digest, crxId) == CheckProofs(r, proofs[..i], digest, crxId)
  {
    hide CheckProof, Short;
    if i == |proofs| {
      assert proofs[..i] == proofs;
    } else {
      assert proofs[..|proofs| - 1][..i] == proofs[..i];
      ProofsStop(r, proofs[..|proofs| - 1], digest, crxId, i);
    }
    FailureHasNoDeveloper(r, proofs[..i], digest, crxId);
  }

  lemma FailureHasNoDeveloper(r: Primitives, proofs: seq<seq<byte>>, digest: seq<byte>, crxId: seq<byte>)
    ensures CheckProofs(r, proofs, digest, crxId).0.Some? ==> CheckProofs(r, proofs, digest, crxId).1 == None
  {
    hide CheckProof, Short;
  }

  method Verify(r: Primitives, data: seq<byte>) returns (verdict: Verdict)
    ensures verdict == Judged(r, data)
  {
    hide CheckProofs, Walk, Last, All, SignedPayload, IdLetters;
    if |data| < 12 || data[..4] != MAGIC { return Rejected(NotCrx); }
    if FromLittleEndian(data[4..8]) != VERSION { return Rejected(UnsupportedVersion); }
    var n := FromLittleEndian(data[8..12]);
    if n > MAX_HEADER_SIZE || n > |data| - 12 { return Rejected(HeaderOutOfRange); }
    var header, archive := data[12..12 + n], data[12 + n..];
    var fields, bad := WalkFields(header);
    if bad.Some? { return Rejected(BadHeader); }
    var signedHeader, proofs := OrEmpty(Last(fields, SIGNED_HEADER_DATA)), All(fields, SHA256_WITH_RSA);
    var ids, badId := WalkFields(signedHeader);
    if badId.Some? { return Rejected(BadSignedHeader); }
    var crxId := OrEmpty(Last(ids, SIGNED_DATA_CRX_ID));
    if |crxId| != 16 { return Rejected(MissingId); }
    if |proofs| == 0 { return Rejected(NoProof); }
    var error, developer := VerifyProofs(r, proofs, r.sha256(SignedPayload(signedHeader, archive)), crxId);
    if error.Some? { return Rejected(error.value); }
    if developer.None? { return Rejected(NoDeveloperProof); }
    return Verified(Package(IdLetters(crxId), developer.value, archive));
  }

  // ---- Round trip and soundness ------------------------------------------------------------------------------------

  lemma LastOfOne(f: Field)
    ensures Last([f], f.number) == Some(f.value)
  {
  }

  lemma LastOfTwo(f: Field, g: Field)
    requires f.number != g.number
    ensures Last([f, g], f.number) == Some(f.value) && Last([f, g], g.number) == Some(g.value)
    ensures All([f, g], f.number) == [f.value]
  {
    assert [f, g][..1] == [f] && [f][..0] == [];
    assert All([f], f.number) == [] + [f.value];
  }

  lemma WalkTwo(f: Field, g: Field)
    requires Encodable(f) && Encodable(g)
    ensures Walk(Message([f, g])) == Walked([f, g])
  {
    forall x | x in [f, g] ensures Encodable(x) { assert x == f || x == g; }
    WalkReadsMessage([f, g]);
  }

  lemma ParsesFile(header: seq<byte>, archive: seq<byte>)
    requires |header| < 0x1_0000_0000
    ensures var b := FileOf(header, archive);
            && |b| >= 12 && b[..4] == MAGIC && FromLittleEndian(b[4..8]) == VERSION
            && FromLittleEndian(b[8..12]) == |header|
            && |b| - 12 >= |header| && b[12..12 + |header|] == header && b[12 + |header|..] == archive
  {
    hide LittleEndian, FromLittleEndian;
    Widths();
    var b := FileOf(header, archive);
    assert b[4..8] == LittleEndian(VERSION, 4) && b[8..12] == LittleEndian(|header|, 4);
    LittleEndianRoundTrip(VERSION, 4);
    LittleEndianRoundTrip(|header|, 4);
  }

  lemma HeaderHoldsProof(proof: seq<byte>, signedHeader: seq<byte>)
    ensures |HeaderOf(proof, signedHeader)| >= |proof|
  {
    TwoFields(Field(SHA256_WITH_RSA, proof), Field(SIGNED_HEADER_DATA, signedHeader));
  }

  lemma PackedProofChecks(r: Primitives, key: nat, digest: seq<byte>, sig: seq<byte>)
    requires Lawful(r) && r.sign(key, digest) == Some(sig)
    ensures CheckProof(r, ProofOf(r.publicDer(key), sig), digest) == (None, r.publicDer(key))
  {
    hide Walk, BytesField;
    var pub := r.publicDer(key);
    var f, g := Field(PROOF_PUBLIC_KEY, pub), Field(PROOF_SIGNATURE, sig);
    assert r.sign(key, digest).Some?;
    WalkTwo(f, g);
    LastOfTwo(f, g);
  }

  lemma OneProof(r: Primitives, proof: seq<byte>, digest: seq<byte>, crxId: seq<byte>)
    ensures var (error, pub) := CheckProof(r, proof, digest);
            var (bad, developer) := CheckProofs(r, [proof], digest, crxId);
            bad == error && developer == if error.None? && Short(r.sha256(pub)) == crxId then Some(pub) else None
  {
    hide CheckProof, Short;
    assert [proof][..|[proof]| - 1] == [];
    assert CheckProofs(r, [], digest, crxId) == (None, None);
  }

  /** Verify(Pack(a, k)) is the archive a and the id and key of k, exactly when the header is within the limit. */
  lemma VerifyAcceptsPacked(r: Primitives, archive: seq<byte>, key: nat)
    requires Lawful(r) && PackedHeader(r, archive, key).Some? && |PackedHeader(r, archive, key).value| < 0x1_0000_0000
    ensures var header := PackedHeader(r, archive, key).value;
            var pub := r.publicDer(key);
            Judged(r, FileOf(header, archive)) ==
              if |header| <= MAX_HEADER_SIZE then Verified(Package(IdLetters(Short(r.sha256(pub))), pub, archive))
              else Rejected(HeaderOutOfRange)
  {
    hide Walk, BytesField, CheckProof, CheckProofs, SignedPayload, Last, All, FileOf, IdLetters;
    var pub, signedHeader := r.publicDer(key), SignedHeaderFor(r, key);
    var digest := r.sha256(SignedPayload(signedHeader, archive));
    var sig := r.sign(key, digest).value;
    var proof := ProofOf(pub, sig);
    var header := HeaderOf(proof, signedHeader);
    ParsesFile(header, archive);
    HeaderHoldsProof(proof, signedHeader);
    if |header| <= MAX_HEADER_SIZE {
      var id := Field(SIGNED_DATA_CRX_ID, Short(r.sha256(pub)));
      var f, g := Field(SHA256_WITH_RSA, proof), Field(SIGNED_HEADER_DATA, signedHeader);
      SmallHeader(id);
      WalkTwo(f, g);
      LastOfTwo(f, g);
      WalkReadsMessage([id]);
      LastOfOne(id);
      PackedProofChecks(r, key, digest, sig);
      OneProof(r, proof, digest, id.value);
    }
  }

  lemma SmallHeader(id: Field)
    requires id.number == SIGNED_DATA_CRX_ID && |id.value| <= 16
    ensures Encodable(id) && |Message([id])| <= MAX_INT64
  {
    OneField(id);
    assert |PutUvarint(10)| == 1 && |PutUvarint(|id.value|)| == 1;
  }

  /** Some signature by this key over this digest. */
  ghost predicate SignedBy(r: Primitives, pub: seq<byte>, digest: seq<byte>) {
    r.kindOf(pub) == RsaKey && exists sig :: r.verifies(pub, digest, sig)
  }

  lemma {:induction false} CheckedProofsMean(r: Primitives, proofs: seq<seq<byte>>, digest: seq<byte>, crxId: seq<byte>)
    ensures var (error, developer) := CheckProofs(r, proofs, digest, crxId);
            && (error.None? ==> forall p | p in proofs ::
                    CheckProof(r, p, digest).0.None? && SignedBy(r, CheckProof(r, p, digest).1, digest))
            && (developer.Some? ==> Short(r.sha256(developer.value)) == crxId && SignedBy(r, developer.value, digest))
    decreases |proofs|
  {
    hide Walk, Short, Last;
    if proofs != [] {
      CheckedProofsMean(r, proofs[..|proofs| - 1], digest, crxId);
      assert proofs == proofs[..|proofs| - 1] + [proofs[|proofs| - 1]];
      ProofMeans(r, proofs[|proofs| - 1], digest);
    }
  }

  lemma ProofMeans(r: Primitives, proof: seq<byte>, digest: seq<byte>)
    ensures CheckProof(r, proof, digest).0.None? ==> SignedBy(r, CheckProof(r, proof, digest).1, digest)
  {
    hide Walk, Last;
  }

  /** The archive is what follows the header of the stated length. */
  ghost predicate Carries(data: seq<byte>, header: seq<byte>, archive: seq<byte>) {
    data == MAGIC + (LittleEndian(3, 4) + (LittleEndian(|header|, 4) + (header + archive))) && |header| <= 0x10_0000
  }

  lemma PartsMean(r: Primitives, header: seq<byte>, archive: seq<byte>)
    requires JudgedParts(r, header, archive).Verified?
    ensures var p := JudgedParts(r, header, archive).package;
            && p.archive == archive && p.id == IdLetters(Short(r.sha256(p.publicKey)))
            && |Short(r.sha256(p.publicKey))| == 16
            && (exists signedHeader :: SignedBy(r, p.publicKey, r.sha256(SignedPayload(signedHeader, archive))))
  {
    hide Walk, Last, All, CheckProofs, SignedPayload, SignedBy, IdLetters, Short;
    var fs := Walk(header).fields;
    var signedHeader := OrEmpty(Last(fs, SIGNED_HEADER_DATA));
    var crxId := OrEmpty(Last(Walk(signedHeader).fields, SIGNED_DATA_CRX_ID));
    var digest := r.sha256(SignedPayload(signedHeader, archive));
    CheckedProofsMean(r, All(fs, SHA256_WITH_RSA), digest, crxId);
    var (error, developer) := CheckProofs(r, All(fs, SHA256_WITH_RSA), digest, crxId);
    assert error.None? && developer.Some?;
    assert SignedBy(r, JudgedParts(r, header, archive).package.publicKey,
        r.sha256(SignedPayload(signedHeader, archive)));
  }

  /** An accepted file: its developer key hashes to the id and signed exactly this archive. */
  lemma VerifiedMeansSigned(r: Primitives, data: seq<byte>)
    requires Judged(r, data).Verified?
    ensures var p := Judged(r, data).package;
            && p.id == IdLetters(Short(r.sha256(p.publicKey))) && |Short(r.sha256(p.publicKey))| == 16
            && (exists header :: Carries(data, header, p.archive))
            && (exists signedHeader :: SignedBy(r, p.publicKey, r.sha256(SignedPayload(signedHeader, p.archive))))
  {
    hide JudgedParts, IdLetters, Short, SignedBy, SignedPayload, FromLittleEndian, LittleEndian;
    var n := FromLittleEndian(data[8..12]);
    var header, archive := data[12..12 + n], data[12 + n..];
    PartsMean(r, header, archive);
    LittleEndianOnto(data[4..8]);
    LittleEndianOnto(data[8..12]);
    assert data == data[..4] + (data[4..8] + (data[8..12] + (header + archive)));
    assert Carries(data, header, archive);
  }

  // ---- Any message, and which fields count ----------------------------------------------------------------------

  /** What may stand in a message: fields of the four wire types that are walked. */
  datatype Item =
    | Bytes(field: Field)
    | Number(number: nat, value: nat)
    | Eight(number: nat, bytes: seq<byte>)
    | Four(number: nat, bytes: seq<byte>)

  predicate WellFormed(x: Item) {
    match x
    case Bytes(f) => Encodable(f)
    case Number(n, v) => n * 8 + 5 < WORD && v < WORD
    case Eight(n, b) => n * 8 + 5 < WORD && |b| == 8
    case Four(n, b) => n * 8 + 5 < WORD && |b| == 4
  }

  /** The wire types are 0, 1, 2 and 5. */
  function ItemOctets(x: Item): seq<byte> {
    match x
    case Bytes(f) => BytesField(f)
    case Number(n, v) => PutUvarint(n * 8) + PutUvarint(v)
    case Eight(n, b) => PutUvarint(n * 8 + 1) + b
    case Four(n, b) => PutUvarint(n * 8 + 5) + b
  }

  function ItemsOctets(xs: seq<Item>): seq<byte> {
    if xs == [] then [] else ItemOctets(xs[0]) + ItemsOctets(xs[1..])
  }

  function FieldsOf(xs: seq<Item>): seq<Field> {
    if xs == [] then []
    else (if xs[0].Bytes? then [xs[0].field] else []) + FieldsOf(xs[1..])
  }

  lemma StepOnItem(x: Item, rest: seq<byte>)
    requires WellFormed(x)
    ensures ItemOctets(x) + rest != []
    ensures StepAt(ItemOctets(x) + rest) ==
            if x.Bytes? then Report(x.field, |ItemOctets(x)|) else Skip(|ItemOctets(x)|)
  {
    hide Uvarint, PutUvarint;
    var b := ItemOctets(x) + rest;
    match x
    case Bytes(f) => StepOnField(f, rest);
    case Number(n, v) =>
      var tag, number := PutUvarint(n * 8), PutUvarint(v);
      assert b == tag + (number + rest);
      ReadsTag(n * 8, number + rest);
      assert b[|tag|..] == number + rest;
      ReadsTag(v, rest);
    case Eight(n, bytes) =>
      var tag := PutUvarint(n * 8 + 1);
      assert b == tag + (bytes + rest);
      ReadsTag(n * 8 + 1, bytes + rest);
      assert b[|tag|..] == bytes + rest;
    case Four(n, bytes) =>
      var tag := PutUvarint(n * 8 + 5);
      assert b == tag + (bytes + rest);
      ReadsTag(n * 8 + 5, bytes + rest);
      assert b[|tag|..] == bytes + rest;
  }

  lemma PrefixedChains(a: seq<Field>, b: seq<Field>, w: Walked)
    ensures Prefixed(a, Prefixed(b, w)) == Prefixed(a + b, w)
  {
    if w.Walked? { assert a + (b + w.fields) == (a + b) + w.fields; }
  }

  lemma WalkReadsItem(x: Item, rest: seq<byte>)
    requires WellFormed(x)
    ensures Walk(ItemOctets(x) + rest) == Prefixed(if x.Bytes? then [x.field] else [], Walk(rest))
  {
    hide StepAt, ItemOctets, WellFormed;
    StepOnItem(x, rest);
    assert (ItemOctets(x) + rest)[|ItemOctets(x)|..] == rest;
    WalkStep(ItemOctets(x) + rest, []);
    WalkEnds([], Walk(ItemOctets(x) + rest));
    if x.Bytes? { assert [] + [x.field] == [x.field]; }
  }

  /** Any well-formed message in front of anything: its byte fields in order, then what the rest gives. */
  lemma {:induction false} WalkReadsAnyMessage(xs: seq<Item>, rest: seq<byte>)
    requires forall x | x in xs :: WellFormed(x)
    ensures Walk(ItemsOctets(xs) + rest) == Prefixed(FieldsOf(xs), Walk(rest))
    decreases |xs|
  {
    hide Walk, ItemOctets, WellFormed, Prefixed;
    if xs == [] {
      assert [] + rest == rest;
      WalkEnds([], Walk(rest));
    } else {
      assert xs[0] in xs;
      var tail := ItemsOctets(xs[1..]) + rest;
      assert ItemsOctets(xs) + rest == ItemOctets(xs[0]) + tail;
      WalkReadsItem(xs[0], tail);
      forall x | x in xs[1..] ensures WellFormed(x) { assert x in xs; }
      WalkReadsAnyMessage(xs[1..], rest);
      PrefixedChains(if xs[0].Bytes? then [xs[0].field] else [], FieldsOf(xs[1..]), Walk(rest));
    }
  }

  /** What stops the walk: an unreadable tag, a wire type outside the four, or a value that is cut short. */
  lemma WalkStopsAt(number: nat, wire: nat, rest: seq<byte>)
    requires wire < 8 && number * 8 + wire < WORD
    ensures var w := Walk(PutUvarint(number * 8 + wire) + rest);
            && (wire == 3 || wire == 4 || wire == 6 || wire == 7 ==> w == Failed(Unsupported(wire)))
            && (wire == 1 && |rest| < 8 ==> w == Failed(Truncated64))
            && (wire == 5 && |rest| < 4 ==> w == Failed(Truncated32))
            && (wire == 0 && Uvarint(rest).None? ==> w == Failed(BadVarint))
            && (wire == 2 && (Uvarint(rest).None? || Uvarint(rest).value.0 > |rest| - Uvarint(rest).value.1) ==>
                  w == Failed(BadLength))
  {
    hide Uvarint, PutUvarint;
    var tag := PutUvarint(number * 8 + wire);
    ReadsTag(number * 8 + wire, rest);
    assert (tag + rest)[|tag|..] == rest;
  }

  /** Of repeated fields the last counts. */
  lemma {:induction false} LastCounts(fs: seq<Field>, number: nat, value: seq<byte>, more: seq<Field>)
    requires forall f | f in more :: f.number != number
    ensures Last(fs + [Field(number, value)] + more, number) == Some(value)
    ensures Last(more, number) == None
    decreases |more|
  {
    var all := fs + [Field(number, value)] + more;
    if more == [] {
      assert all == fs + [Field(number, value)];
    } else {
      var n := |more| - 1;
      assert more[n] in more;
      assert all[..|all| - 1] == fs + [Field(number, value)] + more[..n];
      LastCounts(fs, number, value, more[..n]);
    }
  }

  /** The last key among those whose hash is the id. */
  ghost predicate LastOwner(r: Primitives, keys: seq<seq<byte>>, crxId: seq<byte>, key: seq<byte>, i: nat) {
    && i < |keys| && keys[i] == key && Short(r.sha256(key)) == crxId
    && forall j | i < j < |keys| :: Short(r.sha256(keys[j])) != crxId
  }

  ghost predicate AllProve(r: Primitives, proofs: seq<seq<byte>>, digest: seq<byte>, keys: seq<seq<byte>>) {
    |keys| == |proofs| && forall i | 0 <= i < |proofs| :: Proves(r, proofs[i], digest, keys[i])
  }

  /** A proof that walks, with an RSA key under which its signature verifies; absent parts are empty. */
  ghost predicate Proves(r: Primitives, proof: seq<byte>, digest: seq<byte>, key: seq<byte>) {
    && Walk(proof).Walked? && key == OrEmpty(Last(Walk(proof).fields, 1)) && r.kindOf(key) == RsaKey
    && r.verifies(key, digest, OrEmpty(Last(Walk(proof).fields, 2)))
  }

  lemma LastProves(r: Primitives, proofs: seq<seq<byte>>, digest: seq<byte>, keys: seq<seq<byte>>)
    requires proofs != []
    ensures var n := |proofs| - 1;
            AllProve(r, proofs, digest, keys) ==>
              AllProve(r, proofs[..n], digest, keys[..n]) && Proves(r, proofs[n], digest, keys[n])
  {
    hide Proves;
  }

  lemma OneLastOwner(r: Primitives, keys: seq<seq<byte>>, crxId: seq<byte>, a: seq<byte>, i: nat, b: seq<byte>, j: nat)
    requires LastOwner(r, keys, crxId, a, i) && LastOwner(r, keys, crxId, b, j)
    ensures a == b && i == j
  {
    hide Short;
  }

  lemma {:induction false} ProofsCheckExactly(r: Primitives, proofs: seq<seq<byte>>, digest: seq<byte>,
      crxId: seq<byte>) returns (keys: seq<seq<byte>>)
    ensures CheckProofs(r, proofs, digest, crxId).0.None? <==> AllProve(r, proofs, digest, keys)
    ensures CheckProofs(r, proofs, digest, crxId).0.None? ==>
      var developer := CheckProofs(r, proofs, digest, crxId).1;
      && (developer.Some? ==> exists i: nat :: LastOwner(r, keys, crxId, developer.value, i))
      && (developer.None? ==> forall i | 0 <= i < |keys| :: Short(r.sha256(keys[i])) != crxId)
    ensures CheckProofs(r, proofs, digest, crxId).0.Some? ==> !exists ks :: AllProve(r, proofs, digest, ks)
    decreases |proofs|
  {
    hide Walk, Short, Last, OrEmpty;
    keys := [];
    if proofs != [] {
      var n := |proofs| - 1;
      keys := ProofsCheckExactly(r, proofs[..n], digest, crxId);
      var (error, key) := CheckProof(r, proofs[n], digest);
      if CheckProofs(r, proofs[..n], digest, crxId).0.Some? {
        forall ks ensures !AllProve(r, proofs, digest, ks) { LastProves(r, proofs, digest, ks); }
        keys := [];
      } else if error.Some? {
        forall ks ensures !AllProve(r, proofs, digest, ks) { LastProves(r, proofs, digest, ks); }
        keys := [];
      } else {
        ghost var before, developer := keys, CheckProofs(r, proofs[..n], digest, crxId).1;
        keys := keys + [key];
        if Short(r.sha256(key)) == crxId {
          assert LastOwner(r, keys, crxId, key, n);
        } else if developer.Some? {
          var i: nat :| LastOwner(r, before, crxId, developer.value, i);
          assert LastOwner(r, keys, crxId, developer.value, i);
        }
      }
    }
  }

  /** The parts of a file that decide: its header's fields, its signed header, and the id in that. */
  ghost predicate Accepts(r: Primitives, header: seq<byte>, archive: seq<byte>, keys: seq<seq<byte>>, p: Package,
      i: nat) {
    && Walk(header).Walked?
    && var fs := Walk(header).fields;
    && var signedHeader := OrEmpty(Last(fs, 10000));
    && Walk(signedHeader).Walked?
    && var crxId := OrEmpty(Last(Walk(signedHeader).fields, 1));
    && |crxId| == 16 && All(fs, 2) != []
    && AllProve(r, All(fs, 2), r.sha256(SignedPayload(signedHeader, archive)), keys)
    && LastOwner(r, keys, crxId, p.publicKey, i) && p.id == IdLetters(crxId) && p.archive == archive
  }

  /**
   Exactly the accepted files: the magic, version 3, a header within the limit and the file; every proof in it verifies
   over the signed header and the archive; and the last proving key that hashes to the signed id is the package's.
   */
  lemma VerifiedExactly(r: Primitives, data: seq<byte>, p: Package)
    ensures Judged(r, data) == Verified(p) <==>
            exists header, keys, i: nat :: Carries(data, header, p.archive) && Accepts(r, header, p.archive, keys, p, i)
  {
    hide Walk, Last, All, CheckProofs, SignedPayload, IdLetters, Short, LittleEndian, FromLittleEndian, JudgedParts;
    if Judged(r, data) == Verified(p) {
      var n := FromLittleEndian(data[8..12]);
      var header := data[12..12 + n];
      var keys, i := PartsExactly(r, header, data[12 + n..], p);
      LittleEndianOnto(data[4..8]);
      LittleEndianOnto(data[8..12]);
      assert data == data[..4] + (data[4..8] + (data[8..12] + (header + data[12 + n..])));
      PartsMean(r, header, data[12 + n..]);
      assert Carries(data, header, p.archive) && Accepts(r, header, p.archive, keys, p, i);
    }
    if header, keys, i: nat :| Carries(data, header, p.archive) && Accepts(r, header, p.archive, keys, p, i) {
      ParsesFile(header, p.archive);
      assert data == FileOf(header, p.archive);
      AcceptedParts(r, header, p.archive, keys, p, i);
    }
  }

  lemma PartsExactly(r: Primitives, header: seq<byte>, archive: seq<byte>, p: Package)
    returns (keys: seq<seq<byte>>, i: nat)
    requires JudgedParts(r, header, archive) == Verified(p)
    ensures Accepts(r, header, archive, keys, p, i)
  {
    hide Walk, Last, All, CheckProofs, SignedPayload, IdLetters, Short, AllProve;
    var fs := Walk(header).fields;
    var signedHeader := OrEmpty(Last(fs, SIGNED_HEADER_DATA));
    var crxId := OrEmpty(Last(Walk(signedHeader).fields, SIGNED_DATA_CRX_ID));
    var digest := r.sha256(SignedPayload(signedHeader, archive));
    keys := ProofsCheckExactly(r, All(fs, SHA256_WITH_RSA), digest, crxId);
    i :| LastOwner(r, keys, crxId, p.publicKey, i);
  }

  lemma AcceptedParts(r: Primitives, header: seq<byte>, archive: seq<byte>, keys: seq<seq<byte>>, p: Package, i: nat)
    requires Accepts(r, header, archive, keys, p, i)
    ensures JudgedParts(r, header, archive) == Verified(p)
  {
    hide Walk, Last, All, CheckProofs, SignedPayload, IdLetters, Short, Proves;
    var fs := Walk(header).fields;
    var signedHeader := OrEmpty(Last(fs, SIGNED_HEADER_DATA));
    var crxId := OrEmpty(Last(Walk(signedHeader).fields, SIGNED_DATA_CRX_ID));
    var proofs, digest := All(fs, SHA256_WITH_RSA), r.sha256(SignedPayload(signedHeader, archive));
    var ks := ProofsCheckExactly(r, proofs, digest, crxId);
    OneListOfKeys(r, proofs, digest, keys, ks);
    assert CheckProofs(r, proofs, digest, crxId).0.None?;
    var developer := CheckProofs(r, proofs, digest, crxId).1;
    assert Short(r.sha256(keys[i])) == crxId;
    var j: nat :| LastOwner(r, ks, crxId, developer.value, j);
    OneLastOwner(r, ks, crxId, p.publicKey, i, developer.value, j);
  }

  lemma OneListOfKeys(r: Primitives, proofs: seq<seq<byte>>, digest: seq<byte>, a: seq<seq<byte>>, b: seq<seq<byte>>)
    requires AllProve(r, proofs, digest, a)
    ensures AllProve(r, proofs, digest, b) ==> a == b
  {
    if AllProve(r, proofs, digest, b) {
      forall i | 0 <= i < |a| ensures a[i] == b[i] {
        assert Proves(r, proofs[i], digest, a[i]) && Proves(r, proofs[i], digest, b[i]);
      }
    }
  }
}
