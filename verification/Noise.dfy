/** extension/src/noise/noise.ts: cipher, symmetric and handshake states of Noise XX and XXpsk3 (rev 34). */
module Noise {
  import opened Endian
  import opened Octets

  // ---- HKDF and the cipher state ---------------------------------------------------------------------------

  /** HKDF of section 4.3 of the Noise specification: an HMAC chain of two or three outputs. */
  function Hkdf2(ck: Bytes, input: Bytes): (Bytes, Bytes) {
    var temp := HmacSha256(ck, input);
    var out1 := HmacSha256(temp, [Raw(1)]);
    (out1, HmacSha256(temp, out1 + [Raw(2)]))
  }

  function Hkdf3(ck: Bytes, input: Bytes): (Bytes, Bytes, Bytes) {
    var temp := HmacSha256(ck, input);
    var (out1, out2) := Hkdf2(ck, input);
    (out1, out2, HmacSha256(temp, out2 + [Raw(3)]))
  }

  /** HKDF-Expand of section 2.3 of RFC 5869 without info: T(i) = HMAC(PRK, T(i - 1) | i), T(0) empty. */
  function ExpandedTo(prk: Bytes, i: byte): Bytes
    decreases i
  {
    if i == 0 then [] else HmacSha256(prk, ExpandedTo(prk, i - 1) + [Raw(i)])
  }

  /** Both chains are HKDF with the chaining key as salt. */
  lemma HkdfExpands(ck: Bytes, input: Bytes)
    ensures var prk := HmacSha256(ck, input);
            && Hkdf2(ck, input) == (ExpandedTo(prk, 1), ExpandedTo(prk, 2))
            && Hkdf3(ck, input) == (ExpandedTo(prk, 1), ExpandedTo(prk, 2), ExpandedTo(prk, 3))
  {
    hide HmacSha256;
    var prk := HmacSha256(ck, input);
    assert ExpandedTo(prk, 0) + [Raw(1)] == [Raw(1)];
    assert ExpandedTo(prk, 1) == HmacSha256(prk, [Raw(1)]);
    assert ExpandedTo(prk, 2) == HmacSha256(prk, ExpandedTo(prk, 1) + [Raw(2)]);
  }

  /** Four zero bytes, then the 64-bit little-endian counter. */
  function Nonce(n: nat): (r: Bytes)
    ensures |r| == 12
  {
    Raws([0, 0, 0, 0] + LittleEndian(n, 8))
  }

  lemma NonceLayout(n: nat)
    requires n < WORD
    ensures Nonce(n)[..4] == seq(4, i => Raw(0))
    ensures exists low: seq<byte> :: |low| == 8 && FromLittleEndian(low) == n && Nonce(n)[4..] == Raws(low)
  {
    Widths();
    var low := LittleEndian(n, 8);
    LittleEndianRoundTrip(n, 8);
    assert Nonce(n)[4..] == Raws(low);
  }

  const REKEY_INTERVAL: nat := 4096
  const RESERVED: nat := 0xffff_ffff_ffff_ffff

  /** REKEY of section 4.2: 32 zero bytes sealed under the reserved nonce, the first 32 octets of the result. */
  function Rekeyed(key: Bytes): Bytes {
    Seal(key, Nonce(RESERVED), [], seq(32, i => Raw(0)))[..32]
  }

  datatype Cipher = Cipher(key: Option<Bytes>, n: nat)

  const NO_KEY := Cipher(None, 0)

  function Advanced(c: Cipher): Cipher
    requires c.key.Some?
  {
    var n := c.n + 1;
    Cipher(if n % REKEY_INTERVAL == 0 then Some(Rekeyed(c.key.value)) else c.key, n)
  }

  function EncryptWithAd(c: Cipher, ad: Bytes, plain: Bytes): (Cipher, Bytes) {
    if c.key.None? then (c, plain) else (Advanced(c), Seal(c.key.value, Nonce(c.n), ad, plain))
  }

  /** None: the primitive throws, and the state is left alone. */
  function DecryptWithAd(c: Cipher, ad: Bytes, ct: Bytes): Option<(Cipher, Bytes)> {
    if c.key.None? then Some((c, ct))
    else match Open(c.key.value, Nonce(c.n), ad, ct)
         case None => None
         case Some(plain) => Some((Advanced(c), plain))
  }

  lemma DecryptEncrypt(c: Cipher, ad: Bytes, plain: Bytes)
    ensures var (d, ct) := EncryptWithAd(c, ad, plain);
            DecryptWithAd(c, ad, ct) == Some((d, plain)) && |ct| == |plain| + (if c.key.Some? then 16 else 0)
  {
    if c.key.Some? { OpenSeal(c.key.value, Nonce(c.n), ad, c.key.value, Nonce(c.n), ad, plain); }
  }

  /** Another key or other associated data: the ciphertext does not open. */
  lemma DecryptRefuses(c: Cipher, ad: Bytes, c': Cipher, ad': Bytes, plain: Bytes)
    requires c.key.Some? && c'.key.Some?
    requires c.key != c'.key || ad != ad'
    ensures DecryptWithAd(c', ad', EncryptWithAd(c, ad, plain).1) == None
  {
    OpenSeal(c.key.value, Nonce(c.n), ad, c'.key.value, Nonce(c'.n), ad', plain);
  }

  class CipherState {
    var key: Option<Bytes>
    var n: nat

    function View(): Cipher reads this { Cipher(key, n) }

    constructor ()
      ensures View() == NO_KEY
    {
      key, n := None, 0;
    }

    method InitializeKey(k: Option<Bytes>)
      modifies this
      ensures View() == Cipher(k, 0)
    {
      key, n := k, 0;
    }

    method Encrypt(ad: Bytes, plain: Bytes) returns (ct: Bytes)
      modifies this
      ensures (View(), ct) == EncryptWithAd(old(View()), ad, plain)
    {
      if key.None? { return plain; }
      ct := Seal(key.value, Nonce(n), ad, plain);
      n := n + 1;
      MaybeRekey();
    }

    method Decrypt(ad: Bytes, ct: Bytes) returns (plain: Option<Bytes>)
      modifies this
      ensures match DecryptWithAd(old(View()), ad, ct)
              case None => plain == None && View() == old(View())
              case Some((c, p)) => plain == Some(p) && View() == c
    {
      if key.None? { return Some(ct); }
      plain := Open(key.value, Nonce(n), ad, ct);
      if plain.Some? {
        n := n + 1;
        MaybeRekey();
      }
    }

    method MaybeRekey()
      modifies this
      ensures n == old(n)
      ensures key == if n != 0 && n % REKEY_INTERVAL == 0 && old(key).Some? then Some(Rekeyed(old(key).value))
                     else old(key)
    {
      if n != 0 && n % REKEY_INTERVAL == 0 && key.Some? {
        key := Some(Rekeyed(key.value));
      }
    }
  }

  // ---- The symmetric state ---------------------------------------------------------------------------------

  datatype Symmetric = Symmetric(ck: Bytes, h: Bytes, cipher: Cipher)

  function Named(name: seq<byte>): Symmetric {
    var h := if |name| <= 32 then Raws(name) + seq(32 - |name|, i => Raw(0)) else Sha256(Raws(name));
    Symmetric(h, h, NO_KEY)
  }

  function MixHash(s: Symmetric, data: Bytes): Symmetric { s.(h := Sha256(s.h + data)) }

  function MixKey(s: Symmetric, input: Bytes): Symmetric {
    var (ck, key) := Hkdf2(s.ck, input);
    s.(ck := ck, cipher := Cipher(Some(key), 0))
  }

  function MixKeyAndHash(s: Symmetric, input: Bytes): Symmetric {
    var (ck, tempH, key) := Hkdf3(s.ck, input);
    MixHash(s.(ck := ck), tempH).(cipher := Cipher(Some(key), 0))
  }

  function EncryptAndHash(s: Symmetric, plain: Bytes): (Symmetric, Bytes) {
    var (c, ct) := EncryptWithAd(s.cipher, s.h, plain);
    (MixHash(s.(cipher := c), ct), ct)
  }

  function DecryptAndHash(s: Symmetric, ct: Bytes): Option<(Symmetric, Bytes)> {
    match DecryptWithAd(s.cipher, s.h, ct)
    case None => None
    case Some((c, plain)) => Some((MixHash(s.(cipher := c), ct), plain))
  }

  function Split(s: Symmetric): (Cipher, Cipher) {
    var (k1, k2) := Hkdf2(s.ck, []);
    (Cipher(Some(k1), 0), Cipher(Some(k2), 0))
  }

  /** Section 5.2: which HKDF output becomes what in MixKey, MixKeyAndHash and Split. */
  lemma MixingExpands(s: Symmetric, input: Bytes)
    ensures var prk := HmacSha256(s.ck, input);
            && MixKey(s, input) == Symmetric(ExpandedTo(prk, 1), s.h, Cipher(Some(ExpandedTo(prk, 2)), 0))
            && MixKeyAndHash(s, input) ==
               Symmetric(ExpandedTo(prk, 1), Sha256(s.h + ExpandedTo(prk, 2)), Cipher(Some(ExpandedTo(prk, 3)), 0))
    ensures var prk := HmacSha256(s.ck, []);
            Split(s) == (Cipher(Some(ExpandedTo(prk, 1)), 0), Cipher(Some(ExpandedTo(prk, 2)), 0))
  {
    hide HmacSha256, Hkdf2, Hkdf3, ExpandedTo;
    HkdfExpands(s.ck, input);
    HkdfExpands(s.ck, []);
  }

  class SymmetricState {
    var ck: Bytes
    var h: Bytes
    const cipher: CipherState

    function View(): Symmetric reads this, cipher { Symmetric(ck, h, cipher.View()) }

    constructor (name: seq<byte>)
      ensures View() == Named(name) && fresh(cipher)
    {
      h := if |name| <= 32 then Raws(name) + seq(32 - |name|, i => Raw(0)) else Sha256(Raws(name));
      ck := h;
      cipher := new CipherState();
    }

    method Mix(input: Bytes)
      modifies this, cipher
      ensures View() == MixKey(old(View()), input)
    {
      var (next, key) := Hkdf2(ck, input);
      ck := next;
      cipher.InitializeKey(Some(key));
    }

    method Absorb(data: Bytes)
      modifies this`h
      ensures View() == MixHash(old(View()), data)
    {
      h := Sha256(h + data);
    }

    method MixBoth(input: Bytes)
      modifies this, cipher
      ensures View() == MixKeyAndHash(old(View()), input)
    {
      var (next, tempH, key) := Hkdf3(ck, input);
      ck := next;
      Absorb(tempH);
      cipher.InitializeKey(Some(key));
    }

    method Encrypt(plain: Bytes) returns (ct: Bytes)
      modifies this`h, cipher
      ensures (View(), ct) == EncryptAndHash(old(View()), plain)
    {
      ct := cipher.Encrypt(h, plain);
      Absorb(ct);
    }

    method Decrypt(ct: Bytes) returns (plain: Option<Bytes>)
      modifies this`h, cipher
      ensures match DecryptAndHash(old(View()), ct)
              case None => plain == None && View() == old(View())
              case Some((s, p)) => plain == Some(p) && View() == s
    {
      plain := cipher.Decrypt(h, ct);
      if plain.Some? { Absorb(ct); }
    }

    method SplitKeys() returns (c1: CipherState, c2: CipherState)
      ensures fresh(c1) && fresh(c2) && c1 != c2 && (c1.View(), c2.View()) == Split(View())
    {
      var (k1, k2) := Hkdf2(ck, []);
      c1 := new CipherState();
      c1.InitializeKey(Some(k1));
      c2 := new CipherState();
      c2.InitializeKey(Some(k2));
    }
  }

  // ---- Handshakes on values ----------------------------------------------------------------------------------

  datatype HandshakeError = OutOfOrder | ShortMessage | AuthenticationFailed
  datatype Outcome<+T> = Good(value: T) | Bad(error: HandshakeError)

  /** One end: static and ephemeral private keys, and the remote public keys received so far. */
  datatype Party = Party(ss: Symmetric, s: nat, psk: Option<Bytes>, e: Option<nat>, re: Option<Bytes>,
      rs: Option<Bytes>)

  /** "Noise_XX_25519_ChaChaPoly_SHA256" and "Noise_XXpsk3_25519_ChaChaPoly_SHA256" in ASCII. */
  const XX_NAME: seq<byte> := [
    78, 111, 105, 115, 101, 95, 88, 88, 95, 50, 53, 53, 49, 57, 95, 67, 104, 97, 67, 104, 97, 80,
    111, 108, 121, 95, 83, 72, 65, 50, 53, 54]
  const XX_PSK3_NAME: seq<byte> := [
    78, 111, 105, 115, 101, 95, 88, 88, 112, 115, 107, 51, 95, 50, 53, 53, 49, 57, 95, 67, 104, 97,
    67, 104, 97, 80, 111, 108, 121, 95, 83, 72, 65, 50, 53, 54]

  lemma Names()
    ensures XX_NAME == Ascii("Noise_XX_25519_ChaChaPoly_SHA256")
    ensures XX_PSK3_NAME == Ascii("Noise_XXpsk3_25519_ChaChaPoly_SHA256")
  {
  }

  /** The first name is as long as a hash and stands for itself; the second is longer, and hashed. */
  lemma NamesBegin()
    ensures Named(XX_NAME) == Symmetric(Raws(XX_NAME), Raws(XX_NAME), NO_KEY)
    ensures Named(XX_PSK3_NAME) == Symmetric(Sha256(Raws(XX_PSK3_NAME)), Sha256(Raws(XX_PSK3_NAME)), NO_KEY)
  {
    assert |XX_NAME| == 32 && |XX_PSK3_NAME| == 36;
    assert Raws(XX_NAME) + seq(0, i => Raw(0)) == Raws(XX_NAME);
  }

  function Begun(s: nat, psk: Option<Bytes>, prologue: Bytes): Party {
    Party(MixHash(Named(if psk.Some? then XX_PSK3_NAME else XX_NAME), prologue), s, psk, None, None, None)
  }

  /** Token e: hash the public key, and with a PSK also mix it (section 9.2). */
  function TokenE(ss: Symmetric, psk: Option<Bytes>, pub: Bytes): Symmetric {
    if psk.Some? then MixKey(MixHash(ss, pub), pub) else MixHash(ss, pub)
  }

  /** -> e */
  function WriteA(p: Party, e: nat, payload: Bytes): (Party, Bytes) {
    var (ss, ct) := EncryptAndHash(TokenE(p.ss, p.psk, DhPublic(e)), payload);
    (p.(ss := ss, e := Some(e)), DhPublic(e) + ct)
  }

  /** <- e, ee, s, es. A failing read leaves the steps done before the failure behind. */
  function ReadB(p: Party, message: Bytes): (Party, Outcome<Bytes>) {
    if p.e.None? then (p, Bad(OutOfOrder))
    else if |message| < 32 then (p, Bad(ShortMessage))
    else
      var re, rest := message[..32], message[32..];
      var q := p.(ss := MixKey(TokenE(p.ss, p.psk, re), Dh(p.e.value, re)), re := Some(re));
      if |rest| < 48 then (q, Bad(ShortMessage))
      else
        match DecryptAndHash(q.ss, rest[..48])
        case None => (q, Bad(AuthenticationFailed))
        case Some((ss, rs)) =>
          var r := q.(ss := MixKey(ss, Dh(p.e.value, rs)), rs := Some(rs));
          match DecryptAndHash(r.ss, rest[48..])
          case None => (r, Bad(AuthenticationFailed))
          case Some((last, payload)) => (r.(ss := last), Good(payload))
  }

  /** -> s, se (, psk) */
  function WriteC(p: Party, payload: Bytes): (Party, Outcome<Bytes>) {
    if p.re.None? then (p, Bad(OutOfOrder))
    else
      var (ss, encS) := EncryptAndHash(p.ss, DhPublic(p.s));
      var (last, ct) := EncryptAndHash(TokenPsk(MixKey(ss, Dh(p.s, p.re.value)), p.psk), payload);
      (p.(ss := last), Good(encS + ct))
  }

  function TokenPsk(ss: Symmetric, psk: Option<Bytes>): Symmetric {
    if psk.Some? then MixKeyAndHash(ss, psk.value) else ss
  }

  // The responder, after the mirror in extension/tests/transport.test.ts.

  function Slice(b: Bytes, n: nat): (Bytes, Bytes) {
    if |b| < n then (b, []) else (b[..n], b[n..])
  }

  function ReadA(p: Party, message: Bytes): Option<(Party, Bytes)> {
    var (re, rest) := Slice(message, 32);
    match DecryptAndHash(TokenE(p.ss, p.psk, re), rest)
    case None => None
    case Some((ss, payload)) => Some((p.(ss := ss, re := Some(re)), payload))
  }

  function WriteB(p: Party, e: nat, payload: Bytes): (Party, Bytes)
    requires p.re.Some?
  {
    var mixed := MixKey(TokenE(p.ss, p.psk, DhPublic(e)), Dh(e, p.re.value));
    var (ss, encS) := EncryptAndHash(mixed, DhPublic(p.s));
    var (last, ct) := EncryptAndHash(MixKey(ss, Dh(p.s, p.re.value)), payload);
    (p.(ss := last, e := Some(e)), DhPublic(e) + encS + ct)
  }

  function ReadC(p: Party, message: Bytes): Option<(Party, Bytes)>
    requires p.e.Some?
  {
    var (encS, rest) := Slice(message, 48);
    match DecryptAndHash(p.ss, encS)
    case None => None
    case Some((ss, rs)) =>
      match DecryptAndHash(TokenPsk(MixKey(ss, Dh(p.e.value, rs)), p.psk), rest)
      case None => None
      case Some((last, payload)) => Some((p.(ss := last, rs := Some(rs)), payload))
  }

  // ---- The initiator object ------------------------------------------------------------------------------------

  class XXHandshake {
    const ss: SymmetricState
    const s: nat
    const psk: Option<Bytes>
    var e: Option<nat>
    var re: Option<Bytes>
    var rs: Option<Bytes>

    function View(): Party reads this, ss, ss.cipher { Party(ss.View(), s, psk, e, re, rs) }

    constructor (s: nat, psk: Option<Bytes>, prologue: Bytes)
      ensures View() == Begun(s, psk, prologue) && fresh(ss) && fresh(ss.cipher)
    {
      var begun := new SymmetricState(if psk.Some? then XX_PSK3_NAME else XX_NAME);
      begun.Absorb(prologue);
      this.ss, this.s, this.psk := begun, s, psk;
      e, re, rs := None, None, None;
    }

    method MixE(pub: Bytes)
      modifies ss, ss.cipher
      ensures ss.View() == TokenE(old(ss.View()), psk, pub)
    {
      ss.Absorb(pub);
      if psk.Some? { ss.Mix(pub); }
    }

    method WriteMessageA(ephemeral: nat, payload: Bytes) returns (message: Bytes)
      modifies this, ss, ss.cipher
      ensures (View(), message) == WriteA(old(View()), ephemeral, payload)
    {
      hide MixKey, EncryptAndHash;
      e := Some(ephemeral);
      MixE(DhPublic(ephemeral));
      var ct := ss.Encrypt(payload);
      return DhPublic(ephemeral) + ct;
    }

    method ReadMessageB(message: Bytes) returns (r: Outcome<Bytes>)
      modifies this, ss, ss.cipher
      ensures (View(), r) == ReadB(old(View()), message)
    {
      hide MixKey, TokenE, DecryptAndHash, Dh;
      if e.None? { return Bad(OutOfOrder); }
      if |message| < 32 { return Bad(ShortMessage); }
      re := Some(message[..32]);
      MixE(message[..32]);
      ss.Mix(Dh(e.value, message[..32]));
      var rest := message[32..];
      if |rest| < 48 { return Bad(ShortMessage); }
      var static' := ss.Decrypt(rest[..48]);
      if static'.None? { return Bad(AuthenticationFailed); }
      rs := static';
      ss.Mix(Dh(e.value, static'.value));
      var payload := ss.Decrypt(rest[48..]);
      if payload.None? { return Bad(AuthenticationFailed); }
      return Good(payload.value);
    }

    method WriteMessageC(payload: Bytes) returns (r: Outcome<Bytes>)
      modifies this, ss, ss.cipher
      ensures (View(), r) == WriteC(old(View()), payload)
    {
      hide MixKey, MixKeyAndHash, EncryptAndHash, Dh;
      if re.None? { return Bad(OutOfOrder); }
      var encS := ss.Encrypt(DhPublic(s));
      ss.Mix(Dh(s, re.value));
      if psk.Some? { ss.MixBoth(psk.value); }
      var ct := ss.Encrypt(payload);
      return Good(encS + ct);
    }

    /** After message C: initiator to responder, responder to initiator. */
    method SplitCiphers() returns (send: CipherState, recv: CipherState)
      ensures fresh(send) && fresh(recv) && send != recv && (send.View(), recv.View()) == Split(View().ss)
    {
      send, recv := ss.SplitKeys();
    }
  }
}
