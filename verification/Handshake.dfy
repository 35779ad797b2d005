/** Honest XX and XXpsk3 runs agree; a differing prologue or pre-shared key is caught at a known message. */
module Handshake {
  import opened Endian
  import opened Octets
  import opened Noise

  // ---- Honest runs ------------------------------------------------------------------

  lemma DecryptsWhatWasEncrypted(s: Symmetric, plain: Bytes)
    ensures var (t, ct) := EncryptAndHash(s, plain);
            && DecryptAndHash(s, ct) == Some((t, plain)) && |ct| == |plain| + (if s.cipher.key.Some? then 16 else 0)
  {
    hide EncryptWithAd, DecryptWithAd, MixHash;
    DecryptEncrypt(s.cipher, s.h, plain);
  }

  lemma Sliced(a: Bytes, b: Bytes)
    ensures (a + b)[..|a|] == a && (a + b)[|a|..] == b
  {
  }

  /** Message A: both ends reach the same chaining key, hash and cipher state, and the payload arrives. */
  lemma AgreeAfterA(i: Party, r: Party, e: nat, payload: Bytes)
    requires i.ss == r.ss && i.psk == r.psk
    ensures var (i1, a) := WriteA(i, e, payload);
            ReadA(r, a) == Some((r.(ss := i1.ss, re := Some(DhPublic(e))), payload))
  {
    hide TokenE, EncryptAndHash, DecryptAndHash;
    var t := TokenE(i.ss, i.psk, DhPublic(e));
    DecryptsWhatWasEncrypted(t, payload);
    Sliced(DhPublic(e), EncryptAndHash(t, payload).1);
  }

  lemma MixedHasKey(s: Symmetric, input: Bytes)
    ensures MixKey(s, input).cipher.key.Some? && MixKey(s, input).cipher.n == 0
  {
  }

  lemma Nests(a: Bytes, b: Bytes, c: Bytes)
    ensures a + b + c == a + (b + c)
  {
  }

  /** Message B, by DH agreement: the initiator also learns the responder's static key. */
  lemma AgreeAfterB(i: Party, r: Party, ei: nat, er: nat, payload: Bytes)
    requires i.ss == r.ss && i.psk == r.psk && i.e == Some(ei) && r.re == Some(DhPublic(ei))
    ensures var (r2, b) := WriteB(r, er, payload);
            ReadB(i, b) == (i.(ss := r2.ss, re := Some(DhPublic(er)), rs := Some(DhPublic(r.s))), Good(payload))
  {
    hide TokenE, EncryptAndHash, DecryptAndHash, MixKey, Dh;
    DhAgreement(ei, er);
    DhAgreement(ei, r.s);
    var mixed := MixKey(TokenE(r.ss, r.psk, DhPublic(er)), Dh(er, DhPublic(ei)));
    MixedHasKey(TokenE(r.ss, r.psk, DhPublic(er)), Dh(er, DhPublic(ei)));
    DecryptsWhatWasEncrypted(mixed, DhPublic(r.s));
    var (ss, encS) := EncryptAndHash(mixed, DhPublic(r.s));
    var keyed := MixKey(ss, Dh(r.s, DhPublic(ei)));
    DecryptsWhatWasEncrypted(keyed, payload);
    var ct := EncryptAndHash(keyed, payload).1;
    Nests(DhPublic(er), encS, ct);
    Sliced(DhPublic(er), encS + ct);
    Sliced(encS, ct);
  }

  /** Message C, with the PSK mixed in between for XXpsk3. */
  lemma AgreeAfterC(i: Party, r: Party, er: nat, payload: Bytes)
    requires i.ss == r.ss && i.psk == r.psk && r.e == Some(er) && i.re == Some(DhPublic(er)) && i.ss.cipher.key.Some?
    ensures var (i3, c) := WriteC(i, payload);
            c.Good? && ReadC(r, c.value) == Some((r.(ss := i3.ss, rs := Some(DhPublic(i.s))), payload))
  {
    hide TokenPsk, EncryptAndHash, DecryptAndHash, MixKey, Dh;
    DhAgreement(i.s, er);
    DecryptsWhatWasEncrypted(i.ss, DhPublic(i.s));
    var (ss, encS) := EncryptAndHash(i.ss, DhPublic(i.s));
    var keyed := TokenPsk(MixKey(ss, Dh(i.s, DhPublic(er))), i.psk);
    DecryptsWhatWasEncrypted(keyed, payload);
    Sliced(encS, EncryptAndHash(keyed, payload).1);
  }

  lemma SealedHasKey(r: Party, e: nat, payload: Bytes)
    requires r.re.Some?
    ensures WriteB(r, e, payload).0.ss.cipher.key.Some?
  {
    hide TokenE, HmacSha256, Seal, Dh, Sha256;
  }

  /** The two transport directions, as one end sees them. */
  datatype Channel = Channel(send: Cipher, recv: Cipher)

  function InitiatorChannel(p: Party): Channel { var (c1, c2) := Split(p.ss); Channel(c1, c2) }

  function ResponderChannel(p: Party): Channel { var (c1, c2) := Split(p.ss); Channel(c2, c1) }

  /** The private keys of one run (statics si and sr, ephemerals ei and er) and the three payloads. */
  datatype Inputs = Inputs(si: nat, sr: nat, ei: nat, er: nat, a: Bytes, b: Bytes, c: Bytes)

  function InitiatorA(x: Inputs, psk: Option<Bytes>, prologue: Bytes): (Party, Bytes) {
    WriteA(Begun(x.si, psk, prologue), x.ei, x.a)
  }

  /**
   Agreement: in every honest XX or XXpsk3 run the two symmetric states are equal after each message, every payload
   and static key arrives, and the initiator's send and receive keys are the responder's receive and send keys.
   */
  lemma HonestRunAgrees(x: Inputs, psk: Option<Bytes>, prologue: Bytes)
    ensures var (i1, ma) := InitiatorA(x, psk, prologue);
            var readA := ReadA(Begun(x.sr, psk, prologue), ma);
            && readA.Some? && readA.value.1 == x.a && readA.value.0.ss == i1.ss && readA.value.0.re.Some?
            && var (r2, mb) := WriteB(readA.value.0, x.er, x.b);
            && var (i2, gotB) := ReadB(i1, mb);
            && gotB == Good(x.b) && i2.ss == r2.ss && i2.rs == Some(DhPublic(x.sr))
            && var (i3, mc) := WriteC(i2, x.c);
            && mc.Good? && r2.e.Some?
            && var readC := ReadC(r2, mc.value);
            && readC.Some? && readC.value.1 == x.c && readC.value.0.ss == i3.ss
            && readC.value.0.rs == Some(DhPublic(x.si))
            && var mine, yours := InitiatorChannel(i3), ResponderChannel(readC.value.0);
            && mine.send == yours.recv && mine.recv == yours.send
  {
    hide WriteA, ReadA, WriteB, ReadB, WriteC, ReadC, MixHash, Named, Split;
    var i0, r0 := Begun(x.si, psk, prologue), Begun(x.sr, psk, prologue);
    AgreeAfterA(i0, r0, x.ei, x.a);
    var i1 := WriteA(i0, x.ei, x.a).0;
    WroteA(i0, x.ei, x.a);
    var r1 := r0.(ss := i1.ss, re := Some(DhPublic(x.ei)));
    AgreeAfterB(i1, r1, x.ei, x.er, x.b);
    WroteB(r1, x.er, x.b);
    SealedHasKey(r1, x.er, x.b);
    var r2 := WriteB(r1, x.er, x.b).0;
    AgreeAfterC(i1.(ss := r2.ss, re := Some(DhPublic(x.er)), rs := Some(DhPublic(x.sr))), r2, x.er, x.c);
  }

  /** Both ends of an honest run, from the first message to the last; None if some read refused. */
  function HonestRun(x: Inputs, psk: Option<Bytes>, prologue: Bytes): Option<(Party, Party)> {
    var (i1, ma) := InitiatorA(x, psk, prologue);
    var readA := ReadA(Begun(x.sr, psk, prologue), ma);
    if readA.None? || readA.value.0.re.None? then None
    else
      var (r2, mb) := WriteB(readA.value.0, x.er, x.b);
      var (i2, gotB) := ReadB(i1, mb);
      if !gotB.Good? then None
      else
        var (i3, mc) := WriteC(i2, x.c);
        if !mc.Good? || r2.e.None? then None
        else
          match ReadC(r2, mc.value)
          case None => None
          case Some((r3, _)) => Some((i3, r3))
  }

  lemma HonestRunFinishes(x: Inputs, psk: Option<Bytes>, prologue: Bytes)
    ensures HonestRun(x, psk, prologue).Some?
    ensures var (i, r) := HonestRun(x, psk, prologue).value;
            i.ss == r.ss && i.rs == Some(DhPublic(x.sr)) && r.rs == Some(DhPublic(x.si))
  {
    hide WriteA, ReadA, WriteB, ReadB, ReadC;
    HonestRunAgrees(x, psk, prologue);
  }

  lemma WroteA(p: Party, e: nat, payload: Bytes)
    ensures WriteA(p, e, payload).0 == p.(ss := WriteA(p, e, payload).0.ss, e := Some(e))
  {
  }

  lemma WroteB(p: Party, e: nat, payload: Bytes)
    requires p.re.Some?
    ensures WriteB(p, e, payload).0 == p.(ss := WriteB(p, e, payload).0.ss, e := Some(e))
  {
    hide TokenE, EncryptAndHash, MixKey, Dh;
  }

  // ---- Differing prologues ------------------------------------------------------------------

  /** The hash is 32 octets, so what follows it can be told apart. */
  lemma MixHashTellsApart(s: Symmetric, t: Symmetric, a: Bytes, b: Bytes)
    requires |s.h| == 32 && |t.h| == 32
    ensures MixHash(s, a).h == MixHash(t, b).h <==> s.h == t.h && a == b
  {
    Sha256Injective(s.h + a, t.h + b);
    if s.h + a == t.h + b {
      assert (s.h + a)[..32] == s.h && (t.h + b)[..32] == t.h && (s.h + a)[32..] == a && (t.h + b)[32..] == b;
    }
  }

  /** Two ends whose hashes differ and that share everything else. */
  ghost predicate Parted(s: Symmetric, t: Symmetric) {
    |s.h| == 32 && |t.h| == 32 && s.h != t.h && t == s.(h := t.h)
  }

  lemma HashParts(s: Symmetric, t: Symmetric, data: Bytes)
    requires Parted(s, t)
    ensures Parted(MixHash(s, data), MixHash(t, data))
  {
    MixHashTellsApart(s, t, data, data);
  }

  lemma KeyParts(s: Symmetric, t: Symmetric, input: Bytes)
    requires Parted(s, t)
    ensures Parted(MixKey(s, input), MixKey(t, input)) && MixKey(s, input).cipher.key.Some?
  {
    hide HmacSha256;
  }

  lemma TokenEParts(s: Symmetric, t: Symmetric, psk: Option<Bytes>, pub: Bytes)
    requires Parted(s, t)
    ensures Parted(TokenE(s, psk, pub), TokenE(t, psk, pub))
    ensures psk.Some? ==> TokenE(s, psk, pub).cipher.key.Some?
    ensures psk.None? ==> TokenE(s, psk, pub).cipher == s.cipher
  {
    hide MixKey;
    HashParts(s, t, pub);
    if psk.Some? { KeyParts(MixHash(s, pub), MixHash(t, pub), pub); }
  }

  /** Parted ends cannot read each other's ciphertexts; without a key the text passes and the ends stay parted. */
  lemma PartedReads(s: Symmetric, t: Symmetric, plain: Bytes)
    requires Parted(s, t)
    ensures var (s', ct) := EncryptAndHash(s, plain);
            if s.cipher.key.Some? then DecryptAndHash(t, ct) == None
            else
              && DecryptAndHash(t, ct).Some? && DecryptAndHash(t, ct).value.1 == plain
              && Parted(s', DecryptAndHash(t, ct).value.0) && s'.cipher == s.cipher && ct == plain
  {
    hide Seal, Open, Sha256;
    if s.cipher.key.Some? {
      DecryptRefuses(s.cipher, s.h, t.cipher, t.h, plain);
    } else {
      HashParts(s, t, plain);
    }
  }

  lemma ProloguesPart(si: nat, sr: nat, psk: Option<Bytes>, p: Bytes, q: Bytes)
    requires p != q
    ensures Parted(Begun(si, psk, p).ss, Begun(sr, psk, q).ss)
    ensures Begun(si, psk, p).ss.cipher == NO_KEY
  {
    var s := Named(if psk.Some? then XX_PSK3_NAME else XX_NAME);
    MixHashTellsApart(s, s, p, q);
  }

  /** With a PSK, differing prologues already fail at message A, when the responder opens its payload. */
  lemma DifferingPrologueFailsAtAWithPsk(x: Inputs, psk: Bytes, p: Bytes, q: Bytes)
    requires p != q
    ensures ReadA(Begun(x.sr, Some(psk), q), InitiatorA(x, Some(psk), p).1) == None
  {
    hide TokenE, EncryptAndHash, DecryptAndHash, Begun, Parted;
    var i, r := Begun(x.si, Some(psk), p), Begun(x.sr, Some(psk), q);
    BegunPsk(x.si, Some(psk), p);
    BegunPsk(x.sr, Some(psk), q);
    ProloguesPart(x.si, x.sr, Some(psk), p, q);
    TokenEParts(i.ss, r.ss, Some(psk), DhPublic(x.ei));
    PartedReads(TokenE(i.ss, Some(psk), DhPublic(x.ei)), TokenE(r.ss, Some(psk), DhPublic(x.ei)), x.a);
    Sliced(DhPublic(x.ei), EncryptAndHash(TokenE(i.ss, Some(psk), DhPublic(x.ei)), x.a).1);
  }

  lemma BegunPsk(s: nat, psk: Option<Bytes>, prologue: Bytes)
    ensures var p := Begun(s, psk, prologue);
            p.psk == psk && p.s == s && p.e == None && p.re == None
  {
  }

  /** Without a PSK message A is in the clear and passes; differing prologues fail at message B. */
  lemma DifferingPrologueFailsAtB(x: Inputs, p: Bytes, q: Bytes)
    requires p != q
    ensures var (i1, ma) := InitiatorA(x, None, p);
            var readA := ReadA(Begun(x.sr, None, q), ma);
            && readA.Some? && readA.value.1 == x.a && readA.value.0.re.Some?
            && ReadB(i1, WriteB(readA.value.0, x.er, x.b).1).1 == Bad(AuthenticationFailed)
  {
    hide TokenE, EncryptAndHash, DecryptAndHash, Begun, Parted, MixKey, Dh;
    var i, r := Begun(x.si, None, p), Begun(x.sr, None, q);
    BegunPsk(x.si, None, p);
    BegunPsk(x.sr, None, q);
    ProloguesPart(x.si, x.sr, None, p, q);
    var pub := DhPublic(x.ei);
    TokenEParts(i.ss, r.ss, None, pub);
    var s, t := TokenE(i.ss, None, pub), TokenE(r.ss, None, pub);
    PartedReads(s, t, x.a);
    Sliced(pub, EncryptAndHash(s, x.a).1);
    var s1, t1 := EncryptAndHash(s, x.a).0, DecryptAndHash(t, x.a).value.0;
    PartedBFails(s1, t1, x, None);
  }

  /** Message B between parted ends: the responder's static key does not open. */
  lemma PartedBFails(s: Symmetric, t: Symmetric, x: Inputs, psk: Option<Bytes>)
    requires Parted(s, t)
    ensures var i := Party(s, x.si, psk, Some(x.ei), None, None);
            var r := Party(t, x.sr, psk, None, Some(DhPublic(x.ei)), None);
            ReadB(i, WriteB(r, x.er, x.b).1).1 == Bad(AuthenticationFailed)
  {
    hide TokenE, EncryptAndHash, DecryptAndHash, Parted, MixKey, Dh;
    var pub := DhPublic(x.er);
    PartedTurns(s, t);
    TokenEParts(t, s, psk, pub);
    DhAgreement(x.ei, x.er);
    var mine, yours := TokenE(s, psk, pub), TokenE(t, psk, pub);
    var z := Dh(x.er, DhPublic(x.ei));
    KeyParts(yours, mine, z);
    PartedReads(MixKey(yours, z), MixKey(mine, z), DhPublic(x.sr));
    DecryptsWhatWasEncrypted(MixKey(yours, z), DhPublic(x.sr));
    var (ss, encS) := EncryptAndHash(MixKey(yours, z), DhPublic(x.sr));
    var ct := EncryptAndHash(MixKey(ss, Dh(x.sr, DhPublic(x.ei))), x.b).1;
    Nests(pub, encS, ct);
    Sliced(pub, encS + ct);
    Sliced(encS, ct);
  }

  lemma PartedTurns(s: Symmetric, t: Symmetric)
    requires Parted(s, t)
    ensures Parted(t, s)
  {
  }

  // ---- Differing pre-shared keys ------------------------------------------------------------------

  /** Mixing different secrets gives different cipher keys. */
  lemma PskTellsApart(s: Symmetric, a: Bytes, b: Bytes)
    ensures MixKeyAndHash(s, a).cipher.key == MixKeyAndHash(s, b).cipher.key <==> a == b
  {
    hide HmacSha256, Sha256;
    var ta, tb := HmacSha256(s.ck, a), HmacSha256(s.ck, b);
    HmacInjective(s.ck, a, s.ck, b);
    HmacInjective(ta, Hkdf2(s.ck, a).1 + [Raw(3)], tb, Hkdf2(s.ck, b).1 + [Raw(3)]);
  }

  lemma PskHasKey(s: Symmetric, a: Bytes)
    ensures MixKeyAndHash(s, a).cipher.key.Some?
  {
  }

  /**
   Everything up to message C is independent of the PSK's value: both ends agree through A and B, the static key in
   message C still opens, and the payload after it is the first thing that does not.
   */
  lemma DifferingPskFailsAtC(x: Inputs, psk: Bytes, psk': Bytes, prologue: Bytes)
    requires psk != psk'
    ensures var (i1, ma) := InitiatorA(x, Some(psk), prologue);
            var readA := ReadA(Begun(x.sr, Some(psk'), prologue), ma);
            && readA.Some? && readA.value.1 == x.a && readA.value.0.re.Some?
            && var (r2, mb) := WriteB(readA.value.0, x.er, x.b);
            && var (i2, gotB) := ReadB(i1, mb);
            && gotB == Good(x.b) && i2.ss == r2.ss
            && var mc := WriteC(i2, x.c).1;
            && mc.Good? && r2.e.Some? && ReadC(r2, mc.value) == None
  {
    hide WriteA, ReadA, WriteB, ReadB, WriteC, ReadC, MixHash, Named;
    var i0, r0 := Begun(x.si, Some(psk), prologue), Begun(x.sr, Some(psk'), prologue);
    PskUnreadInA(i0, psk', x.ei, x.a);
    AgreeAfterA(i0.(psk := Some(psk')), r0, x.ei, x.a);
    WroteA(i0, x.ei, x.a);
    var i1 := WriteA(i0, x.ei, x.a).0;
    var r1 := r0.(ss := i1.ss, re := Some(DhPublic(x.ei)));
    WroteB(r1, x.er, x.b);
    SealedHasKey(r1, x.er, x.b);
    var (r2, mb) := WriteB(r1, x.er, x.b);
    PskUnreadInB(i1, psk', mb);
    AgreeAfterB(i1.(psk := Some(psk')), r1, x.ei, x.er, x.b);
    PskSplitsC(i1.(ss := r2.ss, re := Some(DhPublic(x.er)), rs := Some(DhPublic(x.sr))), r2, psk, psk', x.er, x.c);
  }

  lemma PskUnreadInA(i: Party, psk': Bytes, e: nat, payload: Bytes)
    requires i.psk.Some?
    ensures WriteA(i.(psk := Some(psk')), e, payload).1 == WriteA(i, e, payload).1
    ensures WriteA(i.(psk := Some(psk')), e, payload).0.ss == WriteA(i, e, payload).0.ss
  {
    hide MixKey, MixHash, EncryptAndHash;
  }

  lemma PskUnreadInB(i: Party, psk': Bytes, message: Bytes)
    requires i.psk.Some?
    ensures ReadB(i, message).1 == ReadB(i.(psk := Some(psk')), message).1
    ensures ReadB(i, message).0 == ReadB(i.(psk := Some(psk')), message).0.(psk := i.psk)
  {
    hide MixKey, MixHash, DecryptAndHash, Dh;
  }

  lemma PskSplitsC(i: Party, r: Party, psk: Bytes, psk': Bytes, er: nat, payload: Bytes)
    requires i.ss == r.ss && i.psk == Some(psk) && r.psk == Some(psk') && psk != psk'
    requires r.e == Some(er) && i.re == Some(DhPublic(er)) && i.ss.cipher.key.Some?
    ensures WriteC(i, payload).1.Good? && ReadC(r, WriteC(i, payload).1.value) == None
  {
    hide EncryptAndHash, DecryptAndHash, MixKey, MixKeyAndHash, Dh;
    DhAgreement(i.s, er);
    DecryptsWhatWasEncrypted(i.ss, DhPublic(i.s));
    var (ss, encS) := EncryptAndHash(i.ss, DhPublic(i.s));
    var mixed := MixKey(ss, Dh(i.s, DhPublic(er)));
    PskTellsApart(mixed, psk, psk');
    PskHasKey(mixed, psk);
    PskHasKey(mixed, psk');
    Refused(MixKeyAndHash(mixed, psk), MixKeyAndHash(mixed, psk'), payload);
    Sliced(encS, EncryptAndHash(MixKeyAndHash(mixed, psk), payload).1);
  }

  lemma Refused(s: Symmetric, t: Symmetric, plain: Bytes)
    requires s.cipher.key.Some? && t.cipher.key.Some? && s.cipher.key != t.cipher.key
    ensures DecryptAndHash(t, EncryptAndHash(s, plain).1) == None
  {
    DecryptRefuses(s.cipher, s.h, t.cipher, t.h, plain);
  }

  // ---- What the secrets decide ------------------------------------------------------------------

  lemma HkdfTellsApart(ck: Bytes, a: Bytes, ck': Bytes, b: Bytes)
    ensures Hkdf2(ck, a).0 == Hkdf2(ck', b).0 <==> ck == ck' && a == b
    ensures Hkdf2(ck, a).1 == Hkdf2(ck', b).1 <==> ck == ck' && a == b
    ensures Hkdf2(ck, a).0 != Hkdf2(ck', b).1
  {
    hide HmacSha256;
    var t, u := HmacSha256(ck, a), HmacSha256(ck', b);
    var o, q := HmacSha256(t, [Raw(1)]), HmacSha256(u, [Raw(1)]);
    HmacInjective(ck, a, ck', b);
    HmacInjective(t, [Raw(1)], u, [Raw(1)]);
    HmacInjective(t, o + [Raw(2)], u, q + [Raw(2)]);
    HmacInjective(t, [Raw(1)], u, q + [Raw(2)]);
    assert |[Raw(1)]| == 1 && |q + [Raw(2)]| == 33;
  }

  /** Mixing in two inputs gives one key exactly when the inputs, and the keys chained so far, are one. */
  lemma MixKeyTellsApart(s: Symmetric, t: Symmetric, a: Bytes, b: Bytes)
    ensures MixKey(s, a).cipher.key == MixKey(t, b).cipher.key <==> s.ck == t.ck && a == b
    ensures MixKey(s, a).ck == MixKey(t, b).ck <==> s.ck == t.ck && a == b
  {
    hide Hkdf2;
    HkdfTellsApart(s.ck, a, t.ck, b);
  }

  lemma Hkdf3TellsApart(ck: Bytes, a: Bytes, ck': Bytes, b: Bytes)
    ensures Hkdf3(ck, a).2 == Hkdf3(ck', b).2 <==> ck == ck' && a == b
    ensures Hkdf3(ck, a).2 != Hkdf2(ck', b).1
  {
    hide HmacSha256;
    var t, u := HmacSha256(ck, a), HmacSha256(ck', b);
    HmacInjective(ck, a, ck', b);
    var o, q, r := Hkdf2(ck, a).1, Hkdf2(ck', b).1, HmacSha256(u, [Raw(1)]);
    HmacInjective(t, o + [Raw(3)], u, q + [Raw(3)]);
    HmacInjective(t, o + [Raw(3)], u, r + [Raw(2)]);
    assert (o + [Raw(3)])[|o|] == Raw(3) && |o| == 32 && |r| == 32 && (r + [Raw(2)])[32] == Raw(2);
  }

  /** Mixing in a pre-shared key also puts it into the hash. */
  lemma MixBothHashes(s: Symmetric, t: Symmetric, a: Bytes, b: Bytes)
    requires |s.h| == 32 && |t.h| == 32
    ensures MixKeyAndHash(s, a).h == MixKeyAndHash(t, b).h <==> s.h == t.h && s.ck == t.ck && a == b
  {
    hide Hkdf2, MixHash;
    HkdfTellsApart(s.ck, a, t.ck, b);
    MixHashTellsApart(s.(ck := Hkdf3(s.ck, a).0), t.(ck := Hkdf3(t.ck, b).0), Hkdf2(s.ck, a).1, Hkdf2(t.ck, b).1);
    HashIgnoresRest(s, s.(ck := Hkdf3(s.ck, a).0), Hkdf2(s.ck, a).1);
    HashIgnoresRest(t, t.(ck := Hkdf3(t.ck, b).0), Hkdf2(t.ck, b).1);
  }

  lemma HashIgnoresRest(s: Symmetric, t: Symmetric, data: Bytes)
    requires s.h == t.h
    ensures MixHash(s, data).h == MixHash(t, data).h
  {
  }

  /** The errors of message B before any cryptography. */
  lemma ShortMessageB(p: Party, message: Bytes)
    ensures p.e.None? ==> ReadB(p, message) == (p, Bad(OutOfOrder))
    ensures p.re.None? ==> WriteC(p, message) == (p, Bad(OutOfOrder))
    ensures p.e.Some? && |message| < 80 ==> ReadB(p, message).1 == Bad(ShortMessage)
    ensures p.e.Some? && |message| < 32 ==> ReadB(p, message).0 == p
    ensures p.e.Some? && |message| >= 80 ==> ReadB(p, message).1 != Bad(ShortMessage)
  {
    hide MixKey, TokenE, DecryptAndHash, Dh;
  }

  /** The key in force after se, and psk where there is one, names the se output and the psk. */
  lemma LastTokensTellApart(s: Symmetric, z: Bytes, psk: Option<Bytes>, z': Bytes, psk': Option<Bytes>)
    ensures TokenPsk(MixKey(s, z), psk).cipher.key == TokenPsk(MixKey(s, z'), psk').cipher.key <==>
            z == z' && psk == psk'
    ensures TokenPsk(MixKey(s, z), psk).cipher.key.Some?
  {
    hide Hkdf2, Hkdf3;
    HkdfTellsApart(s.ck, z, s.ck, z');
    var c, d := Hkdf2(s.ck, z).0, Hkdf2(s.ck, z').0;
    if psk.Some? { Hkdf3TellsApart(c, psk.value, s.ck, z'); }
    if psk'.Some? { Hkdf3TellsApart(d, psk'.value, s.ck, z); }
    if psk.Some? && psk'.Some? { Hkdf3TellsApart(c, psk.value, d, psk'.value); }
  }

  /** Another private key gives another shared secret with the same public key. */
  lemma DhTellsApart(a: nat, b: nat, p: nat)
    ensures Dh(a, DhPublic(p)) == Dh(b, DhPublic(p)) <==> a == b
  {
    assert DhPublic(p)[0] == Part(PublicKey(p), 0);
    var t := if a <= p then Shared(a, p) else Shared(p, a);
    var u := if b <= p then Shared(b, p) else Shared(p, b);
    ExpandInjective(t, u, 32);
  }

  // ---- Who can make a message ------------------------------------------------------------------

  /** A message B that shows the public keys re and rs, with z and y mixed in for the tokens ee and es. */
  function BuiltB(ss: Symmetric, psk: Option<Bytes>, re: Bytes, z: Bytes, rs: Bytes, y: Bytes, payload: Bytes)
    : Bytes
  {
    var (after, encS) := EncryptAndHash(MixKey(TokenE(ss, psk, re), z), rs);
    re + encS + EncryptAndHash(MixKey(after, y), payload).1
  }

  /** The initiator takes a message exactly when both were mixed from its own ephemeral and the keys shown. */
  lemma OnlyTheRightSecretsMakeB(i: Party, ei: nat, re: Bytes, z: Bytes, rs: Bytes, y: Bytes, payload: Bytes)
    requires i.e == Some(ei) && |re| == 32 && |rs| == 32
    ensures ReadB(i, BuiltB(i.ss, i.psk, re, z, rs, y, payload)).1 ==
            if z == Dh(ei, re) && y == Dh(ei, rs) then Good(payload) else Bad(AuthenticationFailed)
  {
    hide TokenE, EncryptAndHash, DecryptAndHash, MixKey, Dh;
    var started := TokenE(i.ss, i.psk, re);
    var theirs, mine := MixKey(started, z), MixKey(started, Dh(ei, re));
    MixedHasKey(started, z);
    MixedHasKey(started, Dh(ei, re));
    MixKeyTellsApart(started, started, z, Dh(ei, re));
    DecryptsWhatWasEncrypted(theirs, rs);
    var (after, encS) := EncryptAndHash(theirs, rs);
    MixedHasKey(after, y);
    MixedHasKey(after, Dh(ei, rs));
    MixKeyTellsApart(after, after, y, Dh(ei, rs));
    var ct := EncryptAndHash(MixKey(after, y), payload).1;
    DecryptsWhatWasEncrypted(MixKey(after, y), payload);
    Nests(re, encS, ct);
    Sliced(re, encS + ct);
    Sliced(encS, ct);
    if z != Dh(ei, re) {
      Refused(theirs, mine, rs);
    } else if y != Dh(ei, rs) {
      Refused(MixKey(after, y), MixKey(after, Dh(ei, rs)), payload);
    }
  }

  /**
   Impostors: whoever shows the daemon's static key, or any ephemeral, and does not hold its private key, is refused
   at message B, with or without the pre-shared key.
   */
  lemma ImpostorFailsAtB(x: Inputs, psk: Option<Bytes>, prologue: Bytes, e: nat, s: nat, payload: Bytes)
    ensures var i1 := InitiatorA(x, psk, prologue).0;
            var forged := BuiltB(i1.ss, psk, DhPublic(x.er), Dh(e, DhPublic(x.ei)), DhPublic(x.sr),
                Dh(s, DhPublic(x.ei)), payload);
            ReadB(i1, forged).1 == if e == x.er && s == x.sr then Good(payload) else Bad(AuthenticationFailed)
  {
    hide WriteA, ReadB, BuiltB, Dh;
    var i0 := Begun(x.si, psk, prologue);
    WroteA(i0, x.ei, x.a);
    BegunPsk(x.si, psk, prologue);
    var i1 := InitiatorA(x, psk, prologue).0;
    OnlyTheRightSecretsMakeB(i1, x.ei, DhPublic(x.er), Dh(e, DhPublic(x.ei)), DhPublic(x.sr), Dh(s, DhPublic(x.ei)),
        payload);
    DhAgreement(x.ei, x.er);
    DhAgreement(x.ei, x.sr);
    DhTellsApart(e, x.er, x.ei);
    DhTellsApart(s, x.sr, x.ei);
  }

  lemma ReadWasWritten(s: Symmetric, ct: Bytes)
    requires s.cipher.key.Some? && DecryptAndHash(s, ct).Some?
    ensures EncryptAndHash(s, DecryptAndHash(s, ct).value.1) == (DecryptAndHash(s, ct).value.0, ct)
    ensures |ct| == |DecryptAndHash(s, ct).value.1| + 16
  {
  }

  /** Whatever message B the initiator takes was built with the right secrets for the keys it shows. */
  lemma TakenBWasBuilt(i: Party, ei: nat, message: Bytes)
    requires i.e == Some(ei) && ReadB(i, message).1.Good?
    ensures var (i2, r) := ReadB(i, message);
            && i2.re.Some? && i2.rs.Some? && |i2.re.value| == 32 && |i2.rs.value| == 32
            && message == BuiltB(i.ss, i.psk, i2.re.value, Dh(ei, i2.re.value), i2.rs.value, Dh(ei, i2.rs.value),
                 r.value)
  {
    hide TokenE, EncryptAndHash, DecryptAndHash, MixKey, Dh;
    var re, rest := message[..32], message[32..];
    var s := MixKey(TokenE(i.ss, i.psk, re), Dh(ei, re));
    MixedHasKey(TokenE(i.ss, i.psk, re), Dh(ei, re));
    ReadWasWritten(s, rest[..48]);
    var (after, rs) := DecryptAndHash(s, rest[..48]).value;
    MixedHasKey(after, Dh(ei, rs));
    ReadWasWritten(MixKey(after, Dh(ei, rs)), rest[48..]);
    Nests(re, rest[..48], rest[48..]);
    assert message == re + rest && rest == rest[..48] + rest[48..];
  }

  /** A message C that shows the public key rs, with z mixed in for the token se, and a pre-shared key. */
  function BuiltC(ss: Symmetric, rs: Bytes, z: Bytes, psk: Option<Bytes>, payload: Bytes): Bytes {
    var (after, encS) := EncryptAndHash(ss, rs);
    encS + EncryptAndHash(TokenPsk(MixKey(after, z), psk), payload).1
  }

  /** The responder takes it exactly when z comes from the key shown, and the pre-shared key is its own. */
  lemma OnlyTheRightSecretsMakeC(r: Party, er: nat, rs: Bytes, z: Bytes, psk: Option<Bytes>, payload: Bytes)
    requires r.e == Some(er) && |rs| == 32 && r.ss.cipher.key.Some?
    ensures var read := ReadC(r, BuiltC(r.ss, rs, z, psk, payload));
            && (read.Some? <==> z == Dh(er, rs) && psk == r.psk)
            && (read.Some? ==> read.value.1 == payload && read.value.0.rs == Some(rs))
  {
    hide TokenPsk, EncryptAndHash, DecryptAndHash, MixKey, Dh;
    DecryptsWhatWasEncrypted(r.ss, rs);
    var (after, encS) := EncryptAndHash(r.ss, rs);
    var theirs, mine := TokenPsk(MixKey(after, z), psk), TokenPsk(MixKey(after, Dh(er, rs)), r.psk);
    LastTokensTellApart(after, z, psk, Dh(er, rs), r.psk);
    LastTokensTellApart(after, Dh(er, rs), r.psk, z, psk);
    DecryptsWhatWasEncrypted(theirs, payload);
    Sliced(encS, EncryptAndHash(theirs, payload).1);
    if z != Dh(er, rs) || psk != r.psk { Refused(theirs, mine, payload); }
  }

  /** Impostors at message C: a client's static key shown without its private key, or another pre-shared key. */
  lemma ImpostorFailsAtC(r: Party, er: nat, shown: nat, held: nat, psk: Option<Bytes>, payload: Bytes)
    requires r.e == Some(er) && r.ss.cipher.key.Some?
    ensures ReadC(r, BuiltC(r.ss, DhPublic(shown), Dh(held, DhPublic(er)), psk, payload)).Some? <==>
            held == shown && psk == r.psk
  {
    hide ReadC, BuiltC, Dh;
    OnlyTheRightSecretsMakeC(r, er, DhPublic(shown), Dh(held, DhPublic(er)), psk, payload);
    DhAgreement(er, shown);
    DhTellsApart(held, shown, er);
  }

  // ---- Messages changed on the way ------------------------------------------------------------------

  lemma HashIs32(s: Symmetric, data: Bytes)
    ensures |MixHash(s, data).h| == 32
  {
  }

  /** Hashes that differ, and keys on both sides: nothing can be read. */
  lemma OtherHashRefuses(s: Symmetric, t: Symmetric, plain: Bytes)
    requires s.h != t.h && s.cipher.key.Some? && t.cipher.key.Some?
    ensures DecryptAndHash(t, EncryptAndHash(s, plain).1) == None
  {
    hide Seal, Open;
    DecryptRefuses(s.cipher, s.h, t.cipher, t.h, plain);
  }

  lemma HashOfToken(ss: Symmetric, psk: Option<Bytes>, pub: Bytes)
    ensures TokenE(ss, psk, pub).h == MixHash(ss, pub).h
  {
    hide Hkdf2;
  }

  lemma HashOfMix(s: Symmetric, input: Bytes)
    ensures MixKey(s, input).h == s.h
  {
    hide Hkdf2;
  }

  lemma HashOfRead(s: Symmetric, ct: Bytes)
    ensures DecryptAndHash(s, ct).Some? ==> DecryptAndHash(s, ct).value.0.h == MixHash(s, ct).h
  {
    hide DecryptWithAd;
  }

  lemma HashOfWrite(s: Symmetric, plain: Bytes)
    ensures var (t, ct) := EncryptAndHash(s, plain);
            t.h == MixHash(s, ct).h
  {
    hide EncryptWithAd;
  }

  lemma SlicesMakeWhole(m: Bytes, n: nat)
    ensures Slice(m, n).0 + Slice(m, n).1 == m
  {
  }

  /** A different message A that the responder takes leaves it with a different hash. */
  lemma AlteredAParts(i: Party, r: Party, e: nat, payload: Bytes, altered: Bytes)
    requires i.ss == r.ss && i.psk == r.psk && |i.ss.h| == 32 && altered != WriteA(i, e, payload).1
    requires ReadA(r, altered).Some?
    ensures var i1, r1 := WriteA(i, e, payload).0, ReadA(r, altered).value.0;
            i1.ss.h != r1.ss.h && |i1.ss.h| == 32 && |r1.ss.h| == 32
  {
    hide TokenE, EncryptAndHash, DecryptAndHash, MixHash;
    var pub, s := DhPublic(e), TokenE(i.ss, i.psk, DhPublic(e));
    var ct := EncryptAndHash(s, payload).1;
    var (re, rest) := Slice(altered, 32);
    var t := TokenE(r.ss, r.psk, re);
    SlicesMakeWhole(altered, 32);
    HashOfToken(i.ss, i.psk, pub);
    HashOfToken(r.ss, r.psk, re);
    HashOfWrite(s, payload);
    HashOfRead(t, rest);
    HashIs32(i.ss, pub);
    HashIs32(r.ss, re);
    MixHashTellsApart(i.ss, r.ss, pub, re);
    MixHashTellsApart(s, t, ct, rest);
    HashIs32(s, ct);
    HashIs32(t, rest);
  }

  lemma BegunHash(s: nat, psk: Option<Bytes>, prologue: Bytes)
    ensures |Begun(s, psk, prologue).ss.h| == 32
  {
  }

  /** Message A changed on the way, and taken: the answer to it is refused. */
  lemma AlteredMessageAIsCaughtAtB(x: Inputs, psk: Option<Bytes>, prologue: Bytes, altered: Bytes)
    requires altered != InitiatorA(x, psk, prologue).1 && ReadA(Begun(x.sr, psk, prologue), altered).Some?
    ensures var i1, r1 := InitiatorA(x, psk, prologue).0, ReadA(Begun(x.sr, psk, prologue), altered).value.0;
            r1.re.Some? && ReadB(i1, WriteB(r1, x.er, x.b).1).1 == Bad(AuthenticationFailed)
  {
    hide WriteA, Begun, TokenE, EncryptAndHash, DecryptAndHash, MixKey, Dh, MixHash;
    var i0, r0 := Begun(x.si, psk, prologue), Begun(x.sr, psk, prologue);
    BegunPsk(x.si, psk, prologue);
    BegunPsk(x.sr, psk, prologue);
    BegunHash(x.si, psk, prologue);
    SameBeginning(x.si, x.sr, psk, prologue);
    AlteredAParts(i0, r0, x.ei, x.a, altered);
    WroteA(i0, x.ei, x.a);
    var i1, r1 := WriteA(i0, x.ei, x.a).0, ReadA(r0, altered).value.0;
    ApartFailsAtB(i1, r1, x.ei, x.er, x.b);
  }

  lemma SameBeginning(s: nat, t: nat, psk: Option<Bytes>, prologue: Bytes)
    ensures Begun(s, psk, prologue).ss == Begun(t, psk, prologue).ss
  {
  }

  lemma ApartFailsAtB(i: Party, r: Party, ei: nat, er: nat, payload: Bytes)
    requires i.e == Some(ei) && r.re.Some? && i.psk == r.psk
    requires i.ss.h != r.ss.h && |i.ss.h| == 32 && |r.ss.h| == 32
    ensures ReadB(i, WriteB(r, er, payload).1).1 == Bad(AuthenticationFailed)
  {
    hide TokenE, EncryptAndHash, DecryptAndHash, MixKey, Dh, MixHash;
    var pub := DhPublic(er);
    var s, t := TokenE(r.ss, r.psk, pub), TokenE(i.ss, i.psk, pub);
    HashOfToken(r.ss, r.psk, pub);
    HashOfToken(i.ss, i.psk, pub);
    MixHashTellsApart(r.ss, i.ss, pub, pub);
    var theirs, mine := MixKey(s, Dh(er, r.re.value)), MixKey(t, Dh(ei, pub));
    HashOfMix(s, Dh(er, r.re.value));
    HashOfMix(t, Dh(ei, pub));
    MixedHasKey(s, Dh(er, r.re.value));
    MixedHasKey(t, Dh(ei, pub));
    OtherHashRefuses(theirs, mine, DhPublic(r.s));
    DecryptsWhatWasEncrypted(theirs, DhPublic(r.s));
    var (after, encS) := EncryptAndHash(theirs, DhPublic(r.s));
    var ct := EncryptAndHash(MixKey(after, Dh(r.s, r.re.value)), payload).1;
    Nests(pub, encS, ct);
    Sliced(pub, encS + ct);
    Sliced(encS, ct);
  }

  /** A different message B that the initiator takes leaves it with a different hash. */
  lemma AlteredBParts(i: Party, r: Party, ei: nat, er: nat, payload: Bytes, altered: Bytes)
    requires i.ss == r.ss && i.psk == r.psk && |i.ss.h| == 32 && i.e == Some(ei) && r.re.Some?
    requires altered != WriteB(r, er, payload).1 && ReadB(i, altered).1.Good?
    ensures var i2, r2 := ReadB(i, altered).0, WriteB(r, er, payload).0;
            i2.ss.h != r2.ss.h && i2.ss.cipher.key.Some? && i2.re.Some?
  {
    hide TokenE, EncryptAndHash, DecryptAndHash, MixKey, Dh, MixHash;
    var pub := DhPublic(er);
    var s := TokenE(r.ss, r.psk, pub);
    var s1 := MixKey(s, Dh(er, r.re.value));
    var (s2, encS) := EncryptAndHash(s1, DhPublic(r.s));
    var s3 := MixKey(s2, Dh(r.s, r.re.value));
    var ct := EncryptAndHash(s3, payload).1;
    var re, rest := altered[..32], altered[32..];
    var t := TokenE(i.ss, i.psk, re);
    var t1 := MixKey(t, Dh(ei, re));
    var (t2, rs) := DecryptAndHash(t1, rest[..48]).value;
    var t3 := MixKey(t2, Dh(ei, rs));
    HashOfToken(r.ss, r.psk, pub);
    HashOfToken(i.ss, i.psk, re);
    HashOfMix(s, Dh(er, r.re.value));
    HashOfMix(t, Dh(ei, re));
    HashOfMix(s2, Dh(r.s, r.re.value));
    HashOfMix(t2, Dh(ei, rs));
    HashOfWrite(s1, DhPublic(r.s));
    HashOfWrite(s3, payload);
    HashOfRead(t1, rest[..48]);
    HashOfRead(t3, rest[48..]);
    MixHashTellsApart(r.ss, i.ss, pub, re);
    HashIs32(r.ss, pub);
    HashIs32(i.ss, re);
    MixHashTellsApart(s1, t1, encS, rest[..48]);
    HashIs32(s1, encS);
    HashIs32(t1, rest[..48]);
    MixHashTellsApart(s3, t3, ct, rest[48..]);
    MixedHasKey(t2, Dh(ei, rs));
    ReadKeepsKey(t3, rest[48..]);
    assert altered == re + rest && rest == rest[..48] + rest[48..];
    Nests(pub, encS, ct);
  }

  lemma ReadKeepsKey(s: Symmetric, ct: Bytes)
    requires s.cipher.key.Some? && DecryptAndHash(s, ct).Some?
    ensures DecryptAndHash(s, ct).value.0.cipher.key.Some?
  {
    hide Open, Rekeyed;
  }

  /** Message B changed on the way, and taken: message C is refused. */
  lemma AlteredMessageBIsCaughtAtC(x: Inputs, psk: Option<Bytes>, prologue: Bytes, altered: Bytes)
    ensures var (i1, ma) := InitiatorA(x, psk, prologue);
            var readA := ReadA(Begun(x.sr, psk, prologue), ma);
            && readA.Some? && readA.value.0.re.Some?
            && var (r2, mb) := WriteB(readA.value.0, x.er, x.b);
            && r2.e.Some?
            && (altered != mb && ReadB(i1, altered).1.Good? ==>
                  && WriteC(ReadB(i1, altered).0, x.c).1.Good?
                  && ReadC(r2, WriteC(ReadB(i1, altered).0, x.c).1.value) == None)
  {
    hide WriteA, ReadA, WriteB, ReadB, WriteC, ReadC, MixHash, Named;
    var i0, r0 := Begun(x.si, psk, prologue), Begun(x.sr, psk, prologue);
    AgreeAfterA(i0, r0, x.ei, x.a);
    var i1 := WriteA(i0, x.ei, x.a).0;
    WroteA(i0, x.ei, x.a);
    WrittenHash(i0, x.ei, x.a);
    var r1 := r0.(ss := i1.ss, re := Some(DhPublic(x.ei)));
    WroteB(r1, x.er, x.b);
    SealedHasKey(r1, x.er, x.b);
    var (r2, mb) := WriteB(r1, x.er, x.b);
    if altered != mb && ReadB(i1, altered).1.Good? {
      AlteredBParts(i1, r1, x.ei, x.er, x.b, altered);
      ApartFailsAtC(ReadB(i1, altered).0, r2, x.c);
    }
  }

  lemma WrittenHash(p: Party, e: nat, payload: Bytes)
    ensures |WriteA(p, e, payload).0.ss.h| == 32
  {
    hide TokenE, EncryptWithAd;
  }

  lemma ApartFailsAtC(i: Party, r: Party, payload: Bytes)
    requires i.re.Some? && r.e.Some? && i.ss.h != r.ss.h && i.ss.cipher.key.Some? && r.ss.cipher.key.Some?
    ensures WriteC(i, payload).1.Good? && ReadC(r, WriteC(i, payload).1.value) == None
  {
    hide EncryptAndHash, DecryptAndHash, MixKey, TokenPsk, Dh;
    OtherHashRefuses(i.ss, r.ss, DhPublic(i.s));
    DecryptsWhatWasEncrypted(i.ss, DhPublic(i.s));
    var (after, encS) := EncryptAndHash(i.ss, DhPublic(i.s));
    Sliced(encS, EncryptAndHash(TokenPsk(MixKey(after, Dh(i.s, i.re.value)), i.psk), payload).1);
  }

  // ---- The transport keys ------------------------------------------------------------------

  /** The two directions have different keys, and states with different chaining keys have no key in common. */
  lemma SplitTellsApart(s: Symmetric, t: Symmetric)
    ensures var (a, b) := Split(s);
            var (c, d) := Split(t);
            && a.key != b.key && a.n == 0 == b.n
            && (a.key == c.key <==> s.ck == t.ck) && (b.key == d.key <==> s.ck == t.ck)
  {
    hide Hkdf2;
    HkdfTellsApart(s.ck, [], t.ck, []);
    HkdfTellsApart(s.ck, [], s.ck, []);
  }

  /** The chaining key of the tokens of one run: e twice where there is a psk, then ee, es, se, and psk. */
  function Chained(ss: Symmetric, psk: Option<Bytes>, ei: Bytes, er: Bytes, ee: Bytes, es: Bytes, se: Bytes): Bytes {
    var a := TokenE(ss, psk, ei);
    var b := TokenE(a, psk, er);
    TokenPsk(MixKey(MixKey(MixKey(b, ee), es), se), psk).ck
  }

  lemma ChainIgnoresRest(s: Symmetric, t: Symmetric, input: Bytes, psk: Option<Bytes>)
    requires s.ck == t.ck
    ensures MixKey(s, input).ck == MixKey(t, input).ck
    ensures TokenPsk(s, psk).ck == TokenPsk(t, psk).ck && TokenE(s, psk, input).ck == TokenE(t, psk, input).ck
    ensures EncryptAndHash(s, input).0.ck == s.ck && MixHash(s, input).ck == s.ck
  {
    hide HmacSha256, EncryptWithAd;
  }

  lemma TokenPskTellsApart(s: Symmetric, t: Symmetric, psk: Option<Bytes>, psk': Option<Bytes>)
    requires psk.Some? == psk'.Some?
    ensures TokenPsk(s, psk).ck == TokenPsk(t, psk').ck <==> s.ck == t.ck && psk == psk'
  {
    hide HmacSha256;
    if psk.Some? { HkdfTellsApart(s.ck, psk.value, t.ck, psk'.value); }
  }

  lemma TokenETellsApart(s: Symmetric, t: Symmetric, psk: Option<Bytes>, psk': Option<Bytes>, a: Bytes, b: Bytes)
    requires psk.Some? == psk'.Some?
    ensures TokenE(s, psk, a).ck == TokenE(t, psk', b).ck <==> s.ck == t.ck && (psk.Some? ==> a == b)
  {
    hide MixKey;
    MixKeyTellsApart(MixHash(s, a), MixHash(t, b), a, b);
    MixHashKeepsChain(s, a);
    MixHashKeepsChain(t, b);
  }

  lemma MixHashKeepsChain(s: Symmetric, data: Bytes)
    ensures MixHash(s, data).ck == s.ck
  {
  }

  /** Both ends of an honest run hold the chain of that run's secrets. */
  lemma HonestRunChains(x: Inputs, psk: Option<Bytes>, prologue: Bytes)
    ensures HonestRun(x, psk, prologue).Some?
    ensures var begun := Begun(x.si, psk, prologue).ss;
            HonestRun(x, psk, prologue).value.0.ss.ck ==
            Chained(begun, psk, DhPublic(x.ei), DhPublic(x.er), Dh(x.ei, DhPublic(x.er)), Dh(x.ei, DhPublic(x.sr)),
                Dh(x.si, DhPublic(x.er)))
  {
    hide WriteA, ReadA, WriteB, ReadB, WriteC, ReadC, MixHash, Named, Dh;
    HonestRunFinishes(x, psk, prologue);
    var i0, r0 := Begun(x.si, psk, prologue), Begun(x.sr, psk, prologue);
    AgreeAfterA(i0, r0, x.ei, x.a);
    WroteA(i0, x.ei, x.a);
    var i1 := WriteA(i0, x.ei, x.a).0;
    var r1 := r0.(ss := i1.ss, re := Some(DhPublic(x.ei)));
    AgreeAfterB(i1, r1, x.ei, x.er, x.b);
    WroteB(r1, x.er, x.b);
    SealedHasKey(r1, x.er, x.b);
    var r2 := WriteB(r1, x.er, x.b).0;
    var i2 := i1.(ss := r2.ss, re := Some(DhPublic(x.er)), rs := Some(DhPublic(x.sr)));
    AgreeAfterC(i2, r2, x.er, x.c);
    ChainOfA(i0, x.ei, x.a);
    ChainOfB(r1, x.ei, x.er, x.b);
    ChainOfC(i2, x.er, x.c);
    ChainsJoin(i0.ss, i1.ss, r2.ss, psk, x);
  }

  lemma ChainOfA(p: Party, e: nat, payload: Bytes)
    ensures WriteA(p, e, payload).0.ss.ck == TokenE(p.ss, p.psk, DhPublic(e)).ck
  {
    hide TokenE, EncryptAndHash;
    ChainIgnoresRest(TokenE(p.ss, p.psk, DhPublic(e)), TokenE(p.ss, p.psk, DhPublic(e)), payload, None);
  }

  lemma ChainOfB(p: Party, ei: nat, e: nat, payload: Bytes)
    requires p.re == Some(DhPublic(ei))
    ensures WriteB(p, e, payload).0.ss.ck ==
            MixKey(MixKey(TokenE(p.ss, p.psk, DhPublic(e)), Dh(ei, DhPublic(e))), Dh(ei, DhPublic(p.s))).ck
  {
    hide TokenE, EncryptAndHash, MixKey, Dh;
    DhAgreement(ei, e);
    DhAgreement(ei, p.s);
    var mixed := MixKey(TokenE(p.ss, p.psk, DhPublic(e)), Dh(e, DhPublic(ei)));
    var ss := EncryptAndHash(mixed, DhPublic(p.s)).0;
    ChainIgnoresRest(mixed, mixed, DhPublic(p.s), None);
    ChainIgnoresRest(ss, mixed, Dh(p.s, DhPublic(ei)), None);
    var keyed := MixKey(ss, Dh(p.s, DhPublic(ei)));
    ChainIgnoresRest(keyed, keyed, payload, None);
  }

  lemma ChainOfC(p: Party, er: nat, payload: Bytes)
    requires p.re == Some(DhPublic(er))
    ensures WriteC(p, payload).0.ss.ck == TokenPsk(MixKey(p.ss, Dh(p.s, DhPublic(er))), p.psk).ck
  {
    hide TokenPsk, EncryptAndHash, MixKey, Dh;
    var ss := EncryptAndHash(p.ss, DhPublic(p.s)).0;
    ChainIgnoresRest(p.ss, p.ss, DhPublic(p.s), None);
    ChainIgnoresRest(ss, p.ss, Dh(p.s, DhPublic(er)), None);
    var a, b := MixKey(ss, Dh(p.s, DhPublic(er))), MixKey(p.ss, Dh(p.s, DhPublic(er)));
    ChainIgnoresRest(a, b, payload, p.psk);
    ChainIgnoresRest(TokenPsk(a, p.psk), TokenPsk(a, p.psk), payload, None);
  }

  lemma ChainsJoin(s0: Symmetric, s1: Symmetric, s2: Symmetric, psk: Option<Bytes>, x: Inputs)
    requires s1.ck == TokenE(s0, psk, DhPublic(x.ei)).ck
    requires s2.ck ==
      MixKey(MixKey(TokenE(s1, psk, DhPublic(x.er)), Dh(x.ei, DhPublic(x.er))), Dh(x.ei, DhPublic(x.sr))).ck
    ensures TokenPsk(MixKey(s2, Dh(x.si, DhPublic(x.er))), psk).ck ==
            Chained(s0, psk, DhPublic(x.ei), DhPublic(x.er), Dh(x.ei, DhPublic(x.er)), Dh(x.ei, DhPublic(x.sr)),
                Dh(x.si, DhPublic(x.er)))
  {
    hide TokenPsk, TokenE, MixKey, Dh;
    var ee, es, se := Dh(x.ei, DhPublic(x.er)), Dh(x.ei, DhPublic(x.sr)), Dh(x.si, DhPublic(x.er));
    var a := TokenE(s0, psk, DhPublic(x.ei));
    ChainIgnoresRest(s1, a, DhPublic(x.er), psk);
    var b, c := TokenE(s1, psk, DhPublic(x.er)), TokenE(a, psk, DhPublic(x.er));
    ChainIgnoresRest(b, c, ee, psk);
    ChainIgnoresRest(MixKey(b, ee), MixKey(c, ee), es, psk);
    var d := MixKey(MixKey(c, ee), es);
    ChainIgnoresRest(s2, d, se, psk);
    ChainIgnoresRest(MixKey(s2, se), MixKey(d, se), se, psk);
  }

  lemma ChainTellsApart(s: Symmetric, psk: Option<Bytes>, ei: Bytes, er: Bytes, ee: Bytes, es: Bytes, se: Bytes,
      t: Symmetric, psk': Option<Bytes>, ei': Bytes, er': Bytes, ee': Bytes, es': Bytes, se': Bytes)
    requires psk.Some? == psk'.Some? && s.ck == t.ck
    ensures Chained(s, psk, ei, er, ee, es, se) == Chained(t, psk', ei', er', ee', es', se') <==>
            psk == psk' && ee == ee' && es == es' && se == se' && (psk.Some? ==> ei == ei' && er == er')
  {
    hide TokenPsk, TokenE, MixKey;
    var a, b := TokenE(s, psk, ei), TokenE(t, psk', ei');
    var c, d := TokenE(a, psk, er), TokenE(b, psk', er');
    TokenETellsApart(s, t, psk, psk', ei, ei');
    TokenETellsApart(a, b, psk, psk', er, er');
    MixKeyTellsApart(c, d, ee, ee');
    MixKeyTellsApart(MixKey(c, ee), MixKey(d, ee'), es, es');
    var e, f := MixKey(MixKey(c, ee), es), MixKey(MixKey(d, ee'), es');
    MixKeyTellsApart(e, f, se, se');
    TokenPskTellsApart(MixKey(e, se), MixKey(f, se'), psk, psk');
  }

  lemma BeginningsChain(s: nat, t: nat, psk: Option<Bytes>, psk': Option<Bytes>, p: Bytes, q: Bytes)
    requires psk.Some? == psk'.Some?
    ensures Begun(s, psk, p).ss.ck == Begun(t, psk', q).ss.ck
  {
  }

  /**
   Two honest runs of one pattern, with the same or another prologue, have the same transport keys exactly when all
   three shared secrets and the pre-shared key are the same (and, where there is one, the ephemerals): the keys name
   every private key that took part.
   */
  lemma TransportKeysNameEverySecret(x: Inputs, psk: Option<Bytes>, p: Bytes, x': Inputs, psk': Option<Bytes>, q: Bytes)
    requires psk.Some? == psk'.Some?
    ensures HonestRun(x, psk, p).Some? && HonestRun(x', psk', q).Some?
    ensures var mine, other := InitiatorChannel(HonestRun(x, psk, p).value.0),
                InitiatorChannel(HonestRun(x', psk', q).value.0);
            (mine.send == other.send <==> mine.recv == other.recv)
            && (mine.send == other.send <==>
                  && psk == psk' && Dh(x.ei, DhPublic(x.er)) == Dh(x'.ei, DhPublic(x'.er))
                  && Dh(x.ei, DhPublic(x.sr)) == Dh(x'.ei, DhPublic(x'.sr))
                  && Dh(x.si, DhPublic(x.er)) == Dh(x'.si, DhPublic(x'.er))
                  && (psk.Some? ==> x.ei == x'.ei && x.er == x'.er))
  {
    hide HonestRun, Split, Chained, Begun, Dh;
    HonestRunChains(x, psk, p);
    HonestRunChains(x', psk', q);
    var i, j := HonestRun(x, psk, p).value.0, HonestRun(x', psk', q).value.0;
    SplitTellsApart(i.ss, j.ss);
    SplitTellsApart(j.ss, i.ss);
    BeginningsChain(x.si, x'.si, psk, psk', p, q);
    ChainTellsApart(Begun(x.si, psk, p).ss, psk, DhPublic(x.ei), DhPublic(x.er), Dh(x.ei, DhPublic(x.er)),
        Dh(x.ei, DhPublic(x.sr)), Dh(x.si, DhPublic(x.er)), Begun(x'.si, psk', q).ss, psk', DhPublic(x'.ei),
        DhPublic(x'.er), Dh(x'.ei, DhPublic(x'.er)), Dh(x'.ei, DhPublic(x'.sr)), Dh(x'.si, DhPublic(x'.er)));
    ExpandInjective(PublicKey(x.ei), PublicKey(x'.ei), 32);
    ExpandInjective(PublicKey(x.er), PublicKey(x'.er), 32);
  }
}
