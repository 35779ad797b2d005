/**
 Ideal cryptography. An octet is either a plain byte, one position of the output of a primitive, or a whole
 serialized document. Outputs keep their real lengths, so framing and slicing stay meaningful, while each law below
 (injectivity, authenticity, DH agreement) is a theorem about the symbols.
 */
module Octets {
  import opened Endian

  datatype Option<+T> = None | Some(value: T)

  datatype UrlEntry = UrlEntry(url: string, sub: bool)

  /** The JSON objects of records/application/codec.go; an absent optional field is None. */
  datatype MetadataDto = MetadataDto(
    kind: string, name: string, username: string, service: string, environment: string,
    urls: seq<string>, urlEntries: Option<seq<UrlEntry>>, tags: seq<string>,
    projectId: string, customKeys: seq<string>, createdAtMs: int, updatedAtMs: int)

  datatype SecretDto = SecretDto(
    password: string, notes: string, apiKey: string, apiSecret: string, custom: map<string, string>)

  datatype Document = MetadataDoc(meta: MetadataDto) | SecretDoc(secret: SecretDto) | TextDoc(text: string)

  datatype Octet = Raw(value: byte) | Part(term: Term, index: int) | Whole(doc: Document)

  type Bytes = seq<Octet>

  datatype Term =
    | Hash(message: Bytes)
    | Mac(key: Bytes, message: Bytes)
    | Box(key: Bytes, nonce: Bytes, ad: Bytes, plain: Bytes)
    | Subkey(root: Bytes, purpose: string)
    | Stretched(password: string, salt: Bytes, memory: nat, iterations: nat, parallelism: nat)
    | PublicKey(priv: nat)
    | Shared(low: nat, high: nat)
    | SharedWith(priv: nat, pub: Bytes)

  function Expand(t: Term, n: nat): (r: Bytes)
    ensures |r| == n
  {
    seq(n, i => Part(t, i))
  }

  lemma ExpandInjective(t: Term, u: Term, n: nat)
    requires n > 0
    ensures Expand(t, n) == Expand(u, n) <==> t == u
  {
    assert Expand(t, n)[0] == Part(t, 0) && Expand(u, n)[0] == Part(u, 0);
  }

  function Raws(s: seq<byte>): (r: Bytes)
    ensures |r| == |s|
  {
    seq(|s|, i requires 0 <= i < |s| => Raw(s[i]))
  }

  lemma RawsInjective(s: seq<byte>, u: seq<byte>)
    ensures Raws(s) == Raws(u) <==> s == u
  {
    if Raws(s) == Raws(u) {
      forall i | 0 <= i < |s| ensures s[i] == u[i] {
        assert Raws(s)[i] == Raws(u)[i];
      }
    }
  }

  function Text(s: string): Bytes { [Whole(TextDoc(s))] }

  function Sha256(b: Bytes): (r: Bytes) ensures |r| == 32 { Expand(Hash(b), 32) }

  lemma Sha256Injective(a: Bytes, b: Bytes)
    ensures Sha256(a) == Sha256(b) <==> a == b
  {
    ExpandInjective(Hash(a), Hash(b), 32);
  }

  function HmacSha256(key: Bytes, b: Bytes): (r: Bytes) ensures |r| == 32 { Expand(Mac(key, b), 32) }

  lemma HmacInjective(k: Bytes, a: Bytes, k': Bytes, a': Bytes)
    ensures HmacSha256(k, a) == HmacSha256(k', a') <==> k == k' && a == a'
  {
    ExpandInjective(Mac(k, a), Mac(k', a'), 32);
  }

  function DeriveSubkey(root: Bytes, purpose: string): (r: Bytes)
    ensures |r| == 32
  {
    Expand(Subkey(root, purpose), 32)
  }

  lemma SubkeyInjective(r: Bytes, l: string, r': Bytes, l': string)
    ensures DeriveSubkey(r, l) == DeriveSubkey(r', l') <==> r == r' && l == l'
  {
    ExpandInjective(Subkey(r, l), Subkey(r', l'), 32);
  }

  /** AEAD: the ciphertext is as long as the plaintext plus a 16-octet tag. */
  function Seal(key: Bytes, nonce: Bytes, ad: Bytes, plain: Bytes): (r: Bytes)
    ensures |r| == |plain| + 16
  {
    Expand(Box(key, nonce, ad, plain), |plain| + 16)
  }

  function Open(key: Bytes, nonce: Bytes, ad: Bytes, ct: Bytes): Option<Bytes> {
    if |ct| > 0 && ct[0].Part? && ct[0].term.Box? &&
       ct == Seal(key, nonce, ad, ct[0].term.plain)
    then Some(ct[0].term.plain) else None
  }

  /** Correct and authentic: a sealed box opens under exactly its own key, nonce and associated data. */
  lemma OpenSeal(k: Bytes, n: Bytes, ad: Bytes, k': Bytes, n': Bytes, ad': Bytes, plain: Bytes)
    ensures Open(k', n', ad', Seal(k, n, ad, plain)) ==
            if k == k' && n == n' && ad == ad' then Some(plain) else None
  {
    var ct := Seal(k, n, ad, plain);
    assert ct[0] == Part(Box(k, n, ad, plain), 0);
    ExpandInjective(Box(k, n, ad, plain), Box(k', n', ad', plain), |plain| + 16);
  }

  function DhPublic(priv: nat): (r: Bytes) ensures |r| == 32 { Expand(PublicKey(priv), 32) }

  function Dh(priv: nat, pub: Bytes): (r: Bytes)
    ensures |r| == 32
  {
    if |pub| == 32 && pub[0].Part? && pub[0].term.PublicKey? && pub == DhPublic(pub[0].term.priv) then
      var other := pub[0].term.priv;
      Expand(if priv <= other then Shared(priv, other) else Shared(other, priv), 32)
    else
      Expand(SharedWith(priv, pub), 32)
  }

  lemma DhAgreement(a: nat, b: nat)
    ensures Dh(a, DhPublic(b)) == Dh(b, DhPublic(a))
  {
    assert DhPublic(a)[0] == Part(PublicKey(a), 0) && DhPublic(b)[0] == Part(PublicKey(b), 0);
  }
}
