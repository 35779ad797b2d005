/** records/application/codec.go, crypto/aad.go and daemon/dto.go: payload documents and associated data. */
module Codec {
  import opened Endian
  import opened Octets
  import opened Strings
  import opened Tables
  import opened Origins

  const PAYLOAD_VERSION: U64 := 1
  const PAYLOAD_METADATA: byte := 1
  const PAYLOAD_SECRET: byte := 2
  const PAYLOAD_LABEL: byte := 4
  const MILLI: int := 1_000_000

  /** Fixed-width by construction: vault, record, revision, kind, format, key version. */
  function RecordAad(vaultId: Id, recordId: Id, revision: U64, kind: byte, format: U32, keyVersion: U32): (r: Bytes)
    ensures |r| == 49
  {
    Raws(BigEndian(vaultId, 16) + (BigEndian(recordId, 16) + (BigEndian(revision, 8)
         + ([kind] + (BigEndian(format, 4) + BigEndian(keyVersion, 4))))))
  }

  lemma NumberCode(m: nat, n: nat, w: nat, t: seq<byte>, u: seq<byte>)
    requires m < Pow256(w) && n < Pow256(w)
    requires BigEndian(m, w) + t == BigEndian(n, w) + u
    ensures m == n && t == u
  {
    Cut(BigEndian(m, w), BigEndian(n, w), t, u);
    BigEndianRoundTrip(m, w);
    BigEndianRoundTrip(n, w);
  }

  /** Any change of any field is a change of the associated data. */
  lemma AadBindsEverything(v: Id, r: Id, n: U64, k: byte, f: U32, g: U32, v': Id, r': Id, n': U64, k': byte, f': U32,
      g': U32)
    ensures RecordAad(v, r, n, k, f, g) == RecordAad(v', r', n', k', f', g') <==>
            v == v' && r == r' && n == n' && k == k' && f == f' && g == g'
  {
    if RecordAad(v, r, n, k, f, g) == RecordAad(v', r', n', k', f', g') {
      Widths();
      var a4, b4 := BigEndian(f, 4) + BigEndian(g, 4), BigEndian(f', 4) + BigEndian(g', 4);
      var a3, b3 := [k] + a4, [k'] + b4;
      var a2, b2 := BigEndian(n, 8) + a3, BigEndian(n', 8) + b3;
      var a1, b1 := BigEndian(r, 16) + a2, BigEndian(r', 16) + b2;
      RawsInjective(BigEndian(v, 16) + a1, BigEndian(v', 16) + b1);
      NumberCode(v, v', 16, a1, b1);
      NumberCode(r, r', 16, a2, b2);
      NumberCode(n, n', 8, a3, b3);
      Cut([k], [k'], a4, b4);
      NumberCode(f, f', 4, BigEndian(g, 4), BigEndian(g', 4));
      assert BigEndian(g, 4) + [] == BigEndian(g', 4) + [];
      NumberCode(g, g', 4, [], []);
    }
  }

  function EncodeMetadata(kind: string, m: Metadata): Bytes {
    [Whole(MetadataDoc(MetadataDto(kind, m.name, m.username, m.service, m.environment, [],
       Some(seq(|m.urls|, i requires 0 <= i < |m.urls| => UrlEntry(m.urls[i].raw, m.urls[i].allowSubdomains))),
       m.tags, m.projectId, m.customKeys, m.createdAt / MILLI, m.updatedAt / MILLI)))]
  }

  function NewLoginUrls(web: Web, es: seq<UrlEntry>): Option<seq<LoginUrl>> {
    if es == [] then Some([])
    else
      match NewLoginUrls(web, es[..|es| - 1])
      case None => None
      case Some(urls) =>
        match web.parse(es[|es| - 1].url)
        case None => None
        case Some(o) => Some(urls + [LoginUrl(es[|es| - 1].url, o, es[|es| - 1].sub)])
  }

  /** urlEntries supersede the legacy urls, which decode to exact matching. */
  function EntriesOf(urlEntries: Option<seq<UrlEntry>>, urls: seq<string>): seq<UrlEntry> {
    match urlEntries
    case Some(es) => es
    case None => seq(|urls|, i requires 0 <= i < |urls| => UrlEntry(urls[i], false))
  }

  function DecodeMetadata(web: Web, b: Bytes): Option<(string, Metadata)> {
    if |b| != 1 || !b[0].Whole? || !b[0].doc.MetadataDoc? then None
    else
      var d := b[0].doc.meta;
      match NewLoginUrls(web, EntriesOf(d.urlEntries, d.urls))
      case None => None
      case Some(urls) =>
        Some((d.kind, Metadata(d.name, d.username, d.service, d.environment, urls, d.tags, d.projectId,
                               d.customKeys, d.createdAtMs * MILLI, d.updatedAtMs * MILLI)))
  }

  function EncodeSecret(s: Secret): Bytes {
    [Whole(SecretDoc(SecretDto(s.password, s.notes, s.apiKey, s.apiSecret, s.custom)))]
  }

  function DecodeSecret(b: Bytes): Option<Secret> {
    if |b| != 1 || !b[0].Whole? || !b[0].doc.SecretDoc? then None
    else var d := b[0].doc.secret; Some(Secret(d.password, d.notes, d.apiKey, d.apiSecret, d.custom))
  }

  /** Stored instants have millisecond precision. */
  function Stored(m: Metadata): Metadata {
    m.(createdAt := m.createdAt / MILLI * MILLI, updatedAt := m.updatedAt / MILLI * MILLI)
  }

  /** Every URL's origin is the parse of its text. */
  ghost predicate WellParsed(web: Web, urls: seq<LoginUrl>) {
    forall u | u in urls :: web.parse(u.raw) == Some(u.origin)
  }

  lemma {:induction false} UrlsRoundTrip(web: Web, urls: seq<LoginUrl>, es: seq<UrlEntry>)
    requires WellParsed(web, urls) && |es| == |urls|
    requires forall i | 0 <= i < |urls| :: es[i] == UrlEntry(urls[i].raw, urls[i].allowSubdomains)
    ensures NewLoginUrls(web, es) == Some(urls)
  {
    if urls != [] {
      var n := |urls| - 1;
      UrlsRoundTrip(web, urls[..n], es[..n]);
      assert urls == urls[..n] + [urls[n]];
      assert urls[n] in urls;
    }
  }

  lemma MetadataRoundTrip(web: Web, kind: string, m: Metadata)
    requires WellParsed(web, m.urls)
    ensures DecodeMetadata(web, EncodeMetadata(kind, m)) == Some((kind, Stored(m)))
  {
    var es := seq(|m.urls|, i requires 0 <= i < |m.urls| => UrlEntry(m.urls[i].raw, m.urls[i].allowSubdomains));
    UrlsRoundTrip(web, m.urls, es);
  }

  /** A request's record fields; customKeys lists the keys of custom in the order the map yields them. */
  datatype Fields = Fields(
    kind: string, name: string, username: string, service: string, environment: string,
    urls: seq<string>, urlEntries: Option<seq<UrlEntry>>, tags: seq<string>, projectId: string,
    customKeys: seq<string>, secret: Secret)

  function FieldsToMetadata(web: Web, f: Fields): Option<Metadata> {
    match NewLoginUrls(web, EntriesOf(f.urlEntries, f.urls))
    case None => None
    case Some(urls) =>
      Some(Metadata(f.name, f.username, f.service, f.environment, urls, f.tags, TrimSpace(f.projectId), f.customKeys,
          0, 0))
  }

  lemma {:induction false} NewLoginUrlsParse(web: Web, es: seq<UrlEntry>)
    ensures NewLoginUrls(web, es).Some? ==> WellParsed(web, NewLoginUrls(web, es).value)
  {
    if es != [] { NewLoginUrlsParse(web, es[..|es| - 1]); }
  }

  // ---- What a request or a document says ---------------------------------------------------------------------------

  /** One URL per text, in order, with the parse of that text and the given flag. */
  ghost predicate UrlsFrom(web: Web, urls: seq<LoginUrl>, urlEntries: Option<seq<UrlEntry>>, plain: seq<string>) {
    match urlEntries
    case None =>
      && |urls| == |plain|
      && forall i | 0 <= i < |urls| ::
           urls[i].raw == plain[i] && web.parse(plain[i]) == Some(urls[i].origin) && !urls[i].allowSubdomains
    case Some(es) =>
      && |urls| == |es|
      && forall i | 0 <= i < |urls| ::
           && urls[i].raw == es[i].url && web.parse(es[i].url) == Some(urls[i].origin)
           && urls[i].allowSubdomains == es[i].sub
  }

  lemma {:induction false} UrlsInOrder(web: Web, es: seq<UrlEntry>)
    ensures NewLoginUrls(web, es).Some? <==> forall e | e in es :: web.parse(e.url).Some?
    ensures NewLoginUrls(web, es).Some? ==>
      var urls := NewLoginUrls(web, es).value;
      && |urls| == |es|
      && forall i | 0 <= i < |urls| ::
           && urls[i].raw == es[i].url && web.parse(es[i].url) == Some(urls[i].origin)
           && urls[i].allowSubdomains == es[i].sub
  {
    if es != [] {
      var n := |es| - 1;
      UrlsInOrder(web, es[..n]);
      assert es == es[..n] + [es[n]];
    }
  }

  lemma EntriesSay(web: Web, urlEntries: Option<seq<UrlEntry>>, plain: seq<string>)
    ensures var urls := NewLoginUrls(web, EntriesOf(urlEntries, plain));
            urls.Some? ==> UrlsFrom(web, urls.value, urlEntries, plain)
  {
    UrlsInOrder(web, EntriesOf(urlEntries, plain));
  }

  /** Metadata that says what a request says. */
  ghost predicate Submitted(web: Web, m: Metadata, f: Fields) {
    && m.name == f.name && m.username == f.username && m.service == f.service && m.environment == f.environment
    && m.tags == f.tags && m.customKeys == f.customKeys && Trimmed(f.projectId, m.projectId)
    && UrlsFrom(web, m.urls, f.urlEntries, f.urls)
  }

  /** Every submitted URL parses. */
  ghost predicate UrlsParse(web: Web, urlEntries: Option<seq<UrlEntry>>, plain: seq<string>) {
    match urlEntries
    case None => forall t | t in plain :: web.parse(t).Some?
    case Some(es) => forall e | e in es :: web.parse(e.url).Some?
  }

  lemma EntriesParse(web: Web, urlEntries: Option<seq<UrlEntry>>, plain: seq<string>)
    ensures NewLoginUrls(web, EntriesOf(urlEntries, plain)).Some? <==> UrlsParse(web, urlEntries, plain)
  {
    var es := EntriesOf(urlEntries, plain);
    UrlsInOrder(web, es);
    if urlEntries.None? {
      forall i | 0 <= i < |plain| ensures plain[i] == es[i].url && es[i] in es {
      }
      assert forall e | e in es :: e.url in plain;
    }
  }

  /** A request is taken exactly when its URLs parse, and then for what it says. */
  lemma FieldsAreSubmitted(web: Web, f: Fields)
    ensures FieldsToMetadata(web, f).Some? <==> UrlsParse(web, f.urlEntries, f.urls)
    ensures FieldsToMetadata(web, f).Some? ==> Submitted(web, FieldsToMetadata(web, f).value, f)
  {
    EntriesParse(web, f.urlEntries, f.urls);
    EntriesSay(web, f.urlEntries, f.urls);
    TrimSpaceTrims(f.projectId);
  }

  /** A stored document decodes to what it says; the URLs of a legacy document cover their own host alone. */
  lemma DecodedSays(web: Web, d: MetadataDto)
    ensures DecodeMetadata(web, [Whole(MetadataDoc(d))]).Some? <==> UrlsParse(web, d.urlEntries, d.urls)
    ensures var r := DecodeMetadata(web, [Whole(MetadataDoc(d))]);
            r.Some? ==>
              var (kind, m) := r.value;
              && kind == d.kind && m.name == d.name && m.username == d.username && m.service == d.service
              && m.environment == d.environment && m.tags == d.tags && m.projectId == d.projectId
              && m.customKeys == d.customKeys && m.createdAt == d.createdAtMs * MILLI
              && m.updatedAt == d.updatedAtMs * MILLI && UrlsFrom(web, m.urls, d.urlEntries, d.urls)
  {
    EntriesParse(web, d.urlEntries, d.urls);
    EntriesSay(web, d.urlEntries, d.urls);
  }
}
