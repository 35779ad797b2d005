/** internal/catalog/catalog.go: the keyed root over all rows, its byte stream, and the stored anchor. */
module Catalog {
  import opened Endian
  import opened Octets
  import opened Tables

  // ---- Rows in primary-key order --------------------------------------------------------------

  lemma LeastExists(s: set<Id>) returns (m: Id)
    requires s != {}
    ensures m in s && forall k | k in s :: m <= k
  {
    m :| m in s;
    if s != {m} {
      var n := LeastExists(s - {m});
      assert forall k | k in s :: k == m || k in s - {m};
      if n < m { m := n; }
    }
  }

  function Least(s: set<Id>): (m: Id)
    requires s != {}
    ensures m in s && forall k | k in s :: m <= k
  {
    assert exists m :: m in s && forall k | k in s :: m <= k by { var m := LeastExists(s); }
    var m :| m in s && forall k | k in s :: m <= k;
    m
  }

  ghost predicate Ascending(ids: seq<Id>) {
    forall i, j | 0 <= i < j < |ids| :: ids[i] < ids[j]
  }

  /** ORDER BY the key column. */
  function InOrder(s: set<Id>): (ids: seq<Id>)
    ensures |ids| == |s|
    ensures forall k :: k in ids <==> k in s
    ensures Ascending(ids)
  {
    if s == {} then [] else
      var m := Least(s);
      [m] + InOrder(s - {m})
  }

  ghost predicate Lists(ids: seq<Id>, s: set<Id>) {
    Ascending(ids) && forall k :: k in ids <==> k in s
  }

  lemma ListingHead(ids: seq<Id>, s: set<Id>)
    requires Lists(ids, s) && ids != []
    ensures s != {} && ids[0] == Least(s)
  {
    assert ids[0] in ids;
    var i :| 0 <= i < |ids| && ids[i] == Least(s);
  }

  lemma ListingTail(ids: seq<Id>, s: set<Id>)
    requires Lists(ids, s) && ids != []
    ensures Lists(ids[1..], s - {ids[0]})
  {
    assert ids == [ids[0]] + ids[1..];
  }

  /** There is one ascending listing of a set, however its rows were inserted or visited. */
  lemma {:induction false} OneAscendingListing(ids: seq<Id>, s: set<Id>)
    requires Lists(ids, s)
    ensures ids == InOrder(s)
    decreases |ids|
  {
    if ids == [] {
      assert s == {};
    } else {
      ListingHead(ids, s);
      var m, tail := Least(s), ids[1..];
      assert ids == [m] + tail;
      assert Lists(tail, s - {m}) by { ListingTail(ids, s); }
      OneAscendingListing(tail, s - {m});
      assert InOrder(s) == [m] + InOrder(s - {m});
    }
  }

  // ---- The rows the root covers -----------------------------------------------------------------

  datatype RecordForRoot = RecordForRoot(
    id: Id, revision: U64, keyVersion: U64, payloadVersion: U64, metaCt: Blob, secretCt: Blob)

  datatype ClientForRoot = ClientForRoot(id: Id, status: U64, mask: U64, credential: Blob, staticKey: Blob)

  datatype EnvelopeForRoot = EnvelopeForRoot(
    wrapped: Blob, salt: Blob, memory: U64, iterations: U64, parallelism: U64)

  function OfRecord(id: Id, r: RecordRow): RecordForRoot {
    RecordForRoot(id, r.revision, r.keyVersion, r.payloadVersion, r.metaCt, r.secretCt)
  }

  function OfClient(id: Id, c: ClientRow): ClientForRoot {
    ClientForRoot(id, c.status, c.mask, c.credential, c.staticKey)
  }

  function OfEnvelope(e: EnvelopeRow): EnvelopeForRoot {
    EnvelopeForRoot(e.wrapped, e.salt, e.memory, e.iterations, e.parallelism)
  }

  /** SELECT ... ORDER BY the key: the rows of a table in ascending key order. */
  function Rows<R>(table: map<Id, R>): (rows: seq<R>)
    ensures |rows| == |table|
  {
    var ids := InOrder(table.Keys);
    seq(|ids|, i requires 0 <= i < |ids| => assert ids[i] in ids; table[ids[i]])
  }

  /** Rows that carry their key determine the table they were listed from. */
  lemma RowsDetermineTable<R>(a: map<Id, R>, b: map<Id, R>, key: R -> Id)
    requires forall id | id in a :: key(a[id]) == id
    requires forall id | id in b :: key(b[id]) == id
    requires Rows(a) == Rows(b)
    ensures a == b
  {
    hide Rows;
    RowsContained(a, b, key);
    RowsContained(b, a, key);
  }

  lemma RowsContained<R>(a: map<Id, R>, b: map<Id, R>, key: R -> Id)
    requires forall id | id in a :: key(a[id]) == id
    requires forall id | id in b :: key(b[id]) == id
    requires Rows(a) == Rows(b)
    ensures forall id | id in a :: id in b && b[id] == a[id]
  {
    forall id | id in a ensures id in b && b[id] == a[id] {
      var ids := InOrder(a.Keys);
      assert id in ids;
      var i :| 0 <= i < |ids| && ids[i] == id;
      var other := InOrder(b.Keys)[i];
      assert other in b.Keys;
      assert Rows(a)[i] == a[id] && Rows(b)[i] == b[other];
    }
  }

  function RecordsForRoot(records: map<Id, RecordRow>): map<Id, RecordForRoot> {
    map id | id in records :: OfRecord(id, records[id])
  }

  function ClientsForRoot(clients: map<Id, ClientRow>): map<Id, ClientForRoot> {
    map id | id in clients :: OfClient(id, clients[id])
  }

  /** What a database commits to: exactly the columns an edit of which must not go unnoticed. */
  datatype Covered = Covered(
    records: map<Id, RecordForRoot>, clients: map<Id, ClientForRoot>, envelope: Option<EnvelopeForRoot>)

  function CoveredBy(db: Database, version: U32): Covered {
    Covered(RecordsForRoot(db.records), ClientsForRoot(db.clients),
            if version in db.envelopes then Some(OfEnvelope(db.envelopes[version])) else None)
  }

  /** Column by column, on the rows of the tables: what two databases agree on when neither was edited. */
  ghost predicate SameColumns(a: Database, b: Database, version: U32) {
    && a.records.Keys == b.records.Keys
    && (forall id | id in a.records && id in b.records ::
          && a.records[id].revision == b.records[id].revision && a.records[id].keyVersion == b.records[id].keyVersion
          && a.records[id].payloadVersion == b.records[id].payloadVersion
          && a.records[id].metaCt == b.records[id].metaCt && a.records[id].secretCt == b.records[id].secretCt)
    && a.clients.Keys == b.clients.Keys
    && (forall id | id in a.clients && id in b.clients ::
          && a.clients[id].status == b.clients[id].status && a.clients[id].mask == b.clients[id].mask
          && a.clients[id].credential == b.clients[id].credential
          && a.clients[id].staticKey == b.clients[id].staticKey)
    && (version in a.envelopes <==> version in b.envelopes)
    && (version in a.envelopes && version in b.envelopes ==>
          var e, f := a.envelopes[version], b.envelopes[version];
          && e.wrapped == f.wrapped && e.salt == f.salt && e.memory == f.memory && e.iterations == f.iterations
          && e.parallelism == f.parallelism)
  }

  lemma RecordsAgree(a: map<Id, RecordRow>, b: map<Id, RecordRow>)
    ensures RecordsForRoot(a) == RecordsForRoot(b) <==>
            && a.Keys == b.Keys
            && forall id | id in a && id in b ::
                 && a[id].revision == b[id].revision && a[id].keyVersion == b[id].keyVersion
                 && a[id].payloadVersion == b[id].payloadVersion && a[id].metaCt == b[id].metaCt
                 && a[id].secretCt == b[id].secretCt
  {
    var x, y := RecordsForRoot(a), RecordsForRoot(b);
    assert x.Keys == a.Keys && y.Keys == b.Keys;
    if x == y {
      forall id | id in a && id in b ensures OfRecord(id, a[id]) == OfRecord(id, b[id]) {
        assert x[id] == y[id];
      }
    }
  }

  lemma ClientsAgree(a: map<Id, ClientRow>, b: map<Id, ClientRow>)
    ensures ClientsForRoot(a) == ClientsForRoot(b) <==>
            && a.Keys == b.Keys
            && forall id | id in a && id in b ::
                 && a[id].status == b[id].status && a[id].mask == b[id].mask && a[id].credential == b[id].credential
                 && a[id].staticKey == b[id].staticKey
  {
    var x, y := ClientsForRoot(a), ClientsForRoot(b);
    assert x.Keys == a.Keys && y.Keys == b.Keys;
    if x == y {
      forall id | id in a && id in b ensures OfClient(id, a[id]) == OfClient(id, b[id]) {
        assert x[id] == y[id];
      }
    }
  }

  /** The root covers exactly those columns. */
  lemma RootCoversTheColumns(a: Database, b: Database, version: U32)
    ensures CoveredBy(a, version) == CoveredBy(b, version) <==> SameColumns(a, b, version)
  {
    RecordsAgree(a.records, b.records);
    ClientsAgree(a.clients, b.clients);
  }

  lemma FitsByTables(db: Database, version: U32)
    ensures Fits(CoveredBy(db, version)) <==> |db.records| <= MAX_INT64 && |db.clients| <= MAX_INT64
  {
    assert RecordsForRoot(db.records).Keys == db.records.Keys && ClientsForRoot(db.clients).Keys == db.clients.Keys;
    assert |RecordsForRoot(db.records)| == |RecordsForRoot(db.records).Keys| == |db.records.Keys| == |db.records|;
    assert |ClientsForRoot(db.clients)| == |ClientsForRoot(db.clients).Keys| == |db.clients.Keys| == |db.clients|;
  }

  // ---- The byte stream ------------------------------------------------------------------------

  const DOMAIN_TAG := "github.com/m7medVision/albear/v1/catalog-root"

  function U64Octets(n: nat): (r: Bytes) ensures |r| == 8 { Raws(BigEndian(n, 8)) }
  function IdOctets(id: Id): (r: Bytes) ensures |r| == 16 { Raws(BigEndian(id, 16)) }
  function Framed(b: Bytes): (r: Bytes) ensures |r| == 8 + |b| { U64Octets(|b|) + b }

  /** Each item is written in front of what follows it. */
  function RecordItem(r: RecordForRoot, rest: Bytes): Bytes {
    Framed(IdOctets(r.id)) + (U64Octets(r.revision) + (U64Octets(r.keyVersion) + (U64Octets(r.payloadVersion)
    + (Sha256(r.metaCt) + (Sha256(r.secretCt) + rest)))))
  }

  function ClientItem(c: ClientForRoot, rest: Bytes): Bytes {
    Framed(IdOctets(c.id)) + (U64Octets(c.status) + (U64Octets(c.mask) + (Framed(c.credential)
    + (Sha256(c.staticKey) + rest))))
  }

  function EnvelopeBody(e: EnvelopeForRoot): Bytes {
    Framed(e.wrapped) + (Framed(e.salt)
    + (U64Octets(e.memory) + (U64Octets(e.iterations) + (U64Octets(e.parallelism) + []))))
  }

  function RecordItems(rs: seq<RecordForRoot>, rest: Bytes): Bytes {
    if rs == [] then rest else RecordItem(rs[0], RecordItems(rs[1..], rest))
  }

  function ClientItems(cs: seq<ClientForRoot>, rest: Bytes): Bytes {
    if cs == [] then rest else ClientItem(cs[0], ClientItems(cs[1..], rest))
  }

  function TableOctets(rs: seq<RecordForRoot>, cs: seq<ClientForRoot>, e: EnvelopeForRoot): Bytes {
    U64Octets(|rs|) + RecordItems(rs, ClientTable(cs, e))
  }

  function ClientTable(cs: seq<ClientForRoot>, e: EnvelopeForRoot): Bytes {
    U64Octets(|cs|) + ClientItems(cs, Framed(Sha256(EnvelopeBody(e))))
  }

  function Stream(vaultId: Id, version: U32, counter: U64,
                  rs: seq<RecordForRoot>, cs: seq<ClientForRoot>, e: EnvelopeForRoot): Bytes
  {
    Text(DOMAIN_TAG)
    + (Framed(IdOctets(vaultId)) + (U64Octets(version) + (U64Octets(counter) + TableOctets(rs, cs, e))))
  }

  /** What is keyed begins with its own tag, so nothing else keyed alike can be taken for a root. */
  lemma StreamIsTagged(v: Id, n: U32, c: U64, rs: seq<RecordForRoot>, cs: seq<ClientForRoot>, e: EnvelopeForRoot)
    ensures Stream(v, n, c, rs, cs, e) != []
    ensures Stream(v, n, c, rs, cs, e)[0] == Whole(TextDoc("github.com/m7medVision/albear/v1/catalog-root"))
  {
  }

  // ---- Unique parsing: equal streams have equal parts -------------------------------------------

  lemma U64Code(m: nat, n: nat, t: Bytes, u: Bytes)
    requires m < Pow256(8) && n < Pow256(8)
    requires U64Octets(m) + t == U64Octets(n) + u
    ensures m == n && t == u
  {
    Cut(U64Octets(m), U64Octets(n), t, u);
    RawsInjective(BigEndian(m, 8), BigEndian(n, 8));
    BigEndianRoundTrip(m, 8);
    BigEndianRoundTrip(n, 8);
  }

  lemma FramedNests(a: Bytes, t: Bytes)
    ensures Framed(a) + t == U64Octets(|a|) + (a + t)
  {
    hide U64Octets;
  }

  lemma FramedCode(a: Bytes, b: Bytes, t: Bytes, u: Bytes)
    requires |a| < Pow256(8) && |b| < Pow256(8)
    requires Framed(a) + t == Framed(b) + u
    ensures a == b && t == u
  {
    hide U64Octets, Pow256;
    FramedNests(a, t);
    FramedNests(b, u);
    U64Code(|a|, |b|, a + t, b + u);
    Cut(a, b, t, u);
  }

  lemma IdCode(a: Id, b: Id, t: Bytes, u: Bytes)
    requires Framed(IdOctets(a)) + t == Framed(IdOctets(b)) + u
    ensures a == b && t == u
  {
    Widths();
    FramedCode(IdOctets(a), IdOctets(b), t, u);
    RawsInjective(BigEndian(a, 16), BigEndian(b, 16));
    BigEndianRoundTrip(a, 16);
    BigEndianRoundTrip(b, 16);
  }

  lemma DigestCode(a: Bytes, b: Bytes, t: Bytes, u: Bytes)
    requires Sha256(a) + t == Sha256(b) + u
    ensures a == b && t == u
  {
    Cut(Sha256(a), Sha256(b), t, u);
    Sha256Injective(a, b);
  }

  lemma RecordItemCode(a: RecordForRoot, b: RecordForRoot, t: Bytes, u: Bytes)
    requires RecordItem(a, t) == RecordItem(b, u)
    ensures a == b && t == u
  {
    Widths();
    var a6, b6 := Sha256(a.secretCt) + t, Sha256(b.secretCt) + u;
    var a5, b5 := Sha256(a.metaCt) + a6, Sha256(b.metaCt) + b6;
    var a4, b4 := U64Octets(a.payloadVersion) + a5, U64Octets(b.payloadVersion) + b5;
    var a3, b3 := U64Octets(a.keyVersion) + a4, U64Octets(b.keyVersion) + b4;
    IdCode(a.id, b.id, U64Octets(a.revision) + a3, U64Octets(b.revision) + b3);
    U64Code(a.revision, b.revision, a3, b3);
    U64Code(a.keyVersion, b.keyVersion, a4, b4);
    U64Code(a.payloadVersion, b.payloadVersion, a5, b5);
    DigestCode(a.metaCt, b.metaCt, a6, b6);
    DigestCode(a.secretCt, b.secretCt, t, u);
  }

  lemma ClientItemCode(a: ClientForRoot, b: ClientForRoot, t: Bytes, u: Bytes)
    requires ClientItem(a, t) == ClientItem(b, u)
    ensures a == b && t == u
  {
    Widths();
    var a5, b5 := Sha256(a.staticKey) + t, Sha256(b.staticKey) + u;
    var a4, b4 := Framed(a.credential) + a5, Framed(b.credential) + b5;
    var a3, b3 := U64Octets(a.mask) + a4, U64Octets(b.mask) + b4;
    IdCode(a.id, b.id, U64Octets(a.status) + a3, U64Octets(b.status) + b3);
    U64Code(a.status, b.status, a3, b3);
    U64Code(a.mask, b.mask, a4, b4);
    FramedCode(a.credential, b.credential, a5, b5);
    DigestCode(a.staticKey, b.staticKey, t, u);
  }

  lemma {:induction false} RecordItemsCode(a: seq<RecordForRoot>, b: seq<RecordForRoot>, t: Bytes, u: Bytes)
    requires |a| == |b| && RecordItems(a, t) == RecordItems(b, u)
    ensures a == b && t == u
    decreases |a|
  {
    if a != [] {
      RecordItemCode(a[0], b[0], RecordItems(a[1..], t), RecordItems(b[1..], u));
      RecordItemsCode(a[1..], b[1..], t, u);
      assert a == [a[0]] + a[1..] && b == [b[0]] + b[1..];
    }
  }

  lemma {:induction false} ClientItemsCode(a: seq<ClientForRoot>, b: seq<ClientForRoot>, t: Bytes, u: Bytes)
    requires |a| == |b| && ClientItems(a, t) == ClientItems(b, u)
    ensures a == b && t == u
    decreases |a|
  {
    if a != [] {
      ClientItemCode(a[0], b[0], ClientItems(a[1..], t), ClientItems(b[1..], u));
      ClientItemsCode(a[1..], b[1..], t, u);
      assert a == [a[0]] + a[1..] && b == [b[0]] + b[1..];
    }
  }

  lemma EnvelopeBodyCode(a: EnvelopeForRoot, b: EnvelopeForRoot)
    requires EnvelopeBody(a) == EnvelopeBody(b)
    ensures a == b
  {
    Widths();
    var a4, b4 := U64Octets(a.parallelism) + [], U64Octets(b.parallelism) + [];
    var a3, b3 := U64Octets(a.iterations) + a4, U64Octets(b.iterations) + b4;
    var a2, b2 := U64Octets(a.memory) + a3, U64Octets(b.memory) + b3;
    FramedCode(a.wrapped, b.wrapped, Framed(a.salt) + a2, Framed(b.salt) + b2);
    FramedCode(a.salt, b.salt, a2, b2);
    U64Code(a.memory, b.memory, a3, b3);
    U64Code(a.iterations, b.iterations, a4, b4);
    U64Code(a.parallelism, b.parallelism, [], []);
  }

  lemma TablesCode(
    rs: seq<RecordForRoot>, cs: seq<ClientForRoot>, e: EnvelopeForRoot,
    rs': seq<RecordForRoot>, cs': seq<ClientForRoot>, e': EnvelopeForRoot)
    requires |rs| <= MAX_INT64 && |cs| <= MAX_INT64 && |rs'| <= MAX_INT64 && |cs'| <= MAX_INT64
    requires TableOctets(rs, cs, e) == TableOctets(rs', cs', e')
    ensures rs == rs' && cs == cs' && e == e'
  {
    Widths();
    U64Code(|rs|, |rs'|, RecordItems(rs, ClientTable(cs, e)), RecordItems(rs', ClientTable(cs', e')));
    RecordItemsCode(rs, rs', ClientTable(cs, e), ClientTable(cs', e'));
    var d, d' := Sha256(EnvelopeBody(e)), Sha256(EnvelopeBody(e'));
    U64Code(|cs|, |cs'|, ClientItems(cs, Framed(d)), ClientItems(cs', Framed(d')));
    ClientItemsCode(cs, cs', Framed(d), Framed(d'));
    Cut(U64Octets(32), U64Octets(32), d, d');
    Sha256Injective(EnvelopeBody(e), EnvelopeBody(e'));
    EnvelopeBodyCode(e, e');
  }

  /** The stream is uniquely parseable: every input of the root can be read back from it. */
  lemma StreamInjective(
    v: Id, n: U32, c: U64, rs: seq<RecordForRoot>, cs: seq<ClientForRoot>, e: EnvelopeForRoot,
    v': Id, n': U32, c': U64, rs': seq<RecordForRoot>, cs': seq<ClientForRoot>, e': EnvelopeForRoot)
    requires |rs| <= MAX_INT64 && |cs| <= MAX_INT64 && |rs'| <= MAX_INT64 && |cs'| <= MAX_INT64
    requires Stream(v, n, c, rs, cs, e) == Stream(v', n', c', rs', cs', e')
    ensures v == v' && n == n' && c == c' && rs == rs' && cs == cs' && e == e'
  {
    Widths();
    var a3, b3 := U64Octets(c) + TableOctets(rs, cs, e), U64Octets(c') + TableOctets(rs', cs', e');
    var a2, b2 := U64Octets(n) + a3, U64Octets(n') + b3;
    Cut(Text(DOMAIN_TAG), Text(DOMAIN_TAG), Framed(IdOctets(v)) + a2, Framed(IdOctets(v')) + b2);
    IdCode(v, v', a2, b2);
    U64Code(n, n', a3, b3);
    U64Code(c, c', TableOctets(rs, cs, e), TableOctets(rs', cs', e'));
    TablesCode(rs, cs, e, rs', cs', e');
  }

  // ---- The root, the stamp and the check ----------------------------------------------------------

  /** len() of both tables is an int. */
  ghost predicate Fits(c: Covered) {
    |c.records| <= MAX_INT64 && |c.clients| <= MAX_INT64
  }

  ghost predicate WellKeyed(c: Covered) {
    (forall id | id in c.records :: c.records[id].id == id) && (forall id | id in c.clients :: c.clients[id].id == id)
  }

  /** None when the active envelope row is missing. */
  function StreamOf(vaultId: Id, version: U32, counter: U64, c: Covered): Option<Bytes> {
    if c.envelope.None? then None
    else Some(Stream(vaultId, version, counter, Rows(c.records), Rows(c.clients), c.envelope.value))
  }

  function RootOf(key: Bytes, vaultId: Id, version: U32, counter: U64, c: Covered): (r: Option<Bytes>)
    ensures r.Some? ==> |r.value| == 32
  {
    var stream := StreamOf(vaultId, version, counter, c);
    if stream.None? then None else Some(HmacSha256(key, stream.value))
  }

  /** Two roots agree exactly when the key and everything folded in agree. */
  lemma RootBindsEverything(
    k: Bytes, v: Id, n: U32, c: U64, x: Covered, k': Bytes, v': Id, n': U32, c': U64, x': Covered)
    requires Fits(x) && Fits(x') && WellKeyed(x) && WellKeyed(x')
    requires x.envelope.Some? && x'.envelope.Some?
    ensures RootOf(k, v, n, c, x) == RootOf(k', v', n', c', x') <==>
            k == k' && v == v' && n == n' && c == c' && x == x'
  {
    if RootOf(k, v, n, c, x) == RootOf(k', v', n', c', x') {
      HmacInjective(k, StreamOf(v, n, c, x).value, k', StreamOf(v', n', c', x').value);
      StreamInjective(v, n, c, Rows(x.records), Rows(x.clients), x.envelope.value,
                      v', n', c', Rows(x'.records), Rows(x'.clients), x'.envelope.value);
      RowsDetermineTable(x.records, x'.records, (r: RecordForRoot) => r.id);
      RowsDetermineTable(x.clients, x'.clients, (r: ClientForRoot) => r.id);
    }
  }

  lemma RecordItemAppends(mac: Bytes, r: RecordForRoot, rest: Bytes)
    ensures mac + RecordItem(r, rest) == (mac + RecordItem(r, [])) + rest
  {
    hide Framed, U64Octets, IdOctets, Sha256;
    var a, b := Framed(IdOctets(r.id)) + U64Octets(r.revision), U64Octets(r.keyVersion) + U64Octets(r.payloadVersion);
    var c := Sha256(r.metaCt) + Sha256(r.secretCt);
    assert RecordItem(r, rest) == a + b + c + rest && RecordItem(r, []) == a + b + c;
  }

  lemma ClientItemAppends(mac: Bytes, c: ClientForRoot, rest: Bytes)
    ensures mac + ClientItem(c, rest) == (mac + ClientItem(c, [])) + rest
  {
    hide Framed, U64Octets, IdOctets, Sha256;
    var a, b := Framed(IdOctets(c.id)) + U64Octets(c.status), U64Octets(c.mask) + Framed(c.credential);
    var d := Sha256(c.staticKey);
    assert ClientItem(c, rest) == a + b + d + rest && ClientItem(c, []) == a + b + d;
  }

  method WriteRecords(mac: Bytes, rows: seq<RecordForRoot>, ghost rest: Bytes) returns (out: Bytes)
    ensures out + rest == mac + RecordItems(rows, rest)
  {
    out := mac;
    for i := 0 to |rows|
      invariant out + RecordItems(rows[i..], rest) == mac + RecordItems(rows, rest)
    {
      assert rows[i..][1..] == rows[i + 1..];
      RecordItemAppends(out, rows[i], RecordItems(rows[i + 1..], rest));
      out := out + RecordItem(rows[i], []);
    }
  }

  method WriteClients(mac: Bytes, rows: seq<ClientForRoot>, ghost rest: Bytes) returns (out: Bytes)
    ensures out + rest == mac + ClientItems(rows, rest)
  {
    out := mac;
    for i := 0 to |rows|
      invariant out + ClientItems(rows[i..], rest) == mac + ClientItems(rows, rest)
    {
      assert rows[i..][1..] == rows[i + 1..];
      ClientItemAppends(out, rows[i], ClientItems(rows[i + 1..], rest));
      out := out + ClientItem(rows[i], []);
    }
  }

  /** Feeds the MAC row by row; the last failure point is the envelope row, read after both tables. */
  method Root(db: Database, key: Bytes, vaultId: Id, version: U32, counter: U64) returns (root: Option<Bytes>)
    ensures root == RootOf(key, vaultId, version, counter, CoveredBy(db, version))
  {
    var records, clients := Rows(RecordsForRoot(db.records)), Rows(ClientsForRoot(db.clients));
    ghost var last :=
      if version in db.envelopes then Framed(Sha256(EnvelopeBody(OfEnvelope(db.envelopes[version])))) else [];
    ghost var middle := U64Octets(|clients|) + ClientItems(clients, last);

    var header := Text(DOMAIN_TAG) + Framed(IdOctets(vaultId)) + U64Octets(version) + U64Octets(counter);
    var started := header + U64Octets(|records|);
    var mac := WriteRecords(started, records, middle);
    var between := mac + U64Octets(|clients|);
    var out := WriteClients(between, clients, last);
    if version !in db.envelopes { return None; }
    Chain(header, U64Octets(|records|), RecordItems(records, middle), mac,
          U64Octets(|clients|), ClientItems(clients, last), out + last);
    HeaderNests(vaultId, version, counter, U64Octets(|records|) + RecordItems(records, middle));
    return Some(HmacSha256(key, out + Framed(Sha256(EnvelopeBody(OfEnvelope(db.envelopes[version]))))));
  }

  lemma Chain(header: Bytes, n: Bytes, items: Bytes, mac: Bytes, n': Bytes, items': Bytes, end: Bytes)
    requires mac + (n' + items') == (header + n) + items
    requires end == (mac + n') + items'
    ensures end == header + (n + items)
  {
    assert (mac + n') + items' == mac + (n' + items');
    assert (header + n) + items == header + (n + items);
  }

  lemma HeaderNests(vaultId: Id, version: U32, counter: U64, rest: Bytes)
    ensures Text(DOMAIN_TAG) + Framed(IdOctets(vaultId)) + U64Octets(version) + U64Octets(counter) + rest
         == Text(DOMAIN_TAG) + (Framed(IdOctets(vaultId)) + (U64Octets(version) + (U64Octets(counter) + rest)))
  {
  }

  function NextCounter(anchor: Option<Anchor>): U64 {
    match anchor
    case None => 1
    case Some(a) => (a.counter + 1) % WORD
  }

  /** The stamped database and the counter it carries; None when the transaction has to fail. */
  function StampOf(db: Database, key: Bytes, vaultId: Id, version: U32): Option<(Database, U64)> {
    var next := NextCounter(db.anchor);
    match RootOf(key, vaultId, version, next, CoveredBy(db, version))
    case None => None
    case Some(root) =>
      match UpsertVaultState(db, Anchor(next, root))
      case None => None
      case Some(stamped) => Some((stamped, next))
  }

  method Stamp(db: Database, key: Bytes, vaultId: Id, version: U32) returns (r: Option<(Database, U64)>)
    ensures r == StampOf(db, key, vaultId, version)
  {
    var next: U64 := 1;
    if db.anchor.Some? {
      next := (db.anchor.value.counter + 1) % WORD;
    }
    var root := Root(db, key, vaultId, version, next);
    if root.None? { return None; }
    var stamped := UpsertVaultState(db, Anchor(next, root.value));
    if stamped.None? { return None; }
    return Some((stamped.value, next));
  }

  datatype Verdict = NoState | Unreadable | Checked(counter: U64, ok: bool)

  function VerdictOn(db: Database, key: Bytes, vaultId: Id, version: U32): Verdict {
    match db.anchor
    case None => NoState
    case Some(a) =>
      match RootOf(key, vaultId, version, a.counter, CoveredBy(db, version))
      case None => Unreadable
      case Some(want) => Checked(a.counter, want == a.root)
  }

  method Verify(db: Database, key: Bytes, vaultId: Id, version: U32) returns (v: Verdict)
    ensures v == VerdictOn(db, key, vaultId, version)
  {
    if db.anchor.None? { return NoState; }
    var want := Root(db, key, vaultId, version, db.anchor.value.counter);
    if want.None? { return Unreadable; }
    return Checked(db.anchor.value.counter, want.value == db.anchor.value.root);
  }

  /** A stamp adopts whatever rows are present: they verify afterwards, one counter later. */
  lemma StampVerifies(db: Database, key: Bytes, vaultId: Id, version: U32)
    requires StampOf(db, key, vaultId, version).Some?
    ensures var (stamped, counter) := StampOf(db, key, vaultId, version).value;
            VerdictOn(stamped, key, vaultId, version) == Checked(counter, true)
            && counter == NextCounter(db.anchor) && counter <= MAX_INT64
            && stamped == db.(anchor := stamped.anchor)
  {
  }

  /** A stamp fails only without the envelope row or once the counter column is full. */
  lemma StampFailsExactly(db: Database, key: Bytes, vaultId: Id, version: U32)
    ensures StampOf(db, key, vaultId, version).None? <==>
            version !in db.envelopes || NextCounter(db.anchor) > MAX_INT64
  {
  }
}
