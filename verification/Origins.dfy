/** internal/records/domain/url.go and record.go: origins, stored URLs and what they cover. */
module Origins {
  import opened Octets
  import opened Strings

  datatype Origin = Origin(scheme: string, host: string, port: string)

  /** URL parsing, the public-suffix list and IP parsing: foreign code, known only as functions. */
  datatype Web = Web(parse: string -> Option<Origin>, suffix: string -> string, loopbackIp: string -> bool) {
    function RegistrableDomain(o: Origin): string { suffix(o.host) }

    predicate IsLoopback(o: Origin) { o.host == "localhost" || loopbackIp(o.host) }
  }

  predicate IsSecure(o: Origin) { o.scheme == "https" }

  predicate IsUnder(host: string, apex: string) { host == apex || HasSuffix(host, "." + apex) }

  /**
   What is assumed of the public-suffix list, where it is assumed: a host is at or under its registrable domain, and
   every host from there down to it has that same registrable domain.
   */
  ghost predicate SuffixLaw(web: Web) {
    && (forall h :: IsUnder(h, web.suffix(h)))
    && (forall h, s :: IsUnder(h, s) && IsUnder(s, web.suffix(h)) ==> web.suffix(s) == web.suffix(h))
  }

  /** Two hosts above the same host are one above the other. */
  lemma ParentsCompare(host: string, a: string, b: string)
    requires IsUnder(host, a) && IsUnder(host, b)
    ensures IsUnder(a, b) || IsUnder(b, a)
    ensures IsUnder(a, b) && IsUnder(b, a) ==> a == b
  {
    if host != a && host != b {
      var n := |host|;
      assert a == host[n - |a|..] && b == host[n - |b|..];
      assert ("." + a)[1..] == a && ("." + b)[1..] == b;
      if |a| > |b| {
        assert a[|a| - |b| - 1..] == host[n - |b| - 1..] == "." + b;
      } else if |b| > |a| {
        assert b[|b| - |a| - 1..] == host[n - |a| - 1..] == "." + a;
      }
    }
  }

  predicate MatchesWithPolicy(stored: Origin, page: Origin, allowSubdomains: bool) {
    if !allowSubdomains then stored == page
    else stored.scheme == page.scheme && stored.port == page.port && IsUnder(page.host, stored.host)
  }

  datatype LoginUrl = LoginUrl(raw: string, origin: Origin, allowSubdomains: bool) {
    predicate Matches(page: Origin) { MatchesWithPolicy(origin, page, allowSubdomains) }
  }

  /**
   What a stored URL covers: its own scheme and port, and its own host or, where it allows them, a host that ends in
   a dot and that host.
   */
  ghost predicate Covers(u: LoginUrl, page: Origin) {
    && u.origin.scheme == page.scheme && u.origin.port == page.port
    && (u.origin.host == page.host
        || (u.allowSubdomains && exists sub: string :: page.host == sub + "." + u.origin.host))
  }

  lemma MatchesCovers(u: LoginUrl, page: Origin)
    ensures u.Matches(page) <==> Covers(u, page)
  {
    var apex := "." + u.origin.host;
    if HasSuffix(page.host, apex) {
      var sub := page.host[..|page.host| - |apex|];
      assert page.host == sub + apex;
      assert page.host == sub + "." + u.origin.host;
    }
    if sub: string :| page.host == sub + "." + u.origin.host {
      assert page.host == sub + apex;
      assert page.host[|page.host| - |apex|..] == apex;
    }
  }

  /** Instants are in nanoseconds. */
  datatype Metadata = Metadata(
    name: string, username: string, service: string, environment: string, urls: seq<LoginUrl>,
    tags: seq<string>, projectId: string, customKeys: seq<string>, createdAt: int, updatedAt: int)

  datatype Secret = Secret(
    password: string, notes: string, apiKey: string, apiSecret: string, custom: map<string, string>)

  predicate KnownKind(kind: string) { kind == "login" || kind == "note" || kind == "api" }

  /** Record.Validate; the id check is the zero id, the revision check is revision < 1. */
  predicate ValidRecord(id: nat, kind: string, revision: nat, m: Metadata, s: Secret) {
    && id != 0 && KnownKind(kind) && revision >= 1
    && m.name != ""
    && (kind == "login" ==> s.password != "" || m.username != "" || m.urls != [])
    && (kind == "api" ==> s.apiKey != "" || s.apiSecret != "")
    && forall u | u in m.urls :: u.origin.host != ""
  }

  predicate MatchesOrigin(m: Metadata, page: Origin) {
    exists u | u in m.urls :: u.Matches(page)
  }

  predicate MatchesProjectId(web: Web, m: Metadata, page: Origin, projectId: string) {
    projectId != "" && m.projectId != "" && web.IsLoopback(page) && m.projectId == projectId
  }
}
