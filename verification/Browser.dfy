/** What a paired browser client can obtain and change, over whole runs. */
module Browser {
  import opened Octets
  import opened Tables
  import opened Origins
  import opened RecordIndex
  import opened Codec
  import opened Sessions
  import opened Vault
  import opened Daemon
  import opened History
  import opened NoFalseAlarm
  import opened Runs
  import opened Recovery
  import opened AccessSafety
  import opened Confinement
  import Access
  import Catalog
  import Records

  /** The requests behind the operations of a browser client. */
  predicate BrowserRequest(req: Request) {
    || req.Query? || req.Status? || req.UnlockVault? || req.LockVault? || req.RevealForOrigin?
    || (req.CreateRecord? && req.loginOnly) || (req.UpdateRecord? && req.loginOnly)
  }

  lemma BrowserRequests(req: Request)
    requires BrowserOp(OpOf(req))
    ensures BrowserRequest(req)
  {
  }

  lemma AdmittedBrowser(cfg: Config, w: World, k: nat, req: Request, env: Env)
    requires AccessInv(w) && Possible(w, Incoming(k, req, env)) && w.conns[k].clientId != 0
    ensures Admit(w.core, w.conns[k], OpOf(req), env).2.Ok? ==> BrowserRequest(req)
  {
    hide AccessInv, Admit, BrowserOp, FreshEnv, BrowserRequest;
    assert PossibleRun(cfg, w, []) && Run(cfg, w, []) == w;
    BrowserClientsAreConfined(cfg, w, [], k, OpOf(req), env);
    if BrowserOp(OpOf(req)) { BrowserRequests(req); }
  }

  // ---- Secrets ---------------------------------------------------------------------------------------------------

  ghost predicate Loopback(web: Web, page: Origin) { page.host == "localhost" || web.loopbackIp(page.host) }

  /** Some stored URL covers the page: scheme and port agree, and its host is the page's or, if allowed, above it. */
  ghost predicate CoveredByUrl(m: Metadata, page: Origin) { exists u | u in m.urls :: Covers(u, page) }

  /** A loopback page that presents the record's own project tag, and neither is empty. */
  ghost predicate CoveredByProject(web: Web, m: Metadata, page: Origin, projectId: string) {
    Loopback(web, page) && projectId != "" && m.projectId == projectId
  }

  lemma CoversAlike(web: Web, m: Metadata, page: Origin, projectId: string)
    ensures MatchesOrigin(m, page) <==> CoveredByUrl(m, page)
    ensures MatchesProjectId(web, m, page, projectId) <==> CoveredByProject(web, m, page, projectId)
  {
    forall u | u in m.urls ensures u.Matches(page) <==> Covers(u, page) { MatchesCovers(u, page); }
  }

  /** The page is trusted with the record: https or loopback, and covered by a URL or by the project. */
  ghost predicate Fillable(web: Web, m: Metadata, origin: string, projectId: string) {
    && web.parse(origin).Some?
    && var page := web.parse(origin).value;
    && (page.scheme == "https" || Loopback(web, page))
    && (CoveredByUrl(m, page) || CoveredByProject(web, m, page, projectId))
  }

  /** The constrained reveal is the reveal, for fillable pages alone. */
  lemma RevealedIsFillable(web: Web, s: Records.RecordState, id: Id, origin: string, projectId: string)
    ensures var r := Records.RevealForOrigin(web, s, id, origin, projectId);
            r.Ok? <==>
              && HasKeys(s.vault) && id in s.index.entries && Fillable(web, s.index.entries[id].meta, origin, projectId)
              && Records.Reveal(s, id).Ok?
    ensures var r := Records.RevealForOrigin(web, s, id, origin, projectId);
            r.Ok? ==> Records.Reveal(s, id) == r
  {
    hide Records.Reveal, CoveredByUrl, CoveredByProject, MatchesOrigin, MatchesProjectId;
    if id in s.index.entries && web.parse(origin).Some? {
      CoversAlike(web, s.index.entries[id].meta, web.parse(origin).value, projectId);
    }
  }

  lemma AnswersComeFromReveals(cfg: Config, c: Core, conn: Conn, req: Request, env: Env)
    requires BrowserRequest(req)
    ensures var r := Dispatch(cfg, c, conn, req, env).2;
            && !(r.Ok? && r.value.Secrets?)
            && (r.Ok? && r.value.Filled? ==>
                  req.RevealForOrigin? && r == OpRevealForOrigin(cfg, c, req.id, req.origin, req.projectId))
  {
    hide Records.Create, Records.Update, Records.Reveal, Records.RevealForOrigin, Vault.Unlock,
         Records.LoadIndex, Vault.VerifyCatalog, FieldsToMetadata, Recorded, LockedCore, LoginOnly, LoadVault;
  }

  lemma FillIgnoresInstants(web: Web, m: Metadata, n: Metadata, origin: string, projectId: string)
    requires Stored(m) == Stored(n)
    ensures Fillable(web, m, origin, projectId) == Fillable(web, n, origin, projectId) && m.username == n.username
  {
    assert m.urls == n.urls && m.projectId == n.projectId;
  }

  /**
   A paired client never receives a whole secret. It receives user name and password only for a page that is https or
   loopback and that a committed URL or the committed project tag covers, and then those last committed.
   */
  lemma BrowserSecretsAreForTheirPages(cfg: Config, w: World, es: seq<Event>, k: nat, req: Request, env: Env)
    requires VaultInv(cfg, w) && AccessInv(w) && PossibleRun(cfg, w, es)
             && Possible(Run(cfg, w, es), Incoming(k, req, env))
    requires Run(cfg, w, es).conns[k].clientId != 0
    ensures var end := Run(cfg, w, es);
            var r := Handle(cfg, end.core, end.conns[k], req, env).2;
            && !(r.Ok? && r.value.Secrets?)
            && (r.Ok? && r.value.Filled? ==>
                  && req.RevealForOrigin? && req.id in end.truth.sealings
                  && Fillable(cfg.web, end.truth.sealings[req.id].meta, req.origin, req.projectId)
                  && r.value.username == end.truth.sealings[req.id].meta.username
                  && r.value.password == end.truth.sealings[req.id].secret.password)
  {
    hide AccessInv, CoreOk, BackupOk, PossibleRun, Run, Admit, Dispatch, BrowserRequest, FreshEnv,
         Records.Reveal, Records.RevealForOrigin, Fillable;
    RunKeepsAccess(cfg, w, es);
    RunKeeps(cfg, w, es);
    var end := Run(cfg, w, es);
    AdmittedBrowser(cfg, end, k, req, env);
    AdmitKeeps(cfg.web, end.core, end.conns[k], OpOf(req), env, end.truth);
    var (d, next, admitted) := Admit(end.core, end.conns[k], OpOf(req), env);
    if admitted.Ok? {
      AnswersComeFromReveals(cfg, d, next, req, env);
      if req.RevealForOrigin? { RevealFollowsTheRecord(cfg, d, end.truth, req.id, req.origin, req.projectId); }
    }
  }

  /** The constrained reveal on a vault in order: when it answers with data, and with which. */
  lemma RevealFollowsTheRecord(cfg: Config, c: Core, truth: Truth, id: Id, origin: string, projectId: string)
    requires CoreOk(cfg.web, c, truth)
    ensures var r := OpRevealForOrigin(cfg, c, id, origin, projectId);
            && (r.Ok? <==>
                  && HasKeys(c.vault) && id in c.db.records && id in truth.sealings && !Stale(c.db, truth, id)
                  && Fillable(cfg.web, truth.sealings[id].meta, origin, projectId))
            && (r.Ok? ==> r.value == Filled(truth.sealings[id].meta.username, truth.sealings[id].secret.password))
  {
    hide CoreOk, Records.Reveal, Records.RevealForOrigin, Fillable, Stale;
    RevealedIsFillable(cfg.web, RecordStateOf(c), id, origin, projectId);
    RevealKnown(cfg.web, c, truth, id);
    if HasKeys(c.vault) {
      EntriesAreCommitted(cfg.web, c, truth, id);
      if id in c.db.records {
        FillIgnoresInstants(cfg.web, c.index.entries[id].meta, truth.sealings[id].meta, origin, projectId);
      }
    }
  }

  // ---- Offers ----------------------------------------------------------------------------------------------------

  ghost predicate Offered(out: seq<MatchResult>, id: Id, reason: Reason) {
    exists r | r in out :: r.entry.id == id && r.reason == reason
  }

  lemma OfferIgnoresInstants(web: Web, m: Metadata, n: Metadata, page: Origin, projectId: string)
    requires Stored(m) == Stored(n)
    ensures Offer(web, m, page, projectId) == Offer(web, n, page, projectId)
  {
    assert m.urls == n.urls && m.projectId == n.projectId;
  }

  lemma EntriesAreCommitted(web: Web, c: Core, truth: Truth, id: Id)
    requires CoreOk(web, c, truth) && HasKeys(c.vault)
    ensures Agrees(web, c.index) && c.index.entries.Keys == c.db.records.Keys == truth.sealings.Keys
    ensures id in c.db.records ==>
      c.index.entries[id].id == id && Stored(c.index.entries[id].meta) == Stored(truth.sealings[id].meta)
  {
    hide DbOk, WellParsed, DeriveKeyring;
    if id in c.db.records {
      assert EntryOk(web, c.index.entries[id], c.db.records[id], truth.sealings[id]);
    }
  }

  /** A stored URL has the page's registrable domain. */
  ghost predicate SameDomainUrl(web: Web, m: Metadata, page: Origin) {
    exists u | u in m.urls :: web.suffix(u.origin.host) == web.suffix(page.host)
  }

  lemma OfferMeans(web: Web, m: Metadata, page: Origin, projectId: string)
    ensures Offer(web, m, page, projectId) ==
            if SameDomainUrl(web, m, page) && CoveredByUrl(m, page) then Some(ByOrigin)
            else if CoveredByProject(web, m, page, projectId) then Some(ByProject)
            else None
  {
    hide CoveredByUrl, CoveredByProject, MatchesOrigin, MatchesProjectId;
    CoversAlike(web, m, page, projectId);
    if SharesDomain(web, m, page) {
      var u :| u in m.urls && web.RegistrableDomain(u.origin) == web.RegistrableDomain(page);
      assert web.suffix(u.origin.host) == web.suffix(page.host);
    }
    if SameDomainUrl(web, m, page) {
      var u :| u in m.urls && web.suffix(u.origin.host) == web.suffix(page.host);
      assert web.RegistrableDomain(u.origin) == web.RegistrableDomain(page);
    }
  }

  /**
   After any run an unlocked vault answers a match with exactly these records, each once, in name order: by origin
   those of whose last committed URLs one covers the page and one has its registrable domain, and otherwise, by
   project, those whose last committed tag a loopback page presents.
   */
  lemma MatchFollowsTheRecords(cfg: Config, w: World, es: seq<Event>, page: Origin, projectId: string,
      out: seq<MatchResult>, id: Id, reason: Reason)
    requires VaultInv(cfg, w) && PossibleRun(cfg, w, es) && HasKeys(Run(cfg, w, es).core.vault)
    requires Answers(cfg.web, Run(cfg, w, es).core.index, page, projectId, out)
    ensures var end := Run(cfg, w, es);
            && Agrees(cfg.web, end.core.index) && end.truth.sealings.Keys == end.core.db.records.Keys
            && (Offered(out, id, reason) <==>
                  && id in end.core.db.records
                  && var m := end.truth.sealings[id].meta;
                  && var byOrigin := SameDomainUrl(cfg.web, m, page) && CoveredByUrl(m, page);
                  && match reason
                     case ByOrigin => byOrigin
                     case ByProject => !byOrigin && CoveredByProject(cfg.web, m, page, projectId))
  {
    hide CoreOk, BackupOk, PossibleRun, Run, Agrees, Offer, NameSorted, OnePerId, SameDomainUrl, CoveredByUrl,
         CoveredByProject;
    RunKeeps(cfg, w, es);
    var end := Run(cfg, w, es);
    EntriesAreCommitted(cfg.web, end.core, end.truth, id);
    if id in end.core.db.records {
      var e := end.core.index.entries[id];
      OfferIgnoresInstants(cfg.web, e.meta, end.truth.sealings[id].meta, page, projectId);
      OfferMeans(cfg.web, end.truth.sealings[id].meta, page, projectId);
      if Offer(cfg.web, e.meta, page, projectId) == Some(reason) {
        assert Listed(out, id);
        var r :| r in out && r.entry.id == id;
        assert r.entry == e && Some(r.reason) == Some(reason);
      }
    }
  }

  // ---- Records ---------------------------------------------------------------------------------------------------

  /** Rows of other kinds than login stay as they are, and no row goes. */
  ghost predicate OthersUntouched(a: Database, b: Database, truth: Truth) {
    forall id | id in a.records ::
      id in b.records && (id in truth.sealings && truth.sealings[id].kind != "login" ==> b.records[id] == a.records[id])
  }

  lemma UpdateLoginTouchesLogins(cfg: Config, c: Core, id: Id, expected: U64, f: Fields, env: Env, truth: Truth)
    requires CoreOk(cfg.web, c, truth)
    ensures OthersUntouched(c.db, OpUpdate(cfg, c, id, expected, f, true, env).0.db, truth)
  {
    hide CoreOk, Records.Update, FieldsToMetadata;
    ParsedUrls(cfg.web, f);
    if LoginOnly(c, id).Ok? && FieldsToMetadata(cfg.web, f).Some? {
      UpdateKeeps(cfg, c, id, expected, FieldsToMetadata(cfg.web, f).value, f.secret, env.nonces, env.now,
          env.commits, truth);
      KindIsIndexed(cfg.web, c, id, truth);
    }
  }

  lemma KindIsIndexed(web: Web, c: Core, id: Id, truth: Truth)
    requires CoreOk(web, c, truth) && id in c.index.entries
    ensures id in truth.sealings && c.index.entries[id].kind == truth.sealings[id].kind
  {
    hide DbOk, ServiceOk, Stored;
  }

  lemma CreateLoginTouchesNothing(cfg: Config, c: Core, f: Fields, env: Env, truth: Truth)
    ensures OthersUntouched(c.db, OpCreate(cfg, c, f, true, env).0.db, truth)
  {
    hide Records.Create, FieldsToMetadata;
    if FieldsToMetadata(cfg.web, f).Some? {
      CreateAddsRow(cfg.web, RecordStateOf(c), "login", FieldsToMetadata(cfg.web, f).value, f.secret, env.id,
          env.nonces, env.now, env.commits);
    }
  }

  lemma SameRecordsUntouched(a: Database, b: Database, truth: Truth)
    requires a.records == b.records
    ensures OthersUntouched(a, b, truth)
  {
  }

  lemma DispatchTouchesLogins(cfg: Config, c: Core, conn: Conn, req: Request, env: Env, truth: Truth)
    requires CoreOk(cfg.web, c, truth) && BrowserRequest(req)
    ensures OthersUntouched(c.db, Dispatch(cfg, c, conn, req, env).0.db, truth)
  {
    hide CoreOk, OpUnlock, OpStatus, OpLock, OpCreate, OpUpdate, Records.Reveal, Records.RevealForOrigin,
         OthersUntouched;
    match req
    case CreateRecord(f, _) => CreateLoginTouchesNothing(cfg, c, f, env, truth);
    case UpdateRecord(id, expected, f, _) => UpdateLoginTouchesLogins(cfg, c, id, expected, f, env, truth);
    case _ =>
      OthersLeaveRecords(cfg, c, conn, req, env);
      SameRecordsUntouched(c.db, Dispatch(cfg, c, conn, req, env).0.db, truth);
  }

  /** No request of a paired client deletes a row, or changes one whose record is not a login. */
  lemma BrowserClientsChangeOnlyLogins(cfg: Config, w: World, es: seq<Event>, k: nat, req: Request, env: Env)
    requires VaultInv(cfg, w) && AccessInv(w) && PossibleRun(cfg, w, es)
             && Possible(Run(cfg, w, es), Incoming(k, req, env))
    requires Run(cfg, w, es).conns[k].clientId != 0
    ensures var end := Run(cfg, w, es);
            OthersUntouched(end.core.db, Next(cfg, end, Incoming(k, req, env)).core.db, end.truth)
  {
    hide AccessInv, CoreOk, BackupOk, PossibleRun, Run, Admit, Dispatch, BrowserRequest, FreshEnv,
         OthersUntouched, CommittedBy, Logged;
    RunKeepsAccess(cfg, w, es);
    RunKeeps(cfg, w, es);
    var end := Run(cfg, w, es);
    AdmittedBrowser(cfg, end, k, req, env);
    AdmitKeeps(cfg.web, end.core, end.conns[k], OpOf(req), env, end.truth);
    var (d, next, admitted) := Admit(end.core, end.conns[k], OpOf(req), env);
    SameRecordsUntouched(end.core.db, d.db, end.truth);
    if admitted.Ok? {
      DispatchTouchesLogins(cfg, d, next, req, env, end.truth);
      UntouchedFrom(end.core.db, d.db, Dispatch(cfg, d, next, req, env).0.db, end.truth);
    }
  }

  lemma UntouchedFrom(a: Database, b: Database, c: Database, truth: Truth)
    requires a.records == b.records && OthersUntouched(b, c, truth)
    ensures OthersUntouched(a, c, truth)
  {
  }
}
