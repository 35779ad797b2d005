/** The unlock backoff over whole runs: failed attempts cannot come faster than the sum of their delays. */
module Backoff {
  import opened Octets
  import opened Tables
  import opened Origins
  import opened RecordIndex
  import opened Codec
  import opened Sessions
  import opened Vault
  import opened Daemon
  import opened History
  import Access
  import Catalog
  import Records

  lemma DelayGrows(a: nat, b: nat)
    requires a <= b
    ensures 0 <= Delay(a) <= Delay(b)
  {
  }

  /** The delays imposed by the first n failures together. */
  function Total(n: nat): int {
    if n == 0 then 0 else Total(n - 1) + Delay(n)
  }

  /** 0, 0, 0, 2, 2, 5, 10, 15, 20, 25 seconds, then 60 each. */
  lemma {:induction false} TotalFromEleven(n: nat)
    requires n >= 10
    ensures Total(n) == (79 + 60 * (n - 10)) * SECOND
  {
    if n == 10 {
      assert Total(3) == 0 by { assert Total(1) == 0; assert Total(2) == 0; }
      assert Total(5) == 4 * SECOND by { assert Total(4) == 2 * SECOND; }
      assert Total(7) == 19 * SECOND by { assert Total(6) == 9 * SECOND; }
      assert Total(9) == 54 * SECOND by { assert Total(8) == 34 * SECOND; }
    } else {
      TotalFromEleven(n - 1);
    }
  }

  // ---- Which steps touch the counter ---------------------------------------------------------------------

  predicate SameBackoff(a: VaultState, b: VaultState) {
    a.failedUnlocks == b.failedUnlocks && a.nextUnlockAt == b.nextUnlockAt
  }

  lemma ChangePasswordSameBackoff(v: VaultState, db: Database, current: string, next: string, p: Params,
      r: EnvelopeNoise, commits: bool)
    ensures SameBackoff(v, Vault.ChangePassword(v, db, current, next, p, r, commits).0)
  {
    hide Unwrap, BuildEnvelope, DeriveKeyring, Catalog.StampOf;
  }

  lemma RecordsSameBackoff(cfg: Config, c: Core, req: Request, env: Env)
    requires req.CreateRecord? || req.UpdateRecord? || req.DeleteRecord?
    ensures SameBackoff(c.vault, DispatchRest(cfg, c, Conn(None, 0, false, []), req, env).0.vault)
  {
    hide Catalog.StampOf, FieldsToMetadata, Records.SealedRow, ValidRecord, PutEntry, RemoveEntry,
         Tables.UpdateRecord, Tables.DeleteRecord, Tables.InsertRecord;
  }

  /** Locks, resets, restores, password changes and everything else leave the backoff as it is. */
  lemma OthersSameBackoff(cfg: Config, c: Core, conn: Conn, req: Request, env: Env)
    requires !req.UnlockVault?
    ensures SameBackoff(c.vault, DispatchRest(cfg, c, conn, req, env).0.vault)
  {
    hide Unwrap, BuildEnvelope, DeriveKeyring, Catalog.StampOf, Records.Reveal, Records.RevealForOrigin,
         Vault.ChangePassword, OpCreate, OpUpdate, OpDelete, Access.ClientFor, Access.RequestPairing,
         Access.Claim, Access.Cancel, WithoutClient, UpdateClientStatus, ParamsValid, InsertSecurityEvent;
    match req
    case ChangeMaster(current, next) =>
      ChangePasswordSameBackoff(c.vault, c.db, current, next, cfg.params, env.envelope, env.commits);
    case CreateRecord(_, _) => RecordsSameBackoff(cfg, c, req, env);
    case UpdateRecord(_, _, _, _) => RecordsSameBackoff(cfg, c, req, env);
    case DeleteRecord(_) => RecordsSameBackoff(cfg, c, req, env);
    case _ =>
  }

  lemma UnlockBackoff(cfg: Config, c: Core, conn: Conn, password: string, env: Env)
    ensures var r := Vault.Unlock(c.vault, c.db, password, env.now, env.after).1;
            var v := OpUnlock(cfg, c, conn, password, env).0.vault;
            && (r == Err(AuthenticationFail) ==>
                  !Throttled(c.vault, env.now) && SameBackoff(v, Failed(c.vault, env.after)))
            && (r.Err? && r != Err(AuthenticationFail) ==> SameBackoff(c.vault, v))
  {
    hide OpenEnvelope, DeriveKeyring, Records.LoadIndex, Vault.VerifyCatalog, InsertSecurityEvent, Delay;
  }

  lemma AdmitKeepsVault(c: Core, conn: Conn, op: Op, env: Env)
    ensures var d := Admit(c, conn, op, env).0;
            d.vault == c.vault && d.db.vault == c.db.vault && d.db.envelopes == c.db.envelopes
  {
    hide Validated, Has, Access.Approved;
  }

  // ---- Attempts in a run ----------------------------------------------------------------------------------

  /** How an unlock request fares with the key service, None when the step evaluates none. */
  function Outcome(w: World, e: Event): Option<Result<()>> {
    if !e.Incoming? || !e.request.UnlockVault? || e.conn !in w.conns then None
    else if Admit(w.core, w.conns[e.conn], UnlockOp, e.env).2.Err? then None
    else Some(Vault.Unlock(w.core.vault, w.core.db, e.request.password, e.env.now, e.env.after).1)
  }

  predicate FailsAttempt(w: World, e: Event) { Outcome(w, e) == Some(Err(AuthenticationFail)) }

  predicate OpensVault(w: World, e: Event) { Outcome(w, e).Some? && Outcome(w, e).value.Ok? }

  /** The clock readings of the failed attempts of a run, in order. */
  function Attempts(cfg: Config, w: World, es: seq<Event>): seq<Env> {
    if es == [] then []
    else
      var before, e := es[..|es| - 1], es[|es| - 1];
      if FailsAttempt(Run(cfg, w, before), e) then Attempts(cfg, w, before) + [e.env] else Attempts(cfg, w, before)
  }

  /** No success and no restart; within an attempt the clock does not run backwards. */
  predicate FailingRun(cfg: Config, w: World, es: seq<Event>) {
    es == [] ||
    (var before, e := es[..|es| - 1], es[|es| - 1];
     FailingRun(cfg, w, before) && !e.Restart? && !OpensVault(Run(cfg, w, before), e)
     && (e.Incoming? ==> e.env.now <= e.env.after))
  }

  lemma StepBackoff(cfg: Config, w: World, e: Event)
    requires !e.Restart? && !OpensVault(w, e)
    ensures var v := Next(cfg, w, e).core.vault;
            if FailsAttempt(w, e) then !Throttled(w.core.vault, e.env.now)
                && SameBackoff(v, Failed(w.core.vault, e.env.after))
            else SameBackoff(w.core.vault, v)
  {
    hide Admit, DispatchRest, OpUnlock, Vault.Unlock, CommittedBy, Logged, FreshIds, Delay;
    if e.Incoming? && e.conn in w.conns {
      var c, env := w.core, e.env;
      AdmitKeepsVault(c, w.conns[e.conn], OpOf(e.request), env);
      var (d, next, admitted) := Admit(c, w.conns[e.conn], OpOf(e.request), env);
      if admitted.Ok? {
        if e.request.UnlockVault? {
          UnlockLooksAtEnvelopes(c.vault, c.db, d.db, e.request.password, env.now, env.after);
          UnlockBackoff(cfg, d, next, e.request.password, env);
        } else {
          OthersSameBackoff(cfg, d, next, e.request, env);
        }
      }
    }
  }

  lemma UnlockLooksAtEnvelopes(v: VaultState, db: Database, db': Database, password: string, now: int, after: int)
    requires db'.vault == db.vault && db'.envelopes == db.envelopes
    ensures Vault.Unlock(v, db', password, now, after) == Vault.Unlock(v, db, password, now, after)
  {
    hide OpenEnvelope;
  }

  /** Each attempt is at least the sum of all delays so far after the first; the next one has to wait one more. */
  predicate Spaced(at: seq<Env>) {
    forall k | 1 <= k < |at| :: at[k].now >= at[0].after + Total(k)
  }

  lemma {:induction false} FailuresAreSpaced(cfg: Config, w: World, es: seq<Event>)
    requires FailingRun(cfg, w, es)
    ensures var at := Attempts(cfg, w, es);
            var v := Run(cfg, w, es).core.vault;
            && Spaced(at) && v.failedUnlocks == w.core.vault.failedUnlocks + |at|
            && (at != [] ==> v.nextUnlockAt.Some? && v.nextUnlockAt.value >= at[0].after + Total(|at|))
  {
    hide Next, OpensVault, FailsAttempt, Delay;
    if es != [] {
      var before, e := es[..|es| - 1], es[|es| - 1];
      FailuresAreSpaced(cfg, w, before);
      var x, at := Run(cfg, w, before), Attempts(cfg, w, before);
      StepBackoff(cfg, x, e);
      if FailsAttempt(x, e) {
        DelayGrows(|at| + 1, x.core.vault.failedUnlocks + 1);
        FailsIsIncoming(x, e);
      }
    }
  }

  lemma FailsIsIncoming(w: World, e: Event)
    requires FailsAttempt(w, e)
    ensures e.Incoming?
  {
    hide Admit, Vault.Unlock;
  }

  /**
   In any run of failed unlock attempts without a success, whatever locks, resets, restores or password changes
   happen in between, the k-th evaluated attempt (k >= 11) starts at least 79 + 60(k - 11) seconds after the first
   one ended.
   */
  lemma UnlockGuessingIsSlow(cfg: Config, w: World, es: seq<Event>, k: nat)
    requires FailingRun(cfg, w, es) && 11 <= k <= |Attempts(cfg, w, es)|
    ensures var at := Attempts(cfg, w, es);
            at[k - 1].now - at[0].after >= (79 + 60 * (k - 11)) * SECOND
  {
    hide Attempts, FailingRun, Run, Delay;
    FailuresAreSpaced(cfg, w, es);
    TotalFromEleven(k - 1);
    assert Attempts(cfg, w, es)[k - 1].now >= Attempts(cfg, w, es)[0].after + Total(k - 1);
  }

  /**
   The backoff is part of unlocking alone: the other two checks of the password answer the same whatever it says.
   */
  lemma ThrottlingGuardsUnlockOnly(v: VaultState, failed: nat, deadline: Option<int>, db: Database, current: string,
      next: string, p: Params, r: EnvelopeNoise, commits: bool)
    ensures var x := v.(failedUnlocks := failed, nextUnlockAt := deadline);
            && Vault.VerifyPassword(x, db, current).1 == Vault.VerifyPassword(v, db, current).1
            && Vault.ChangePassword(x, db, current, next, p, r, commits).1
            == Vault.ChangePassword(v, db, current, next, p, r, commits).1
            && Vault.ChangePassword(x, db, current, next, p, r, commits).2
            == Vault.ChangePassword(v, db, current, next, p, r, commits).2
  {
    hide Unwrap, RewrapTx;
  }
}
