/**
 * What the signin handler promises, stated about `Signin.Evaluate` and
 * `Signin.Apply`: the order of the checks, which error each branch
 * returns, when a failure record is written, when the password hash is
 * upgraded and when the account is approved.
 */
module SigninProperties {
  import opened Optional
  import opened Signin

  // ----- Looking at a trace -----

  datatype Kind =
    | KRateLimit | KFindUser | KFindProfile | KCompare | KCaptcha | KHash | KUpdatePassword
    | KTotp | KWebAuthnVerify | KWebAuthnInitiate | KInsert | KApprove | KSession

  function KindOf(s: Step): Kind {
    match s
    case CheckRateLimit(_, _) => KRateLimit
    case FindUser(_) => KFindUser
    case FindProfile(_) => KFindProfile
    case ComparePassword(_) => KCompare
    case VerifyCaptcha(_) => KCaptcha
    case HashPassword(_) => KHash
    case UpdatePassword(_, _) => KUpdatePassword
    case VerifyTotp(_, _) => KTotp
    case VerifyWebAuthn(_) => KWebAuthnVerify
    case InitiateWebAuthn(_) => KWebAuthnInitiate
    case InsertSignin(_) => KInsert
    case UpdateApproved(_) => KApprove
    case StartSession(_) => KSession
  }

  /** Some step of kind `k` is in the trace. */
  predicate Occurs(steps: seq<Step>, k: Kind) {
    exists i :: 0 <= i < |steps| && KindOf(steps[i]) == k
  }

  /** The signin records a trace appends, in order. */
  function Inserts(steps: seq<Step>): seq<SigninRecord> {
    if steps == [] then []
    else (if steps[0].InsertSignin? then [steps[0].record] else []) + Inserts(steps[1..])
  }

  lemma OccursAppend(a: seq<Step>, b: seq<Step>, k: Kind)
    ensures Occurs(a + b, k) <==> Occurs(a, k) || Occurs(b, k)
  {
    if Occurs(a + b, k) {
      var i :| 0 <= i < |a + b| && KindOf((a + b)[i]) == k;
      if i >= |a| { assert KindOf(b[i - |a|]) == k; }
    }
    if Occurs(a, k) {
      var i :| 0 <= i < |a| && KindOf(a[i]) == k;
      assert KindOf((a + b)[i]) == k;
    }
    if Occurs(b, k) {
      var i :| 0 <= i < |b| && KindOf(b[i]) == k;
      assert KindOf((a + b)[i + |a|]) == k;
    }
  }

  lemma {:induction false} InsertsAppend(a: seq<Step>, b: seq<Step>)
    ensures Inserts(a + b) == Inserts(a) + Inserts(b)
  {
    if a == [] {
      assert a + b == b;
    } else {
      assert (a + b)[1..] == a[1..] + b;
      InsertsAppend(a[1..], b);
    }
  }

  lemma {:induction false} InsertsEmpty(steps: seq<Step>)
    ensures Inserts(steps) == [] <==> !Occurs(steps, KInsert)
  {
    if steps != [] {
      InsertsEmpty(steps[1..]);
      assert steps == [steps[0]] + steps[1..];
      OccursAppend([steps[0]], steps[1..], KInsert);
    }
  }

  /** Lower-casing twice is lower-casing once, so the lookup key is stable. */
  lemma ToLowerIdempotent(s: string)
    ensures ToLower(ToLower(s)) == ToLower(s)
  {
  }

  // ----- Which accounts reach the password comparison -----

  /** The account looked up for the request: local, by lower-cased username. */
  function Lookup(db: Db, req: Request): Option<User>
    requires !Malformed(req)
  {
    FindLocalUser(db.users, ToLower(req.username.s))
  }

  /** The request passes the rate limit, the input shape and every account check. */
  predicate Admitted(cfg: Config, db: Db, req: Request, o: Oracles) {
    && o.rateLimitOk
    && !Malformed(req)
    && Lookup(db, req).Some?
    && !Lookup(db, req).value.isSuspended
    && !Lookup(db, req).value.isSystem
    && FindProfileOf(db.profiles, Lookup(db, req).value.id).Some?
    && (Lookup(db, req).value.approved || !cfg.meta.approvalRequiredForSignup)
  }

  /** `Admitted`, with the user row and the profile row it resolves to. */
  predicate AdmittedAs(cfg: Config, db: Db, req: Request, o: Oracles, user: User, profile: Profile) {
    && Admitted(cfg, db, req, o)
    && Lookup(db, req) == Some(user)
    && FindProfileOf(db.profiles, user.id) == Some(profile)
  }

  /** All enabled and fully configured captcha providers accept, or captchas are skipped in test mode. */
  predicate CaptchasPass(cfg: Config, o: Oracles) {
    cfg.testMode || forall p :: p in CaptchaOrder && CaptchaActive(cfg.meta, p) ==> CaptchaPasses(o, p)
  }

  /**
   * The login state machine: which verification path the account and the
   * request select, and whether it completes.
   */
  predicate PathSucceeds(cfg: Config, req: Request, profile: Profile, o: Oracles) {
    if !profile.twoFactorEnabled then CaptchasPass(cfg, o) && o.passwordMatches
    else if TokenPresent(req.token) then o.passwordMatches && o.totpOk
    else req.hasCredential && (o.passwordMatches || profile.usePasswordLessLogin) && o.webAuthnOk
  }

  // ----- Rate limit and input shape -----

  /** The rate limit comes first; a rejection is a 429 with the fixed code, and nothing else is done. */
  lemma RateLimitFirst(cfg: Config, db: Db, req: Request, o: Oracles)
    ensures Status(Evaluate(cfg, db, req, o).response) == 429 <==> !o.rateLimitOk
    ensures !o.rateLimitOk ==>
      Evaluate(cfg, db, req, o) == Run(ErrorBody(429, TooManyAttempts), [CheckRateLimit(SigninLimit, req.ip)])
  {
  }

  /** A non-string username or password, or a non-string non-null token, is a bare 400: no lookup, no record. */
  lemma MalformedInputRejected(cfg: Config, db: Db, req: Request, o: Oracles)
    requires o.rateLimitOk
    ensures Evaluate(cfg, db, req, o).response == Empty(400) <==> Malformed(req)
    ensures Malformed(req) ==> Evaluate(cfg, db, req, o).steps == [CheckRateLimit(SigninLimit, req.ip)]
  {
  }

  lemma InsertsLast(done: seq<Step>, rec: SigninRecord)
    requires !Occurs(done, KInsert)
    ensures Inserts(done + [InsertSignin(rec)]) == [rec]
  {
    InsertsAppend(done, [InsertSignin(rec)]);
    InsertsEmpty(done);
  }

  // ----- Account checks -----

  /** The four steps every admitted request takes before anything else. */
  function AdmittedPrefix(req: Request, user: User): seq<Step>
    requires !Malformed(req)
  {
    [CheckRateLimit(SigninLimit, req.ip), FindUser(ToLower(req.username.s)), FindProfile(user.id), ComparePassword(user.id)]
  }

  lemma EvaluateAdmitted(cfg: Config, db: Db, req: Request, o: Oracles, user: User, profile: Profile)
    requires AdmittedAs(cfg, db, req, o, user, profile)
    ensures Evaluate(cfg, db, req, o) == Decide(cfg, req, user, profile, o, AdmittedPrefix(req, user))
  {
    var lower := ToLower(req.username.s);
    assert [CheckRateLimit(SigninLimit, req.ip)] + [FindUser(lower)] + [FindProfile(user.id)] + [ComparePassword(user.id)]
        == AdmittedPrefix(req, user);
  }

  /**
   * The account checks, in order, after the lookup by lower-cased username
   * among local accounts: unknown user, suspended, system account, missing
   * profile (`findOneByOrFail` throws), not yet approved while approval is
   * required.
   */
  lemma AccountChecksInOrder(cfg: Config, db: Db, req: Request, o: Oracles)
    requires o.rateLimitOk && !Malformed(req)
    ensures Lookup(db, req).None? ==> Evaluate(cfg, db, req, o).response == Error(404, UnknownUserId)
    ensures Lookup(db, req).Some? && Lookup(db, req).value.isSuspended ==>
      Evaluate(cfg, db, req, o).response == Error(403, SuspendedId)
    ensures Lookup(db, req).Some? && !Lookup(db, req).value.isSuspended && Lookup(db, req).value.isSystem ==>
      Evaluate(cfg, db, req, o).response == Error(403, SystemAccountId)
    ensures && Lookup(db, req).Some? && !Lookup(db, req).value.isSuspended && !Lookup(db, req).value.isSystem
            && FindProfileOf(db.profiles, Lookup(db, req).value.id).Some?
            && !Lookup(db, req).value.approved && cfg.meta.approvalRequiredForSignup ==>
      Evaluate(cfg, db, req, o).response == ErrorBody(403, NotApproved)
    ensures && Lookup(db, req).Some? && !Lookup(db, req).value.isSuspended && !Lookup(db, req).value.isSystem
            && FindProfileOf(db.profiles, Lookup(db, req).value.id).None? ==>
      Evaluate(cfg, db, req, o).response == ProfileNotFound
  {
  }

  /** Past the rate limit and the input checks, the second step is the lookup by lower-cased username. */
  lemma LookupSecond(cfg: Config, db: Db, req: Request, o: Oracles)
    requires o.rateLimitOk && !Malformed(req)
    ensures |Evaluate(cfg, db, req, o).steps| >= 2
    ensures Evaluate(cfg, db, req, o).steps[1] == FindUser(ToLower(req.username.s))
  {
    if Admitted(cfg, db, req, o) {
      AdmittedCheckOrder(cfg, db, req, o);
      assert Evaluate(cfg, db, req, o).steps[1] == Evaluate(cfg, db, req, o).steps[..4][1];
    }
  }

  /** Exactly the requests that pass every account check reach the password comparison. */
  lemma OnlyAdmittedReachCredentials(cfg: Config, db: Db, req: Request, o: Oracles)
    ensures Occurs(Evaluate(cfg, db, req, o).steps, KCompare) <==> Admitted(cfg, db, req, o)
  {
    var steps := Evaluate(cfg, db, req, o).steps;
    if Admitted(cfg, db, req, o) {
      AdmittedCheckOrder(cfg, db, req, o);
      assert steps[3] == steps[..4][3];
      assert KindOf(steps[3]) == KCompare;
    } else {
      EvaluateRejected(cfg, db, req, o);
      assert forall i :: 0 <= i < |steps| ==> KindOf(steps[i]) != KCompare;
    }
  }

  /** The rate limit, the user lookup, the profile lookup and the password comparison come first, in this order. */
  lemma AdmittedCheckOrder(cfg: Config, db: Db, req: Request, o: Oracles)
    requires Admitted(cfg, db, req, o)
    ensures Evaluate(cfg, db, req, o).steps[..4] == AdmittedPrefix(req, Lookup(db, req).value)
  {
    var user := Lookup(db, req).value;
    var profile := FindProfileOf(db.profiles, user.id).value;
    EvaluateAdmitted(cfg, db, req, o, user, profile);
    DecideExtends(cfg, req, user, profile, o, AdmittedPrefix(req, user));
  }

  /** A request that fails an account check writes nothing: no signin record, no hash, no approval. */
  lemma RejectedWritesNothing(cfg: Config, db: Db, req: Request, o: Oracles)
    requires !Admitted(cfg, db, req, o)
    ensures forall i :: 0 <= i < |Evaluate(cfg, db, req, o).steps| ==> !Writes(Evaluate(cfg, db, req, o).steps[i])
    ensures Inserts(Evaluate(cfg, db, req, o).steps) == []
    ensures Apply(db, Evaluate(cfg, db, req, o).steps) == db
  {
    var run := Evaluate(cfg, db, req, o);
    EvaluateRejected(cfg, db, req, o);
    InsertsEmpty(run.steps);
    ApplyReadOnly(db, run.steps);
  }

  /** A request that fails an account check only consulted the rate limiter and the user and profile tables. */
  lemma EvaluateRejected(cfg: Config, db: Db, req: Request, o: Oracles)
    requires !Admitted(cfg, db, req, o)
    ensures forall i :: 0 <= i < |Evaluate(cfg, db, req, o).steps| ==>
      KindOf(Evaluate(cfg, db, req, o).steps[i]) in {KRateLimit, KFindUser, KFindProfile}
  {
    var run := Evaluate(cfg, db, req, o);
    var limited := [CheckRateLimit(SigninLimit, req.ip)];
    if !o.rateLimitOk || Malformed(req) {
      assert run.steps == limited;
    } else {
      var lower := ToLower(req.username.s);
      var looked := limited + [FindUser(lower)];
      if Lookup(db, req).None? || Lookup(db, req).value.isSuspended || Lookup(db, req).value.isSystem {
        assert run.steps == looked;
      } else {
        assert run.steps == looked + [FindProfile(Lookup(db, req).value.id)];
      }
    }
  }

  // ----- Decide keeps the steps before it -----

  lemma DecideExtends(cfg: Config, req: Request, user: User, profile: Profile, o: Oracles, done: seq<Step>)
    ensures |done| <= |Decide(cfg, req, user, profile, o, done).steps|
    ensures Decide(cfg, req, user, profile, o, done).steps[..|done|] == done
  {
  }

  // ----- The writes of a trace -----

  /** A step that only reads leaves the stored rows alone. */
  predicate Writes(s: Step) {
    s.InsertSignin? || s.UpdatePassword? || s.UpdateApproved?
  }

  lemma {:induction false} ApplyReadOnly(db: Db, steps: seq<Step>)
    requires forall i :: 0 <= i < |steps| ==> !Writes(steps[i])
    ensures Apply(db, steps) == db
    decreases |steps|
  {
    if steps != [] {
      ApplyReadOnly(db, steps[..|steps| - 1]);
    }
  }

  // ----- Verification paths -----

  /**
   * No second factor: the captcha gate runs first (never in test mode),
   * and a rejection is a 400 that writes nothing; then a matching password
   * opens a session and a wrong one is a 403 with one failure record.
   */
  lemma PasswordOnlyOutcomes(cfg: Config, db: Db, req: Request, o: Oracles, user: User, profile: Profile)
    requires AdmittedAs(cfg, db, req, o, user, profile) && !profile.twoFactorEnabled
    ensures !CaptchasPass(cfg, o) ==>
      && Evaluate(cfg, db, req, o).response.CaptchaRejected?
      && CaptchaActive(cfg.meta, Evaluate(cfg, db, req, o).response.provider)
      && !CaptchaPasses(o, Evaluate(cfg, db, req, o).response.provider)
      && forall i :: 0 <= i < |Evaluate(cfg, db, req, o).steps| ==> !Writes(Evaluate(cfg, db, req, o).steps[i])
    ensures CaptchasPass(cfg, o) && o.passwordMatches ==>
      && Evaluate(cfg, db, req, o).response == Session(user.id, user.token)
      && Inserts(Evaluate(cfg, db, req, o).steps) == []
    ensures CaptchasPass(cfg, o) && !o.passwordMatches ==>
      && Evaluate(cfg, db, req, o).response == Error(403, InvalidPasswordId)
      && Inserts(Evaluate(cfg, db, req, o).steps) == [FailureRecord(req, user, o)]
  {
    EvaluateAdmitted(cfg, db, req, o, user, profile);
    ScreeningPrefix(req, user);
    PasswordOnlyPathOutcomes(cfg, req, user, profile, o, AdmittedPrefix(req, user));
  }

  /** `PasswordOnlyOutcomes`, after any screening prefix. */
  lemma PasswordOnlyPathOutcomes(cfg: Config, req: Request, user: User, profile: Profile, o: Oracles, done: seq<Step>)
    requires Screening(done)
    ensures var run := PasswordOnly(cfg, req, user, profile, o, done);
      && (!CaptchasPass(cfg, o) ==>
        && run.response.CaptchaRejected?
        && CaptchaActive(cfg.meta, run.response.provider)
        && !CaptchaPasses(o, run.response.provider)
        && forall i :: 0 <= i < |run.steps| ==> !Writes(run.steps[i]))
      && (CaptchasPass(cfg, o) && o.passwordMatches ==>
        && run.response == Session(user.id, user.token)
        && Inserts(run.steps) == [])
      && (CaptchasPass(cfg, o) && !o.passwordMatches ==>
        && run.response == Error(403, InvalidPasswordId)
        && Inserts(run.steps) == [FailureRecord(req, user, o)])
  {
    var gate := if cfg.testMode then CaptchaRun([], None) else Captchas(CaptchaOrder, cfg.meta, o);
    var gated := done + CaptchaSteps(gate.checked);
    assert forall i :: 0 <= i < |gated| ==> KindOf(gated[i]) !in {KInsert, KUpdatePassword, KApprove} by {
      forall i | 0 <= i < |gated| ensures KindOf(gated[i]) !in {KInsert, KUpdatePassword, KApprove} {
        if i < |done| {
          assert gated[i] == done[i];
        } else {
          assert gated[i] == VerifyCaptcha(gate.checked[i - |done|]);
        }
      }
    }
    assert gate.failed.None? <==> CaptchasPass(cfg, o);
    if gate.failed.Some? {
      assert forall i :: 0 <= i < |gated| ==> !Writes(gated[i]) by {
        forall i | 0 <= i < |gated| ensures !Writes(gated[i]) {
          assert KindOf(gated[i]) !in {KInsert, KUpdatePassword, KApprove};
        }
      }
    } else if !o.passwordMatches {
      InsertsLast(gated, FailureRecord(req, user, o));
    } else {
      GrantInsertsNothing(cfg, user, gated, Rehash(user, profile, o));
    }
  }

  /** Opening a session writes no sign-in record of its own. */
  lemma GrantInsertsNothing(cfg: Config, user: User, done: seq<Step>, extra: seq<Step>)
    requires !Occurs(done, KInsert) && forall i :: 0 <= i < |extra| ==> !extra[i].InsertSignin?
    ensures Inserts(Grant(cfg, user, done + extra).steps) == []
  {
    var run := Grant(cfg, user, done + extra);
    assert forall i :: 0 <= i < |run.steps| ==> KindOf(run.steps[i]) != KInsert by {
      forall i | 0 <= i < |run.steps| ensures KindOf(run.steps[i]) != KInsert {
        if i < |done| {
          assert run.steps[i] == done[i];
        }
      }
    }
    InsertsEmpty(run.steps);
  }

  /** The kinds of step an admitted request has taken before its verification path. */
  predicate Screening(done: seq<Step>) {
    forall i :: 0 <= i < |done| ==> KindOf(done[i]) in {KRateLimit, KFindUser, KFindProfile, KCompare}
  }

  lemma ScreeningPrefix(req: Request, user: User)
    requires !Malformed(req)
    ensures Screening(AdmittedPrefix(req, user))
  {
  }

  /** The TOTP path after any screening prefix. */
  lemma TotpPathOutcomes(cfg: Config, req: Request, user: User, profile: Profile, o: Oracles, done: seq<Step>)
    requires req.token.Str? && Screening(done)
    ensures var run := TotpPath(cfg, req, user, profile, o, done);
      && !Occurs(run.steps, KCaptcha)
      && (!o.passwordMatches ==>
        && run.response == Error(403, InvalidPasswordId)
        && !Occurs(run.steps, KTotp)
        && Inserts(run.steps) == [FailureRecord(req, user, o)])
      && (o.passwordMatches && !o.totpOk ==>
        && run.response == Error(403, InvalidTotpId)
        && Inserts(run.steps) == [FailureRecord(req, user, o)])
      && (o.passwordMatches && o.totpOk ==>
        && run.response == Session(user.id, user.token)
        && Inserts(run.steps) == [])
  {
    var run := TotpPath(cfg, req, user, profile, o, done);
    var rec := FailureRecord(req, user, o);
    if !o.passwordMatches {
      assert run.steps == done + [InsertSignin(rec)];
      InsertsLast(done, rec);
    } else {
      var checked := done + Rehash(user, profile, o) + [VerifyTotp(user.id, req.token.s)];
      assert forall i :: 0 <= i < |checked| ==> KindOf(checked[i]) !in {KInsert, KCaptcha};
      if !o.totpOk {
        assert run.steps == checked + [InsertSignin(rec)];
        InsertsLast(checked, rec);
      } else {
        GrantInsertsNothing(cfg, user, checked, []);
        assert checked + [] == checked;
      }
    }
  }

  /**
   * A TOTP token: a wrong password is a 403 before the token is looked at;
   * otherwise the hash upgrade comes before the TOTP check, a failed check
   * is a 403 of its own, and a passed one opens a session.
   */
  lemma TotpOutcomes(cfg: Config, db: Db, req: Request, o: Oracles, user: User, profile: Profile)
    requires AdmittedAs(cfg, db, req, o, user, profile) && profile.twoFactorEnabled && TokenPresent(req.token)
    ensures !Occurs(Evaluate(cfg, db, req, o).steps, KCaptcha)
    ensures !o.passwordMatches ==>
      && Evaluate(cfg, db, req, o).response == Error(403, InvalidPasswordId)
      && !Occurs(Evaluate(cfg, db, req, o).steps, KTotp)
      && Inserts(Evaluate(cfg, db, req, o).steps) == [FailureRecord(req, user, o)]
    ensures o.passwordMatches && !o.totpOk ==>
      && Evaluate(cfg, db, req, o).response == Error(403, InvalidTotpId)
      && Inserts(Evaluate(cfg, db, req, o).steps) == [FailureRecord(req, user, o)]
    ensures o.passwordMatches && o.totpOk ==>
      && Evaluate(cfg, db, req, o).response == Session(user.id, user.token)
      && Inserts(Evaluate(cfg, db, req, o).steps) == []
  {
    EvaluateAdmitted(cfg, db, req, o, user, profile);
    ScreeningPrefix(req, user);
    TotpPathOutcomes(cfg, req, user, profile, o, AdmittedPrefix(req, user));
  }

  /** On the token path the bcrypt-to-argon2 upgrade is written before the TOTP check, so a failed check keeps it. */
  lemma TotpRehashBeforeCheck(cfg: Config, db: Db, req: Request, o: Oracles, user: User, profile: Profile)
    requires AdmittedAs(cfg, db, req, o, user, profile) && profile.twoFactorEnabled && TokenPresent(req.token)
    requires o.passwordMatches && StartsWith(profile.password, "$2")
    ensures Evaluate(cfg, db, req, o).steps[5] == UpdatePassword(user.id, o.argon2Hash)
    ensures Evaluate(cfg, db, req, o).steps[6] == VerifyTotp(user.id, req.token.s)
  {
    EvaluateAdmitted(cfg, db, req, o, user, profile);
    var checked := AdmittedPrefix(req, user) + Rehash(user, profile, o) + [VerifyTotp(user.id, req.token.s)];
    assert Decide(cfg, req, user, profile, o, AdmittedPrefix(req, user)).steps[..7] == checked;
  }

  /**
   * A WebAuthn assertion: without a matching password or passwordless
   * login it is a 403 before the assertion is verified; otherwise a
   * verified assertion opens a session and a rejected one is a 403.
   */
  lemma WebAuthnOutcomes(cfg: Config, db: Db, req: Request, o: Oracles, user: User, profile: Profile)
    requires AdmittedAs(cfg, db, req, o, user, profile) && profile.twoFactorEnabled
    requires !TokenPresent(req.token) && req.hasCredential
    ensures !o.passwordMatches && !profile.usePasswordLessLogin ==>
      && Evaluate(cfg, db, req, o).response == Error(403, InvalidPasswordId)
      && !Occurs(Evaluate(cfg, db, req, o).steps, KWebAuthnVerify)
      && Inserts(Evaluate(cfg, db, req, o).steps) == [FailureRecord(req, user, o)]
    ensures (o.passwordMatches || profile.usePasswordLessLogin) && o.webAuthnOk ==>
      && Evaluate(cfg, db, req, o).response == Session(user.id, user.token)
      && Inserts(Evaluate(cfg, db, req, o).steps) == []
    ensures (o.passwordMatches || profile.usePasswordLessLogin) && !o.webAuthnOk ==>
      && Evaluate(cfg, db, req, o).response == Error(403, WebAuthnFailedId)
      && Inserts(Evaluate(cfg, db, req, o).steps) == [FailureRecord(req, user, o)]
  {
    EvaluateAdmitted(cfg, db, req, o, user, profile);
    ScreeningPrefix(req, user);
    WebAuthnPathOutcomes(cfg, req, user, profile, o, AdmittedPrefix(req, user));
  }

  /** `WebAuthnOutcomes`, after any screening prefix. */
  lemma WebAuthnPathOutcomes(cfg: Config, req: Request, user: User, profile: Profile, o: Oracles, done: seq<Step>)
    requires Screening(done)
    ensures var run := WebAuthnPath(cfg, req, user, profile, o, done);
      && (!o.passwordMatches && !profile.usePasswordLessLogin ==>
        && run.response == Error(403, InvalidPasswordId)
        && !Occurs(run.steps, KWebAuthnVerify)
        && Inserts(run.steps) == [FailureRecord(req, user, o)])
      && ((o.passwordMatches || profile.usePasswordLessLogin) && o.webAuthnOk ==>
        && run.response == Session(user.id, user.token)
        && Inserts(run.steps) == [])
      && ((o.passwordMatches || profile.usePasswordLessLogin) && !o.webAuthnOk ==>
        && run.response == Error(403, WebAuthnFailedId)
        && Inserts(run.steps) == [FailureRecord(req, user, o)])
  {
    var run := WebAuthnPath(cfg, req, user, profile, o, done);
    var rec := FailureRecord(req, user, o);
    if !o.passwordMatches && !profile.usePasswordLessLogin {
      assert run.steps == done + [InsertSignin(rec)];
      InsertsLast(done, rec);
    } else {
      var checked := done + [VerifyWebAuthn(user.id)];
      assert forall i :: 0 <= i < |checked| ==> KindOf(checked[i]) != KInsert;
      if o.webAuthnOk {
        GrantInsertsNothing(cfg, user, checked, []);
        assert checked + [] == checked;
      } else {
        assert run.steps == checked + [InsertSignin(rec)];
        InsertsLast(checked, rec);
      }
    }
  }

  /**
   * Neither token nor assertion: with a matching password or passwordless
   * login this call only starts a WebAuthn challenge (200), with no
   * session and no write to the users, profiles or signin tables; the
   * challenge the WebAuthn service stores is not modelled.
   */
  lemma ChallengeOutcomes(cfg: Config, db: Db, req: Request, o: Oracles, user: User, profile: Profile)
    requires AdmittedAs(cfg, db, req, o, user, profile) && profile.twoFactorEnabled
    requires !TokenPresent(req.token) && !req.hasCredential
    ensures !o.passwordMatches && !profile.usePasswordLessLogin ==>
      && Evaluate(cfg, db, req, o).response == Error(403, InvalidPasswordId)
      && Inserts(Evaluate(cfg, db, req, o).steps) == [FailureRecord(req, user, o)]
    ensures o.passwordMatches || profile.usePasswordLessLogin ==>
      && Evaluate(cfg, db, req, o).response == AuthChallenge(user.id)
      && Status(Evaluate(cfg, db, req, o).response) == 200
      && !Occurs(Evaluate(cfg, db, req, o).steps, KSession)
      && Apply(db, Evaluate(cfg, db, req, o).steps) == db
  {
    EvaluateAdmitted(cfg, db, req, o, user, profile);
    ScreeningPrefix(req, user);
    ChallengePathOutcomes(req, user, profile, o, AdmittedPrefix(req, user));
    if o.passwordMatches || profile.usePasswordLessLogin {
      ApplyReadOnly(db, Evaluate(cfg, db, req, o).steps);
    }
  }

  /** `ChallengeOutcomes`, after any screening prefix. */
  lemma ChallengePathOutcomes(req: Request, user: User, profile: Profile, o: Oracles, done: seq<Step>)
    requires Screening(done)
    ensures var run := ChallengePath(req, user, profile, o, done);
      && (!o.passwordMatches && !profile.usePasswordLessLogin ==>
        && run.response == Error(403, InvalidPasswordId)
        && Inserts(run.steps) == [FailureRecord(req, user, o)])
      && (o.passwordMatches || profile.usePasswordLessLogin ==>
        && run.response == AuthChallenge(user.id)
        && !Occurs(run.steps, KSession)
        && Inserts(run.steps) == []
        && forall i :: 0 <= i < |run.steps| ==> !Writes(run.steps[i]))
  {
    var run := ChallengePath(req, user, profile, o, done);
    var rec := FailureRecord(req, user, o);
    if !o.passwordMatches && !profile.usePasswordLessLogin {
      assert run.steps == done + [InsertSignin(rec)];
      InsertsLast(done, rec);
    } else {
      assert run.steps == done + [InitiateWebAuthn(user.id)];
      assert forall i :: 0 <= i < |run.steps| ==> KindOf(run.steps[i]) in {KRateLimit, KFindUser, KFindProfile, KCompare, KWebAuthnInitiate};
      InsertsEmpty(run.steps);
    }
  }

  // ----- The captcha gate -----

  /** The providers of `ps`, in order, that are enabled and fully configured. */
  function ActiveIn(ps: seq<Captcha>, meta: Meta): seq<Captcha> {
    if ps == [] then []
    else (if CaptchaActive(meta, ps[0]) then [ps[0]] else []) + ActiveIn(ps[1..], meta)
  }

  /** The providers a trace consults, in order. */
  function CaptchaTrace(steps: seq<Step>): seq<Captcha> {
    if steps == [] then []
    else (if steps[0].VerifyCaptcha? then [steps[0].provider] else []) + CaptchaTrace(steps[1..])
  }

  lemma {:induction false} CaptchaTraceAppend(a: seq<Step>, b: seq<Step>)
    ensures CaptchaTrace(a + b) == CaptchaTrace(a) + CaptchaTrace(b)
  {
    if a == [] {
      assert a + b == b;
    } else {
      assert (a + b)[1..] == a[1..] + b;
      CaptchaTraceAppend(a[1..], b);
    }
  }

  lemma {:induction false} CaptchaTraceOfSteps(ps: seq<Captcha>)
    ensures CaptchaTrace(CaptchaSteps(ps)) == ps
  {
    if ps != [] {
      CaptchaTraceOfSteps(ps[1..]);
      assert CaptchaSteps(ps)[1..] == CaptchaSteps(ps[1..]);
    }
  }

  /**
   * How far down `ps` the gate walks: up to and including the first active
   * provider that rejects, the whole list when none does.
   */
  function Consulted(ps: seq<Captcha>, meta: Meta, o: Oracles): (k: nat)
    ensures k <= |ps|
  {
    if ps == [] then 0
    else if CaptchaActive(meta, ps[0]) && !CaptchaPasses(o, ps[0]) then 1
    else 1 + Consulted(ps[1..], meta, o)
  }

  /**
   * The gate consults the active providers in list order and stops at the
   * first rejection: what it consults is the active part of the prefix it
   * walks, the whole list when nothing rejects.
   */
  lemma {:induction false} CaptchasConsultInOrder(ps: seq<Captcha>, meta: Meta, o: Oracles)
    ensures Captchas(ps, meta, o).checked == ActiveIn(ps[..Consulted(ps, meta, o)], meta)
    ensures Captchas(ps, meta, o).failed.None? ==> Consulted(ps, meta, o) == |ps|
  {
    if ps != [] {
      var k := Consulted(ps, meta, o);
      assert ps[..k][0] == ps[0] && ps[..k][1..] == ps[1..][..k - 1];
      if !(CaptchaActive(meta, ps[0]) && !CaptchaPasses(o, ps[0])) {
        CaptchasConsultInOrder(ps[1..], meta, o);
      }
    }
  }

  /** Captchas are never consulted with a second factor, in test mode, or before the account checks pass. */
  lemma CaptchaGateSkipped(cfg: Config, db: Db, req: Request, o: Oracles)
    requires !Admitted(cfg, db, req, o) || cfg.testMode
             || FindProfileOf(db.profiles, Lookup(db, req).value.id).value.twoFactorEnabled
    ensures CaptchaTrace(Evaluate(cfg, db, req, o).steps) == []
  {
    var run := Evaluate(cfg, db, req, o);
    if !Admitted(cfg, db, req, o) {
      RejectedWritesNothing(cfg, db, req, o);
    } else {
      var user := Lookup(db, req).value;
      var profile := FindProfileOf(db.profiles, user.id).value;
      EvaluateAdmitted(cfg, db, req, o, user, profile);
      DecideSkipsCaptchas(cfg, req, user, profile, o, AdmittedPrefix(req, user));
    }
    CaptchaTraceNone(run.steps);
  }

  /**
   * Without a second factor and outside test mode, captchas are consulted
   * after the password comparison, in the order hCaptcha, mCaptcha,
   * reCAPTCHA, Turnstile, each only when enabled and fully configured, up
   * to the first rejection.
   */
  lemma CaptchaGateInOrder(cfg: Config, db: Db, req: Request, o: Oracles, user: User, profile: Profile)
    requires AdmittedAs(cfg, db, req, o, user, profile) && !profile.twoFactorEnabled && !cfg.testMode
    ensures CaptchaTrace(Evaluate(cfg, db, req, o).steps)
            == ActiveIn(CaptchaOrder[..Consulted(CaptchaOrder, cfg.meta, o)], cfg.meta)
    ensures CaptchasPass(cfg, o) ==> Consulted(CaptchaOrder, cfg.meta, o) == |CaptchaOrder|
  {
    EvaluateAdmitted(cfg, db, req, o, user, profile);
    ScreeningPrefix(req, user);
    DecideCaptchaTrace(cfg, req, user, profile, o, AdmittedPrefix(req, user));
    CaptchasConsultInOrder(CaptchaOrder, cfg.meta, o);
  }

  /** Without a second factor and outside test mode, `Decide` consults exactly what the gate checks. */
  lemma DecideCaptchaTrace(cfg: Config, req: Request, user: User, profile: Profile, o: Oracles, done: seq<Step>)
    requires !profile.twoFactorEnabled && !cfg.testMode && Screening(done)
    ensures CaptchaTrace(Decide(cfg, req, user, profile, o, done).steps) == Captchas(CaptchaOrder, cfg.meta, o).checked
  {
    assert forall i :: 0 <= i < |done| ==> !done[i].VerifyCaptcha? by {
      forall i | 0 <= i < |done| ensures !done[i].VerifyCaptcha? {
        assert KindOf(done[i]) != KCaptcha;
      }
    }
    CaptchaGateTail(cfg, req, user, profile, o, done);
    TraceAroundGate(done, Captchas(CaptchaOrder, cfg.meta, o).checked, Decide(cfg, req, user, profile, o, done).steps);
  }

  lemma TraceAroundGate(pre: seq<Step>, checked: seq<Captcha>, steps: seq<Step>)
    requires forall i :: 0 <= i < |pre| ==> !pre[i].VerifyCaptcha?
    requires |pre + CaptchaSteps(checked)| <= |steps| && steps[..|pre + CaptchaSteps(checked)|] == pre + CaptchaSteps(checked)
    requires forall i :: |pre + CaptchaSteps(checked)| <= i < |steps| ==> !steps[i].VerifyCaptcha?
    ensures CaptchaTrace(steps) == checked
  {
    var gated := pre + CaptchaSteps(checked);
    var tail := steps[|gated|..];
    assert steps == gated + tail;
    CaptchaTraceAppend(gated, tail);
    CaptchaTraceAppend(pre, CaptchaSteps(checked));
    CaptchaTraceOfSteps(checked);
    CaptchaTraceNone(pre);
    CaptchaTraceNone(tail);
  }

  lemma {:induction false} CaptchaTraceNone(steps: seq<Step>)
    requires forall i :: 0 <= i < |steps| ==> !steps[i].VerifyCaptcha?
    ensures CaptchaTrace(steps) == []
  {
    if steps != [] {
      CaptchaTraceNone(steps[1..]);
    }
  }

  /** With a second factor, or in test mode, `Decide` consults no captcha. */
  lemma DecideSkipsCaptchas(cfg: Config, req: Request, user: User, profile: Profile, o: Oracles, done: seq<Step>)
    requires profile.twoFactorEnabled || cfg.testMode
    requires forall i :: 0 <= i < |done| ==> !done[i].VerifyCaptcha?
    ensures forall i :: 0 <= i < |Decide(cfg, req, user, profile, o, done).steps| ==>
      !Decide(cfg, req, user, profile, o, done).steps[i].VerifyCaptcha?
  {
    assert cfg.testMode && !profile.twoFactorEnabled ==> done + CaptchaSteps([]) == done;
  }

  /** Without a second factor, the steps after the captcha gate consult no captcha. */
  lemma CaptchaGateTail(cfg: Config, req: Request, user: User, profile: Profile, o: Oracles, done: seq<Step>)
    requires !profile.twoFactorEnabled && !cfg.testMode
    ensures var gated := done + CaptchaSteps(Captchas(CaptchaOrder, cfg.meta, o).checked);
      var steps := Decide(cfg, req, user, profile, o, done).steps;
      |gated| <= |steps| && steps[..|gated|] == gated
      && forall i :: |gated| <= i < |steps| ==> !steps[i].VerifyCaptcha?
  {
  }

  // ----- Password hash upgrade -----

  /** The condition under which the handler replaces a bcrypt hash by an argon2 one. */
  predicate UpgradesHash(cfg: Config, req: Request, profile: Profile, o: Oracles) {
    && o.passwordMatches
    && StartsWith(profile.password, "$2")
    && (if !profile.twoFactorEnabled then CaptchasPass(cfg, o) else TokenPresent(req.token))
  }

  /** Every hash update in the trace writes `hash` for `id`. */
  predicate UpdatesOnly(steps: seq<Step>, id: UserId, hash: string) {
    forall i :: 0 <= i < |steps| && steps[i].UpdatePassword? ==> steps[i] == UpdatePassword(id, hash)
  }

  lemma RehashSteps(user: User, profile: Profile, o: Oracles)
    ensures Occurs(Rehash(user, profile, o), KUpdatePassword) <==> StartsWith(profile.password, "$2")
    ensures UpdatesOnly(Rehash(user, profile, o), user.id, o.argon2Hash)
  {
    if StartsWith(profile.password, "$2") { assert KindOf(Rehash(user, profile, o)[1]) == KUpdatePassword; }
  }

  /** No step of the trace writes a password hash. */
  predicate NoUpdate(steps: seq<Step>) {
    forall i :: 0 <= i < |steps| ==> !steps[i].UpdatePassword?
  }

  lemma ScreeningNoUpdate(done: seq<Step>)
    requires Screening(done)
    ensures NoUpdate(done)
  {
    forall i | 0 <= i < |done| ensures !done[i].UpdatePassword? {
      assert KindOf(done[i]) != KUpdatePassword;
    }
  }

  /** Hash updates of a trace built around a middle part that alone may write them. */
  lemma UpdatesAround(pre: seq<Step>, mid: seq<Step>, post: seq<Step>, id: UserId, hash: string)
    requires NoUpdate(pre) && NoUpdate(post) && UpdatesOnly(mid, id, hash)
    ensures Occurs(pre + mid + post, KUpdatePassword) <==> Occurs(mid, KUpdatePassword)
    ensures UpdatesOnly(pre + mid + post, id, hash)
  {
    var all := pre + mid + post;
    forall i | 0 <= i < |all|
      ensures all[i] == if i < |pre| then pre[i] else if i < |pre| + |mid| then mid[i - |pre|] else post[i - |pre| - |mid|]
    {
    }
    if Occurs(all, KUpdatePassword) {
      var i :| 0 <= i < |all| && KindOf(all[i]) == KUpdatePassword;
      assert |pre| <= i < |pre| + |mid|;
      assert KindOf(mid[i - |pre|]) == KUpdatePassword;
    }
    if Occurs(mid, KUpdatePassword) {
      var j :| 0 <= j < |mid| && KindOf(mid[j]) == KUpdatePassword;
      assert all[|pre| + j] == mid[j];
    }
  }

  lemma RehashPasswordOnly(cfg: Config, req: Request, user: User, profile: Profile, o: Oracles, done: seq<Step>)
    requires Screening(done) && !profile.twoFactorEnabled
    ensures Occurs(PasswordOnly(cfg, req, user, profile, o, done).steps, KUpdatePassword) <==> UpgradesHash(cfg, req, profile, o)
    ensures UpdatesOnly(PasswordOnly(cfg, req, user, profile, o, done).steps, user.id, o.argon2Hash)
  {
    var run := PasswordOnly(cfg, req, user, profile, o, done);
    var gate := if cfg.testMode then CaptchaRun([], None) else Captchas(CaptchaOrder, cfg.meta, o);
    var gated := done + CaptchaSteps(gate.checked);
    ScreeningNoUpdate(done);
    assert NoUpdate(gated) by {
      forall i | 0 <= i < |gated| ensures !gated[i].UpdatePassword? {
        if i < |done| {
          assert gated[i] == done[i];
        }
      }
    }
    RehashSteps(user, profile, o);
    assert gate.failed.None? <==> CaptchasPass(cfg, o);
    if gate.failed.None? && o.passwordMatches {
      var approve := if !cfg.meta.approvalRequiredForSignup && !user.approved then [UpdateApproved(user.id)] else [];
      assert run.steps == gated + Rehash(user, profile, o) + (approve + [StartSession(user.id)]);
      UpdatesAround(gated, Rehash(user, profile, o), approve + [StartSession(user.id)], user.id, o.argon2Hash);
    } else {
      var post := if gate.failed.Some? then [] else [InsertSignin(FailureRecord(req, user, o))];
      assert run.steps == gated + [] + post;
      UpdatesAround(gated, [], post, user.id, o.argon2Hash);
    }
  }

  lemma RehashTotp(cfg: Config, req: Request, user: User, profile: Profile, o: Oracles, done: seq<Step>)
    requires Screening(done) && profile.twoFactorEnabled && TokenPresent(req.token)
    ensures Occurs(TotpPath(cfg, req, user, profile, o, done).steps, KUpdatePassword) <==> UpgradesHash(cfg, req, profile, o)
    ensures UpdatesOnly(TotpPath(cfg, req, user, profile, o, done).steps, user.id, o.argon2Hash)
  {
    var run := TotpPath(cfg, req, user, profile, o, done);
    var rec := FailureRecord(req, user, o);
    ScreeningNoUpdate(done);
    RehashSteps(user, profile, o);
    if !o.passwordMatches {
      assert run.steps == done + [] + [InsertSignin(rec)];
      UpdatesAround(done, [], [InsertSignin(rec)], user.id, o.argon2Hash);
    } else {
      var approve := if !cfg.meta.approvalRequiredForSignup && !user.approved then [UpdateApproved(user.id)] else [];
      var rest := if !o.totpOk then [InsertSignin(rec)] else approve + [StartSession(user.id)];
      assert run.steps == done + Rehash(user, profile, o) + ([VerifyTotp(user.id, req.token.s)] + rest);
      UpdatesAround(done, Rehash(user, profile, o), [VerifyTotp(user.id, req.token.s)] + rest, user.id, o.argon2Hash);
    }
  }

  lemma RehashNeverOnWebAuthn(cfg: Config, req: Request, user: User, profile: Profile, o: Oracles, done: seq<Step>)
    requires Screening(done)
    ensures !Occurs(WebAuthnPath(cfg, req, user, profile, o, done).steps, KUpdatePassword)
    ensures !Occurs(ChallengePath(req, user, profile, o, done).steps, KUpdatePassword)
  {
    var w := WebAuthnPath(cfg, req, user, profile, o, done).steps;
    var c := ChallengePath(req, user, profile, o, done).steps;
    ScreeningNoUpdate(done);
    forall i | 0 <= i < |w| ensures KindOf(w[i]) != KUpdatePassword {
      if i < |done| {
        assert w[i] == done[i];
      }
    }
    forall i | 0 <= i < |c| ensures KindOf(c[i]) != KUpdatePassword {
      if i < |done| {
        assert c[i] == done[i];
      }
    }
  }

  /** `PasswordUpgrade`, after any screening prefix. */
  lemma DecideRehash(cfg: Config, req: Request, user: User, profile: Profile, o: Oracles, done: seq<Step>)
    requires Screening(done)
    ensures Occurs(Decide(cfg, req, user, profile, o, done).steps, KUpdatePassword) <==> UpgradesHash(cfg, req, profile, o)
    ensures UpdatesOnly(Decide(cfg, req, user, profile, o, done).steps, user.id, o.argon2Hash)
  {
    if !profile.twoFactorEnabled {
      RehashPasswordOnly(cfg, req, user, profile, o, done);
    } else if TokenPresent(req.token) {
      RehashTotp(cfg, req, user, profile, o, done);
    } else {
      RehashNeverOnWebAuthn(cfg, req, user, profile, o, done);
    }
  }

  /**
   * The stored hash is replaced by `argon2.hash(password)` exactly when the
   * password matches a bcrypt (`$2…`) hash, on the path without a second
   * factor once the captchas have passed, or on the TOTP path.
   */
  lemma PasswordUpgrade(cfg: Config, db: Db, req: Request, o: Oracles, user: User, profile: Profile)
    requires AdmittedAs(cfg, db, req, o, user, profile)
    ensures Occurs(Evaluate(cfg, db, req, o).steps, KUpdatePassword) <==> UpgradesHash(cfg, req, profile, o)
    ensures UpdatesOnly(Evaluate(cfg, db, req, o).steps, user.id, o.argon2Hash)
  {
    EvaluateAdmitted(cfg, db, req, o, user, profile);
    ScreeningPrefix(req, user);
    DecideRehash(cfg, req, user, profile, o, AdmittedPrefix(req, user));
  }

  // ----- Sessions and approval -----

  /** No approval and no session in these steps. */
  predicate Quiet(steps: seq<Step>) {
    forall i :: 0 <= i < |steps| ==> !steps[i].UpdateApproved? && !steps[i].StartSession?
  }

  /** `Grant` is the only way to a session: every other outcome adds neither approval nor session. */
  lemma DecideShape(cfg: Config, req: Request, user: User, profile: Profile, o: Oracles, done: seq<Step>)
    requires Quiet(done)
    ensures exists mid :: (Quiet(mid)
      && (|| Decide(cfg, req, user, profile, o, done) == Grant(cfg, user, mid)
          || (!Decide(cfg, req, user, profile, o, done).response.Session? && Decide(cfg, req, user, profile, o, done).steps == mid)))
  {
    var run := Decide(cfg, req, user, profile, o, done);
    if !profile.twoFactorEnabled {
      var gate := if cfg.testMode then CaptchaRun([], None) else Captchas(CaptchaOrder, cfg.meta, o);
      var gated := done + CaptchaSteps(gate.checked);
      assert Quiet(gated);
      if gate.failed.None? && o.passwordMatches {
        assert Quiet(gated + Rehash(user, profile, o));
        assert run == Grant(cfg, user, gated + Rehash(user, profile, o));
      } else {
        assert Quiet(run.steps);
      }
    } else if TokenPresent(req.token) && o.passwordMatches && o.totpOk {
      var checked := done + Rehash(user, profile, o) + [VerifyTotp(user.id, req.token.s)];
      assert Quiet(checked);
      assert run == Grant(cfg, user, checked);
    } else if !TokenPresent(req.token) && req.hasCredential && (o.passwordMatches || profile.usePasswordLessLogin) && o.webAuthnOk {
      assert Quiet(done + [VerifyWebAuthn(user.id)]);
      assert run == Grant(cfg, user, done + [VerifyWebAuthn(user.id)]);
    } else {
      assert Quiet(run.steps);
    }
  }

  /**
   * A session is issued exactly when the verification path the account
   * and request select completes; it carries the user's id and token and
   * its call is the last step.
   */
  lemma SessionIffPathSucceeds(cfg: Config, db: Db, req: Request, o: Oracles, user: User, profile: Profile)
    requires AdmittedAs(cfg, db, req, o, user, profile)
    ensures Evaluate(cfg, db, req, o).response.Session? <==> PathSucceeds(cfg, req, profile, o)
    ensures Evaluate(cfg, db, req, o).response.Session? ==>
      && Evaluate(cfg, db, req, o).response == Session(user.id, user.token)
      && Evaluate(cfg, db, req, o).steps[|Evaluate(cfg, db, req, o).steps| - 1] == StartSession(user.id)
  {
    EvaluateAdmitted(cfg, db, req, o, user, profile);
    DecideSession(cfg, req, user, profile, o, AdmittedPrefix(req, user));
  }

  /** `SessionIffPathSucceeds`, after any trace. */
  lemma DecideSession(cfg: Config, req: Request, user: User, profile: Profile, o: Oracles, done: seq<Step>)
    ensures var run := Decide(cfg, req, user, profile, o, done);
      && (run.response.Session? <==> PathSucceeds(cfg, req, profile, o))
      && (run.response.Session? ==>
        && run.response == Session(user.id, user.token)
        && run.steps[|run.steps| - 1] == StartSession(user.id))
  {
    var gate := Captchas(CaptchaOrder, cfg.meta, o);
    assert gate.failed.None? <==> (forall p :: p in CaptchaOrder && CaptchaActive(cfg.meta, p) ==> CaptchaPasses(o, p));
  }

  /** A request that fails an account check never gets a session. */
  lemma NoSessionWhenRejected(cfg: Config, db: Db, req: Request, o: Oracles)
    requires !Admitted(cfg, db, req, o)
    ensures !Evaluate(cfg, db, req, o).response.Session?
  {
  }

  /**
   * Approval auto-grant: the account is marked approved exactly on a
   * session-issuing outcome, when approval is not required and the account
   * is not approved yet, and before the session is started.
   */
  lemma ApprovalAutoGrant(cfg: Config, db: Db, req: Request, o: Oracles, user: User, profile: Profile)
    requires AdmittedAs(cfg, db, req, o, user, profile)
    ensures Occurs(Evaluate(cfg, db, req, o).steps, KApprove) <==>
      Evaluate(cfg, db, req, o).response.Session? && !cfg.meta.approvalRequiredForSignup && !user.approved
    ensures forall i :: 0 <= i < |Evaluate(cfg, db, req, o).steps| && Evaluate(cfg, db, req, o).steps[i].UpdateApproved? ==>
      Evaluate(cfg, db, req, o).steps[i] == UpdateApproved(user.id) && i == |Evaluate(cfg, db, req, o).steps| - 2
  {
    var pre := AdmittedPrefix(req, user);
    EvaluateAdmitted(cfg, db, req, o, user, profile);
    assert Quiet(pre);
    DecideApproval(cfg, req, user, profile, o, pre);
  }

  /** `ApprovalAutoGrant`, for any quiet trace before the verification path. */
  lemma DecideApproval(cfg: Config, req: Request, user: User, profile: Profile, o: Oracles, done: seq<Step>)
    requires Quiet(done)
    ensures var run := Decide(cfg, req, user, profile, o, done);
      && (Occurs(run.steps, KApprove) <==> run.response.Session? && !cfg.meta.approvalRequiredForSignup && !user.approved)
      && forall i :: 0 <= i < |run.steps| && run.steps[i].UpdateApproved? ==>
           run.steps[i] == UpdateApproved(user.id) && i == |run.steps| - 2
  {
    DecideShape(cfg, req, user, profile, o, done);
    var run := Decide(cfg, req, user, profile, o, done);
    var mid :| Quiet(mid) && (run == Grant(cfg, user, mid) || (!run.response.Session? && run.steps == mid));
    if run == Grant(cfg, user, mid) {
      GrantApproval(cfg, user, mid);
    } else {
      QuietApprovesNothing(mid);
    }
  }

  lemma QuietApprovesNothing(steps: seq<Step>)
    requires Quiet(steps)
    ensures !Occurs(steps, KApprove)
  {
    forall i | 0 <= i < |steps| ensures KindOf(steps[i]) != KApprove {
      assert !steps[i].UpdateApproved?;
    }
  }

  /** Inside `Grant`, approval is one step right before the session, for an unapproved account when approval is not required. */
  lemma GrantApproval(cfg: Config, user: User, mid: seq<Step>)
    requires Quiet(mid)
    ensures var steps := Grant(cfg, user, mid).steps;
      && (Occurs(steps, KApprove) <==> !cfg.meta.approvalRequiredForSignup && !user.approved)
      && forall i :: 0 <= i < |steps| && steps[i].UpdateApproved? ==> steps[i] == UpdateApproved(user.id) && i == |steps| - 2
  {
    var steps := Grant(cfg, user, mid).steps;
    if !cfg.meta.approvalRequiredForSignup && !user.approved {
      assert steps == mid + [UpdateApproved(user.id), StartSession(user.id)];
      assert KindOf(steps[|mid|]) == KApprove;
    } else {
      assert steps == mid + [StartSession(user.id)];
      forall i | 0 <= i < |steps| ensures KindOf(steps[i]) != KApprove {
        if i < |mid| {
          assert steps[i] == mid[i] && !mid[i].UpdateApproved?;
        }
      }
    }
  }

  // ----- Failure records -----

  /** The error ids of the three credential failures, the only outcomes that go through `fail`. */
  const CredentialFailureIds: set<string> := {InvalidPasswordId, InvalidTotpId, WebAuthnFailedId}

  /**
   * At most one signin record is written, it is the looked-up user's and
   * says `success: false`, and it is written exactly on the 403 outcomes
   * for a wrong password, a wrong TOTP token or a rejected assertion.
   */
  lemma FailureRecordedOnce(cfg: Config, db: Db, req: Request, o: Oracles, user: User, profile: Profile)
    requires AdmittedAs(cfg, db, req, o, user, profile)
    ensures Inserts(Evaluate(cfg, db, req, o).steps) == [] || Inserts(Evaluate(cfg, db, req, o).steps) == [FailureRecord(req, user, o)]
    ensures Inserts(Evaluate(cfg, db, req, o).steps) != [] <==>
      && Evaluate(cfg, db, req, o).response.ErrorBody?
      && Evaluate(cfg, db, req, o).response.status == 403
      && Evaluate(cfg, db, req, o).response.error.id in CredentialFailureIds
    ensures FailureRecord(req, user, o).userId == user.id && !FailureRecord(req, user, o).success
  {
    EvaluateAdmitted(cfg, db, req, o, user, profile);
    ScreeningPrefix(req, user);
    DecideFailureRecord(cfg, req, user, profile, o, AdmittedPrefix(req, user));
  }

  /** `FailureRecordedOnce`, after any screening prefix. */
  lemma DecideFailureRecord(cfg: Config, req: Request, user: User, profile: Profile, o: Oracles, done: seq<Step>)
    requires Screening(done)
    ensures var run := Decide(cfg, req, user, profile, o, done);
      && (Inserts(run.steps) == [] || Inserts(run.steps) == [FailureRecord(req, user, o)])
      && (Inserts(run.steps) != [] <==>
        run.response.ErrorBody? && run.response.status == 403 && run.response.error.id in CredentialFailureIds)
  {
    if !profile.twoFactorEnabled {
      PasswordOnlyPathOutcomes(cfg, req, user, profile, o, done);
      if !CaptchasPass(cfg, o) {
        var steps := PasswordOnly(cfg, req, user, profile, o, done).steps;
        assert forall i :: 0 <= i < |steps| ==> KindOf(steps[i]) != KInsert by {
          forall i | 0 <= i < |steps| ensures KindOf(steps[i]) != KInsert {
            assert !Writes(steps[i]);
          }
        }
        InsertsEmpty(steps);
      }
    } else if TokenPresent(req.token) {
      TotpPathOutcomes(cfg, req, user, profile, o, done);
    } else if req.hasCredential {
      WebAuthnPathOutcomes(cfg, req, user, profile, o, done);
    } else {
      ChallengePathOutcomes(req, user, profile, o, done);
    }
  }

  /** A request that fails an account check never answers with a credential-failure id. */
  lemma RejectedResponses(cfg: Config, db: Db, req: Request, o: Oracles)
    requires !Admitted(cfg, db, req, o)
    ensures Evaluate(cfg, db, req, o).response.ErrorBody? ==>
      Evaluate(cfg, db, req, o).response.error.id !in CredentialFailureIds
  {
  }

  // ----- Store writes -----

  lemma {:induction false} ApplySignins(db: Db, steps: seq<Step>)
    ensures Apply(db, steps).signins == db.signins + Inserts(steps)
    decreases |steps|
  {
    if steps != [] {
      var init := steps[..|steps| - 1];
      var last := steps[|steps| - 1];
      ApplySignins(db, init);
      assert steps == init + [last];
      InsertsAppend(init, [last]);
    }
  }

  /** Every approval in the trace is for `id`. */
  predicate ApprovesOnly(steps: seq<Step>, id: UserId) {
    forall i :: 0 <= i < |steps| && steps[i].UpdateApproved? ==> steps[i] == UpdateApproved(id)
  }

  lemma SetPasswordTwice(profiles: seq<Profile>, id: UserId, hash: string)
    ensures SetPassword(SetPassword(profiles, id, hash), id, hash) == SetPassword(profiles, id, hash)
  {
  }

  lemma SetApprovedTwice(users: seq<User>, id: UserId)
    ensures SetApproved(SetApproved(users, id), id) == SetApproved(users, id)
  {
  }

  lemma {:induction false} ApplyProfiles(db: Db, steps: seq<Step>, id: UserId, hash: string)
    requires UpdatesOnly(steps, id, hash)
    ensures Apply(db, steps).profiles ==
      if Occurs(steps, KUpdatePassword) then SetPassword(db.profiles, id, hash) else db.profiles
    decreases |steps|
  {
    if steps != [] {
      var init := steps[..|steps| - 1];
      var last := steps[|steps| - 1];
      ApplyProfiles(db, init, id, hash);
      assert steps == init + [last];
      OccursAppend(init, [last], KUpdatePassword);
      var before := Apply(db, init);
      assert Apply(db, steps) == ApplyStep(before, last);
      if last.UpdatePassword? {
        assert last == UpdatePassword(id, hash);
        assert Apply(db, steps).profiles == SetPassword(before.profiles, id, hash);
        SetPasswordTwice(db.profiles, id, hash);
      } else {
        assert Apply(db, steps).profiles == before.profiles;
      }
    }
  }

  lemma {:induction false} ApplyUsers(db: Db, steps: seq<Step>, id: UserId)
    requires ApprovesOnly(steps, id)
    ensures Apply(db, steps).users ==
      if Occurs(steps, KApprove) then SetApproved(db.users, id) else db.users
    decreases |steps|
  {
    if steps != [] {
      var init := steps[..|steps| - 1];
      var last := steps[|steps| - 1];
      ApplyUsers(db, init, id);
      assert steps == init + [last];
      OccursAppend(init, [last], KApprove);
      var before := Apply(db, init);
      assert Apply(db, steps) == ApplyStep(before, last);
      if last.UpdateApproved? {
        assert last == UpdateApproved(id);
        assert Apply(db, steps).users == SetApproved(before.users, id);
        SetApprovedTwice(db.users, id);
      } else {
        assert Apply(db, steps).users == before.users;
      }
    }
  }

  /**
   * What a signin call leaves in the store: the user marked approved when
   * a session is granted to an unapproved account of an instance without
   * required approval, the argon2 hash when the bcrypt hash was upgraded,
   * and the signin history extended by the failure record, if any.
   */
  lemma StoreEffects(cfg: Config, db: Db, req: Request, o: Oracles, user: User, profile: Profile)
    requires AdmittedAs(cfg, db, req, o, user, profile)
    ensures Apply(db, Evaluate(cfg, db, req, o).steps) == Db(
      if Evaluate(cfg, db, req, o).response.Session? && !cfg.meta.approvalRequiredForSignup && !user.approved
      then SetApproved(db.users, user.id) else db.users,
      if UpgradesHash(cfg, req, profile, o) then SetPassword(db.profiles, user.id, o.argon2Hash) else db.profiles,
      db.signins + Inserts(Evaluate(cfg, db, req, o).steps))
  {
    var steps := Evaluate(cfg, db, req, o).steps;
    ApprovalAutoGrant(cfg, db, req, o, user, profile);
    PasswordUpgrade(cfg, db, req, o, user, profile);
    ApplySignins(db, steps);
    ApplyProfiles(db, steps, user.id, o.argon2Hash);
    ApplyUsers(db, steps, user.id);
  }
}
