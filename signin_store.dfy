/**
 * The signin handler as the backend runs it: one call against a mutable
 * store of users, user profiles and signin history, making its checks and
 * writes in the order of `SigninApiService.signin`.
 *
 * Each method is proved against the decision engine of module `Signin`:
 * the response is `Evaluate(...).response` and the new store is the old
 * one with the writes of `Evaluate(...).steps` replayed by `Apply`. The
 * properties proved about `Evaluate` in `SigninProperties` therefore hold
 * of this handler.
 */
module SigninStore {
  import opened Optional
  import opened Signin

  /** Appending one step to a trace applies that step's write after the others. */
  lemma ApplySnoc(db: Db, done: seq<Step>, s: Step)
    ensures Apply(db, done + [s]) == ApplyStep(Apply(db, done), s)
  {
    assert (done + [s])[..|done|] == done;
  }

  /** The gate's answer once `checked` have passed and `ps` are still to be consulted. */
  function Rest(ps: seq<Captcha>, meta: Meta, o: Oracles, checked: seq<Captcha>): CaptchaRun {
    var r := Captchas(ps, meta, o);
    CaptchaRun(checked + r.checked, r.failed)
  }

  /**
   * One `if (enabled && keys) await verify(...)` block: an active provider
   * is consulted and a rejection stops the gate.
   */
  method Consult(p: Captcha, meta: Meta, o: Oracles, ghost ps: seq<Captcha>, checked: seq<Captcha>)
    returns (now: seq<Captcha>, stop: bool)
    requires ps != [] && ps[0] == p
    ensures stop ==> CaptchaRun(now, Some(p)) == Rest(ps, meta, o, checked)
    ensures !stop ==> Rest(ps[1..], meta, o, now) == Rest(ps, meta, o, checked)
  {
    now, stop := checked, false;
    if CaptchaActive(meta, p) {
      now := checked + [p];
      stop := !CaptchaPasses(o, p);
      if !stop {
        assert now + Captchas(ps[1..], meta, o).checked == checked + ([p] + Captchas(ps[1..], meta, o).checked);
      }
    }
  }

  /**
   * The captcha checks of lines 173-197, one provider after the other;
   * the first rejection ends the gate. `checked` are the providers
   * consulted, `failed` the one that rejected.
   */
  method CaptchaGate(meta: Meta, o: Oracles) returns (checked: seq<Captcha>, failed: Option<Captcha>)
    ensures CaptchaRun(checked, failed) == Captchas(CaptchaOrder, meta, o)
  {
    ghost var ps := CaptchaOrder;
    assert Rest(ps, meta, o, []) == Captchas(CaptchaOrder, meta, o) by {
      assert [] + Captchas(ps, meta, o).checked == Captchas(ps, meta, o).checked;
    }
    var stop: bool;
    checked, failed := [], None;
    checked, stop := Consult(HCaptcha, meta, o, ps, checked);
    if stop {
      failed := Some(HCaptcha);
      return;
    }
    ps := ps[1..];
    checked, stop := Consult(MCaptcha, meta, o, ps, checked);
    if stop {
      failed := Some(MCaptcha);
      return;
    }
    ps := ps[1..];
    checked, stop := Consult(ReCaptcha, meta, o, ps, checked);
    if stop {
      failed := Some(ReCaptcha);
      return;
    }
    ps := ps[1..];
    checked, stop := Consult(Turnstile, meta, o, ps, checked);
    if stop {
      failed := Some(Turnstile);
      return;
    }
    assert ps[1..] == [];
    assert checked + [] == checked;
  }

  class Store {
    var users: seq<User>
    var profiles: seq<Profile>
    var signins: seq<SigninRecord>

    function Contents(): Db
      reads this
    {
      Db(users, profiles, signins)
    }

    constructor (db: Db)
      ensures Contents() == db
    {
      users, profiles, signins := db.users, db.profiles, db.signins;
    }

    // ----- Repository calls -----

    /** `usersRepository.findOneBy({ usernameLower, host: IsNull() })`: a scan for the first local match. */
    method LookupUser(lower: string) returns (r: Option<User>)
      ensures r == FindLocalUser(users, lower)
    {
      var i := 0;
      while i < |users|
        invariant 0 <= i <= |users|
        invariant FindLocalUser(users[i..], lower) == FindLocalUser(users, lower)
      {
        assert users[i..][1..] == users[i + 1..];
        if users[i].usernameLower == lower && users[i].host.None? {
          return Some(users[i]);
        }
        i := i + 1;
      }
      assert users[i..] == [];
      return None;
    }

    /** `userProfilesRepository.findOneByOrFail({ userId })`, with `None` standing for the throw. */
    method LookupProfile(id: UserId) returns (r: Option<Profile>)
      ensures r == FindProfileOf(profiles, id)
    {
      var i := 0;
      while i < |profiles|
        invariant 0 <= i <= |profiles|
        invariant FindProfileOf(profiles[i..], id) == FindProfileOf(profiles, id)
      {
        assert profiles[i..][1..] == profiles[i + 1..];
        if profiles[i].userId == id {
          return Some(profiles[i]);
        }
        i := i + 1;
      }
      assert profiles[i..] == [];
      return None;
    }

    /** `signinsRepository.insert(record)`. */
    method AppendSignin(rec: SigninRecord)
      modifies this
      ensures signins == old(signins) + [rec]
      ensures users == old(users) && profiles == old(profiles)
    {
      signins := signins + [rec];
    }

    /** `userProfilesRepository.update(id, { password: hash })`. */
    method StorePassword(id: UserId, hash: string)
      modifies this
      ensures profiles == SetPassword(old(profiles), id, hash)
      ensures users == old(users) && signins == old(signins)
    {
      profiles := SetPassword(profiles, id, hash);
    }

    /** `usersRepository.update(id, { approved: true })`. */
    method Approve(id: UserId)
      modifies this
      ensures users == SetApproved(old(users), id)
      ensures profiles == old(profiles) && signins == old(signins)
    {
      users := SetApproved(users, id);
    }

    // ----- The handler -----

    /** The `fail` helper (lines 159-170): record the failed attempt, then answer. */
    method FailWith(req: Request, user: User, o: Oracles, status: Option<nat>, failure: Option<ApiError>,
                ghost db: Db, ghost done: seq<Step>)
      returns (res: Response)
      requires Contents() == Apply(db, done)
      modifies this
      ensures res == Fail(req, user, o, done, status, failure).response
      ensures Contents() == Apply(db, Fail(req, user, o, done, status, failure).steps)
    {
      ApplySnoc(db, done, InsertSignin(FailureRecord(req, user, o)));
      AppendSignin(SigninRecord(o.recordId, user.id, req.ip, req.headers, false));
      res := FailResponse(status, failure);
    }

    /** The bcrypt-to-argon2 upgrade (lines 200-205 and 224-229). */
    method UpgradeHash(user: User, profile: Profile, o: Oracles, ghost db: Db, ghost done: seq<Step>)
      requires Contents() == Apply(db, done)
      modifies this
      ensures Contents() == Apply(db, done + Rehash(user, profile, o))
    {
      if StartsWith(profile.password, "$2") {
        ApplySnoc(db, done, HashPassword(user.id));
        ApplySnoc(db, done + [HashPassword(user.id)], UpdatePassword(user.id, o.argon2Hash));
        assert done + [HashPassword(user.id)] + [UpdatePassword(user.id, o.argon2Hash)]
            == done + Rehash(user, profile, o);
        StorePassword(user.id, o.argon2Hash);
      } else {
        assert done + Rehash(user, profile, o) == done;
      }
    }

    /** Approval auto-grant, then `signinService.signin` (lines 206-208, 237-239, 250-251). */
    method GrantSession(cfg: Config, user: User, ghost db: Db, ghost done: seq<Step>) returns (res: Response)
      requires Contents() == Apply(db, done)
      modifies this
      ensures res == Grant(cfg, user, done).response
      ensures Contents() == Apply(db, Grant(cfg, user, done).steps)
    {
      ghost var approved := done;
      if !cfg.meta.approvalRequiredForSignup && !user.approved {
        ApplySnoc(db, done, UpdateApproved(user.id));
        Approve(user.id);
        approved := done + [UpdateApproved(user.id)];
      }
      ApplySnoc(db, approved, StartSession(user.id));
      assert Grant(cfg, user, done).steps == approved + [StartSession(user.id)];
      res := Session(user.id, user.token);
    }

    /** No second factor enrolled (lines 172-214). */
    method SigninWithPassword(cfg: Config, req: Request, user: User, profile: Profile, o: Oracles,
                        ghost db: Db, ghost done: seq<Step>)
      returns (res: Response)
      requires Contents() == Apply(db, done)
      modifies this
      ensures res == PasswordOnly(cfg, req, user, profile, o, done).response
      ensures Contents() == Apply(db, PasswordOnly(cfg, req, user, profile, o, done).steps)
    {
      var checked: seq<Captcha>, failed: Option<Captcha> := [], None;
      if !cfg.testMode {
        checked, failed := CaptchaGate(cfg.meta, o);
      }
      ghost var gated := done + CaptchaSteps(checked);
      assert Contents() == Apply(db, gated) by {
        ApplyReads(db, done, CaptchaSteps(checked));
      }
      if failed.Some? {
        return CaptchaRejected(failed.value);
      }
      if o.passwordMatches {
        UpgradeHash(user, profile, o, db, gated);
        res := GrantSession(cfg, user, db, gated + Rehash(user, profile, o));
      } else {
        res := FailWith(req, user, o, Some(403), Some(ApiError(None, None, InvalidPasswordId)), db, gated);
      }
    }

    /** A TOTP token is given (lines 216-239). */
    method SigninWithTotp(cfg: Config, req: Request, user: User, profile: Profile, o: Oracles,
                    ghost db: Db, ghost done: seq<Step>)
      returns (res: Response)
      requires req.token.Str?
      requires Contents() == Apply(db, done)
      modifies this
      ensures res == TotpPath(cfg, req, user, profile, o, done).response
      ensures Contents() == Apply(db, TotpPath(cfg, req, user, profile, o, done).steps)
    {
      if !o.passwordMatches {
        res := FailWith(req, user, o, Some(403), Some(ApiError(None, None, InvalidPasswordId)), db, done);
        return;
      }
      UpgradeHash(user, profile, o, db, done);
      ghost var checked := done + Rehash(user, profile, o) + [VerifyTotp(user.id, req.token.s)];
      ApplySnoc(db, done + Rehash(user, profile, o), VerifyTotp(user.id, req.token.s));
      if !o.totpOk {
        res := FailWith(req, user, o, Some(403), Some(ApiError(None, None, InvalidTotpId)), db, checked);
        return;
      }
      res := GrantSession(cfg, user, db, checked);
    }

    /** A WebAuthn assertion is given (lines 240-256). */
    method SigninWithWebAuthn(cfg: Config, req: Request, user: User, profile: Profile, o: Oracles,
                        ghost db: Db, ghost done: seq<Step>)
      returns (res: Response)
      requires Contents() == Apply(db, done)
      modifies this
      ensures res == WebAuthnPath(cfg, req, user, profile, o, done).response
      ensures Contents() == Apply(db, WebAuthnPath(cfg, req, user, profile, o, done).steps)
    {
      if !o.passwordMatches && !profile.usePasswordLessLogin {
        res := FailWith(req, user, o, Some(403), Some(ApiError(None, None, InvalidPasswordId)), db, done);
        return;
      }
      ApplySnoc(db, done, VerifyWebAuthn(user.id));
      var authorized := o.webAuthnOk;
      if authorized {
        res := GrantSession(cfg, user, db, done + [VerifyWebAuthn(user.id)]);
      } else {
        res := FailWith(req, user, o, Some(403), Some(ApiError(None, None, WebAuthnFailedId)), db, done + [VerifyWebAuthn(user.id)]);
      }
    }

    /** Neither a token nor an assertion (lines 257-268). */
    method StartChallenge(req: Request, user: User, profile: Profile, o: Oracles,
                         ghost db: Db, ghost done: seq<Step>)
      returns (res: Response)
      requires Contents() == Apply(db, done)
      modifies this
      ensures res == ChallengePath(req, user, profile, o, done).response
      ensures Contents() == Apply(db, ChallengePath(req, user, profile, o, done).steps)
    {
      if !o.passwordMatches && !profile.usePasswordLessLogin {
        res := FailWith(req, user, o, Some(403), Some(ApiError(None, None, InvalidPasswordId)), db, done);
        return;
      }
      ApplySnoc(db, done, InitiateWebAuthn(user.id));
      res := AuthChallenge(user.id);
    }

    /**
     * `SigninApiService.signin`: the handler's answer is the engine's, and
     * the store afterwards holds exactly the engine's writes.
     */
    method Signin(cfg: Config, req: Request, o: Oracles) returns (res: Response)
      modifies this
      ensures res == Evaluate(cfg, old(Contents()), req, o).response
      ensures Contents() == Apply(old(Contents()), Evaluate(cfg, old(Contents()), req, o).steps)
    {
      ghost var db := Contents();
      ghost var done := [CheckRateLimit(SigninLimit, req.ip)];
      ApplySnoc(db, [], CheckRateLimit(SigninLimit, req.ip));
      assert [] + done == done;
      if !o.rateLimitOk {
        return ErrorBody(429, TooManyAttempts);
      }
      if !req.username.Str? || !req.password.Str? || (!req.token.Absent? && !req.token.Str?) {
        return Empty(400);
      }
      var lower := ToLower(req.username.s);
      ApplySnoc(db, done, FindUser(lower));
      done := done + [FindUser(lower)];
      var found := LookupUser(lower);
      if found.None? {
        return Error(404, UnknownUserId);
      }
      var user := found.value;
      if user.isSuspended {
        return Error(403, SuspendedId);
      }
      if user.isSystem {
        return Error(403, SystemAccountId);
      }
      ApplySnoc(db, done, FindProfile(user.id));
      done := done + [FindProfile(user.id)];
      var lookup := LookupProfile(user.id);
      if lookup.None? {
        return ProfileNotFound;
      }
      var profile := lookup.value;
      if !user.approved && cfg.meta.approvalRequiredForSignup {
        return ErrorBody(403, NotApproved);
      }
      ApplySnoc(db, done, ComparePassword(user.id));
      done := done + [ComparePassword(user.id)];
      assert Evaluate(cfg, db, req, o) == Decide(cfg, req, user, profile, o, done);
      if !profile.twoFactorEnabled {
        res := SigninWithPassword(cfg, req, user, profile, o, db, done);
      } else if req.token.Str? && req.token.s != "" {
        res := SigninWithTotp(cfg, req, user, profile, o, db, done);
      } else if req.hasCredential {
        res := SigninWithWebAuthn(cfg, req, user, profile, o, db, done);
      } else {
        res := StartChallenge(req, user, profile, o, db, done);
      }
    }
  }

  /** Steps that only read leave the replayed store as it was. */
  lemma {:induction false} ApplyReads(db: Db, done: seq<Step>, looked: seq<Step>)
    requires forall i :: 0 <= i < |looked| ==> looked[i].VerifyCaptcha?
    ensures Apply(db, done + looked) == Apply(db, done)
    decreases |looked|
  {
    if looked == [] {
      assert done + looked == done;
    } else {
      var last := |looked| - 1;
      assert done + looked == (done + looked[..last]) + [looked[last]];
      ApplySnoc(db, done + looked[..last], looked[last]);
      assert ApplyStep(Apply(db, done + looked[..last]), looked[last]) == Apply(db, done + looked[..last]);
      ApplyReads(db, done, looked[..last]);
    }
  }
}
