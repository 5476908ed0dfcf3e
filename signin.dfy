/**
 * The signin decision engine of the backend's `POST /api/signin` endpoint
 * (`SigninApiService.signin`).
 *
 * Every collaborator whose answer the decision depends on (rate limiter,
 * password hash comparison, captcha providers, TOTP, WebAuthn, id
 * generator) is replaced by the answer it gives, collected in `Oracles`.
 * `Evaluate` then is a pure function from the configuration, the stored
 * rows, the request and those answers to a `Run`: the response, and the
 * ordered trace of every collaborator call and store write the handler
 * makes. `Apply` replays the writes of a trace on the stored rows.
 */
module Signin {
  import opened Optional

  type UserId = string

  // ----- Request -----

  /** A body field as it arrives in the JSON body. */
  datatype Field =
    | Absent          // `null` or `undefined`
    | Str(s: string)  // a string
    | NonString       // any other JSON value

  datatype Request = Request(
    ip: string,
    headers: map<string, string>,
    username: Field,
    password: Field,
    token: Field,
    hasCredential: bool)  // `body.credential` is truthy

  /** `typeof username !== 'string'`, `typeof password !== 'string'`, `token != null && typeof token !== 'string'`. */
  predicate Malformed(req: Request) {
    !req.username.Str? || !req.password.Str? || req.token.NonString?
  }

  /** `if (token)`: the token is a non-empty string. */
  predicate TokenPresent(token: Field) {
    token.Str? && token.s != ""
  }

  // ----- Stored rows -----

  datatype User = User(
    id: UserId,
    usernameLower: string,
    host: Option<string>,   // None for a local account
    token: string,          // the session token returned on success
    isSuspended: bool,
    isSystem: bool,         // `isSystemAccount(user)`
    approved: bool)

  datatype Profile = Profile(
    userId: UserId,
    password: string,       // the stored password hash
    twoFactorEnabled: bool,
    usePasswordLessLogin: bool)

  datatype SigninRecord = SigninRecord(
    id: string,
    userId: UserId,
    ip: string,
    headers: map<string, string>,
    success: bool)

  /** The rows the handler reads and writes: users, user profiles and the signin history. */
  datatype Db = Db(users: seq<User>, profiles: seq<Profile>, signins: seq<SigninRecord>)

  // ----- Instance configuration -----

  datatype Meta = Meta(
    approvalRequiredForSignup: bool,
    enableHcaptcha: bool, hcaptchaSecretKey: Option<string>,
    enableMcaptcha: bool, mcaptchaSecretKey: Option<string>,
    mcaptchaSitekey: Option<string>, mcaptchaInstanceUrl: Option<string>,
    enableRecaptcha: bool, recaptchaSecretKey: Option<string>,
    enableTurnstile: bool, turnstileSecretKey: Option<string>)

  /** `testMode` is `process.env.NODE_ENV === 'test'`. */
  datatype Config = Config(meta: Meta, testMode: bool)

  /** JavaScript truthiness of an optional string setting. */
  predicate Truthy(k: Option<string>) {
    k.Some? && k.value != ""
  }

  datatype Captcha = HCaptcha | MCaptcha | ReCaptcha | Turnstile

  /** The order in which the handler consults the captcha providers. */
  const CaptchaOrder: seq<Captcha> := [HCaptcha, MCaptcha, ReCaptcha, Turnstile]

  /** A provider is consulted only when it is enabled and every key it needs is set. */
  predicate CaptchaActive(meta: Meta, p: Captcha) {
    match p
    case HCaptcha => meta.enableHcaptcha && Truthy(meta.hcaptchaSecretKey)
    case MCaptcha =>
      meta.enableMcaptcha && Truthy(meta.mcaptchaSecretKey)
      && Truthy(meta.mcaptchaSitekey) && Truthy(meta.mcaptchaInstanceUrl)
    case ReCaptcha => meta.enableRecaptcha && Truthy(meta.recaptchaSecretKey)
    case Turnstile => meta.enableTurnstile && Truthy(meta.turnstileSecretKey)
  }

  // ----- Collaborator answers -----

  datatype Oracles = Oracles(
    rateLimitOk: bool,      // `rateLimiterService.limit` resolves
    passwordMatches: bool,  // `argon2.verify(...) || bcrypt.compareSync(...)`
    argon2Hash: string,     // `argon2.hash(password)`
    hcaptchaOk: bool,
    mcaptchaOk: bool,
    recaptchaOk: bool,
    turnstileOk: bool,
    totpOk: bool,           // `twoFactorAuthenticate` resolves
    webAuthnOk: bool,       // `verifyAuthentication` answers true
    recordId: string)       // `idService.gen()` for a signin record

  predicate CaptchaPasses(o: Oracles, p: Captcha) {
    match p
    case HCaptcha => o.hcaptchaOk
    case MCaptcha => o.mcaptchaOk
    case ReCaptcha => o.recaptchaOk
    case Turnstile => o.turnstileOk
  }

  // ----- Responses -----

  datatype ApiError = ApiError(message: Option<string>, code: Option<string>, id: string)

  datatype Response =
    | ErrorBody(status: nat, error: ApiError)  // `{ error }` with a status code
    | Empty(status: nat)                       // a status code and no body
    | CaptchaRejected(provider: Captcha)       // `FastifyReplyError(400, err)` thrown
    | ProfileNotFound                          // `findOneByOrFail` throws
    | AuthChallenge(userId: UserId)            // WebAuthn authentication options
    | Session(id: UserId, i: string)           // `{ id: user.id, i: user.token }`

  /** The HTTP status of a response. An uncaught exception is answered with 500 by the framework. */
  function Status(r: Response): nat {
    match r
    case ErrorBody(s, _) => s
    case Empty(s) => s
    case CaptchaRejected(_) => 400
    case ProfileNotFound => 500
    case AuthChallenge(_) => 200
    case Session(_, _) => 200
  }

  const TooManyAttemptsId := "22d05606-fbcf-421a-a2db-b32610dcfd1b"
  const UnknownUserId := "6cc579cc-885d-43d8-95c2-b8c7fc963280"
  const SuspendedId := "e03a5f46-d309-4865-9b69-56282d94e1eb"
  const SystemAccountId := "s8dhsj9s-a93j-493j-ja9k-kas9sj20aml2"
  const NotApprovedId := "22d05606-fbcf-421a-a2db-b32241faft1b"
  const DefaultFailureId := "4e30e80c-e338-45a0-8c8f-44455efa3b76"
  const InvalidPasswordId := "932c904e-9460-45b7-9ce6-7ed33be7eb2c"
  const InvalidTotpId := "cdf1235b-ac71-46d4-a3a6-84ccce48df6f"
  const WebAuthnFailedId := "93b86c4b-72f9-40eb-9815-798928603d1e"

  const TooManyAttempts := ApiError(
    Some("Too many failed attempts to sign in. Try again later."),
    Some("TOO_MANY_AUTHENTICATION_FAILURES"),
    TooManyAttemptsId)

  const NotApproved := ApiError(
    Some("The account has not been approved by an admin yet. Try again later."),
    Some("NOT_APPROVED"),
    NotApprovedId)

  /** The inner `error(status, { id })` helper. */
  function Error(status: nat, id: string): Response {
    ErrorBody(status, ApiError(None, None, id))
  }

  /** The response of the inner `fail(status?, failure?)` helper, with its defaults. */
  function FailResponse(status: Option<nat>, failure: Option<ApiError>): Response {
    ErrorBody(status.GetOr(500), failure.GetOr(ApiError(None, None, DefaultFailureId)))
  }

  // ----- Trace -----

  /** Key, window, maximum and minimum interval of the signin rate limit: 10 per hour, 1 per second. */
  datatype Limit = Limit(key: string, duration: nat, max: nat, minInterval: nat)

  const SigninLimit := Limit("signin", 60 * 60 * 1000, 10, 1000)

  datatype Step =
    | CheckRateLimit(limit: Limit, ip: string)
    | FindUser(usernameLower: string)           // `findOneBy({ usernameLower, host: IsNull() })`
    | FindProfile(userId: UserId)
    | ComparePassword(userId: UserId)
    | VerifyCaptcha(provider: Captcha)
    | HashPassword(userId: UserId)              // `argon2.hash(password)`
    | UpdatePassword(userId: UserId, hash: string)
    | VerifyTotp(userId: UserId, token: string)
    | VerifyWebAuthn(userId: UserId)
    | InitiateWebAuthn(userId: UserId)
    | InsertSignin(record: SigninRecord)
    | UpdateApproved(userId: UserId)
    | StartSession(userId: UserId)              // `signinService.signin(request, reply, user)`

  datatype Run = Run(response: Response, steps: seq<Step>)

  // ----- Helpers -----

  function LowerChar(c: char): char {
    if 'A' <= c <= 'Z' then (c as int - 'A' as int + 'a' as int) as char else c
  }

  /** `toLowerCase()`, on ASCII letters. */
  function ToLower(s: string): (r: string)
    ensures |r| == |s|
    ensures forall i :: 0 <= i < |r| ==> !('A' <= r[i] <= 'Z')
    ensures forall i :: 0 <= i < |s| && !('A' <= s[i] <= 'Z') ==> r[i] == s[i]
    ensures forall i :: 0 <= i < |s| && 'A' <= s[i] <= 'Z' ==> 'a' <= r[i] <= 'z' && r[i] as int - s[i] as int == 'a' as int - 'A' as int
  {
    seq(|s|, i requires 0 <= i < |s| => LowerChar(s[i]))
  }

  predicate StartsWith(s: string, prefix: string) {
    |prefix| <= |s| && s[..|prefix|] == prefix
  }

  /** The first local user (no host) with the given lower-cased username. */
  function FindLocalUser(users: seq<User>, lower: string): (r: Option<User>)
    ensures r.Some? ==> r.value in users && r.value.usernameLower == lower && r.value.host.None?
    ensures r.None? <==> forall u :: u in users ==> !(u.usernameLower == lower && u.host.None?)
  {
    if users == [] then None
    else if users[0].usernameLower == lower && users[0].host.None? then Some(users[0])
    else FindLocalUser(users[1..], lower)
  }

  /** The first profile belonging to the given user. */
  function FindProfileOf(profiles: seq<Profile>, id: UserId): (r: Option<Profile>)
    ensures r.Some? ==> r.value in profiles && r.value.userId == id
    ensures r.None? <==> forall p :: p in profiles ==> p.userId != id
  {
    if profiles == [] then None
    else if profiles[0].userId == id then Some(profiles[0])
    else FindProfileOf(profiles[1..], id)
  }

  // ----- Captcha gate -----

  /** The providers consulted (in order) and the first that rejected, if any. */
  datatype CaptchaRun = CaptchaRun(checked: seq<Captcha>, failed: Option<Captcha>)

  /**
   * Consults the active providers of `ps` in order and stops at the first
   * rejection. `checked` holds exactly the active providers up to and
   * including the rejecting one.
   */
  function Captchas(ps: seq<Captcha>, meta: Meta, o: Oracles): (r: CaptchaRun)
    ensures forall p :: p in r.checked ==> p in ps && CaptchaActive(meta, p)
    ensures r.failed.None? <==> forall p :: p in ps && CaptchaActive(meta, p) ==> CaptchaPasses(o, p)
    ensures r.failed.Some? ==> r.checked != [] && r.checked[|r.checked| - 1] == r.failed.value
                               && !CaptchaPasses(o, r.failed.value)
    ensures forall i :: 0 <= i < |r.checked| - 1 ==> CaptchaPasses(o, r.checked[i])
    ensures r.failed.None? ==> forall p :: p in r.checked ==> CaptchaPasses(o, p)
  {
    if ps == [] then CaptchaRun([], None)
    else if !CaptchaActive(meta, ps[0]) then Captchas(ps[1..], meta, o)
    else if !CaptchaPasses(o, ps[0]) then CaptchaRun([ps[0]], Some(ps[0]))
    else
      var rest := Captchas(ps[1..], meta, o);
      CaptchaRun([ps[0]] + rest.checked, rest.failed)
  }

  function CaptchaSteps(ps: seq<Captcha>): (r: seq<Step>)
    ensures |r| == |ps| && forall i :: 0 <= i < |ps| ==> r[i] == VerifyCaptcha(ps[i])
  {
    if ps == [] then [] else [VerifyCaptcha(ps[0])] + CaptchaSteps(ps[1..])
  }

  // ----- Decision -----

  /** The signin record that `fail` appends. */
  function FailureRecord(req: Request, user: User, o: Oracles): SigninRecord {
    SigninRecord(o.recordId, user.id, req.ip, req.headers, false)
  }

  /** `fail(status, failure)`: append one failed signin record, then answer. */
  function Fail(req: Request, user: User, o: Oracles, done: seq<Step>, status: Option<nat>, failure: Option<ApiError>): Run {
    Run(FailResponse(status, failure), done + [InsertSignin(FailureRecord(req, user, o))])
  }

  function InvalidPassword(req: Request, user: User, o: Oracles, done: seq<Step>): Run {
    Fail(req, user, o, done, Some(403), Some(ApiError(None, None, InvalidPasswordId)))
  }

  /** The password upgrade done when the stored hash is a bcrypt (`$2…`) hash. */
  function Rehash(user: User, profile: Profile, o: Oracles): seq<Step> {
    if StartsWith(profile.password, "$2") then [HashPassword(user.id), UpdatePassword(user.id, o.argon2Hash)] else []
  }

  /** Approval auto-grant, then the session. */
  function Grant(cfg: Config, user: User, done: seq<Step>): Run {
    var approve := if !cfg.meta.approvalRequiredForSignup && !user.approved then [UpdateApproved(user.id)] else [];
    Run(Session(user.id, user.token), done + approve + [StartSession(user.id)])
  }

  /** No second factor enrolled: the captcha gate, then the password result. */
  function PasswordOnly(cfg: Config, req: Request, user: User, profile: Profile, o: Oracles, done: seq<Step>): Run {
    var gate := if cfg.testMode then CaptchaRun([], None) else Captchas(CaptchaOrder, cfg.meta, o);
    var gated := done + CaptchaSteps(gate.checked);
    if gate.failed.Some? then Run(CaptchaRejected(gate.failed.value), gated)
    else if o.passwordMatches then Grant(cfg, user, gated + Rehash(user, profile, o))
    else InvalidPassword(req, user, o, gated)
  }

  /** A TOTP token is given: the password, the hash upgrade, then the token. */
  function TotpPath(cfg: Config, req: Request, user: User, profile: Profile, o: Oracles, done: seq<Step>): Run
    requires req.token.Str?
  {
    if !o.passwordMatches then InvalidPassword(req, user, o, done)
    else
      var checked := done + Rehash(user, profile, o) + [VerifyTotp(user.id, req.token.s)];
      if !o.totpOk then Fail(req, user, o, checked, Some(403), Some(ApiError(None, None, InvalidTotpId)))
      else Grant(cfg, user, checked)
  }

  /** A WebAuthn assertion is given: the password or passwordless login, then the assertion. */
  function WebAuthnPath(cfg: Config, req: Request, user: User, profile: Profile, o: Oracles, done: seq<Step>): Run {
    if !o.passwordMatches && !profile.usePasswordLessLogin then InvalidPassword(req, user, o, done)
    else
      var checked := done + [VerifyWebAuthn(user.id)];
      if o.webAuthnOk then Grant(cfg, user, checked)
      else Fail(req, user, o, checked, Some(403), Some(ApiError(None, None, WebAuthnFailedId)))
  }

  /** Neither is given: the password or passwordless login, then a new WebAuthn challenge. */
  function ChallengePath(req: Request, user: User, profile: Profile, o: Oracles, done: seq<Step>): Run {
    if !o.passwordMatches && !profile.usePasswordLessLogin then InvalidPassword(req, user, o, done)
    else Run(AuthChallenge(user.id), done + [InitiateWebAuthn(user.id)])
  }

  /** Everything after the password comparison (lines 159-268). */
  function Decide(cfg: Config, req: Request, user: User, profile: Profile, o: Oracles, done: seq<Step>): Run {
    if !profile.twoFactorEnabled then PasswordOnly(cfg, req, user, profile, o, done)
    else if TokenPresent(req.token) then TotpPath(cfg, req, user, profile, o, done)
    else if req.hasCredential then WebAuthnPath(cfg, req, user, profile, o, done)
    else ChallengePath(req, user, profile, o, done)
  }

  /** The whole handler, from the rate limit to the response. */
  function Evaluate(cfg: Config, db: Db, req: Request, o: Oracles): (run: Run)
    ensures run.steps != [] && run.steps[0] == CheckRateLimit(SigninLimit, req.ip)
  {
    var limited := [CheckRateLimit(SigninLimit, req.ip)];
    if !o.rateLimitOk then Run(ErrorBody(429, TooManyAttempts), limited)
    else if Malformed(req) then Run(Empty(400), limited)
    else
      var lower := ToLower(req.username.s);
      var looked := limited + [FindUser(lower)];
      match FindLocalUser(db.users, lower)
      case None => Run(Error(404, UnknownUserId), looked)
      case Some(user) =>
        if user.isSuspended then Run(Error(403, SuspendedId), looked)
        else if user.isSystem then Run(Error(403, SystemAccountId), looked)
        else
          var loaded := looked + [FindProfile(user.id)];
          match FindProfileOf(db.profiles, user.id)
          case None => Run(ProfileNotFound, loaded)
          case Some(profile) =>
            if !user.approved && cfg.meta.approvalRequiredForSignup then Run(ErrorBody(403, NotApproved), loaded)
            else Decide(cfg, req, user, profile, o, loaded + [ComparePassword(user.id)])
  }

  // ----- Store writes -----

  /** `userProfilesRepository.update(id, { password: hash })`. */
  function SetPassword(profiles: seq<Profile>, id: UserId, hash: string): (r: seq<Profile>)
    ensures |r| == |profiles|
    ensures forall i {:trigger r[i]} :: 0 <= i < |r| ==> r[i].(password := profiles[i].password) == profiles[i]
    ensures forall i {:trigger r[i]} :: 0 <= i < |r| ==> if profiles[i].userId == id then r[i].password == hash else r[i] == profiles[i]
  {
    seq(|profiles|, i requires 0 <= i < |profiles| =>
      if profiles[i].userId == id then profiles[i].(password := hash) else profiles[i])
  }

  /** `usersRepository.update(id, { approved: true })`. */
  function SetApproved(users: seq<User>, id: UserId): (r: seq<User>)
    ensures |r| == |users|
    ensures forall i {:trigger r[i]} :: 0 <= i < |r| ==> r[i].(approved := users[i].approved) == users[i]
    ensures forall i {:trigger r[i]} :: 0 <= i < |r| ==> if users[i].id == id then r[i].approved else r[i] == users[i]
  {
    seq(|users|, i requires 0 <= i < |users| =>
      if users[i].id == id then users[i].(approved := true) else users[i])
  }

  /** The effect of one step on the stored rows; calls that only read change nothing. */
  function ApplyStep(db: Db, s: Step): Db {
    match s
    case InsertSignin(rec) => db.(signins := db.signins + [rec])
    case UpdatePassword(id, hash) => db.(profiles := SetPassword(db.profiles, id, hash))
    case UpdateApproved(id) => db.(users := SetApproved(db.users, id))
    case _ => db
  }

  /** The stored rows after the writes of `steps`, in order. */
  function Apply(db: Db, steps: seq<Step>): Db
    decreases |steps|
  {
    if steps == [] then db else ApplyStep(Apply(db, steps[..|steps| - 1]), steps[|steps| - 1])
  }
}
