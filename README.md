# Signin decision engine, main-router slot and dev-boot language rule

A Dafny model of three parts of the Misskey code base:

- **`SigninApiService.signin`** is the backend handler of the signin endpoint. It applies the signin rate limit, then checks the shape of the body. Next it looks up the local account by lower-cased username and rejects unknown, suspended and system accounts, and accounts that still await approval. Last, it compares the password and takes one of three verification paths:
  - **No second factor.** Captchas run, then the password result decides.
  - **TOTP token.** The token is checked.
  - **WebAuthn.** An assertion given in the request is checked; without one, a new challenge starts.

  Along the way it writes to the database: failed attempts go to the signin history, bcrypt hashes are replaced by argon2 hashes, and accounts are approved automatically.
  - `signin.dfy` (module `Signin`) states the handler as a pure function `Evaluate`. Its inputs are the instance configuration, the stored rows, the request, and the answers of the collaborators the model does not contain (`Oracles`). Its output is a `Run`: the response, together with the ordered trace of every collaborator call and store write. `Apply` replays the writes of a trace on the stored rows.
  - `signin_properties.dfy` (module `SigninProperties`) proves the handler's promises about ordering, responses and writes.
  - `signin_store.dfy` (module `SigninStore`) writes the handler imperatively. It is a `Store` class whose fields are the three tables, and its methods make the checks and writes in the source's order. Each method is proved against `Evaluate` and `Apply`.
- **The main-router slot** is `mainRouterHolder` with `getMainRouter` and `setMainRouter`. It is set once and guarded by throws. `MainRouterProxy` is the object exported as `mainRouter`, and it forwards every router operation through the guarded getter. All of this is in `main_router.dfy` (module `MainRouter`): the slot as a value with lemmas over any sequence of reads and sets, the slot as a class, and the proxy as a class.
- **The dev-boot language rule** chooses the UI language and writes it back to local storage. The choice falls through these steps:
  - the stored language, if the build supports it;
  - else the browser's language, if supported;
  - else the first supported language whose primary subtag is the browser's language;
  - else `en-US`.

  This is in `dev_boot.dfy` (module `DevBoot`). `option.dfy` (module `Optional`) holds the `Option` type.

Collaborators the model does not contain are parameters:
- the argon2/bcrypt password comparison, argon2 hashing, the rate limiter, the four captcha providers, TOTP and WebAuthn verification, and the id generator are the fields of `Oracles`;
- WebAuthn challenge creation is the step `InitiateWebAuthn(userId)` and the placeholder response `AuthChallenge(userId)`. The content of the challenge is not modelled;
- `navigator.language` and the `_LANGS_` table are arguments of the language rule;
- the router behind the proxy is a stand-in class (`Router`). It records each call it receives and answers queries from a fixed table.

Behaviour of the handler worth noting:
- **System accounts** (`SigninApiService.ts:137-141`). They are rejected through the same `error(403, { id })` helper as suspended accounts (`SigninApiService.ts:131-135`): same status, same `{ error: { id } }` body. Only the id differs, `s8dhsj9s-…` against `e03a5f46-…`.
- **Failure records** (`SigninApiService.ts:159-170`). One is written only by the `fail` helper, that is on the three credential-failure 403s. A captcha rejection (`SigninApiService.ts:172-197`) writes none, although the password comparison has already run. Starting a WebAuthn challenge (`SigninApiService.ts:257-268`) writes none either.
- **Hash upgrade on the TOTP path** (`SigninApiService.ts:223-230`). The bcrypt-to-argon2 upgrade is written before the token is checked, so a failed TOTP check keeps the new hash.

## Model

| member | source | states |
|---|---|---|
| `Signin.FindLocalUser` | packages/backend/src/server/api/SigninApiService.ts:119-123 | The user found has the lower-cased username and no host, and is in the table; none is found exactly when no local account has that username. |
| `Signin.FindProfileOf` | packages/backend/src/server/api/SigninApiService.ts:143 | The profile found belongs to the user and is in the table; none is found exactly when the user has no profile (the `OrFail` case). |
| `Signin.Captchas` | packages/backend/src/server/api/SigninApiService.ts:173-197 | Only enabled and fully configured providers are consulted. The gate fails exactly when one of them rejects; the failing provider is the last one consulted, and every earlier one passed. |
| `Signin.Malformed` | packages/backend/src/server/api/SigninApiService.ts:104-117 | The shape checks: a non-string username or password, or a token that is neither null/undefined nor a string. Stated by `SigninProperties.MalformedInputRejected`. |
| `Signin.TokenPresent` | packages/backend/src/server/api/SigninApiService.ts:216 | The `if (token)` test: the token is a non-empty string. Selects the TOTP path in `SigninProperties.TotpOutcomes` and `SessionIffPathSucceeds`. |
| `Signin.CaptchaActive` | packages/backend/src/server/api/SigninApiService.ts:174-192 | A provider runs only when enabled and every key it needs is set: hCaptcha, reCAPTCHA and Turnstile need their secret, mCaptcha needs its secret, sitekey and instance URL. Stated by `Signin.Captchas` and `SigninProperties.CaptchaGateInOrder`. |
| `Signin.Status` | packages/backend/src/server/api/SigninApiService.ts:85-102 | The HTTP status of each response; a captcha rejection is 400, and the uncaught missing-profile error is assumed to be the framework's 500. |
| `Signin.FailureRecord` | packages/backend/src/server/api/SigninApiService.ts:161-167 | The record `fail` appends: the id the generator returns (`o.recordId`), the user's id, the client address and headers, and `success: false`. Stated by `SigninProperties.FailureRecordedOnce`. |
| `Signin.ToLower` | packages/backend/src/server/api/SigninApiService.ts:121 | The lookup key has the username's length, contains no ASCII capital, keeps every other character, and maps each capital to its small letter. `SigninProperties.ToLowerIdempotent` adds that lower-casing is idempotent. |
| `SigninProperties.ToLowerIdempotent` | packages/backend/src/server/api/SigninApiService.ts:121 | Helper fact: lower-casing a lower-cased username changes nothing. |
| `Signin.Error` | packages/backend/src/server/api/SigninApiService.ts:85-88 | The inner `error(status, { id })` helper: the given status and a body holding only the id. Its answers are stated by `SigninProperties.AccountChecksInOrder` and `SigninProperties.RejectedResponses`. |
| `Signin.FailResponse` | packages/backend/src/server/api/SigninApiService.ts:169 | The answer of `fail`: the given status or 500, the given failure or id `4e30e80c-…`. Stated by `SigninStore.Store.FailWith`. |
| `Signin.Fail` | packages/backend/src/server/api/SigninApiService.ts:159-170 | One failed signin record for the user, then the `fail` answer. Stated by `SigninProperties.FailureRecordedOnce` and `SigninProperties.ApplySignins`. |
| `Signin.Rehash` | packages/backend/src/server/api/SigninApiService.ts:200-205 | The bcrypt-to-argon2 upgrade, also used at lines 224-228. Stated by `SigninProperties.RehashSteps`, `RehashPasswordOnly`, `RehashTotp` and `PasswordUpgrade`. |
| `Signin.Grant` | packages/backend/src/server/api/SigninApiService.ts:206-208 | Approval auto-grant, then the session. Stated by `SigninProperties.ApprovalAutoGrant` and `SigninProperties.SessionIffPathSucceeds`. |
| `Signin.PasswordOnly` | packages/backend/src/server/api/SigninApiService.ts:172-214 | The path without a second factor. Stated by `SigninProperties.PasswordOnlyOutcomes` and `SigninProperties.CaptchaGateInOrder`. |
| `Signin.TotpPath` | packages/backend/src/server/api/SigninApiService.ts:216-239 | The TOTP path. Stated by `SigninProperties.TotpOutcomes` and `SigninProperties.TotpRehashBeforeCheck`. |
| `Signin.WebAuthnPath` | packages/backend/src/server/api/SigninApiService.ts:240-256 | The WebAuthn assertion path. Stated by `SigninProperties.WebAuthnOutcomes`. |
| `Signin.ChallengePath` | packages/backend/src/server/api/SigninApiService.ts:257-268 | The WebAuthn challenge path. Stated by `SigninProperties.ChallengeOutcomes`. |
| `Signin.Decide` | packages/backend/src/server/api/SigninApiService.ts:172-268 | The dispatch on second factor, token and credential, after the password comparison. Stated by `SigninProperties.DecideShape`, `DecideSkipsCaptchas` and `SessionIffPathSucceeds`. |
| `Signin.SetPassword` | packages/backend/src/server/api/SigninApiService.ts:202-204 | Only the password of the user's profile changes, to the new hash; every other profile is unchanged. Idempotent by `SigninProperties.SetPasswordTwice`. |
| `Signin.SetApproved` | packages/backend/src/server/api/SigninApiService.ts:206 | Only the user's `approved` flag changes, to true; every other user is unchanged. Idempotent by `SigninProperties.SetApprovedTwice`. |
| `Signin.Apply` | packages/backend/src/server/api/SigninApiService.ts:161-206 | The stored rows after the writes of a trace. Stated by `SigninProperties.ApplySignins`, `ApplyProfiles`, `ApplyUsers` and `StoreEffects`. |
| `Signin.Evaluate` | packages/backend/src/server/api/SigninApiService.ts:90-92 | Every call starts with the signin rate-limit check for the client's address. |
| `SigninProperties.RateLimitFirst` | packages/backend/src/server/api/SigninApiService.ts:91-102 | A 429 is returned exactly when the rate limiter rejects. Its body is the fixed message, code `TOO_MANY_AUTHENTICATION_FAILURES` and id `22d05606-…10dcfd1b`, and the rate-limit check is the only step taken. |
| `SigninProperties.MalformedInputRejected` | packages/backend/src/server/api/SigninApiService.ts:104-117 | Behind the rate limit, the handler answers a bodyless 400 exactly for a malformed body: a non-string username or password, or a non-null non-string token. Nothing is looked up or written. |
| `SigninProperties.AccountChecksInOrder` | packages/backend/src/server/api/SigninApiService.ts:119-154 | The lookup is by lower-cased username. The first failing account check decides the response: unknown user 404, suspended 403, system account 403, missing profile `ProfileNotFound` (`findOneByOrFail` throws uncaught; assumed 500), unapproved while approval is required 403 `NOT_APPROVED`. |
| `SigninProperties.LookupSecond` | packages/backend/src/server/api/SigninApiService.ts:119-123 | Past the rate limit and the shape checks, the second step is the user lookup by lower-cased username. |
| `SigninProperties.OnlyAdmittedReachCredentials` | packages/backend/src/server/api/SigninApiService.ts:119-157 | The password comparison is reached exactly by the requests that pass every account check. |
| `SigninProperties.AdmittedCheckOrder` | packages/backend/src/server/api/SigninApiService.ts:90-157 | An admitted request starts with the rate limit, the user lookup, the profile lookup and the password comparison, in that order. |
| `SigninProperties.EvaluateRejected` | packages/backend/src/server/api/SigninApiService.ts:119-154 | A request that fails an account check consults only the rate limiter and the user and profile tables. |
| `SigninProperties.RejectedWritesNothing` | packages/backend/src/server/api/SigninApiService.ts:119-154 | A request that fails an account check writes no signin record, no hash and no approval, so the stored rows are unchanged. |
| `SigninProperties.NoSessionWhenRejected` | packages/backend/src/server/api/SigninApiService.ts:119-154 | A request that fails an account check never opens a session. |
| `SigninProperties.RejectedResponses` | packages/backend/src/server/api/SigninApiService.ts:119-154 | A request that fails an account check never answers with one of the credential-failure ids. |
| `SigninProperties.PasswordOnlyOutcomes` | packages/backend/src/server/api/SigninApiService.ts:172-214 | Without a second factor:<br>- a captcha rejection answers 400 naming an active provider that rejected, and writes nothing;<br>- otherwise a matching password opens the user's session without a failure record;<br>- a wrong password is a 403 `932c904e-…` with exactly one failure record. |
| `SigninProperties.TotpOutcomes` | packages/backend/src/server/api/SigninApiService.ts:216-239 | With a TOTP token, no captcha is consulted. A wrong password is a 403 `932c904e-…` with one record, and TOTP is never checked. A failed TOTP check is a 403 `cdf1235b-…` with one record. A passed one opens a session with no record. |
| `SigninProperties.TotpRehashBeforeCheck` | packages/backend/src/server/api/SigninApiService.ts:223-230 | On the TOTP path with a matching bcrypt hash, the hash update is written before the TOTP check. |
| `SigninProperties.WebAuthnOutcomes` | packages/backend/src/server/api/SigninApiService.ts:240-256 | With an assertion but no matching password and no passwordless login, the answer is a 403 `932c904e-…` with one record, and the assertion is not verified. Otherwise a verified assertion opens a session, and a rejected one is a 403 `93b86c4b-…` with one record. |
| `SigninProperties.ChallengeOutcomes` | packages/backend/src/server/api/SigninApiService.ts:257-268 | With neither a token nor an assertion, a failed password without passwordless login is a 403 with one record. Otherwise the call answers 200 with a WebAuthn challenge: no session and no write to the users, profiles or signin tables. The challenge stored by the WebAuthn service is not part of this model. |
| `SigninProperties.CaptchasConsultInOrder` | packages/backend/src/server/api/SigninApiService.ts:173-197 | The gate walks the list up to and including the first active provider that rejects (`Consulted`). It consults the active providers of that prefix, in list order. When nothing rejects, the prefix is the whole list. |
| `SigninProperties.CaptchaGateSkipped` | packages/backend/src/server/api/SigninApiService.ts:172-173 | No captcha is consulted in test mode, or for a request that fails an account check. |
| `SigninProperties.DecideSkipsCaptchas` | packages/backend/src/server/api/SigninApiService.ts:172-173 | When a second factor is enrolled, or in test mode, the verification paths consult no captcha. |
| `SigninProperties.CaptchaGateInOrder` | packages/backend/src/server/api/SigninApiService.ts:172-197 | Without a second factor and outside test mode, the captchas consulted in the whole call are the active providers among hCaptcha, mCaptcha, reCAPTCHA and Turnstile, in that order, up to the first rejection. When all pass, the whole list is covered. |
| `SigninProperties.RehashSteps` | packages/backend/src/server/api/SigninApiService.ts:200-205 | The upgrade writes a password update exactly for a `$2` (bcrypt) hash, and writes the argon2 hash for the user. |
| `SigninProperties.RehashPasswordOnly` | packages/backend/src/server/api/SigninApiService.ts:199-205 | Without a second factor, the hash is updated exactly when the captchas pass and the password matches a bcrypt hash. |
| `SigninProperties.RehashTotp` | packages/backend/src/server/api/SigninApiService.ts:224-229 | On the TOTP path, the hash is updated exactly when the password matches a bcrypt hash, whatever the TOTP outcome. |
| `SigninProperties.RehashNeverOnWebAuthn` | packages/backend/src/server/api/SigninApiService.ts:240-268 | The WebAuthn and challenge paths never update the password hash. |
| `SigninProperties.PasswordUpgrade` | packages/backend/src/server/api/SigninApiService.ts:199-229 | For an admitted request, the stored hash is replaced exactly under the upgrade condition, and only by `argon2.hash(password)` for the user. |
| `SigninProperties.DecideShape` | packages/backend/src/server/api/SigninApiService.ts:172-268 | Every verification outcome either goes through the session grant or adds neither approval nor session. |
| `SigninProperties.SessionIffPathSucceeds` | packages/backend/src/server/api/SigninApiService.ts:199-251 | A session is issued exactly when the path selected by the profile and request completes. It carries the user's id and token, and starting it is the last step. |
| `SigninProperties.ApprovalAutoGrant` | packages/backend/src/server/api/SigninApiService.ts:206 | The account is marked approved exactly on a session, when approval is not required and the account is unapproved. The mark is for that user and comes just before the session starts. |
| `SigninProperties.FailureRecordedOnce` | packages/backend/src/server/api/SigninApiService.ts:159-170 | At most one signin record is written: the user's, with `success: false`. It is written exactly on the 403 answers carrying one of the three credential-failure ids. |
| `SigninProperties.ApplySignins` | packages/backend/src/server/api/SigninApiService.ts:161-167 | Replaying a trace appends exactly its inserted records to the signin history, in order. |
| `SigninProperties.SetPasswordTwice` | packages/backend/src/server/api/SigninApiService.ts:202-204 | Helper fact for `ApplyProfiles`: writing the same hash twice is the same as writing it once. |
| `SigninProperties.SetApprovedTwice` | packages/backend/src/server/api/SigninApiService.ts:206 | Helper fact for `ApplyUsers`: approving twice is the same as approving once. |
| `SigninProperties.ApplyProfiles` | packages/backend/src/server/api/SigninApiService.ts:202-204 | A trace whose hash updates are all for one user and hash leaves the profiles either unchanged, or with exactly that user's hash replaced. |
| `SigninProperties.ApplyUsers` | packages/backend/src/server/api/SigninApiService.ts:206 | A trace whose approvals are all for one user leaves the users either unchanged, or with exactly that user approved. |
| `SigninProperties.StoreEffects` | packages/backend/src/server/api/SigninApiService.ts:159-237 | After an admitted call the store holds exactly:<br>- the user approved, on an auto-granted session;<br>- the argon2 hash, on an upgrade;<br>- the history extended by the failure record, if the call wrote one. |
| `SigninStore.Consult` | packages/backend/src/server/api/SigninApiService.ts:174-178 | One provider block: an inactive provider is skipped, an active one is consulted, and a rejection stops the gate. |
| `SigninStore.CaptchaGate` | packages/backend/src/server/api/SigninApiService.ts:173-197 | The four provider blocks in source order give exactly the gate of `Signin.Captchas`. |
| `SigninStore.Store.LookupUser` | packages/backend/src/server/api/SigninApiService.ts:120-123 | The scan returns the first local account with the lower-cased username, as `FindLocalUser` specifies. |
| `SigninStore.Store.LookupProfile` | packages/backend/src/server/api/SigninApiService.ts:143 | The scan returns the user's first profile, as `FindProfileOf` specifies. |
| `SigninStore.Store.AppendSignin` | packages/backend/src/server/api/SigninApiService.ts:161-167 | The record is appended to the signin history, and the other tables stay unchanged. |
| `SigninStore.Store.StorePassword` | packages/backend/src/server/api/SigninApiService.ts:202-204 | The user's stored hash is replaced, and the other tables stay unchanged. |
| `SigninStore.Store.Approve` | packages/backend/src/server/api/SigninApiService.ts:206 | The user is marked approved, and the other tables stay unchanged. |
| `SigninStore.Store.FailWith` | packages/backend/src/server/api/SigninApiService.ts:159-170 | `fail` appends one failed record, then answers with the given status and id, defaulting to 500 and `4e30e80c-…`. |
| `SigninStore.Store.UpgradeHash` | packages/backend/src/server/api/SigninApiService.ts:200-205 | The store afterwards holds the writes of the upgrade steps. |
| `SigninStore.Store.GrantSession` | packages/backend/src/server/api/SigninApiService.ts:206-208 | Auto-approval, then the session, with the store and the answer as `Grant` gives them. |
| `SigninStore.Store.SigninWithPassword` | packages/backend/src/server/api/SigninApiService.ts:172-214 | The path without a second factor against the store: its answer and new store are those of `PasswordOnly`. |
| `SigninStore.Store.SigninWithTotp` | packages/backend/src/server/api/SigninApiService.ts:216-239 | The TOTP path against the store: its answer and new store are those of `TotpPath`. |
| `SigninStore.Store.SigninWithWebAuthn` | packages/backend/src/server/api/SigninApiService.ts:240-256 | The assertion path against the store: its answer and new store are those of `WebAuthnPath`. |
| `SigninStore.Store.StartChallenge` | packages/backend/src/server/api/SigninApiService.ts:257-268 | The challenge path against the store: its answer and new store are those of `ChallengePath`. |
| `SigninStore.Store.Signin` | packages/backend/src/server/api/SigninApiService.ts:62-270 | The whole handler against the store. The answer is `Evaluate`'s, and the new store is the old one with `Evaluate`'s writes replayed, so every property above holds of it. |
| `MainRouter.GetMainRouter` | packages/frontend/src/router/main.ts:42-49 | Throws `mainRouter is not found.` exactly on an empty slot; otherwise returns the router held. |
| `MainRouter.SetMainRouter` | packages/frontend/src/router/main.ts:55-61 | Throws `mainRouter is already exists.` exactly on a held slot, which it leaves unchanged; otherwise the slot holds the given router. |
| `MainRouter.HeldNeverChanges` | packages/frontend/src/router/main.ts:55-60 | Once the slot holds a router, no sequence of reads and sets changes it. |
| `MainRouter.FirstSetWins` | packages/frontend/src/router/main.ts:55-61 | Starting from the empty slot, the router held after any sequence of reads and sets is the one given to the first set. |
| `MainRouter.ReadsSeeFirstSet` | packages/frontend/src/router/main.ts:42-49 | Every read throws `mainRouter is not found.` before the first set, and afterwards returns the first set's router. |
| `MainRouter.LaterSetsThrow` | packages/frontend/src/router/main.ts:55-58 | Every set after the first throws `mainRouter is already exists.`. |
| `MainRouter.OutcomesLength` | packages/frontend/src/router/main.ts:42-61 | Helper fact for `OutcomeAt`: every read or set has exactly one outcome. |
| `MainRouter.OutcomeAt` | packages/frontend/src/router/main.ts:42-61 | Each outcome is that of its own operation, on the slot left by the operations before it. |
| `MainRouter.MainRouterHolder.constructor` | packages/frontend/src/router/main.ts:197 | The slot starts empty. |
| `MainRouter.MainRouterHolder.Get` | packages/frontend/src/router/main.ts:42-49 | `getMainRouter`: throws the not-found error on an empty slot, and otherwise returns the held router. |
| `MainRouter.MainRouterHolder.Set` | packages/frontend/src/router/main.ts:55-61 | `setMainRouter`: throws the already-exists error and leaves the slot alone when it is held, and otherwise stores the router. |
| `MainRouter.MainRouterProxy.constructor` | packages/frontend/src/router/main.ts:71-73 | The proxy keeps its supplier. |
| `MainRouter.MainRouterProxy.Forward` | packages/frontend/src/router/main.ts:75-140 | A call through the supplier either throws not-found, or is handled by the held router and nothing else. The held router logs the call, and the answer is the router's. |
| `MainRouter.MainRouterProxy.ForwardVoid` | packages/frontend/src/router/main.ts:103-117 | A `void` call is forwarded the same way, and its answer is dropped. |
| `MainRouter.MainRouterProxy.ForwardChain` | packages/frontend/src/router/main.ts:142-194 | A chaining call is forwarded the same way, and returns the proxy itself. |
| `MainRouter.MainRouterProxy.GetNavHook` | packages/frontend/src/router/main.ts:87-89 | The `navHook` getter reads the held router's hook, or throws not-found. |
| `MainRouter.MainRouterProxy.SetNavHook` | packages/frontend/src/router/main.ts:91-93 | The `navHook` setter writes the held router's hook, or throws not-found. |
| `MainRouter.MainRouterProxy.Current` | packages/frontend/src/router/main.ts:75-77 | `current` is forwarded to the held router, and throws before the set. |
| `MainRouter.MainRouterProxy.CurrentRef` | packages/frontend/src/router/main.ts:79-81 | `currentRef` is forwarded to the held router, and throws before the set. |
| `MainRouter.MainRouterProxy.CurrentRoute` | packages/frontend/src/router/main.ts:83-85 | `currentRoute` is forwarded to the held router, and throws before the set. |
| `MainRouter.MainRouterProxy.GetCurrentKey` | packages/frontend/src/router/main.ts:95-97 | `getCurrentKey` is forwarded to the held router, and throws before the set. |
| `MainRouter.MainRouterProxy.GetCurrentPath` | packages/frontend/src/router/main.ts:99-101 | `getCurrentPath` is forwarded to the held router, and throws before the set. |
| `MainRouter.MainRouterProxy.Push` | packages/frontend/src/router/main.ts:103-105 | `push` is forwarded with its path and flag, and throws before the set. |
| `MainRouter.MainRouterProxy.Replace` | packages/frontend/src/router/main.ts:107-109 | `replace` is forwarded with its path and key, and throws before the set. |
| `MainRouter.MainRouterProxy.Resolve` | packages/frontend/src/router/main.ts:111-113 | `resolve` is forwarded, and the answer is the router's. |
| `MainRouter.MainRouterProxy.Init` | packages/frontend/src/router/main.ts:115-117 | `init` is forwarded, and throws before the set. |
| `MainRouter.MainRouterProxy.EventNames` | packages/frontend/src/router/main.ts:119-121 | `eventNames` is forwarded, and the answer is the router's. |
| `MainRouter.MainRouterProxy.Listeners` | packages/frontend/src/router/main.ts:123-127 | `listeners` is forwarded with its event, and the answer is the router's. |
| `MainRouter.MainRouterProxy.ListenerCount` | packages/frontend/src/router/main.ts:129-133 | `listenerCount` is forwarded with its event, and the answer is the router's. |
| `MainRouter.MainRouterProxy.Emit` | packages/frontend/src/router/main.ts:135-140 | `emit` is forwarded with its event and arguments, and the answer is the router's. |
| `MainRouter.MainRouterProxy.On` | packages/frontend/src/router/main.ts:142-149 | `on` is forwarded, and returns the proxy, not the router. |
| `MainRouter.MainRouterProxy.AddListener` | packages/frontend/src/router/main.ts:151-158 | `addListener` is forwarded, and returns the proxy. |
| `MainRouter.MainRouterProxy.Once` | packages/frontend/src/router/main.ts:160-167 | `once` is forwarded, and returns the proxy. |
| `MainRouter.MainRouterProxy.RemoveListener` | packages/frontend/src/router/main.ts:169-177 | `removeListener` is forwarded with all its arguments, and returns the proxy. |
| `MainRouter.MainRouterProxy.Off` | packages/frontend/src/router/main.ts:179-187 | `off` is forwarded with all its arguments, and returns the proxy. |
| `MainRouter.MainRouterProxy.RemoveAllListeners` | packages/frontend/src/router/main.ts:189-194 | `removeAllListeners` is forwarded, and returns the proxy. |
| `MainRouter.Boot` | packages/frontend/src/router/main.ts:197-199 | At start the slot is empty, and `mainRouter` is a proxy that reads from it. |
| `MainRouter.SetOnceScenario` | packages/frontend/src/router/main.ts:42-61 | A proxy call before the set throws not-found, and a second set throws already-exists. A later call reaches the first router only. |
| `MainRouter.ChainScenario` | packages/frontend/src/router/main.ts:142-187 | Chained listener calls answer with the proxy each time, and reach the held router in order. |
| `MainRouter.NavHookScenario` | packages/frontend/src/router/main.ts:87-93 | A hook written through the proxy is read back through it, and is the held router's hook. |
| `DevBoot.Supported` | packages/frontend/src/_dev_boot_.ts:22 | The supported codes are the first components of the language table, in order. |
| `DevBoot.Primary` | packages/frontend/src/_dev_boot_.ts:28 | `split('-')[0]` is the longest prefix without `-`: the whole string, or what stands before its first `-`. |
| `DevBoot.FirstMatch` | packages/frontend/src/_dev_boot_.ts:28 | The position found matches, and no entry before it matches; the end means no entry matches. |
| `DevBoot.Find` | packages/frontend/src/_dev_boot_.ts:28 | Nothing is found exactly when no supported entry has the browser language as primary subtag; otherwise the entry found has it, and no earlier entry does. |
| `DevBoot.ResolveLang` | packages/frontend/src/_dev_boot_.ts:22-33 | The chosen language is always supported or `en-US`. |
| `DevBoot.KeepsStored` | packages/frontend/src/_dev_boot_.ts:23-24 | A supported stored language is kept, whatever the browser language. |
| `DevBoot.ResolveLangCases` | packages/frontend/src/_dev_boot_.ts:22-33 | Each outcome holds when its condition does:<br>- the stored language, when supported;<br>- else the browser language, when supported;<br>- else the first entry whose primary subtag is the browser language;<br>- else `en-US`, exactly when no entry matches. |
| `DevBoot.PrimaryOfRegional` | packages/frontend/src/_dev_boot_.ts:28 | A browser language without `-` is the primary subtag of each of its regional variants. |
| `DevBoot.RerunKeepsChoice` | packages/frontend/src/_dev_boot_.ts:24-37 | On a supported choice, running the rule again on it returns it, whatever the browser language. |
| `DevBoot.StoredItem` | packages/frontend/src/_dev_boot_.ts:23 | `getItem` returns a value exactly for a present key, and that value is the stored one. |
| `DevBoot.LocalStorage.GetItem` | packages/frontend/src/_dev_boot_.ts:23 | Reading a key returns the stored value, or `null`. |
| `DevBoot.LocalStorage.SetItem` | packages/frontend/src/_dev_boot_.ts:37 | Writing a key replaces its value, and leaves the other keys alone. |
| `DevBoot.LocalStorage.DetectLanguage` | packages/frontend/src/_dev_boot_.ts:22-37 | Reads the stored `lang` and returns the rule's choice. Storage afterwards differs only in `lang`, which holds that choice. |
| `DevBoot.BootTwice` | packages/frontend/src/_dev_boot_.ts:23-37 | A second boot on the written-back storage keeps the first choice when that choice is supported; any other choice is `en-US`. |

## Left out

- Crypto is represented only by its answers, the fields of `Oracles`: argon2/bcrypt comparison, argon2 hashing, TOTP and WebAuthn verification.
- `Signin.ChallengePath`: WebAuthn challenge creation is only the step `InitiateWebAuthn(userId)` and the placeholder response `AuthChallenge(userId)`. The options that `initiateAuthentication` returns and the challenge the WebAuthn service stores are not modelled, so two challenges for the same user look alike.
- The captcha response fields of the body are not modelled. Each provider is represented by its enabled flag, its keys and its pass or fail answer. The provider's error object inside the 400 is not modelled.
- The rate limiter's counters and windows, and `getIpHash`, are not part of this model. The limiter is a pass or fail answer, and the check records the limit and the raw address.
- `Signin.ToLower`: `toLowerCase` is modelled on ASCII letters only, because Unicode case mapping has no counterpart here. The source differs on other letters: in JavaScript `"\u212Aelvin".toLowerCase()` (Kelvin sign) is `"kelvin"`, so the source finds the account `kelvin` where the model answers 404, and `"İ".toLowerCase()` is two code units long where the model keeps one.
- The stored password hash is taken to be non-null, because the non-null assertion `profile.password!` in the source assumes it.
- The effects after success that `SigninService.signin` defers with `setImmediate` are left out. They are fire-and-forget I/O: the notification, the success record, the stream event and the email. The model keeps only the `StartSession` step and the `{ id, i }` answer.
- The repository updates of hash and approval are not awaited in the source. The model performs them in program order, so interleaving with other requests is not modelled.
- An `argon2.hash` failure inside the TOTP `try` block would be answered as a TOTP failure (`cdf1235b-…`). It is not modelled, because the hash is an oracle that always answers.
- Uncaught errors are not modelled beyond the missing profile. For `ProfileNotFound` the model assumes the framework's 500.
- The CORS headers of the reply are not modelled.
- `setupRouter` is not modelled, because it is browser wiring: `window`, `history`, `popstate` and `scroll` (`main.ts:16-40`). The event-emitter and `IRouter` semantics behind the proxy are not part of this model. The router stand-in records calls and answers from a table.
- The DOM and storage work of the dev boot script is not modelled: forced error, locale, version, theme, fonts, wallpaper and custom CSS. The `locale[1]` lookup of line 38, which can fail on an undefined entry, is not modelled either.
