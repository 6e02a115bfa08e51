# A verified model of ldap_manager

This project models the parts of `ldap_manager` whose correctness is a matter of whole
histories, interleavings or unbounded strings, and proves what they promise. To check it, use
`dafny verify dfyconfig.toml`.

## What is modelled

- **Strings and names** (`Text`, `DistinguishedNames`): strip, split and join; the escaping,
  splitting and reading of distinguished names as the directory client writes them. The escaping
  is the code's own variant of section 2.4 of RFC 4514, and its own round trip is what is proved.
- **Failover** (`Failover`): the circuit breaker and the order in which connections are tried,
  for any sequence of requests against endpoints that behave in any way.
- **The expiring store** (`Tokens`, `TokenHistory`, `RateLimiter`): Redis as a map of keys with
  deadlines and a clock in milliseconds; the token index, and the fixed-window limiter. An
  independent function reads off a history who owns a token, and the store is proved to agree.
- **One-time codes for share links** (`ShareOtp`, with the timing rule in `ShareOtpTiming` and the
  mail limits in `ShareOtpMails`) and **password links** (`PasswordLinks`), on top of that store.
- **The tenant gate** (`TenantGate`, `GateRuns`) and **token revocation** (`Revocation`,
  `RevocationRuns`): each once as the class the code has, and once as a machine in which reading
  the clock, reading the cache, asking the source and storing the answer are separate steps of
  any number of threads.
- **The OAuth authority** (`OAuth`, `AuthorizeEndpoint`, `TokenEndpoint` for single requests;
  `OAuthMachine`, `OAuthInvariant`, `OAuthSteps`, `OAuthRuns`, `OAuthTheorems`, `OAuthGate`,
  `OAuthLoss`, `OAuthLostToken` for interleaved ones). In the machine a token request is
  authenticated, peeks, calls the gate, consumes, calls the gate again, and mints together with
  reissuing, each in a step of its own, mixed with those of other requests, with authorizations,
  consent, client changes, expiry, time and tenant changes. `OAuthAlone` joins the two: a request
  of the machine that nothing interleaves does what the endpoint does; `OAuthProof` says what proof
  each token rests on.
- **Directory administration** (`Directory`, `DirectoryRuns`): the seven requests that change
  groups, with auditing on or off, an audit log that may refuse, and a directory that may fail
  at any write, with or without having made it.
- **Service credentials** (`ServiceCredentials`), and what becomes of them when a membership ends
  (`Offboarding`).
- **The encodings** (`Encodings`, `Base32`, `OneTimePassword`): base64url after section 5 of
  RFC 4648 and section 2 of RFC 7518, base32 after section 6 of RFC 4648, HOTP after section 5.3
  of RFC 4226, TOTP after section 4.2 of RFC 6238.

## How

Each object that the code updates in place is a class whose methods are proved against functions
on its state; each history is a sequence of events, run by a `Step` function, and what holds of
every history is proved by induction over it. An event that is not enabled, or that offers a
random token that was seen before, changes nothing.

The machine's steps follow the code as listed here.

| step of `OAuthMachine` | code |
|---|---|
| `Authorizing`, `Deciding`, `IssuedCode` | `routers/oauth.py` 170-286 |
| `Submitting` | `routers/oauth.py` 319-340, 382 |
| `Dispatching`, `ConsumingCode`, `Redeemed` | `routers/oauth.py` 384-405 |
| `Peeking`, `ConsumingRefresh`, `Rotated` | `routers/oauth.py` 407-419 |
| `CheckedService`, `ServicePlan` | `routers/oauth.py` 425-439 |
| `Calling`, `Gating`, `Refusal` | `routers/oauth.py` 78-84, 348 |
| `Minting` | `routers/oauth.py` 343-363 |

## Where the code differs from what it or its documents say

- The index of a uid's tokens is meant to be given a deadline that outlives its tokens
  (`tokens.py` 66-71). The conditional expiry never gives a key its first deadline, so the index
  never expires (`TokenHistory.IndexNeverExpires`). Every live token is in it all the same.
- A uid that ends in whitespace does not survive the trip through its DN, nor does a tenant with
  whitespace around it; for all others the round trip is exact.
- The limiter admits up to twice its limit minus one within one window's length, and that is
  exact.
- The check of the tenant before a refresh token is consumed covers the one at the mint when gate
  calls do not overlap. When they do, a late refusal can overwrite a fresh admission, and a token
  is then lost although its deadline has not passed. That can happen exactly while some call for
  the tenant is under way, past its look at the cache, that does not bring an admission lasting
  as long (`GateRuns.CoverIff` for the gate, `OAuthLoss.LossIff` for the token;
  `OAuthLostToken.TokenLostBeforeDeadline` is a run in which it does).
- A reset whose directory write raises leaves its `ok` audit record standing
  (`PasswordLinks.ResetLeavesOkIff`); a change by the owner does not.
- The last-administrator guard never prevents anything the self-removal guard leaves possible
  (`DirectoryRuns.LastAdministratorMeans`).
- An invitation succeeds exactly if it names no role twice outside those already held; otherwise
  it fails in the directory after it has been half carried out
  (`DirectoryRuns.InvitationSucceedsIff`, `DirectoryRuns.InvitationStops`).
- Auditing is off by default (`config.py` 108), and then every record is accepted and none is
  kept (`audit.py` 74-77): a change of groups has its record exactly if auditing is on
  (`DirectoryRuns.RecordedFirst`).
- A key is meant not to outlive membership of its tenant (`service_cred.py` 226-230,
  `admin_users.py` 302-304, 335-338). The check of a key never looks at membership, and only the
  removal of a user from the tenant purges keys; taking away or deleting the last role leaves
  them working (`Offboarding.SessionsEndIff`, `Offboarding.LastRoleKeepsSession`).
- The revocation cache may hold one entry even if it is configured to hold none.
- The JWK form of zero is empty (`Encodings.ZeroIsEmpty`); section 2 of RFC 7518 asks for `AA`.
- Near the epoch a TOTP check raises instead of answering no (`OneTimePassword.AcceptedMeans`).

## Model

| member | source | states |
|---|---|---|
| Text.SplitJoin | src/ldap_manager/routers/oauth.py:174-175 | splitting a joined scope string gives back exactly the scopes that were joined, in order, for any words without whitespace |
| Text.JoinIs | src/ldap_manager/routers/oauth.py:174-175 | joining puts exactly one blank between each two words |
| Text.SplitReads | src/ldap_manager/routers/oauth.py:145-145 | splitting any string: whitespace of any kind and amount ends a word and is otherwise skipped |
| Text.Keep | src/ldap_manager/routers/oauth.py:145-145 | filtering a scope list keeps a word exactly if it is both asked for and allowed |
| Text.KeepPlaces | src/ldap_manager/routers/oauth.py:145-145 | filtering keeps the order and the repetitions of the list it filters |
| Text.StripFixed | src/ldap_manager/ldap_client.py:437-443 | strip leaves a string alone exactly if it neither starts nor ends in whitespace |
| Text.StripIs | src/ldap_manager/ldap_client.py:437-443 | strip gives the core between any outer whitespace |
| Text.NormMeans | src/ldap_manager/oauth_consent.py:53-54 | normalising a list gives exactly its entries without surrounding whitespace, blank ones dropped |
| Text.CaseFolds | src/ldap_manager/ldap_client.py:446-447 | two texts agree in lower case, or in upper case, exactly if they differ in the case of letters only |
| DistinguishedNames.EscapeDn | src/ldap_manager/ldap_client.py:380-387 | the escaping loop computes the escaping function that the round-trip lemmas are about |
| DistinguishedNames.UnescapeDn | src/ldap_manager/ldap_client.py:411-422 | the unescaping loop, with its escape flag, computes the unescaping function |
| DistinguishedNames.SplitDn | src/ldap_manager/ldap_client.py:390-408 | the splitting loop computes the split at unescaped commas |
| DistinguishedNames.UnescapeEscape | src/ldap_manager/ldap_client.py:380-422 | unescaping undoes escaping, for every string |
| DistinguishedNames.EscapeInjective | src/ldap_manager/ldap_client.py:380-387 | different values are escaped differently |
| DistinguishedNames.EscapeSpells | src/ldap_manager/ldap_client.py:380-387 | exactly the nine special characters get a backslash, and nothing else changes |
| DistinguishedNames.UnescapeReads | src/ldap_manager/ldap_client.py:411-422 | reading any string: a backslash is dropped and the character after it taken as it is |
| DistinguishedNames.SplitBuilt | src/ldap_manager/ldap_client.py:390-408 | a DN built on a base splits into exactly one component and then the components of the base, whatever the value contains |
| DistinguishedNames.SplitReads | src/ldap_manager/ldap_client.py:390-408 | splitting any DN: a part without backslashes ends at its comma and is kept without its outer whitespace, unless it is blank |
| DistinguishedNames.UidOfUserDn | src/ldap_manager/ldap_client.py:425-434 | reading the uid out of a user DN gives the uid without its trailing whitespace |
| DistinguishedNames.UidReads | src/ldap_manager/ldap_client.py:425-434 | reading the uid of any DN: the unescaped value of the first component, or the whole where there is none |
| DistinguishedNames.UidRoundTrip | src/ldap_manager/ldap_client.py:82-83 | the round trip uid to DN to uid is the identity exactly for uids that do not end in whitespace |
| DistinguishedNames.UidRoundTripFails | src/ldap_manager/ldap_client.py:425-434 | a uid ending in a space that comes back without it |
| DistinguishedNames.TenantOfRoleDn | src/ldap_manager/ldap_client.py:437-443 | reading the tenant out of a role DN gives the tenant stripped on both sides, for every role name |
| DistinguishedNames.FirstOuReads | src/ldap_manager/ldap_client.py:437-443 | reading the tenant of any group DN: the unescaped value of the first `ou`, whatever the case and spacing of the key |
| DistinguishedNames.TenantRoundTrip | src/ldap_manager/ldap_client.py:88-89 | the tenant comes back unchanged exactly if it has no surrounding whitespace |
| DistinguishedNames.UserDnInjective | src/ldap_manager/ldap_client.py:82-83 | different users have different DNs |
| DistinguishedNames.RoleDnInjective | src/ldap_manager/ldap_client.py:85-89 | different pairs of tenant and role have different group DNs |
| DistinguishedNames.DnsAreSpelled | src/ldap_manager/ldap_client.py:82-89 | a user DN and a group DN as they are spelled, one of them with an escaped comma |
| DistinguishedNames.UserDnUnderBase | src/ldap_manager/ldap_client.py:450-454 | a user DN lies under the user base exactly if the base has a component at all |
| DistinguishedNames.RoleDnUnderTenant | src/ldap_manager/ldap_client.py:450-454 | every group DN lies under the DN of its tenant |
| DistinguishedNames.DnUnderMeans | src/ldap_manager/ldap_client.py:450-454 | one DN lies under another exactly if it has more components and ends in all of the other's, up to case and blanks, and the other has one at all |
| DistinguishedNames.DnUnderStrictOrder | src/ldap_manager/ldap_client.py:450-454 | lying under is irreflexive, asymmetric and transitive |
| Failover.CircuitBreaker.Trip | src/ldap_manager/failover.py:47-48 | a trip opens the breaker until one cooldown from now |
| Failover.CircuitBreaker.Reset | src/ldap_manager/failover.py:50-51 | a reset closes the breaker |
| Failover.LdapClient.EndpointsFor | src/ldap_manager/ldap_client.py:95-104 | the order of endpoints for reads and writes; only a write is ever refused outright |
| Failover.LdapClient.Open | src/ldap_manager/ldap_client.py:106-127 | the loop contacts the endpoints in order up to the first that accepts, and moves the breaker by the last contact with the master |
| Failover.BreakerTellsHistory | src/ldap_manager/ldap_client.py:106-127 | after any history the breaker holds exactly what the latest contact with the master says |
| Failover.WritesNeverFailOver | src/ldap_manager/ldap_client.py:95-127 | after any history a write contacts the master only; it is refused without contact exactly in replicated mode while the latest master contact failed less than a cooldown ago, and otherwise succeeds exactly if the master accepts |
| Failover.ReadsReachAnyEndpoint | src/ldap_manager/ldap_client.py:95-127 | after any history a read succeeds exactly if some configured endpoint accepts, connects to one that does, and asks the master first unless it is cooling down |
| Failover.ReplicaReadsKeepCooldown | src/ldap_manager/ldap_client.py:106-127 | reads answered by the replica neither contact the master nor extend the cooldown |
| Failover.ContactHeals | src/ldap_manager/failover.py:35-51 | a contact that reaches a recovered master ends the cooldown at once |
| Tokens.TokenStore.Issue | src/ldap_manager/tokens.py:56-72 | issuing sets the token with its lifetime, indexes it under its owner, and extends the index only where the conditional expiry does |
| Tokens.TokenStore.Consume | src/ldap_manager/tokens.py:74-88 | consuming answers the owner of a live token and removes it from the tokens and from the index, and nothing else |
| Tokens.ConsumedIndex | src/ldap_manager/tokens.py:74-88 | a consumed token is gone from its owner's index, and nothing else is |
| Tokens.TokenStore.PeekToken | src/ldap_manager/tokens.py:90-101 | peeking answers the owner of a live token |
| Tokens.TokenStore.RevokeAllFor | src/ldap_manager/tokens.py:103-114 | the loop deletes exactly the indexed tokens of the owner, then the index |
| Tokens.RevokedIndex | src/ldap_manager/tokens.py:103-114 | a revocation leaves nothing of the owner in the index, and all else |
| Tokens.TokenStore.IssueCode | src/ldap_manager/tokens.py:119-124 | one live code per kind and owner; a new one replaces the old |
| Tokens.TokenStore.ConsumeCode | src/ldap_manager/tokens.py:126-139 | a right code is consumed, a wrong one is not |
| Tokens.TokenStore.SetMarker | src/ldap_manager/tokens.py:141-147 | a marker is set with its lifetime |
| Tokens.TokenStore.GetMarker | src/ldap_manager/tokens.py:149-156 | a marker past its lifetime reads as absent |
| Tokens.TokenStore.RateOk | src/ldap_manager/tokens.py:158-167 | the fixed-window counter: counts up within a life, opens a new life at the first call after it, never refuses without a positive limit |
| TokenHistory.IndexCoversLive | src/ldap_manager/tokens.py:56-114 | after any history every token that resolves is in its owner's live index |
| TokenHistory.IndexNeverExpires | src/ldap_manager/tokens.py:66-71 | after any history no index has a deadline, because the conditional expiry never gives one to a key that has none |
| TokenHistory.RevokeIsExact | src/ldap_manager/tokens.py:103-114 | after any history, revoking an owner ends that owner's tokens of every kind and leaves every other token as it was |
| TokenHistory.RevokedForGood | src/ldap_manager/tokens.py:103-114 | a token revoked with its owner never resolves again, whatever happens later |
| TokenHistory.DeadForever | src/ldap_manager/tokens.py:74-114 | a token once dead stays dead |
| TokenHistory.StoreTellsHistory | src/ldap_manager/tokens.py:56-114 | the store answers for every token and every later moment exactly what the history of issuing, consuming, revoking and waiting says |
| RateLimiter.LifetimeBound | src/ldap_manager/tokens.py:158-167 | a life that opens where there is no counter, or at or after the end of the one before, lets through at most the limit until its own end |
| RateLimiter.SlidingBound | src/ldap_manager/tokens.py:158-167 | any interval as long as the window lets through at most twice the limit minus one |
| RateLimiter.SlidingBoundReached | src/ldap_manager/tokens.py:158-167 | a history that reaches twice the limit minus one: the bound is exact |
| RateLimiter.StoreSlidingBound | src/ldap_manager/tokens.py:158-167 | the same bound for calls on one bucket of the store |
| RateLimiter.OtherBuckets | src/ldap_manager/tokens.py:158-167 | a call on one bucket leaves every other bucket alone |
| ShareOtp.ShareOtpDoor.EmailChallenge | src/ldap_manager/routers/share_otp.py:116-173 | the challenge request: both mail limits, the code stored and the sending time marked, whether or not the mail goes out |
| ShareOtpMails.ChallengeAnswers | src/ldap_manager/routers/share_otp.py:116-173 | what a challenge is answered: the wait of the first mail limit that is used up, otherwise whether the mail went out |
| ShareOtpMails.MailsPerAddress | src/ldap_manager/routers/share_otp.py:129-135 | over any run at most twice the limit minus one codes are mailed for a link to an address within the window's length |
| ShareOtpMails.MailsPerLink | src/ldap_manager/routers/share_otp.py:137-142 | over any run at most twice the daily limit minus one codes are mailed for a link within 24 hours |
| ShareOtp.ShareOtpDoor.EmailVerify | src/ldap_manager/routers/share_otp.py:177-253 | the verification request: timing, the charging loop, the comparison and the recipient token, as the function that the run results are about |
| ShareOtp.ShareOtpDoor.TokenCheck | src/ldap_manager/routers/share_otp.py:263-274 | a recipient token passes exactly if it is live and belongs to this link and address |
| ShareOtp.VerifyCharges | src/ldap_manager/routers/share_otp.py:213-229 | an attempt costs its weight on its own counter and no other, and is locked out exactly if the counter then exceeds the limit |
| ShareOtpTiming.AttemptsAreRightlyTimed | src/ldap_manager/routers/share_otp.py:193-217 | over any run, an attempt weighs the timing weight exactly if the newest code was stored within its lifetime and fewer than the minimum of whole seconds before, or the last attempt was made within the window and fewer than the minimum of milliseconds before; otherwise one; and which flag it is answered |
| ShareOtpTiming.NextAttemptCharged | src/ldap_manager/routers/share_otp.py:193-229 | after any run, what the next attempt is flagged with, what it costs and whether that locks it out, told from what happened so far |
| ShareOtp.BudgetHolds | src/ldap_manager/routers/share_otp.py:213-231 | over any history, within one counter life the attempts that reach the comparison weigh at most the limit together, however many challenges are issued |
| ShareOtp.VerifiedIff | src/ldap_manager/routers/share_otp.py:213-243 | a submission is verified exactly if it is within the budget and presents, in time, the newest code sent since the last success |
| ShareOtp.MintsCoveredByCodes | src/ldap_manager/routers/share_otp.py:231-243 | no address ever receives more recipient tokens than codes were stored for it |
| ShareOtp.AcceptedIffMinted | src/ldap_manager/routers/share_otp.py:263-274 | a recipient token is accepted exactly if a verification under that very key minted it less than its lifetime ago |
| ShareOtp.AcceptedForItsOwner | src/ldap_manager/routers/share_otp.py:103-104 | where link ids hold no bar, a token is accepted exactly if it was minted for this link and this address, up to case and surrounding whitespace, less than its lifetime ago |
| ShareOtp.BarsConfuse | src/ldap_manager/routers/share_otp.py:103-104 | with a bar in a link id, two different pairs of link and address share a key |
| PasswordLinks.PasswordDoor.SetPasswordOr422 | src/ldap_manager/routers/public_auth.py:46-51 | policy first, then the directory, then every token of the uid revoked; done exactly for a password that meets the policy and is written, and then it is written |
| PasswordLinks.PasswordDoor.InviteAccept | src/ldap_manager/routers/public_auth.py:55-74 | the invitation request, with every way it can fail |
| PasswordLinks.PasswordDoor.ResetConfirm | src/ldap_manager/routers/public_auth.py:137-159 | the reset request, with its write-ahead record and its correction |
| PasswordLinks.PasswordDoor.ChangePassword | src/ldap_manager/routers/me.py:63-91 | the owner's request, with its write-ahead record and its correction |
| PasswordLinks.AnswersMean | src/ldap_manager/routers/public_auth.py:55-159 | which answer each of the three requests gets, told from the link or the bind, the policy, the audit log and the directory |
| PasswordLinks.DoneMeansWritten | src/ldap_manager/routers/public_auth.py:46-51 | after any history a request answered as done has written exactly the password it brought, by its route and for the one who asked; one that failed in the directory has written it exactly if only the answer was lost; and nothing else writes anything |
| PasswordLinks.AuditTells | src/ldap_manager/routers/public_auth.py:137-159 | what each request leaves in an audit log that answers, record by record |
| PasswordLinks.FailureKeepsLinks | src/ldap_manager/routers/public_auth.py:46-74 | over any history a link request that fails leaves every token as it was; one that succeeds ends every token of the link's owner and nobody else's |
| PasswordLinks.OneSuccessPerLink | src/ldap_manager/routers/public_auth.py:55-74 | a link sets a password successfully at most once, whatever happens in between |
| PasswordLinks.StepWrites | src/ldap_manager/routers/public_auth.py:46-51 | each password written passed the policy for its uid, was asked for by a live link of that uid or by the uid that knew its password, and was recorded first unless it came by invitation |
| PasswordLinks.EveryPasswordPassedPolicy | src/ldap_manager/routers/me.py:78-88 | over any history every password written by any of the three ways passed the policy |
| PasswordLinks.ResetLeavesOkIff | src/ldap_manager/routers/public_auth.py:148-158 | with the audit log answering, a failed reset leaves its `ok` record uncorrected exactly if the link was good, the policy was met and the directory raised |
| PasswordLinks.ChangeNeverLeavesOk | src/ldap_manager/routers/me.py:80-90 | a failed change by the owner never leaves its `ok` record uncorrected |
| TenantGate.ReasonsAreHonest | src/ldap_manager/tenant_state.py:56-95 | only a registry row that says live admits, and the reason is empty exactly then; each other state, an unknown one and a lookup without an answer have their own |
| TenantGate.CallsMean | src/ldap_manager/tenant_state.py:115-146 | a call without a tenant, or with nothing remembered and no registry, is refused undetermined; what is remembered is repeated before its deadline; otherwise the registry's answer decides and is remembered, 60 seconds if live and 10 if not |
| TenantGate.TenantStateGate.SetSource | src/ldap_manager/tenant_state.py:112-113 | configuring a source keeps the cache |
| TenantGate.TenantStateGate.AdmitsTenant | src/ldap_manager/tenant_state.py:115-146 | one call of the gate: cache, registry, and what is remembered for 60 or 10 seconds |
| TenantGate.AdmissionCovers | src/ldap_manager/tenant_state.py:115-146 | with calls one at a time, an admission decides every later call below its deadline, and past it the registry decides |
| GateRuns.StepKeepsInv | src/ldap_manager/tenant_state.py:115-146 | every step of any interleaving of gate calls keeps every cached verdict and every reply backed by a lookup younger than its lifetime |
| GateRuns.GateBounds | src/ldap_manager/tenant_state.py:115-146 | for any number of threads: no call whose clock reads 60 seconds past the loss of the live state admits, and every call 10 seconds past becoming live does |
| GateRuns.EveryReplyIsBacked | src/ldap_manager/tenant_state.py:120-146 | every reply of a configured gate is that of a lookup younger than 60 or 10 seconds |
| GateRuns.GateAlone | src/ldap_manager/tenant_state.py:120-146 | the four steps of a call that nothing interleaves do to the cache, and answer, what the method of the class does |
| GateRuns.QuietAdmits | src/ldap_manager/tenant_state.py:120-146 | while an admission is cached up to a deadline, and each call for the tenant under way has not looked at the cache yet or brings an admission lasting as long, every call that finishes below that deadline is admitted |
| GateRuns.AdmissionMakesQuiet | src/ldap_manager/tenant_state.py:144-146 | an admission that finds no other call past its look at the cache starts such a stretch, up to the deadline now cached |
| GateRuns.CoverIff | src/ldap_manager/tenant_state.py:120-146 | from any reachable moment at which an admission is cached, every continuation below its deadline admits every call of the tenant that finishes in it, exactly if each call of the tenant then under way has not looked at the cache yet, or holds an answer of live that lasts as long |
| GateRuns.InterleavingBreaksCover | src/ldap_manager/tenant_state.py:120-146 | without that, a late refusal can overwrite an admission and refuse a call at the very moment of the admission |
| Revocation.RevocationChecker.PruneLocked | src/ldap_manager/token_revocation.py:150-156 | the loop drops exactly the expired entries, and everything if that does not make room |
| Revocation.InsertedKeeps | src/ldap_manager/token_revocation.py:140-156 | a full cache drops what has expired, and everything only if the rest still fills it; one with room drops nothing |
| Revocation.RevocationChecker.Check | src/ldap_manager/token_revocation.py:132-148 | a check by one thread: a cached verdict, or the denylist's answer and what is remembered of it |
| Revocation.RevocationChecker.Permits | src/ldap_manager/token_revocation.py:119-130 | a permit by one thread: always when disabled or without an id, otherwise by the verdict or the fail-open setting |
| RevocationRuns.CheckAlone | src/ldap_manager/token_revocation.py:119-148 | a check of the machine that nothing interleaves answers, and leaves in the cache, what the checker's method does |
| RevocationRuns.RevocationLatency | src/ldap_manager/token_revocation.py:119-148 | for any number of threads: a call begun after a revocation with a clock one cache lifetime past it permits only if the denylist gave no answer and failing open is configured |
| RevocationRuns.ClockIsEnough | src/ldap_manager/token_revocation.py:119-148 | with a cache and without failing open, such a clock alone is enough to be refused |
| RevocationRuns.NoFalseRevocation | src/ldap_manager/token_revocation.py:119-148 | a token never revoked is never refused for being revoked |
| RevocationRuns.CacheBounded | src/ldap_manager/token_revocation.py:144-156 | the cache never holds more entries than configured, or one if that is less |
| RevocationRuns.UnknownNotCached | src/ldap_manager/token_revocation.py:139-148 | an unknown answer leaves the cache alone and is decided by the fail-open setting |
| OAuth.ResolveMeans | src/ldap_manager/routers/oauth.py:131-153 | what a validated request guarantees: a registered client and redirect URI, non-empty scopes among those asked for and those registered, a challenge for public clients |
| OAuth.ResolveIff | src/ldap_manager/routers/oauth.py:135-153 | a request is valid exactly if the client is known, the redirect URI is registered, a code is wanted, the client may have codes, some scope asked for is registered, a public client brings a challenge, and a challenge has a supported method |
| OAuth.GrantedIsWhatWasAsked | src/ldap_manager/routers/oauth.py:145-153 | granted are exactly the scopes that were asked for and are registered, in the order and with the repetitions of the request |
| OAuth.DenialsMean | src/ldap_manager/routers/oauth.py:135-153 | which error each invalid request gets, the first that applies |
| AuthorizeEndpoint.CodeCarries | src/ldap_manager/routers/oauth.py:170-184 | a code carries exactly those scopes, and the user, tenant, redirect URI, challenge and method of its request |
| OAuth.NormOfWords | src/ldap_manager/oauth_consent.py:53-54 | normalising scopes that are already words keeps exactly those |
| OAuth.OAuthConsentStore.HasConsent | src/ldap_manager/oauth_consent.py:79-89 | consent is there exactly if a record covers every scope asked for |
| OAuth.OAuthConsentStore.Grant | src/ldap_manager/oauth_consent.py:91-103 | granting adds the scopes to what is on record, and covers them from then on |
| OAuth.OAuthConsentStore.Revoke | src/ldap_manager/oauth_consent.py:105-112 | revoking removes this record and no other |
| AuthorizeEndpoint.ConsentCovers | src/ldap_manager/oauth_consent.py:79-112 | consent covers exactly what it was given for together with what was there, for this user, client and tenant only, until revoked |
| OAuth.ConfidentialMeansSecret | src/ldap_manager/routers/oauth.py:319-340 | a request is turned away exactly for an unknown client or a wrong secret, and counts as authenticated exactly with the registered secret |
| OAuth.GoodCodeMeans | src/ldap_manager/oauth_store.py:69-78 | what proves the right to a code: for an S256 challenge a verifier with that digest, for a plain one the challenge itself, without a challenge the client's secret; and the code's client and redirect URI |
| OAuth.OAuthCodeStore.IssueCode | src/ldap_manager/oauth_codes.py:57-61 | a code is stored with its payload |
| OAuth.OAuthCodeStore.ConsumeCode | src/ldap_manager/oauth_codes.py:63-81 | fetch and delete: the payload once, and never again |
| OAuth.OAuthCodeStore.IssueRefresh | src/ldap_manager/oauth_codes.py:84-88 | a refresh token is stored with its payload |
| OAuth.OAuthCodeStore.PeekRefresh | src/ldap_manager/oauth_codes.py:90-102 | a look that consumes nothing |
| OAuth.OAuthCodeStore.ConsumeRefresh | src/ldap_manager/oauth_codes.py:104-119 | fetch and delete: the payload once, and never again |
| OAuth.NarrowOnlyNarrows | src/ldap_manager/routers/oauth.py:415-419 | a refresh may only narrow: the scopes are exactly the asked-for ones among the granted, or all of them if that leaves none |
| OAuth.OfflineMeans | src/ldap_manager/routers/oauth.py:359-362 | refresh tokens are asked for by the word `offline_access` in the scope |
| OAuth.ServiceScopeWithinClient | src/ldap_manager/routers/oauth.py:430-431 | a service token's scopes are exactly the registered ones among those asked for, or all registered ones if there are none such |
| AuthorizeEndpoint.Endpoint.IssueCode | src/ldap_manager/routers/oauth.py:170-184 | the code carries the client, the logged-in user and tenant, the redirect URI, the granted scopes and the challenge of this request |
| AuthorizeEndpoint.Endpoint.ConsentRemembered | src/ldap_manager/routers/oauth.py:187-192 | a consent store that does not answer counts as no consent |
| AuthorizeEndpoint.Endpoint.Authorize | src/ldap_manager/routers/oauth.py:196-226 | a code exactly for a trusted client or remembered consent; otherwise nothing is stored |
| AuthorizeEndpoint.Endpoint.Prepare | src/ldap_manager/routers/oauth.py:230-254 | the same, answering with the consent screen instead of a refusal |
| AuthorizeEndpoint.Endpoint.Decision | src/ldap_manager/routers/oauth.py:258-286 | a code exactly for an approved valid request; consent recorded exactly if asked for, and then enough to spare the next screen |
| TokenEndpoint.Endpoint.Respond | src/ldap_manager/routers/oauth.py:343-363 | no tokens without the gate; a refresh token exactly for a user grant with offline_access, carrying the very scope of the access token |
| TokenEndpoint.Endpoint.ExchangeCode | src/ldap_manager/routers/oauth.py:384-405 | tokens exactly for a code presented by its client, with its redirect URI and, by method, a verifier whose digest is the challenge, the plain challenge, or the client secret, for a live tenant; each failure with its own error; the code is gone either way and no other code changes |
| TokenEndpoint.Endpoint.Refresh | src/ldap_manager/routers/oauth.py:407-423 | tokens exactly if the token is the client's and both looks at the gate admit, with the narrowed scope, which is also what the next refresh token carries; if the first look refuses, the refresh tokens are as they were |
| TokenEndpoint.Endpoint.ForService | src/ldap_manager/routers/oauth.py:425-439 | tokens exactly for an authenticated client registered for the grant and two admitting looks, in the client's own name and tenant, with the service scope and no refresh token; each failure with its own error |
| TokenEndpoint.Endpoint.Token | src/ldap_manager/routers/oauth.py:367-441 | the endpoint: unavailable without its stores, nothing changed for an unknown client or grant, tokens exactly for a request that shows what its grant demands, and then for the user, tenant, client and scope of what was presented |
| TokenEndpoint.SecondLook | src/ldap_manager/routers/oauth.py:407-423 | with requests one at a time, the second look admits below the deadline the first one found or set, and past it exactly if the registry says live |
| OAuthRuns.StepKeepsInv | src/ldap_manager/routers/oauth.py:367-441 | every step of every interleaving keeps the invariant: exact code payloads, single holders, shrinking scopes, consent as recorded, mints backed by the gate |
| OAuthTheorems.LineageCount | src/ldap_manager/oauth_codes.py:63-119 | under every interleaving, one authorization has at most one of: a live code, a live refresh token, a consumed token not yet reissued |
| OAuthTheorems.OneAccessTokenEach | src/ldap_manager/routers/oauth.py:384-423 | a code or refresh token buys at most one access token ever, and once consumed is in neither store |
| OAuthTheorems.StepMints | src/ldap_manager/routers/oauth.py:343-363 | an access token is minted only by a request that consumed, planned and was let through by the gate, one at a time |
| OAuthTheorems.MintHandsOn | src/ldap_manager/routers/oauth.py:359-362 | a mint passes its lineage on exactly if its scope has offline_access, as a fresh refresh token with the access token's own scopes |
| OAuthTheorems.ScopesNeverWiden | src/ldap_manager/routers/oauth.py:359-423 | along a lineage every token's scopes are a non-empty subset of every earlier token's, of what was authorized and of the client's registered scopes |
| OAuthTheorems.LineageEnds | src/ldap_manager/routers/oauth.py:359-362 | a lineage that drops offline_access leaves nothing behind, and nothing later mints for it |
| OAuthTheorems.EveryTokenHasProvenance | src/ldap_manager/routers/oauth.py:384-423 | every access token for a user goes back to one authorization with the same client, user and tenant, redeemed by that client for that redirect URI with the verifier of its challenge or its secret |
| OAuthTheorems.RefreshTokensHaveProvenance | src/ldap_manager/routers/oauth.py:384-423 | every stored refresh token goes back to one authorization in the same way, with scopes within what was authorized |
| OAuthProof.EveryTokenWasProven | src/ldap_manager/routers/oauth.py:384-405 | over any run, every user access token goes back to a request that presented the proof its authorization's challenge calls for: the verifier of an S256 challenge, a plain challenge, or the client's secret |
| OAuthProof.AuthorizedWhatWasAsked | src/ldap_manager/routers/oauth.py:145-184 | over any run, what is on record as authorized is exactly what its request asked for among the client's scopes, in order |
| OAuthProof.HashedVerifierServes | src/ldap_manager/oauth_store.py:69-78 | the client that sent the digest of a verifier and comes back with the verifier is served, if its tenant is let through |
| OAuthProof.BareChallengeRefused | src/ldap_manager/oauth_store.py:69-78 | whoever presents the S256 challenge instead of a verifier is refused, unless it is its own digest, and the code is gone |
| OAuthProof.AuthorizeThenRedeem | src/ldap_manager/routers/oauth.py:196-405 | from one end of the exchange to the other: the code of an authorization is redeemed exactly by its client, with its redirect URI and the proof for the challenge it was asked with, while the tenant is let through |
| OAuthTheorems.RecordsAreTrue | src/ldap_manager/routers/oauth.py:196-286 | each authorization and each consent on record is that of an actual request: same user, same parameters, valid at the time, for a trusted client, approved, or covered |
| OAuthTheorems.StandingMeans | src/ldap_manager/oauth_consent.py:91-112 | standing consent is exactly what some grant gave and no later revocation took back |
| OAuthTheorems.CoveredEarlier | src/ldap_manager/oauth_consent.py:79-112 | whenever the stored consent covers some scopes, each of them was approved with remember at an earlier step and has not been withdrawn since |
| OAuthTheorems.UntrustedNeedsConsent | src/ldap_manager/routers/oauth.py:221-286 | an authorization of an untrusted client was approved there and then, or each of its scopes was approved with remember at an earlier step by the same user for the same client, and still stood when the authorization was made |
| OAuthGate.NothingMintedOnceNotLive | src/ldap_manager/routers/oauth.py:78-84 | no grant mints on a gate reading 60 seconds or more after the tenant stopped being live |
| OAuthGate.NoneRefusedOnceLive | src/ldap_manager/routers/oauth.py:78-84 | no token request is refused for its tenant on a gate reading 10 seconds or more after the tenant became live |
| OAuthGate.GateRunsAlone | src/ldap_manager/routers/oauth.py:343-348 | the gate inside the machine goes through a run of the gate alone, so its bounds hold for all three grants |
| OAuthGate.EarlyRefusalTakesNothing | src/ldap_manager/routers/oauth.py:407-412 | a request refused by the look before consumption has consumed no token |
| OAuthGate.NoLossBeforeDeadline | src/ldap_manager/routers/oauth.py:407-423 | from a quiet moment on, whatever the tokens and whichever grant, no request is refused at its mint by a call that finishes while the gate's clock is below the cached deadline |
| OAuthLoss.QuietLosesNothing | src/ldap_manager/routers/oauth.py:407-412 | while the gate is quiet for the tenant, no continuation below the deadline both consumes the token of a request its first look has admitted and refuses that request |
| OAuthLoss.LossIff | src/ldap_manager/routers/oauth.py:407-423 | a refresh request whose first look has admitted can lose its token before the cached deadline exactly if some call for the tenant is under way, past its look at the cache, without an admission lasting as long |
| OAuthLostToken.TokenLostBeforeDeadline | src/ldap_manager/routers/oauth.py:407-423 | a run from the empty state in which a refresh request is admitted by its first look until second 60, consumes its token, and is refused at the mint before second 60 |
| OAuthAlone.AuthorizeAlone | src/ldap_manager/routers/oauth.py:196-254 | an authorization of the machine issues a code exactly where the endpoint may without asking the user, with the same payload |
| OAuthAlone.DecisionAlone | src/ldap_manager/routers/oauth.py:258-286 | a decision of the machine issues a code and records consent exactly as the endpoint does |
| OAuthAlone.CodeAlone | src/ldap_manager/routers/oauth.py:384-405 | a code request that nothing interleaves is served by the machine exactly where the endpoint's condition for tokens holds, and leaves the same stores; the code is gone in either case |
| OAuthAlone.RefreshAlone | src/ldap_manager/routers/oauth.py:407-423 | the same for a refresh request; refused by its first look it keeps its token |
| OAuthAlone.ServiceAlone | src/ldap_manager/routers/oauth.py:425-439 | the same for a service request, which leaves both stores alone |
| Directory.Ldap.AddMember | src/ldap_manager/ldap_client.py:307-310 | adding is possible for a role that is there and a user not in it; then it is answered, or the answer is lost, with the member added or not; otherwise it fails and changes nothing |
| Directory.Ldap.RemoveMember | src/ldap_manager/ldap_client.py:312-315 | removing likewise, for a user who is in the role |
| Directory.Ldap.PutRole | src/ldap_manager/ldap_client.py:286-296 | a role is made once, and without members, and only one that is there is deleted; an answer may be lost here too |
| Directory.Ldap.CreateAccount | src/ldap_manager/ldap_client.py:244-251 | a new account, or a failure with or without it |
| Directory.GrantEach | src/ldap_manager/routers/admin_users.py:286-287 | the adding loop puts the user into every listed role of the tenant, or stops with each group either as it was or as intended; if every write is answered it gets exactly to the first role that is repeated, already held or not there |
| Directory.DropEach | src/ldap_manager/routers/admin_users.py:288-289 | the removing loop takes the user out of every listed role, or stops part way likewise, at the first role that is repeated or not held |
| Directory.SwapRoles | src/ldap_manager/routers/admin_users.py:286-289 | additions all come before removals, and if every write is answered both get through |
| Directory.Administration.Emit | src/ldap_manager/audit.py:74-83 | with auditing off every record is accepted and none is kept; with it on a record is kept exactly if it is accepted |
| Directory.Administration.CreateRole | src/ldap_manager/routers/admin_roles.py:80-87 | create a role: refusals, record, write, in that order, with every outcome; applied exactly for a role not yet there when nothing gets in the way |
| Directory.Administration.DeleteRole | src/ldap_manager/routers/admin_roles.py:91-103 | delete a role: never administrators, never a system role; applied exactly for a role that is there when nothing gets in the way |
| Directory.Administration.AddMember | src/ldap_manager/routers/admin_roles.py:111-121 | add a member: never to a system role; applied exactly for a role that is there and a user not in it when nothing gets in the way |
| Directory.Administration.RemoveMember | src/ldap_manager/routers/admin_roles.py:125-139 | remove a member: never from a system role, never oneself from administrators, never from a single administrator; applied exactly for a member when nothing gets in the way |
| Directory.Administration.InviteNewUser | src/ldap_manager/routers/admin_users.py:124-141 | a newcomer: the record, then the account, then the roles in the order given |
| Directory.Administration.AddExistingToTenant | src/ldap_manager/routers/admin_users.py:144-166 | an account that exists: the record, then the roles it lacks, in the order given |
| Directory.Administration.CreateUser | src/ldap_manager/routers/admin_users.py:79-121 | invite: unknown and system roles refused, then a new account or an existing one is given the roles it lacks, wherever the audit log or the directory fails |
| Directory.Administration.SetUserRoles | src/ldap_manager/routers/admin_users.py:253-291 | set roles: refusals in order, then one record, then the additions, then the removals; always applied when nothing gets in the way |
| Directory.Administration.RemoveUser | src/ldap_manager/routers/admin_users.py:295-330 | remove from the tenant: every role held there, after one record; always applied when nothing gets in the way |
| DirectoryRuns.StaysInTenant | src/ldap_manager/routers/admin_users.py:253-330 | no request changes a group of another tenant |
| DirectoryRuns.PermittedIff | src/ldap_manager/routers/admin_roles.py:49-139 | exactly which requests are permitted: an administrator's, with the guards for the administrators role, the system role, unknown roles, non-members, empty role lists and self-removal |
| DirectoryRuns.RefusalsMean | src/ldap_manager/routers/admin_users.py:243-310 | each refusal says what is the case |
| DirectoryRuns.NoSystemRoleGained | src/ldap_manager/routers/admin_roles.py:49-71 | no request, finished or not, adds anybody to a system role |
| DirectoryRuns.CallerStaysAdmin | src/ldap_manager/routers/admin_users.py:243-249 | an administrator's own request never ends that administrator's membership |
| DirectoryRuns.AdminsStay | src/ldap_manager/routers/admin_users.py:243-249 | administrators that has members keeps at least one |
| DirectoryRuns.LastAdministratorMeans | src/ldap_manager/routers/admin_users.py:243-249 | the last-administrator guard fires only when the target is not an administrator and the caller is the only one |
| DirectoryRuns.RecordedFirst | src/ldap_manager/routers/admin_users.py:279-285 | a request that changes groups leaves a new record of the groups as they were exactly if auditing is on; in both modes a refused request, or a refused record, leaves everything as it was |
| DirectoryRuns.SuccessIsExact | src/ldap_manager/routers/admin_users.py:253-330 | a successful update leaves the target with exactly the wanted roles, a removal with none, an invitation with the named ones added, and nobody else changed |
| DirectoryRuns.RoleRequestsAreExact | src/ldap_manager/routers/admin_roles.py:80-139 | a successful request about one role does exactly that to that group, and nothing else |
| DirectoryRuns.InvitationSucceedsIff | src/ldap_manager/routers/admin_users.py:79-166 | a permitted invitation, recorded and answered at every write, succeeds exactly if no role is named twice outside those already held and a newcomer holds none of the named ones |
| DirectoryRuns.InvitationStops | src/ldap_manager/routers/admin_users.py:124-166 | where it fails, the account is there and the user has exactly the roles before the first addition that repeats one or is already held |
| DirectoryRuns.RepeatedRoleFails | src/ldap_manager/routers/admin_users.py:132-134 | a newcomer invited with one role named twice: the request fails, with the account made and the role given |
| DirectoryRuns.RunSafety | src/ldap_manager/routers/admin_roles.py:49-139 | over any run: administrators never empty, no system role gained, uninvolved tenants untouched; and where groups differ, a record of the groups at the start was accepted exactly if auditing is on |
| DirectoryRuns.OwnRequestsKeepAdmin | src/ldap_manager/routers/admin_users.py:243-249 | as long as nobody else calls, an administrator stays one |
| ServiceCredentials.NormalizedScopes | src/ldap_manager/service_cred.py:61-66 | a credential has exactly the known scopes asked for, in any case and with any outer whitespace, or the default if none is known |
| ServiceCredentials.AuthenticateMeans | src/ldap_manager/service_cred.py:257-305 | authentication succeeds exactly if status does and the generation is the presented secret's; then both answer the same owner and generation |
| ServiceCredentials.CheckedIff | src/ldap_manager/service_cred.py:276-305 | a key is accepted exactly if it is there for that tenant, unexpired, for that scope, with that secret if one is presented, and from one of its networks if it is pinned; and then with its owner, generation and title |
| ServiceCredentials.ServiceCredentialStore.Create | src/ldap_manager/service_cred.py:162-177 | a new row with normalised scopes and the hash of the secret |
| ServiceCredentials.ServiceCredentialStore.Rotate | src/ldap_manager/service_cred.py:196-224 | only for the owner; everything but the secret is kept, in place or under a fresh key id, and the owner has as many credentials as before |
| ServiceCredentials.RotationKeepsCount | src/ldap_manager/service_cred.py:206-223 | rotation changes nobody's number of credentials |
| ServiceCredentials.ServiceCredentialStore.Revoke | src/ldap_manager/service_cred.py:238-243 | the owner's row is gone, and nobody else's can be removed |
| ServiceCredentials.ServiceCredentialStore.RevokeAllForTenant | src/ldap_manager/service_cred.py:226-236 | exactly the user's rows in that tenant are gone |
| ServiceCredentials.ServiceCredentialStore.IpInCidrs | src/ldap_manager/service_cred.py:317-333 | an address passes exactly if it is given and lies in one of the networks |
| ServiceCredentials.ServiceCredentialStore.Check | src/ldap_manager/service_cred.py:276-305 | the one rule: known scope, tenant, unexpired, scope of the row, secret if presented, address if pinned |
| ServiceCredentials.SessionPassesIff | src/ldap_manager/service_cred.py:257-274 | over any run a session minted from a key passes exactly if nothing meant to end it has happened and the key is still good for that tenant, scope, address and time |
| ServiceCredentials.BulkRevocationEndsSessions | src/ldap_manager/service_cred.py:226-236 | revoking everything a user holds in a tenant ends every session of that user there, whatever happens later |
| Offboarding.TenantExit.PurgeTenantCredentials | src/ldap_manager/routers/admin_users.py:333-345 | the purge removes exactly the user's keys of that tenant, or nothing where the store is off or fails |
| Offboarding.TenantExit.RemoveUser | src/ldap_manager/routers/admin_users.py:295-330 | removing a user from the tenant, then the purge: only after every role is gone, and never undoing the removal |
| Offboarding.SessionsEndIff | src/ldap_manager/routers/admin_users.py:295-345 | when a request ends a user's membership of a tenant, the sessions of the user's good keys there end exactly if that request was a removal that was carried out and the purge went through |
| Offboarding.OtherSessionsStay | src/ldap_manager/routers/admin_users.py:333-345 | keys of other users and of other tenants answer as before, whatever the request |
| Offboarding.LastRoleKeepsSession | src/ldap_manager/routers/admin_roles.py:91-139 | a user whose only role is taken away, or deleted, is no member any more, and the session of the user's key goes on |
| Encodings.UnpaddedRoundTrip64 | src/ldap_manager/jwt_verify.py:38-40 | for any number of bytes, base64url without padding decodes to the same bytes once the padding is restored |
| Encodings.Alphabet64 | src/ldap_manager/jwt_verify.py:38-40 | the URL-safe alphabet of section 5 of RFC 4648, character by character |
| Encodings.DecoderTable | src/ldap_manager/jwt_verify.py:38-40 | the decoder reads its own alphabet and the two characters of the other one, and skips anything else |
| Encodings.PublishedEncoding | src/ldap_manager/jwt_verify.py:38-40 | the example of appendix C of RFC 7515 |
| Encodings.OctetsMinimal | src/ldap_manager/oauth_keys.py:44-45 | the computed length is enough for the number, and the leading octet of a positive number is not zero |
| Encodings.UintRoundTrip | src/ldap_manager/oauth_keys.py:42-45 | every number is read back as itself, positive ones with a non-zero leading octet, and no two numbers are written alike |
| Encodings.CommonExponent | src/ldap_manager/oauth_keys.py:42-45 | 65537 is written `AQAB` |
| Encodings.ZeroIsEmpty | src/ldap_manager/oauth_keys.py:42-45 | zero is written as the empty string, not as `AA` |
| Base32.SecretRoundTrip | src/ldap_manager/twofa.py:55-62 | a secret of any number of bytes, typed in any case, gives back its bytes as the key |
| Base32.Alphabet32 | src/ldap_manager/twofa.py:55-57 | the alphabet of section 6 of RFC 4648, character by character |
| Base32.OnlyTheAlphabet | src/ldap_manager/twofa.py:60-62 | a secret with a character outside the alphabet cannot be decoded |
| Base32.FooInBase32 | src/ldap_manager/twofa.py:55-57 | an example of section 10 of RFC 4648 |
| OneTimePassword.SixDigits | src/ldap_manager/twofa.py:65-66 | a value below a million becomes exactly six digits, different ones for different values |
| OneTimePassword.HotpIsSixDigits | src/ldap_manager/twofa.py:60-66 | the four bytes lie within the digest, the code is six digits, and two counters share a code exactly if the truncated values agree modulo a million |
| OneTimePassword.HotpReadsFourBytes | src/ldap_manager/twofa.py:60-66 | the code for every digest: the last six digits of the number in the four bytes at the offset in the last byte's lower four bits, without the sign bit |
| OneTimePassword.OtherBytesDoNotMatter | src/ldap_manager/twofa.py:64-66 | digests that agree in the last byte and in those four bytes, up to the sign bit, give the same code |
| OneTimePassword.PublishedCode | src/ldap_manager/twofa.py:60-66 | the digest of section 5.4 of RFC 4226 gives 872921 |
| OneTimePassword.CounterBytes | src/ldap_manager/twofa.py:63-63 | eight bytes, most significant first, hold every accepted counter and tell them apart |
| OneTimePassword.StepsMean | src/ldap_manager/twofa.py:69-71 | a step is 30 seconds, counted from the epoch |
| OneTimePassword.TotpVerify | src/ldap_manager/twofa.py:74-86 | the loop without early return says yes exactly if the trimmed code is the password of a step in the window, and raises exactly if digits meet a bad secret or a step with no counter |
| OneTimePassword.AcceptedWithinWindow | src/ldap_manager/twofa.py:69-86 | a password made in one step is accepted in every step within the window, given counters that fit |
| OneTimePassword.AcceptedInTime | src/ldap_manager/twofa.py:69-86 | so it is accepted at every moment within the window's length before or after |
| OneTimePassword.AcceptedOnlyNear | src/ldap_manager/twofa.py:74-86 | what is accepted is the password of a moment less than one period more than the window away |
| OneTimePassword.AcceptedMeans | src/ldap_manager/twofa.py:74-86 | only six digits are ever accepted, and only once the window lies at or after step zero |

## Left out

- Hashes, MACs and signatures: taken to be injective and represented by what they are made from; the 64-bit generation tag of a credential likewise.
- Randomness: random tokens, codes, key ids and secrets are parameters; where runs are considered, fresh ones never repeat.
- Redis key names: datatypes instead of strings with prefixes; a key expires when the clock reaches its deadline.
- The fallback of `EXPIRE` without `GT`, and the fallback of `GETDEL` as a pipeline.
- Interleaving inside one `TokenStore` method, one authorization or consent request, or one administration request: each of these is one step. Token requests, gate calls and revocation checks are interleaved step by step.
- Lower and upper case beyond ASCII, and the case-insensitivity of uids and role names in LDAP.
- Digits beyond ASCII in a one-time code, for which the comparison raises; and PKCE verifiers that are not ASCII, for which encoding raises.
- The parsing of the Basic authorization header, and request validation by the web framework.
- Nonce, profile and role claims carried through to the tokens, identity tokens, and the signing of tokens.
- Audit records of the share-link and reset-request handlers, which never decide an outcome there.
- Mail, templates and home folders; a mail that cannot be sent after an invitation was carried out counts as carried out.
- The order in which the roles of an update or a removal are written to the directory, beyond additions before removals; that of an invitation is modelled.
- An audit record that is stored although its acceptance is never answered.
- Client registration, two-factor enrolment and recovery codes, WebDAV policy, metrics, health and the command line: they would add only easy members.
- OAuthTheorems.EveryTokenHasProvenance: a refresh asks of its client only that it name itself, as the code does, so nothing is said about the secret of a client that refreshes.
