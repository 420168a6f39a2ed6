# IdentityServer3 sign-in orchestration in Dafny

This project models the sign-in orchestration of IdentityServer3's
`AuthenticationController`. That covers:

- local login;
- login through an external identity provider and its callback;
- resumption of a partial login;
- logout and the logout prompt;
- the three password-reset steps (Reset, ResetVerify, ResetCallback).

It also models two smaller pieces. One is the reset-result types the
password-reset service hands back (`ResetPasswordResult`,
`ResetPasswordVerifyResult`). The other is the Azure AD OpenID Connect
settings in `UseAzureAdAuthentication`: the authority, the state prefix and
the tenant-placeholder issuer validator.

The modules:

- `Common`: `Option` and `Result`.
- `Strings`: the .NET string operations the code relies on. These are
  `IsNullOrWhiteSpace`, `Trim`, `StartsWith`, `Substring` and `Replace`. A
  null string is the empty string.
- `ResetResults`: the two result classes as datatypes. A constructor that
  throws is modelled as a function returning a `Result`.
- `OpenIdExtensions`: the tenant and state decisions of
  `UseAzureAdAuthentication`, and `ValidateIssuerWithPlaceholder`.
- `SignInModel`: the entities.
  - Claims, sign-in and sign-out messages, clients and `AuthenticateResult`.
  - The outcome of a request (error page, login page, redirect, 405,
    challenge, and so on).
  - `Action`: one entry of the request's trace. It is a cookie operation, a
    raised event or a call to a collaborator.
  - `Config`: the collaborators as oracles: the user service, the reset
    service, the client store, the configured providers, the login page's
    provider links, URI building, the remember-me rule and a fresh id. It
    also holds the request's cookies: the sign-in message store keyed by id,
    the sign-out messages and the last user name.
- `SignInDecisions`: the controller's pure decisions.
  - `ValidateSignin` and `HandleNoSignin`.
  - Per-client gating.
  - The login page's user name and its provider auto-redirect.
  - The cookie properties and cookie operations of a sign-in, and the
    redirect target.
  - The partial-login claim clean-up.
  - The logout-prompt decision.
- `SignInFlows`: one specification function per endpoint. Each gives the
  request's answer and the ordered trace of cookie operations, events and
  collaborator calls, as an `Effect`.
- `SignInProperties`: lemmas about those specifications. They cover the
  gating of the user service, what each branch does to cookies, session
  issuance, resumption, logout and reset.
- `AuthenticationEndpoint`: the controller as a `class`.
  - One instance serves one request.
  - `log` is the trace, and each step appends to it.
  - `partialIdentity` is the partial-login identity, whose claims
    `ResumeLoginFromRedirect` removes.
  - Each endpoint method is proved to append exactly the trace of its
    `SignInFlows` specification and to return that specification's answer.
    The lemmas in `SignInProperties` then state what those specifications
    promise.
  - So each endpoint appears twice: as a `SignInFlows` function, which is
    the method's specification, and as the method, which takes the source's
    steps in order. `Emit` appends one action to the trace.

## Model

| member | source | states |
|---|---|---|
| SignInDecisions.ValidateSignin | source/Core/Endpoints/AuthenticationController.cs:1520-1555 | the message is returned exactly for a present id of at most 100 characters found in the store, and it is the stored one; a missing or unknown id fails as HandleNoSignin; an over-long id fails with the generic error page |
| SignInDecisions.TooLongSigninIgnoresStore | source/Core/Endpoints/AuthenticationController.cs:1531-1544 | an id over 100 characters gets the generic error page whatever the message store holds |
| SignInDecisions.HandleNoSignin | source/Core/Endpoints/AuthenticationController.cs:940-963 | no configured URL gives the NoSignInCookie error page; `~/x` redirects to base URL + x, `/x` to host + `/x`, any other URL as configured |
| SignInDecisions.IsLocalLoginAllowedForClient | source/Core/Endpoints/AuthenticationController.cs:1154-1166 | local login is refused exactly for a known client (present id, in the store) that disables it; fails open otherwise |
| SignInDecisions.CredentialErrors | source/Core/Endpoints/AuthenticationController.cs:478-497 | the form is valid exactly when user name and password are both present; the first error is about the user name when it is missing |
| SignInDecisions.UserNameForLoginPage | source/Core/Endpoints/AuthenticationController.cs:1412-1438 | an explicit user name wins, then the login hint when hints are enabled, then the last-username cookie; only the cookie counts as coming from the cookie |
| SignInDecisions.VisibleLinks | source/Core/Endpoints/AuthenticationController.cs:1333-1371 | keeps exactly the visible provider links |
| SignInDecisions.ChooseProvider | source/Core/Endpoints/AuthenticationController.cs:1333-1371 | no links is an error; one link is used directly; among several, exactly one visible link is used; a blank type shows the page; a chosen provider is always one of the links |
| SignInDecisions.SignInProperties | source/Core/Endpoints/AuthenticationController.cs:1085-1110 | a full sign-in is persistent iff rememberMe is true, or is not false and cookies default to persistent; an expiry only for an explicit true; a partial sign-in is never persistent and stores "true"/"false" only for a non-null choice |
| SignInDecisions.RememberMeRoundTrip | source/Core/Endpoints/AuthenticationController.cs:1105-1108 | the remember-me choice stored by a partial sign-in is the one resumption reads back (source/Core/Endpoints/AuthenticationController.cs:839) |
| SignInDecisions.PartialLoginClaims | source/Core/Endpoints/AuthenticationController.cs:1062-1078 | a partial sign-in adds exactly three claims, in order: the resume URL built from the fresh resume id, a claim typed by that resume id whose value is the sign-in id, and the restart URL built from the sign-in id |
| SignInDecisions.ClearCookieActions | source/Core/Endpoints/AuthenticationController.cs:1142-1152 | the primary cookie is cleared exactly for a full sign-in; the external and partial cookies are always cleared, last |
| SignInDecisions.IssueCookieActions | source/Core/Endpoints/AuthenticationController.cs:1046-1113 | a full sign-in clears the stored sign-in message and issues a session id before signing in with the result's claims; a partial one signs in once with the partial-login claims appended; the properties are those of SignInProperties |
| SignInDecisions.RedirectUrl | source/Core/Endpoints/AuthenticationController.cs:1120-1140 | a full sign-in goes to the request's ReturnUrl string; a partial one to its redirect path, `~/` resolved against the base URL, combined with the host |
| SignInDecisions.RedirectTargetSources | source/Core/Endpoints/AuthenticationController.cs:1120-1140 | a partial sign-in's target never depends on the ReturnUrl, and a full sign-in's target depends on nothing but the ReturnUrl |
| SignInDecisions.RemoveFirst | source/Core/Endpoints/AuthenticationController.cs:757-759 | removing the first claim of a type shortens the list by one exactly when such a claim exists |
| SignInDecisions.RetainedMembers | source/Core/Endpoints/AuthenticationController.cs:756-772 | the retained claims are exactly those not of a transient type |
| SignInDecisions.RemoveFirstRetains | source/Core/Endpoints/AuthenticationController.cs:756-772 | removing a transient claim leaves all other claims in place and in order |
| SignInDecisions.CleanupRetainsOtherClaims | source/Core/Endpoints/AuthenticationController.cs:756-772 | the four-step clean-up touches no claim outside the four transient types |
| SignInDecisions.CountOf | source/Core/Endpoints/AuthenticationController.cs:757 | a type's count is zero exactly when the identity has no claim of that type |
| SignInDecisions.RemoveFirstCounts | source/Core/Endpoints/AuthenticationController.cs:757-759 | RemoveClaim(FindFirst(t)) lowers the count of t by one if present and no other count |
| SignInDecisions.CleanupCounts | source/Core/Endpoints/AuthenticationController.cs:756-772 | the clean-up removes exactly one claim of each transient type present and no claim of any other type |
| SignInDecisions.LogoutPromptChoice | source/Core/Endpoints/AuthenticationController.cs:846-894 | an over-long id is refused; the prompt is shown iff the user is authenticated and the server always prompts, or the sign-out client requires it, or, with no client named, prompting is enabled |
| SignInModel.FirstIndexOf | source/Core/Endpoints/AuthenticationController.cs:729 | the index of the first claim of a type: no earlier claim has that type, and it is in range exactly when such a claim exists |
| SignInModel.FindFirst | source/Core/Endpoints/AuthenticationController.cs:729-730 | FindFirst finds a claim exactly when one of that type exists, and it is the first one |
| SignInModel.FullResult | source/Core/Endpoints/AuthenticationController.cs:833 | the result built from a resumed identity is a full, non-error sign-in with that identity's claims |
| Strings.TrimEmptyIffMissing | source/Core/Endpoints/AuthenticationController.cs:509-514 | trimming yields the empty string exactly for a blank input, and otherwise a string that starts and ends with a non-space |
| Strings.TrimIsInnerSlice | source/Core/Endpoints/AuthenticationController.cs:511-512 | the trimmed credential is the slice of the input between its leading and its trailing white space |
| Strings.TrimIdempotent | source/Core/Endpoints/AuthenticationController.cs:511-512 | trimming twice is trimming once |
| Strings.Truncate | source/Core/Endpoints/AuthenticationController.cs:630 | Substring(0, n) on a longer string keeps exactly its first n characters; a string of at most n characters is kept whole |
| SignInProperties.LoginExternalOnlyRaises | source/Core/Endpoints/AuthenticationController.cs:564-620 | LoginExternal raises at most one event and touches no cookie |
| SignInProperties.LoginExternalChallengesIff | source/Core/Endpoints/AuthenticationController.cs:564-620 | a provider is challenged exactly when it is named, within the length limit, the sign-in id is valid, the client allows it and it is configured; the challenge carries the callback URL, sign-in id, provider and any login hint |
| SignInProperties.RenderLoginPageOnlyRaises | source/Core/Endpoints/AuthenticationController.cs:1313-1410 | rendering the login page raises at most one event and touches no cookie |
| SignInProperties.RenderLoginPageWithError | source/Core/Endpoints/AuthenticationController.cs:1317-1331 | with an error to show, the login page is always shown, with the user name from GetUserNameForLoginPage |
| SignInProperties.RenderLoginPageChallengesOwnProvider | source/Core/Endpoints/AuthenticationController.cs:1333-1371 | a provider is tried from the login page only when there is no error, and only one of the client's own links |
| SignInProperties.PostAuthenticateStopTouchesNoCookie | source/Core/Endpoints/AuthenticationController.cs:1000-1043 | when PostAuthenticateAsync ends the request, no cookie is touched |
| SignInProperties.SignInIssuesSessionIff | source/Core/Endpoints/AuthenticationController.cs:965-998 | a sign-in cookie is issued exactly when post-authentication continues and the IdP matches; then the answer is the redirect URL; otherwise no cookie is touched |
| SignInProperties.IdPMismatchIssuesNothing | source/Core/Endpoints/AuthenticationController.cs:981-990 | a full sign-in with a subject from an IdP other than the requested one gives the error page and clears or issues no cookie |
| SignInProperties.FullSignInSequence | source/Core/Endpoints/AuthenticationController.cs:992-997 | a full sign-in clears the primary, external and partial cookies, then clears the sign-in message, issues a session id and signs in, then redirects to ReturnUrl |
| SignInProperties.PartialSignInSequence | source/Core/Endpoints/AuthenticationController.cs:992-997 | a partial sign-in keeps the primary cookie, signs in non-persistently with the three partial-login claims and redirects to the partial path |
| SignInProperties.LocalLoginAuthenticatesIff | source/Core/Endpoints/AuthenticationController.cs:455-516 | AuthenticateLocalAsync is called exactly when local login is enabled, the sign-in id is valid, the client allows it, the model exists, both fields are present and within their caps; it is the first call and receives the trimmed credentials |
| SignInProperties.LocalLoginBeforeGuards | source/Core/Endpoints/AuthenticationController.cs:455-507 | until every guard passes, LoginLocal only raises events or sets the last-username cookie (the external-provider diversion) |
| SignInProperties.LocalLoginNullResult | source/Core/Endpoints/AuthenticationController.cs:519-527 | a null user-service result raises one failure event with InvalidUsernameOrPassword and shows the login page; nothing else happens |
| SignInProperties.LocalLoginErrorResult | source/Core/Endpoints/AuthenticationController.cs:544-551 | an error result raises the failure event with the service's own message and shows it on the login page; no cookie is touched |
| SignInProperties.LocalLoginSessionNeedsGuards | source/Core/Endpoints/AuthenticationController.cs:455-507 | no way out of LoginLocal before the user service issues a session |
| SignInProperties.LocalLoginSessionNeedsSuccess | source/Core/Endpoints/AuthenticationController.cs:516-559 | a session is issued only when every guard passed, after the success event and the last-username cookie |
| SignInProperties.ExternalErrorTruncated | source/Core/Endpoints/AuthenticationController.cs:628-635 | a provider error longer than the configured length is cut to exactly its first that-many characters (kept whole otherwise), raised and shown; nothing else happens |
| SignInProperties.ExternalCallbackWithoutSignin | source/Core/Endpoints/AuthenticationController.cs:637-649 | without a usable sign-in id the callback answers as HandleNoSignin and does nothing else |
| SignInProperties.ExternalCallbackAuthenticatesOnlyFound | source/Core/Endpoints/AuthenticationController.cs:651-674 | the user service is asked exactly when the provider cookie held an identity with a subject, and is given that identity |
| SignInProperties.ResumeIdentityChange | source/Core/Endpoints/AuthenticationController.cs:705-772 | a failed guard gives the error page and leaves the identity alone; otherwise the identity becomes its cleaned claims, all other claims kept and the resume claim gone |
| SignInProperties.ResumeExternalBranchIff | source/Core/Endpoints/AuthenticationController.cs:754-797 | the external branch runs exactly when an ExternalProviderUserId claim existed before clean-up, with that claim's issuer and value and the cleaned claims |
| SignInProperties.ResumeDirectNeedsAllClaims | source/Core/Endpoints/AuthenticationController.cs:821-836 | the direct branch issues a session only when every AuthenticateResultClaimTypes type is present, after the partial-login-complete event |
| SignInProperties.LogoutClearsSession | source/Core/Endpoints/AuthenticationController.cs:899-938 | logout clears the sign-out message and authentication cookies, signs out of the external IdP, clears the last user name, calls the user service's sign-out with the message's client, and raises the logout event exactly for an authenticated user |
| SignInProperties.LogoutPromptIsLogoutOrPrompt | source/Core/Endpoints/AuthenticationController.cs:846-894 | the prompt is shown exactly as LogoutPromptChoice decides; otherwise the request is Logout itself; an anonymous user is always logged out |
| SignInProperties.LocalEndpointsRefuseWhenDisabled | source/Core/Endpoints/AuthenticationController.cs:124-128 | LoginLocal, Reset and ResetCallback answer 405 when local login is disabled (source/Core/Endpoints/AuthenticationController.cs:455-459, 315-319) |
| SignInProperties.ResetRedirectsOnlyOnSuccess | source/Core/Endpoints/AuthenticationController.cs:311-395 | Reset redirects to the verify step only for a successful service result, naming the user name the service returned, which is also stored in the last-username cookie |
| SignInProperties.ResetVerifyRedirectNeedsToken | source/Core/Endpoints/AuthenticationController.cs:206-292 | ResetVerify redirects to the callback only for a password of at most 6 characters and a successful result with a non-empty token, which the redirect carries |
| SignInProperties.ResetCallbackLogsIn | source/Core/Endpoints/AuthenticationController.cs:147-186 | a successful reset naming a user raises the success event and then is exactly LoginLocal with that user name and the new password |
| SignInProperties.ResetCallbackFailureIssuesNothing | source/Core/Endpoints/AuthenticationController.cs:150-180 | a missing or failed result, or no user name, touches no cookie and ends on the callback page, an error page, a redirect or 405 |
| ResetResults.SuccessResult | source/Core/Models/ResetPasswordResult.cs:25-28 | the parameterless constructor builds a valid non-error result |
| ResetResults.ErrorResult | source/Core/Models/ResetPasswordResult.cs:30-37 | the error constructor throws ArgumentNull("errorMessage") exactly for a null or empty message, and otherwise builds a valid error result with that message |
| ResetResults.ValidIsConstructed | source/Core/Models/ResetPasswordResult.cs:15-37 | every valid result (error iff non-empty message) is built by one of the two constructors |
| ResetResults.MessageText | source/Core/Models/ResetPasswordResult.cs:20 | for a valid result the message text is non-empty exactly for an error |
| ResetResults.VerifySuccessResult | source/Core/Models/ResetPasswordVerifyResult.cs:16-17 | the parameterless constructor builds a valid non-error result without a token |
| ResetResults.VerifyErrorResult | source/Core/Models/ResetPasswordVerifyResult.cs:19-20 | the error constructor fails exactly as the base one does, and otherwise builds an error with that message and no token |
| ResetResults.WithToken | source/Core/Models/ResetPasswordVerifyResult.cs:14 | setting Token leaves the base result unchanged |
| ResetResults.ConstructedVerifyResultHasNoToken | source/Core/Models/ResetPasswordVerifyResult.cs:14-20 | neither constructor sets Token, so the controller would treat a fresh result as missing its token (source/Core/Endpoints/AuthenticationController.cs:278-282) |
| OpenIdExtensions.Authority | source/Core/Configuration/AppBuilderExtensions/OpenIdExtensions.cs:30 | the authority is the Microsoft login prefix followed by the tenant id |
| OpenIdExtensions.AuthorityInjective | source/Core/Configuration/AppBuilderExtensions/OpenIdExtensions.cs:30 | different tenants get different authorities |
| OpenIdExtensions.IssuerValidatorFor | source/Core/Configuration/AppBuilderExtensions/OpenIdExtensions.cs:54-57 | the placeholder validator is installed exactly when the tenant id starts with "common" |
| OpenIdExtensions.RedirectToIdentityProvider | source/Core/Configuration/AppBuilderExtensions/OpenIdExtensions.cs:36-50 | an authentication request with a sign-in message takes the sign-in's prompt mode and gets the state `<encoded URL>.<old state>`; any other request is left alone; the request type never changes |
| OpenIdExtensions.StateRoundTrip | source/Core/Configuration/AppBuilderExtensions/OpenIdExtensions.cs:45 | splitting the rewritten state at its first dot gives back the encoded URL and the original state |
| OpenIdExtensions.FirstDot | source/Core/Configuration/AppBuilderExtensions/OpenIdExtensions.cs:45 | the first dot's index: no dot before it, a dot at it when in range |
| OpenIdExtensions.NonEmpty | source/Core/Configuration/AppBuilderExtensions/OpenIdExtensions.cs:78 | RemoveAll(IsNullOrEmpty) keeps exactly the non-empty entries and never lengthens the list |
| OpenIdExtensions.CandidatesAreConfigured | source/Core/Configuration/AppBuilderExtensions/OpenIdExtensions.cs:76-78 | a candidate issuer is exactly a non-empty ValidIssuers entry or ValidIssuer |
| OpenIdExtensions.CandidateIssuers | source/Core/Configuration/AppBuilderExtensions/OpenIdExtensions.cs:76-78 | the copy-add-remove loop builds exactly the candidate list |
| OpenIdExtensions.AnyMatches | source/Core/Configuration/AppBuilderExtensions/OpenIdExtensions.cs:80 | true exactly when some candidate, with `{tenantid}` replaced by the tenant, equals the issuer |
| OpenIdExtensions.ValidateIssuerWithPlaceholder | source/Core/Configuration/AppBuilderExtensions/OpenIdExtensions.cs:67-86 | a JWT with a string tid that makes some candidate equal the issuer is accepted as is; everything else gets the library validator's verdict |
| OpenIdExtensions.TemplateMatchesOwnTenant | source/Core/Configuration/AppBuilderExtensions/OpenIdExtensions.cs:76-81 | the v2.0 issuer template, with the tenant substituted, is exactly the issuer naming that tenant |
| AuthenticationEndpoint.AuthenticationController.constructor | source/Core/Endpoints/AuthenticationController.cs:65-93 | a controller starts with its collaborators, the request's partial identity and an empty trace |
| AuthenticationEndpoint.AuthenticationController.LoginExternal | source/Core/Endpoints/AuthenticationController.cs:564-620 | appends exactly the trace of SignInFlows.LoginExternal and returns its answer |
| AuthenticationEndpoint.AuthenticationController.RenderLoginPage | source/Core/Endpoints/AuthenticationController.cs:1313-1410 | appends exactly the trace of SignInFlows.RenderLoginPage (the provider choice) and returns its answer |
| AuthenticationEndpoint.AuthenticationController.PostAuthenticate | source/Core/Endpoints/AuthenticationController.cs:1000-1043 | either ends the request with SignInFlows.PostAuthenticateStep's answer and trace, or hands on the result to sign in with |
| AuthenticationEndpoint.AuthenticationController.ClearAuthenticationCookiesForNewSignIn | source/Core/Endpoints/AuthenticationController.cs:1142-1152 | appends exactly ClearCookieActions |
| AuthenticationEndpoint.AuthenticationController.IssueAuthenticationCookie | source/Core/Endpoints/AuthenticationController.cs:1046-1113 | appends exactly IssueCookieActions |
| AuthenticationEndpoint.AuthenticationController.SignInAndRedirect | source/Core/Endpoints/AuthenticationController.cs:965-998 | appends exactly the trace of SignInFlows.SignInAndRedirect (post-authentication, IdP check, clear before issue) and returns the redirect or error |
| AuthenticationEndpoint.AuthenticationController.ExternalAuthenticate | source/Core/Endpoints/AuthenticationController.cs:668-700 | appends exactly the trace of SignInFlows.ExternalAuthenticate and returns its answer |
| AuthenticationEndpoint.AuthenticationController.LoginLocal | source/Core/Endpoints/AuthenticationController.cs:451-560 | appends exactly the trace of SignInFlows.LoginLocal and returns its answer |
| AuthenticationEndpoint.AuthenticationController.AuthenticateLocal | source/Core/Endpoints/AuthenticationController.cs:509-559 | appends exactly the trace of SignInFlows.LocalAuthenticate (the call with trimmed credentials, then the answer) |
| AuthenticationEndpoint.AuthenticationController.LocalAnswer | source/Core/Endpoints/AuthenticationController.cs:518-542 | appends exactly the trace of SignInFlows.LocalAnswer (null result, forced password change) |
| AuthenticationEndpoint.AuthenticationController.LocalVerdict | source/Core/Endpoints/AuthenticationController.cs:544-559 | appends exactly the trace of SignInFlows.LocalResult (error page or sign-in) |
| AuthenticationEndpoint.AuthenticationController.LoginExternalCallback | source/Core/Endpoints/AuthenticationController.cs:624-701 | appends exactly the trace of SignInFlows.LoginExternalCallback and returns its answer |
| AuthenticationEndpoint.AuthenticationController.ResumeLoginFromRedirect | source/Core/Endpoints/AuthenticationController.cs:705-842 | appends the trace of SignInFlows.ResumeLoginFromRedirect and leaves the partial identity with exactly its cleaned claims, removing them in place |
| AuthenticationEndpoint.AuthenticationController.RemoveClaimIfPresent | source/Core/Endpoints/AuthenticationController.cs:757-771 | one clean-up step: the first claim of the type is removed when present, and the claims are unchanged otherwise |
| AuthenticationEndpoint.AuthenticationController.ResumeWith | source/Core/Endpoints/AuthenticationController.cs:774-841 | appends exactly the trace of SignInFlows.ResumeWith (external or direct branch, then sign-in) |
| AuthenticationEndpoint.AuthenticationController.LogoutPrompt | source/Core/Endpoints/AuthenticationController.cs:846-894 | appends exactly the trace of SignInFlows.LogoutPrompt and returns the prompt or the logout's answer |
| AuthenticationEndpoint.AuthenticationController.Logout | source/Core/Endpoints/AuthenticationController.cs:899-938 | appends exactly the trace of SignInFlows.Logout and returns the logged-out page |
| AuthenticationEndpoint.AuthenticationController.Reset | source/Core/Endpoints/AuthenticationController.cs:311-395 | appends exactly the trace of SignInFlows.Reset and returns its answer |
| AuthenticationEndpoint.AuthenticationController.ResetVerify | source/Core/Endpoints/AuthenticationController.cs:206-292 | appends exactly the trace of SignInFlows.ResetVerify and returns its answer |
| AuthenticationEndpoint.AuthenticationController.VerifyWithService | source/Core/Endpoints/AuthenticationController.cs:249-291 | appends exactly the trace of SignInFlows.ResetVerifyWithService |
| AuthenticationEndpoint.AuthenticationController.ResetCallback | source/Core/Endpoints/AuthenticationController.cs:120-187 | appends exactly the trace of SignInFlows.ResetCallback and returns its answer |
| AuthenticationEndpoint.AuthenticationController.CallbackWithService | source/Core/Endpoints/AuthenticationController.cs:147-186 | appends exactly the trace of SignInFlows.ResetCallbackWithService, ending in LoginLocal on success |

## Left out

- Rendering. The view models, the view service and the localized message
  texts are not modelled. Every rendered page is an `Outcome` value that
  carries the sign-in id, the message id or text, and the user name shown.
  The login page's remember-me checkbox and its provider-link lists are not
  part of the page value.
- The GET endpoints are not modelled: the login page (`Login`), `Reset`,
  `ResetVerify` and `ResetCallback`. The `RenderResetPassword*Page` helpers
  are modelled only as far as the page value and the user name they choose.
  `PreAuthenticate` and `SetRequestLanguage` are not modelled.
- Logging, async sequencing, `Url.Route`, `VirtualPathUtility`, cookie
  encryption and the OWIN authentication manager are not modelled. Each
  cookie operation and each collaborator call is one `Action` in the trace.
- The user service, password-reset service, client store, configured
  providers and provider links are oracles in `Config`. `CryptoRandom`
  becomes a fixed fresh id, and "now" is a number. The expiry is "now plus
  the remember-me duration"; no date arithmetic is modelled.
- The logged-out page is a value; its redirect and iframe details are not
  modelled.
- A thrown `GetIdentityProvider` lookup is modelled as a mismatch, that is,
  as "no idp claim".
- `ModelState.GetError()` is modelled as the first error added.
- The `Login` model that Reset POST receives is represented by
  `LoginCredentials`, whose password and provider fields Reset ignores.
- Strings.IsWhiteSpace: recognises the ASCII white-space characters plus
  NEL and NBSP, not the full Unicode set that .NET uses. Null and empty
  strings are the same value, except where the code tells them apart
  (optional results, `bool?`).
- OpenIdExtensions.RedirectToIdentityProvider: takes the Base64Url/UTF-8
  encoding of the web-service URL as an input. `StateRoundTrip` assumes that
  input has no dot, which the base64url alphabet guarantees.
- OpenIdExtensions.ValidateIssuerWithPlaceholder: the library's
  `Validators.ValidateIssuer` is an input, the verdict it would give.
- `UseAzureAdAuthentication`'s other option settings are not modelled.
- SignInModel.FindFirst: compares claim types exactly, but
  `ClaimsIdentity.FindFirst` ignores case. The model's
  ResumeLoginFromRedirect therefore differs from the code for a resume value
  that matches the issued resume id only up to letter case. The code finds
  the resume claim and signs in, and the resume-id claim stays in the
  identity, because the exact `HasClaim` test of the clean-up fails. The
  model answers the error page. `ResumeIdentityChange` describes only exact
  claim-type lookup.
- SignInDecisions.RedirectUrl: gives the full sign-in's ReturnUrl as a
  string. `new Uri(...)` canonicalises that URL and throws on a relative or
  malformed one, and neither is modelled.
- SignInDecisions.HandleNoSignin: the same applies to the redirect URL that
  `Redirect(string)` parses.
- Strings.Truncate: counts Unicode scalar values, while .NET `Length` and
  `Substring` count UTF-16 code units. The same applies to every length cap
  in the model: user name, password, provider, sign-in id, resume id and
  external error. So for text outside the Basic Multilingual Plane the
  model accepts longer strings than the code. It also never splits a
  surrogate pair, which `Substring` can.
- Strings.StartsWith: is ordinal. .NET `String.StartsWith(string)` is
  culture-sensitive. This matters for the `~/` and `/` prefix tests and for
  the tenant id's "common" prefix.
- SignInDecisions.ParseRememberMe: stands in for
  `GetPartialLoginRememberMeAsync`, which is not part of this model. It
  accepts exactly the "true" and "false" that a partial sign-in stores.
- These files are not part of this model, and the values they supply are
  inputs: `Constants.cs` (route paths, claim types, the
  AuthenticateResultClaimTypes list), `AuthenticateResult.cs`,
  `ExternalIdentity.FromClaims`, and the message-cookie and
  last-username-cookie classes.
- ResetVerify POST has no `EnableLocalLogin` (405) check in the code. The
  model follows the code.
- ResetVerify POST caps the password at a hard-coded 6 characters, which
  reads like a one-time code rather than a password. It is modelled as
  written (`ResetVerifyMaxPasswordLength`).
