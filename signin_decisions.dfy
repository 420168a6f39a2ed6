/**
  The side-effect-free decisions of AuthenticationController: sign-in id
  validation, the invalid-sign-in redirect, per-client local-login gating,
  the login page's user name and provider auto-redirect, the logout prompt,
  and what issuing a session puts in cookies (which cookies are cleared, the
  partial-login claims, persistence and expiry, the redirect target), and
  the clean-up of a partial identity's transient claims.
*/
module SignInDecisions {
  import opened Common
  import opened Strings
  import opened SignInModel

  // ---------------------------------------------------------------------
  // Sign-in id validation (ValidateSignin, HandleNoSignin)

  /** HandleNoSignin: the configured invalid-sign-in redirect, or the error page when none is configured. */
  function HandleNoSignin(options: Options, env: Environment): (r: Outcome)
    ensures var url := options.invalidSignInRedirectUrl;
      && (IsMissing(url) ==> r == ErrorPage(Localized(NoSignInCookie)))
      && (IsPresent(url) && StartsWith(url, "~/") ==> r == Redirect(env.baseUrl + url[2..]))
      && (IsPresent(url) && StartsWith(url, "/") ==> r == Redirect(env.host + url))
      && (IsPresent(url) && !StartsWith(url, "~/") && !StartsWith(url, "/") ==> r == Redirect(url))
  {
    var url := options.invalidSignInRedirectUrl;
    if IsMissing(url) then ErrorPage(Localized(NoSignInCookie))
    else if StartsWith(url, "~/") then
      assert url[0] == url[..2][0] == '~';
      Redirect(env.baseUrl + url[2..])
    else if StartsWith(url, "/") then Redirect(env.host + url)
    else Redirect(url)
  }

  /**
    ValidateSignin: a present id of at most MaxSignInMessageLength characters
    that names a stored message yields that message. A missing or unknown id
    goes to HandleNoSignin; an over-long id is the generic error page whatever
    the store holds.
  */
  function ValidateSignin(cfg: Config, signin: string): (r: Result<SignInMessage, Outcome>)
    ensures r.Success? <==> IsPresent(signin) && |signin| <= MaxSignInMessageLength && signin in cfg.signInMessages
    ensures r.Success? ==> r.value == cfg.signInMessages[signin]
    ensures IsPresent(signin) && |signin| > MaxSignInMessageLength ==> r == Failure(GenericError)
    ensures IsMissing(signin) || (|signin| <= MaxSignInMessageLength && signin !in cfg.signInMessages) ==>
      r == Failure(HandleNoSignin(cfg.options, cfg.env))
  {
    if IsMissing(signin) then Failure(HandleNoSignin(cfg.options, cfg.env))
    else if |signin| > MaxSignInMessageLength then Failure(GenericError)
    else if signin !in cfg.signInMessages then Failure(HandleNoSignin(cfg.options, cfg.env))
    else Success(cfg.signInMessages[signin])
  }

  /** An over-long sign-in id is refused the same way whatever the message store holds. */
  lemma TooLongSigninIgnoresStore(cfg: Config, store: map<string, SignInMessage>, signin: string)
    requires IsPresent(signin) && |signin| > MaxSignInMessageLength
    ensures ValidateSignin(cfg, signin) == ValidateSignin(cfg.(signInMessages := store), signin) == Failure(GenericError)
  {
  }

  // ---------------------------------------------------------------------
  // Local login gating

  /** IsLocalLoginAllowedForClient: fails open, refusing only for a known client that disables local login. */
  function IsLocalLoginAllowedForClient(clients: map<string, Client>, message: Option<SignInMessage>): (allowed: bool)
    ensures !allowed <==>
      message.Some? && IsPresent(message.value.clientId) && message.value.clientId in clients &&
      !clients[message.value.clientId].enableLocalLogin
  {
    if message.Some? && IsPresent(message.value.clientId) && message.value.clientId in clients then
      clients[message.value.clientId].enableLocalLogin
    else true
  }

  /** The ModelState errors of a submitted user name and password, in the order they are added. */
  function CredentialErrors(username: string, password: string): (errors: seq<MessageId>)
    ensures errors == [] <==> IsPresent(username) && IsPresent(password)
    ensures errors != [] ==> errors[0] == if IsMissing(username) then UsernameRequired else PasswordRequired
  {
    (if IsMissing(username) then [UsernameRequired] else []) + (if IsMissing(password) then [PasswordRequired] else [])
  }

  // ---------------------------------------------------------------------
  // Login page

  /**
    GetUserNameForLoginPage: an explicit user name wins; otherwise the login
    hint when hints are enabled; otherwise the last-username cookie, which is
    the only source reported as coming from the cookie.
  */
  function UserNameForLoginPage(options: Options, lastUserName: string, message: SignInMessage, username: string): (r: (string, bool))
    ensures IsPresent(username) ==> r == (username, false)
    ensures IsMissing(username) && options.enableLoginHint && IsPresent(message.loginHint) ==> r == (message.loginHint, false)
    ensures IsMissing(username) && !(options.enableLoginHint && IsPresent(message.loginHint)) ==>
      r == if IsPresent(lastUserName) then (lastUserName, true) else (username, false)
  {
    var fromHint := if IsMissing(username) && IsPresent(message.loginHint) && options.enableLoginHint then message.loginHint else username;
    if IsMissing(fromHint) && IsPresent(lastUserName) then (lastUserName, true) else (fromHint, false)
  }

  /** FilterHiddenLinks */
  function VisibleLinks(links: seq<ProviderLink>): (r: seq<ProviderLink>)
    ensures |r| <= |links|
    ensures forall l :: l in r <==> l in links && l.visible
  {
    if links == [] then []
    else (if links[0].visible then [links[0]] else []) + VisibleLinks(links[1..])
  }

  datatype ProviderChoice = NoProviders | UseProvider(providerType: string) | ShowLoginPage

  /**
    The automatic provider choice of RenderLoginPage: no links is an error,
    a single link is taken, and among several links a single visible one is
    taken; a blank provider type falls back to the login page.
  */
  function ChooseProvider(links: seq<ProviderLink>): (c: ProviderChoice)
    ensures c == NoProviders <==> links == []
    ensures |links| == 1 ==> c == if IsPresent(links[0].providerType) then UseProvider(links[0].providerType) else ShowLoginPage
    ensures |links| > 1 && |VisibleLinks(links)| == 1 ==>
      c == if IsPresent(VisibleLinks(links)[0].providerType) then UseProvider(VisibleLinks(links)[0].providerType) else ShowLoginPage
    ensures |links| > 1 && |VisibleLinks(links)| != 1 ==> c == ShowLoginPage
    ensures c.UseProvider? ==> IsPresent(c.providerType) && exists l :: l in links && l.providerType == c.providerType
  {
    if links == [] then NoProviders
    else
      var visible := VisibleLinks(links);
      var providerType := if |links| == 1 then links[0].providerType else if |visible| == 1 then visible[0].providerType else "";
      assert |visible| == 1 ==> visible[0] in links;
      if IsPresent(providerType) then UseProvider(providerType) else ShowLoginPage
  }

  /**
    RenderLoginPage tries a provider instead of the page only when there is no
    error to show and either local login is not allowed, or there are provider
    links and the login is forced or the user name came from the cookie.
  */
  predicate TriesExternalProvider(localLoginAllowed: bool, links: seq<ProviderLink>, loginForced: LoginForced, userNameFromCookie: bool, error: Option<Message>) {
    error.None? && (!localLoginAllowed || (|links| > 0 && (loginForced == Forced || loginForced == ForcedHidden || userNameFromCookie)))
  }

  // ---------------------------------------------------------------------
  // Session issuance

  /**
    The sign-in cookie's properties. A full sign-in is persistent when the user
    asked to be remembered, or when the user did not refuse and the server
    defaults to persistent cookies; only an explicit request sets an expiry. A
    partial sign-in is never persistent and stashes the choice, if any, as
    "true" or "false".
  */
  function SignInProperties(options: Options, now: int, partial: bool, rememberMe: Option<bool>): (p: AuthProperties)
    ensures !partial ==> (p.isPersistent <==> rememberMe == Some(true) || (rememberMe != Some(false) && options.cookieIsPersistent))
    ensures !partial ==> p.expiresUtc == if rememberMe == Some(true) then Some(now + options.rememberMeDuration) else None
    ensures !partial ==> p.partialLoginRememberMe == None
    ensures partial ==> !p.isPersistent && p.expiresUtc == None
    ensures partial ==> (p.partialLoginRememberMe.Some? <==> rememberMe.Some?)
    ensures partial && rememberMe.Some? ==> p.partialLoginRememberMe.value == if rememberMe.value then "true" else "false"
  {
    if partial then
      AuthProperties(false, None, if rememberMe.Some? then Some(if rememberMe.value then "true" else "false") else None)
    else
      var props := AuthProperties(false, None, None);
      if rememberMe == Some(true) || (rememberMe != Some(false) && options.cookieIsPersistent) then
        props.(isPersistent := true, expiresUtc := if rememberMe == Some(true) then Some(now + options.rememberMeDuration) else None)
      else props
  }

  /**
    GetPartialLoginRememberMeAsync: reads back the remember-me choice stashed
    by a partial sign-in; no entry, or any other text, is no choice.
  */
  function ParseRememberMe(entry: Option<string>): Option<bool> {
    if entry == Some("true") then Some(true) else if entry == Some("false") then Some(false) else None
  }

  /** The remember-me choice stashed by a partial sign-in reads back as it was given. */
  lemma RememberMeRoundTrip(options: Options, now: int, rememberMe: Option<bool>)
    ensures ParseRememberMe(SignInProperties(options, now, true, rememberMe).partialLoginRememberMe) == rememberMe
  {
  }

  /** The three claims a partial sign-in adds: the resume URL, the resume id holding the sign-in id, and the restart URL. */
  function PartialLoginClaims(env: Environment, signinId: string): (r: seq<Claim>)
    ensures |r| == 3
    ensures r[0] == Claim(PartialLoginReturnUrl, env.resumeUrl(env.freshId), LocalAuthority)
    ensures r[1] == Claim(PartialLoginResumeId(env.freshId), signinId, LocalAuthority)
    ensures r[2] == Claim(PartialLoginRestartUrl, env.restartUrl(signinId), LocalAuthority)
  {
    [ Claim(PartialLoginReturnUrl, env.resumeUrl(env.freshId), LocalAuthority),
      Claim(PartialLoginResumeId(env.freshId), signinId, LocalAuthority),
      Claim(PartialLoginRestartUrl, env.restartUrl(signinId), LocalAuthority) ]
  }

  /** ClearAuthenticationCookiesForNewSignIn: a partial sign-in keeps the primary cookie. */
  function ClearCookieActions(result: AuthenticateResult): (r: seq<Action>)
    ensures |r| > 0 && r[|r| - 1] == Cookie(SignOut([ExternalScheme, PartialSignInScheme]))
    ensures Cookie(SignOut([PrimaryScheme])) in r <==> !result.IsPartialSignIn()
  {
    (if result.IsPartialSignIn() then [] else [Cookie(SignOut([PrimaryScheme]))]) +
    [Cookie(SignOut([ExternalScheme, PartialSignInScheme]))]
  }

  /**
    IssueAuthenticationCookie: a full sign-in clears the stored sign-in message
    and issues a session id before signing in; a partial one signs in with the
    three partial-login claims appended.
  */
  function IssueCookieActions(cfg: Config, signinId: string, result: AuthenticateResult, rememberMe: Option<bool>): (r: seq<Action>)
    ensures |r| > 0 && r[|r| - 1].Cookie? && r[|r| - 1].op.SignIn?
    ensures r[|r| - 1].op.props == SignInProperties(cfg.options, cfg.env.now, result.IsPartialSignIn(), rememberMe)
    ensures result.IsPartialSignIn() ==> r == [r[0]] && r[0].op.claims == result.claims + PartialLoginClaims(cfg.env, signinId)
    ensures !result.IsPartialSignIn() ==>
      |r| == 3 && r[0] == Cookie(ClearSignInMessage(signinId)) && r[1] == Cookie(IssueSessionId(rememberMe)) && r[2].op.claims == result.claims
  {
    var props := SignInProperties(cfg.options, cfg.env.now, result.IsPartialSignIn(), rememberMe);
    if result.IsPartialSignIn() then
      [Cookie(SignIn(props, result.claims + PartialLoginClaims(cfg.env, signinId)))]
    else
      [Cookie(ClearSignInMessage(signinId)), Cookie(IssueSessionId(rememberMe)), Cookie(SignIn(props, result.claims))]
  }

  /** GetRedirectUrl: a full sign-in returns to the request's ReturnUrl unchanged; a partial one to its redirect path. */
  function RedirectUrl(env: Environment, message: SignInMessage, result: AuthenticateResult): (url: string)
    ensures !result.IsPartialSignIn() ==> url == message.returnUrl
    ensures result.IsPartialSignIn() ==>
      url == env.combineUri(env.host,
        if StartsWith(result.partialSignInRedirectPath, "~/") then env.baseUrl + result.partialSignInRedirectPath[2..]
        else result.partialSignInRedirectPath)
  {
    if result.IsPartialSignIn() then
      var path := result.partialSignInRedirectPath;
      var path' := if StartsWith(path, "~/") then env.baseUrl + path[2..] else path;
      env.combineUri(env.host, path')
    else message.returnUrl
  }

  /**
    A partial sign-in's target never depends on the request's ReturnUrl, and a
    full sign-in's target depends on nothing but that ReturnUrl.
  */
  lemma RedirectTargetSources(env: Environment, m1: SignInMessage, m2: SignInMessage, r1: AuthenticateResult, r2: AuthenticateResult)
    ensures r1.IsPartialSignIn() ==> RedirectUrl(env, m1, r1) == RedirectUrl(env, m2, r1)
    ensures !r1.IsPartialSignIn() && !r2.IsPartialSignIn() && m1.returnUrl == m2.returnUrl ==>
      RedirectUrl(env, m1, r1) == RedirectUrl(env, m2, r2)
  {
  }

  /** The user service signed a full sign-in in with an identity provider other than the one requested. */
  predicate IdPMismatch(message: SignInMessage, result: AuthenticateResult) {
    IsPresent(message.idp) && !result.IsPartialSignIn() && result.HasSubject() && result.IdentityProvider() != Some(message.idp)
  }

  // ---------------------------------------------------------------------
  // Partial-login resumption

  /** RemoveClaim(FindFirst(t)): removes the first claim of type `t`, if any. */
  function RemoveFirst(claims: seq<Claim>, t: ClaimType): (r: seq<Claim>)
    ensures |r| == if HasClaim(claims, t) then |claims| - 1 else |claims|
  {
    var k := FirstIndexOf(claims, t);
    if k < |claims| then claims[..k] + claims[k + 1..] else claims
  }

  /** The claim types removed when a partial login resumes with resume id `resume`. */
  predicate IsTransient(t: ClaimType, resume: string) {
    t == PartialLoginRestartUrl || t == PartialLoginReturnUrl || t == ExternalProviderUserId || t == PartialLoginResumeId(resume)
  }

  /** The clean-up ResumeLoginFromRedirect does, in the source's order. */
  function CleanupPartialClaims(claims: seq<Claim>, resume: string): seq<Claim> {
    var c1 := RemoveFirst(claims, PartialLoginRestartUrl);
    var c2 := RemoveFirst(c1, PartialLoginReturnUrl);
    var c3 := RemoveFirst(c2, ExternalProviderUserId);
    RemoveFirst(c3, PartialLoginResumeId(resume))
  }

  /** The claims whose type is not transient, in order. */
  function Retained(claims: seq<Claim>, resume: string): seq<Claim> {
    if claims == [] then []
    else (if IsTransient(claims[0].claimType, resume) then [] else [claims[0]]) + Retained(claims[1..], resume)
  }

  /** Retained keeps exactly the claims of a type that is not transient. */
  lemma {:induction false} RetainedMembers(claims: seq<Claim>, resume: string, c: Claim)
    ensures c in Retained(claims, resume) <==> c in claims && !IsTransient(c.claimType, resume)
    decreases |claims|
  {
    if claims != [] {
      RetainedMembers(claims[1..], resume, c);
      assert claims == [claims[0]] + claims[1..];
    }
  }

  lemma {:induction false} RetainedAppend(a: seq<Claim>, b: seq<Claim>, resume: string)
    ensures Retained(a + b, resume) == Retained(a, resume) + Retained(b, resume)
    decreases |a|
  {
    if a == [] {
      assert a + b == b;
    } else {
      assert (a + b)[0] == a[0];
      assert (a + b)[1..] == a[1..] + b;
      RetainedAppend(a[1..], b, resume);
    }
  }

  /** Removing a transient claim leaves every other claim where it was. */
  lemma RemoveFirstRetains(claims: seq<Claim>, t: ClaimType, resume: string)
    requires IsTransient(t, resume)
    ensures Retained(RemoveFirst(claims, t), resume) == Retained(claims, resume)
  {
    if HasClaim(claims, t) {
      var k := FirstIndexOf(claims, t);
      var a, b := claims[..k], claims[k + 1..];
      assert claims == a + ([claims[k]] + b);
      assert claims[k].claimType == t && RemoveFirst(claims, t) == a + b;
      RetainedAppend(a, [claims[k]] + b, resume);
      RetainedAppend([claims[k]], b, resume);
      RetainedAppend(a, b, resume);
      assert Retained([claims[k]], resume) == [] by {
        assert [claims[k]][1..] == [];
      }
    }
  }

  /** The clean-up touches no claim outside the four transient types. */
  lemma CleanupRetainsOtherClaims(claims: seq<Claim>, resume: string)
    ensures Retained(CleanupPartialClaims(claims, resume), resume) == Retained(claims, resume)
  {
    var c1 := RemoveFirst(claims, PartialLoginRestartUrl);
    var c2 := RemoveFirst(c1, PartialLoginReturnUrl);
    var c3 := RemoveFirst(c2, ExternalProviderUserId);
    RemoveFirstRetains(claims, PartialLoginRestartUrl, resume);
    RemoveFirstRetains(c1, PartialLoginReturnUrl, resume);
    RemoveFirstRetains(c2, ExternalProviderUserId, resume);
    RemoveFirstRetains(c3, PartialLoginResumeId(resume), resume);
  }

  /** The number of claims of type `t`. */
  function CountOf(claims: seq<Claim>, t: ClaimType): (n: nat)
    ensures n == 0 <==> !HasClaim(claims, t)
  {
    if claims == [] then 0
    else
      var n := (if claims[0].claimType == t then 1 else 0) + CountOf(claims[1..], t);
      assert HasClaim(claims, t) <==> claims[0].claimType == t || HasClaim(claims[1..], t) by {
        if HasClaim(claims[1..], t) {
          var i :| 0 <= i < |claims[1..]| && claims[1..][i].claimType == t;
          assert claims[i + 1] == claims[1..][i];
        }
        if HasClaim(claims, t) && claims[0].claimType != t {
          var i :| 0 <= i < |claims| && claims[i].claimType == t;
          assert claims[1..][i - 1] == claims[i];
        }
      }
      n
  }

  lemma {:induction false} CountOfAppend(a: seq<Claim>, b: seq<Claim>, t: ClaimType)
    ensures CountOf(a + b, t) == CountOf(a, t) + CountOf(b, t)
    decreases |a|
  {
    if a == [] {
      assert a + b == b;
    } else {
      assert (a + b)[0] == a[0];
      assert (a + b)[1..] == a[1..] + b;
      CountOfAppend(a[1..], b, t);
    }
  }

  /** Removing the first claim of type `t` lowers the count of `t` by one if there was one, and no other count. */
  lemma RemoveFirstCounts(claims: seq<Claim>, t: ClaimType, u: ClaimType)
    ensures CountOf(RemoveFirst(claims, t), u) ==
      CountOf(claims, u) - if u == t && HasClaim(claims, t) then 1 else 0
  {
    if HasClaim(claims, t) {
      var k := FirstIndexOf(claims, t);
      var a, b := claims[..k], claims[k + 1..];
      assert claims == a + ([claims[k]] + b);
      CountOfAppend(a, [claims[k]] + b, u);
      CountOfAppend([claims[k]], b, u);
      CountOfAppend(a, b, u);
      assert CountOf([claims[k]], u) == if u == t then 1 else 0 by {
        assert [claims[k]][1..] == [];
      }
    }
  }

  /** The clean-up removes exactly one claim of each transient type present, and nothing of any other type. */
  lemma CleanupCounts(claims: seq<Claim>, resume: string, u: ClaimType)
    ensures CountOf(CleanupPartialClaims(claims, resume), u) ==
      CountOf(claims, u) - if IsTransient(u, resume) && HasClaim(claims, u) then 1 else 0
  {
    hide RemoveFirst, CountOf, HasClaim;
    var c1 := RemoveFirst(claims, PartialLoginRestartUrl);
    var c2 := RemoveFirst(c1, PartialLoginReturnUrl);
    var c3 := RemoveFirst(c2, ExternalProviderUserId);
    RemoveFirstCounts(claims, PartialLoginRestartUrl, u);
    RemoveFirstCounts(c1, PartialLoginReturnUrl, u);
    RemoveFirstCounts(c2, ExternalProviderUserId, u);
    RemoveFirstCounts(c3, PartialLoginResumeId(resume), u);
    // each removal only touches its own type, so the presence of `u` is preserved until its own turn
    RemoveFirstCounts(claims, PartialLoginRestartUrl, PartialLoginReturnUrl);
    RemoveFirstCounts(claims, PartialLoginRestartUrl, ExternalProviderUserId);
    RemoveFirstCounts(claims, PartialLoginRestartUrl, PartialLoginResumeId(resume));
    RemoveFirstCounts(c1, PartialLoginReturnUrl, ExternalProviderUserId);
    RemoveFirstCounts(c1, PartialLoginReturnUrl, PartialLoginResumeId(resume));
    RemoveFirstCounts(c2, ExternalProviderUserId, PartialLoginResumeId(resume));
  }

  /** Every claim type that makes up a completed authentication result is present. */
  predicate HasAllResultClaimTypes(claims: seq<Claim>) {
    forall i :: 0 <= i < |AuthenticateResultClaimTypes| ==> HasClaim(claims, AuthenticateResultClaimTypes[i])
  }

  // ---------------------------------------------------------------------
  // Logout

  /** signOutMessageCookie.Read(id) */
  function ReadSignOutMessage(cfg: Config, id: string): Option<SignOutMessage> {
    if id in cfg.signOutMessages then Some(cfg.signOutMessages[id]) else None
  }

  datatype LogoutChoice = RejectLongId | PerformLogout | ShowPrompt

  /** Whether the sign-out request names a client that requires a sign-out prompt, when it names one at all. */
  function SignOutClientPrompt(cfg: Config, id: string): Option<bool> {
    match ReadSignOutMessage(cfg, id)
    case Some(m) =>
      if IsPresent(m.clientId) then
        Some(m.clientId in cfg.clientStore.clients && cfg.clientStore.clients[m.clientId].requireSignOutPrompt)
      else None
    case None => None
  }

  /**
    LogoutPrompt's decision: an over-long id is refused; an anonymous user is
    logged out; otherwise the prompt is shown when the server always prompts,
    or, failing that, when the sign-out request's client asks for it, or, with
    no such client, when prompting is enabled.
  */
  function LogoutPromptChoice(cfg: Config, id: string): (c: LogoutChoice)
    ensures c == RejectLongId <==> |id| > MaxSignInMessageLength
    ensures c == ShowPrompt <==>
      |id| <= MaxSignInMessageLength && cfg.env.userAuthenticated &&
      (cfg.options.requireSignOutPrompt ||
       (match SignOutClientPrompt(cfg, id) case Some(b) => b case None => cfg.options.enableSignOutPrompt))
  {
    if |id| > MaxSignInMessageLength then RejectLongId
    else if !cfg.env.userAuthenticated then PerformLogout
    else if cfg.options.requireSignOutPrompt then ShowPrompt
    else
      var message := ReadSignOutMessage(cfg, id);
      if message.Some? && IsPresent(message.value.clientId) then
        var clientId := message.value.clientId;
        if clientId in cfg.clientStore.clients && cfg.clientStore.clients[clientId].requireSignOutPrompt then ShowPrompt
        else PerformLogout
      else if !cfg.options.enableSignOutPrompt then PerformLogout
      else ShowPrompt
  }
}
