/**
  Properties of the endpoint specifications: which guards stand between a
  request and the user service, when and how a session cookie is issued, how
  a partial login resumes, and what logout and password reset promise.
*/
module SignInProperties {
  import opened Common
  import opened Strings
  import opened ResetResults
  import opened SignInModel
  import opened SignInDecisions
  import opened SignInFlows

  // ---------------------------------------------------------------------
  // Observations on traces

  predicate OnlyEvents(actions: seq<Action>) {
    forall a :: a in actions ==> a.Raise?
  }

  predicate CallsAuthenticateLocal(actions: seq<Action>) {
    exists a :: a in actions && a.Call? && a.call.AuthenticateLocal?
  }

  /** Some sign-in cookie is issued. */
  predicate IssuesSession(actions: seq<Action>) {
    exists a :: a in actions && a.Cookie? && a.op.SignIn?
  }

  predicate TouchesCookies(actions: seq<Action>) {
    exists a :: a in actions && a.Cookie?
  }

  // ---------------------------------------------------------------------
  // Helpers that never call a service nor touch a cookie

  /** LoginExternal raises at most one event and does nothing else. */
  lemma LoginExternalOnlyRaises(cfg: Config, signin: string, provider: string, loginHint: string)
    ensures var e := LoginExternal(cfg, signin, provider, loginHint);
      OnlyEvents(e.actions) && |e.actions| <= 1
  {
  }

  /** LoginExternal challenges exactly when the provider is named, short enough, allowed for the client and configured. */
  lemma LoginExternalChallengesIff(cfg: Config, signin: string, provider: string, loginHint: string)
    ensures var e := LoginExternal(cfg, signin, provider, loginHint);
      e.outcome.Challenge? <==>
        IsPresent(provider) && |provider| <= cfg.options.maxIdentityProviderLength &&
        ValidateSignin(cfg, signin).Success? &&
        cfg.clientStore.isValidIdentityProvider(ValidateSignin(cfg, signin).value.clientId, provider) &&
        provider in cfg.env.configuredProviders
    ensures var e := LoginExternal(cfg, signin, provider, loginHint);
      e.outcome.Challenge? ==>
        e.actions == [] && e.outcome.provider == provider &&
        e.outcome.props == ChallengeProperties(cfg.env.callbackUrl, signin, provider, if loginHint == "" then None else Some(loginHint))
  {
  }

  /** RenderLoginPage raises at most one event and does nothing else. */
  lemma RenderLoginPageOnlyRaises(cfg: Config, message: SignInMessage, signin: string, error: Option<Message>, username: string)
    ensures var e := RenderLoginPage(cfg, message, signin, error, username);
      OnlyEvents(e.actions) && |e.actions| <= 1
  {
    var shown := UserNameForLoginPage(cfg.options, cfg.env.lastUserName, message, username);
    var links := cfg.env.providerLinks(message.clientId);
    if TriesExternalProvider(LocalLoginOffered(cfg, message), links, message.loginForced, shown.1, error) {
      match ChooseProvider(links)
      case UseProvider(providerType) => LoginExternalOnlyRaises(cfg, signin, providerType, shown.0);
      case _ =>
    }
  }

  /** With an error to show, RenderLoginPage always shows the page, never a provider. */
  lemma RenderLoginPageWithError(cfg: Config, message: SignInMessage, signin: string, error: Message, username: string)
    ensures RenderLoginPage(cfg, message, signin, Some(error), username) ==
      Respond(LoginPage(signin, Some(error), UserNameForLoginPage(cfg.options, cfg.env.lastUserName, message, username).0))
  {
  }

  /** A provider is challenged from the login page only without an error, and only one of the client's own links. */
  lemma RenderLoginPageChallengesOwnProvider(cfg: Config, message: SignInMessage, signin: string, error: Option<Message>, username: string)
    requires RenderLoginPage(cfg, message, signin, error, username).outcome.Challenge?
    ensures error.None?
    ensures var provider := RenderLoginPage(cfg, message, signin, error, username).outcome.provider;
      exists l :: l in cfg.env.providerLinks(message.clientId) && l.providerType == provider
  {
    var shown := UserNameForLoginPage(cfg.options, cfg.env.lastUserName, message, username);
    var links := cfg.env.providerLinks(message.clientId);
    assert TriesExternalProvider(LocalLoginOffered(cfg, message), links, message.loginForced, shown.1, error);
    var choice := ChooseProvider(links);
    assert choice.UseProvider?;
    LoginExternalChallengesIff(cfg, signin, choice.providerType, shown.0);
  }

  // ---------------------------------------------------------------------
  // Sign-in and redirect

  /** The effects that end a request before a session is issued raise events and make calls, but never touch a cookie. */
  lemma PostAuthenticateStopTouchesNoCookie(cfg: Config, message: SignInMessage, signin: string, result: AuthenticateResult)
    requires PostAuthenticateStep(cfg, message, signin, result).Stop?
    ensures !TouchesCookies(PostAuthenticateStep(cfg, message, signin, result).effect.actions)
  {
    var reply := cfg.userService.postAuthenticate(message, result);
    if reply.result.Some? && reply.result.value.IsError() && reply.showLoginPageOnErrorResult {
      RenderLoginPageOnlyRaises(cfg, message, signin, Some(Text(reply.result.value.errorMessage)), "");
    }
  }

  /**
    SignInAndRedirectAsync issues a sign-in cookie exactly when post-authentication
    lets the result through and that result does not contradict the requested
    identity provider; it then redirects to GetRedirectUrl of that result.
  */
  lemma SignInIssuesSessionIff(cfg: Config, message: SignInMessage, signin: string, result: AuthenticateResult, rememberMe: Option<bool>)
    ensures var step := PostAuthenticateStep(cfg, message, signin, result);
      var e := SignInAndRedirect(cfg, message, signin, result, rememberMe);
      (IssuesSession(e.actions) <==> step.Continue? && !IdPMismatch(message, step.result)) &&
      (IssuesSession(e.actions) ==> e.outcome == Redirect(RedirectUrl(cfg.env, message, step.result))) &&
      (!IssuesSession(e.actions) ==> !TouchesCookies(e.actions))
  {
    var step := PostAuthenticateStep(cfg, message, signin, result);
    var e := SignInAndRedirect(cfg, message, signin, result, rememberMe);
    match step
    case Stop(_) =>
      PostAuthenticateStopTouchesNoCookie(cfg, message, signin, result);
    case Continue(pre, r) =>
      assert forall a :: a in pre ==> a.Call?;
      if !IdPMismatch(message, r) {
        var issue := IssueCookieActions(cfg, signin, r, rememberMe);
        assert issue[|issue| - 1] in e.actions;
      }
  }

  /** A full sign-in for a different identity provider than the one requested changes no cookie and shows the error page. */
  lemma IdPMismatchIssuesNothing(cfg: Config, message: SignInMessage, signin: string, result: AuthenticateResult, rememberMe: Option<bool>)
    requires PostAuthenticateStep(cfg, message, signin, result).Continue?
    requires IdPMismatch(message, PostAuthenticateStep(cfg, message, signin, result).result)
    ensures var e := SignInAndRedirect(cfg, message, signin, result, rememberMe);
      e.outcome == GenericError && !TouchesCookies(e.actions) && e.actions == [Call(PostAuthenticate(result))]
  {
  }

  /**
    A full sign-in signs out of the primary, external and partial schemes, then
    clears the sign-in message and issues a session id, then signs in with the
    result's claims, and returns to the sign-in request's ReturnUrl.
  */
  lemma FullSignInSequence(cfg: Config, message: SignInMessage, signin: string, result: AuthenticateResult, rememberMe: Option<bool>)
    requires PostAuthenticateStep(cfg, message, signin, result).Continue?
    requires var r := PostAuthenticateStep(cfg, message, signin, result).result; !r.IsPartialSignIn() && !IdPMismatch(message, r)
    ensures var r := PostAuthenticateStep(cfg, message, signin, result).result;
      SignInAndRedirect(cfg, message, signin, result, rememberMe) ==
        Effect(
          [ Call(PostAuthenticate(result)),
            Cookie(SignOut([PrimaryScheme])),
            Cookie(SignOut([ExternalScheme, PartialSignInScheme])),
            Cookie(ClearSignInMessage(signin)),
            Cookie(IssueSessionId(rememberMe)),
            Cookie(SignIn(SignInProperties(cfg.options, cfg.env.now, false, rememberMe), r.claims)) ],
          Redirect(message.returnUrl))
  {
  }

  /**
    A partial sign-in skips post-authentication and the identity-provider check,
    keeps the primary cookie and the sign-in message, and signs in with the
    result's claims plus the three partial-login claims, never persistently.
  */
  lemma PartialSignInSequence(cfg: Config, message: SignInMessage, signin: string, result: AuthenticateResult, rememberMe: Option<bool>)
    requires result.IsPartialSignIn()
    ensures var props := SignInProperties(cfg.options, cfg.env.now, true, rememberMe);
      SignInAndRedirect(cfg, message, signin, result, rememberMe) ==
        Effect(
          [ Cookie(SignOut([ExternalScheme, PartialSignInScheme])),
            Cookie(SignIn(props, result.claims + PartialLoginClaims(cfg.env, signin))) ],
          Redirect(RedirectUrl(cfg.env, message, result)))
    ensures !SignInProperties(cfg.options, cfg.env.now, true, rememberMe).isPersistent
  {
  }

  // ---------------------------------------------------------------------
  // Local login

  /** Every guard of LoginLocal in front of the user service passes. */
  predicate LocalLoginGuardsPass(cfg: Config, signin: string, model: Option<LoginCredentials>) {
    && cfg.options.enableLocalLogin
    && ValidateSignin(cfg, signin).Success?
    && IsLocalLoginAllowedForClient(cfg.clientStore.clients, Some(ValidateSignin(cfg, signin).value))
    && model.Some?
    && IsPresent(model.value.username) && IsPresent(model.value.password)
    && |model.value.username| <= cfg.options.maxUserNameLength
    && |model.value.password| <= cfg.options.maxPasswordLength
  }

  /**
    LoginLocal reaches AuthenticateLocalAsync exactly when every guard passes,
    and then first of all, with the trimmed user name and password.
  */
  lemma LocalLoginAuthenticatesIff(cfg: Config, signin: string, model: Option<LoginCredentials>)
    ensures CallsAuthenticateLocal(LoginLocal(cfg, signin, model).actions) <==> LocalLoginGuardsPass(cfg, signin, model)
    ensures LocalLoginGuardsPass(cfg, signin, model) ==>
      LoginLocal(cfg, signin, model).actions[0] == Call(AuthenticateLocal(Trim(model.value.username), Trim(model.value.password)))
  {
    hide Trim;
    var e := LoginLocal(cfg, signin, model);
    if LocalLoginGuardsPass(cfg, signin, model) {
      var m := model.value;
      LocalLoginPastGuards(cfg, signin, model);
      LocalAuthenticateStartsWithCall(cfg, ValidateSignin(cfg, signin).value, signin, m, cfg.options.calculateRememberMe(m.rememberMe));
      assert e.actions[0] in e.actions;
    } else {
      LocalLoginBeforeGuards(cfg, signin, model);
    }
  }

  /** AuthenticateLocalAsync is the first thing LocalAuthenticate does. */
  lemma LocalAuthenticateStartsWithCall(cfg: Config, message: SignInMessage, signin: string, m: LoginCredentials, rememberMe: Option<bool>)
    ensures var e := LocalAuthenticate(cfg, message, signin, m, rememberMe);
      |e.actions| > 0 && e.actions[0] == Call(AuthenticateLocal(Trim(m.username), Trim(m.password)))
  {
    hide LocalAnswer, Trim;
  }

  /** Until every guard has passed, LoginLocal raises events and at most sets the last-username cookie. */
  lemma LocalLoginBeforeGuards(cfg: Config, signin: string, model: Option<LoginCredentials>)
    requires !LocalLoginGuardsPass(cfg, signin, model)
    ensures forall a :: a in LoginLocal(cfg, signin, model).actions ==> a.Raise? || (a.Cookie? && a.op.SetLastUserName?)
  {
    hide RenderLoginPage, LoginExternal, LocalAuthenticate;
    var e := LoginLocal(cfg, signin, model);
    if cfg.options.enableLocalLogin && ValidateSignin(cfg, signin).Success? {
      var message := ValidateSignin(cfg, signin).value;
      if !IsLocalLoginAllowedForClient(cfg.clientStore.clients, Some(message)) {
      } else if model.None? {
        RenderLoginPageOnlyRaises(cfg, message, signin, Some(Localized(InvalidUsernameOrPassword)), "");
      } else {
        var m := model.value;
        if IsMissing(m.password) && IsPresent(m.externalProvider) {
          LoginExternalOnlyRaises(cfg, signin, m.externalProvider, m.username);
          assert e.actions == [Cookie(SetLastUserName(m.username))] + LoginExternal(cfg, signin, m.externalProvider, m.username).actions;
        } else if CredentialErrors(m.username, m.password) != [] {
          RenderLoginPageOnlyRaises(cfg, message, signin, Some(Localized(CredentialErrors(m.username, m.password)[0])), m.username);
        } else {
          RenderLoginPageOnlyRaises(cfg, message, signin, None, "");
        }
      }
    }
  }

  /** A null result from the user service: one failure event with InvalidUsernameOrPassword, and the login page again; no cookie. */
  lemma LocalLoginNullResult(cfg: Config, signin: string, model: Option<LoginCredentials>)
    requires LocalLoginGuardsPass(cfg, signin, model)
    requires var message := ValidateSignin(cfg, signin).value;
      cfg.userService.authenticateLocal(Trim(model.value.username), Trim(model.value.password), message).None?
    ensures var message := ValidateSignin(cfg, signin).value;
      var m := model.value;
      var error := Localized(InvalidUsernameOrPassword);
      LoginLocal(cfg, signin, model) ==
        Effect([Call(AuthenticateLocal(Trim(m.username), Trim(m.password))), Raise(LocalLoginFailure(m.username, signin, error))],
          LoginPage(signin, Some(error), UserNameForLoginPage(cfg.options, cfg.env.lastUserName, message, m.username).0))
  {
    hide RenderLoginPage, LocalResult, LoginLocal, Trim;
    var message, m := ValidateSignin(cfg, signin).value, model.value;
    LocalLoginPastGuards(cfg, signin, model);
    RenderLoginPageWithError(cfg, message, signin, Localized(InvalidUsernameOrPassword), m.username);
  }

  lemma NoCookieInPair(x: Action, y: Action)
    requires !x.Cookie? && !y.Cookie?
    ensures !TouchesCookies([x, y])
  {
    forall a | a in [x, y]
      ensures !a.Cookie?
    {
      assert a == x || a == y;
    }
  }

  /** An error result without a forced password change: the failure event, and the login page showing the result's message. */
  lemma LocalAnswerError(cfg: Config, message: SignInMessage, signin: string, m: LoginCredentials, rememberMe: Option<bool>, r: AuthenticateResult)
    requires !r.isForcePasswordChanged && r.IsError()
    ensures LocalAnswer(cfg, message, signin, m, rememberMe, Some(r)) ==
      Effect([Raise(LocalLoginFailure(m.username, signin, Text(r.errorMessage)))],
        LoginPage(signin, Some(Text(r.errorMessage)), UserNameForLoginPage(cfg.options, cfg.env.lastUserName, message, m.username).0))
  {
    hide SignInAndRedirect, RenderLoginPage;
    RenderLoginPageWithError(cfg, message, signin, Text(r.errorMessage), m.username);
  }

  /** An error result from the user service: its message is raised and shown on the login page; no cookie. */
  lemma LocalLoginErrorResult(cfg: Config, signin: string, model: Option<LoginCredentials>, r: AuthenticateResult)
    requires LocalLoginGuardsPass(cfg, signin, model)
    requires var message := ValidateSignin(cfg, signin).value;
      cfg.userService.authenticateLocal(Trim(model.value.username), Trim(model.value.password), message) == Some(r)
    requires !r.isForcePasswordChanged && r.IsError()
    ensures var message := ValidateSignin(cfg, signin).value;
      var m := model.value;
      LoginLocal(cfg, signin, model) ==
        Effect([Call(AuthenticateLocal(Trim(m.username), Trim(m.password))), Raise(LocalLoginFailure(m.username, signin, Text(r.errorMessage)))],
          LoginPage(signin, Some(Text(r.errorMessage)), UserNameForLoginPage(cfg.options, cfg.env.lastUserName, message, m.username).0))
    ensures !TouchesCookies(LoginLocal(cfg, signin, model).actions)
  {
    hide LocalAnswer, LoginLocal, Trim;
    var message, m := ValidateSignin(cfg, signin).value, model.value;
    var rememberMe := cfg.options.calculateRememberMe(m.rememberMe);
    var call := Call(AuthenticateLocal(Trim(m.username), Trim(m.password)));
    var failure := Raise(LocalLoginFailure(m.username, signin, Text(r.errorMessage)));
    LocalLoginPastGuards(cfg, signin, model);
    LocalAnswerError(cfg, message, signin, m, rememberMe, r);
    assert LoginLocal(cfg, signin, model).actions == [call, failure];
    NoCookieInPair(call, failure);
  }

  /** Every way LoginLocal can end before the user service is called leaves the sign-in cookie alone. */
  lemma LocalLoginSessionNeedsGuards(cfg: Config, signin: string, model: Option<LoginCredentials>)
    ensures !LocalLoginGuardsPass(cfg, signin, model) ==> !IssuesSession(LoginLocal(cfg, signin, model).actions)
  {
    if !LocalLoginGuardsPass(cfg, signin, model) {
      LocalLoginBeforeGuards(cfg, signin, model);
    }
  }

  /** Service calls before a trace do not issue a session. */
  lemma CallsIssueNoSession(pre: seq<Action>, rest: seq<Action>)
    requires forall a :: a in pre ==> a.Call?
    ensures IssuesSession(pre + rest) ==> IssuesSession(rest)
  {
    if IssuesSession(pre + rest) {
      var a :| a in pre + rest && a.Cookie? && a.op.SignIn?;
      assert a in rest;
    }
  }

  /** The end of LoginLocal issues a cookie only for a result that is not an error, after the success event and the last-username cookie. */
  lemma LocalResultSessionNeedsSuccess(cfg: Config, message: SignInMessage, signin: string, m: LoginCredentials, rememberMe: Option<bool>, r: AuthenticateResult)
    ensures var e := LocalResult(cfg, message, signin, m, rememberMe, r);
      IssuesSession(e.actions) ==>
        !r.IsError() && Raise(LocalLoginSuccess(m.username, signin)) in e.actions && Cookie(SetLastUserName(m.username)) in e.actions
  {
    hide RenderLoginPage, SignInAndRedirect;
    var e := LocalResult(cfg, message, signin, m, rememberMe, r);
    if r.IsError() {
      var page := RenderLoginPage(cfg, message, signin, Some(Text(r.errorMessage)), m.username);
      RenderLoginPageOnlyRaises(cfg, message, signin, Some(Text(r.errorMessage)), m.username);
      assert e.actions == [Raise(LocalLoginFailure(m.username, signin, Text(r.errorMessage)))] + page.actions;
    } else {
      assert e.actions[0] == Raise(LocalLoginSuccess(m.username, signin)) && e.actions[1] == Cookie(SetLastUserName(m.username));
    }
  }

  /** Whatever the user service answers, a session is issued only after the success event and the last-username cookie. */
  lemma LocalAnswerSessionNeedsSuccess(cfg: Config, message: SignInMessage, signin: string, m: LoginCredentials, rememberMe: Option<bool>, result: Option<AuthenticateResult>)
    ensures var e := LocalAnswer(cfg, message, signin, m, rememberMe, result);
      IssuesSession(e.actions) ==>
        Raise(LocalLoginSuccess(m.username, signin)) in e.actions && Cookie(SetLastUserName(m.username)) in e.actions
  {
    hide RenderLoginPage, LocalResult, Trim;
    var e := LocalAnswer(cfg, message, signin, m, rememberMe, result);
    match result
    case None =>
      var error := Localized(InvalidUsernameOrPassword);
      var page := RenderLoginPage(cfg, message, signin, Some(error), m.username);
      RenderLoginPageOnlyRaises(cfg, message, signin, Some(error), m.username);
      assert e.actions == [Raise(LocalLoginFailure(m.username, signin, error))] + page.actions;
    case Some(r) =>
      if r.isForcePasswordChanged {
        var username, password := Trim(m.username), Trim(m.password);
        var pre := [Call(HandlePasswordChangeForced(username, password))];
        match cfg.resetService.handlePasswordChangeForced(username, password, r)
        case None =>
          assert e.actions == pre;
        case Some(r') =>
          var rest := LocalResult(cfg, message, signin, m, rememberMe, r');
          assert e.actions == pre + rest.actions;
          CallsIssueNoSession(pre, rest.actions);
          LocalResultSessionNeedsSuccess(cfg, message, signin, m, rememberMe, r');
      } else {
        LocalResultSessionNeedsSuccess(cfg, message, signin, m, rememberMe, r);
      }
  }

  /** AuthenticateLocalAsync followed by a sign-in: only through a result that is not an error, after the success event. */
  lemma LocalAuthenticateSessionNeedsSuccess(cfg: Config, message: SignInMessage, signin: string, m: LoginCredentials, rememberMe: Option<bool>)
    ensures var e := LocalAuthenticate(cfg, message, signin, m, rememberMe);
      IssuesSession(e.actions) ==>
        Raise(LocalLoginSuccess(m.username, signin)) in e.actions && Cookie(SetLastUserName(m.username)) in e.actions
  {
    hide LocalAnswer, Trim;
    var username, password := Trim(m.username), Trim(m.password);
    var pre := [Call(AuthenticateLocal(username, password))];
    var rest := LocalAnswer(cfg, message, signin, m, rememberMe, cfg.userService.authenticateLocal(username, password, message));
    CallsIssueNoSession(pre, rest.actions);
    LocalAnswerSessionNeedsSuccess(cfg, message, signin, m, rememberMe, cfg.userService.authenticateLocal(username, password, message));
  }

  /** Once every guard passes, LoginLocal is AuthenticateLocalAsync on the submitted form. */
  lemma LocalLoginPastGuards(cfg: Config, signin: string, model: Option<LoginCredentials>)
    requires LocalLoginGuardsPass(cfg, signin, model)
    ensures LoginLocal(cfg, signin, model) ==
      LocalAuthenticate(cfg, ValidateSignin(cfg, signin).value, signin, model.value, cfg.options.calculateRememberMe(model.value.rememberMe))
  {
  }

  /**
    LoginLocal issues a sign-in cookie only after every guard has passed and the
    local-login success event has been raised, and it records the submitted
    user name in the last-username cookie first.
  */
  lemma LocalLoginSessionNeedsSuccess(cfg: Config, signin: string, model: Option<LoginCredentials>)
    requires IssuesSession(LoginLocal(cfg, signin, model).actions)
    ensures LocalLoginGuardsPass(cfg, signin, model)
    ensures Raise(LocalLoginSuccess(model.value.username, signin)) in LoginLocal(cfg, signin, model).actions
    ensures Cookie(SetLastUserName(model.value.username)) in LoginLocal(cfg, signin, model).actions
  {
    LocalLoginSessionNeedsGuards(cfg, signin, model);
    LocalLoginPastGuards(cfg, signin, model);
    LocalAuthenticateSessionNeedsSuccess(cfg, ValidateSignin(cfg, signin).value, signin, model.value, cfg.options.calculateRememberMe(model.value.rememberMe));
  }

  // ---------------------------------------------------------------------
  // External login callback

  /** An error from the provider is cut to the configured length, raised and shown; nothing else happens. */
  lemma ExternalErrorTruncated(cfg: Config, error: string)
    requires IsPresent(error)
    ensures var e := LoginExternalCallback(cfg, error);
      e.actions == [Raise(ExternalLoginError(e.outcome.message.detail))] && e.outcome.ErrorPage? && e.outcome.message.ExternalProviderError?
    ensures var shown := LoginExternalCallback(cfg, error).outcome.message.detail;
      |shown| <= cfg.options.maxExternalErrorLength && StartsWith(error, shown) &&
      (|error| <= cfg.options.maxExternalErrorLength ==> shown == error) &&
      (|error| > cfg.options.maxExternalErrorLength ==> shown == error[..cfg.options.maxExternalErrorLength])
  {
  }

  /** Without a usable sign-in id the callback answers as HandleNoSignin, having done nothing. */
  lemma ExternalCallbackWithoutSignin(cfg: Config)
    requires IsMissing(cfg.env.externalSignInId) || cfg.env.externalSignInId !in cfg.signInMessages
    ensures LoginExternalCallback(cfg, "") == Respond(HandleNoSignin(cfg.options, cfg.env))
  {
  }

  /** The user service is asked about an external identity only when the provider's cookie held one with a subject. */
  lemma ExternalCallbackAuthenticatesOnlyFound(cfg: Config, error: string)
    requires IsMissing(error) && IsPresent(cfg.env.externalSignInId) && cfg.env.externalSignInId in cfg.signInMessages
    ensures var e := LoginExternalCallback(cfg, error);
      (|e.actions| > 0 && e.actions[0].Call?) <==> cfg.env.externalUser.ExternalFound?
    ensures cfg.env.externalUser.ExternalFound? ==>
      LoginExternalCallback(cfg, error).actions[0] == Call(AuthenticateExternal(cfg.env.externalUser.identity))
  {
    var signin := cfg.env.externalSignInId;
    var message := cfg.signInMessages[signin];
    if !cfg.env.externalUser.ExternalFound? {
      RenderLoginPageOnlyRaises(cfg, message, signin, Some(Localized(NoMatchingExternalAccount)), "");
      var e := LoginExternalCallback(cfg, error);
      if |e.actions| > 0 {
        assert e.actions[0] in e.actions;
      }
    }
  }

  // ---------------------------------------------------------------------
  // Partial-login resumption

  /** The resume id, the partial identity, its resume claim and the sign-in message it names are all there. */
  predicate ResumeFindsSignIn(cfg: Config, identity: Option<seq<Claim>>, resume: string) {
    && IsPresent(resume) && |resume| <= MaxSignInMessageLength
    && identity.Some?
    && FindFirst(identity.value, PartialLoginResumeId(resume)).Some?
    && var signin := FindFirst(identity.value, PartialLoginResumeId(resume)).value.value;
       IsPresent(signin) && signin in cfg.signInMessages
  }

  /**
    Without a sign-in found through the resume claim the request fails with the
    error page and leaves the partial identity alone; with one, the identity
    loses exactly its transient claims.
  */
  lemma ResumeIdentityChange(cfg: Config, identity: Option<seq<Claim>>, resume: string)
    ensures !ResumeFindsSignIn(cfg, identity, resume) ==>
      ResumeLoginFromRedirect(cfg, identity, resume) == Resumption(Respond(GenericError), identity)
    ensures ResumeFindsSignIn(cfg, identity, resume) ==>
      var after := ResumeLoginFromRedirect(cfg, identity, resume).identity;
      after == Some(CleanupPartialClaims(identity.value, resume)) &&
      Retained(after.value, resume) == Retained(identity.value, resume) &&
      CountOf(after.value, PartialLoginResumeId(resume)) == CountOf(identity.value, PartialLoginResumeId(resume)) - 1
  {
    if ResumeFindsSignIn(cfg, identity, resume) {
      CleanupRetainsOtherClaims(identity.value, resume);
      CleanupCounts(identity.value, resume, PartialLoginResumeId(resume));
    }
  }

  /** A partial login goes back through the user service's external authentication exactly when it carried an external-provider claim. */
  lemma ResumeExternalBranchIff(cfg: Config, identity: Option<seq<Claim>>, resume: string)
    requires ResumeFindsSignIn(cfg, identity, resume)
    ensures var e := ResumeLoginFromRedirect(cfg, identity, resume).effect;
      (|e.actions| > 0 && e.actions[0].Call?) <==> HasClaim(identity.value, ExternalProviderUserId)
    ensures HasClaim(identity.value, ExternalProviderUserId) ==>
      var c := FindFirst(identity.value, ExternalProviderUserId).value;
      ResumeLoginFromRedirect(cfg, identity, resume).effect.actions[0] ==
        Call(AuthenticateExternal(ExternalIdentity(c.issuer, c.value, CleanupPartialClaims(identity.value, resume))))
  {
    hide SignInAndRedirect, RenderLoginPage;
  }

  /**
    A partial login without an external-provider claim signs in only with an
    identity that still has every claim type of an authentication result, and
    only after raising the partial-login-complete event.
  */
  lemma ResumeDirectNeedsAllClaims(cfg: Config, identity: Option<seq<Claim>>, resume: string)
    requires ResumeFindsSignIn(cfg, identity, resume)
    requires !HasClaim(identity.value, ExternalProviderUserId)
    requires IssuesSession(ResumeLoginFromRedirect(cfg, identity, resume).effect.actions)
    ensures HasAllResultClaimTypes(CleanupPartialClaims(identity.value, resume))
    ensures var signin := FindFirst(identity.value, PartialLoginResumeId(resume)).value.value;
      ResumeLoginFromRedirect(cfg, identity, resume).effect.actions[0] == Raise(PartialLoginComplete(signin))
  {
  }

  // ---------------------------------------------------------------------
  // Logout

  /** Logout clears the sign-out message, the authentication cookies, the external sign-in and the last user name, then signs out of the user service; the logout event is raised only for an authenticated user. */
  lemma LogoutClearsSession(cfg: Config, id: string)
    requires |id| <= MaxSignInMessageLength
    ensures var e := Logout(cfg, id);
      e.outcome == LoggedOutPage(id) &&
      e.actions[..5] == [ Cookie(ClearSignOutMessage(id)), Cookie(ClearAuthenticationCookies), Cookie(SignOutOfExternalIdP(id)),
                          Cookie(SetLastUserName("")), Call(UserSignOut(SignOutClientId(cfg, id))) ] &&
      (Raise(LogoutEvent(id)) in e.actions <==> cfg.env.userAuthenticated)
  {
  }

  /** The prompt is shown exactly as LogoutPromptChoice decides; otherwise the request is a logout (or, for an over-long id, the error page). */
  lemma LogoutPromptIsLogoutOrPrompt(cfg: Config, id: string)
    ensures LogoutPrompt(cfg, id).outcome == LogoutPromptPage(id) <==> LogoutPromptChoice(cfg, id) == ShowPrompt
    ensures |id| > MaxSignInMessageLength ==> LogoutPrompt(cfg, id) == Logout(cfg, id) == Respond(GenericError)
    ensures |id| <= MaxSignInMessageLength && LogoutPromptChoice(cfg, id) != ShowPrompt ==> LogoutPrompt(cfg, id) == Logout(cfg, id)
    ensures !cfg.env.userAuthenticated ==> LogoutPrompt(cfg, id) == Logout(cfg, id)
  {
  }

  // ---------------------------------------------------------------------
  // Password reset

  /** The endpoints that lead to a local login refuse outright when local login is disabled. */
  lemma LocalEndpointsRefuseWhenDisabled(cfg: Config, signin: string, token: string, login: Option<LoginCredentials>, reset: Option<ResetCredentials>)
    requires !cfg.options.enableLocalLogin
    ensures LoginLocal(cfg, signin, login) == Respond(MethodNotAllowed)
    ensures Reset(cfg, signin, login) == Respond(MethodNotAllowed)
    ensures ResetCallback(cfg, token, reset, signin) == Respond(MethodNotAllowed)
  {
  }

  /** Reset redirects to the verify page only on a successful result, carrying the service's user name, which is also remembered. */
  lemma ResetRedirectsOnlyOnSuccess(cfg: Config, signin: string, model: Option<LoginCredentials>)
    requires Reset(cfg, signin, model).outcome.RedirectToResetVerify?
    ensures cfg.options.enableLocalLogin && ValidateSignin(cfg, signin).Success? && model.Some?
    ensures var reply := cfg.resetService.resetPassword(model.value.username, ValidateSignin(cfg, signin).value);
      reply.result.Some? && !reply.result.value.isError &&
      Reset(cfg, signin, model).outcome == RedirectToResetVerify(signin, reply.userName) &&
      Cookie(SetLastUserName(reply.userName)) in Reset(cfg, signin, model).actions
  {
    var e := Reset(cfg, signin, model);
    var reply := cfg.resetService.resetPassword(model.value.username, ValidateSignin(cfg, signin).value);
    assert e.actions[1] == Cookie(SetLastUserName(reply.userName));
  }

  /** ResetVerify redirects to the callback only with a non-empty token from a successful result, for a password of at most six characters. */
  lemma ResetVerifyRedirectNeedsToken(cfg: Config, signin: string, model: Option<LoginCredentials>)
    requires ResetVerify(cfg, signin, model).outcome.RedirectToResetCallback?
    ensures ValidateSignin(cfg, signin).Success? && model.Some?
    ensures |model.value.password| <= ResetVerifyMaxPasswordLength
    ensures var r := cfg.resetService.resetPasswordVerify(Trim(model.value.username), Trim(model.value.password), ValidateSignin(cfg, signin).value);
      r.Some? && !r.value.base.isError && !TokenMissing(r.value) &&
      ResetVerify(cfg, signin, model).outcome == RedirectToResetCallback(r.value.token.value, signin)
  {
  }

  /**
    After the reset service accepts the new password and names the user, the
    callback logs that user in with the new password, exactly as a submitted
    login form would.
  */
  lemma ResetCallbackLogsIn(cfg: Config, token: string, model: ResetCredentials, signin: string)
    requires cfg.options.enableLocalLogin && IsPresent(token) && ValidateSignin(cfg, signin).Success?
    requires var reply := cfg.resetService.resetPasswordCallback(token, model.password, model.confirmedPassword);
      reply.result.Some? && !reply.result.value.isError && reply.userName != ""
    ensures var reply := cfg.resetService.resetPasswordCallback(token, model.password, model.confirmedPassword);
      ResetCallback(cfg, token, Some(model), signin) ==
        Then([Call(ResetPasswordCallback(token, model.password, model.confirmedPassword)), Raise(ResetPasswordCallbackSuccess)],
          LoginLocal(cfg, signin, Some(LoginCredentials(reply.userName, model.password, "", None))))
  {
  }

  /** The callback never signs anyone in when the reset service fails or names no user. */
  lemma ResetCallbackFailureIssuesNothing(cfg: Config, token: string, model: ResetCredentials, signin: string)
    requires var reply := cfg.resetService.resetPasswordCallback(token, model.password, model.confirmedPassword);
      reply.result.None? || reply.result.value.isError || reply.userName == ""
    ensures !TouchesCookies(ResetCallback(cfg, token, Some(model), signin).actions)
    ensures ResetCallback(cfg, token, Some(model), signin).outcome.ResetPasswordCallbackPage? ||
      ResetCallback(cfg, token, Some(model), signin).outcome.ErrorPage? ||
      ResetCallback(cfg, token, Some(model), signin).outcome.Redirect? ||
      ResetCallback(cfg, token, Some(model), signin).outcome == MethodNotAllowed
  {
  }
}
