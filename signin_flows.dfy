/**
  What each endpoint of AuthenticationController does, as a function of the
  request and of everything fixed for the request (the Config): the ordered
  trace of cookie operations, raised events and service calls, and the
  answer. The private helpers the endpoints share (RenderLoginPage,
  PostAuthenticateAsync, SignInAndRedirectAsync) are functions of their own,
  so that an endpoint's specification reads like its code.
*/
module SignInFlows {
  import opened Common
  import opened Strings
  import opened ResetResults
  import opened SignInModel
  import opened SignInDecisions

  // ---------------------------------------------------------------------
  // Shared helpers

  /** LoginExternal: checks the provider and the sign-in id, then challenges the provider. */
  function LoginExternal(cfg: Config, signin: string, provider: string, loginHint: string): Effect {
    if IsMissing(provider) then Respond(ErrorPage(Localized(NoExternalProvider)))
    else if |provider| > cfg.options.maxIdentityProviderLength then Respond(GenericError)
    else match ValidateSignin(cfg, signin)
      case Failure(answer) => Respond(answer)
      case Success(message) =>
        if !cfg.clientStore.isValidIdentityProvider(message.clientId, provider) then
          Effect([Raise(AuthenticateEndpointFailure(ProviderNotAllowed(provider, message.clientId)))], GenericError)
        else if provider !in cfg.env.configuredProviders then
          Effect([Raise(AuthenticateEndpointFailure(ProviderNotConfigured(provider)))], GenericError)
        else
          Respond(Challenge(provider, ChallengeProperties(cfg.env.callbackUrl, signin, provider, if loginHint == "" then None else Some(loginHint))))
  }

  /** Whether local login is offered for this sign-in at all: the server and the client both allow it. */
  function LocalLoginOffered(cfg: Config, message: SignInMessage): bool {
    IsLocalLoginAllowedForClient(cfg.clientStore.clients, Some(message)) && cfg.options.enableLocalLogin
  }

  /** RenderLoginPage: the login page, or a provider tried in its place. */
  function RenderLoginPage(cfg: Config, message: SignInMessage, signin: string, error: Option<Message>, username: string): Effect {
    var shown := UserNameForLoginPage(cfg.options, cfg.env.lastUserName, message, username);
    var links := cfg.env.providerLinks(message.clientId);
    if TriesExternalProvider(LocalLoginOffered(cfg, message), links, message.loginForced, shown.1, error) then
      match ChooseProvider(links)
      case NoProviders => Respond(GenericError)
      case UseProvider(providerType) => LoginExternal(cfg, signin, providerType, shown.0)
      case ShowLoginPage => Respond(LoginPage(signin, error, shown.0))
    else Respond(LoginPage(signin, error, shown.0))
  }

  /** What PostAuthenticateAsync leaves: an answer that ends the request, or the result to sign in with. */
  datatype PostAuthentication = Stop(effect: Effect) | Continue(actions: seq<Action>, result: AuthenticateResult)

  /** PostAuthenticateAsync: only a full sign-in is shown to the user service. */
  function PostAuthenticateStep(cfg: Config, message: SignInMessage, signin: string, result: AuthenticateResult): PostAuthentication {
    if result.IsPartialSignIn() then Continue([], result)
    else
      var pre := [Call(PostAuthenticate(result))];
      var reply := cfg.userService.postAuthenticate(message, result);
      match reply.result
      case None => Stop(Effect(pre, GenericError))
      case Some(r) =>
        if r.IsError() then
          Stop(Then(pre,
            if reply.showLoginPageOnErrorResult then RenderLoginPage(cfg, message, signin, Some(Text(r.errorMessage)), "")
            else Respond(ErrorPage(Text(r.errorMessage)))))
        else Continue(pre, r)
  }

  /** The cookie work of a sign-in: clear the old cookies, then issue the new one. */
  function SessionActions(cfg: Config, signin: string, result: AuthenticateResult, rememberMe: Option<bool>): seq<Action> {
    ClearCookieActions(result) + IssueCookieActions(cfg, signin, result, rememberMe)
  }

  /** SignInAndRedirectAsync */
  function SignInAndRedirect(cfg: Config, message: SignInMessage, signin: string, result: AuthenticateResult, rememberMe: Option<bool>): Effect {
    match PostAuthenticateStep(cfg, message, signin, result)
    case Stop(e) => e
    case Continue(pre, r) =>
      if IdPMismatch(message, r) then Effect(pre, GenericError)
      else Effect(pre + SessionActions(cfg, signin, r, rememberMe), Redirect(RedirectUrl(cfg.env, message, r)))
  }

  /** The external-identity authentication shared by the provider callback and partial-login resumption. */
  function ExternalAuthenticate(cfg: Config, message: SignInMessage, signin: string, identity: ExternalIdentity, rememberMe: Option<bool>): Effect {
    var pre := [Call(AuthenticateExternal(identity))];
    match cfg.userService.authenticateExternal(identity, message)
    case None =>
      var error := Localized(NoMatchingExternalAccount);
      Then(pre + [Raise(ExternalLoginFailure(identity.provider, identity.providerId, signin, error))],
        RenderLoginPage(cfg, message, signin, Some(error), ""))
    case Some(r) =>
      if r.IsError() then
        Then(pre + [Raise(ExternalLoginFailure(identity.provider, identity.providerId, signin, Text(r.errorMessage)))],
          RenderLoginPage(cfg, message, signin, Some(Text(r.errorMessage)), ""))
      else
        Then(pre + [Raise(ExternalLoginSuccess(identity.provider, identity.providerId, signin))],
          SignInAndRedirect(cfg, message, signin, r, rememberMe))
  }

  // ---------------------------------------------------------------------
  // Local login

  /** LoginLocal (POST of the login page). */
  function LoginLocal(cfg: Config, signin: string, model: Option<LoginCredentials>): Effect {
    if !cfg.options.enableLocalLogin then Respond(MethodNotAllowed)
    else match ValidateSignin(cfg, signin)
      case Failure(answer) => Respond(answer)
      case Success(message) =>
        if !IsLocalLoginAllowedForClient(cfg.clientStore.clients, Some(message)) then Respond(GenericError)
        else if model.None? then RenderLoginPage(cfg, message, signin, Some(Localized(InvalidUsernameOrPassword)), "")
        else LocalCredentials(cfg, message, signin, model.value)
  }

  /** The submitted form: the external-provider button, field validation, length limits. */
  function LocalCredentials(cfg: Config, message: SignInMessage, signin: string, m: LoginCredentials): Effect {
    if IsMissing(m.password) && IsPresent(m.externalProvider) then
      Then([Cookie(SetLastUserName(m.username))], LoginExternal(cfg, signin, m.externalProvider, m.username))
    else
      var rememberMe := cfg.options.calculateRememberMe(m.rememberMe);
      var errors := CredentialErrors(m.username, m.password);
      if errors != [] then RenderLoginPage(cfg, message, signin, Some(Localized(errors[0])), m.username)
      else if |m.username| > cfg.options.maxUserNameLength || |m.password| > cfg.options.maxPasswordLength then
        RenderLoginPage(cfg, message, signin, None, "")
      else LocalAuthenticate(cfg, message, signin, m, rememberMe)
  }

  /** AuthenticateLocalAsync with the trimmed credentials, then what its answer calls for. */
  function LocalAuthenticate(cfg: Config, message: SignInMessage, signin: string, m: LoginCredentials, rememberMe: Option<bool>): Effect {
    var username, password := Trim(m.username), Trim(m.password);
    Then([Call(AuthenticateLocal(username, password))],
      LocalAnswer(cfg, message, signin, m, rememberMe, cfg.userService.authenticateLocal(username, password, message)))
  }

  /** The user service's answer to AuthenticateLocalAsync: none, a forced password change, or a result. */
  function LocalAnswer(cfg: Config, message: SignInMessage, signin: string, m: LoginCredentials, rememberMe: Option<bool>, result: Option<AuthenticateResult>): Effect {
    match result
    case None =>
      var error := Localized(InvalidUsernameOrPassword);
      Then([Raise(LocalLoginFailure(m.username, signin, error))], RenderLoginPage(cfg, message, signin, Some(error), m.username))
    case Some(r) =>
      if r.isForcePasswordChanged then
        var username, password := Trim(m.username), Trim(m.password);
        Then([Call(HandlePasswordChangeForced(username, password))],
          match cfg.resetService.handlePasswordChangeForced(username, password, r)
          case None => Respond(GenericError)
          case Some(r') => LocalResult(cfg, message, signin, m, rememberMe, r'))
      else LocalResult(cfg, message, signin, m, rememberMe, r)
  }

  /** The end of LoginLocal: an error result re-renders the page; any other result signs in. */
  function LocalResult(cfg: Config, message: SignInMessage, signin: string, m: LoginCredentials, rememberMe: Option<bool>, r: AuthenticateResult): Effect {
    if r.IsError() then
      Then([Raise(LocalLoginFailure(m.username, signin, Text(r.errorMessage)))],
        RenderLoginPage(cfg, message, signin, Some(Text(r.errorMessage)), m.username))
    else
      Then([Raise(LocalLoginSuccess(m.username, signin)), Cookie(SetLastUserName(m.username))],
        SignInAndRedirect(cfg, message, signin, r, rememberMe))
  }

  // ---------------------------------------------------------------------
  // External login

  /** LoginExternalCallback: the external provider's answer. */
  function LoginExternalCallback(cfg: Config, error: string): Effect {
    if IsPresent(error) then
      var shown := Truncate(error, cfg.options.maxExternalErrorLength);
      Effect([Raise(ExternalLoginError(shown))], ErrorPage(ExternalProviderError(shown)))
    else
      var signin := cfg.env.externalSignInId;
      if IsMissing(signin) || signin !in cfg.signInMessages then Respond(HandleNoSignin(cfg.options, cfg.env))
      else
        var message := cfg.signInMessages[signin];
        match cfg.env.externalUser
        case NoExternalIdentity => RenderLoginPage(cfg, message, signin, Some(Localized(NoMatchingExternalAccount)), "")
        case NoSubjectClaim => RenderLoginPage(cfg, message, signin, Some(Localized(NoMatchingExternalAccount)), "")
        case ExternalFound(identity) => ExternalAuthenticate(cfg, message, signin, identity, None)
  }

  // ---------------------------------------------------------------------
  // Partial-login resumption

  /** The answer of ResumeLoginFromRedirect and the partial identity's claims afterwards. */
  datatype Resumption = Resumption(effect: Effect, identity: Option<seq<Claim>>)

  /** ResumeLoginFromRedirect: finds the sign-in through the resume claim, strips the transient claims, and signs in. */
  function ResumeLoginFromRedirect(cfg: Config, identity: Option<seq<Claim>>, resume: string): Resumption {
    if IsMissing(resume) || |resume| > MaxSignInMessageLength || identity.None? then Resumption(Respond(GenericError), identity)
    else
      var claims := identity.value;
      match FindFirst(claims, PartialLoginResumeId(resume))
      case None => Resumption(Respond(GenericError), identity)
      case Some(resumeClaim) =>
        var signin := resumeClaim.value;
        if IsMissing(signin) || signin !in cfg.signInMessages then Resumption(Respond(GenericError), identity)
        else
          var cleaned := CleanupPartialClaims(claims, resume);
          Resumption(
            ResumeWith(cfg, cfg.signInMessages[signin], signin, FindFirst(claims, ExternalProviderUserId), cleaned),
            Some(cleaned))
  }

  /** The two ways back from a partial login: through the external provider claim, or directly. */
  function ResumeWith(cfg: Config, message: SignInMessage, signin: string, externalClaim: Option<Claim>, cleaned: seq<Claim>): Effect {
    match externalClaim
    case Some(c) =>
      ExternalAuthenticate(cfg, message, signin, ExternalIdentity(c.issuer, c.value, cleaned), ParseRememberMe(cfg.env.partialRememberMeEntry))
    case None =>
      if !HasAllResultClaimTypes(cleaned) then Respond(GenericError)
      else
        Then([Raise(PartialLoginComplete(signin))],
          SignInAndRedirect(cfg, message, signin, FullResult(cleaned), ParseRememberMe(cfg.env.partialRememberMeEntry)))
  }

  // ---------------------------------------------------------------------
  // Logout

  /** The client id handed to the user service's sign-out: the sign-out request's, when there is one. */
  function SignOutClientId(cfg: Config, id: string): Option<string> {
    match ReadSignOutMessage(cfg, id)
    case Some(m) => if m.clientId == "" then None else Some(m.clientId)
    case None => None
  }

  /** Logout (POST) */
  function Logout(cfg: Config, id: string): Effect {
    if |id| > MaxSignInMessageLength then Respond(GenericError)
    else
      Effect(
        [ Cookie(ClearSignOutMessage(id)), Cookie(ClearAuthenticationCookies), Cookie(SignOutOfExternalIdP(id)),
          Cookie(SetLastUserName("")), Call(UserSignOut(SignOutClientId(cfg, id))) ] +
        (if cfg.env.userAuthenticated then [Raise(LogoutEvent(id))] else []),
        LoggedOutPage(id))
  }

  /** LogoutPrompt (GET) */
  function LogoutPrompt(cfg: Config, id: string): Effect {
    match LogoutPromptChoice(cfg, id)
    case RejectLongId => Respond(GenericError)
    case PerformLogout => Logout(cfg, id)
    case ShowPrompt => Respond(LogoutPromptPage(id))
  }

  // ---------------------------------------------------------------------
  // Password reset

  /** RenderResetPasswordPage: the user name shown is chosen as on the login page. */
  function ResetPage(cfg: Config, message: SignInMessage, signin: string, error: Option<Message>, username: string): Outcome {
    ResetPasswordPage(signin, error, UserNameForLoginPage(cfg.options, cfg.env.lastUserName, message, username).0)
  }

  /** RenderResetPasswordVerifyPage */
  function ResetVerifyPage(cfg: Config, message: SignInMessage, signin: string, error: Option<Message>, username: string): Outcome {
    ResetPasswordVerifyPage(signin, error, UserNameForLoginPage(cfg.options, cfg.env.lastUserName, message, username).0)
  }

  /** Reset (POST): asks the reset service to start a reset for a user name. */
  function Reset(cfg: Config, signin: string, model: Option<LoginCredentials>): Effect {
    if !cfg.options.enableLocalLogin then Respond(MethodNotAllowed)
    else match ValidateSignin(cfg, signin)
      case Failure(answer) => Respond(answer)
      case Success(message) =>
        if !IsLocalLoginAllowedForClient(cfg.clientStore.clients, Some(message)) then Respond(GenericError)
        else if model.None? then Respond(ResetPage(cfg, message, signin, Some(Localized(InvalidUsernameOrPassword)), ""))
        else
          var username := model.value.username;
          if IsMissing(username) then Respond(ResetPage(cfg, message, signin, Some(Localized(UsernameRequired)), username))
          else if |username| > cfg.options.maxUserNameLength then Respond(ResetPage(cfg, message, signin, None, ""))
          else
            var pre := [Call(ResetPassword(username))];
            var reply := cfg.resetService.resetPassword(username, message);
            match reply.result
            case None =>
              var error := Localized(InvalidUsernameOrPassword);
              Effect(pre + [Raise(ResetPasswordFailure(username, signin, error))], ResetPage(cfg, message, signin, Some(error), username))
            case Some(r) =>
              if r.isError then
                var error := Text(MessageText(r));
                Effect(pre + [Raise(ResetPasswordFailure(username, signin, error))], ResetPage(cfg, message, signin, Some(error), username))
              else
                Effect(pre + [Cookie(SetLastUserName(reply.userName)), Raise(ResetPasswordSuccess(reply.userName, signin))],
                  RedirectToResetVerify(signin, reply.userName))
  }

  /** The largest password the verify form accepts. */
  const ResetVerifyMaxPasswordLength: nat := 6

  /** ResetVerify (POST): checks the user's credentials and obtains a reset token. */
  function ResetVerify(cfg: Config, signin: string, model: Option<LoginCredentials>): Effect {
    match ValidateSignin(cfg, signin)
    case Failure(answer) => Respond(answer)
    case Success(message) =>
      if !IsLocalLoginAllowedForClient(cfg.clientStore.clients, Some(message)) then Respond(GenericError)
      else if model.None? then Respond(ResetVerifyPage(cfg, message, signin, Some(Localized(InvalidUsernameOrPassword)), ""))
      else
        var m := model.value;
        var errors := CredentialErrors(m.username, m.password);
        if errors != [] then Respond(ResetVerifyPage(cfg, message, signin, Some(Localized(errors[0])), m.username))
        else if |m.username| > cfg.options.maxUserNameLength || |m.password| > ResetVerifyMaxPasswordLength then
          Respond(ResetVerifyPage(cfg, message, signin, None, ""))
        else ResetVerifyWithService(cfg, message, signin, m)
  }

  /** The part of ResetVerify from ResetPasswordVerifyAsync on. */
  function ResetVerifyWithService(cfg: Config, message: SignInMessage, signin: string, m: LoginCredentials): Effect {
    var username, password := Trim(m.username), Trim(m.password);
    var pre := [Call(ResetPasswordVerify(username, password))];
    match cfg.resetService.resetPasswordVerify(username, password, message)
    case None =>
      var error := Localized(InvalidUsernameOrPassword);
      Effect(pre + [Raise(LocalLoginFailure(m.username, signin, error))], ResetVerifyPage(cfg, message, signin, Some(error), m.username))
    case Some(r) =>
      if r.base.isError then
        var error := Text(MessageText(r.base));
        Effect(pre + [Raise(ResetPasswordVerifyFailure(m.username, signin, error))], ResetVerifyPage(cfg, message, signin, Some(error), m.username))
      else if TokenMissing(r) then Effect(pre, GenericError)
      else
        Effect(pre + [Raise(ResetPasswordVerifySuccess(m.username, signin))], RedirectToResetCallback(r.token.value, signin))
  }

  /** ResetCallback (POST): sets the new password, then logs the user in with it. */
  function ResetCallback(cfg: Config, token: string, model: Option<ResetCredentials>, signin: string): Effect {
    if !cfg.options.enableLocalLogin then Respond(MethodNotAllowed)
    else if IsMissing(token) then Respond(GenericError)
    else match ValidateSignin(cfg, signin)
      case Failure(answer) => Respond(answer)
      case Success(_) =>
        if model.None? then Respond(ResetPasswordCallbackPage(token, Some(Localized(MissingToken)), signin))
        else ResetCallbackWithService(cfg, token, model.value, signin)
  }

  /** The part of ResetCallback from ResetPasswordAsync on. */
  function ResetCallbackWithService(cfg: Config, token: string, m: ResetCredentials, signin: string): Effect {
    var pre := [Call(ResetPasswordCallback(token, m.password, m.confirmedPassword))];
    var reply := cfg.resetService.resetPasswordCallback(token, m.password, m.confirmedPassword);
    var failure :=
      if reply.result.None? then Some(Text("No result provided"))
      else if reply.result.value.isError then Some(Text(MessageText(reply.result.value)))
      else if reply.userName == "" then Some(Text("No username provided"))
      else None;
    if failure.Some? then
      Effect(pre + [Raise(ResetPasswordCallbackFailure(failure.value))], ResetPasswordCallbackPage(token, failure, signin))
    else
      Then(pre + [Raise(ResetPasswordCallbackSuccess)],
        LoginLocal(cfg, signin, Some(LoginCredentials(reply.userName, m.password, "", None))))
  }
}
