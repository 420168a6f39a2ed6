/**
  AuthenticationController as an object. One instance serves one request: the
  collaborators and the request's cookies are fixed (cfg), the partial-login
  identity is the one the request carries, and `log` is the response's trace
  of cookie operations, raised events and service calls, to which each step
  appends as the source's statements run. Each endpoint is proved to produce
  exactly the trace and answer its specification in SignInFlows gives.
*/
module AuthenticationEndpoint {
  import opened Common
  import opened Strings
  import opened ResetResults
  import opened SignInModel
  import opened SignInDecisions
  import Flows = SignInFlows

  class AuthenticationController {
    const cfg: Config
    /** The claims of the partial sign-in identity, when the request carries one. */
    var partialIdentity: Option<seq<Claim>>
    /** What the request has done so far, in order. */
    var log: seq<Action>

    constructor(cfg: Config, partialIdentity: Option<seq<Claim>>)
      ensures this.cfg == cfg && this.partialIdentity == partialIdentity && log == []
    {
      this.cfg := cfg;
      this.partialIdentity := partialIdentity;
      log := [];
    }

    method Emit(a: Action)
      modifies this`log
      ensures log == old(log) + [a]
    {
      log := log + [a];
    }

    // -------------------------------------------------------------------
    // Private helpers

    /** GET LoginExternal: challenge an external provider. */
    method LoginExternal(signin: string, provider: string, loginHint: string) returns (outcome: Outcome)
      modifies this`log
      ensures log == old(log) + Flows.LoginExternal(cfg, signin, provider, loginHint).actions
      ensures outcome == Flows.LoginExternal(cfg, signin, provider, loginHint).outcome
    {
      if IsMissing(provider) {
        return ErrorPage(Localized(NoExternalProvider));
      }
      if |provider| > cfg.options.maxIdentityProviderLength {
        return GenericError;
      }
      var validated := ValidateSignin(cfg, signin);
      if validated.Failure? {
        return validated.error;
      }
      var message := validated.value;
      if !cfg.clientStore.isValidIdentityProvider(message.clientId, provider) {
        Emit(Raise(AuthenticateEndpointFailure(ProviderNotAllowed(provider, message.clientId))));
        return GenericError;
      }
      if provider !in cfg.env.configuredProviders {
        Emit(Raise(AuthenticateEndpointFailure(ProviderNotConfigured(provider))));
        return GenericError;
      }
      var hint := None;
      if loginHint != "" {
        hint := Some(loginHint);
      }
      return Challenge(provider, ChallengeProperties(cfg.env.callbackUrl, signin, provider, hint));
    }

    /** RenderLoginPage */
    method RenderLoginPage(message: SignInMessage, signin: string, error: Option<Message>, username: string) returns (outcome: Outcome)
      modifies this`log
      ensures log == old(log) + Flows.RenderLoginPage(cfg, message, signin, error, username).actions
      ensures outcome == Flows.RenderLoginPage(cfg, message, signin, error, username).outcome
    {
      hide Flows.LoginExternal;
      var shown := UserNameForLoginPage(cfg.options, cfg.env.lastUserName, message, username);
      var name, fromCookie := shown.0, shown.1;
      var allowedForClient := IsLocalLoginAllowedForClient(cfg.clientStore.clients, Some(message));
      var allowed := allowedForClient && cfg.options.enableLocalLogin;
      var links := cfg.env.providerLinks(message.clientId);
      if error.None? &&
         (!allowed || (|links| > 0 && (message.loginForced == Forced || message.loginForced == ForcedHidden || fromCookie)))
      {
        var providerType := "";
        if |links| == 0 {
          return GenericError;
        } else if |links| == 1 {
          providerType := links[0].providerType;
        } else {
          var visible := VisibleLinks(links);
          if |visible| == 1 {
            providerType := visible[0].providerType;
          }
        }
        if IsPresent(providerType) {
          outcome := LoginExternal(signin, providerType, name);
          return;
        }
      }
      return LoginPage(signin, error, name);
    }

    /** PostAuthenticateAsync: an answer that ends the request, or the result to sign in with. */
    method PostAuthenticate(message: SignInMessage, signin: string, result: AuthenticateResult) returns (answer: Option<Outcome>, next: AuthenticateResult)
      modifies this`log
      ensures match Flows.PostAuthenticateStep(cfg, message, signin, result)
        case Stop(e) => answer == Some(e.outcome) && log == old(log) + e.actions
        case Continue(pre, r) => answer.None? && next == r && log == old(log) + pre
    {
      hide Flows.RenderLoginPage;
      next := result;
      answer := None;
      if !result.IsPartialSignIn() {
        Emit(Call(SignInModel.PostAuthenticate(result)));
        var reply := cfg.userService.postAuthenticate(message, result);
        if reply.result.None? {
          answer := Some(GenericError);
          return;
        }
        var r := reply.result.value;
        if r.IsError() {
          if reply.showLoginPageOnErrorResult {
            var page := RenderLoginPage(message, signin, Some(Text(r.errorMessage)), "");
            answer := Some(page);
          } else {
            answer := Some(ErrorPage(Text(r.errorMessage)));
          }
          return;
        }
        next := r;
      }
    }

    /** ClearAuthenticationCookiesForNewSignIn */
    method ClearAuthenticationCookiesForNewSignIn(result: AuthenticateResult)
      modifies this`log
      ensures log == old(log) + ClearCookieActions(result)
    {
      if !result.IsPartialSignIn() {
        Emit(Cookie(SignOut([PrimaryScheme])));
      }
      Emit(Cookie(SignOut([ExternalScheme, PartialSignInScheme])));
    }

    /** IssueAuthenticationCookie */
    method IssueAuthenticationCookie(signin: string, result: AuthenticateResult, rememberMe: Option<bool>)
      modifies this`log
      ensures log == old(log) + IssueCookieActions(cfg, signin, result, rememberMe)
    {
      var claims := result.claims;
      if result.IsPartialSignIn() {
        var resumeId := cfg.env.freshId;
        claims := claims + [Claim(PartialLoginReturnUrl, cfg.env.resumeUrl(resumeId), LocalAuthority)];
        claims := claims + [Claim(PartialLoginResumeId(resumeId), signin, LocalAuthority)];
        claims := claims + [Claim(PartialLoginRestartUrl, cfg.env.restartUrl(signin), LocalAuthority)];
      } else {
        Emit(Cookie(ClearSignInMessage(signin)));
        Emit(Cookie(IssueSessionId(rememberMe)));
      }
      var props := AuthProperties(false, None, None);
      if !result.IsPartialSignIn() {
        if rememberMe == Some(true) || (rememberMe != Some(false) && cfg.options.cookieIsPersistent) {
          props := props.(isPersistent := true);
          if rememberMe == Some(true) {
            props := props.(expiresUtc := Some(cfg.env.now + cfg.options.rememberMeDuration));
          }
        }
      } else if rememberMe.Some? {
        props := props.(partialLoginRememberMe := Some(if rememberMe.value then "true" else "false"));
      }
      assert claims == result.claims + if result.IsPartialSignIn() then PartialLoginClaims(cfg.env, signin) else [];
      assert props == SignInProperties(cfg.options, cfg.env.now, result.IsPartialSignIn(), rememberMe);
      Emit(Cookie(SignIn(props, claims)));
    }

    /** SignInAndRedirectAsync */
    method SignInAndRedirect(message: SignInMessage, signin: string, result: AuthenticateResult, rememberMe: Option<bool>) returns (outcome: Outcome)
      modifies this`log
      ensures log == old(log) + Flows.SignInAndRedirect(cfg, message, signin, result, rememberMe).actions
      ensures outcome == Flows.SignInAndRedirect(cfg, message, signin, result, rememberMe).outcome
    {
      hide Flows.RenderLoginPage, PartialLoginClaims, SignInProperties;
      ghost var start := log;
      var answer, r := PostAuthenticate(message, signin, result);
      if answer.Some? {
        return answer.value;
      }
      ghost var pre := Flows.PostAuthenticateStep(cfg, message, signin, result).actions;
      assert log == start + pre;
      if IdPMismatch(message, r) {
        return GenericError;
      }
      ClearAuthenticationCookiesForNewSignIn(r);
      IssueAuthenticationCookie(signin, r, rememberMe);
      assert log == start + (pre + Flows.SessionActions(cfg, signin, r, rememberMe));
      return Redirect(RedirectUrl(cfg.env, message, r));
    }

    /** AuthenticateExternalAsync and what follows it, for the provider callback and partial-login resumption. */
    method ExternalAuthenticate(message: SignInMessage, signin: string, identity: ExternalIdentity, rememberMe: Option<bool>) returns (outcome: Outcome)
      modifies this`log
      ensures log == old(log) + Flows.ExternalAuthenticate(cfg, message, signin, identity, rememberMe).actions
      ensures outcome == Flows.ExternalAuthenticate(cfg, message, signin, identity, rememberMe).outcome
    {
      hide Flows.RenderLoginPage, Flows.SignInAndRedirect;
      Emit(Call(AuthenticateExternal(identity)));
      var result := cfg.userService.authenticateExternal(identity, message);
      if result.None? {
        var error := Localized(NoMatchingExternalAccount);
        Emit(Raise(ExternalLoginFailure(identity.provider, identity.providerId, signin, error)));
        outcome := RenderLoginPage(message, signin, Some(error), "");
        return;
      }
      var r := result.value;
      if r.IsError() {
        Emit(Raise(ExternalLoginFailure(identity.provider, identity.providerId, signin, Text(r.errorMessage))));
        outcome := RenderLoginPage(message, signin, Some(Text(r.errorMessage)), "");
        return;
      }
      Emit(Raise(ExternalLoginSuccess(identity.provider, identity.providerId, signin)));
      outcome := SignInAndRedirect(message, signin, r, rememberMe);
    }

    // -------------------------------------------------------------------
    // Endpoints

    /** POST LoginLocal */
    method LoginLocal(signin: string, model: Option<LoginCredentials>) returns (outcome: Outcome)
      modifies this`log
      ensures log == old(log) + Flows.LoginLocal(cfg, signin, model).actions
      ensures outcome == Flows.LoginLocal(cfg, signin, model).outcome
    {
      hide Flows.RenderLoginPage, Flows.LoginExternal, Flows.LocalAuthenticate;
      if !cfg.options.enableLocalLogin {
        return MethodNotAllowed;
      }
      var validated := ValidateSignin(cfg, signin);
      if validated.Failure? {
        return validated.error;
      }
      var message := validated.value;
      if !IsLocalLoginAllowedForClient(cfg.clientStore.clients, Some(message)) {
        return GenericError;
      }
      if model.None? {
        outcome := RenderLoginPage(message, signin, Some(Localized(InvalidUsernameOrPassword)), "");
        return;
      }
      var m := model.value;
      if IsMissing(m.password) && IsPresent(m.externalProvider) {
        Emit(Cookie(SetLastUserName(m.username)));
        outcome := LoginExternal(signin, m.externalProvider, m.username);
        return;
      }
      var rememberMe := cfg.options.calculateRememberMe(m.rememberMe);
      var errors := CredentialErrors(m.username, m.password);
      if errors != [] {
        outcome := RenderLoginPage(message, signin, Some(Localized(errors[0])), m.username);
        return;
      }
      if |m.username| > cfg.options.maxUserNameLength || |m.password| > cfg.options.maxPasswordLength {
        outcome := RenderLoginPage(message, signin, None, "");
        return;
      }
      outcome := AuthenticateLocal(message, signin, m, rememberMe);
    }

    /** The part of LoginLocal from AuthenticateLocalAsync on. */
    method AuthenticateLocal(message: SignInMessage, signin: string, m: LoginCredentials, rememberMe: Option<bool>) returns (outcome: Outcome)
      modifies this`log
      ensures log == old(log) + Flows.LocalAuthenticate(cfg, message, signin, m, rememberMe).actions
      ensures outcome == Flows.LocalAuthenticate(cfg, message, signin, m, rememberMe).outcome
    {
      hide Flows.LocalAnswer, Trim;
      var username, password := Trim(m.username), Trim(m.password);
      Emit(Call(SignInModel.AuthenticateLocal(username, password)));
      var result := cfg.userService.authenticateLocal(username, password, message);
      outcome := LocalAnswer(message, signin, m, rememberMe, result);
    }

    /** What the user service's answer to AuthenticateLocalAsync calls for. */
    method LocalAnswer(message: SignInMessage, signin: string, m: LoginCredentials, rememberMe: Option<bool>, result: Option<AuthenticateResult>) returns (outcome: Outcome)
      modifies this`log
      ensures log == old(log) + Flows.LocalAnswer(cfg, message, signin, m, rememberMe, result).actions
      ensures outcome == Flows.LocalAnswer(cfg, message, signin, m, rememberMe, result).outcome
    {
      hide Flows.RenderLoginPage, Flows.LocalResult, Trim;
      if result.None? {
        var error := Localized(InvalidUsernameOrPassword);
        Emit(Raise(LocalLoginFailure(m.username, signin, error)));
        outcome := RenderLoginPage(message, signin, Some(error), m.username);
        return;
      }
      var r := result.value;
      if r.isForcePasswordChanged {
        var username, password := Trim(m.username), Trim(m.password);
        Emit(Call(HandlePasswordChangeForced(username, password)));
        var changed := cfg.resetService.handlePasswordChangeForced(username, password, r);
        if changed.None? {
          return GenericError;
        }
        r := changed.value;
      }
      outcome := LocalVerdict(message, signin, m, rememberMe, r);
    }

    /** The end of LoginLocal once the user service has answered with result r. */
    method LocalVerdict(message: SignInMessage, signin: string, m: LoginCredentials, rememberMe: Option<bool>, r: AuthenticateResult) returns (outcome: Outcome)
      modifies this`log
      ensures log == old(log) + Flows.LocalResult(cfg, message, signin, m, rememberMe, r).actions
      ensures outcome == Flows.LocalResult(cfg, message, signin, m, rememberMe, r).outcome
    {
      hide Flows.RenderLoginPage, Flows.SignInAndRedirect;
      if r.IsError() {
        Emit(Raise(LocalLoginFailure(m.username, signin, Text(r.errorMessage))));
        outcome := RenderLoginPage(message, signin, Some(Text(r.errorMessage)), m.username);
        return;
      }
      Emit(Raise(LocalLoginSuccess(m.username, signin)));
      Emit(Cookie(SetLastUserName(m.username)));
      outcome := SignInAndRedirect(message, signin, r, rememberMe);
    }

    /** GET LoginExternalCallback */
    method LoginExternalCallback(error: string) returns (outcome: Outcome)
      modifies this`log
      ensures log == old(log) + Flows.LoginExternalCallback(cfg, error).actions
      ensures outcome == Flows.LoginExternalCallback(cfg, error).outcome
    {
      hide Flows.RenderLoginPage, Flows.ExternalAuthenticate;
      if IsPresent(error) {
        var shown := error;
        if |shown| > cfg.options.maxExternalErrorLength {
          shown := shown[..cfg.options.maxExternalErrorLength];
        }
        Emit(Raise(ExternalLoginError(shown)));
        return ErrorPage(ExternalProviderError(shown));
      }
      var signin := cfg.env.externalSignInId;
      if IsMissing(signin) || signin !in cfg.signInMessages {
        return HandleNoSignin(cfg.options, cfg.env);
      }
      var message := cfg.signInMessages[signin];
      match cfg.env.externalUser
      case ExternalFound(identity) =>
        outcome := ExternalAuthenticate(message, signin, identity, None);
      case _ =>
        outcome := RenderLoginPage(message, signin, Some(Localized(NoMatchingExternalAccount)), "");
    }

    /** GET ResumeLoginFromRedirect: strips the partial identity's transient claims in place. */
    method ResumeLoginFromRedirect(resume: string) returns (outcome: Outcome)
      modifies this`log, this`partialIdentity
      ensures var spec := Flows.ResumeLoginFromRedirect(cfg, old(partialIdentity), resume);
        log == old(log) + spec.effect.actions && outcome == spec.effect.outcome && partialIdentity == spec.identity
    {
      hide Flows.ResumeWith;
      if IsMissing(resume) || |resume| > MaxSignInMessageLength || partialIdentity.None? {
        return GenericError;
      }
      var claims := partialIdentity.value;
      var resumeClaim := FindFirst(claims, PartialLoginResumeId(resume));
      if resumeClaim.None? {
        return GenericError;
      }
      var signin := resumeClaim.value.value;
      if IsMissing(signin) || signin !in cfg.signInMessages {
        return GenericError;
      }
      var message := cfg.signInMessages[signin];
      ghost var original := claims;
      var externalClaim := FindFirst(claims, ExternalProviderUserId);
      claims := RemoveClaimIfPresent(claims, PartialLoginRestartUrl);
      claims := RemoveClaimIfPresent(claims, PartialLoginReturnUrl);
      claims := RemoveClaimIfPresent(claims, ExternalProviderUserId);
      claims := RemoveClaimIfPresent(claims, PartialLoginResumeId(resume));
      partialIdentity := Some(claims);
      assert claims == CleanupPartialClaims(original, resume);
      assert Flows.ResumeLoginFromRedirect(cfg, old(partialIdentity), resume) ==
        Flows.Resumption(Flows.ResumeWith(cfg, message, signin, externalClaim, claims), Some(claims));
      outcome := ResumeWith(message, signin, externalClaim, claims);
    }

    /** One clean-up step of ResumeLoginFromRedirect: the first claim of type t, when there is one, is removed. */
    static method RemoveClaimIfPresent(claims: seq<Claim>, t: ClaimType) returns (r: seq<Claim>)
      ensures r == RemoveFirst(claims, t)
      ensures HasClaim(claims, t) ==> |r| == |claims| - 1
      ensures !HasClaim(claims, t) ==> r == claims
    {
      r := claims;
      if HasClaim(claims, t) {
        r := RemoveFirst(claims, t);
      }
    }

    /** The end of ResumeLoginFromRedirect: back through the external provider claim, or directly. */
    method ResumeWith(message: SignInMessage, signin: string, externalClaim: Option<Claim>, claims: seq<Claim>) returns (outcome: Outcome)
      modifies this`log
      ensures log == old(log) + Flows.ResumeWith(cfg, message, signin, externalClaim, claims).actions
      ensures outcome == Flows.ResumeWith(cfg, message, signin, externalClaim, claims).outcome
    {
      hide Flows.ExternalAuthenticate, Flows.SignInAndRedirect;
      if externalClaim.Some? {
        var c := externalClaim.value;
        outcome := ExternalAuthenticate(message, signin, ExternalIdentity(c.issuer, c.value, claims), ParseRememberMe(cfg.env.partialRememberMeEntry));
        return;
      }
      if !HasAllResultClaimTypes(claims) {
        return GenericError;
      }
      Emit(Raise(PartialLoginComplete(signin)));
      outcome := SignInAndRedirect(message, signin, FullResult(claims), ParseRememberMe(cfg.env.partialRememberMeEntry));
    }

    /** GET LogoutPrompt */
    method LogoutPrompt(id: string) returns (outcome: Outcome)
      modifies this`log
      ensures log == old(log) + Flows.LogoutPrompt(cfg, id).actions
      ensures outcome == Flows.LogoutPrompt(cfg, id).outcome
    {
      hide Flows.Logout;
      if |id| > MaxSignInMessageLength {
        return GenericError;
      }
      if !cfg.env.userAuthenticated {
        outcome := Logout(id);
        return;
      }
      if !cfg.options.requireSignOutPrompt {
        var message := ReadSignOutMessage(cfg, id);
        if message.Some? && IsPresent(message.value.clientId) {
          var clientId := message.value.clientId;
          if clientId in cfg.clientStore.clients && cfg.clientStore.clients[clientId].requireSignOutPrompt {
            return LogoutPromptPage(id);
          }
          outcome := Logout(id);
          return;
        }
        if !cfg.options.enableSignOutPrompt {
          outcome := Logout(id);
          return;
        }
      }
      return LogoutPromptPage(id);
    }

    /** POST Logout */
    method Logout(id: string) returns (outcome: Outcome)
      modifies this`log
      ensures log == old(log) + Flows.Logout(cfg, id).actions
      ensures outcome == Flows.Logout(cfg, id).outcome
    {
      if |id| > MaxSignInMessageLength {
        return GenericError;
      }
      Emit(Cookie(ClearSignOutMessage(id)));
      Emit(Cookie(ClearAuthenticationCookies));
      Emit(Cookie(SignOutOfExternalIdP(id)));
      Emit(Cookie(SetLastUserName("")));
      var clientId := None;
      var message := ReadSignOutMessage(cfg, id);
      if message.Some? && message.value.clientId != "" {
        clientId := Some(message.value.clientId);
      }
      Emit(Call(UserSignOut(clientId)));
      if cfg.env.userAuthenticated {
        Emit(Raise(LogoutEvent(id)));
      }
      return LoggedOutPage(id);
    }

    /** POST Reset */
    method Reset(signin: string, model: Option<LoginCredentials>) returns (outcome: Outcome)
      modifies this`log
      ensures log == old(log) + Flows.Reset(cfg, signin, model).actions
      ensures outcome == Flows.Reset(cfg, signin, model).outcome
    {
      if !cfg.options.enableLocalLogin {
        return MethodNotAllowed;
      }
      var validated := ValidateSignin(cfg, signin);
      if validated.Failure? {
        return validated.error;
      }
      var message := validated.value;
      if !IsLocalLoginAllowedForClient(cfg.clientStore.clients, Some(message)) {
        return GenericError;
      }
      if model.None? {
        return Flows.ResetPage(cfg, message, signin, Some(Localized(InvalidUsernameOrPassword)), "");
      }
      var username := model.value.username;
      if IsMissing(username) {
        return Flows.ResetPage(cfg, message, signin, Some(Localized(UsernameRequired)), username);
      }
      if |username| > cfg.options.maxUserNameLength {
        return Flows.ResetPage(cfg, message, signin, None, "");
      }
      Emit(Call(ResetPassword(username)));
      var reply := cfg.resetService.resetPassword(username, message);
      if reply.result.None? {
        var error := Localized(InvalidUsernameOrPassword);
        Emit(Raise(ResetPasswordFailure(username, signin, error)));
        return Flows.ResetPage(cfg, message, signin, Some(error), username);
      }
      if reply.result.value.isError {
        var error := Text(MessageText(reply.result.value));
        Emit(Raise(ResetPasswordFailure(username, signin, error)));
        return Flows.ResetPage(cfg, message, signin, Some(error), username);
      }
      if username != reply.userName {
        username := reply.userName;
      }
      Emit(Cookie(SetLastUserName(username)));
      Emit(Raise(ResetPasswordSuccess(username, signin)));
      return RedirectToResetVerify(signin, username);
    }

    /** POST ResetVerify */
    method ResetVerify(signin: string, model: Option<LoginCredentials>) returns (outcome: Outcome)
      modifies this`log
      ensures log == old(log) + Flows.ResetVerify(cfg, signin, model).actions
      ensures outcome == Flows.ResetVerify(cfg, signin, model).outcome
    {
      hide Flows.ResetVerifyWithService;
      var validated := ValidateSignin(cfg, signin);
      if validated.Failure? {
        return validated.error;
      }
      var message := validated.value;
      if !IsLocalLoginAllowedForClient(cfg.clientStore.clients, Some(message)) {
        return GenericError;
      }
      if model.None? {
        return Flows.ResetVerifyPage(cfg, message, signin, Some(Localized(InvalidUsernameOrPassword)), "");
      }
      var m := model.value;
      var errors := CredentialErrors(m.username, m.password);
      if errors != [] {
        return Flows.ResetVerifyPage(cfg, message, signin, Some(Localized(errors[0])), m.username);
      }
      if |m.username| > cfg.options.maxUserNameLength || |m.password| > Flows.ResetVerifyMaxPasswordLength {
        return Flows.ResetVerifyPage(cfg, message, signin, None, "");
      }
      outcome := VerifyWithService(message, signin, m);
    }

    /** The part of ResetVerify from ResetPasswordVerifyAsync on. */
    method VerifyWithService(message: SignInMessage, signin: string, m: LoginCredentials) returns (outcome: Outcome)
      modifies this`log
      ensures log == old(log) + Flows.ResetVerifyWithService(cfg, message, signin, m).actions
      ensures outcome == Flows.ResetVerifyWithService(cfg, message, signin, m).outcome
    {
      hide Flows.ResetVerifyPage, Trim;
      var username, password := Trim(m.username), Trim(m.password);
      Emit(Call(ResetPasswordVerify(username, password)));
      var result := cfg.resetService.resetPasswordVerify(username, password, message);
      if result.None? {
        var error := Localized(InvalidUsernameOrPassword);
        Emit(Raise(LocalLoginFailure(m.username, signin, error)));
        return Flows.ResetVerifyPage(cfg, message, signin, Some(error), m.username);
      }
      var r := result.value;
      if r.base.isError {
        var error := Text(MessageText(r.base));
        Emit(Raise(ResetPasswordVerifyFailure(m.username, signin, error)));
        return Flows.ResetVerifyPage(cfg, message, signin, Some(error), m.username);
      }
      if TokenMissing(r) {
        return GenericError;
      }
      Emit(Raise(ResetPasswordVerifySuccess(m.username, signin)));
      return RedirectToResetCallback(r.token.value, signin);
    }

    /** POST ResetCallback */
    method ResetCallback(token: string, model: Option<ResetCredentials>, signin: string) returns (outcome: Outcome)
      modifies this`log
      ensures log == old(log) + Flows.ResetCallback(cfg, token, model, signin).actions
      ensures outcome == Flows.ResetCallback(cfg, token, model, signin).outcome
    {
      hide Flows.ResetCallbackWithService;
      if !cfg.options.enableLocalLogin {
        return MethodNotAllowed;
      }
      if IsMissing(token) {
        return GenericError;
      }
      var validated := ValidateSignin(cfg, signin);
      if validated.Failure? {
        return validated.error;
      }
      if model.None? {
        return ResetPasswordCallbackPage(token, Some(Localized(MissingToken)), signin);
      }
      outcome := CallbackWithService(token, model.value, signin);
    }

    /** The part of ResetCallback from ResetPasswordAsync on. */
    method CallbackWithService(token: string, m: ResetCredentials, signin: string) returns (outcome: Outcome)
      modifies this`log
      ensures log == old(log) + Flows.ResetCallbackWithService(cfg, token, m, signin).actions
      ensures outcome == Flows.ResetCallbackWithService(cfg, token, m, signin).outcome
    {
      hide Flows.LoginLocal;
      Emit(Call(ResetPasswordCallback(token, m.password, m.confirmedPassword)));
      var reply := cfg.resetService.resetPasswordCallback(token, m.password, m.confirmedPassword);
      var failure: Option<Message> := None;
      if reply.result.None? {
        failure := Some(Text("No result provided"));
      } else if reply.result.value.isError {
        failure := Some(Text(MessageText(reply.result.value)));
      } else if reply.userName == "" {
        failure := Some(Text("No username provided"));
      }
      if failure.Some? {
        Emit(Raise(ResetPasswordCallbackFailure(failure.value)));
        return ResetPasswordCallbackPage(token, failure, signin);
      }
      Emit(Raise(ResetPasswordCallbackSuccess));
      outcome := LoginLocal(signin, Some(LoginCredentials(reply.userName, m.password, "", None)));
    }
  }
}
