/**
  The data the authentication endpoints work on: sign-in and sign-out
  messages, clients, claims, authentication results, and what a request
  produces (an Outcome, and a trace of cookie operations, audit events and
  calls into the user and password-reset services). External collaborators
  (user service, password-reset service, client store, OWIN environment) are
  fixed per request and appear as values and functions in a Config.
*/
module SignInModel {
  import opened Common
  import opened Strings
  import opened ResetResults

  /** AuthenticationController.MaxSignInMessageLength */
  const MaxSignInMessageLength: nat := 100

  /** .NET's ClaimsIdentity.DefaultIssuer, the issuer of claims added by the controller. */
  const LocalAuthority: string := "LOCAL AUTHORITY"

  // ---------------------------------------------------------------------
  // Claims

  /**
    Claim types. The four transient partial-login types are kept apart from
    ordinary (named) types; the resume-id type is parameterised by the resume id.
  */
  datatype ClaimType =
    | Named(name: string)
    | PartialLoginReturnUrl
    | PartialLoginRestartUrl
    | ExternalProviderUserId
    | PartialLoginResumeId(resumeId: string)

  const SubjectType: ClaimType := Named("sub")
  const IdentityProviderType: ClaimType := Named("idp")

  /** The claim types that make up a completed authentication result. */
  const AuthenticateResultClaimTypes: seq<ClaimType> :=
    [Named("sub"), Named("name"), Named("amr"), Named("idp"), Named("auth_time")]

  datatype Claim = Claim(claimType: ClaimType, value: string, issuer: string)

  predicate HasClaim(claims: seq<Claim>, t: ClaimType) {
    exists i :: 0 <= i < |claims| && claims[i].claimType == t
  }

  /** The index of the first claim of type `t`, or |claims| when there is none. */
  function FirstIndexOf(claims: seq<Claim>, t: ClaimType): (k: nat)
    ensures k <= |claims|
    ensures forall i :: 0 <= i < k ==> claims[i].claimType != t
    ensures k < |claims| <==> HasClaim(claims, t)
    ensures k < |claims| ==> claims[k].claimType == t
  {
    if claims == [] then 0
    else if claims[0].claimType == t then 0
    else
      var k := 1 + FirstIndexOf(claims[1..], t);
      assert forall i :: 1 <= i < |claims| ==> claims[i] == claims[1..][i - 1];
      k
  }

  /** ClaimsIdentity.FindFirst */
  function FindFirst(claims: seq<Claim>, t: ClaimType): (r: Option<Claim>)
    ensures r.Some? <==> HasClaim(claims, t)
    ensures r.Some? ==> r.value.claimType == t && r.value == claims[FirstIndexOf(claims, t)]
  {
    var k := FirstIndexOf(claims, t);
    if k < |claims| then Some(claims[k]) else None
  }

  // ---------------------------------------------------------------------
  // Messages, clients, results

  datatype LoginForced = NotForced | Forced | ForcedHidden

  /** The stored sign-in request (SignInMessage). */
  datatype SignInMessage = SignInMessage(
    clientId: string,
    returnUrl: string,
    idp: string,
    loginHint: string,
    loginForced: LoginForced)

  datatype SignOutMessage = SignOutMessage(clientId: string, returnUrl: string)

  /** The client settings the controller consults. */
  datatype Client = Client(enableLocalLogin: bool, requireSignOutPrompt: bool)

  /** AuthenticateResult: an error, a partial sign-in (redirect path present) or a full sign-in. */
  datatype AuthenticateResult = AuthenticateResult(
    errorMessage: string,
    partialSignInRedirectPath: string,
    claims: seq<Claim>,
    isForcePasswordChanged: bool)
  {
    predicate IsError() { IsPresent(errorMessage) }
    predicate IsPartialSignIn() { IsPresent(partialSignInRedirectPath) }
    predicate HasSubject() { HasClaim(claims, SubjectType) }
    /** The value of the first "idp" claim, if any. */
    function IdentityProvider(): Option<string> {
      match FindFirst(claims, IdentityProviderType)
      case Some(c) => Some(c.value)
      case None => None
    }
  }

  /** A successful, full sign-in built from an identity's claims. */
  function FullResult(claims: seq<Claim>): (r: AuthenticateResult)
    ensures !r.IsError() && !r.IsPartialSignIn() && r.claims == claims
  {
    AuthenticateResult("", "", claims, false)
  }

  datatype ExternalIdentity = ExternalIdentity(provider: string, providerId: string, claims: seq<Claim>)

  /** What the external-provider cookie yields: no identity, an identity without a subject claim, or an external identity. */
  datatype ExternalLookup = NoExternalIdentity | NoSubjectClaim | ExternalFound(identity: ExternalIdentity)

  /** A link to an external provider on the login page; hidden links are filtered from the page. */
  datatype ProviderLink = ProviderLink(providerType: string, visible: bool)

  /** The posted login form (LoginCredentials); a null field is the empty string. */
  datatype LoginCredentials = LoginCredentials(username: string, password: string, externalProvider: string, rememberMe: Option<bool>)

  /** The posted reset-password callback form (ResetCredentials). */
  datatype ResetCredentials = ResetCredentials(password: string, confirmedPassword: string)

  // ---------------------------------------------------------------------
  // Outcomes and trace

  /** Localised message ids (the text itself is not modelled). */
  datatype MessageId =
    | UnexpectedError
    | NoSignInCookie
    | InvalidUsernameOrPassword
    | UsernameRequired
    | PasswordRequired
    | NoExternalProvider
    | NoMatchingExternalAccount
    | MissingToken

  datatype Message =
    | Localized(id: MessageId)
    | Text(text: string)
    /** The localised ExternalProviderError format applied to the provider's error text. */
    | ExternalProviderError(detail: string)

  /** The AuthenticationProperties of a challenge to an external provider. */
  datatype ChallengeProperties = ChallengeProperties(redirectUri: string, signinId: string, provider: string, loginHint: Option<string>)

  /** What an endpoint answers. */
  datatype Outcome =
    | ErrorPage(message: Message)
    | LoginPage(signinId: string, error: Option<Message>, username: string)
    | ResetPasswordPage(signinId: string, error: Option<Message>, username: string)
    | ResetPasswordVerifyPage(signinId: string, error: Option<Message>, username: string)
    | ResetPasswordCallbackPage(token: string, error: Option<Message>, signinId: string)
    | Redirect(url: string)
    | RedirectToResetVerify(signinId: string, username: string)
    | RedirectToResetCallback(token: string, signinId: string)
    | MethodNotAllowed
    | Challenge(provider: string, props: ChallengeProperties)
    | LogoutPromptPage(id: string)
    | LoggedOutPage(id: string)

  /** RenderErrorPage() with no message: the generic error page. */
  const GenericError: Outcome := ErrorPage(Localized(UnexpectedError))

  datatype Scheme = PrimaryScheme | ExternalScheme | PartialSignInScheme

  /** The AuthenticationProperties of an issued sign-in cookie. */
  datatype AuthProperties = AuthProperties(isPersistent: bool, expiresUtc: Option<int>, partialLoginRememberMe: Option<string>)

  datatype CookieOp =
    | SignOut(schemes: seq<Scheme>)
    | ClearSignInMessage(signinId: string)
    | IssueSessionId(rememberMe: Option<bool>)
    | SignIn(props: AuthProperties, claims: seq<Claim>)
    | SetLastUserName(value: string)
    | ClearSignOutMessage(id: string)
    | ClearAuthenticationCookies
    | SignOutOfExternalIdP(id: string)

  datatype EndpointFailure = ProviderNotAllowed(provider: string, clientId: string) | ProviderNotConfigured(provider: string)

  datatype Event =
    | LocalLoginSuccess(username: string, signinId: string)
    | LocalLoginFailure(username: string, signinId: string, message: Message)
    | ExternalLoginError(error: string)
    | ExternalLoginSuccess(provider: string, providerId: string, signinId: string)
    | ExternalLoginFailure(provider: string, providerId: string, signinId: string, message: Message)
    | PartialLoginComplete(signinId: string)
    | AuthenticateEndpointFailure(reason: EndpointFailure)
    | LogoutEvent(id: string)
    | ResetPasswordSuccess(username: string, signinId: string)
    | ResetPasswordFailure(username: string, signinId: string, message: Message)
    | ResetPasswordVerifySuccess(username: string, signinId: string)
    | ResetPasswordVerifyFailure(username: string, signinId: string, message: Message)
    | ResetPasswordCallbackSuccess
    | ResetPasswordCallbackFailure(message: Message)

  datatype ServiceCall =
    | AuthenticateLocal(username: string, password: string)
    | HandlePasswordChangeForced(username: string, password: string)
    | AuthenticateExternal(identity: ExternalIdentity)
    | PostAuthenticate(result: AuthenticateResult)
    | UserSignOut(clientId: Option<string>)
    | ResetPassword(username: string)
    | ResetPasswordVerify(username: string, password: string)
    | ResetPasswordCallback(token: string, password: string, confirmedPassword: string)

  /** One step of a request's trace, in the order the controller takes them. */
  datatype Action = Cookie(op: CookieOp) | Raise(event: Event) | Call(call: ServiceCall)

  /** What a request produces: its trace and its answer. */
  datatype Effect = Effect(actions: seq<Action>, outcome: Outcome)

  function Respond(outcome: Outcome): Effect {
    Effect([], outcome)
  }

  /** The effect `e` preceded by the actions `pre`. */
  function Then(pre: seq<Action>, e: Effect): Effect {
    Effect(pre + e.actions, e.outcome)
  }

  // ---------------------------------------------------------------------
  // Configuration and collaborators

  datatype Options = Options(
    enableLocalLogin: bool,
    invalidSignInRedirectUrl: string,
    maxUserNameLength: nat,
    maxPasswordLength: nat,
    maxIdentityProviderLength: nat,
    maxExternalErrorLength: nat,
    cookieIsPersistent: bool,
    rememberMeDuration: int,
    /** CookieOptions.CalculateRememberMeFromUserInput */
    calculateRememberMe: Option<bool> -> Option<bool>,
    requireSignOutPrompt: bool,
    enableSignOutPrompt: bool,
    enableLoginHint: bool)

  /** The request's OWIN environment, and what the controller reads from it. */
  datatype Environment = Environment(
    baseUrl: string,
    host: string,
    /** the last-username cookie sent with the request */
    lastUserName: string,
    /** IsValidExternalAuthenticationProvider */
    configuredProviders: set<string>,
    /** the login-page provider links for a client (its IdP restrictions applied) */
    providerLinks: string -> seq<ProviderLink>,
    /** Url.Route for the external-login callback */
    callbackUrl: string,
    /** GetSignInIdFromExternalProvider */
    externalSignInId: string,
    /** GetIdentityFromExternalProvider followed by ExternalIdentity.FromClaims */
    externalUser: ExternalLookup,
    /** the remember-me entry stored in the partial sign-in cookie's properties, if any */
    partialRememberMeEntry: Option<string>,
    /** the primary identity is authenticated */
    userAuthenticated: bool,
    /** DateTimeHelper.UtcNow */
    now: int,
    /** CryptoRandom.CreateUniqueId for this request */
    freshId: string,
    /** GetPartialLoginResumeUrl */
    resumeUrl: string -> string,
    /** GetPartialLoginRestartUrl */
    restartUrl: string -> string,
    /** new Uri(new Uri(host), path) */
    combineUri: (string, string) -> string)

  datatype ClientStore = ClientStore(
    clients: map<string, Client>,
    /** IsValidIdentityProviderAsync(clientId, provider) */
    isValidIdentityProvider: (string, string) -> bool)

  /** What PostAuthenticateAsync leaves in its context. */
  datatype PostAuthenticateReply = PostAuthenticateReply(result: Option<AuthenticateResult>, showLoginPageOnErrorResult: bool)

  /** The user service: the result each call leaves in its context (None for null). */
  datatype UserService = UserService(
    authenticateLocal: (string, string, SignInMessage) -> Option<AuthenticateResult>,
    authenticateExternal: (ExternalIdentity, SignInMessage) -> Option<AuthenticateResult>,
    postAuthenticate: (SignInMessage, AuthenticateResult) -> PostAuthenticateReply)

  /** What a reset call leaves in its context: the result and the (possibly corrected) user name. */
  datatype ResetReply = ResetReply(result: Option<ResetPasswordResult>, userName: string)

  datatype PasswordResetService = PasswordResetService(
    resetPassword: (string, SignInMessage) -> ResetReply,
    resetPasswordVerify: (string, string, SignInMessage) -> Option<ResetPasswordVerifyResult>,
    resetPasswordCallback: (string, string, string) -> ResetReply,
    handlePasswordChangeForced: (string, string, AuthenticateResult) -> Option<AuthenticateResult>)

  /** Everything fixed for the duration of one request. The message stores are the request's cookies. */
  datatype Config = Config(
    options: Options,
    env: Environment,
    clientStore: ClientStore,
    userService: UserService,
    resetService: PasswordResetService,
    signInMessages: map<string, SignInMessage>,
    signOutMessages: map<string, SignOutMessage>)
}
