/**
  The results a password-reset service hands back to the controller
  (ResetPasswordResult and its subclass ResetPasswordVerifyResult). Both
  properties have private setters, so a result is a value fixed by the
  constructor that built it.
*/
module ResetResults {
  import opened Common

  /** The constructor's ArgumentNullException. */
  datatype ConstructionError = ArgumentNull(paramName: string)

  datatype ResetPasswordResult = ResetPasswordResult(isError: bool, errorMessage: Option<string>)

  /** A result that one of the two constructors can build: an error exactly when it carries a non-empty message. */
  predicate Valid(r: ResetPasswordResult) {
    if r.isError then r.errorMessage.Some? && r.errorMessage.value != "" else r.errorMessage.None?
  }

  /** The parameterless constructor: a successful result. */
  function SuccessResult(): (r: ResetPasswordResult)
    ensures Valid(r) && !r.isError
  {
    ResetPasswordResult(false, None)
  }

  /** The error constructor: a null or empty message is refused. */
  function ErrorResult(errorMessage: Option<string>): (r: Result<ResetPasswordResult, ConstructionError>)
    ensures r.Failure? <==> errorMessage.None? || errorMessage.value == ""
    ensures r.Failure? ==> r.error == ArgumentNull("errorMessage")
    ensures r.Success? ==> Valid(r.value) && r.value.isError && r.value.errorMessage == errorMessage
  {
    if errorMessage.None? || errorMessage.value == "" then Failure(ArgumentNull("errorMessage"))
    else Success(ResetPasswordResult(true, errorMessage))
  }

  /**
    The constructors build exactly the valid results: every valid result is
    either the successful one or the error built from its own message.
  */
  lemma ValidIsConstructed(r: ResetPasswordResult)
    requires Valid(r)
    ensures r == SuccessResult() || ErrorResult(r.errorMessage) == Success(r)
  {
    if !r.isError {
      assert r.errorMessage == None;
    }
  }

  /** The error message of a result, empty for a successful one. */
  function MessageText(r: ResetPasswordResult): (text: string)
    ensures Valid(r) ==> (r.isError <==> text != "")
  {
    r.errorMessage.GetOr("")
  }

  /** ResetPasswordVerifyResult: the base result plus a publicly settable token. */
  datatype ResetPasswordVerifyResult = ResetPasswordVerifyResult(base: ResetPasswordResult, token: Option<string>)

  /** The parameterless constructor delegates to the base and leaves Token unset. */
  function VerifySuccessResult(): (r: ResetPasswordVerifyResult)
    ensures Valid(r.base) && !r.base.isError && r.token.None?
  {
    ResetPasswordVerifyResult(SuccessResult(), None)
  }

  /** The error constructor delegates to the base (and so inherits its check) and leaves Token unset. */
  function VerifyErrorResult(errorMessage: Option<string>): (r: Result<ResetPasswordVerifyResult, ConstructionError>)
    ensures r.Failure? <==> errorMessage.None? || errorMessage.value == ""
    ensures r.Success? ==> r.value.base.isError && r.value.base.errorMessage == errorMessage && r.value.token.None?
  {
    match ErrorResult(errorMessage)
    case Failure(e) => Failure(e)
    case Success(b) => Success(ResetPasswordVerifyResult(b, None))
  }

  /** Setting the token after construction leaves the base result as it was. */
  function WithToken(r: ResetPasswordVerifyResult, token: string): (r': ResetPasswordVerifyResult)
    ensures r'.base == r.base && r'.token == Some(token)
  {
    r.(token := Some(token))
  }

  /** string.IsNullOrEmpty(result.Token): the controller's test for a missing token. */
  predicate TokenMissing(r: ResetPasswordVerifyResult) {
    r.token.None? || r.token.value == ""
  }

  /** A freshly constructed verify result never carries a token, whichever constructor built it. */
  lemma ConstructedVerifyResultHasNoToken(errorMessage: Option<string>)
    ensures TokenMissing(VerifySuccessResult())
    ensures VerifyErrorResult(errorMessage).Success? ==> TokenMissing(VerifyErrorResult(errorMessage).value)
  {
  }
}
