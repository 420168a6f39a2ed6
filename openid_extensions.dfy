/**
  The decisions made by UseAzureAdAuthentication: the authority URL, when the
  tenant-placeholder issuer validator is installed, how the outgoing state is
  prefixed, and the validator itself (ValidateIssuerWithPlaceholder).
  Base64Url/UTF-8 encoding and the library's default issuer validator are not
  modelled: their results are inputs.
*/
module OpenIdExtensions {
  import opened Common
  import opened Strings

  const AuthorityPrefix: string := "https://login.microsoftonline.com/"
  const TenantPlaceholder: string := "{tenantid}"

  /** The OpenID Connect authority for a tenant. */
  function Authority(tenantId: string): (r: string)
    ensures StartsWith(r, AuthorityPrefix) && r[|AuthorityPrefix|..] == tenantId
  {
    AuthorityPrefix + tenantId
  }

  /** Different tenants get different authorities. */
  lemma AuthorityInjective(a: string, b: string)
    requires Authority(a) == Authority(b)
    ensures a == b
  {
    assert a == Authority(a)[|AuthorityPrefix|..];
  }

  datatype IssuerValidatorChoice = LibraryDefault | PlaceholderValidator

  /** Only a tenant id starting with "common" gets the placeholder validator. */
  function IssuerValidatorFor(tenantId: string): (r: IssuerValidatorChoice)
    ensures r == PlaceholderValidator <==> |tenantId| >= 6 && tenantId[..6] == "common"
  {
    if StartsWith(tenantId, "common") then PlaceholderValidator else LibraryDefault
  }

  // ---------------------------------------------------------------------
  // RedirectToIdentityProvider notification

  datatype RequestType = Authentication | Logout | Token

  datatype ProtocolMessage = ProtocolMessage(requestType: RequestType, prompt: string, state: string)

  /**
    Rewrites an outgoing message: an authentication request made while a
    sign-in message exists takes the sign-in's prompt mode and has its state
    prefixed with the encoded web-service URL and a dot. `encodedUrl` stands
    for Base64Url.Encode(UTF8(webServiceUrl)).
  */
  function RedirectToIdentityProvider(m: ProtocolMessage, signInPromptMode: Option<string>, encodedUrl: string): (r: ProtocolMessage)
    ensures r.requestType == m.requestType
    ensures m.requestType != Authentication || signInPromptMode.None? ==> r == m
    ensures m.requestType == Authentication && signInPromptMode.Some? ==>
      r.prompt == signInPromptMode.value && r.state == encodedUrl + "." + m.state
  {
    if m.requestType == Authentication && signInPromptMode.Some? then
      m.(prompt := signInPromptMode.value, state := encodedUrl + "." + m.state)
    else m
  }

  /** The index of the first dot, or |s| when there is none. */
  function FirstDot(s: string): (k: nat)
    ensures k <= |s|
    ensures forall i :: 0 <= i < k ==> s[i] != '.'
    ensures k < |s| ==> s[k] == '.'
  {
    if s == [] then 0 else if s[0] == '.' then 0 else 1 + FirstDot(s[1..])
  }

  /**
    Round trip: since the base64url alphabet has no dot, splitting the rewritten
    state at its first dot gives back the encoded URL and the original state.
  */
  lemma {:induction false} StateRoundTrip(m: ProtocolMessage, promptMode: string, encodedUrl: string)
    requires m.requestType == Authentication
    requires forall i :: 0 <= i < |encodedUrl| ==> encodedUrl[i] != '.'
    ensures var s := RedirectToIdentityProvider(m, Some(promptMode), encodedUrl).state;
      var k := FirstDot(s);
      k < |s| && s[..k] == encodedUrl && s[k + 1..] == m.state
  {
    var s := encodedUrl + "." + m.state;
    assert RedirectToIdentityProvider(m, Some(promptMode), encodedUrl).state == s;
    assert s == encodedUrl + ("." + m.state);
    FirstDotAfterDotFree(encodedUrl, "." + m.state);
    assert s[..|encodedUrl|] == encodedUrl;
    assert s[|encodedUrl| + 1..] == m.state;
  }

  lemma {:induction false} FirstDotAfterDotFree(a: string, b: string)
    requires forall i :: 0 <= i < |a| ==> a[i] != '.'
    requires b != [] && b[0] == '.'
    ensures FirstDot(a + b) == |a|
    decreases |a|
  {
    if a == [] {
      assert a + b == b;
    } else {
      assert (a + b)[0] == a[0];
      assert (a + b)[1..] == a[1..] + b;
      FirstDotAfterDotFree(a[1..], b);
    }
  }

  // ---------------------------------------------------------------------
  // ValidateIssuerWithPlaceholder

  /** A payload value of a JWT: only string values matter here. */
  datatype PayloadValue = StringValue(s: string) | OtherValue

  datatype SecurityToken = JwtSecurityToken(payload: map<string, PayloadValue>) | OtherToken

  /** The relevant TokenValidationParameters; a null ValidIssuer or null entries are empty strings. */
  datatype ValidationParameters = ValidationParameters(validIssuers: Option<seq<string>>, validIssuer: string)

  /** What an issuer validator hands back: the accepted issuer, or a rejection. */
  datatype IssuerValidation = Accepted(issuer: string) | Rejected

  /** The strings of `s` that are not empty, in order. */
  function NonEmpty(s: seq<string>): (r: seq<string>)
    ensures |r| <= |s|
    ensures forall x :: x in r <==> x in s && x != ""
  {
    if s == [] then [] else NonEmpty(s[..|s| - 1]) + (if s[|s| - 1] != "" then [s[|s| - 1]] else [])
  }

  /** ValidIssuers (null treated as empty) followed by ValidIssuer. */
  function AllIssuers(p: ValidationParameters): seq<string> {
    p.validIssuers.GetOr([]) + [p.validIssuer]
  }

  /** The issuers a token may match: the configured ones, without null or empty entries. */
  function Candidates(p: ValidationParameters): seq<string> {
    NonEmpty(AllIssuers(p))
  }

  /** A candidate is exactly a non-empty configured issuer. */
  lemma CandidatesAreConfigured(p: ValidationParameters, x: string)
    ensures x in Candidates(p) <==> x != "" && (x in p.validIssuers.GetOr([]) || x == p.validIssuer)
  {
    assert x in AllIssuers(p) <==> x in p.validIssuers.GetOr([]) || x == p.validIssuer;
  }

  /** Builds the candidate list the way the source does: copy, add, then RemoveAll(IsNullOrEmpty). */
  method CandidateIssuers(p: ValidationParameters) returns (list: seq<string>)
    ensures list == Candidates(p)
  {
    var all := p.validIssuers.GetOr([]);
    all := all + [p.validIssuer];
    list := [];
    var i := 0;
    while i < |all|
      invariant 0 <= i <= |all|
      invariant list == NonEmpty(all[..i])
    {
      assert all[..i + 1][..i] == all[..i];
      if all[i] != "" {
        list := list + [all[i]];
      }
      i := i + 1;
    }
    assert all[..i] == all;
  }

  /** The tenant id a token carries as a string "tid" claim, if it is a JWT. */
  function TokenTenantId(token: SecurityToken): Option<string> {
    if token.JwtSecurityToken? && "tid" in token.payload && token.payload["tid"].StringValue? then
      Some(token.payload["tid"].s)
    else None
  }

  /** Some issuer of `candidates`, with the placeholder replaced by `tid`, is exactly `issuer` (Enumerable.Any). */
  function AnyMatches(candidates: seq<string>, tid: string, issuer: string): (b: bool)
    ensures b <==> exists i :: 0 <= i < |candidates| && ReplaceAll(candidates[i], TenantPlaceholder, tid) == issuer
  {
    if candidates == [] then false
    else if ReplaceAll(candidates[0], TenantPlaceholder, tid) == issuer then true
    else
      var b := AnyMatches(candidates[1..], tid, issuer);
      assert b ==> exists i :: 1 <= i < |candidates| && ReplaceAll(candidates[i], TenantPlaceholder, tid) == issuer by {
        if b {
          var j :| 0 <= j < |candidates[1..]| && ReplaceAll(candidates[1..][j], TenantPlaceholder, tid) == issuer;
          assert candidates[1..][j] == candidates[j + 1];
        }
      }
      b
  }

  /**
    ValidateIssuerWithPlaceholder: a JWT with a string "tid" whose tenant,
    put in place of {tenantid} in some candidate issuer, gives exactly the
    token's issuer is accepted as is; anything else is decided by the library
    validator, whose verdict is `libraryResult`.
  */
  method ValidateIssuerWithPlaceholder(issuer: string, token: SecurityToken, p: ValidationParameters, libraryResult: IssuerValidation)
    returns (r: IssuerValidation)
    ensures var tid := TokenTenantId(token);
      r == if tid.Some? && (exists c :: c in Candidates(p) && ReplaceAll(c, TenantPlaceholder, tid.value) == issuer)
           then Accepted(issuer) else libraryResult
  {
    var tid := TokenTenantId(token);
    if tid.Some? {
      var candidates := CandidateIssuers(p);
      if AnyMatches(candidates, tid.value, issuer) {
        return Accepted(issuer);
      }
    }
    return libraryResult;
  }

  /** The documented case: the v2.0 issuer template accepts exactly the issuer naming the token's own tenant. */
  lemma TemplateMatchesOwnTenant(tid: string)
    ensures ReplaceAll(AuthorityPrefix + TenantPlaceholder + "/v2.0", TenantPlaceholder, tid) == AuthorityPrefix + tid + "/v2.0"
  {
    var tail := "/v2.0";
    assert forall i :: 0 <= i < |AuthorityPrefix| ==> AuthorityPrefix[i] != '{';
    assert forall i :: 0 <= i < |tail| ==> tail[i] != '{';
    ReplaceAllSkipsPrefix(AuthorityPrefix, TenantPlaceholder + tail, TenantPlaceholder, tid);
    ReplaceAllAtStart(tail, TenantPlaceholder, tid);
    ReplaceAllSkipsPrefix(tail, [], TenantPlaceholder, tid);
    assert tail + [] == tail;
    assert AuthorityPrefix + TenantPlaceholder + tail == AuthorityPrefix + (TenantPlaceholder + tail);
  }
}
