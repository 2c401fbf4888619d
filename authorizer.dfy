/** The API Gateway token authorizer (api-server/authorizer.js). JWT verification is an
    outside service: it is passed in as a function from the bare token to its outcome. */
module Authorizer {
  import opened Common

  const BearerPrefix: string := "Bearer "
  const PolicyVersion: string := "2012-10-17"
  const InvokeAction: string := "execute-api:Invoke"

  datatype Statement = Statement(action: string, effect: string, resource: string)
  datatype PolicyDocument = PolicyDocument(version: string, statements: seq<Statement>)
  datatype AuthResponse = AuthResponse(principalId: string, policyDocument: Option<PolicyDocument>)

  /** The callback's two outcomes: the error string 'Unauthorized', or a policy. */
  datatype Decision = Unauthorized | Authorized(response: AuthResponse)

  /** What verifying a token yields: a failure, or the decoded payload's userId. */
  datatype Verified = Rejected | Decoded(userId: string)

  function StripBearer(token: string): string
  {
    if StartsWith(token, BearerPrefix) then token[|BearerPrefix|..] else token
  }

  lemma StripBearerPrefixed(rest: string)
    ensures StripBearer(BearerPrefix + rest) == rest
  {
    PrefixConcat(BearerPrefix, rest);
  }

  lemma StripBearerUnprefixed(token: string)
    requires !StartsWith(token, BearerPrefix)
    ensures StripBearer(token) == token
  {
  }

  /** Exactly seven characters are removed when, and only when, the token starts
      with "Bearer ". */
  lemma StripBearerLength(token: string)
    ensures StartsWith(token, BearerPrefix) ==> |StripBearer(token)| == |token| - 7
    ensures StartsWith(token, BearerPrefix) ==> BearerPrefix + StripBearer(token) == token
    ensures !StartsWith(token, BearerPrefix) ==> StripBearer(token) == token
  {
    if StartsWith(token, BearerPrefix) {
      assert token == token[..7] + token[7..];
    }
  }

  /** `generatePolicy`: the document is attached only when both effect and resource
      are truthy, and then it holds exactly one statement. */
  function GeneratePolicy(principalId: string, effect: Option<string>, resource: Option<string>): (r: AuthResponse)
    ensures r.principalId == principalId
    ensures r.policyDocument.Some? <==> Truthy(effect) && Truthy(resource)
    ensures r.policyDocument.Some? ==>
      && r.policyDocument.value.version == "2012-10-17"
      && r.policyDocument.value.statements == [Statement("execute-api:Invoke", effect.value, resource.value)]
  {
    if Truthy(effect) && Truthy(resource) then
      AuthResponse(principalId, Some(PolicyDocument(PolicyVersion, [Statement(InvokeAction, effect.value, resource.value)])))
    else
      AuthResponse(principalId, None)
  }

  /** `handler`: a missing token or a failed verification is 'Unauthorized';
      otherwise the decoded user is allowed to invoke the requested method. */
  function Handler(token: Option<string>, methodArn: Option<string>, verify: string -> Verified): (d: Decision)
    ensures !Truthy(token) ==> d == Unauthorized
    ensures Truthy(token) ==> (d.Authorized? <==> verify(StripBearer(token.value)).Decoded?)
    ensures d.Authorized? ==>
      && d.response.principalId == verify(StripBearer(token.value)).userId
      && (d.response.policyDocument.Some? <==> Truthy(methodArn))
      && (Truthy(methodArn) ==>
            d.response.policyDocument.value.statements == [Statement("execute-api:Invoke", "Allow", methodArn.value)])
  {
    if !Truthy(token) then Unauthorized
    else
      match verify(StripBearer(token.value))
      case Rejected => Unauthorized
      case Decoded(userId) => Authorized(GeneratePolicy(userId, Some("Allow"), methodArn))
  }

  /** A header "Bearer <jwt>" and the bare "<jwt>" decide the same way. */
  lemma BearerIsOptional(jwt: string, methodArn: Option<string>, verify: string -> Verified)
    requires jwt != "" && !StartsWith(jwt, BearerPrefix)
    ensures Handler(Some(BearerPrefix + jwt), methodArn, verify) == Handler(Some(jwt), methodArn, verify)
  {
    StripBearerPrefixed(jwt);
  }
}
