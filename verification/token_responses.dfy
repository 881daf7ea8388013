/** The token response adapters: validating constructors that turn a client
    response into a typed token value, refusing a response of the wrong kind.
    The access-token adapter exists twice in the repository
    (packages/react-aad-msal/src/AccessTokenResponse.ts and
    src/AccessTokenResponse.ts) with the same logic; it is defined once here. */
module TokenResponses {
  import opened Wrappers
  import opened Enums
  import opened Msal

  datatype AccessTokenResponse = AccessTokenResponse(
    accessToken: string,
    scopes: seq<string>,
    expiresOn: int,
    state: string)

  datatype IdTokenResponse = IdTokenResponse(idToken: IdTokenClaims, state: string)

  /** The constructor's failure: the response carried this other token type. */
  datatype TokenError = WrongTokenType(actual: TokenType)

  /** `new AccessTokenResponse(response)`. */
  function NewAccessTokenResponse(response: AuthResponse): (r: Result<AccessTokenResponse, TokenError>)
    ensures r.Failure? <==> response.tokenType != AccessToken
    ensures r.Failure? ==> r.error == WrongTokenType(response.tokenType)
  {
    if response.tokenType != AccessToken then
      Failure(WrongTokenType(response.tokenType))
    else
      Success(AccessTokenResponse(response.accessToken, response.scopes, response.expiresOn, response.accountState))
  }

  /** `new IdTokenResponse(response)`. */
  function NewIdTokenResponse(response: AuthResponse): (r: Result<IdTokenResponse, TokenError>)
    ensures r.Failure? <==> response.tokenType != IdToken
    ensures r.Failure? ==> r.error == WrongTokenType(response.tokenType)
  {
    if response.tokenType != IdToken then
      Failure(WrongTokenType(response.tokenType))
    else
      Success(IdTokenResponse(response.idToken, response.accountState))
  }

  /** The access-token adapter accepts exactly the access-token responses and
      then yields exactly the token whose fields are the response's, verbatim. */
  lemma AccessTokenResponseExact(response: AuthResponse, t: AccessTokenResponse)
    ensures NewAccessTokenResponse(response) == Success(t) <==>
      response.tokenType == AccessToken &&
      t.accessToken == response.accessToken &&
      t.expiresOn == response.expiresOn &&
      t.scopes == response.scopes &&
      t.state == response.accountState
  {
  }

  /** The ID-token adapter accepts exactly the ID-token responses and then
      yields the response's ID token and account state, verbatim. */
  lemma IdTokenResponseExact(response: AuthResponse, t: IdTokenResponse)
    ensures NewIdTokenResponse(response) == Success(t) <==>
      response.tokenType == IdToken &&
      t.idToken == response.idToken &&
      t.state == response.accountState
  {
  }

  /** No response is accepted by both adapters. */
  lemma TokenKindsExclusive(response: AuthResponse)
    ensures NewAccessTokenResponse(response).Failure? || NewIdTokenResponse(response).Failure?
  {
  }
}
