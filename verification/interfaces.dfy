/** The record types of packages/react-aad-msal/src/interfaces. */
module Interfaces {
  import opened Wrappers
  import opened Enums
  import opened Msal

  /** The signed-in identity (`IAccountInfo`). The token fields are optional:
      a record created from a response carries only the token of that
      response's kind until the other kind has been obtained. */
  datatype AccountInfo = AccountInfo(
    account: Account,
    jwtIdToken: Option<string>,
    jwtAccessToken: Option<string>)

  /** The provider options (`IMsalAuthProviderConfig`). */
  datatype ProviderOptions = ProviderOptions(
    loginType: LoginType,
    tokenRefreshUri: Option<string>)
}
