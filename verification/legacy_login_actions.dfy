/** src/actions.tsx: the oldest pair of action constants and creators. */
module LegacyLoginActions {
  import opened Wrappers
  import opened Redux
  import opened LegacyInterfaces

  const AAD_LOGIN_SUCCESS: string := "AAD_LOGIN_SUCCESS"
  const AAD_LOGOUT_SUCCESS: string := "AAD_LOGOUT_SUCCESS"

  function LoginSuccessful(data: UserInfo): (a: Action<UserInfo>)
    ensures a.actionType == AAD_LOGIN_SUCCESS && a.payload == Some(data)
  {
    Action(AAD_LOGIN_SUCCESS, Some(data))
  }

  function LogoutSuccessful(): (a: Action<UserInfo>)
    ensures a.actionType == AAD_LOGOUT_SUCCESS && a.payload == None
  {
    Action(AAD_LOGOUT_SUCCESS, None)
  }

  /** The two tags differ, so a store can tell the two actions apart, and a
      login action gives back the record it was made from. */
  lemma LoginLogoutDistinguishable(d: UserInfo, d': UserInfo)
    ensures AAD_LOGIN_SUCCESS != AAD_LOGOUT_SUCCESS
    ensures LoginSuccessful(d) != LogoutSuccessful()
    ensures LoginSuccessful(d) == LoginSuccessful(d') <==> d == d'
  {
  }
}
