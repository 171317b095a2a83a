/*
 * The app's token API: the logout call and what the app does after it,
 * and the push-token registration request.
 */
module TokenApi {
  import opened Common
  import AuthStore
  import DeviceApi
  import JwtAuthenticationFilter

  /** POST `/tokens/logout` with an empty body and the access token as a bearer credential. */
  function LogoutRequest(accessToken: string): (req: DeviceApi.Request)
    ensures req.verb == "POST" && req.path == "/tokens/logout" && req.body == Object(map[])
    ensures "Authorization" in req.headers && req.headers["Authorization"] == "Bearer " + accessToken
  {
    DeviceApi.Request("POST", "/tokens/logout",
      map["Authorization" := "Bearer " + accessToken, "Content-Type" := "application/json"], Object(map[]))
  }

  /** The server's authentication filter reads back exactly the token the app sent. */
  lemma LogoutCarriesToken(accessToken: string)
    ensures JwtAuthenticationFilter.ResolveToken(Some(LogoutRequest(accessToken).headers["Authorization"])) == Some(accessToken)
  {
    JwtAuthenticationFilter.ResolveBearer(accessToken);
  }

  /**
   * `useLogoutMutation`: whether the server call succeeds or fails, the
   * tokens are cleared (the user profile stays) and the query cache is
   * emptied, so signing out locally never depends on the server.
   */
  method LogoutMutation(store: AuthStore.Store, client: DeviceApi.QueryClient, accessToken: string, succeeded: bool)
    returns (req: DeviceApi.Request)
    modifies store, client
    ensures req == LogoutRequest(accessToken)
    ensures store.accessToken.None? && store.refreshToken.None? && store.user == old(store.user)
    ensures !store.IsLoggedIn()
    ensures client.devices.None? && client.others == map[] && client.invalidations == old(client.invalidations)
  {
    req := LogoutRequest(accessToken);
    if succeeded {
      store.ClearTokens();
      client.Clear();
    } else {
      store.ClearTokens();
      client.Clear();
    }
  }

  /** POST `/tokens/mobile` with `{fcmToken}`. */
  function FcmTokenRequest(fcmToken: string): (req: DeviceApi.Request)
    ensures req.verb == "POST" && req.path == "/tokens/mobile" && req.headers == map[]
    ensures req.body == Object(map["fcmToken" := Str(fcmToken)])
  {
    DeviceApi.Request("POST", "/tokens/mobile", map[], Object(map["fcmToken" := Str(fcmToken)]))
  }
}
