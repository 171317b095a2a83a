/*
 * The app's persisted authentication store: the access and refresh tokens
 * and the signed-in user's profile. Persistence to device storage is not
 * part of this model.
 */
module AuthStore {
  import opened Common

  class Store {
    var accessToken: Option<string>
    var refreshToken: Option<string>
    /** The user profile, as the user API returns it. */
    var user: Option<Value>

    /** A fresh store holds no tokens and no user. */
    constructor ()
      ensures accessToken.None? && refreshToken.None? && user.None?
      ensures !IsLoggedIn()
    {
      accessToken := None;
      refreshToken := None;
      user := None;
    }

    /** `isLoggedIn`: `!!accessToken`, so an empty token does not count. */
    predicate IsLoggedIn()
      reads this
    {
      accessToken.Some? && accessToken.value != ""
    }

    /** `setTokens`: both tokens replaced; the user is kept. */
    method SetTokens(access: string, refresh: string)
      modifies this`accessToken, this`refreshToken
      ensures accessToken == Some(access) && refreshToken == Some(refresh)
      ensures IsLoggedIn() <==> access != ""
    {
      accessToken := Some(access);
      refreshToken := Some(refresh);
    }

    /** `clearTokens`: both tokens dropped; the user is kept. */
    method ClearTokens()
      modifies this`accessToken, this`refreshToken
      ensures accessToken.None? && refreshToken.None?
      ensures !IsLoggedIn()
    {
      accessToken := None;
      refreshToken := None;
    }

    /** `setUser`. */
    method SetUser(u: Value)
      modifies this`user
      ensures user == Some(u)
    {
      user := Some(u);
    }

    /** `logout`: both tokens and the user dropped. */
    method Logout()
      modifies this
      ensures accessToken.None? && refreshToken.None? && user.None?
      ensures !IsLoggedIn()
    {
      accessToken := None;
      refreshToken := None;
      user := None;
    }
  }
}
