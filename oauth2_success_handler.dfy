/*
 * The backend's social-login success handler: the provider's attribute map
 * yields the e-mail (and, for a new user, the nickname); the user is found
 * by e-mail or created, the social account is linked if it is not yet, and
 * the browser is redirected with a fresh JWT. Attribute values are JSON
 * values; a `(String)` cast of anything but a string or null throws.
 */
module OAuth2SuccessHandler {
  import opened Common

  /** A `(String)` cast of an attribute: a string, null, or a ClassCastException. */
  datatype Lookup = Text(s: string) | Absent | NotAString

  function Cast(v: Value): (r: Lookup)
    ensures r == Absent <==> v == Null
    ensures r.Text? <==> v.Str?
    ensures r.Text? ==> r.s == v.s
  {
    match v
    case Null => Absent
    case Str(s) => Text(s)
    case _ => NotAString
  }

  /** The field `key` of the nested map under `outer`, when that value is a map (`instanceof Map`); else null. */
  function Nested(attributes: map<string, Value>, outer: string, key: string): (r: Lookup)
    ensures !Get(attributes, outer).Object? ==> r == Absent
    ensures Get(attributes, outer).Object? ==> r == Cast(Get(Get(attributes, outer).fields, key))
  {
    match Get(attributes, outer)
    case Object(inner) => Cast(Get(inner, key))
    case _ => Absent
  }

  /** ASCII `toUpperCase`. */
  function ToUpper(s: string): (r: string)
    ensures |r| == |s|
    ensures forall i :: 0 <= i < |s| ==>
      r[i] == (if 'a' <= s[i] <= 'z' then (s[i] as int - 32) as char else s[i])
    ensures forall i :: 0 <= i < |s| ==> !('a' <= r[i] <= 'z')
  {
    if |s| == 0 then ""
    else [if 'a' <= s[0] <= 'z' then (s[0] as int - 32) as char else s[0]] + ToUpper(s[1..])
  }

  /** Upper-casing is idempotent, so an already upper-case provider id is matched as it is. */
  lemma ToUpperIdempotent(s: string)
    ensures ToUpper(ToUpper(s)) == ToUpper(s)
  {
  }

  const Kakao := "KAKAO"
  const Google := "GOOGLE"
  const Naver := "NAVER"

  /**
   * `extractEmail`: KAKAO reads kakao_account.email, GOOGLE reads email,
   * NAVER reads response.email; a missing or non-map nested object, or any
   * other provider, gives null.
   */
  function ExtractEmail(provider: string, attributes: map<string, Value>): (r: Lookup)
    ensures provider !in {Kakao, Google, Naver} ==> r == Absent
  {
    if provider == Kakao then Nested(attributes, "kakao_account", "email")
    else if provider == Google then Cast(Get(attributes, "email"))
    else if provider == Naver then Nested(attributes, "response", "email")
    else Absent
  }

  /** The fallback nickname: "User" followed by the current time in milliseconds. */
  function FallbackNickname(millis: int): string
  {
    "User" + IntToString(millis)
  }

  /**
   * `extractNickname`: KAKAO reads properties.nickname, GOOGLE reads name,
   * NAVER reads response.nickname; when that is null (or the provider is
   * another) the fallback name is used. A non-string value throws.
   */
  function ExtractNickname(provider: string, attributes: map<string, Value>, millis: int): (r: Lookup)
    ensures r != Absent
    ensures provider !in {Kakao, Google, Naver} ==> r == Text(FallbackNickname(millis))
    ensures r == NotAString ==> provider in {Kakao, Google, Naver}
  {
    var nickname :=
      if provider == Kakao then Nested(attributes, "properties", "nickname")
      else if provider == Google then Cast(Get(attributes, "name"))
      else if provider == Naver then Nested(attributes, "response", "nickname")
      else Absent;
    if nickname == Absent then Text(FallbackNickname(millis)) else nickname
  }

  /**
   * Each provider's e-mail is read from its own place in the attribute map:
   * a top-level "email" for GOOGLE, the "email" of the nested
   * kakao_account or response map for KAKAO and NAVER; a nested value that
   * is not a map gives null, and a null or absent field gives null.
   */
  lemma EmailPerProvider(e: string, other: map<string, Value>)
    ensures ExtractEmail(Google, other["email" := Str(e)]) == Text(e)
    ensures ExtractEmail(Kakao, other["kakao_account" := Object(map["email" := Str(e)])]) == Text(e)
    ensures ExtractEmail(Naver, other["response" := Object(map["email" := Str(e)])]) == Text(e)
    ensures ExtractEmail(Kakao, other["kakao_account" := Str(e)]) == Absent
    ensures ExtractEmail(Google, other - {"email"}) == Absent
  {
  }

  /** KAKAO and NAVER ignore a top-level "email"; GOOGLE ignores the nested maps. */
  lemma EmailIgnoresOtherPlaces(attributes: map<string, Value>, v: Value)
    ensures ExtractEmail(Kakao, attributes["email" := v]) == ExtractEmail(Kakao, attributes)
    ensures ExtractEmail(Naver, attributes["email" := v]) == ExtractEmail(Naver, attributes)
    ensures ExtractEmail(Google, attributes["kakao_account" := v]) == ExtractEmail(Google, attributes)
    ensures ExtractEmail(Google, attributes["response" := v]) == ExtractEmail(Google, attributes)
  {
  }

  /**
   * Each provider's nickname is read from its own place (properties.nickname,
   * name, response.nickname); when that place holds null or nothing the
   * fallback name is used, and a non-string there throws.
   */
  lemma NicknamePerProvider(n: string, other: map<string, Value>, millis: int)
    ensures ExtractNickname(Google, other["name" := Str(n)], millis) == Text(n)
    ensures ExtractNickname(Kakao, other["properties" := Object(map["nickname" := Str(n)])], millis) == Text(n)
    ensures ExtractNickname(Naver, other["response" := Object(map["nickname" := Str(n)])], millis) == Text(n)
    ensures ExtractNickname(Google, other - {"name"}, millis) == Text(FallbackNickname(millis))
    ensures ExtractNickname(Kakao, other["properties" := Object(map[])], millis) == Text(FallbackNickname(millis))
    ensures ExtractNickname(Google, other["name" := Int(millis)], millis) == NotAString
  {
  }

  const EmailNotFound := "/login?error=email_not_found"
  const HandlerException := "/login?error=handler_exception"

  /** The success redirect carrying the issued token. */
  function SuccessRedirect(token: string): (url: string)
    ensures IsPrefix("/auth/success?token=", url)
    ensures url[|"/auth/success?token="|..] == token
  {
    var url := "/auth/success?token=" + token;
    assert url[..|"/auth/success?token="|] == "/auth/success?token=";
    url
  }

  /** A user row: id and nickname. */
  datatype User = User(id: int, nickname: string)

  /** The user and social-account tables the handler reads and writes. */
  class Accounts {
    /** Users by e-mail. */
    var users: map<string, User>
    /** Linked social accounts: (social id, provider) to user id. */
    var socialAccounts: map<(string, string), int>

    constructor (users0: map<string, User>, socialAccounts0: map<(string, string), int>)
      ensures users == users0 && socialAccounts == socialAccounts0
    {
      users := users0;
      socialAccounts := socialAccounts0;
    }

    /**
     * `onAuthenticationSuccess`. `providers` is the set of SocialProvider
     * constant names (`valueOf` throws for any other), `newUserId` the id a
     * new user row gets, `millis` the clock, and `issue` the token the JWT
     * provider issues for a user id. Every throw redirects to the handler
     * error page; a null e-mail redirects to the e-mail error page; neither
     * changes a table.
     */
    method OnAuthenticationSuccess(registrationId: string, socialId: string, attributes: map<string, Value>,
                                   providers: set<string>, newUserId: int, millis: int, issue: int -> string)
      returns (redirect: string)
      modifies this
      ensures var provider := ToUpper(registrationId);
        var email := ExtractEmail(provider, attributes);
        if provider !in providers || email == NotAString then
          redirect == HandlerException && users == old(users) && socialAccounts == old(socialAccounts)
        else if email == Absent then
          redirect == EmailNotFound && users == old(users) && socialAccounts == old(socialAccounts)
        else if email.s !in old(users) && ExtractNickname(provider, attributes, millis) == NotAString then
          redirect == HandlerException && users == old(users) && socialAccounts == old(socialAccounts)
        else
          var e := email.s;
          users == (if e in old(users) then old(users)
                    else old(users)[e := User(newUserId, ExtractNickname(provider, attributes, millis).s)]) &&
          socialAccounts == (if (socialId, provider) in old(socialAccounts) then old(socialAccounts)
                             else old(socialAccounts)[(socialId, provider) := users[e].id]) &&
          redirect == SuccessRedirect(issue(users[e].id))
    {
      var provider := ToUpper(registrationId);
      if provider !in providers {
        return HandlerException;
      }
      var email := ExtractEmail(provider, attributes);
      if email == NotAString {
        return HandlerException;
      }
      if email == Absent {
        return EmailNotFound;
      }
      var e := email.s;
      if e !in users {
        var nickname := ExtractNickname(provider, attributes, millis);
        if nickname == NotAString {
          return HandlerException;
        }
        users := users[e := User(newUserId, nickname.s)];
      }
      var user := users[e];
      if (socialId, provider) !in socialAccounts {
        socialAccounts := socialAccounts[(socialId, provider) := user.id];
      }
      redirect := SuccessRedirect(issue(user.id));
    }
  }

  /** The registration ids arrive in lower case and match once upper-cased. */
  lemma RegistrationIdsMatch()
    ensures ToUpper("kakao") == Kakao && ToUpper("google") == Google && ToUpper("naver") == Naver
  {
    UpperOf("kakao", Kakao);
    UpperOf("google", Google);
    UpperOf("naver", Naver);
  }

  /** `u` is `s` upper-cased when it is `s` with each lower-case letter shifted. */
  lemma UpperOf(s: string, u: string)
    requires |s| == |u|
    requires forall i :: 0 <= i < |s| ==> 'a' <= s[i] <= 'z' && u[i] as int == s[i] as int - 32
    ensures ToUpper(s) == u
  {
    var r := ToUpper(s);
    forall i | 0 <= i < |s| ensures r[i] == u[i] {
    }
  }
}
