/**
 * mangadex/routes/auth.py: the login, token check, logout and token refresh
 * routes, their argument checks and the requests they build.
 */
module AuthRoutes {
  import opened Wrappers
  import opened Python
  import opened Patterns
  import opened Routes

  /** A constructed `Login` route: the checked password and the username and email as given. */
  datatype Login = Login(password: string, username: PyValue, email: PyValue)

  /** What a `Login` accepts, stated independently of the order of the checks. */
  predicate LoginAcceptable(password: PyValue, username: PyValue, email: PyValue) {
    && password.PStr? && 8 <= |password.s| <= 1024
    && !(username.PNone? && email.PNone?)
    && (!Truthy(username) || (username.PStr? && |username.s| <= 64))
    && (!Truthy(email) || (email.PStr? && MatchesEmailPattern(email.s)))
  }

  /** `Login(password, username, email)`: the password is checked first, then that some
      identity is given (an empty username counts), then a truthy username, then a truthy
      email. */
  function NewLogin(password: PyValue, username: PyValue, email: PyValue): (r: Result<Login, PyError>)
    ensures r.Ok? <==> LoginAcceptable(password, username, email)
    ensures r.Ok? ==> r.value == Login(password.s, username, email)
    ensures !password.PStr? ==> r == Err(ValueError("password must be str"))
    ensures password.PStr? && |password.s| < 8 ==> r == Err(ValueError("password must be 8 characters long"))
    ensures password.PStr? && |password.s| > 1024 ==>
              r == Err(ValueError("password cannot be more than 1024 characters long"))
    ensures password.PStr? && 8 <= |password.s| <= 1024 && username.PNone? && email.PNone? ==>
              r == Err(ValueError("at least provide a username or an email to login"))
    ensures password.PStr? && 8 <= |password.s| <= 1024 && Truthy(username) && !username.PStr? ==>
              r == Err(ValueError("username must be str"))
    ensures password.PStr? && 8 <= |password.s| <= 1024 && Truthy(username) && username.PStr? && |username.s| > 64 ==>
              r == Err(ValueError("username characters range must be from 1 to 64"))
    ensures password.PStr? && 8 <= |password.s| <= 1024 && (!Truthy(username) || (username.PStr? && |username.s| <= 64))
              && Truthy(email) && !email.PStr? ==>
              r == Err(ValueError("email must be str"))
    ensures password.PStr? && 8 <= |password.s| <= 1024 && (!Truthy(username) || (username.PStr? && |username.s| <= 64))
              && email.PStr? && Truthy(email) && !MatchesEmailPattern(email.s) ==>
              r == Err(ValueError("\"" + email.s + "\" is not valid email"))
  {
    if !password.PStr? then Err(ValueError("password must be str"))
    else if |password.s| < 8 then Err(ValueError("password must be 8 characters long"))
    else if |password.s| > 1024 then Err(ValueError("password cannot be more than 1024 characters long"))
    else if username.PNone? && email.PNone? then Err(ValueError("at least provide a username or an email to login"))
    else if Truthy(username) && !username.PStr? then Err(ValueError("username must be str"))
    else if Truthy(username) && (|username.s| > 64 || |username.s| <= 0) then
      Err(ValueError("username characters range must be from 1 to 64"))
    else if Truthy(email) && !email.PStr? then Err(ValueError("email must be str"))
    else if Truthy(email) && !MatchesEmailPattern(email.s) then
      Err(ValueError("\"" + email.s + "\" is not valid email"))
    else Ok(Login(password.s, username, email))
  }

  /** `Login.build_request`: a POST to `/auth/login` whose JSON body always holds the password
      and holds the username and the email exactly when they are truthy. */
  method LoginRequest(login: Login, headers: map<string, string>) returns (p: RequestParams)
    ensures p.verb == "POST" && p.url == BaseUrl + "/auth/login" && p.headers == headers
    ensures p.params.None? && p.json.Some?
    ensures p.json.value.Keys ==
              {"password"} + (if Truthy(login.username) then {"username"} else {})
                           + (if Truthy(login.email) then {"email"} else {})
    ensures p.json.value["password"] == PStr(login.password)
    ensures "username" in p.json.value ==> p.json.value["username"] == login.username
    ensures "email" in p.json.value ==> p.json.value["email"] == login.email
  {
    var data: map<string, PyValue> := map[];
    data := data["password" := PStr(login.password)];
    if Truthy(login.username) {
      data := data["username" := login.username];
    }
    if Truthy(login.email) {
      data := data["email" := login.email];
    }
    p := BuildRequest(Post, "/auth/login", headers).(json := Some(data));
  }

  /** `CheckToken(session_token).build_request()`: the token goes into the shared headers and a
      bodiless GET to `/auth/check` carries them. */
  method CheckToken(shared: SharedHeaders, sessionToken: PyValue) returns (r: Result<RequestParams, PyError>)
    modifies shared
    ensures !sessionToken.PStr? ==> r == Err(ValueError("token must be str")) && shared.entries == old(shared.entries)
    ensures sessionToken.PStr? ==>
              && shared.entries == old(shared.entries)["Authorization" := "Bearer " + sessionToken.s]
              && r == Ok(RequestParams("GET", BaseUrl + "/auth/check", shared.entries, None, None))
  {
    var err := shared.SetAuthToken(sessionToken);
    if err.Some? {
      return Err(err.value);
    }
    r := Ok(BuildRequest(Get, "/auth/check", shared.entries));
  }

  /** `Logout(session_token).build_request()`: as `CheckToken`, with a POST to `/auth/logout`. */
  method Logout(shared: SharedHeaders, sessionToken: PyValue) returns (r: Result<RequestParams, PyError>)
    modifies shared
    ensures !sessionToken.PStr? ==> r == Err(ValueError("token must be str")) && shared.entries == old(shared.entries)
    ensures sessionToken.PStr? ==>
              && shared.entries == old(shared.entries)["Authorization" := "Bearer " + sessionToken.s]
              && r == Ok(RequestParams("POST", BaseUrl + "/auth/logout", shared.entries, None, None))
  {
    var err := shared.SetAuthToken(sessionToken);
    if err.Some? {
      return Err(err.value);
    }
    r := Ok(BuildRequest(Post, "/auth/logout", shared.entries));
  }

  /** `RefreshToken(refresh_token).build_request()`: only a string token is accepted, and it is
      sent as the single entry of the JSON body of a POST to `/auth/refresh`. */
  function RefreshToken(refreshToken: PyValue, headers: map<string, string>): (r: Result<RequestParams, PyError>)
    ensures r.Ok? <==> refreshToken.PStr?
    ensures r.Err? ==> r.error == ValueError("token must be str")
    ensures r.Ok? ==> r.value.verb == "POST" && r.value.url == BaseUrl + "/auth/refresh"
                      && r.value.json == Some(map["token" := refreshToken]) && r.value.params.None?
  {
    if !refreshToken.PStr? then Err(ValueError("token must be str"))
    else Ok(BuildRequest(Post, "/auth/refresh", headers).(json := Some(map["token" := refreshToken])))
  }

  /** An empty username passes the identity check, is not checked further and is left out of
      the request body, so a login without any identity can be built. */
  lemma EmptyUsernameLogin(password: string)
    requires 8 <= |password| <= 1024
    ensures NewLogin(PStr(password), PStr(""), PNone) == Ok(Login(password, PStr(""), PNone))
  {
  }

  /** The checks of `Login` see only the password's length, not its content: every string of
      8 to 1024 characters is accepted for a username login. */
  lemma PasswordLengthBounds(password: string, username: string)
    requires 1 <= |username| <= 64
    ensures NewLogin(PStr(password), PStr(username), PNone).Ok? <==> 8 <= |password| <= 1024
  {
  }
}
