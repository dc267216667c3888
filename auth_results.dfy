/**
 * mangadex/http/result/auth.py: the wrappers around the JSON bodies of the
 * authentication endpoints. Each accessor is a `.get` on a value that must be
 * a dict; anything else has no `.get` and raises `AttributeError`.
 */
module AuthResults {
  import opened Wrappers
  import opened Python

  /** `x.get(key)` on an arbitrary value. */
  function GetAttr(x: PyValue, key: string): (r: Result<PyValue, PyError>)
    ensures r.Ok? <==> x.PDict?
    ensures r.Err? ==> r.error == AttributeError
    ensures r.Ok? && key !in x.entries ==> r.value == PNone
    ensures r.Ok? && key in x.entries ==> r.value == x.entries[key]
  {
    if x.PDict? then Ok(Get(x.entries, key)) else Err(AttributeError)
  }

  /** `bool(AuthResult(data))`, shared by `LoginResult`, `LogoutResult` and
      `RefreshTokenResult`: true exactly when the `result` entry is the string `ok`. */
  function AuthResultTruth(data: PyValue): (r: Result<bool, PyError>)
    ensures r.Ok? <==> data.PDict?
    ensures r == Ok(true) <==> data.PDict? && "result" in data.entries && data.entries["result"] == PStr("ok")
  {
    match GetAttr(data, "result")
    case Ok(v) => Ok(v == PStr("ok"))
    case Err(e) => Err(e)
  }

  /** `bool(CheckTokenResult(data))`: `__bool__` hands back the `isAuthenticated` entry itself,
      which Python accepts only when it is a bool; anything else, a missing entry included,
      raises `TypeError`. */
  function CheckTokenTruth(data: PyValue): (r: Result<bool, PyError>)
    ensures r.Ok? <==> data.PDict? && "isAuthenticated" in data.entries && data.entries["isAuthenticated"].PBool?
    ensures r.Ok? ==> r.value == data.entries["isAuthenticated"].b
    ensures data.PDict? && r.Err? ==> r.error == TypeError
  {
    match GetAttr(data, "isAuthenticated")
    case Ok(v) => if v.PBool? then Ok(v.b) else Err(TypeError)
    case Err(e) => Err(e)
  }

  /** The `token` entry a `Token` keeps; reading it already needs `data` to be a dict. */
  function TokenOf(data: PyValue): Result<PyValue, PyError> {
    GetAttr(data, "token")
  }

  /** `Token.session_token` and `Token.refresh_token`: the `session` or `refresh` entry of the
      `token` object. */
  function TokenEntry(data: PyValue, which: string): (r: Result<PyValue, PyError>)
    requires which in {"session", "refresh"}
    ensures r.Ok? <==> data.PDict? && "token" in data.entries && data.entries["token"].PDict?
    ensures r.Ok? ==> r.value == Get(data.entries["token"].entries, which)
  {
    match TokenOf(data)
    case Ok(t) => GetAttr(t, which)
    case Err(e) => Err(e)
  }

  /** `CheckTokenResult.roles`, `.permissions` and `RefreshTokenResult.message`: the entry of
      the same name, `None` when missing. */
  function DataEntry(data: PyValue, name: string): (r: Result<PyValue, PyError>)
    requires name in {"roles", "permissions", "message"}
    ensures r.Ok? <==> data.PDict?
    ensures r.Ok? ==> r.value == Get(data.entries, name)
  {
    GetAttr(data, name)
  }

  /** The two truthiness rules disagree: an `ok` body that says the token is not authenticated
      makes an `AuthResult` true but a `CheckTokenResult` false, and an `ok` body without
      `isAuthenticated` makes `bool()` of a `CheckTokenResult` raise. */
  lemma TruthinessRulesDiffer()
    ensures var d := PDict(map["result" := PStr("ok"), "isAuthenticated" := PBool(false)]);
            AuthResultTruth(d) == Ok(true) && CheckTokenTruth(d) == Ok(false)
    ensures var d := PDict(map["result" := PStr("ok")]);
            AuthResultTruth(d) == Ok(true) && CheckTokenTruth(d) == Err(TypeError)
  {
    var d := PDict(map["result" := PStr("ok"), "isAuthenticated" := PBool(false)]);
    assert "isAuthenticated" in d.entries;
  }

  /** A login body with both tokens gives them back through the accessors. */
  lemma LoginTokensRead(session: string, refresh: string)
    ensures var d := PDict(map["result" := PStr("ok"),
                               "token" := PDict(map["session" := PStr(session), "refresh" := PStr(refresh)])]);
            && AuthResultTruth(d) == Ok(true)
            && TokenEntry(d, "session") == Ok(PStr(session))
            && TokenEntry(d, "refresh") == Ok(PStr(refresh))
  {
  }
}
