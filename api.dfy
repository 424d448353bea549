/** The API service: token helpers over local storage and the two interceptors
    of the shared HTTP client. */
module Api {
  import opened Js
  import opened Http
  import Browser

  const BearerPrefix := "Bearer "
  const AuthorizationHeader := "Authorization"
  const SignInPath := "/sign-in"
  const GenericError := "An error occurred"
  const Unauthorized := 401

  /** `getToken()`: local storage only, `null` when nothing is stored there. */
  function GetToken(w: Browser.Window): (r: JsString)
    reads w
    ensures r == Null <==> Browser.TokenKey !in w.localStorage
    ensures r != Null ==> r == Str(w.localStorage[Browser.TokenKey])
  {
    Browser.GetItem(w.localStorage, Browser.TokenKey)
  }

  /** `isAuthenticated()`: `!!getToken()`. */
  predicate IsAuthenticated(w: Browser.Window)
    reads w
    ensures IsAuthenticated(w) <==>
      Browser.TokenKey in w.localStorage && w.localStorage[Browser.TokenKey] != ""
  {
    Truthy(GetToken(w))
  }

  /** `saveToken(token)`: writes local storage and nothing else. */
  method SaveToken(w: Browser.Window, token: string)
    modifies w`localStorage
    ensures w.localStorage == old(w.localStorage)[Browser.TokenKey := token]
    ensures GetToken(w) == Str(token)
    ensures IsAuthenticated(w) <==> token != ""
  {
    w.SetLocalItem(Browser.TokenKey, token);
  }

  /** `removeToken()`. */
  method RemoveToken(w: Browser.Window)
    modifies w`localStorage
    ensures w.localStorage == old(w.localStorage) - {Browser.TokenKey}
    ensures GetToken(w) == Null && !IsAuthenticated(w)
  {
    w.RemoveLocalItem(Browser.TokenKey);
  }

  /** The `Authorization` value the request interceptor attaches for a stored
      token, if any: present exactly when the token is truthy, and always the
      bearer prefix with the token recoverable after it. */
  function BearerFor(stored: JsString): (r: Option<string>)
    ensures r.Some? <==> Truthy(stored)
    ensures r.Some? ==> |r.value| > |BearerPrefix| && r.value[..|BearerPrefix|] == BearerPrefix
    ensures r.Some? ==> r.value[|BearerPrefix|..] == stored.s
  {
    if Truthy(stored) then Some(BearerPrefix + stored.s) else None
  }

  /** A request's configuration; the request interceptor edits its headers in place. */
  class RequestConfig {
    var headers: map<string, string>

    constructor (initial: map<string, string>)
      ensures headers == initial
    {
      headers := initial;
    }
  }

  /** The request interceptor: attaches `Bearer <token>` when local storage
      holds a non-empty token, and otherwise leaves the headers alone. Session
      storage plays no part. */
  method InterceptRequest(w: Browser.Window, config: RequestConfig) returns (out: RequestConfig)
    modifies config
    ensures out == config
    ensures BearerFor(GetToken(w)).Some? ==>
      config.headers == old(config.headers)[AuthorizationHeader := BearerFor(GetToken(w)).value]
    ensures BearerFor(GetToken(w)).None? ==> config.headers == old(config.headers)
  {
    var token := GetToken(w);
    if Truthy(token) {
      config.headers := config.headers[AuthorizationHeader := BearerPrefix + token.s];
    }
    out := config;
  }

  /** How a request or response promise settles after an interceptor. */
  datatype Settled<T> = Resolved(value: T) | Rejected(error: HttpError)

  predicate IsUnauthorized(e: HttpError) {
    e.response.Some? && e.response.value.status == Unauthorized
  }

  /** The message the response interceptor logs: the server's message, else the
      transport message, else a fixed text. */
  function ErrorMessage(e: HttpError): (r: string)
    ensures r != ""
    ensures Truthy(ServerMessage(e)) ==> r == ServerMessage(e).s
    ensures !Truthy(ServerMessage(e)) && Truthy(e.message) ==> r == e.message.s
    ensures !Truthy(ServerMessage(e)) && !Truthy(e.message) ==> r == GenericError
  {
    ToStr(Or(Or(ServerMessage(e), e.message), Str(GenericError)))
  }

  /** The response interceptor. A successful response passes through with no
      effect. An error is always re-rejected unchanged, after its message is
      logged (returned here as `logged`); a 401 also removes the stored token
      and navigates to the sign-in page. */
  method InterceptResponse(w: Browser.Window, settled: Settled<Http.Response>)
    returns (out: Settled<Http.Response>, logged: Option<string>)
    modifies w`localStorage, w`href
    ensures out == settled
    ensures settled.Resolved? ==>
      logged == None && w.localStorage == old(w.localStorage) && w.href == old(w.href)
    ensures settled.Rejected? ==> logged == Some(ErrorMessage(settled.error))
    ensures settled.Rejected? && IsUnauthorized(settled.error) ==>
      w.localStorage == old(w.localStorage) - {Browser.TokenKey} && w.href == SignInPath
    ensures settled.Rejected? && !IsUnauthorized(settled.error) ==>
      w.localStorage == old(w.localStorage) && w.href == old(w.href)
  {
    out, logged := settled, None;
    if settled.Rejected? {
      var e := settled.error;
      if IsUnauthorized(e) {
        w.RemoveLocalItem(Browser.TokenKey);
        w.href := SignInPath;
      }
      logged := Some(ErrorMessage(e));
    }
  }
}
