/** The `auth` slice: session state, its reducers, and the login and
    profile-fetch thunks reduced to the actions they settle with. */
module AuthSlice {
  import opened Js
  import opened Http
  import A = Actions
  import Browser

  const LoginFailed := "Login failed"
  const ProfileFailed := "Failed to fetch profile"

  datatype AuthState = AuthState(
    user: Option<A.ProfileBody>,
    token: JsString,
    isLoading: bool,
    error: JsString,
    isAuthenticated: bool)

  /** `localStorage.getItem('token') || null`: the stored token when it is a
      non-empty string, `null` otherwise. */
  function StoredToken(local: map<string, string>): (t: JsString)
    ensures t == Null || Truthy(t)
    ensures Truthy(t) <==> Browser.TokenKey in local && local[Browser.TokenKey] != ""
    ensures Truthy(t) ==> t.s == local[Browser.TokenKey]
  {
    Or(Browser.GetItem(local, Browser.TokenKey), Null)
  }

  /** The slice's initial state, read from local storage when the store is created. */
  function Initial(local: map<string, string>): AuthState {
    AuthState(None, StoredToken(local), false, Null, false)
  }

  /** The slice reducer: the new state after one action. */
  function Next(s: AuthState, a: A.Action): AuthState {
    match a
    case Logout => s.(user := None, token := Null, isAuthenticated := false, error := Null)
    case ClearError => s.(error := Null)
    case LoginPending => s.(isLoading := true, error := Null)
    case LoginFulfilled(body) => s.(isLoading := false, token := body.token, isAuthenticated := true)
    case LoginRejected(reason) => s.(isLoading := false, error := reason, isAuthenticated := false)
    case ProfilePending => s.(isLoading := true, error := Null)
    case ProfileFulfilled(p) => s.(isLoading := false, user := Some(p), isAuthenticated := true)
    case ProfileRejected(reason) =>
      s.(isLoading := false, error := reason, token := Null, isAuthenticated := false)
    case _ => s
  }

  /** What the slice reducer writes to local storage for one action. */
  function NextStorage(local: map<string, string>, a: A.Action): map<string, string> {
    match a
    case Logout => local - {Browser.TokenKey}
    case LoginFulfilled(body) => local[Browser.TokenKey := ToStr(body.token)]
    case ProfileRejected(_) => local - {Browser.TokenKey}
    case _ => local
  }

  /** The action the login thunk settles with. */
  function LoginSettled(o: Outcome<A.LoginBody>): (a: A.Action)
    ensures o.Ok? ==> a == A.LoginFulfilled(o.body)
    ensures o.Err? ==> a.LoginRejected? && Truthy(a.reason)
    ensures o.Err? && Truthy(ServerMessage(o.error)) ==> a == A.LoginRejected(ServerMessage(o.error))
    ensures o.Err? && !Truthy(ServerMessage(o.error)) ==> a == A.LoginRejected(Str(LoginFailed))
  {
    match o
    case Ok(body) => A.LoginFulfilled(body)
    case Err(e) => A.LoginRejected(RejectionReason(e, LoginFailed))
  }

  /** The action the profile-fetch thunk settles with. */
  function ProfileSettled(o: Outcome<A.ProfileBody>): (a: A.Action)
    ensures o.Ok? ==> a == A.ProfileFulfilled(o.body)
    ensures o.Err? ==> a.ProfileRejected? && Truthy(a.reason)
    ensures o.Err? && Truthy(ServerMessage(o.error)) ==> a == A.ProfileRejected(ServerMessage(o.error))
    ensures o.Err? && !Truthy(ServerMessage(o.error)) ==> a == A.ProfileRejected(Str(ProfileFailed))
  {
    match o
    case Ok(body) => A.ProfileFulfilled(body)
    case Err(e) => A.ProfileRejected(RejectionReason(e, ProfileFailed))
  }

  /** The `Authorization` header the profile thunks (fetch and update) send: built from the
      slice's token by a template literal, so it is sent even without a token. */
  function ThunkAuthorization(token: JsString): (h: string)
    ensures |h| >= 7 && h[..7] == "Bearer "
    ensures token.Str? ==> h == "Bearer " + token.s
    ensures token == Null ==> h == "Bearer null"
    ensures token == Undefined ==> h == "Bearer undefined"
  {
    "Bearer " + ToStr(token)
  }

  /** The slice's state object, updated field by field by its reducers. */
  class Auth {
    var user: Option<A.ProfileBody>
    var token: JsString
    var isLoading: bool
    var error: JsString
    var isAuthenticated: bool

    function State(): AuthState
      reads this
    {
      AuthState(user, token, isLoading, error, isAuthenticated)
    }

    constructor (w: Browser.Window)
      ensures user == None && token == StoredToken(w.localStorage)
      ensures !isLoading && error == Null && !isAuthenticated
      ensures State() == Initial(w.localStorage)
    {
      user := None;
      token := Or(Browser.GetItem(w.localStorage, Browser.TokenKey), Null);
      isLoading := false;
      error := Null;
      isAuthenticated := false;
    }

    /** `logout`: clears the session and the stored token; `isLoading` is left alone. */
    method Logout(w: Browser.Window)
      modifies this, w`localStorage
      ensures user == None && token == Null && !isAuthenticated && error == Null
      ensures isLoading == old(isLoading)
      ensures w.localStorage == old(w.localStorage) - {Browser.TokenKey}
    {
      user := None;
      token := Null;
      isAuthenticated := false;
      error := Null;
      w.RemoveLocalItem(Browser.TokenKey);
    }

    /** `clearError`. */
    method ClearError()
      modifies this
      ensures error == Null
      ensures user == old(user) && token == old(token)
      ensures isLoading == old(isLoading) && isAuthenticated == old(isAuthenticated)
    {
      error := Null;
    }

    /** `login.pending` and `getUserProfile.pending`, which do the same. */
    method OnPending()
      modifies this
      ensures isLoading && error == Null
      ensures user == old(user) && token == old(token) && isAuthenticated == old(isAuthenticated)
    {
      isLoading := true;
      error := Null;
    }

    /** `login.fulfilled`: stores the token in the slice and in local storage
      and already marks the session authenticated. */
    method OnLoginFulfilled(body: A.LoginBody, w: Browser.Window)
      modifies this, w`localStorage
      ensures !isLoading && token == body.token && isAuthenticated
      ensures user == old(user) && error == old(error)
      ensures w.localStorage == old(w.localStorage)[Browser.TokenKey := ToStr(body.token)]
    {
      isLoading := false;
      token := body.token;
      isAuthenticated := true;
      w.SetLocalItem(Browser.TokenKey, ToStr(body.token));
    }

    /** `login.rejected`: records the reason; the token is kept. */
    method OnLoginRejected(reason: JsString)
      modifies this
      ensures !isLoading && error == reason && !isAuthenticated
      ensures user == old(user) && token == old(token)
    {
      isLoading := false;
      error := reason;
      isAuthenticated := false;
    }

    /** `getUserProfile.fulfilled`: keeps the profile and marks the session authenticated. */
    method OnProfileFulfilled(profile: A.ProfileBody)
      modifies this
      ensures !isLoading && user == Some(profile) && isAuthenticated
      ensures token == old(token) && error == old(error)
    {
      isLoading := false;
      user := Some(profile);
      isAuthenticated := true;
    }

    /** `getUserProfile.rejected`: ends the session and drops the stored token;
      the last profile is kept. */
    method OnProfileRejected(reason: JsString, w: Browser.Window)
      modifies this, w`localStorage
      ensures !isLoading && error == reason && token == Null && !isAuthenticated
      ensures user == old(user)
      ensures w.localStorage == old(w.localStorage) - {Browser.TokenKey}
    {
      isLoading := false;
      error := reason;
      token := Null;
      isAuthenticated := false;
      w.RemoveLocalItem(Browser.TokenKey);
    }

    /** The slice reducer as the store runs it: one action, handled or ignored. */
    method Apply(a: A.Action, w: Browser.Window)
      modifies this, w`localStorage
      ensures State() == Next(old(State()), a)
      ensures w.localStorage == NextStorage(old(w.localStorage), a)
    {
      match a
      case Logout => Logout(w);
      case ClearError => ClearError();
      case LoginPending => OnPending();
      case LoginFulfilled(body) => OnLoginFulfilled(body, w);
      case LoginRejected(reason) => OnLoginRejected(reason);
      case ProfilePending => OnPending();
      case ProfileFulfilled(p) => OnProfileFulfilled(p);
      case ProfileRejected(reason) => OnProfileRejected(reason, w);
      case _ =>
    }
  }
}
