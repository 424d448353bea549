/** Properties of the session as a whole: what a run of dispatched actions
    leaves behind, the invariants every thunk-delivered action keeps, and how
    the slices relate to the API service's token rules. */
module Session {
  import opened Js
  import A = Actions
  import AuthSlice
  import UserSlice
  import Browser
  import Api
  import Http
  import opened Store

  /** The root state after dispatching `acts` in order. */
  function Run(s: RootState, acts: seq<A.Action>): RootState
    decreases |acts|
  {
    if acts == [] then s else Run(Next(s, acts[0]), acts[1..])
  }

  /** Dispatching one more action extends a run by one step. */
  lemma {:induction false} RunSnoc(s: RootState, acts: seq<A.Action>, a: A.Action)
    ensures Run(s, acts + [a]) == Next(Run(s, acts), a)
    decreases |acts|
  {
    if acts == [] {
      assert [] + [a] == [a];
    } else {
      assert (acts + [a])[1..] == acts[1..] + [a];
      RunSnoc(Next(s, acts[0]), acts[1..], a);
    }
  }

  /** The token left by the last action of `acts` that writes one (a login
      that succeeds, a logout, a failed profile fetch), or `init` if none does. */
  function LastToken(init: JsString, acts: seq<A.Action>): JsString
    decreases |acts|
  {
    if acts == [] then init
    else
      var a := acts[|acts| - 1];
      if a.LoginFulfilled? then a.login.token
      else if a.Logout? || a.ProfileRejected? then Null
      else LastToken(init, acts[..|acts| - 1])
  }

  /** The session token is the one written by the last action to resolve,
      whatever came before it. */
  lemma {:induction false} TokenIsLastWrite(s: RootState, acts: seq<A.Action>)
    ensures Run(s, acts).auth.token == LastToken(s.auth.token, acts)
    decreases |acts|
  {
    if acts != [] {
      var front, last := acts[..|acts| - 1], acts[|acts| - 1];
      assert acts == front + [last];
      RunSnoc(s, front, last);
      TokenIsLastWrite(s, front);
    }
  }

  /** The verdict of the last action of `acts` that decides authentication:
      a fulfilled login or profile fetch says yes; a rejected one, or a logout,
      says no. `init` if no action decides. */
  function LastVerdict(init: bool, acts: seq<A.Action>): bool
    decreases |acts|
  {
    if acts == [] then init
    else
      var a := acts[|acts| - 1];
      if a.LoginFulfilled? || a.ProfileFulfilled? then true
      else if a.LoginRejected? || a.ProfileRejected? || a.Logout? then false
      else LastVerdict(init, acts[..|acts| - 1])
  }

  lemma {:induction false} AuthenticatedIsLastVerdict(s: RootState, acts: seq<A.Action>)
    ensures Run(s, acts).auth.isAuthenticated == LastVerdict(s.auth.isAuthenticated, acts)
    decreases |acts|
  {
    if acts != [] {
      var front, last := acts[..|acts| - 1], acts[|acts| - 1];
      assert acts == front + [last];
      RunSnoc(s, front, last);
      AuthenticatedIsLastVerdict(s, front);
    }
  }

  /** The in-memory token is what a fresh load would read back from local storage. */
  predicate Coherent(s: RootState) {
    s.auth.token == AuthSlice.StoredToken(s.local)
  }

  /** Each slice's error is either absent or a message that can be shown. */
  predicate ErrorsShown(s: RootState) {
    (s.auth.error == Null || Truthy(s.auth.error)) && (s.user.error == Null || Truthy(s.user.error))
  }

  predicate Inv(s: RootState) {
    Coherent(s) && ErrorsShown(s)
  }

  /** An action as the thunks deliver it, from a server whose login body
      carries a non-empty token. */
  predicate Admissible(a: A.Action) {
    (a.LoginFulfilled? ==> Truthy(a.login.token)) &&
    (a.LoginRejected? || a.ProfileRejected? || a.UpdateRejected? ==> Truthy(a.reason))
  }

  lemma InitialInv(local: map<string, string>)
    ensures Inv(InitialState(local))
  {
  }

  lemma InvStep(s: RootState, a: A.Action)
    requires Inv(s) && Admissible(a)
    ensures Inv(Next(s, a))
  {
  }

  /** Starting from a consistent state, any run of admissible actions keeps the
      token mirrored in local storage and every error displayable. */
  lemma {:induction false} InvRun(s: RootState, acts: seq<A.Action>)
    requires Inv(s)
    requires forall i :: 0 <= i < |acts| ==> Admissible(acts[i])
    ensures Inv(Run(s, acts))
    decreases |acts|
  {
    if acts != [] {
      InvStep(s, acts[0]);
      InvRun(Next(s, acts[0]), acts[1..]);
    }
  }

  /** Every rejection the thunks deliver is admissible; a delivered login is
      admissible exactly when its token is non-empty. */
  lemma SettledAdmissible(login: Http.Outcome<A.LoginBody>, fetch: Http.Outcome<A.ProfileBody>,
                          update: Http.Outcome<A.ProfileBody>)
    ensures Admissible(AuthSlice.LoginSettled(login)) <==> (login.Ok? ==> Truthy(login.body.token))
    ensures Admissible(AuthSlice.ProfileSettled(fetch))
    ensures Admissible(UserSlice.UpdateSettled(update))
  {
  }

  /** A login body without a token breaks coherence: the slice holds
      `undefined` while local storage holds the text "undefined", which a
      reload reads back as a token. */
  lemma MissingLoginTokenStoredAsText(s: RootState)
    ensures Next(s, A.LoginFulfilled(A.LoginBody(Undefined))).auth.token == Undefined
    ensures AuthSlice.StoredToken(Next(s, A.LoginFulfilled(A.LoginBody(Undefined))).local) == Str("undefined")
    ensures !Coherent(Next(s, A.LoginFulfilled(A.LoginBody(Undefined))))
  {
  }

  /** `logout` twice is `logout` once. */
  lemma LogoutIdempotent(s: RootState)
    ensures Next(Next(s, A.Logout), A.Logout) == Next(s, A.Logout)
  {
  }

  /** `logout` ends the session but leaves the profile slice as it was. */
  lemma LogoutKeepsProfile(s: RootState)
    ensures Next(s, A.Logout).user == s.user
    ensures Next(s, A.Logout).auth.token == Null && !Next(s, A.Logout).auth.isAuthenticated
    ensures Browser.TokenKey !in Next(s, A.Logout).local
  {
  }

  /** A fulfilled login alone already marks the session authenticated. */
  lemma LoginAloneAuthenticates(s: RootState, body: A.LoginBody)
    ensures Next(s, A.LoginFulfilled(body)).auth.isAuthenticated
    ensures Next(s, A.LoginFulfilled(body)).auth.token == body.token
    ensures Next(s, A.LoginFulfilled(body)).auth.user == s.auth.user
  {
  }

  /** Sign-in as it succeeds: login, then profile fetch. The session is
      authenticated with the login's token, and both slices hold the profile. */
  lemma SignInSucceeds(s: RootState, body: A.LoginBody, p: A.ProfileBody)
    ensures var t := Run(s, [A.LoginPending, A.LoginFulfilled(body), A.ProfilePending, A.ProfileFulfilled(p)]);
      t.auth.isAuthenticated && !t.auth.isLoading && t.auth.error == Null &&
      t.auth.token == body.token && t.auth.user == Some(p) &&
      t.user.firstName == UserSlice.OrEmpty(p.firstName) &&
      t.user.lastName == UserSlice.OrEmpty(p.lastName) &&
      t.user.email == UserSlice.OrEmpty(p.email) &&
      t.local == s.local[Browser.TokenKey := ToStr(body.token)]
  {
    var acts := [A.LoginPending, A.LoginFulfilled(body), A.ProfilePending, A.ProfileFulfilled(p)];
    var s1 := Next(s, A.LoginPending);
    var s2 := Next(s1, A.LoginFulfilled(body));
    var s3 := Next(s2, A.ProfilePending);
    assert acts[1..][1..][1..][1..] == [];
    assert Run(s3, acts[1..][1..][1..]) == Next(s3, A.ProfileFulfilled(p));
    assert Run(s2, acts[1..][1..]) == Run(s3, acts[1..][1..][1..]);
    assert Run(s1, acts[1..]) == Run(s2, acts[1..][1..]);
  }

  /** A failed profile fetch ends the session whatever preceded it, a
      successful login included. */
  lemma ProfileRejectionEndsSession(s: RootState, acts: seq<A.Action>, reason: JsString)
    ensures var t := Run(s, acts + [A.ProfileRejected(reason)]);
      t.auth.token == Null && !t.auth.isAuthenticated && !t.auth.isLoading &&
      t.auth.error == reason && Browser.TokenKey !in t.local
  {
    RunSnoc(s, acts, A.ProfileRejected(reason));
  }

  /** The actions the user slice defines. */
  predicate IsUserAction(a: A.Action) {
    a.SetUserProfile? || a.ClearUserProfile? || a.UpdatePending? || a.UpdateFulfilled? || a.UpdateRejected?
  }

  /** A successful profile fetch is the one action both slices handle: the
      user slice changes only on its own actions or on that one, and the
      user slice's own actions leave the session and local storage alone. */
  lemma OnlyProfileFetchReachesBothSlices(s: RootState, a: A.Action)
    ensures Next(s, a).user != s.user ==> IsUserAction(a) || a.ProfileFulfilled?
    ensures IsUserAction(a) ==> Next(s, a).auth == s.auth && Next(s, a).local == s.local
  {
  }

  /** A fulfilled update takes the server's names verbatim, not a merge with
      the previous local values, and keeps the email. */
  lemma UpdateEchoesServer(s: RootState, p: A.ProfileBody)
    ensures Next(s, A.UpdateFulfilled(p)).user.firstName == p.firstName
    ensures Next(s, A.UpdateFulfilled(p)).user.lastName == p.lastName
    ensures Next(s, A.UpdateFulfilled(p)).user.email == s.user.email
    ensures Next(s, A.UpdateFulfilled(p)).auth == s.auth
  {
  }

  /** After a 401, the local storage `Api.InterceptResponse` leaves behind is
      `s.local - {Browser.TokenKey}`. The slice still holds its token, but a
      reload from that storage starts signed out. */
  lemma UnauthorizedLeavesSliceStale(s: RootState)
    requires Coherent(s) && Truthy(s.auth.token)
    ensures AuthSlice.StoredToken(s.local - {Browser.TokenKey}) == Null
    ensures !Coherent(s.(local := s.local - {Browser.TokenKey}))
  {
  }

  /** The request interceptor (whose header is `Api.BearerFor` of the stored
      token) and the profile thunks attach the same `Authorization` value for
      a non-empty token; without one the interceptor sends nothing while the
      thunks still send "Bearer " followed by the coerced token: "Bearer " for
      an empty string, "Bearer null", or "Bearer undefined". */
  lemma HeaderRulesCompared(token: JsString)
    ensures Truthy(token) ==> Api.BearerFor(token) == Some(AuthSlice.ThunkAuthorization(token))
    ensures !Truthy(token) ==>
      Api.BearerFor(token) == None && AuthSlice.ThunkAuthorization(token) == "Bearer " + ToStr(token)
    ensures token == Str("") ==> AuthSlice.ThunkAuthorization(token) == "Bearer "
    ensures token == Null ==> AuthSlice.ThunkAuthorization(token) == "Bearer null"
    ensures token == Undefined ==> AuthSlice.ThunkAuthorization(token) == "Bearer undefined"
  {
  }
}
