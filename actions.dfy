/** The actions the root store dispatches: the slices' own reducers and the
    pending/fulfilled/rejected actions of the three async thunks. */
module Actions {
  import opened Js

  /** `response.data.body` of a login call. */
  datatype LoginBody = LoginBody(token: JsString)

  /** `response.data.body` of a profile fetch or update (and the argument of `setUserProfile`). */
  datatype ProfileBody = ProfileBody(firstName: JsString, lastName: JsString, email: JsString)

  datatype Action =
    | Logout
    | ClearError
    | LoginPending
    | LoginFulfilled(login: LoginBody)
    | LoginRejected(reason: JsString)
    | ProfilePending
    | ProfileFulfilled(profile: ProfileBody)
    | ProfileRejected(reason: JsString)
    | SetUserProfile(profile: ProfileBody)
    | ClearUserProfile
    | UpdatePending
    | UpdateFulfilled(profile: ProfileBody)
    | UpdateRejected(reason: JsString)
}
