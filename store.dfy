/** The root store: the `auth` and `user` slices side by side over one
    browser window, with every action handed to both slice reducers. */
module Store {
  import A = Actions
  import AuthSlice
  import UserSlice
  import Browser

  datatype RootState = RootState(
    auth: AuthSlice.AuthState,
    user: UserSlice.UserState,
    local: map<string, string>)

  function InitialState(local: map<string, string>): RootState {
    RootState(AuthSlice.Initial(local), UserSlice.Initial, local)
  }

  /** One dispatch: the auth reducer (with its storage writes), then the user reducer. */
  function Next(s: RootState, a: A.Action): RootState {
    RootState(AuthSlice.Next(s.auth, a), UserSlice.Next(s.user, a), AuthSlice.NextStorage(s.local, a))
  }

  class RootStore {
    const auth: AuthSlice.Auth
    const user: UserSlice.User
    const window: Browser.Window

    function State(): RootState
      reads auth, user, window
    {
      RootState(auth.State(), user.State(), window.localStorage)
    }

    constructor (w: Browser.Window)
      ensures window == w && fresh(auth) && fresh(user)
      ensures State() == InitialState(w.localStorage)
    {
      auth := new AuthSlice.Auth(w);
      user := new UserSlice.User();
      window := w;
    }

    method Dispatch(a: A.Action)
      modifies auth, user, window`localStorage
      ensures State() == Next(old(State()), a)
      ensures window.sessionStorage == old(window.sessionStorage) && window.href == old(window.href)
    {
      auth.Apply(a, window);
      user.Apply(a);
    }
  }
}
