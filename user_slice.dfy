/** The `user` slice: the editable profile fields, its reducers, its listener
    on the profile fetch, and the update thunk reduced to the actions it
    settles with. */
module UserSlice {
  import opened Js
  import opened Http
  import A = Actions

  const UpdateFailed := "Failed to update profile"

  datatype UserState = UserState(
    firstName: JsString,
    lastName: JsString,
    email: JsString,
    isLoading: bool,
    error: JsString)

  const Initial := UserState(Str(""), Str(""), Str(""), false, Null)

  /** `value || ''`, the default applied to each field a profile payload fills in. */
  function OrEmpty(v: JsString): (r: JsString)
    ensures r.Str?
    ensures Truthy(v) ==> r == v
    ensures !Truthy(v) ==> r == Str("")
  {
    Or(v, Str(""))
  }

  /** The profile fields a `setUserProfile` or fetched payload fills in. */
  function Filled(s: UserState, p: A.ProfileBody): UserState {
    s.(firstName := OrEmpty(p.firstName), lastName := OrEmpty(p.lastName), email := OrEmpty(p.email))
  }

  /** The slice reducer: the new state after one action. */
  function Next(s: UserState, a: A.Action): UserState {
    match a
    case SetUserProfile(p) => Filled(s, p)
    case ClearUserProfile => s.(firstName := Str(""), lastName := Str(""), email := Str(""), error := Null)
    case ProfileFulfilled(p) => Filled(s, p)
    case UpdatePending => s.(isLoading := true, error := Null)
    case UpdateFulfilled(p) => s.(isLoading := false, firstName := p.firstName, lastName := p.lastName)
    case UpdateRejected(reason) => s.(isLoading := false, error := reason)
    case _ => s
  }

  /** The action the update thunk settles with. */
  function UpdateSettled(o: Outcome<A.ProfileBody>): (a: A.Action)
    ensures o.Ok? ==> a == A.UpdateFulfilled(o.body)
    ensures o.Err? ==> a.UpdateRejected? && Truthy(a.reason)
    ensures o.Err? && Truthy(ServerMessage(o.error)) ==> a == A.UpdateRejected(ServerMessage(o.error))
    ensures o.Err? && !Truthy(ServerMessage(o.error)) ==> a == A.UpdateRejected(Str(UpdateFailed))
  {
    match o
    case Ok(body) => A.UpdateFulfilled(body)
    case Err(e) => A.UpdateRejected(RejectionReason(e, UpdateFailed))
  }

  /** The slice's state object, updated field by field by its reducers. */
  class User {
    var firstName: JsString
    var lastName: JsString
    var email: JsString
    var isLoading: bool
    var error: JsString

    function State(): UserState
      reads this
    {
      UserState(firstName, lastName, email, isLoading, error)
    }

    constructor ()
      ensures firstName == Str("") && lastName == Str("") && email == Str("")
      ensures !isLoading && error == Null
      ensures State() == Initial
    {
      firstName, lastName, email := Str(""), Str(""), Str("");
      isLoading, error := false, Null;
    }

    /** `setUserProfile`: each field from the payload, `''` when it is missing or empty. */
    method SetUserProfile(p: A.ProfileBody)
      modifies this
      ensures firstName == OrEmpty(p.firstName) && lastName == OrEmpty(p.lastName)
      ensures email == OrEmpty(p.email)
      ensures isLoading == old(isLoading) && error == old(error)
    {
      firstName := Or(p.firstName, Str(""));
      lastName := Or(p.lastName, Str(""));
      email := Or(p.email, Str(""));
    }

    /** `clearUserProfile`: empties the fields and the error; `isLoading` is untouched. */
    method ClearUserProfile()
      modifies this
      ensures firstName == Str("") && lastName == Str("") && email == Str("") && error == Null
      ensures isLoading == old(isLoading)
    {
      firstName := Str("");
      lastName := Str("");
      email := Str("");
      error := Null;
    }

    /** The listener on `getUserProfile.fulfilled` from the auth slice. */
    method OnProfileFulfilled(p: A.ProfileBody)
      modifies this
      ensures firstName == OrEmpty(p.firstName) && lastName == OrEmpty(p.lastName)
      ensures email == OrEmpty(p.email)
      ensures isLoading == old(isLoading) && error == old(error)
    {
      firstName := Or(p.firstName, Str(""));
      lastName := Or(p.lastName, Str(""));
      email := Or(p.email, Str(""));
    }

    /** `updateUserProfile.pending`. */
    method OnUpdatePending()
      modifies this
      ensures isLoading && error == Null
      ensures firstName == old(firstName) && lastName == old(lastName) && email == old(email)
    {
      isLoading := true;
      error := Null;
    }

    /** `updateUserProfile.fulfilled`: the server's names verbatim, with no default. */
    method OnUpdateFulfilled(p: A.ProfileBody)
      modifies this
      ensures !isLoading && firstName == p.firstName && lastName == p.lastName
      ensures email == old(email) && error == old(error)
    {
      isLoading := false;
      firstName := p.firstName;
      lastName := p.lastName;
    }

    /** `updateUserProfile.rejected`: records the reason and keeps the fields. */
    method OnUpdateRejected(reason: JsString)
      modifies this
      ensures !isLoading && error == reason
      ensures firstName == old(firstName) && lastName == old(lastName) && email == old(email)
    {
      isLoading := false;
      error := reason;
    }

    /** The slice reducer as the store runs it: one action, handled or ignored. */
    method Apply(a: A.Action)
      modifies this
      ensures State() == Next(old(State()), a)
    {
      match a
      case SetUserProfile(p) => SetUserProfile(p);
      case ClearUserProfile => ClearUserProfile();
      case ProfileFulfilled(p) => OnProfileFulfilled(p);
      case UpdatePending => OnUpdatePending();
      case UpdateFulfilled(p) => OnUpdateFulfilled(p);
      case UpdateRejected(reason) => OnUpdateRejected(reason);
      case _ =>
    }
  }
}
