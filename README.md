# Banking demo front end: session and profile state, in Dafny

This project models the client-side session of a banking demo front end.
That session is made of four parts:

- the Redux `auth` slice (token, authentication flag, loading and error flags, the fetched profile);
- the Redux `user` slice (first name, last name, email, loading and error flags);
- the root store that hands every action to both slices;
- the API service's token helpers and HTTP interceptors.

Browser storage and navigation are the fields of a `Browser.Window` object:
`localStorage` and `sessionStorage` as `map<string, string>`, and `href` as the
recorded navigation target.

JavaScript's `null` and `undefined` are kept apart (`Js.JsString`), because the code depends on the difference:

- a login body without a token stores the text `"undefined"`;
- a fulfilled update copies the server's fields verbatim, even when they are absent;
- the thunks' template-literal header reads `"Bearer null"` when there is no token.

`Js.Or` is JavaScript's `||` on these values.

## Layout

- `js.dfy`: `Js`. String-or-empty values, truthiness, `||` and `String(v)`.
- `http.dfy`: `Http`. The axios response and error shapes that are read, and the thunks' rejection fallback.
- `browser.dfy`: `Browser`. The window with its two storage areas, `getItem`, `setItem` and `removeItem`.
- `api.js` is modelled in `api.dfy` (`Api`): token helpers, both interceptors and the logged error message.
- `actions.dfy`: `Actions`. Every action the store dispatches.
- `auth_slice.dfy`: `AuthSlice`. The class `Auth` with one method per reducer. `Next` and `NextStorage` are the pure reducer, and `LoginSettled`/`ProfileSettled` give the actions the login and profile-fetch thunks settle with.
- `user_slice.dfy`: `UserSlice`. The class `User` with one method per reducer, `Next`, and the update thunk's settle function.
- `store.dfy`: `Store`. The root state `{auth, user}` plus local storage, and `RootStore.Dispatch`.
- `session.dfy`: `Session`. Runs of actions, invariants and scenarios.

Each slice class's `Apply` is proved to move its fields exactly as the pure `Next` does. `RootStore.Dispatch` is proved to do the same for the whole state. The lemmas in `Session` are about `Next` and `Run`.

Facts about the code that the model keeps, and that a reader might not expect:

- `login.fulfilled` sets `isAuthenticated` itself (`frontend/src/store/authSlice.js:79`), before any profile fetch (`LoginAloneAuthenticates`).
- `saveToken` writes local storage only. It never touches session storage.
- `getToken` reads local storage only. Session storage is never consulted.
- The three thunks call raw axios, so the interceptors do not apply to them. In particular, a 401 from a thunk does not redirect. The login thunk sends no `Authorization` header. The profile-fetch and update thunks build their own header from the slice's token (`ThunkAuthorization`).
- `logout` does not clear the user slice (`LogoutKeepsProfile`).

## Model

| member | source | states |
|---|---|---|
| Api.GetToken | frontend/src/services/api.js:120-122 | the local-storage token value, `null` exactly when the key is absent |
| Api.IsAuthenticated | frontend/src/services/api.js:135-137 | true exactly when a non-empty token is stored in local storage |
| Api.SaveToken | frontend/src/services/api.js:112-114 | only local storage's `token` key changes; afterwards `getToken` returns the saved token, and `isAuthenticated` holds iff it is non-empty |
| Api.RemoveToken | frontend/src/services/api.js:127-129 | only the `token` key is removed; afterwards `getToken` is `null` and `isAuthenticated` is false |
| Api.InterceptRequest | frontend/src/services/api.js:15-22 | returns the same config; sets `Authorization` to the `BearerFor` value of the local-storage token (present exactly when that token is non-empty, and the bearer prefix followed by the token), else leaves headers unchanged; session storage is not read |
| Api.ErrorMessage | frontend/src/services/api.js:42 | the server message if truthy, else the transport message if truthy, else `'An error occurred'`; never empty |
| Api.InterceptResponse | frontend/src/services/api.js:29-47 | the outcome is passed on unchanged (success resolves, error re-rejects with the same error); an error logs ErrorMessage; a 401 removes the stored token and sets the target to `/sign-in`; other outcomes leave storage and target unchanged |
| Http.RejectionReason | frontend/src/store/authSlice.js:23-25 | the server's `data.message` when truthy, otherwise the fixed fallback; truthy whenever the fallback is non-empty |
| AuthSlice.StoredToken | frontend/src/store/authSlice.js:9 | the initial token is the stored string when it is non-empty, `null` if it is absent or empty |
| AuthSlice.LoginSettled | frontend/src/store/authSlice.js:16-28 | success gives `login.fulfilled` with the body; any failure gives `login.rejected` with the server message, or `'Login failed'` when there is none |
| AuthSlice.ProfileSettled | frontend/src/store/authSlice.js:30-51 | success gives `getUserProfile.fulfilled` with the body; failure gives `getUserProfile.rejected` with the server message or `'Failed to fetch profile'` |
| AuthSlice.ThunkAuthorization | frontend/src/store/authSlice.js:39-41 | (and userSlice.js:26-28) the thunks always send `Bearer ` followed by the coerced slice token: the token itself for a string, `"Bearer null"` for null, `"Bearer undefined"` for undefined |
| AuthSlice.Auth.constructor | frontend/src/store/authSlice.js:7-13 | user null, token as StoredToken reads local storage, not loading, no error, not authenticated |
| AuthSlice.Auth.Logout | frontend/src/store/authSlice.js:58-64 | user, token and error become null; not authenticated; `isLoading` kept; `token` removed from local storage |
| AuthSlice.Auth.ClearError | frontend/src/store/authSlice.js:65-67 | only `error` changes, to null |
| AuthSlice.Auth.OnPending | frontend/src/store/authSlice.js:72-75 | (also `getUserProfile.pending`, lines 88-91) loading, error null, nothing else changes |
| AuthSlice.Auth.OnLoginFulfilled | frontend/src/store/authSlice.js:76-81 | not loading, token from the payload, authenticated, local storage `token` set to the payload token as a string; user and error kept |
| AuthSlice.Auth.OnLoginRejected | frontend/src/store/authSlice.js:82-86 | not loading, error is the payload, not authenticated; token, user and storage kept |
| AuthSlice.Auth.OnProfileFulfilled | frontend/src/store/authSlice.js:92-96 | not loading, user is the payload, authenticated; token and error kept |
| AuthSlice.Auth.OnProfileRejected | frontend/src/store/authSlice.js:97-103 | not loading, error is the payload, token null, not authenticated, `token` removed from storage; user kept |
| AuthSlice.Auth.Apply | frontend/src/store/authSlice.js:54-105 | the slice's fields and local storage move exactly as the pure reducer `Next`/`NextStorage` says; actions of other slices change nothing |
| UserSlice.OrEmpty | frontend/src/store/userSlice.js:46-48 | the `''` default of the payload fields is always a string: the value when truthy, `''` otherwise |
| UserSlice.UpdateSettled | frontend/src/store/userSlice.js:17-38 | success gives `updateUserProfile.fulfilled` with the body; failure gives the rejection with the server message or `'Failed to update profile'` |
| UserSlice.User.constructor | frontend/src/store/userSlice.js:8-14 | empty names and email, not loading, error null |
| UserSlice.User.SetUserProfile | frontend/src/store/userSlice.js:45-49 | the three fields from the payload, with `''` for a missing or empty one; `isLoading` and `error` kept |
| UserSlice.User.ClearUserProfile | frontend/src/store/userSlice.js:50-55 | names and email emptied, error null, `isLoading` kept |
| UserSlice.User.OnProfileFulfilled | frontend/src/store/userSlice.js:60-64 | the three fields overwritten from the fetched profile with `''` defaults; `isLoading` and `error` kept |
| UserSlice.User.OnUpdatePending | frontend/src/store/userSlice.js:66-69 | loading, error null, names and email kept |
| UserSlice.User.OnUpdateFulfilled | frontend/src/store/userSlice.js:70-74 | not loading, first and last name copied verbatim from the payload; email and error kept |
| UserSlice.User.OnUpdateRejected | frontend/src/store/userSlice.js:75-78 | not loading, error is the payload, names and email kept |
| UserSlice.User.Apply | frontend/src/store/userSlice.js:41-80 | the slice's fields move exactly as the pure reducer `Next` says |
| Store.RootStore.constructor | frontend/src/store/index.js:6-16 | the root state is the two slices' initial states over the given local storage |
| Store.RootStore.Dispatch | frontend/src/store/index.js:7-10 | one action updates both slices and local storage as the root `Next`; session storage and location untouched |
| Session.TokenIsLastWrite | frontend/src/store/authSlice.js:58-103 | after any run, the token is the one written by the last successful login, or null after a later logout or failed fetch (last resolved wins) |
| Session.AuthenticatedIsLastVerdict | frontend/src/store/authSlice.js:58-103 | after any run, `isAuthenticated` is the verdict of the last login/profile outcome or logout |
| Session.InitialInv | frontend/src/store/authSlice.js:7-13 | the initial state is coherent (token mirrors storage) and shows no invalid error |
| Session.InvRun | frontend/src/store/authSlice.js:76-103 | every run of admissible actions keeps the slice token equal to what a reload would read from storage, and every error null or a non-empty message |
| Session.SettledAdmissible | frontend/src/store/userSlice.js:33-35 | (with authSlice.js:23-25 and 46-48) every rejection a thunk delivers carries a non-empty message; a delivered login is admissible iff its token is non-empty |
| Session.MissingLoginTokenStoredAsText | frontend/src/store/authSlice.js:78-80 | a login body without a token leaves `undefined` in the slice and stores `"undefined"`, which a reload reads back as a token |
| Session.LogoutIdempotent | frontend/src/store/authSlice.js:58-64 | logging out twice yields the state of logging out once |
| Session.LogoutKeepsProfile | frontend/src/store/authSlice.js:58-64 | logout clears token, authentication and stored token but leaves the user slice as it was |
| Session.LoginAloneAuthenticates | frontend/src/store/authSlice.js:76-81 | a fulfilled login by itself sets `isAuthenticated` and the token, keeping the user |
| Session.SignInSucceeds | frontend/src/store/authSlice.js:72-96 | login then profile fetch, all fulfilled: authenticated with the login's token, both slices hold the profile, storage holds the token |
| Session.ProfileRejectionEndsSession | frontend/src/store/authSlice.js:97-103 | whatever came before, a failed profile fetch leaves no token, no authentication and no stored token |
| Session.OnlyProfileFetchReachesBothSlices | frontend/src/store/userSlice.js:60-64 | the user slice changes only on its own actions or a fulfilled profile fetch; its own actions leave the auth slice and storage alone |
| Session.UpdateEchoesServer | frontend/src/store/userSlice.js:70-74 | a fulfilled update takes the server's names, not a merge, keeps email and leaves the session alone |
| Session.UnauthorizedLeavesSliceStale | frontend/src/services/api.js:35-39 | on the local storage `InterceptResponse` leaves after a 401, a reload starts without a token, while the in-memory slice still holds the old one |
| Session.HeaderRulesCompared | frontend/src/services/api.js:17-20 | the interceptor's header (`BearerFor`, the reference its contract uses) and the profile thunks' header agree when a non-empty token exists; without a non-empty token the interceptor sends no header while the thunks send `"Bearer "` followed by the coerced token (`"Bearer "` for an empty string, `"Bearer null"`, `"Bearer undefined"`) |

## Left out

- The HTTP calls themselves are not modelled: the thunks' `axios.post` and `axios.put`, and `login`, `signup`, `getUserProfile` and `updateUserProfile` in the API service. They are network I/O through a library that is not part of this model. Each thunk is modelled by the action it settles with, given the outcome of its request (`Http.Outcome`).
- Async ordering: in-flight thunks can interleave, but actions are applied one at a time in arrival order. `Session.Run` has the last-resolved-wins behaviour this produces.
- `console.error` is not performed. Its message is returned by `Api.InterceptResponse` as `logged`.
- `window.location.href` is a recorded string field. No navigation happens.
- The store configuration in `frontend/src/store/index.js` is not modelled. The middleware settings and dev tools do not affect state, and only the two-slice shape is kept.
- `RejectionReason`, the settle functions and `Api.ErrorMessage`: a server `data.message` or a transport `message` that is not a string is not modelled. Payload fields such as `token`, `firstName`, `lastName` and `email` are strings, `null` or `undefined` only. A number there, which `setItem` or the reducers would carry as is or turn into text, is not modelled. Neither is a thunk payload that is not an object, where the reducers would throw.
- The request interceptor's error handler (`frontend/src/services/api.js:23-25`) only passes the error it is given on as a rejection. It is not modelled as a separate member.
- The pages, components and routing are not part of this model. This includes the sign-in page's "remember me" move of the token into session storage, and the mount-time profile fetch in `App.jsx`.
