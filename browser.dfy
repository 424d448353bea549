/** The browser state the session code touches: the two Web Storage areas and
    the current location. */
module Browser {
  import opened Js

  /** The storage key under which the session token is kept. */
  const TokenKey := "token"

  /** `storage.getItem(key)`: the stored string, or `null` when the key is absent. */
  function GetItem(storage: map<string, string>, key: string): (r: JsString)
    ensures r == Null || r.Str?
    ensures r.Str? <==> key in storage
    ensures r.Str? ==> r.s == storage[key]
  {
    if key in storage then Str(storage[key]) else Null
  }

  class Window {
    var localStorage: map<string, string>
    var sessionStorage: map<string, string>
    /** `window.location.href`, kept as the recorded navigation target. */
    var href: string

    constructor (local: map<string, string>, session: map<string, string>, location: string)
      ensures localStorage == local && sessionStorage == session && href == location
    {
      localStorage, sessionStorage, href := local, session, location;
    }

    /** `localStorage.setItem(key, value)`. */
    method SetLocalItem(key: string, value: string)
      modifies this`localStorage
      ensures localStorage == old(localStorage)[key := value]
    {
      localStorage := localStorage[key := value];
    }

    /** `localStorage.removeItem(key)`. */
    method RemoveLocalItem(key: string)
      modifies this`localStorage
      ensures localStorage == old(localStorage) - {key}
      ensures GetItem(localStorage, key) == Null
    {
      localStorage := localStorage - {key};
    }
  }
}
