/**
 * The browser services the client pages touch: the `authToken` entry of `localStorage`,
 * the router's current location, and a log of the other visible effects (toasts,
 * navigations, the page reload), in the order they were issued.
 */
module Browser {
  import opened Wrappers

  datatype Effect =
    | StoreToken(value: string)
    | RemoveToken
    | Toast(success: bool, text: string)
    | NavigateTo(path: string)
    | Reload

  /** JavaScript truthiness of `localStorage.getItem('authToken')`: null and the empty string are falsy. */
  predicate TokenTruthy(token: Option<string>) {
    token.Some? && token.value != ""
  }

  class BrowserContext {
    var authToken: Option<string>
    var pathname: string
    var effects: seq<Effect>

    constructor (storedToken: Option<string>, path: string)
      ensures authToken == storedToken && pathname == path && effects == []
    {
      authToken, pathname, effects := storedToken, path, [];
    }

    /** `localStorage.setItem('authToken', value)`. */
    method SetToken(value: string)
      modifies this
      ensures authToken == Some(value) && pathname == old(pathname)
      ensures effects == old(effects) + [StoreToken(value)]
    {
      authToken := Some(value);
      effects := effects + [StoreToken(value)];
    }

    /** `localStorage.removeItem('authToken')`: leaves no token, whether or not one was stored. */
    method RemoveToken()
      modifies this
      ensures authToken == None && pathname == old(pathname)
      ensures effects == old(effects) + [Effect.RemoveToken]
    {
      authToken := None;
      effects := effects + [Effect.RemoveToken];
    }

    /** `toast.success(text)` or `toast.error(text)`. */
    method ShowToast(success: bool, text: string)
      modifies this
      ensures authToken == old(authToken) && pathname == old(pathname)
      ensures effects == old(effects) + [Toast(success, text)]
    {
      effects := effects + [Toast(success, text)];
    }

    /** `navigate(path)`: the router's location becomes `path`. */
    method Navigate(path: string)
      modifies this
      ensures authToken == old(authToken) && pathname == path
      ensures effects == old(effects) + [NavigateTo(path)]
    {
      pathname := path;
      effects := effects + [NavigateTo(path)];
    }

    /** `window.location.reload()`: storage and location survive, in-memory page state does not. */
    method ReloadPage()
      modifies this
      ensures authToken == old(authToken) && pathname == old(pathname)
      ensures effects == old(effects) + [Reload]
    {
      effects := effects + [Reload];
    }
  }
}
