/**
 * The session flag of the admin editor: one local-storage key that holds a
 * fixed marker value while the owner is logged in (app/lib/auth.ts).
 */
module Auth {

  const AuthTokenKey: string := "portfolio_auth_token"
  const TokenValue: string := "authenticated_session"

  /** The browser's local storage, as seen by the three operations below;
      `hasWindow` is false on the server, where there is no storage. */
  class AuthStore {
    const hasWindow: bool
    var items: map<string, string>

    constructor (hasWindow: bool, items: map<string, string>)
      ensures this.hasWindow == hasWindow && this.items == items
    {
      this.hasWindow := hasWindow;
      this.items := items;
    }

    /** The session is authenticated when the key holds exactly the marker;
        the specification of `IsAuthenticated`. */
    predicate Authenticated()
      reads this
    {
      hasWindow && AuthTokenKey in items && items[AuthTokenKey] == TokenValue
    }

    /** `setAuthToken`: stores the marker under the key; nothing else changes. */
    method SetAuthToken()
      modifies this
      ensures hasWindow ==> items == old(items)[AuthTokenKey := TokenValue]
      ensures !hasWindow ==> items == old(items)
      ensures Authenticated() <==> hasWindow
      ensures forall k :: k != AuthTokenKey ==>
        (k in items <==> k in old(items)) && (k in items ==> items[k] == old(items)[k])
    {
      if hasWindow {
        items := items[AuthTokenKey := TokenValue];
      }
    }

    /** `removeAuthToken`: deletes the key; nothing else changes. */
    method RemoveAuthToken()
      modifies this
      ensures hasWindow ==> items == old(items) - {AuthTokenKey}
      ensures !hasWindow ==> items == old(items)
      ensures !Authenticated()
      ensures forall k :: k != AuthTokenKey ==>
        (k in items <==> k in old(items)) && (k in items ==> items[k] == old(items)[k])
    {
      if hasWindow {
        items := items - {AuthTokenKey};
      }
    }

    /** `isAuthenticated`: true exactly when a window exists and the key holds
        the marker; any other stored value reads as logged out. */
    method IsAuthenticated() returns (b: bool)
      ensures b <==> hasWindow && AuthTokenKey in items && items[AuthTokenKey] == TokenValue
      ensures b == Authenticated()
    {
      if hasWindow {
        b := AuthTokenKey in items && items[AuthTokenKey] == TokenValue;
      } else {
        b := false;
      }
    }
  }

  /** Setting twice leaves the same store as setting once. */
  method SetIsIdempotent(store: AuthStore)
    modifies store
    ensures store.items == (if store.hasWindow then old(store.items)[AuthTokenKey := TokenValue] else old(store.items))
  {
    store.SetAuthToken();
    store.SetAuthToken();
  }

  /** Removing twice leaves the same store as removing once. */
  method RemoveIsIdempotent(store: AuthStore)
    modifies store
    ensures store.items == (if store.hasWindow then old(store.items) - {AuthTokenKey} else old(store.items))
  {
    store.RemoveAuthToken();
    store.RemoveAuthToken();
  }
}
