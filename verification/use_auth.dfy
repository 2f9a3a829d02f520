/**
 * The authentication context of the client (src/hooks/use-auth.tsx): the
 * signed-in user, whether the first answer of the identity provider is
 * still awaited, and the user's connection code.
 *
 * An auth event is the provider's callback with the new user (None on
 * sign-out); the user document it reads is looked up in the store.
 */
module UseAuth {
  import opened Types
  import Db

  /** `isLoggedIn: !loading && !!user`. */
  function IsLoggedIn(loading: bool, user: Option<AuthUser>): (b: bool)
  {
    !loading && user.Some?
  }

  /** The value components read when no provider is above them. */
  datatype ContextValue = ContextValue(user: Option<AuthUser>, loading: bool, isLoggedIn: bool, connectionCode: Option<string>)

  const DefaultContext: ContextValue := ContextValue(None, true, false, None)

  /** The default context is consistent with the provider's own rule. */
  lemma DefaultContextConsistent()
    ensures DefaultContext.isLoggedIn == IsLoggedIn(DefaultContext.loading, DefaultContext.user)
    ensures !DefaultContext.isLoggedIn
  {
  }

  /**
   * The connection code after an event: cleared on sign-out, replaced by
   * the stored one when the user's document exists, kept otherwise.
   */
  function CodeAfterEvent(code: Option<string>, signedIn: Option<AuthUser>, users: map<string, UserDoc>): (c: Option<string>)
    ensures signedIn.None? ==> c == None
    ensures signedIn.Some? && signedIn.value.uid in users ==> c == users[signedIn.value.uid].connectionCode
    ensures signedIn.Some? && signedIn.value.uid !in users ==> c == code
  {
    match signedIn
    case None => None
    case Some(u) => if u.uid in users then users[u.uid].connectionCode else code
  }

  /**
   * Signing in to an account whose document is missing keeps the code of
   * whoever was signed in before, unless a sign-out came in between.
   */
  lemma StaleCodeNeedsNoSignOut(code: Option<string>, first: AuthUser, second: AuthUser, users: map<string, UserDoc>)
    requires first.uid in users && second.uid !in users
    ensures CodeAfterEvent(CodeAfterEvent(code, Some(first), users), Some(second), users)
            == users[first.uid].connectionCode
    ensures CodeAfterEvent(CodeAfterEvent(CodeAfterEvent(code, Some(first), users), None, users), Some(second), users)
            == None
  {
  }

  class AuthProvider {
    var user: Option<AuthUser>
    var loading: bool
    var connectionCode: Option<string>

    /** The provider's initial state: nobody, still loading, no code. */
    constructor ()
      ensures user == None && loading && connectionCode == None
      ensures !IsLoggedIn(loading, user)
    {
      user := None;
      loading := true;
      connectionCode := None;
    }

    /** The value the provider hands to its children. */
    function Value(): (v: ContextValue)
      reads this
      ensures v.user == user && v.loading == loading && v.connectionCode == connectionCode
      ensures v.isLoggedIn <==> !loading && user.Some?
    {
      ContextValue(user, loading, IsLoggedIn(loading, user), connectionCode)
    }

    /**
     * The `onAuthStateChanged` callback: records the user, reads the code
     * from the user's document when there is one, clears both on
     * sign-out, and ends the loading state.
     */
    method OnAuthStateChanged(signedIn: Option<AuthUser>, db: Db.Backend)
      modifies this
      ensures user == signedIn && !loading
      ensures connectionCode == CodeAfterEvent(old(connectionCode), signedIn, db.users)
      ensures Value().isLoggedIn <==> signedIn.Some?
    {
      if signedIn.Some? {
        user := signedIn;
        var uid := signedIn.value.uid;
        if uid in db.users {
          connectionCode := db.users[uid].connectionCode;
        }
      } else {
        user := None;
        connectionCode := None;
      }
      loading := false;
    }
  }
}
