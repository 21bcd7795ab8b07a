/**
 The mock authentication session of `useAuth` (src/hooks/useAuth.ts): one
 `AuthState` record that `login`, `register` and `logout` overwrite, mirrored
 under one local-storage key. The simulated latency is left out; the random
 user id and the encoded token are opaque parameters.
 */
module Auth {
  import opened Types
  import opened Text

  const AuthStorageKey := "zerocode_auth"
  const AvatarBase := "https://api.dicebear.com/7.x/avataaars/svg?seed="

  /** The state before anyone signs in, and after `logout`. */
  const SignedOut := AuthState(None, None, false)

  /** The session flag, the user and the token are present together or absent together. */
  predicate Consistent(s: AuthState) {
    s.isAuthenticated == s.user.Some? && s.user.Some? == s.token.Some?
  }

  /** The mock credential check of `login`: a non-empty email and a password of at least 6 UTF-16 units. */
  predicate LoginAccepted(email: string, password: string) {
    email != "" && Utf16Length(password) >= 6
  }

  /** The mock check of `register`: the login check and a non-empty name. */
  predicate RegisterAccepted(email: string, password: string, name: string) {
    LoginAccepted(email, password) && name != ""
  }

  /** The display name `login` derives from the email: the part before the first '@'. */
  function DisplayName(email: string): string {
    BeforeFirst(email, '@')
  }

  /** The display name is the whole email when it has no '@', and otherwise what precedes its first '@'. */
  lemma DisplayNameSpec(email: string)
    ensures '@' !in DisplayName(email) && DisplayName(email) <= email
    ensures '@' !in email ==> DisplayName(email) == email
    ensures '@' in email ==> |DisplayName(email)| < |email| && email[|DisplayName(email)|] == '@'
  {
    BeforeFirstSpec(email, '@');
    var r := DisplayName(email);
    if |r| == |email| {
      assert r == email;
    }
  }

  /** The record a successful sign-in stores. */
  function SignedIn(userId: string, email: string, name: string, token: string): (s: AuthState)
    ensures Consistent(s) && s.isAuthenticated
    ensures s.user.Some? && s.user.value.email == email && s.user.value.name == name
  {
    AuthState(Some(User(userId, email, name, Some(AvatarBase + email))), Some(token), true)
  }

  class AuthSession {
    var state: AuthState
    /** The browser's local storage as this hook sees it; it writes only the authentication key. */
    var storage: Storage

    /**
     A fresh session hydrated from `store`. A parsed authentication record is
     taken as is. Text that does not parse is removed from storage, unless it is
     the empty string, which the hook skips as falsy. A value of another shape
     parses but carries no user, so the session stays signed out.
     */
    constructor (store: Storage)
      ensures AuthStorageKey !in store ==> state == SignedOut && storage == store
      ensures AuthStorageKey in store && store[AuthStorageKey].AuthRecord? ==>
                state == store[AuthStorageKey].state && storage == store
      ensures AuthStorageKey in store && store[AuthStorageKey].Unparsable? ==>
                state == SignedOut &&
                storage == if store[AuthStorageKey].text == "" then store else store - {AuthStorageKey}
      ensures AuthStorageKey in store && store[AuthStorageKey].ChatLog? ==>
                state == SignedOut && storage == store
    {
      state := SignedOut;
      storage := store;
      if AuthStorageKey in store {
        match store[AuthStorageKey]
        case AuthRecord(parsed) =>
          state := parsed;
        case Unparsable(text) =>
          if text != "" {
            storage := storage - {AuthStorageKey};
          }
        case ChatLog(_) =>
      }
    }

    /**
     `login`: accepted credentials sign the user in under the name derived from
     the email and store the new record; rejected ones change nothing.
     */
    method Login(email: string, password: string, userId: string, token: string) returns (ok: bool)
      modifies this
      ensures ok == LoginAccepted(email, password)
      ensures ok ==> state == SignedIn(userId, email, DisplayName(email), token)
      ensures ok ==> storage == old(storage)[AuthStorageKey := AuthRecord(state)]
      ensures !ok ==> state == old(state) && storage == old(storage)
      ensures Consistent(old(state)) ==> Consistent(state)
    {
      if email != "" && Utf16Length(password) >= 6 {
        var user := User(userId, email, BeforeFirst(email, '@'), Some(AvatarBase + email));
        state := AuthState(Some(user), Some(token), true);
        storage := storage[AuthStorageKey := AuthRecord(state)];
        return true;
      }
      return false;
    }

    /**
     `register`: accepted details sign the user in under the given name and
     store the new record; rejected ones change nothing.
     */
    method Register(email: string, password: string, name: string, userId: string, token: string)
      returns (ok: bool)
      modifies this
      ensures ok == RegisterAccepted(email, password, name)
      ensures ok ==> state == SignedIn(userId, email, name, token)
      ensures ok ==> storage == old(storage)[AuthStorageKey := AuthRecord(state)]
      ensures !ok ==> state == old(state) && storage == old(storage)
      ensures Consistent(old(state)) ==> Consistent(state)
    {
      if email != "" && Utf16Length(password) >= 6 && name != "" {
        var user := User(userId, email, name, Some(AvatarBase + email));
        state := AuthState(Some(user), Some(token), true);
        storage := storage[AuthStorageKey := AuthRecord(state)];
        return true;
      }
      return false;
    }

    /** `logout`: back to the signed-out state, and the stored record is removed. */
    method Logout()
      modifies this
      ensures state == SignedOut && Consistent(state)
      ensures storage == old(storage) - {AuthStorageKey}
    {
      state := AuthState(None, None, false);
      storage := storage - {AuthStorageKey};
    }
  }

  /** Logging out twice leaves the same state and storage as logging out once. */
  method LogoutTwice(session: AuthSession)
    modifies session
    ensures session.state == SignedOut
    ensures session.storage == old(session.storage) - {AuthStorageKey}
  {
    session.Logout();
    ghost var once := session.storage;
    session.Logout();
    assert session.storage == once;
  }

  /**
   Starting from empty storage, a sign-in gives the name before '@', a
   rejected attempt leaves that name in place, and a sign-out returns to the
   signed-out state.
   */
  method SignInAndOut(password: string) returns (name: string, nameAfterRejected: string, afterLogout: AuthState)
    requires Utf16Length(password) >= 6
    ensures name == "ada" && nameAfterRejected == "ada" && afterLogout == SignedOut
  {
    var email := "ada@example.org";
    assert LoginAccepted(email, password) && !LoginAccepted("", password);
    DisplayNameSpec(email);
    assert email[3] == '@' && '@' !in email[..3];
    assert DisplayName(email) == "ada";
    var session := new AuthSession(map[]);
    var ok := session.Login(email, password, "u1", "t1");
    name := session.state.user.value.name;
    var rejected := session.Login("", password, "u2", "t2");
    nameAfterRejected := session.state.user.value.name;
    session.Logout();
    afterLogout := session.state;
  }
}
