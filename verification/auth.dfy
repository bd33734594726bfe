/**
 * The authentication store of src/context/AuthContext.jsx: who is signed in,
 * restored from and written to local storage. Credentials are checked against
 * the fixed seed directory only. The simulated one-second delay of login and
 * signup is left out; each runs as one sequential step. The clock reading that
 * becomes a new user's id is a parameter.
 */
module Auth {
  import opened Wrappers
  import opened Entities
  import opened Storage
  import opened DummyData

  datatype AuthState = AuthState(user: Option<User>, isAuthenticated: bool, loading: bool)

  datatype AuthAction =
    | Login(user: User)
    | Logout
    | UpdateProfile(updates: User)
    | SetLoading(loading: bool)

  /** What `login` and `signup` resolve to. */
  datatype AuthResult = AuthSucceeded(user: User) | AuthFailed(error: string)

  const UserKey := "ecofinds_user"
  const DefaultAvatar := "https://images.unsplash.com/photo-1535713875002-d1d0cf377fde?w=150&h=150&fit=crop&crop=face"
  const InvalidCredentials := "Invalid email or password"
  const EmailTaken := "User with this email already exists"

  const InitialAuth := AuthState(None, false, true)

  /** `authReducer`. `UPDATE_PROFILE` spreads over the current user, or over `null` when there is none. */
  function AuthReduce(s: AuthState, a: AuthAction): AuthState
  {
    match a
    case Login(u) => AuthState(Some(u), true, false)
    case Logout => AuthState(None, false, false)
    case UpdateProfile(updates) => s.(user := Some(MergeUser(s.user.GetOr(NoUserFields), updates)))
    case SetLoading(b) => s.(loading := b)
  }

  /** Every state the reducer reaches keeps "authenticated implies a user is present". */
  lemma AuthenticatedHasUser(s: AuthState, a: AuthAction)
    requires s.isAuthenticated ==> s.user.Some?
    ensures var r := AuthReduce(s, a); r.isAuthenticated ==> r.user.Some?
  {
  }

  /**
   * The converse does not hold: a profile update while signed out leaves a
   * user record in the state without authenticating it.
   */
  lemma ProfileUpdateWhileSignedOut(updates: User)
    ensures var r := AuthReduce(AuthReduce(InitialAuth, Logout), UpdateProfile(updates));
      r.user == Some(updates) && !r.isAuthenticated
  {
    assert MergeUser(NoUserFields, updates) == updates;
  }

  /**
   * Updating the profile changes only the user: every field the update
   * carries wins, and every field it lacks keeps the current user's value.
   */
  lemma UpdateProfileMerges(s: AuthState, updates: User)
    ensures var r := AuthReduce(s, UpdateProfile(updates));
      && r.isAuthenticated == s.isAuthenticated && r.loading == s.loading
      && r.user.Some?
      && (updates.id.Some? ==> r.user.value.id == updates.id)
      && (updates.name.Some? ==> r.user.value.name == updates.name)
      && (updates.email.Some? ==> r.user.value.email == updates.email)
      && (updates.password.Some? ==> r.user.value.password == updates.password)
      && (updates.avatar.Some? ==> r.user.value.avatar == updates.avatar)
      && (updates.phone.Some? ==> r.user.value.phone == updates.phone)
      && (updates.location.Some? ==> r.user.value.location == updates.location)
      && (updates.bio.Some? ==> r.user.value.bio == updates.bio)
    ensures var r := AuthReduce(s, UpdateProfile(updates));
      s.user.Some? ==>
        && (updates.id.None? ==> r.user.value.id == s.user.value.id)
        && (updates.name.None? ==> r.user.value.name == s.user.value.name)
        && (updates.email.None? ==> r.user.value.email == s.user.value.email)
        && (updates.password.None? ==> r.user.value.password == s.user.value.password)
        && (updates.avatar.None? ==> r.user.value.avatar == s.user.value.avatar)
        && (updates.phone.None? ==> r.user.value.phone == s.user.value.phone)
        && (updates.location.None? ==> r.user.value.location == s.user.value.location)
        && (updates.bio.None? ==> r.user.value.bio == s.user.value.bio)
  {
    MergeUserFields(s.user.GetOr(NoUserFields), updates);
  }

  /** The outcome of `login(email, password)`: the matching seed user without its password, or the error. */
  function LoginOutcome(email: string, password: string): (r: AuthResult)
    ensures r.AuthSucceeded? <==> FindSeedUser(email, password).Some?
    ensures r.AuthSucceeded? ==> r.user.password.None? && r.user.email == Some(email)
    ensures r.AuthSucceeded? ==>
              exists i :: 0 <= i < |InitialUsers| && InitialUsers[i].email == Some(email)
                          && InitialUsers[i].password == Some(password)
                          && r.user == InitialUsers[i].(password := None)
    ensures r.AuthFailed? ==> r.error == InvalidCredentials
  {
    match FindSeedUser(email, password)
    case Some(u) => AuthSucceeded(StripPassword(u))
    case None => AuthFailed(InvalidCredentials)
  }

  /** The record `signup(userData)` creates: `{id: now, ...userData, avatar}` without its password. */
  function NewAccount(userData: User, now: int): (r: User)
    ensures r.password.None?
    ensures r.avatar == Some(DefaultAvatar)
    ensures r.id == Override(userData.id, Some(now))
    ensures r.name == userData.name && r.email == userData.email
    ensures r.phone == userData.phone && r.location == userData.location && r.bio == userData.bio
  {
    StripPassword(MergeUser(NoUserFields.(id := Some(now)), userData).(avatar := Some(DefaultAvatar)))
  }

  /** The outcome of `signup(userData)`: refused when a seed user has the email, otherwise the new account. */
  function SignupOutcome(userData: User, now: int): (r: AuthResult)
    ensures r.AuthFailed? <==> FindSeedEmail(userData.email).Some?
    ensures r.AuthFailed? ==> r.error == EmailTaken
    ensures r.AuthSucceeded? ==> r.user == NewAccount(userData, now)
  {
    if FindSeedEmail(userData.email).Some? then AuthFailed(EmailTaken)
    else AuthSucceeded(NewAccount(userData, now))
  }

  /** The seed credentials log in as John Doe without his password; a wrong password is refused. */
  lemma SeedLogin()
    ensures LoginOutcome("john@example.com", "password123")
         == AuthSucceeded(User(Some(1), Some("John Doe"), Some("john@example.com"), None,
                               InitialUsers[0].avatar, Some("+1 (555) 123-4567"), Some("New York, NY"),
                               InitialUsers[0].bio))
    ensures LoginOutcome("john@example.com", "wrong") == AuthFailed(InvalidCredentials)
    ensures LoginOutcome("jane@example.com", "password123").AuthSucceeded?
    ensures LoginOutcome("jane@example.com", "password123").user.id == Some(2)
  {
  }

  /** A signup with a seed email is refused; with a fresh email it succeeds. */
  lemma SignupEmails(userData: User, now: int)
    ensures SignupOutcome(userData.(email := Some("john@example.com")), now) == AuthFailed(EmailTaken)
    ensures SignupOutcome(userData.(email := Some("new@example.com")), now).AuthSucceeded?
  {
  }

  /**
   * Accounts created by signup are not consulted by login: credentials log in
   * only when they are a seed user's, whatever was signed up before.
   */
  lemma LoginOnlyForSeeds(email: string, password: string)
    requires forall i :: 0 <= i < |InitialUsers| ==> InitialUsers[i].email != Some(email)
    ensures LoginOutcome(email, password) == AuthFailed(InvalidCredentials)
  {
  }

  /** The state a restore from storage reaches. */
  function Restored(stored: map<string, Slot<Option<User>>>): (s: AuthState)
    ensures !s.loading
    ensures s.isAuthenticated <==> GetFromLocalStorage(stored, UserKey, None).Some?
    ensures s.user == GetFromLocalStorage(stored, UserKey, None)
  {
    match GetFromLocalStorage(stored, UserKey, None)
    case Some(u) => AuthReduce(InitialAuth, Login(u))
    case None => AuthReduce(InitialAuth, SetLoading(false))
  }

  /** The provider: the reducer's state as fields, and the user storage slot. */
  class AuthStore {
    var user: Option<User>
    var isAuthenticated: bool
    var loading: bool
    var storage: map<string, Slot<Option<User>>>

    function State(): AuthState
      reads this
    {
      AuthState(user, isAuthenticated, loading)
    }

    /** Mounting: a stored user is signed in again; otherwise loading ends signed out. */
    constructor (stored: map<string, Slot<Option<User>>>)
      ensures State() == Restored(stored)
      ensures storage == stored
    {
      var s := Restored(stored);
      user, isAuthenticated, loading := s.user, s.isAuthenticated, s.loading;
      storage := stored;
    }

    /** `dispatch(action)`. */
    method Dispatch(a: AuthAction)
      modifies this
      ensures State() == AuthReduce(old(State()), a)
      ensures storage == old(storage)
    {
      var s := AuthReduce(State(), a);
      user, isAuthenticated, loading := s.user, s.isAuthenticated, s.loading;
    }

    /** `login(email, password)`: on success the password-free user is stored and signed in; otherwise only loading ends. */
    method Login(email: string, password: string) returns (r: AuthResult)
      modifies this
      ensures r == LoginOutcome(email, password)
      ensures r.AuthSucceeded? ==>
                State() == AuthState(Some(r.user), true, false)
                && storage == SaveToLocalStorage(old(storage), UserKey, Some(r.user))
      ensures r.AuthFailed? ==> State() == old(State()).(loading := false) && storage == old(storage)
    {
      Dispatch(SetLoading(true));
      r := LoginOutcome(email, password);
      if r.AuthSucceeded? {
        storage := SaveToLocalStorage(storage, UserKey, Some(r.user));
        Dispatch(AuthAction.Login(r.user));
      } else {
        Dispatch(SetLoading(false));
      }
    }

    /** `signup(userData)`: a fresh email creates, stores and signs in the new account. */
    method Signup(userData: User, now: int) returns (r: AuthResult)
      modifies this
      ensures r == SignupOutcome(userData, now)
      ensures r.AuthSucceeded? ==>
                State() == AuthState(Some(r.user), true, false)
                && storage == SaveToLocalStorage(old(storage), UserKey, Some(r.user))
      ensures r.AuthFailed? ==> State() == old(State()).(loading := false) && storage == old(storage)
    {
      Dispatch(SetLoading(true));
      r := SignupOutcome(userData, now);
      if r.AuthSucceeded? {
        storage := SaveToLocalStorage(storage, UserKey, Some(r.user));
        Dispatch(AuthAction.Login(r.user));
      } else {
        Dispatch(SetLoading(false));
      }
    }

    /** `logout()`: the storage key is removed and the state signed out. */
    method Logout()
      modifies this
      ensures State() == AuthState(None, false, false)
      ensures storage == old(storage) - {UserKey}
    {
      storage := storage - {UserKey};
      Dispatch(AuthAction.Logout);
    }

    /** `updateProfile(updates)`: the merged user is written to storage and to the state alike. */
    method UpdateProfile(updates: User)
      modifies this
      ensures State() == AuthReduce(old(State()), AuthAction.UpdateProfile(updates))
      ensures storage == SaveToLocalStorage(old(storage), UserKey, user)
    {
      var updated := MergeUser(user.GetOr(NoUserFields), updates);
      storage := SaveToLocalStorage(storage, UserKey, Some(updated));
      Dispatch(AuthAction.UpdateProfile(updates));
    }
  }

  /** After any login, signup or profile update, a restore from the written storage reproduces the signed-in user. */
  lemma RestoreAfterWrite(storage: map<string, Slot<Option<User>>>, u: User)
    ensures Restored(SaveToLocalStorage(storage, UserKey, Some(u))) == AuthState(Some(u), true, false)
  {
  }

  /** After logout a restore ends signed out. */
  lemma RestoreAfterLogout(storage: map<string, Slot<Option<User>>>)
    ensures Restored(storage - {UserKey}) == AuthState(None, false, false)
  {
  }
}
