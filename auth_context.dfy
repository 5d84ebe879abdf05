/** The session manager: checks a login and password against the users
    collection, keeps the result in `authState` and persists the logged-in
    user under `condominium_current_user`. */
module AuthContext {
  import opened AuthTypes
  import opened Storage

  /** The user the login check accepts: the first user with that exact login,
      when its password equals `password` exactly. */
  function Authenticate(users: seq<User>, login: string, password: string): (r: Option<User>)
    ensures r.Some? ==> r.value in users && r.value.login == login && r.value.password == password
    ensures (forall u :: u in users ==> u.login != login) ==> r.None?
  {
    var found := FindByLogin(users, login);
    if found.Some? && found.value.password == password then found else None
  }

  /** With several users sharing a login, only the first one's password is
      compared: the check succeeds exactly when that password matches, whatever
      the later users hold. */
  lemma AuthenticateFirstMatch(users: seq<User>, i: nat, login: string, password: string)
    requires i < |users| && users[i].login == login
    requires forall j :: 0 <= j < i ==> users[j].login != login
    ensures Authenticate(users, login, password) == if users[i].password == password then Some(users[i]) else None
  {
    FindByLoginFirst(users, i, login);
  }

  /** The state a value of `condominium_current_user` stands for: the stored
      user, authenticated, or nobody. */
  function SessionState(session: Slot<User>): (s: AuthState)
    ensures s.Consistent()
    ensures s.isAuthenticated <==> session.Stored?
    ensures session.Stored? ==> s.user == Some(session.value)
  {
    if session.Stored? then AuthState(Some(session.value), true) else AuthState(None, false)
  }

  /** The users `getUserByLogin` searches when called at time `now`. */
  function SeededUsers(c: Collections, now: int): (r: seq<User>)
    ensures c.users.Stored? ==> r == c.users.value
    ensures !c.users.Stored? ==> r == DefaultUsers()
  {
    Contents(Seeded(c, now).users)
  }

  /** `AuthProvider`: the `authState` React state over the store. */
  class AuthProvider {
    var authState: AuthState
    const store: Store

    ghost predicate Valid()
      reads this
    {
      authState.Consistent()
    }

    /** The state agrees with the stored session key. */
    ghost predicate InSync()
      reads this, store
    {
      authState == SessionState(store.currentUser)
    }

    /** The initial state: nobody logged in. */
    constructor (store: Store)
      ensures this.store == store
      ensures authState == AuthState(None, false)
      ensures Valid()
    {
      this.store := store;
      authState := AuthState(None, false);
    }

    /** The mount effect: a stored session is taken over as it is, without
        looking the user up again. */
    method RestoreSession()
      requires Valid()
      modifies this`authState
      ensures Valid()
      ensures store.currentUser.Stored? ==> authState == AuthState(Some(store.currentUser.value), true)
      ensures !store.currentUser.Stored? ==> authState == old(authState)
      ensures old(authState) == AuthState(None, false) ==> InSync()
    {
      if store.currentUser.Stored? {
        authState := AuthState(Some(store.currentUser.value), true);
      }
    }

    /** `login`: succeeds exactly when `Authenticate` accepts; then the found
        user becomes the state's user and the stored session. A failed login
        changes neither. Looking the user up seeds the collections. */
    method Login(username: string, password: string, now: int) returns (ok: bool)
      requires Valid()
      modifies this`authState, store`users, store`visitors, store`correspondences,
        store`communications, store`currentUser
      ensures Valid()
      ensures store.Snapshot() == Seeded(old(store.Snapshot()), now)
      ensures var found := Authenticate(SeededUsers(old(store.Snapshot()), now), username, password);
        && ok == found.Some?
        && (ok ==> authState == AuthState(found, true) && store.currentUser == Stored(found.value))
        && (!ok ==> authState == old(authState) && store.currentUser == old(store.currentUser))
      ensures old(InSync()) ==> InSync()
    {
      var user := store.GetUserByLogin(username, now);
      if user.Some? && user.value.password == password {
        authState := AuthState(user, true);
        store.currentUser := Stored(user.value);
        ok := true;
      } else {
        ok := false;
      }
    }

    /** `logout`: clears the state and removes the session key. */
    method Logout()
      requires Valid()
      modifies this`authState, store`currentUser
      ensures Valid()
      ensures authState == AuthState(None, false)
      ensures store.currentUser == Absent
      ensures InSync()
    {
      authState := AuthState(None, false);
      store.currentUser := Absent;
    }
  }
}
