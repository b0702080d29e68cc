/**
 * The authentication provider: the `user` and `isLoading` state variables and
 * the one persisted key `localStorage["userId"]`, changed by the initial load,
 * by login and by logout.
 *
 * The store calls the provider makes (`getUserById`, `login`) are parameters
 * that say what the call produced: a value, or an exception. Notifications and
 * console output are left out; the calls are taken as synchronous.
 */
module AuthContext {
  import opened Wrappers
  import opened Sequences
  import opened Types
  import opened MockData

  /** What a call produced: its return value, or a thrown exception. */
  datatype Outcome<T> = Returned(value: T) | Threw

  /** The provider's state: `user`, `isLoading`, and `localStorage["userId"]` (`None` when the key is absent). */
  datatype Session = Session(user: Option<User>, isLoading: bool, storedUserId: Option<string>)

  /** `if (storedUserId)`: null and the empty string are falsy. */
  predicate IsTruthy(stored: Option<string>) {
    stored.Some? && stored.value != ""
  }

  /** The state on mount: no user, loading, and whatever the browser had stored. */
  function Initial(stored: Option<string>): Session {
    Session(None, true, stored)
  }

  /**
   * `loadUser`: with a truthy stored id, look it up; a returned value (a user or
   * null) becomes `user`, an exception removes the stored id. Loading ends in
   * every case.
   */
  function AfterLoad(s: Session, getUserById: string -> Outcome<Option<User>>): Session {
    if IsTruthy(s.storedUserId) then
      match getUserById(s.storedUserId.value)
      case Returned(u) => s.(user := u, isLoading := false)
      case Threw => s.(storedUserId := None, isLoading := false)
    else
      s.(isLoading := false)
  }

  /**
   * `handleLogin`, given what `login(email, password)` produced: a user is
   * signed in and its id stored; null or an exception changes nothing. The
   * boolean is the value `handleLogin` resolves to.
   */
  function AfterLogin(s: Session, result: Outcome<Option<User>>): (Session, bool) {
    match result
    case Returned(Some(u)) => (s.(user := Some(u), storedUserId := Some(u.id)), true)
    case _ => (s, false)
  }

  /** `handleLogout`: no user and no stored id. */
  function AfterLogout(s: Session): Session {
    s.(user := None, storedUserId := None)
  }

  class AuthProvider {
    var user: Option<User>
    var isLoading: bool
    var storedUserId: Option<string>

    function State(): Session
      reads this
    {
      Session(user, isLoading, storedUserId)
    }

    /** Mounting the provider: `useState(null)`, `useState(true)`, and the browser's stored id. */
    constructor (stored: Option<string>)
      ensures State() == Initial(stored)
      ensures user == None && isLoading && storedUserId == stored
    {
      user := None;
      isLoading := true;
      storedUserId := stored;
    }

    /** The mount effect `loadUser`. */
    method LoadUser(getUserById: string -> Outcome<Option<User>>)
      modifies this
      ensures State() == AfterLoad(old(State()), getUserById)
      ensures !isLoading
      ensures (IsTruthy(old(storedUserId)) && getUserById(old(storedUserId).value).Returned?) ==>
                user == getUserById(old(storedUserId).value).value
      ensures storedUserId == if IsTruthy(old(storedUserId)) && getUserById(old(storedUserId).value).Threw?
                              then None else old(storedUserId)
    {
      var stored := storedUserId;
      if stored.Some? && stored.value != "" {
        var result := getUserById(stored.value);
        match result
        case Returned(userData) =>
          user := userData;
        case Threw =>
          storedUserId := None;
      }
      isLoading := false;
    }

    /** `handleLogin`: true exactly when `login` returned a user. */
    method HandleLogin(email: string, password: string, login: (string, string) -> Outcome<Option<User>>)
      returns (ok: bool)
      modifies this
      ensures (State(), ok) == AfterLogin(old(State()), login(email, password))
      ensures ok <==> login(email, password).Returned? && login(email, password).value.Some?
      ensures ok ==> user == login(email, password).value && storedUserId == Some(user.value.id)
      ensures !ok ==> State() == old(State())
      ensures isLoading == old(isLoading)
    {
      var result := login(email, password);
      match result
      case Returned(Some(u)) =>
        user := Some(u);
        storedUserId := Some(u.id);
        ok := true;
      case Returned(None) =>
        ok := false;
      case Threw =>
        ok := false;
    }

    /** `handleLogout`. */
    method HandleLogout()
      modifies this
      ensures State() == AfterLogout(old(State()))
      ensures user == None && storedUserId == None && isLoading == old(isLoading)
    {
      user := None;
      storedUserId := None;
    }
  }

  // ---------------------------------------------------------------------------
  // Properties of the transitions.
  // ---------------------------------------------------------------------------

  /** The signed-in user, if any, is the one whose id is stored. */
  ghost predicate UserMatchesStorage(s: Session) {
    s.user.Some? ==> s.storedUserId == Some(s.user.value.id)
  }

  /** A lookup by id that, when it returns a user, returns one with that id. */
  ghost predicate FindsOwnId(getUserById: string -> Outcome<Option<User>>) {
    forall id :: getUserById(id).Returned? && getUserById(id).value.Some? ==> getUserById(id).value.value.id == id
  }

  /** The store's `getUserById` over a list of users, as the provider sees it: it never throws. */
  function StoreLookup(users: seq<User>): string -> Outcome<Option<User>> {
    id => Returned(FindFirst(users, UserId, id))
  }

  /** The store's `login` over a list of users, as the provider sees it. */
  function StoreLogin(users: seq<User>): (string, string) -> Outcome<Option<User>> {
    (email, password) => Returned(FindFirst(users, UserEmail, email))
  }

  /** `StoreLookup` and `StoreLogin` give what the store's `getUserById` and `login` return. */
  lemma StoreCallsAreTheStoreReaders(store: MockStore, id: string, email: string, password: string)
    ensures StoreLookup(store.users)(id) == Returned(store.GetUserById(id))
    ensures StoreLogin(store.users)(email, password) == Returned(store.Login(email, password))
  {
  }

  /** Loading always ends, whatever was stored and whatever the lookup did. */
  lemma LoadEndsLoading(s: Session, getUserById: string -> Outcome<Option<User>>)
    ensures !AfterLoad(s, getUserById).isLoading
  {
  }

  /**
   * From the mount state, the stored id is removed only when the lookup throws,
   * and then no user is signed in; otherwise the user is what the lookup returned.
   */
  lemma LoadFromInitial(stored: Option<string>, getUserById: string -> Outcome<Option<User>>)
    ensures var s := AfterLoad(Initial(stored), getUserById);
      && (s.storedUserId != stored <==> IsTruthy(stored) && getUserById(stored.value).Threw?)
      && (s.storedUserId != stored ==> s.user == None)
      && (IsTruthy(stored) && getUserById(stored.value).Returned? ==> s.user == getUserById(stored.value).value)
      && (!IsTruthy(stored) ==> s.user == None)
  {
  }

  /** Logging out twice is logging out once. */
  lemma LogoutIsIdempotent(s: Session)
    ensures AfterLogout(AfterLogout(s)) == AfterLogout(s)
  {
  }

  /** Neither login nor logout touches `isLoading`. */
  lemma LoginAndLogoutKeepLoading(s: Session, result: Outcome<Option<User>>)
    ensures AfterLogin(s, result).0.isLoading == s.isLoading
    ensures AfterLogout(s).isLoading == s.isLoading
  {
  }

  /** Login and logout keep the signed-in user and the stored id in step. */
  lemma LoginAndLogoutKeepUserMatchingStorage(s: Session, result: Outcome<Option<User>>)
    requires UserMatchesStorage(s)
    ensures UserMatchesStorage(AfterLogin(s, result).0)
    ensures UserMatchesStorage(AfterLogout(s))
  {
  }

  /** Loading from the mount state with a lookup that finds its own id leaves user and storage in step. */
  lemma LoadKeepsUserMatchingStorage(stored: Option<string>, getUserById: string -> Outcome<Option<User>>)
    requires FindsOwnId(getUserById)
    ensures UserMatchesStorage(AfterLoad(Initial(stored), getUserById))
  {
  }

  /** The store's lookup finds its own id, so loading through it leaves user and storage in step. */
  lemma LoadFromStoreKeepsUserMatchingStorage(users: seq<User>, stored: Option<string>)
    ensures UserMatchesStorage(AfterLoad(Initial(stored), StoreLookup(users)))
  {
  }

  /** Through the store's `login`, signing in succeeds exactly when some user has that email, whatever the password. */
  lemma LoginThroughStore(users: seq<User>, s: Session, email: string, password: string)
    ensures AfterLogin(s, StoreLogin(users)(email, password)).1 <==> exists u | u in users :: u.email == email
    ensures AfterLogin(s, StoreLogin(users)(email, password)).1 ==>
      AfterLogin(s, StoreLogin(users)(email, password)).0.user == FindFirst(users, UserEmail, email)
  {
  }
}
