/**
 * The mock session store behind the sell and donate pages: the signed-in
 * user, a loading flag, and one browser storage slot under the key
 * "remediuser".
 *
 * Browser storage is a `map<string, string>`. Turning the user into text
 * and back (`JSON.stringify` / `JSON.parse`) are parameters of the provider,
 * and whether a storage write or removal succeeds is a parameter of the
 * operation that attempts it. A toast is modelled by the outcome it reports.
 */
module AuthContext {
  import opened Wrappers

  /** The signed-in user; the photo is optional. */
  datatype User = User(id: string, name: string, email: string, photoURL: Option<string>)

  /** The storage key of the persisted user. */
  const StorageKey: string := "remediuser"

  /** The fixed user every login signs in as. */
  const MockUser: User := User(
    "user123", "John Doe", "john.doe@example.com",
    Some("https://images.unsplash.com/photo-1599566150163-29194dcaad36?q=80&w=987&auto=format&fit=crop&ixlib=rb-4.0.3"))

  /** The only sign-in provider the login accepts. */
  datatype Provider = Google

  /**
   * What reading a stored text back yields: the text is malformed (the parser
   * throws), or it is a user, or it is the JSON `null` (`Parsed(None)`).
   */
  datatype ParseResult = Malformed | Parsed(user: Option<User>)

  /** The toasts the session operations raise. */
  datatype Toast = LoginSuccessful(welcomeName: string) | LoginFailed | LoggedOut | LogoutFailed

  /** The observable session: the React state plus browser storage. */
  datatype Session = Session(user: Option<User>, loading: bool, storage: map<string, string>)

  /** `useState(null)` and `useState(true)` over whatever storage the browser holds. */
  function InitialSession(storage: map<string, string>): (s: Session)
    ensures s.user.None? && s.loading && s.storage == storage
  {
    Session(None, true, storage)
  }

  /** `localStorage.getItem(key)` read as a condition: absent and empty text are both falsy. */
  function StoredText(storage: map<string, string>): (t: Option<string>)
    ensures t.Some? <==> StorageKey in storage && storage[StorageKey] != ""
    ensures t.Some? ==> t.value == storage[StorageKey]
  {
    if StorageKey in storage && storage[StorageKey] != "" then Some(storage[StorageKey]) else None
  }

  /**
   * The mount effect: a stored text that parses becomes the user, a malformed
   * one is removed, and nothing stored changes nothing; loading ends in
   * every case.
   */
  function Rehydrated(s: Session, parse: string -> ParseResult): (r: Session)
    ensures !r.loading
    ensures StoredText(s.storage).None? ==> r.user == s.user && r.storage == s.storage
    ensures StoredText(s.storage).Some? && parse(StoredText(s.storage).value).Parsed? ==>
              r.user == parse(StoredText(s.storage).value).user && r.storage == s.storage
    ensures StoredText(s.storage).Some? && parse(StoredText(s.storage).value).Malformed? ==>
              r.user == s.user && r.storage == s.storage - {StorageKey}
  {
    match StoredText(s.storage)
    case None => s.(loading := false)
    case Some(text) =>
      match parse(text)
      case Parsed(u) => s.(user := u, loading := false)
      case Malformed => s.(loading := false, storage := s.storage - {StorageKey})
  }

  /**
   * `login`: the user becomes the mock user before the storage write, so a
   * write that throws still leaves the user signed in (the toast reports the
   * failure); loading ends in every case.
   */
  function AfterLogin(s: Session, serialize: User -> string, provider: Provider, writeOk: bool): (r: (Session, Toast))
    ensures r.0.user == Some(MockUser) && !r.0.loading
    ensures writeOk ==> r.0.storage == s.storage[StorageKey := serialize(MockUser)]
    ensures writeOk ==> r.1 == LoginSuccessful("John Doe")
    ensures !writeOk ==> r.0.storage == s.storage && r.1 == LoginFailed
  {
    if writeOk then
      (Session(Some(MockUser), false, s.storage[StorageKey := serialize(MockUser)]), LoginSuccessful(MockUser.name))
    else
      (Session(Some(MockUser), false, s.storage), LoginFailed)
  }

  /**
   * `logout`: the user is cleared before the storage removal, so a removal
   * that throws still signs the user out; loading ends in every case.
   */
  function AfterLogout(s: Session, removeOk: bool): (r: (Session, Toast))
    ensures r.0.user.None? && !r.0.loading
    ensures removeOk ==> StorageKey !in r.0.storage && r.1 == LoggedOut
    ensures !removeOk ==> r.0.storage == s.storage && r.1 == LogoutFailed
    ensures forall k :: k != StorageKey ==> (k in r.0.storage <==> k in s.storage)
  {
    if removeOk then (Session(None, false, s.storage - {StorageKey}), LoggedOut)
    else (Session(None, false, s.storage), LogoutFailed)
  }

  /** `isAuthenticated: !!user`. */
  predicate IsAuthenticated(s: Session)
    ensures IsAuthenticated(s) <==> s.user != None
  {
    s.user.Some?
  }

  /** No session operation touches a storage key other than "remediuser". */
  lemma OtherKeysUntouched(s: Session, parse: string -> ParseResult, serialize: User -> string,
                           writeOk: bool, removeOk: bool, k: string)
    requires k != StorageKey && k in s.storage
    ensures k in Rehydrated(s, parse).storage && Rehydrated(s, parse).storage[k] == s.storage[k]
    ensures k in AfterLogin(s, serialize, Google, writeOk).0.storage
    ensures AfterLogin(s, serialize, Google, writeOk).0.storage[k] == s.storage[k]
    ensures k in AfterLogout(s, removeOk).0.storage && AfterLogout(s, removeOk).0.storage[k] == s.storage[k]
  {
  }

  /** A successful login followed by a logout leaves no stored user and nobody signed in. */
  lemma LoginThenLogoutClears(s: Session, serialize: User -> string, writeOk: bool)
    ensures var out := AfterLogout(AfterLogin(s, serialize, Google, writeOk).0, true).0;
            !IsAuthenticated(out) && StorageKey !in out.storage && !out.loading
  {
  }

  /** Logging out twice is the same as logging out once. */
  lemma LogoutIdempotent(s: Session)
    ensures AfterLogout(AfterLogout(s, true).0, true) == AfterLogout(s, true)
  {
    assert s.storage - {StorageKey} - {StorageKey} == s.storage - {StorageKey};
  }

  /** Logging in twice is the same as logging in once. */
  lemma LoginIdempotent(s: Session, serialize: User -> string, writeOk: bool)
    ensures AfterLogin(AfterLogin(s, serialize, Google, writeOk).0, serialize, Google, writeOk)
            == AfterLogin(s, serialize, Google, writeOk)
  {
    var text := serialize(MockUser);
    assert s.storage[StorageKey := text][StorageKey := text] == s.storage[StorageKey := text];
  }

  /**
   * A stored login survives a reload: when the serialisation is non-empty
   * and reads back as the same user, mounting afresh over the storage a
   * successful login left signs the mock user in again.
   */
  lemma LoginSurvivesReload(s: Session, serialize: User -> string, parse: string -> ParseResult)
    requires serialize(MockUser) != "" && parse(serialize(MockUser)) == Parsed(Some(MockUser))
    ensures var stored := AfterLogin(s, serialize, Google, true).0.storage;
            Rehydrated(InitialSession(stored), parse) == Session(Some(MockUser), false, stored)
  {
    var stored := AfterLogin(s, serialize, Google, true).0.storage;
    assert StoredText(stored) == Some(serialize(MockUser));
  }

  /** After a successful logout a reload finds nobody, whatever the parser does. */
  lemma LogoutSurvivesReload(s: Session, parse: string -> ParseResult)
    ensures var stored := AfterLogout(s, true).0.storage;
            Rehydrated(InitialSession(stored), parse) == Session(None, false, stored)
  {
  }

  /** A malformed stored user is dropped, and the next reload finds nothing to read. */
  lemma MalformedIsDroppedForGood(storage: map<string, string>, parse: string -> ParseResult)
    requires StoredText(storage).Some? && parse(StoredText(storage).value) == Malformed
    ensures var once := Rehydrated(InitialSession(storage), parse);
            once.user.None? && StorageKey !in once.storage &&
            Rehydrated(InitialSession(once.storage), parse) == once
  {
  }

  /** What `useAuth` hands to a component. */
  datatype AuthValue = AuthValue(user: Option<User>, loading: bool, isAuthenticated: bool)

  /** The value the provider publishes for a session. */
  function ValueOf(s: Session): (v: AuthValue)
    ensures v.user == s.user && v.loading == s.loading
    ensures v.isAuthenticated <==> s.user.Some?
  {
    AuthValue(s.user, s.loading, IsAuthenticated(s))
  }

  /** The message `useAuth` throws outside a provider. */
  const OutsideProvider: string := "useAuth must be used within an AuthProvider"

  /** `useAuth`: the enclosing provider's value, or the error when there is none. */
  function UseAuth(context: Option<AuthValue>): (r: Result<AuthValue, string>)
    ensures r.Failure? <==> context.None?
    ensures r.Failure? ==> r.error == OutsideProvider
    ensures r.Success? ==> r.value == context.value
  {
    match context
    case None => Failure(OutsideProvider)
    case Some(v) => Success(v)
  }

  /** The provider component: its two state hooks over browser storage. */
  class AuthProvider {
    var user: Option<User>
    var loading: bool
    var storage: map<string, string>
    const parse: string -> ParseResult
    const serialize: User -> string

    /** The session this provider holds. */
    function State(): Session
      reads this
    {
      Session(user, loading, storage)
    }

    /** Mounting: nobody signed in yet, loading, over the browser's storage. */
    constructor(browserStorage: map<string, string>, parse: string -> ParseResult, serialize: User -> string)
      ensures State() == InitialSession(browserStorage)
      ensures this.parse == parse && this.serialize == serialize
    {
      user := None;
      loading := true;
      storage := browserStorage;
      this.parse := parse;
      this.serialize := serialize;
    }

    /** The mount effect that restores a stored user. */
    method Rehydrate()
      modifies this
      ensures State() == Rehydrated(old(State()), parse)
    {
      if StorageKey in storage && storage[StorageKey] != "" {
        var text := storage[StorageKey];
        var parsed := parse(text);
        if parsed.Parsed? {
          user := parsed.user;
        } else {
          storage := storage - {StorageKey};
        }
      }
      loading := false;
    }

    /** `login(provider)`; `writeOk` says whether the storage write succeeds. */
    method Login(provider: Provider, writeOk: bool) returns (toast: Toast)
      modifies this
      ensures (State(), toast) == AfterLogin(old(State()), serialize, provider, writeOk)
    {
      loading := true;
      user := Some(MockUser);
      if writeOk {
        storage := storage[StorageKey := serialize(MockUser)];
        toast := LoginSuccessful(MockUser.name);
      } else {
        toast := LoginFailed;
      }
      loading := false;
    }

    /** `logout()`; `removeOk` says whether the storage removal succeeds. */
    method Logout(removeOk: bool) returns (toast: Toast)
      modifies this
      ensures (State(), toast) == AfterLogout(old(State()), removeOk)
    {
      loading := true;
      user := None;
      if removeOk {
        storage := storage - {StorageKey};
        toast := LoggedOut;
      } else {
        toast := LogoutFailed;
      }
      loading := false;
    }

    /** `useAuth()` inside this provider. */
    function Value(): (v: AuthValue)
      reads this
      ensures v.isAuthenticated <==> user.Some?
    {
      ValueOf(State())
    }
  }

  /** Signing in, reloading and signing out against a well-behaved serialiser. */
  method SessionScenario(parse: string -> ParseResult, serialize: User -> string)
    requires serialize(MockUser) != "" && parse(serialize(MockUser)) == Parsed(Some(MockUser))
  {
    var first := new AuthProvider(map[], parse, serialize);
    first.Rehydrate();
    assert !first.Value().isAuthenticated && !first.loading;
    var t := first.Login(Google, true);
    assert t == LoginSuccessful("John Doe");
    var reloaded := new AuthProvider(first.storage, parse, serialize);
    reloaded.Rehydrate();
    LoginSurvivesReload(InitialSession(map[]), serialize, parse);
    assert reloaded.user == Some(MockUser);
    t := reloaded.Logout(true);
    assert UseAuth(Some(reloaded.Value())).Success?;
    assert !UseAuth(Some(reloaded.Value())).value.isAuthenticated;
    assert UseAuth(None) == Failure(OutsideProvider);
  }
}
