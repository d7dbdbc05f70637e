/**
 * AuthService: the session store. Its state is two `localStorage` entries
 * (`fletnix_token`, `fletnix_user`) and the current values of three subjects
 * (token, user, authenticated). `JSON.parse` and `JSON.stringify` of a user are
 * passed in as functions; `parse` yields None where JSON.parse would throw.
 */
module Auth {
  import opened Wrappers
  import opened Models
  import opened Browser
  import opened HttpErrors

  const TokenKey := "fletnix_token"
  const UserKey := "fletnix_user"

  /** The whole session: the subjects' current values and the storage they mirror. */
  datatype Session = Session(token: Option<string>, user: Option<User>, authenticated: bool, storage: map<string, string>)

  /** Before loadStoredAuth runs: every subject holds its initial value (null, null, false). */
  function Initial(storage: map<string, string>): Session {
    Session(None, None, false, storage)
  }

  /** `authenticated == (token != null)`. */
  predicate Consistent(s: Session) {
    s.authenticated == s.token.Some?
  }

  /** An authenticated session is backed by both storage entries, and the token is the stored one. */
  predicate Mirrored(s: Session) {
    s.authenticated ==> TokenKey in s.storage && UserKey in s.storage && s.token == Some(s.storage[TokenKey])
  }

  /** The two session entries are present together or absent together. */
  predicate Paired(storage: map<string, string>) {
    TokenKey in storage <==> UserKey in storage
  }

  /** `localStorage.getItem(key)` used as a condition: null and "" are both falsy. */
  predicate HasItem(storage: map<string, string>, key: string) {
    key in storage && storage[key] != ""
  }

  /** loadStoredAuth. */
  function Restore(s: Session, parse: string -> Option<User>): (r: Session)
    ensures Consistent(s) && !s.authenticated ==> Consistent(r) && Mirrored(r)
    ensures Paired(s.storage) ==> Paired(r.storage)
    ensures !s.authenticated && r.authenticated ==> r.storage == s.storage && HasItem(s.storage, TokenKey) && HasItem(s.storage, UserKey)
  {
    if HasItem(s.storage, TokenKey) && HasItem(s.storage, UserKey) then
      match parse(s.storage[UserKey])
      case Some(u) => s.(token := Some(s.storage[TokenKey]), user := Some(u), authenticated := true)
      case None => s.(storage := s.storage - {TokenKey, UserKey})
    else s
  }

  /** handleAuthSuccess: both entries written, the three subjects set. */
  function SignedIn(s: Session, response: AuthResponse, stringify: User -> string): (r: Session)
    ensures Consistent(r) && Mirrored(r) && Paired(r.storage) && r.authenticated
  {
    Session(Some(response.token), Some(response.user), true,
            s.storage[TokenKey := response.token][UserKey := stringify(response.user)])
  }

  /** logout (with clearStoredAuth). */
  function SignedOut(s: Session): (r: Session)
    ensures Consistent(r) && Mirrored(r) && Paired(r.storage) && !r.authenticated
    ensures r.storage.Keys == s.storage.Keys - {TokenKey, UserKey}
  {
    Session(None, None, false, s.storage - {TokenKey, UserKey})
  }

  /** The `tap` of getProfile: only the user subject changes. */
  function ProfileLoaded(s: Session, user: User): Session {
    s.(user := Some(user))
  }

  /** Start-up, in its three cases. */
  lemma RestoreCases(storage: map<string, string>, parse: string -> Option<User>)
    ensures var r := Restore(Initial(storage), parse);
      && (HasItem(storage, TokenKey) && HasItem(storage, UserKey) && parse(storage[UserKey]).Some? ==>
            r == Session(Some(storage[TokenKey]), parse(storage[UserKey]), true, storage))
      && (HasItem(storage, TokenKey) && HasItem(storage, UserKey) && parse(storage[UserKey]).None? ==>
            r == Initial(storage - {TokenKey, UserKey}) && TokenKey !in r.storage && UserKey !in r.storage)
      && (!(HasItem(storage, TokenKey) && HasItem(storage, UserKey)) ==> r == Initial(storage))
  {
  }

  /** Logout deletes exactly the two session entries; every other key (`authToken` among them) is untouched. */
  lemma SignedOutRemovesOnlySessionKeys(s: Session, key: string)
    ensures var r := SignedOut(s);
      && TokenKey !in r.storage && UserKey !in r.storage
      && !r.authenticated && r.token.None? && r.user.None?
      && (key != TokenKey && key != UserKey ==> (key in r.storage <==> key in s.storage))
      && (key != TokenKey && key != UserKey && key in s.storage ==> r.storage[key] == s.storage[key])
  {
  }

  /** Sign-in writes both entries and leaves every other key as it was. */
  lemma SignedInWritesBothKeys(s: Session, response: AuthResponse, stringify: User -> string, key: string)
    ensures var r := SignedIn(s, response, stringify);
      && r.storage[TokenKey] == response.token && r.storage[UserKey] == stringify(response.user)
      && r.token == Some(response.token) && r.user == Some(response.user) && r.authenticated
      && (key != TokenKey && key != UserKey ==> (key in r.storage <==> key in s.storage))
      && (key != TokenKey && key != UserKey && key in s.storage ==> r.storage[key] == s.storage[key])
  {
  }

  /** What can happen to a session after start-up. */
  datatype SessionEvent = LoginOrRegister(response: AuthResponse) | Logout | Profile(user: User)

  function Step(s: Session, e: SessionEvent, stringify: User -> string): Session {
    match e
    case LoginOrRegister(response) => SignedIn(s, response, stringify)
    case Logout => SignedOut(s)
    case Profile(user) => ProfileLoaded(s, user)
  }

  function Run(s: Session, events: seq<SessionEvent>, stringify: User -> string): Session
    decreases |events|
  {
    if events == [] then s else Run(Step(s, events[0], stringify), events[1..], stringify)
  }

  /** Every event keeps the session consistent, mirrored in storage, and its two entries paired. */
  lemma StepPreserves(s: Session, e: SessionEvent, stringify: User -> string)
    requires Consistent(s) && Mirrored(s)
    ensures Consistent(Step(s, e, stringify)) && Mirrored(Step(s, e, stringify))
    ensures Paired(s.storage) ==> Paired(Step(s, e, stringify).storage)
  {
  }

  /** From start-up on, whatever the stored data and whatever sequence of logins, registrations, logouts and
      profile fetches follows: `authenticated == (token != null)`, an authenticated session is backed by storage,
      and entries that started out paired stay paired. */
  lemma {:induction false} SessionInvariants(storage: map<string, string>, parse: string -> Option<User>,
                                             events: seq<SessionEvent>, stringify: User -> string)
    ensures var s := Run(Restore(Initial(storage), parse), events, stringify);
      Consistent(s) && Mirrored(s) && (Paired(storage) ==> Paired(s.storage))
  {
    RunPreserves(Restore(Initial(storage), parse), events, stringify);
  }

  lemma {:induction false} RunPreserves(s: Session, events: seq<SessionEvent>, stringify: User -> string)
    requires Consistent(s) && Mirrored(s)
    ensures Consistent(Run(s, events, stringify)) && Mirrored(Run(s, events, stringify))
    ensures Paired(s.storage) ==> Paired(Run(s, events, stringify).storage)
    decreases |events|
  {
    if events != [] {
      StepPreserves(s, events[0], stringify);
      RunPreserves(Step(s, events[0], stringify), events[1..], stringify);
    }
  }

  /** The service object. */
  class AuthService {
    const storage: LocalStorage
    const parse: string -> Option<User>
    const stringify: User -> string

    var token: Option<string>
    var currentUser: Option<User>
    var authenticated: bool

    function State(): Session
      reads this, storage
    {
      Session(token, currentUser, authenticated, storage.items)
    }

    ghost predicate Valid()
      reads this, storage
    {
      Consistent(State()) && Mirrored(State())
    }

    /** The constructor runs loadStoredAuth. */
    constructor (storage: LocalStorage, parse: string -> Option<User>, stringify: User -> string)
      modifies storage
      ensures this.storage == storage && this.parse == parse && this.stringify == stringify
      ensures State() == Restore(Initial(old(storage.items)), parse)
      ensures Valid()
    {
      this.storage := storage;
      this.parse := parse;
      this.stringify := stringify;
      token := None;
      currentUser := None;
      authenticated := false;
      new;
      LoadStoredAuth();
    }

    method LoadStoredAuth()
      modifies this, storage
      ensures State() == Restore(old(State()), parse)
    {
      var t := storage.GetItem(TokenKey);
      var u := storage.GetItem(UserKey);
      if t.Some? && t.value != "" && u.Some? && u.value != "" {
        match parse(u.value)
        case Some(userData) =>
          token := Some(t.value);
          currentUser := Some(userData);
          authenticated := true;
        case None =>
          ClearStoredAuth();
      }
    }

    method HandleAuthSuccess(response: AuthResponse)
      modifies this, storage
      ensures State() == SignedIn(old(State()), response, stringify)
      ensures Valid()
    {
      storage.SetItem(TokenKey, response.token);
      storage.SetItem(UserKey, stringify(response.user));
      token := Some(response.token);
      currentUser := Some(response.user);
      authenticated := true;
    }

    method ClearStoredAuth()
      modifies storage
      ensures storage.items == old(storage.items) - {TokenKey, UserKey}
    {
      storage.RemoveItem(TokenKey);
      storage.RemoveItem(UserKey);
    }

    method Logout()
      modifies this, storage
      ensures State() == SignedOut(old(State()))
      ensures Valid()
    {
      ClearStoredAuth();
      token := None;
      currentUser := None;
      authenticated := false;
    }

    /** login and register after the HTTP call: a success goes through handleAuthSuccess and is passed on;
        a failure changes nothing and surfaces as the normalised message. */
    method CompleteAuth(outcome: Result<AuthResponse, HttpError>) returns (r: Result<AuthResponse, string>)
      requires Valid()
      modifies this, storage
      ensures Valid()
      ensures outcome.Success? ==> State() == SignedIn(old(State()), outcome.value, stringify) && r == Success(outcome.value)
      ensures outcome.Failure? ==> State() == old(State()) && r == Failure(ErrorMessage(outcome.error))
    {
      match outcome
      case Success(response) =>
        HandleAuthSuccess(response);
        r := Success(response);
      case Failure(e) =>
        r := Failure(ErrorMessage(e));
    }

    /** getProfile after the HTTP call: a success replaces only the user. */
    method CompleteProfile(outcome: Result<User, HttpError>) returns (r: Result<User, string>)
      requires Valid()
      modifies this
      ensures Valid()
      ensures outcome.Success? ==> State() == ProfileLoaded(old(State()), outcome.value) && r == Success(outcome.value)
      ensures outcome.Failure? ==> State() == old(State()) && r == Failure(ErrorMessage(outcome.error))
    {
      match outcome
      case Success(user) =>
        currentUser := Some(user);
        r := Success(user);
      case Failure(e) =>
        r := Failure(ErrorMessage(e));
    }

    /** getToken: there is a token exactly when the session is authenticated. */
    function GetToken(): (t: Option<string>)
      reads this, storage
      requires Valid()
      ensures t.Some? <==> authenticated
      ensures t.Some? ==> TokenKey in storage.items && t.value == storage.items[TokenKey]
    {
      token
    }

    /** The current user subject's value. */
    function GetCurrentUser(): (u: Option<User>)
      reads this, storage
      ensures u == State().user
    {
      currentUser
    }
  }
}
