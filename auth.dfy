/** The session of `context/auth-context.tsx`: the signed-in user and the
    login-dialog flag, kept in step with two keys of the browser's
    `localStorage` ("authToken" and "userData"). */
module Auth {
  import opened Common
  import opened Foreign

  const TokenKey := "authToken"
  const UserKey := "userData"

  /** `localStorage`: a string-to-string store shared by every screen. */
  class LocalStorage {
    var items: map<string, string>

    constructor (initial: map<string, string>)
      ensures items == initial
    {
      items := initial;
    }

    /** `getItem`: `null` when the key is absent. */
    function GetItem(key: string): (r: Option<string>)
      reads this`items
      ensures r.Some? <==> key in items
      ensures r.Some? ==> r.value == items[key]
    {
      if key in items then Some(items[key]) else None
    }

    method SetItem(key: string, value: string)
      modifies this`items
      ensures items == old(items)[key := value]
    {
      items := items[key := value];
    }

    method RemoveItem(key: string)
      modifies this`items
      ensures items == old(items) - {key}
    {
      items := items - {key};
    }
  }

  /** The user record the provider exposes. */
  datatype UserData = UserData(name: string, email: string, isAdmin: bool, token: string, role: string)

  /** The part of the user written under "userData" as JSON. */
  datatype StoredUser = StoredUser(name: string, email: string, role: string)

  /** The user `login` keeps: the fields it was given, except that
      `isAdmin` is recomputed from the role and the incoming flag ignored. */
  function SignedIn(u: UserData): (r: UserData)
    ensures r.isAdmin <==> u.role == "admin"
    ensures r.name == u.name && r.email == u.email && r.token == u.token && r.role == u.role
  {
    UserData(u.name, u.email, u.role == "admin", u.token, u.role)
  }

  /** The store after `login`: the token and the JSON of name, email and
      role, every other key as it was. */
  function AfterLogin(items: map<string, string>, u: UserData, json: JsonCodec<StoredUser>): (r: map<string, string>)
    ensures TokenKey in r && r[TokenKey] == u.token
    ensures UserKey in r && r[UserKey] == json.stringify(StoredUser(u.name, u.email, u.role))
    ensures forall k :: k != TokenKey && k != UserKey ==> (k in r <==> k in items) && (k in items ==> r[k] == items[k])
  {
    items[TokenKey := u.token][UserKey := json.stringify(StoredUser(u.name, u.email, u.role))]
  }

  /** The store after `logout`: both keys gone, every other key kept. */
  function AfterLogout(items: map<string, string>): (r: map<string, string>)
    ensures TokenKey !in r && UserKey !in r
    ensures forall k :: k != TokenKey && k != UserKey ==> (k in r <==> k in items) && (k in items ==> r[k] == items[k])
  {
    items - {TokenKey, UserKey}
  }

  /** What `loadUserFromStorage` finds: a user only when both keys hold
      non-empty text and the user record parses. */
  function Restored(items: map<string, string>, json: JsonCodec<StoredUser>): (r: Option<UserData>)
    ensures r.Some? <==> TokenKey in items && items[TokenKey] != "" && UserKey in items && items[UserKey] != "" &&
                         json.parse(items[UserKey]).Some?
    ensures r.Some? ==> r.value.token == items[TokenKey] && r.value.isAdmin == (r.value.role == "admin")
  {
    if TokenKey in items && items[TokenKey] != "" && UserKey in items && items[UserKey] != "" then
      match json.parse(items[UserKey])
      case Some(p) => Some(UserData(p.name, p.email, p.role == "admin", items[TokenKey], p.role))
      case None => None
    else None
  }

  /** Signing in and then loading the page again restores the same user:
      name, email, role and token, with `isAdmin` derived from the role. */
  lemma LoginThenReload(items: map<string, string>, u: UserData, json: JsonCodec<StoredUser>)
    requires JsonLawful(json) && u.token != ""
    ensures Restored(AfterLogin(items, u, json), json) == Some(SignedIn(u))
  {
    var stored := StoredUser(u.name, u.email, u.role);
    assert json.parse(json.stringify(stored)) == Some(stored) && json.stringify(stored) != "";
  }

  /** A session whose token is the empty string is held in memory but is
      lost on reload, because the empty token is falsy. */
  lemma EmptyTokenLostOnReload(items: map<string, string>, u: UserData, json: JsonCodec<StoredUser>)
    requires u.token == ""
    ensures Restored(AfterLogin(items, u, json), json) == None
  {
  }

  /** After `logout` a reload restores nobody, and logging out twice is
      logging out once. */
  lemma LogoutThenReload(items: map<string, string>, json: JsonCodec<StoredUser>)
    ensures Restored(AfterLogout(items), json) == None
    ensures AfterLogout(AfterLogout(items)) == AfterLogout(items)
  {
  }

  /** The provider of `useAuth()`. */
  class AuthContext {
    var user: Option<UserData>
    var isLoginOpen: bool
    var isLoading: bool
    const storage: LocalStorage
    const json: JsonCodec<StoredUser>

    /** Before the mount effect runs: nobody signed in, still loading. */
    constructor (storage: LocalStorage, json: JsonCodec<StoredUser>)
      ensures this.storage == storage && this.json == json
      ensures user == None && !isLoginOpen && isLoading
    {
      this.storage := storage;
      this.json := json;
      user := None;
      isLoginOpen := false;
      isLoading := true;
    }

    /** The mount effect `loadUserFromStorage`: the stored user when there
        is one, otherwise the user is left as it was (nobody, on mount);
        loading ends either way. */
    method LoadUserFromStorage()
      modifies this`user, this`isLoading
      ensures Restored(storage.items, json).Some? ==> user == Restored(storage.items, json)
      ensures Restored(storage.items, json).None? ==> user == old(user)
      ensures !isLoading
    {
      var token := storage.GetItem(TokenKey);
      var data := storage.GetItem(UserKey);
      if token.Some? && token.value != "" && data.Some? && data.value != "" {
        var parsed := json.parse(data.value);
        if parsed.Some? {
          var p := parsed.value;
          user := Some(UserData(p.name, p.email, p.role == "admin", token.value, p.role));
        }
      }
      isLoading := false;
    }

    /** `login`: keeps the user with `isAdmin` derived from the role, writes
        both keys, and closes the login dialog. */
    method Login(u: UserData)
      modifies this`user, this`isLoginOpen, storage`items
      ensures user == Some(SignedIn(u))
      ensures storage.items == AfterLogin(old(storage.items), u, json)
      ensures !isLoginOpen
    {
      user := Some(UserData(u.name, u.email, u.role == "admin", u.token, u.role));
      storage.SetItem(TokenKey, u.token);
      storage.SetItem(UserKey, json.stringify(StoredUser(u.name, u.email, u.role)));
      isLoginOpen := false;
    }

    /** `logout`: nobody signed in and both keys removed; the dialog flag is
        left as it is. */
    method Logout()
      modifies this`user, storage`items
      ensures user == None
      ensures storage.items == AfterLogout(old(storage.items))
    {
      user := None;
      storage.RemoveItem(TokenKey);
      storage.RemoveItem(UserKey);
    }

    method OpenLogin()
      modifies this`isLoginOpen
      ensures isLoginOpen
    {
      isLoginOpen := true;
    }

    method CloseLogin()
      modifies this`isLoginOpen
      ensures !isLoginOpen
    {
      isLoginOpen := false;
    }
  }
}
